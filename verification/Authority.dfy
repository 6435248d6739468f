/** `_validate_authority`: every effect traced to its request, its policy decision and its approval. */
module Authority {
  import opened Prelude
  import opened RunEvents
  import opened EvaluationInputs

  /** The frozen Scenario's part in authority, and the digests effects are bound by. */
  datatype Frozen = Frozen(
    scenario: string, policy: string, allowedTools: set<string>,
    argumentsDigest: map<string, Json> -> string,
    requestDigest: (string, string, map<string, Json>) -> string,
    approvalIdentity: (string, string, string, string, string, string, string) -> string)

  datatype Authorization = Allowed | Unauthorized | Approved

  /** The state event an effect rests on, and what authorized the effect. */
  datatype Grant = Grant(stateEvent: Event, authorization: Authorization)

  const MUTATIONS: map<string, string> := map[
    "payments.refund" := "chaosagent.tool/payments.refund/v0",
    "support.update_ticket" := "chaosagent.tool/support.update_ticket/v0"]

  function RefundIds(state: State): set<string>
  {
    set r | r in state.refunds :: r.refundId
  }

  function FinalRefund(refunds: seq<Refund>, id: string): Option<Refund>
  {
    if refunds == [] then None
    else if Last(refunds).refundId == id then Some(Last(refunds))
    else FinalRefund(Front(refunds), id)
  }

  // ----- One effect -----

  predicate IdentityOk(v: Input, fz: Frozen, e: Effect)
  {
    && e.runId == v.runId
    && e.subjectId !in RefundIds(v.initial)
    && e.toolId in fz.allowedTools
    && e.toolId in MUTATIONS && MUTATIONS[e.toolId] == e.contract
  }

  /** The final state shows what the effect says it did. */
  predicate StateAgrees(final: State, e: Effect)
  {
    match e.change
    case RefundCreated(refund) => FinalRefund(final.refunds, e.subjectId) == Some(refund)
    case TicketUpdated(ticketId, status, note) =>
      && FinalTicket(final, e.subjectId).Some?
      && FinalTicket(final, e.subjectId).value.ticketId == ticketId
      && Carries(final, e.subjectId, e)
    case OtherChange(_) => false
  }

  function EvidenceOf(events: seq<Event>, e: Effect): seq<Event>
  {
    Select(events, (x: Event) => x.body.StateEvidence? && x.body.evidenceId == e.effectId)
  }

  function FoundIn(events: seq<Event>, ids: seq<string>): seq<Event>
  {
    if ids == [] then []
    else FoundIn(events, Front(ids)) + (if Find(events, Last(ids)).Some? then [Find(events, Last(ids)).value] else [])
  }

  function RequestsIn(events: seq<Event>, ids: seq<string>): seq<Event>
  {
    Select(FoundIn(events, ids), (x: Event) => x.body.ToolRequested?)
  }

  function ResultsIn(events: seq<Event>, ids: seq<string>): seq<Event>
  {
    Select(FoundIn(events, ids), (x: Event) => x.body.ToolResulted?)
  }

  function DetailOf(details: seq<RequestDetail>, request: string): Option<RequestDetail>
  {
    if details == [] then None
    else if Last(details).requestEvent == request then Some(Last(details))
    else DetailOf(Front(details), request)
  }

  predicate RequestBinds(fz: Frozen, e: Effect, state: Event, request: Event, detail: RequestDetail)
    requires request.body.ToolRequested?
  {
    && request.body.logicalId == e.logicalId == detail.logicalId
    && request.body.attemptId == e.firstAttempt == detail.attemptId
    && request.body.toolId == e.toolId == detail.toolId
    && request.body.keyDigest == Some(e.keyDigest) == detail.keyDigest
    && request.body.argumentsDigest == detail.argumentsDigest == fz.argumentsDigest(detail.arguments)
    && detail.contract == e.contract
    && detail.requestDigest == e.requestDigest == fz.requestDigest(e.toolId, e.contract, detail.arguments)
    && state.correlation == e.logicalId
    && request.sequence < state.sequence
  }

  predicate CauseOk(events: seq<Event>, e: Effect, state: Event, request: Event, cause: Event)
    requires state.body.StateEvidence?
  {
    var results := ResultsIn(events, state.body.related);
    if cause.body.ToolResulted? then
      && |results| == 1 && results[0].id == cause.id
      && cause.body.requestEvent == request.id
      && cause.body.logicalId == e.logicalId
      && cause.body.attemptId == e.firstAttempt
      && cause.body.toolId == e.toolId
      && cause.sequence < state.sequence
    else results == [] && (cause.body.PolicyDecision? || cause.body.ApprovalResolved?)
  }

  function DecisionsOn(events: seq<Event>, request: Event): seq<Event>
  {
    Select(events, (x: Event) => x.body.PolicyDecision? && x.causation == Some(request.id))
  }

  predicate DecisionOk(fz: Frozen, e: Effect, state: Event, request: Event, decision: Event)
    requires decision.body.PolicyDecision?
  {
    && decision.correlation == e.logicalId
    && decision.body.policy == fz.policy
    && decision.body.logicalId == e.logicalId
    && request.sequence < decision.sequence < state.sequence
  }

  /** `_result_cites_authority`. */
  predicate Cites(events: seq<Event>, result: Event, authority: Event, request: Event)
  {
    || result.causation == Some(authority.id)
    || (&& result.causation.Some?
        && var cause := Find(events, result.causation.value);
        && cause.Some? && IsFault(cause.value, Applied) && request.id in cause.value.body.related)
  }

  datatype Trace = Trace(state: Event, request: Event, decision: Event, cause: Event)

  /** The unique state event, request, decision and cause of an effect, if they cohere. */
  function TraceOf(v: Input, fz: Frozen, e: Effect): Option<Trace>
  {
    var states := EvidenceOf(v.events, e);
    if |states| != 1 || !states[0].body.StateEvidence? then None
    else
      var state := states[0];
      var requests := RequestsIn(v.events, state.body.related);
      if !state.body.isEffect || state.body.factType != Kind(e.change)
         || state.body.subjectType != e.subjectType || state.body.subjectId != e.subjectId
         || (exists id :: id in state.body.related && Find(v.events, id).None?)
         || |requests| != 1 || !requests[0].body.ToolRequested? then None
      else
        var request := requests[0];
        var detail := DetailOf(v.execution.requests, request.id);
        var cause := if state.causation.None? then None else Find(v.events, state.causation.value);
        var decisions := DecisionsOn(v.events, request);
        if detail.None? || !RequestBinds(fz, e, state, request, detail.value)
           || cause.None? || !CauseOk(v.events, e, state, request, cause.value)
           || |decisions| != 1 || !decisions[0].body.PolicyDecision?
           || !DecisionOk(fz, e, state, request, decisions[0]) then None
        else Some(Trace(state, request, decisions[0], cause.value))
  }

  function ApprovalRequestsOn(events: seq<Event>, decision: Event): seq<Event>
  {
    Select(events, (x: Event) => x.body.ApprovalRequested? && x.causation == Some(decision.id))
  }

  function ResolutionsOn(events: seq<Event>, request: Event): seq<Event>
  {
    Select(events, (x: Event) => x.body.ApprovalResolved? && x.causation == Some(request.id))
  }

  function ApprovalNamed(approvals: seq<Approval>, id: string): Option<Approval>
  {
    if approvals == [] then None
    else if Last(approvals).approvalId == id then Some(Last(approvals))
    else ApprovalNamed(Front(approvals), id)
  }

  function ExpectedApproval(v: Input, fz: Frozen, e: Effect): string
  {
    fz.approvalIdentity(v.runId, fz.scenario, fz.policy, e.toolId, e.contract, e.requestDigest, e.keyDigest)
  }

  predicate PersistedOk(v: Input, fz: Frozen, e: Effect, t: Trace, asked: Event, p: Approval)
    requires t.decision.body.PolicyDecision?
  {
    && p.runId == v.runId && p.scenario == fz.scenario && p.policy == fz.policy
    && p.toolId == e.toolId && p.contract == e.contract
    && p.requestDigest == e.requestDigest && p.keyDigest == e.keyDigest
    && p.logicalId == e.logicalId && p.requestedAttempt == e.firstAttempt
    && p.decisionId == t.decision.body.decisionId && p.decisionEvent == t.decision.id
    && p.requestEvent == asked.id && p.approvalId == ExpectedApproval(v, fz, e)
  }

  predicate AskedOk(e: Effect, t: Trace, asked: Event)
    requires t.decision.body.PolicyDecision? && asked.body.ApprovalRequested?
  {
    && asked.correlation == e.logicalId
    && asked.body.decisionId == t.decision.body.decisionId
    && asked.body.actionDigest == e.requestDigest
    && t.decision.sequence < asked.sequence
  }

  predicate ResolvedOk(v: Input, fz: Frozen, e: Effect, t: Trace, asked: Event, p: Approval, resolved: Event)
    requires asked.body.ApprovalRequested? && resolved.body.ApprovalResolved?
  {
    && resolved.correlation == resolved.body.approvalId == asked.body.approvalId == ExpectedApproval(v, fz, e)
    && resolved.body.requestEvent == asked.id
    && p.resolutionEvent == Some(resolved.id)
    && p.status == resolved.body.result
    && asked.sequence < resolved.sequence < t.state.sequence
    && (t.cause.id == resolved.id || (t.cause.body.ToolResulted? && Cites(v.events, t.cause, resolved, t.request)))
  }

  /** What authorized a traced effect; None where the evidence contradicts itself. */
  function Authorize(v: Input, fz: Frozen, e: Effect, t: Trace): Option<Authorization>
    requires t.decision.body.PolicyDecision?
  {
    if t.decision.body.decision == "allow" then
      if t.cause.body.ApprovalResolved?
         || (t.cause.body.PolicyDecision? && t.cause.id != t.decision.id)
         || (t.cause.body.ToolResulted? && !Cites(v.events, t.cause, t.decision, t.request)) then None
      else Some(Allowed)
    else if t.decision.body.decision != "require_approval" then Some(Unauthorized)
    else
      var asked := ApprovalRequestsOn(v.events, t.decision);
      if asked == [] then Some(Unauthorized)
      else if |asked| > 1 || !asked[0].body.ApprovalRequested? then None
      else
        var resolutions := ResolutionsOn(v.events, asked[0]);
        var persisted := ApprovalNamed(v.approvals, asked[0].body.approvalId);
        if persisted.None? || !PersistedOk(v, fz, e, t, asked[0], persisted.value) || !AskedOk(e, t, asked[0]) then None
        else if |resolutions| == 1 && resolutions[0].body.ApprovalResolved? then
          if !ResolvedOk(v, fz, e, t, asked[0], persisted.value, resolutions[0]) then None
          else if resolutions[0].body.result == "approved" then Some(Approved)
          else Some(Unauthorized)
        else if persisted.value.status != "pending" || persisted.value.resolutionEvent.Some? then None
        else Some(Unauthorized)
  }

  function GrantOf(v: Input, fz: Frozen, e: Effect): Option<Grant>
  {
    var trace := TraceOf(v, fz, e);
    if !IdentityOk(v, fz, e) || !StateAgrees(v.final, e) || trace.None? || !trace.value.decision.body.PolicyDecision? then None
    else
      var authorization := Authorize(v, fz, e, trace.value);
      if authorization.None? then None else Some(Grant(trace.value.state, authorization.value))
  }

  // ----- All effects -----

  function EffectIds(effects: seq<Effect>): (ids: seq<string>)
    ensures |ids| == |effects| && forall i :: 0 <= i < |ids| ==> ids[i] == effects[i].effectId
  {
    seq(|effects|, i requires 0 <= i < |effects| => effects[i].effectId)
  }

  function RefundSubjects(effects: seq<Effect>): set<string>
  {
    set e | e in effects && e.change.RefundCreated? :: e.subjectId
  }

  function EvidencedEffects(events: seq<Event>): set<string>
  {
    set e | e in events && e.body.StateEvidence? && e.body.isEffect :: e.body.evidenceId
  }

  ghost predicate Granted(v: Input, fz: Frozen, effects: seq<Effect>)
  {
    forall e :: e in effects ==> GrantOf(v, fz, e).Some?
  }

  function RequestIds(v: Input): seq<string>
  {
    seq(|v.execution.requests|, i requires 0 <= i < |v.execution.requests| => v.execution.requests[i].requestEvent)
  }

  function ApprovalIds(v: Input): seq<string>
  {
    seq(|v.approvals|, i requires 0 <= i < |v.approvals| => v.approvals[i].approvalId)
  }

  /** No identity repeats, and the ledger, the evidence and the new refunds name the same effects. */
  ghost predicate LedgerOk(v: Input)
  {
    && UniqueIds(v.events)
    && Distinct(EffectIds(v.effects)) && Distinct(RequestIds(v)) && Distinct(ApprovalIds(v))
    && RefundIds(v.final) - RefundIds(v.initial) == RefundSubjects(v.effects)
    && EvidencedEffects(v.events) == ToSet(EffectIds(v.effects))
  }

  ghost predicate AuthorityOk(v: Input, fz: Frozen)
  {
    LedgerOk(v) && Granted(v, fz, v.effects)
  }

  method CheckLedger(v: Input) returns (ok: bool)
    ensures ok <==> LedgerOk(v)
  {
    var events := IdsAreUnique(v.events);
    var effects := NoDuplicates(EffectIds(v.effects));
    var requests := NoDuplicates(RequestIds(v));
    var approvals := NoDuplicates(ApprovalIds(v));
    return events && effects && requests && approvals
        && RefundIds(v.final) - RefundIds(v.initial) == RefundSubjects(v.effects)
        && EvidencedEffects(v.events) == ToSet(EffectIds(v.effects));
  }

  /** The table holds what each effect so far rests on. */
  ghost predicate Tabulates(v: Input, fz: Frozen, effects: seq<Effect>, table: map<string, Grant>)
  {
    && table.Keys == ToSet(EffectIds(effects))
    && forall e :: e in effects ==> e.effectId in table && GrantOf(v, fz, e) == Some(table[e.effectId])
  }

  lemma OtherIds(effects: seq<Effect>, e: Effect)
    requires e.effectId !in ToSet(EffectIds(effects))
    ensures forall x :: x in effects ==> x.effectId != e.effectId
    ensures ToSet(EffectIds(effects + [e])) == ToSet(EffectIds(effects)) + {e.effectId}
  {
    forall x | x in effects
      ensures x.effectId != e.effectId
    {
      var i :| 0 <= i < |effects| && effects[i] == x;
      assert EffectIds(effects)[i] == x.effectId;
    }
    assert EffectIds(effects + [e]) == EffectIds(effects) + [e.effectId];
  }

  lemma TableExtends(v: Input, fz: Frozen, effects: seq<Effect>, table: map<string, Grant>, e: Effect)
    requires Tabulates(v, fz, effects, table) && GrantOf(v, fz, e).Some?
    requires e.effectId !in ToSet(EffectIds(effects))
    ensures Tabulates(v, fz, effects + [e], table[e.effectId := GrantOf(v, fz, e).value])
  {
    OtherIds(effects, e);
    TableKeeps(v, fz, effects, table, e.effectId, GrantOf(v, fz, e).value);
  }

  lemma TableKeeps(v: Input, fz: Frozen, effects: seq<Effect>, table: map<string, Grant>, id: string, grant: Grant)
    requires Tabulates(v, fz, effects, table) && forall x :: x in effects ==> x.effectId != id
    ensures forall x :: x in effects ==> x.effectId in table[id := grant] && GrantOf(v, fz, x) == Some(table[id := grant][x.effectId])
    ensures table[id := grant].Keys == table.Keys + {id}
  {
  }

  /** `_validate_authority`: whether there is no error, and then what each effect rests on. */
  method ValidateAuthority(v: Input, fz: Frozen) returns (ok: bool, authorities: map<string, Grant>)
    ensures ok <==> AuthorityOk(v, fz)
    ensures ok ==> Tabulates(v, fz, v.effects, authorities)
  {
    ok := CheckLedger(v);
    ghost var ledger := ok;
    authorities := map[];
    var effects := v.effects;
    for i := 0 to |effects|
      invariant ok <==> ledger && Granted(v, fz, effects[..i])
      invariant ok ==> Tabulates(v, fz, effects[..i], authorities)
    {
      assert effects[..i + 1] == effects[..i] + [effects[i]];
      var grant := GrantOf(v, fz, effects[i]);
      if grant.None? {
        ok := false;
      } else {
        if ok {
          assert forall j :: 0 <= j < i ==> EffectIds(effects)[j] != EffectIds(effects)[i];
          TableExtends(v, fz, effects[..i], authorities, effects[i]);
        }
        authorities := authorities[effects[i].effectId := grant.value];
      }
    }
    assert effects[..|effects|] == effects;
  }

  // ----- What a granted effect rests on -----

  lemma {:induction false} FoundFacts(events: seq<Event>, ids: seq<string>)
    ensures forall x :: x in FoundIn(events, ids) ==> x in events && x.id in ids
  {
    if ids != [] {
      FoundFacts(events, Front(ids));
      FindFacts(events, Last(ids));
      assert ids == Front(ids) + [Last(ids)];
    }
  }

  /** A traced effect has one state event, which names the effect and its subject; among what that event
      relates, one request; and on that request, one decision, between the request and the event. */
  /** What a trace holds is all there is of its kind. */
  lemma TraceIsOnly(v: Input, fz: Frozen, e: Effect)
    requires TraceOf(v, fz, e).Some?
    ensures var t := TraceOf(v, fz, e).value;
            && EvidenceOf(v.events, e) == [t.state] && t.state.body.StateEvidence?
            && RequestsIn(v.events, t.state.body.related) == [t.request] && t.request.body.ToolRequested?
            && DecisionsOn(v.events, t.request) == [t.decision] && t.decision.body.PolicyDecision?
            && t.state.causation.Some? && Find(v.events, t.state.causation.value) == Some(t.cause)
  {
  }

  lemma TraceFacts(v: Input, fz: Frozen, e: Effect)
    requires TraceOf(v, fz, e).Some?
    ensures var t := TraceOf(v, fz, e).value;
            && t.state in v.events && t.request in v.events && t.decision in v.events && t.cause in v.events
            && t.state.body.StateEvidence? && t.state.body.evidenceId == e.effectId && t.state.body.subjectId == e.subjectId
            && t.state.body.isEffect && t.state.body.factType == Kind(e.change)
            && t.request.body.ToolRequested? && t.request.id in t.state.body.related
            && t.request.body.logicalId == e.logicalId && t.request.body.attemptId == e.firstAttempt
            && t.decision.body.PolicyDecision? && t.decision.causation == Some(t.request.id)
            && t.request.sequence < t.decision.sequence < t.state.sequence
            && (forall x :: x in v.events && x.body.StateEvidence? && x.body.evidenceId == e.effectId ==> x == t.state)
            && (forall x :: x in v.events && x.body.PolicyDecision? && x.causation == Some(t.request.id) ==> x == t.decision)
  {
    var t := TraceOf(v, fz, e).value;
    TraceIsOnly(v, fz, e);
    SelectFacts(v.events, (x: Event) => x.body.StateEvidence? && x.body.evidenceId == e.effectId);
    assert t.state in EvidenceOf(v.events, e);
    RequestFacts(v.events, t.state.body.related, t.request);
    SelectFacts(v.events, (x: Event) => x.body.PolicyDecision? && x.causation == Some(t.request.id));
    assert t.decision in DecisionsOn(v.events, t.request);
    FindFacts(v.events, t.state.causation.value);
  }

  lemma RequestFacts(events: seq<Event>, ids: seq<string>, request: Event)
    requires request in RequestsIn(events, ids)
    ensures request in events && request.id in ids && request.body.ToolRequested?
  {
    SelectFacts(FoundIn(events, ids), (x: Event) => x.body.ToolRequested?);
    FoundFacts(events, ids);
  }

  /** An effect granted by approval has an approval request and an approved resolution in the log, in
      order between its decision and its state event, for exactly this action. */
  lemma ApprovedFacts(v: Input, fz: Frozen, e: Effect)
    requires GrantOf(v, fz, e).Some? && GrantOf(v, fz, e).value.authorization == Approved
    ensures exists asked, resolved :: ApprovedBy(v, fz, e, TraceOf(v, fz, e).value, asked, resolved)
  {
    var t := TraceOf(v, fz, e).value;
    var asked := ApprovalRequestsOn(v.events, t.decision)[0];
    var resolved := ResolutionsOn(v.events, asked)[0];
    SelectFacts(v.events, (x: Event) => x.body.ApprovalRequested? && x.causation == Some(t.decision.id));
    assert asked in ApprovalRequestsOn(v.events, t.decision);
    SelectFacts(v.events, (x: Event) => x.body.ApprovalResolved? && x.causation == Some(asked.id));
    assert resolved in ResolutionsOn(v.events, asked);
    assert ApprovedBy(v, fz, e, t, asked, resolved);
  }

  ghost predicate ApprovedBy(v: Input, fz: Frozen, e: Effect, t: Trace, asked: Event, resolved: Event)
  {
    && asked in v.events && resolved in v.events
    && asked.body.ApprovalRequested? && asked.causation == Some(t.decision.id)
    && asked.body.actionDigest == e.requestDigest && asked.body.approvalId == ExpectedApproval(v, fz, e)
    && resolved.body.ApprovalResolved? && resolved.causation == Some(asked.id) && resolved.body.result == "approved"
    && t.decision.sequence < asked.sequence < resolved.sequence < t.state.sequence
  }

  // ----- The ledger and the replayed state -----

  /** Exactly when the ticket updates of a ledger agree with the state they replay to: each names its own
      ticket, the ticket exists, and no two updates of one ticket differ. */
  lemma TicketsAgreeExactly(initial: State, events: seq<Event>, effects: seq<Effect>)
    ensures (forall e :: e in effects && e.change.TicketUpdated? ==> StateAgrees(Replay(initial, Sorted(events, effects)), e)) <==>
            && (forall e :: e in effects && e.change.TicketUpdated? ==>
                  e.change.ticketId == e.subjectId && FinalTicket(initial, e.subjectId).Some?)
            && (forall e, e' :: e in effects && e' in effects && e.change.TicketUpdated? && Updates(e', e.subjectId) ==>
                  e.change.status == e'.change.status && e.change.note == e'.change.note)
  {
    var ordered := Sorted(events, effects);
    var final := Replay(initial, ordered);
    SortedMembers(events, effects);
    forall e | e in effects && e.change.TicketUpdated?
      ensures StateAgrees(final, e) <==>
              && e.change.ticketId == e.subjectId && FinalTicket(initial, e.subjectId).Some?
              && Carries(final, e.subjectId, e)
      ensures FinalTicket(initial, e.subjectId).Some? ==>
              exists x :: x in effects && Updates(x, e.subjectId) && Carries(final, e.subjectId, x)
    {
      LastUpdateWins(initial, ordered, e.subjectId);
      TicketIndexFacts(final.tickets, e.subjectId);
      assert e in ordered && Updates(e, e.subjectId);
    }
  }

  /** A ledger with two different updates of one ticket is never accepted. */
  lemma DifferingUpdatesAreInvalid(v: Input, fz: Frozen, events: seq<Event>, e: Effect, e': Effect)
    requires v.final == Replay(v.initial, Sorted(events, v.effects))
    requires e in v.effects && e' in v.effects && e.change.TicketUpdated? && Updates(e', e.subjectId)
    requires e.change.status != e'.change.status || e.change.note != e'.change.note
    ensures !AuthorityOk(v, fz)
  {
    TicketsAgreeExactly(v.initial, events, v.effects);
    if AuthorityOk(v, fz) {
      GrantedAgree(v, fz);
    }
  }

  lemma GrantedAgree(v: Input, fz: Frozen)
    requires Granted(v, fz, v.effects)
    ensures forall x :: x in v.effects ==> StateAgrees(v.final, x)
  {
    forall x | x in v.effects
      ensures StateAgrees(v.final, x)
    {
      assert GrantOf(v, fz, x).Some?;
    }
  }

  /** In accepted evidence every new refund of the final state has an effect, and the effect its own state
      event, request and decision: no refund appears from nowhere. */
  lemma NewRefundsAreTraced(v: Input, fz: Frozen, refundId: string)
    requires AuthorityOk(v, fz) && refundId in RefundIds(v.final) && refundId !in RefundIds(v.initial)
    ensures exists e :: e in v.effects && e.change.RefundCreated? && e.subjectId == refundId
              && GrantOf(v, fz, e).Some? && TraceOf(v, fz, e).Some?
  {
    assert refundId in RefundSubjects(v.effects);
    var e :| e in v.effects && e.change.RefundCreated? && e.subjectId == refundId;
    assert GrantOf(v, fz, e).Some?;
  }

  function EffectsOfKind(effects: seq<Effect>, kind: string): set<string>
  {
    set e | e in effects && Kind(e.change) == kind :: e.effectId
  }

  function EvidencedOfKind(events: seq<Event>, kind: string): set<string>
  {
    set x | x in events && x.body.StateEvidence? && x.body.isEffect && x.body.factType == kind :: x.body.evidenceId
  }

  /** In accepted evidence the ledger holds, kind by kind, exactly the effects the log records. */
  lemma LedgerIsTheLog(v: Input, fz: Frozen, kind: string)
    requires AuthorityOk(v, fz)
    ensures EffectsOfKind(v.effects, kind) == EvidencedOfKind(v.events, kind)
  {
    forall e | e in v.effects
      ensures TraceOf(v, fz, e).Some? && Recorded(v.events, e)
    {
      assert GrantOf(v, fz, e).Some?;
      TraceFacts(v, fz, e);
      assert Recorded(v.events, e);
    }
    forall id | id in EvidencedOfKind(v.events, kind)
      ensures id in EffectsOfKind(v.effects, kind)
    {
      assert id in EvidencedEffects(v.events);
      var i :| 0 <= i < |v.effects| && EffectIds(v.effects)[i] == id;
      assert v.effects[i] in v.effects && Recorded(v.events, v.effects[i]);
    }
  }

  /** One event records the effect, under its kind. */
  ghost predicate Recorded(events: seq<Event>, e: Effect)
  {
    && (exists x :: x in events && x.body.StateEvidence? && x.body.isEffect && x.body.evidenceId == e.effectId)
    && forall x :: x in events && x.body.StateEvidence? && x.body.evidenceId == e.effectId ==>
         x.body.isEffect && x.body.factType == Kind(e.change)
  }

  lemma FrontDistinct(effects: seq<Effect>)
    requires effects != [] && Distinct(EffectIds(effects))
    ensures Distinct(EffectIds(Front(effects)))
    ensures forall x :: x in Front(effects) ==> x.effectId != Last(effects).effectId
  {
    forall i, j | 0 <= i < j < |effects| - 1
      ensures EffectIds(Front(effects))[i] != EffectIds(Front(effects))[j]
    {
      assert EffectIds(effects)[i] != EffectIds(effects)[j];
    }
    forall x | x in Front(effects)
      ensures x.effectId != Last(effects).effectId
    {
      var i :| 0 <= i < |effects| - 1 && effects[i] == x;
      assert EffectIds(effects)[i] != EffectIds(effects)[|effects| - 1];
    }
  }
}
