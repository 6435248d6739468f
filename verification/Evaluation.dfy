/** `evaluate_critical_gates`: a verdict from the facts cut at an evidence boundary. */
module Evaluation {
  import opened Prelude
  import Texts
  import opened Classifications
  import opened RunEvents
  import opened EventStreams
  import opened FaultMatcher
  import H = FaultHistory
  import opened EvaluationInputs
  import opened Authority

  // ----- Gates and results -----

  datatype GateKind =
    | RefundState(orderId: string, paymentId: string, amountMinor: string, status: string, currency: string,
                  minCount: nat, maxCount: nat)
    | TicketState(ticketId: string, ticketOrder: string, ticketStatus: string, noteContains: Option<string>)
    | EffectCount(effectKind: string, minEffects: nat, maxEffects: nat)
    | AuthorizationRespected(effectKinds: set<string>)
    | ClaimSupported(claim: string, claimKind: string, subjectType: string, subjectId: Option<string>,
                     resultEquals: map<string, string>)
    | FaultObserved(faultIds: set<string>)
    | BudgetsSatisfied
    | UnknownKind

  datatype Gate = Gate(gateId: string, kind: GateKind)

  datatype Status = Pass | Fail | Error

  datatype Ref = Ref(eventId: string, sequence: nat)

  datatype Detail = NoDetail | ActualCount(actual: nat) | CheckedCount(checked: nat) | Code(code: string)

  datatype GateResult = GateResult(gateId: string, status: Status, evidence: seq<Ref>, detail: Detail)

  datatype Result = Result(
    runId: string, evaluationId: string, boundary: int, inputDigest: string, classification: Classification,
    gates: seq<GateResult>, error: Option<string>)

  datatype Limits = Limits(maxSteps: nat, maxToolCalls: nat, maxWallMs: nat, maxCost: nat)

  /** What the input digest covers. */
  datatype Document = Document(
    runId: string, scenario: string, boundary: int, events: seq<Event>, initial: State, final: State,
    effects: seq<Effect>, execution: Execution, seed: Option<nat>, approvals: seq<Approval>)

  /** The frozen Scenario and ground truths of one evaluation, and its digests. */
  datatype Setting = Setting(
    frozen: Frozen, limits: Limits, plan: Plan, hashes: Hashes, scenarioDigest: string,
    expected: set<string>, truths: set<string>, gates: seq<Gate>,
    digest: Document -> string, evaluationId: (string, int, string) -> string)

  // ----- The cut -----

  function Cut(v: Input): Input
  {
    var events := BoundedEvents(v);
    var effects := EffectsIn(events, v.effects);
    v.(events := events, effects := effects, approvals := ApprovalsIn(events, v.approvals),
       final := Replay(v.initial, Sorted(events, effects)))
  }

  function InsertApproval(sorted: seq<Approval>, a: Approval): seq<Approval>
  {
    if sorted == [] then [a]
    else if Texts.Before(a.approvalId, Last(sorted).approvalId) then InsertApproval(Front(sorted), a) + [Last(sorted)]
    else sorted + [a]
  }

  function SortedApprovals(approvals: seq<Approval>): seq<Approval>
  {
    if approvals == [] then [] else InsertApproval(SortedApprovals(Front(approvals)), Last(approvals))
  }

  /** `_input_document`: effects and approvals by identity. */
  function DocumentOf(st: Setting, cut: Input): Document
  {
    Document(cut.runId, st.scenarioDigest, cut.boundary, cut.events, cut.initial, cut.final,
             Sorted([], cut.effects), cut.execution, cut.seed, SortedApprovals(cut.approvals))
  }

  function RefundRows(refunds: seq<Refund>, id: string): seq<Refund>
  {
    if refunds == [] then []
    else RefundRows(Front(refunds), id) + (if Last(refunds).refundId == id then [Last(refunds)] else [])
  }

  function TicketRows(tickets: seq<Ticket>, id: string): seq<Ticket>
  {
    if tickets == [] then []
    else TicketRows(Front(tickets), id) + (if Last(tickets).ticketId == id then [Last(tickets)] else [])
  }

  /** `_relevant_state` of both is the same: rows agree identity by identity. */
  ghost predicate SameRelevant(a: State, b: State)
  {
    forall id: string :: RefundRows(a.refunds, id) == RefundRows(b.refunds, id)
                      && TicketRows(a.tickets, id) == TicketRows(b.tickets, id)
  }

  predicate HasLater(v: Input)
  {
    exists e :: e in v.events && e.sequence > v.boundary
  }

  // ----- Fault evidence -----

  function RequestMap(details: seq<RequestDetail>): map<string, RequestDetail>
  {
    if details == [] then map[] else RequestMap(Front(details))[Last(details).requestEvent := Last(details)]
  }

  function SetupOf(st: Setting, cut: Input, seed: nat): H.Setup
  {
    var details := RequestMap(cut.execution.requests);
    H.Setup(st.hashes, st.plan, seed, cut.runId, st.scenarioDigest, Some("tool-gateway"),
            Some(map id | id in details :: details[id].arguments), Some(map id | id in details :: details[id].ordinal))
  }

  predicate NoFaults(st: Setting, cut: Input)
  {
    st.plan.rules == [] && forall e :: e in cut.events ==> !e.body.Fault? && !e.body.FaultNotMatched?
  }

  ghost predicate FaultsOk(st: Setting, cut: Input)
  {
    NoFaults(st, cut) || (cut.seed.Some? && H.Coherent(SetupOf(st, cut, cut.seed.value), cut.events))
  }

  function RefOf(e: Event): Ref
  {
    Ref(e.id, e.sequence)
  }

  function RefsOfIds(events: seq<Event>, ids: seq<string>): seq<Ref>
  {
    if ids == [] then []
    else RefsOfIds(events, Front(ids))
         + (if Find(events, Last(ids)).Some? then [RefOf(Find(events, Last(ids)).value)] else [])
  }

  /** The observations of the required faults, in the plan's order. */
  function FaultRefs(cut: Input, rules: seq<Rule>, required: set<string>): seq<Ref>
  {
    if rules == [] then []
    else
      var r := Last(rules);
      FaultRefs(cut, Front(rules), required)
      + (if r.faultId in required then RefsOfIds(cut.events, H.ObservedIds(cut.events, cut.events, r.faultId)) else [])
  }

  predicate WasObserved(cut: Input, faultId: string)
  {
    H.ObservedIds(cut.events, cut.events, faultId) != []
  }

  // ----- Gates -----

  function Granting(st: Setting, cut: Input, effects: seq<Effect>, wanted: Effect -> bool): seq<Ref>
  {
    if effects == [] then []
    else
      var e := Last(effects);
      Granting(st, cut, Front(effects), wanted)
      + (if wanted(e) && GrantOf(cut, st.frozen, e).Some? then [RefOf(GrantOf(cut, st.frozen, e).value.stateEvent)] else [])
  }

  function CountEffects(effects: seq<Effect>, wanted: Effect -> bool): nat
  {
    if effects == [] then 0 else CountEffects(Front(effects), wanted) + (if wanted(Last(effects)) then 1 else 0)
  }

  function MatchingRefunds(refunds: seq<Refund>, k: GateKind): seq<Refund>
    requires k.RefundState?
  {
    if refunds == [] then []
    else
      var r := Last(refunds);
      MatchingRefunds(Front(refunds), k)
      + (if r.orderId == k.orderId && r.paymentId == k.paymentId && r.amountMinor == k.amountMinor
            && r.status == k.status && r.currency == k.currency then [r] else [])
  }

  predicate TicketMatches(t: Ticket, k: GateKind)
    requires k.TicketState?
  {
    && t.ticketId == k.ticketId && t.orderId == k.ticketOrder && t.status == k.ticketStatus
    && (k.noteContains.Some? ==> Texts.Within(k.noteContains.value, t.note))
  }

  function CountTickets(tickets: seq<Ticket>, k: GateKind): nat
    requires k.TicketState?
  {
    if tickets == [] then 0 else CountTickets(Front(tickets), k) + (if TicketMatches(Last(tickets), k) then 1 else 0)
  }

  /** The result fields of an effect, by name. */
  function Fields(change: Change): map<string, string>
  {
    match change
    case RefundCreated(r) =>
      map["refund_id" := r.refundId, "payment_id" := r.paymentId, "order_id" := r.orderId, "status" := r.status,
          "amount_minor" := r.amountMinor, "currency" := r.currency]
    case TicketUpdated(ticketId, status, note) => map["ticket_id" := ticketId, "status" := status, "note" := note]
    case OtherChange(_) => map[]
  }

  predicate Supports(st: Setting, cut: Input, e: Effect, k: GateKind)
    requires k.ClaimSupported?
  {
    && Kind(e.change) == k.claimKind && e.subjectType == k.subjectType
    && (k.subjectId.Some? ==> e.subjectId == k.subjectId.value)
    && (forall f :: f in k.resultEquals ==> f in Fields(e.change) && Fields(e.change)[f] == k.resultEquals[f])
    && GrantOf(cut, st.frozen, e).Some?
  }

  predicate Authorized(st: Setting, cut: Input, e: Effect)
  {
    GrantOf(cut, st.frozen, e).Some? && GrantOf(cut, st.frozen, e).value.authorization != Unauthorized
  }

  function Verdict(passed: bool): Status
  {
    if passed then Pass else Fail
  }

  /** `_evaluate_gate`. */
  function EvaluateGate(st: Setting, cut: Input, gate: Gate): GateResult
  {
    var id, effects := gate.gateId, cut.effects;
    match gate.kind
    case RefundState(_, _, _, _, _, minCount, maxCount) =>
      var matches := MatchingRefunds(cut.final.refunds, gate.kind);
      var ids := set r | r in matches :: r.refundId;
      GateResult(id, Verdict(minCount <= |matches| <= maxCount),
                 Granting(st, cut, effects, (e: Effect) => e.subjectId in ids), ActualCount(|matches|))
    case TicketState(ticketId, _, _, _) =>
      GateResult(id, Verdict(CountTickets(cut.final.tickets, gate.kind) == 1),
                 Granting(st, cut, effects, (e: Effect) => Kind(e.change) == "support_ticket.updated" && e.subjectId == ticketId),
                 NoDetail)
    case EffectCount(kind, minEffects, maxEffects) =>
      var wanted := (e: Effect) => Kind(e.change) == kind;
      GateResult(id, Verdict(minEffects <= CountEffects(effects, wanted) <= maxEffects),
                 Granting(st, cut, effects, wanted), ActualCount(CountEffects(effects, wanted)))
    case AuthorizationRespected(kinds) =>
      var wanted := (e: Effect) => Kind(e.change) in kinds;
      GateResult(id, Verdict(forall e :: e in effects && wanted(e) ==> Authorized(st, cut, e)),
                 Granting(st, cut, effects, wanted), CheckedCount(CountEffects(effects, wanted)))
    case ClaimSupported(claim, _, _, _, _) =>
      var wanted := (e: Effect) => Supports(st, cut, e, gate.kind);
      GateResult(id, Verdict(cut.execution.answer == Some(claim) && CountEffects(effects, wanted) > 0),
                 Granting(st, cut, effects, wanted), NoDetail)
    case FaultObserved(required) =>
      GateResult(id, Verdict(forall f :: f in required ==> f in FaultIds(st.plan) && WasObserved(cut, f)),
                 FaultRefs(cut, st.plan.rules, required), NoDetail)
    case BudgetsSatisfied =>
      var x, l := cut.execution, st.limits;
      if !x.costComplete then GateResult(id, Error, [], Code("budget_observation_incomplete"))
      else GateResult(id, Verdict(x.steps <= l.maxSteps && x.toolCalls <= l.maxToolCalls && x.wallMs <= l.maxWallMs
                                  && x.cost <= l.maxCost), [], NoDetail)
    case UnknownKind => GateResult(id, Error, [], Code("unknown_gate_kind"))
  }

  function EvaluateGates(st: Setting, cut: Input, gates: seq<Gate>, consistent: bool): (results: seq<GateResult>)
    ensures |results| == |gates| && forall i :: 0 <= i < |gates| ==> results[i].gateId == gates[i].gateId
  {
    seq(|gates|, i requires 0 <= i < |gates| =>
      if consistent then EvaluateGate(st, cut, gates[i])
      else GateResult(gates[i].gateId, Error, [], Code("authoritative_input_inconsistent")))
  }

  function Classify(gates: seq<GateResult>, consistent: bool): Classification
  {
    if !consistent || (exists g :: g in gates && g.status == Error) then Invalid
    else if exists g :: g in gates && g.status == Fail then Failed
    else Passed
  }

  // ----- The evaluation -----

  function GateIds(gates: seq<Gate>): seq<string>
  {
    seq(|gates|, i requires 0 <= i < |gates| => gates[i].gateId)
  }

  predicate FaultsConfigured(st: Setting)
  {
    forall g, f :: g in st.gates && g.kind.FaultObserved? && f in g.kind.faultIds ==> f in FaultIds(st.plan)
  }

  function InvalidResult(st: Setting, cut: Input, digest: string, code: string): Result
  {
    Result(cut.runId, st.evaluationId(cut.runId, cut.boundary, digest), if cut.boundary < 1 then 1 else cut.boundary,
           digest, Invalid, [], Some(code))
  }

  ghost predicate Consistent(st: Setting, cut: Input, stateAgrees: bool)
  {
    AuthorityOk(cut, st.frozen) && FaultsOk(st, cut) && stateAgrees && cut.execution.final && cut.execution.answer.Some?
  }

  /** The verdict, given whether the stream is valid and the evidence consistent. */
  function Decide(st: Setting, cut: Input, valid: bool, unique: bool, consistent: bool): Result
  {
    var digest := st.digest(DocumentOf(st, cut));
    if cut.boundary < 1 then InvalidResult(st, cut, digest, "invalid_evidence_boundary")
    else if cut.events == [] || Last(cut.events).sequence != cut.boundary then
      InvalidResult(st, cut, digest, "missing_evidence_boundary")
    else if !valid then InvalidResult(st, cut, digest, "invalid_event_stream")
    else if exists e :: e in cut.events && e.runId != cut.runId then InvalidResult(st, cut, digest, "cross_run_evidence")
    else if st.expected != st.truths then InvalidResult(st, cut, digest, "ground_truth_binding_invalid")
    else if !unique then InvalidResult(st, cut, digest, "duplicate_gate_id")
    else if !FaultsConfigured(st) then InvalidResult(st, cut, digest, "ground_truth_fault_reference_invalid")
    else
      var gates := EvaluateGates(st, cut, st.gates, consistent);
      var classification := Classify(gates, consistent);
      Result(cut.runId, st.evaluationId(cut.runId, cut.boundary, digest), cut.boundary, digest, classification, gates,
             if classification == Invalid then Some("authoritative_input_inconsistent") else None)
  }

  ghost function Assess(st: Setting, cut: Input, stateAgrees: bool): Result
  {
    Decide(st, cut, ValidStream(cut.events, true), Distinct(GateIds(st.gates)), Consistent(st, cut, stateAgrees))
  }

  ghost function Evaluate(st: Setting, v: Input): Result
  {
    Assess(st, Cut(v), HasLater(v) || SameRelevant(v.final, Cut(v).final))
  }

  // ----- Independence of the future -----

  ghost predicate Later(v: Input, w: Input, a: Approval, b: Approval)
  {
    || a == b
    || (&& a.status == "pending" && a.resolutionEvent.None? && b.resolutionEvent.Some?
        && b == a.(status := b.status, resolutionEvent := b.resolutionEvent)
        && !HasId(BoundedEvents(v), b.resolutionEvent.value))
  }

  /** `w` is `v` seen later: more events after the boundary, more effects and approvals evidenced there,
      pending approvals resolved there, and any final state. */
  ghost predicate Continues(v: Input, w: Input)
  {
    && w.runId == v.runId && w.boundary == v.boundary && w.initial == v.initial
    && w.execution == v.execution && w.seed == v.seed
    && v.events <= w.events && (forall e :: e in w.events[|v.events|..] ==> e.sequence > v.boundary)
    && v.effects <= w.effects
    && (forall e :: e in w.effects[|v.effects|..] ==> EffectSequence(BoundedEvents(v), e.effectId).None?)
    && |v.approvals| <= |w.approvals|
    && (forall i :: 0 <= i < |v.approvals| ==> Later(v, w, v.approvals[i], w.approvals[i]))
    && (forall i :: |v.approvals| <= i < |w.approvals| ==> !HasId(BoundedEvents(v), w.approvals[i].requestEvent))
    && (w.events == v.events ==> w.final == v.final)
  }

  lemma {:induction false} EffectsInMore(events: seq<Event>, effects: seq<Effect>, more: seq<Effect>)
    requires forall e :: e in more ==> EffectSequence(events, e.effectId).None?
    ensures EffectsIn(events, effects + more) == EffectsIn(events, effects)
  {
    if more == [] {
      assert effects + more == effects;
    } else {
      assert Front(effects + more) == effects + Front(more) && Last(more) in more;
      EffectsInMore(events, effects, Front(more));
    }
  }

  lemma {:induction false} ApprovalsInLater(v: Input, w: Input, a: seq<Approval>, b: seq<Approval>)
    requires |a| <= |b| && forall i :: 0 <= i < |a| ==> Later(v, w, a[i], b[i])
    requires forall i :: |a| <= i < |b| ==> !HasId(BoundedEvents(v), b[i].requestEvent)
    ensures ApprovalsIn(BoundedEvents(v), b) == ApprovalsIn(BoundedEvents(v), a)
  {
    if |b| > |a| {
      ApprovalsInLater(v, w, a, Front(b));
    } else if a != [] {
      ApprovalsInLater(v, w, Front(a), Front(b));
      assert Later(v, w, Last(a), Last(b));
      LaterReverts(v, w, Last(a), Last(b));
    }
  }

  lemma LaterReverts(v: Input, w: Input, a: Approval, b: Approval)
    requires Later(v, w, a, b)
    ensures a.requestEvent == b.requestEvent
    ensures a != b ==> b.(status := "pending", resolutionEvent := None) == a && a.resolutionEvent.None?
                       && !HasId(BoundedEvents(v), b.resolutionEvent.value)
  {
  }

  lemma CutContinues(v: Input, w: Input)
    requires Continues(v, w)
    ensures Cut(w) == Cut(v)
  {
    var more, moreEffects := w.events[|v.events|..], w.effects[|v.effects|..];
    assert w.events == v.events + more && w.effects == v.effects + moreEffects;
    SelectConcat(v.events, more, UpTo(v.boundary));
    SelectNone(more, UpTo(v.boundary));
    assert BoundedEvents(w) == BoundedEvents(v);
    EffectsInMore(BoundedEvents(v), v.effects, moreEffects);
    ApprovalsInLater(v, w, v.approvals, w.approvals);
  }

  /** Evaluation at a boundary does not depend on what happened after it: from a snapshot whose final
      state agrees with replay, every continuation gives the same result, digest included. */
  lemma BoundaryIndependence(st: Setting, v: Input, w: Input)
    requires Continues(v, w)
    requires HasLater(v) || SameRelevant(v.final, Cut(v).final)
    ensures Evaluate(st, w) == Evaluate(st, v)
  {
    CutContinues(v, w);
    SameFlag(v, w);
  }

  lemma SameFlag(v: Input, w: Input)
    requires v.events <= w.events && (forall e :: e in w.events[|v.events|..] ==> e.sequence > v.boundary)
    requires w.boundary == v.boundary && (w.events == v.events ==> w.final == v.final)
    ensures HasLater(v) ==> HasLater(w)
    ensures !HasLater(w) ==> w.final == v.final
  {
    if w.events != v.events {
      var more := w.events[|v.events|..];
      assert w.events == v.events + more;
      assert more != [] && more[0] in more && more[0] in w.events;
      assert HasLater(w);
    }
  }
}
