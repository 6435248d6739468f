/** What is evaluated: the run's facts, the cut at an evidence boundary, and the replayed state. */
module EvaluationInputs {
  import opened Prelude
  import opened Texts
  import opened RunEvents

  // ----- Facts; field values stand as their canonical text -----

  datatype Refund = Refund(refundId: string, paymentId: string, orderId: string, status: string,
                           amountMinor: string, currency: string)

  datatype Ticket = Ticket(ticketId: string, customerId: string, orderId: string, status: string,
                           subject: string, note: string)

  datatype State = State(refunds: seq<Refund>, tickets: seq<Ticket>, rest: Json)

  /** An effect's kind with its result. */
  datatype Change =
    | RefundCreated(refund: Refund)
    | TicketUpdated(ticketId: string, status: string, note: string)
    | OtherChange(kind: string)

  datatype Effect = Effect(
    runId: string, toolId: string, contract: string, keyDigest: string, requestDigest: string, effectId: string,
    change: Change, subjectType: string, subjectId: string, logicalId: string, firstAttempt: string)

  datatype Approval = Approval(
    approvalId: string, runId: string, scenario: string, policy: string, toolId: string, contract: string,
    requestDigest: string, keyDigest: string, logicalId: string, requestedAttempt: string, decisionId: string,
    decisionEvent: string, requestEvent: string, status: string, resolutionEvent: Option<string>)

  /** One entry of `tool_requests`. */
  datatype RequestDetail = RequestDetail(
    requestEvent: string, logicalId: string, attemptId: string, ordinal: nat, toolId: string, contract: string,
    arguments: map<string, Json>, argumentsDigest: string, requestDigest: string, keyDigest: Option<string>)

  datatype Execution = Execution(
    final: bool, answer: Option<string>, steps: nat, toolCalls: nat, wallMs: nat, cost: nat, costComplete: bool,
    requests: seq<RequestDetail>)

  datatype Input = Input(
    runId: string, boundary: int, events: seq<Event>, initial: State, final: State, effects: seq<Effect>,
    execution: Execution, seed: Option<nat>, approvals: seq<Approval>)

  function Kind(change: Change): string
  {
    match change
    case RefundCreated(_) => "refund.created"
    case TicketUpdated(_, _, _) => "support_ticket.updated"
    case OtherChange(kind) => kind
  }

  // ----- The cut -----

  function UpTo(boundary: int): Event -> bool
  {
    (e: Event) => e.sequence <= boundary
  }

  function BoundedEvents(v: Input): seq<Event>
  {
    Select(v.events, UpTo(v.boundary))
  }

  /** The sequence of the last event that records an effect. */
  function EffectSequence(events: seq<Event>, effectId: string): Option<nat>
  {
    if events == [] then None
    else if Last(events).body.StateEvidence? && Last(events).body.isEffect && Last(events).body.evidenceId == effectId
    then Some(Last(events).sequence)
    else EffectSequence(Front(events), effectId)
  }

  function EffectsIn(events: seq<Event>, effects: seq<Effect>): seq<Effect>
  {
    if effects == [] then []
    else EffectsIn(events, Front(effects))
         + (if EffectSequence(events, Last(effects).effectId).Some? then [Last(effects)] else [])
  }

  predicate HasId(events: seq<Event>, id: string)
  {
    exists e :: e in events && e.id == id
  }

  /** An approval asked for within the boundary, as it stood at the boundary. */
  function ApprovalsIn(events: seq<Event>, approvals: seq<Approval>): seq<Approval>
  {
    if approvals == [] then []
    else
      var a := Last(approvals);
      var resolved := a.resolutionEvent.None? || HasId(events, a.resolutionEvent.value);
      ApprovalsIn(events, Front(approvals))
      + (if !HasId(events, a.requestEvent) then []
         else if resolved then [a]
         else [a.(status := "pending", resolutionEvent := None)])
  }

  // ----- Replay -----

  /** Effects in order of evidence, ties by identity. */
  predicate Earlier(events: seq<Event>, a: Effect, b: Effect)
  {
    var s, t := EffectSequence(events, a.effectId), EffectSequence(events, b.effectId);
    var m, n := if s.Some? then s.value else 0, if t.Some? then t.value else 0;
    m < n || (m == n && Before(a.effectId, b.effectId))
  }

  function Insert(events: seq<Event>, sorted: seq<Effect>, e: Effect): seq<Effect>
  {
    if sorted == [] then [e]
    else if Earlier(events, e, Last(sorted)) then Insert(events, Front(sorted), e) + [Last(sorted)]
    else sorted + [e]
  }

  function Sorted(events: seq<Event>, effects: seq<Effect>): seq<Effect>
  {
    if effects == [] then [] else Insert(events, Sorted(events, Front(effects)), Last(effects))
  }

  function TicketIndex(tickets: seq<Ticket>, id: string): (index: Option<nat>)
    ensures index.Some? ==> index.value < |tickets|
  {
    if tickets == [] then None
    else if Last(tickets).ticketId == id then Some(|tickets| - 1)
    else TicketIndex(Front(tickets), id)
  }

  function FinalTicket(state: State, id: string): Option<Ticket>
  {
    var i := TicketIndex(state.tickets, id);
    if i.None? then None else Some(state.tickets[i.value])
  }

  function ApplyEffect(state: State, e: Effect): State
  {
    match e.change
    case RefundCreated(refund) => state.(refunds := state.refunds + [refund])
    case TicketUpdated(_, status, note) =>
      var i := TicketIndex(state.tickets, e.subjectId);
      if i.None? then state
      else state.(tickets := state.tickets[i.value := state.tickets[i.value].(status := status, note := note)])
    case OtherChange(_) => state
  }

  function Replay(initial: State, effects: seq<Effect>): State
  {
    if effects == [] then initial else ApplyEffect(Replay(initial, Front(effects)), Last(effects))
  }

  lemma {:induction false} TicketIndexFacts(tickets: seq<Ticket>, id: string)
    ensures TicketIndex(tickets, id).Some? ==>
              TicketIndex(tickets, id).value < |tickets| && tickets[TicketIndex(tickets, id).value].ticketId == id
    ensures TicketIndex(tickets, id).Some? ==>
              forall j :: TicketIndex(tickets, id).value < j < |tickets| ==> tickets[j].ticketId != id
    ensures TicketIndex(tickets, id).None? ==> forall t :: t in tickets ==> t.ticketId != id
  {
    if tickets != [] {
      TicketIndexFacts(Front(tickets), id);
      assert tickets == Front(tickets) + [Last(tickets)];
    }
  }

  lemma {:induction false} SameIndex(a: seq<Ticket>, b: seq<Ticket>, id: string)
    requires |a| == |b| && forall i :: 0 <= i < |a| ==> a[i].ticketId == b[i].ticketId
    ensures TicketIndex(a, id) == TicketIndex(b, id)
  {
    if a != [] {
      SameIndex(Front(a), Front(b), id);
    }
  }

  /** `_replay_state`: refunds are appended, ticket rows overwritten through an index by identity. */
  method ReplayState(initial: State, events: seq<Event>, effects: seq<Effect>) returns (state: State)
    ensures state == Replay(initial, Sorted(events, effects))
  {
    var rows: map<string, nat> := map[];
    for i := 0 to |initial.tickets|
      invariant forall id :: id in rows <==> TicketIndex(initial.tickets[..i], id).Some?
      invariant forall id :: id in rows ==> TicketIndex(initial.tickets[..i], id) == Some(rows[id])
    {
      assert Front(initial.tickets[..i + 1]) == initial.tickets[..i];
      rows := rows[initial.tickets[i].ticketId := i];
    }
    assert initial.tickets[..|initial.tickets|] == initial.tickets;
    var refunds, tickets := initial.refunds, initial.tickets;
    var ordered := Sorted(events, effects);
    for i := 0 to |ordered|
      invariant Replay(initial, ordered[..i]) == State(refunds, tickets, initial.rest)
      invariant |tickets| == |initial.tickets|
      invariant forall j :: 0 <= j < |tickets| ==> tickets[j].ticketId == initial.tickets[j].ticketId
    {
      var e := ordered[i];
      assert Front(ordered[..i + 1]) == ordered[..i];
      SameIndex(tickets, initial.tickets, e.subjectId);
      TicketIndexFacts(tickets, e.subjectId);
      match e.change {
        case RefundCreated(refund) =>
          refunds := refunds + [refund];
        case TicketUpdated(_, status, note) =>
          if e.subjectId in rows {
            var row := rows[e.subjectId];
            tickets := tickets[row := tickets[row].(status := status, note := note)];
          }
        case OtherChange(_) =>
      }
    }
    assert ordered[..|ordered|] == ordered;
    return State(refunds, tickets, initial.rest);
  }

  lemma {:induction false} SortedSame(events: seq<Event>, effects: seq<Effect>)
    ensures multiset(Sorted(events, effects)) == multiset(effects)
  {
    if effects != [] {
      SortedSame(events, Front(effects));
      InsertSame(events, Sorted(events, Front(effects)), Last(effects));
      assert effects == Front(effects) + [Last(effects)];
      assert multiset(effects) == multiset(Front(effects)) + multiset{Last(effects)};
    }
  }

  lemma {:induction false} InsertSame(events: seq<Event>, sorted: seq<Effect>, e: Effect)
    ensures multiset(Insert(events, sorted, e)) == multiset(sorted) + multiset{e}
  {
    if sorted != [] {
      InsertSame(events, Front(sorted), e);
      assert sorted == Front(sorted) + [Last(sorted)];
    }
  }

  lemma SortedMembers(events: seq<Event>, effects: seq<Effect>)
    ensures forall e :: e in Sorted(events, effects) <==> e in effects
  {
    SortedSame(events, effects);
    forall e
      ensures e in Sorted(events, effects) <==> e in effects
    {
      assert e in multiset(Sorted(events, effects)) <==> e in multiset(effects);
    }
  }

  // ----- Two updates of one ticket -----

  predicate Updates(e: Effect, id: string)
  {
    e.change.TicketUpdated? && e.subjectId == id
  }

  /** The final row of a ticket carries its last update, or what it carried at first. */
  lemma {:induction false} LastUpdateWins(initial: State, effects: seq<Effect>, id: string)
    ensures FinalTicket(Replay(initial, effects), id).Some? <==> FinalTicket(initial, id).Some?
    ensures FinalTicket(initial, id).Some? && (exists e :: e in effects && Updates(e, id)) ==>
              exists e :: e in effects && Updates(e, id) && Carries(Replay(initial, effects), id, e)
    ensures FinalTicket(initial, id).Some? && (forall e :: e in effects ==> !Updates(e, id)) ==>
              FinalTicket(Replay(initial, effects), id) == FinalTicket(initial, id)
  {
    if effects != [] {
      var before, e := Replay(initial, Front(effects)), Last(effects);
      LastUpdateWins(initial, Front(effects), id);
      assert effects == Front(effects) + [e];
      OneUpdate(before, e, id);
      if FinalTicket(initial, id).Some? && !Updates(e, id) && exists x :: x in effects && Updates(x, id) {
        var x :| x in effects && Updates(x, id);
        assert x in Front(effects);
        var y :| y in Front(effects) && Updates(y, id) && Carries(before, id, y);
        assert Carries(Replay(initial, effects), id, y);
      }
    }
  }

  predicate Carries(state: State, id: string, e: Effect)
    requires e.change.TicketUpdated?
  {
    && FinalTicket(state, id).Some?
    && FinalTicket(state, id).value.status == e.change.status
    && FinalTicket(state, id).value.note == e.change.note
  }

  lemma OneUpdate(state: State, e: Effect, id: string)
    ensures FinalTicket(ApplyEffect(state, e), id).Some? <==> FinalTicket(state, id).Some?
    ensures FinalTicket(state, id).Some? && Updates(e, id) ==> Carries(ApplyEffect(state, e), id, e)
    ensures !Updates(e, id) ==> FinalTicket(ApplyEffect(state, e), id) == FinalTicket(state, id)
  {
    var after := ApplyEffect(state, e);
    TicketIndexFacts(state.tickets, id);
    TicketIndexFacts(state.tickets, e.subjectId);
    SameIndex(state.tickets, after.tickets, id);
  }
}
