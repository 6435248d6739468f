/** `_validate_checkpoint_evidence`: the trajectory against the authoritative event log. */
module CheckpointEvidence {
  import opened Prelude
  import opened Checkpoints
  import opened RunEvents

  // ----- What a step was shown and what it said -----

  datatype Context = Context(
    stepNumber: nat, trajectory: seq<Turn>, remainingSteps: int, remainingToolCalls: int,
    remainingWallMs: int, remainingCost: int, costComplete: bool)

  function BuildContext(b: Budgets, turns: seq<Turn>, step: nat, attempts: nat, wall: nat, cost: nat,
                        complete: bool): Context
  {
    Context(step, turns, b.maxSteps - step + 1, b.maxToolCalls - attempts, b.maxWallMs - wall,
            b.maxCost - cost, complete)
  }

  /** `_agent_context`: from the accumulators of the stored checkpoint. */
  function AgentContext(b: Budgets, cp: Checkpoint): Context
  {
    BuildContext(b, cp.trajectory, cp.nextStep, cp.toolAttempts, cp.wallMs, cp.knownCost, cp.costComplete)
  }

  /** `_agent_context_from_trajectory`: recomputed from a prefix of the trajectory. */
  function ContextFromTrajectory(b: Budgets, turns: seq<Turn>, step: nat): Context
  {
    BuildContext(b, turns, step, ToolTurns(turns), WallMs(turns), KnownCost(turns), CostComplete(turns))
  }

  datatype OutputPayload = OutputPayload(text: string, final: bool, requests: seq<Request>, usage: Usage, durationMs: nat)

  function AssistantPayload(t: Turn): OutputPayload
    requires t.Assistant?
  {
    OutputPayload(t.text, t.final,
                  seq(|t.calls|, i requires 0 <= i < |t.calls| =>
                    Request(t.calls[i].callId, t.calls[i].toolId, t.calls[i].version, t.calls[i].arguments)),
                  t.usage, t.durationMs)
  }

  /** What identifies one run's evidence: event and model-call identities, the adapter's model, digests. */
  datatype Witness = Witness(
    runId: string, producer: Producer, agentEvent: nat -> string, modelCall: nat -> string, model: string,
    contextDigest: Context -> string, outputDigest: OutputPayload -> string, jsonDigest: Json -> string)

  // ----- One turn against the log -----

  function ArgumentsOf(turns: seq<Turn>, logicalId: string): Option<Json>
  {
    if turns == [] then None
    else if turns[0].Assistant? && exists i :: 0 <= i < |turns[0].calls| && turns[0].calls[i].logicalId == logicalId
    then Some(FirstArguments(turns[0].calls, logicalId))
    else ArgumentsOf(turns[1..], logicalId)
  }

  function FirstArguments(calls: seq<Call>, logicalId: string): Json
    requires exists i :: 0 <= i < |calls| && calls[i].logicalId == logicalId
  {
    if calls[0].logicalId == logicalId then calls[0].arguments else FirstArguments(calls[1..], logicalId)
  }

  function StepNumberOf(turns: seq<Turn>, stepId: string): Option<nat>
  {
    if turns == [] then None
    else if turns[0].Assistant? && turns[0].stepId == stepId then Some(turns[0].stepNumber)
    else StepNumberOf(turns[1..], stepId)
  }

  predicate AgentStepMatches(w: Witness, b: Budgets, prefix: seq<Turn>, t: Turn, e: Event)
    requires t.Assistant?
  {
    && e.runId == w.runId
    && e.body.AgentStep?
    && e.body.completed
    && e.body.stepId == t.stepId
    && e.body.stepNumber == t.stepNumber
    && e.body.modelCall == w.modelCall(t.stepNumber)
    && e.body.model == w.model
    && e.body.inputDigest == w.contextDigest(ContextFromTrajectory(b, prefix, t.stepNumber))
    && e.body.outputDigest == Some(w.outputDigest(AssistantPayload(t)))
  }

  const DENIED: set<string> := {
    "policy_denied", "approval_required", "approval_not_found", "approval_pending",
    "approval_denied", "approval_mismatch" }

  /** `_tool_result_matches_checkpoint`. */
  predicate OutcomeMatches(w: Witness, t: Turn, body: Body)
    requires t.Tool? && body.ToolResulted?
  {
    if body.outcome == "succeeded" then
      && t.outcome == "succeeded" && t.error == None && t.output.Some?
      && body.responseDigest == Some(w.jsonDigest(t.output.value)) && body.errorCode == None
    else
      && t.error.Some?
      && body.outcome == (if t.error == Some("fault_timeout") then "timed_out" else "failed")
      && t.outcome == (if t.error.value in DENIED then "denied" else "failed")
      && body.errorCode == t.error
      && body.responseDigest == (if t.output.Some? then Some(w.jsonDigest(t.output.value)) else None)
  }

  predicate RequestMatches(w: Witness, all: seq<Turn>, t: Turn, e: Event)
    requires t.Tool?
  {
    && e.runId == w.runId
    && e.body.ToolRequested?
    && e.body.logicalId == t.logicalId
    && e.body.attemptId == t.attemptId
    && e.body.attempt == t.attempt
    && e.body.stepId == t.stepId
    && e.body.toolId == t.toolId
    && ArgumentsOf(all, t.logicalId).Some?
    && e.body.argumentsDigest == w.jsonDigest(ArgumentsOf(all, t.logicalId).value)
    && StepNumberOf(all, t.stepId).Some?
    && e.causation == Some(w.agentEvent(StepNumberOf(all, t.stepId).value))
  }

  predicate ResultMatches(w: Witness, t: Turn, e: Event)
    requires t.Tool?
  {
    && e.runId == w.runId
    && e.body.ToolResulted?
    && e.body.logicalId == t.logicalId
    && e.body.attemptId == t.attemptId
    && e.body.attempt == t.attempt
    && e.body.toolId == t.toolId
    && e.body.requestEvent == t.requestEvent
    && e.body.durationMs == t.durationMs
    && OutcomeMatches(w, t, e.body)
  }

  // ----- Why the result happened -----

  predicate Between(request: Event, e: Event, result: Event)
  {
    request.sequence < e.sequence < result.sequence
  }

  function PolicyEvents(log: seq<Event>, request: Event, result: Event, logicalId: string): seq<Event>
  {
    Select(log, (e: Event) =>
      e.body.PolicyDecision? && e.causation == Some(request.id) && e.body.logicalId == logicalId
      && Between(request, e, result))
  }

  function ApprovalCauses(log: seq<Event>, result: Event, wait: bool, approvalId: string): seq<Event>
  {
    Select(log, (e: Event) =>
      && (if wait then e.body.ApprovalRequested? && e.body.approvalId == approvalId
          else e.body.ApprovalResolved? && e.body.approvalId == approvalId)
      && e.sequence < result.sequence)
  }

  /** `_tool_causation_is_valid`. */
  predicate CausationOk(log: seq<Event>, request: Event, result: Event, t: Turn)
    requires t.Tool?
  {
    var policy := PolicyEvents(log, request, result, t.logicalId);
    && |policy| == 1
    && (if t.approvalId.None? then
          result.causation == Some(policy[0].id) || FaultCausationOk(log, request, result, t)
        else
          var causes := ApprovalCauses(log, result, IsWait(t.error), t.approvalId.value);
          && |causes| == 1
          && (result.causation == Some(causes[0].id) || FaultCausationOk(log, request, result, t)))
  }

  function FaultEvents(log: seq<Event>, request: Event, result: Event, logicalId: string): seq<Event>
  {
    Select(log, (e: Event) =>
      && e.correlation == logicalId && (e.body.Fault? || e.body.FaultNotMatched?)
      && (e.causation == Some(request.id) || e.causation == Some(result.id) || request.id in Related(e)))
  }

  function OfKind(faults: seq<Event>, kind: FaultKind): seq<Event>
  {
    Select(faults, (e: Event) => IsFault(e, kind))
  }

  predicate SameActivation(a: Event, b: Event)
  {
    a.body.Fault? && b.body.Fault? && a.body.faultId == b.body.faultId && a.body.activationId == b.body.activationId
  }

  predicate ApplicationOk(faults: seq<Event>, request: Event, result: Event, application: Event)
  {
    && application.body.Fault?
    && application.causation.Some?
    && var matched := Find(faults, application.causation.value);
    && matched.Some? && IsFault(matched.value, Matched)
    && Between(request, application, result)
    && SameActivation(application, matched.value)
    && ToSet(application.body.related) == {request.id, matched.value.id}
    && var observed := Select(OfKind(faults, Observed),
         (e: Event) => e.causation == Some(result.id) && SameActivation(e, application));
    && |observed| == 1
    && observed[0].body.Fault?
    && observed[0].sequence > result.sequence
    && ToSet(observed[0].body.related) == {request.id, application.id, result.id}
  }

  /** `_fault_causation_is_valid`: the result was caused by the last fault applied to the request,
      and every application has its match and its observation. */
  predicate FaultCausationOk(log: seq<Event>, request: Event, result: Event, t: Turn)
    requires t.Tool?
  {
    var faults := FaultEvents(log, request, result, t.logicalId);
    var applied := OfKind(faults, Applied);
    && applied != []
    && result.causation == Some(Latest(applied).id)
    && (forall i :: 0 <= i < |faults| && (IsFault(faults[i], Matched) || faults[i].body.FaultNotMatched?) ==>
          faults[i].causation == Some(request.id) && Between(request, faults[i], result))
    && (forall i :: 0 <= i < |applied| ==> ApplicationOk(faults, request, result, applied[i]))
    && |OfKind(faults, Observed)| == |applied|
  }

  // ----- The whole trajectory -----

  /** The last sequence reached, and the agent and tool events used. */
  datatype Used = Used(prior: nat, agents: set<string>, tools: set<string>)

  predicate AssistantEvidenced(w: Witness, b: Budgets, log: seq<Event>, prefix: seq<Turn>, used: Used, t: Turn)
    requires t.Assistant?
  {
    && var e := Find(log, w.agentEvent(t.stepNumber));
    && e.Some?
    && AgentStepMatches(w, b, prefix, t, e.value)
    && e.value.sequence > used.prior
  }

  predicate ToolEvidenced(w: Witness, log: seq<Event>, all: seq<Turn>, used: Used, t: Turn)
    requires t.Tool?
  {
    && var request, result := Find(log, t.requestEvent), Find(log, t.resultEvent);
    && request.Some? && result.Some?
    && RequestMatches(w, all, t, request.value)
    && ResultMatches(w, t, result.value)
    && t.requestEvent !in used.tools && t.resultEvent !in used.tools
    && used.prior < request.value.sequence < result.value.sequence
    && CausationOk(log, request.value, result.value, t)
  }

  function CheckTurn(w: Witness, b: Budgets, log: seq<Event>, all: seq<Turn>, prefix: seq<Turn>, used: Used, t: Turn)
    : Option<Used>
  {
    if t.Assistant? then
      if AssistantEvidenced(w, b, log, prefix, used, t) then
        var e := Find(log, w.agentEvent(t.stepNumber)).value;
        Some(used.(prior := e.sequence, agents := used.agents + {e.id}))
      else None
    else if ToolEvidenced(w, log, all, used, t) then
      Some(used.(prior := Find(log, t.resultEvent).value.sequence,
                 tools := used.tools + {t.requestEvent, t.resultEvent}))
    else None
  }

  /** The walk over `turns`, a prefix of the trajectory `all`. */
  function CheckTurns(w: Witness, b: Budgets, log: seq<Event>, all: seq<Turn>, turns: seq<Turn>): Option<Used>
  {
    if turns == [] then Some(Used(0, {}, {}))
    else
      match CheckTurns(w, b, log, all, Front(turns))
      case None => None
      case Some(used) => CheckTurn(w, b, log, all, Front(turns), used, Last(turns))
  }

  predicate IsCompletedStep(e: Event)
  {
    e.body.AgentStep? && e.body.completed
  }

  function Steps(turns: seq<Turn>): set<string>
  {
    set i | 0 <= i < |turns| && turns[i].Assistant? :: turns[i].stepId
  }

  function CompletedSteps(log: seq<Event>): set<string>
  {
    set e | e in log && IsCompletedStep(e) :: e.id
  }

  function RequestsOf(log: seq<Event>, steps: set<string>): set<string>
  {
    set e | e in log && e.body.ToolRequested? && e.body.stepId in steps :: e.id
  }

  function ResultsOf(log: seq<Event>, requests: set<string>): set<string>
  {
    set e | e in log && e.body.ToolResulted? && e.body.requestEvent in requests :: e.id
  }

  /** The events of the log that a trajectory must account for. */
  function Authoritative(log: seq<Event>, turns: seq<Turn>): set<string>
  {
    var requests := RequestsOf(log, Steps(turns));
    CompletedSteps(log) + requests + ResultsOf(log, requests)
  }

  ghost predicate EvidenceOk(w: Witness, b: Budgets, turns: seq<Turn>, log: seq<Event>)
  {
    && UniqueIds(log)
    && var used := CheckTurns(w, b, log, turns, turns);
    && used.Some?
    && Accounts(used.value, turns, log)
  }

  /** The events used are all the authoritative ones. */
  ghost predicate Accounts(used: Used, turns: seq<Turn>, log: seq<Event>)
  {
    var requests := RequestsOf(log, Steps(turns));
    && used.agents == CompletedSteps(log)
    && used.tools == requests + ResultsOf(log, requests)
  }

  method ValidateEvidence(w: Witness, b: Budgets, turns: seq<Turn>, log: seq<Event>) returns (ok: bool)
    ensures ok <==> EvidenceOk(w, b, turns, log)
  {
    var unique := IdsAreUnique(log);
    if !unique {
      return false;
    }
    var used := Used(0, {}, {});
    assert turns[..0] == [];
    for i := 0 to |turns|
      invariant CheckTurns(w, b, log, turns, turns[..i]) == Some(used)
    {
      assert Front(turns[..i + 1]) == turns[..i];
      var next := CheckTurn(w, b, log, turns, turns[..i], used, turns[i]);
      if next.None? {
        BadPrefix(w, b, log, turns, turns, i + 1);
        return false;
      }
      used := next.value;
    }
    assert turns[..|turns|] == turns;
    var requests := RequestsOf(log, Steps(turns));
    return used.agents == CompletedSteps(log) && used.tools == requests + ResultsOf(log, requests);
  }

  lemma {:induction false} BadPrefix(w: Witness, b: Budgets, log: seq<Event>, all: seq<Turn>, turns: seq<Turn>, n: nat)
    requires n <= |turns| && CheckTurns(w, b, log, all, turns[..n]) == None
    ensures CheckTurns(w, b, log, all, turns) == None
  {
    if n == |turns| {
      assert turns[..n] == turns;
    } else {
      assert Front(turns)[..n] == turns[..n];
      BadPrefix(w, b, log, all, Front(turns), n);
    }
  }

  // ----- Acceptance is an order-preserving bijection -----

  function TurnTrail(w: Witness, t: Turn): seq<string>
  {
    if t.Assistant? then [w.agentEvent(t.stepNumber)] else [t.requestEvent, t.resultEvent]
  }

  /** The events the turns stand for, in trajectory order. */
  function Trail(w: Witness, turns: seq<Turn>): seq<string>
  {
    if turns == [] then []
    else
      Trail(w, Front(turns)) + TurnTrail(w, Last(turns))
  }

  lemma OrderedConcat(a: seq<Event>, b: seq<Event>)
    requires InOrder(a) && InOrder(b)
    requires a != [] && b != [] ==> Last(a).sequence < b[0].sequence
    ensures InOrder(a + b)
  {
    forall i, j | 0 <= i < j < |a + b|
      ensures (a + b)[i].sequence < (a + b)[j].sequence
    {
      if i < |a| <= j {
        assert a[i].sequence <= Last(a).sequence;
        assert b[0].sequence <= b[j - |a|].sequence;
      }
    }
  }

  /** One checked turn, as events of the log. */
  lemma TurnEvents(w: Witness, b: Budgets, log: seq<Event>, all: seq<Turn>, prefix: seq<Turn>, used: Used, t: Turn)
    returns (events: seq<Event>)
    requires UniqueIds(log) && CheckTurn(w, b, log, all, prefix, used, t).Some?
    ensures var next := CheckTurn(w, b, log, all, prefix, used, t).value;
            && events != [] && Ids(events) == TurnTrail(w, t) && InOrder(events)
            && (forall e :: e in events ==> e in log)
            && events[0].sequence > used.prior && Last(events).sequence == next.prior
            && next.agents + next.tools == used.agents + used.tools + ToSet(TurnTrail(w, t))
  {
    if t.Assistant? {
      FindFacts(log, w.agentEvent(t.stepNumber));
      events := [Find(log, w.agentEvent(t.stepNumber)).value];
    } else {
      FindFacts(log, t.requestEvent);
      FindFacts(log, t.resultEvent);
      events := [Find(log, t.requestEvent).value, Find(log, t.resultEvent).value];
    }
  }

  /** The trail of checked turns, as events of the log: increasing, and exactly the events used. */
  lemma {:induction false} TrailEvents(w: Witness, b: Budgets, log: seq<Event>, all: seq<Turn>, turns: seq<Turn>)
    returns (events: seq<Event>)
    requires UniqueIds(log) && CheckTurns(w, b, log, all, turns).Some?
    ensures Ids(events) == Trail(w, turns) && InOrder(events)
    ensures forall e :: e in events ==> e in log
    ensures events != [] ==> Last(events).sequence == CheckTurns(w, b, log, all, turns).value.prior
    ensures var used := CheckTurns(w, b, log, all, turns).value;
            ToSet(Trail(w, turns)) == used.agents + used.tools
  {
    events := [];
    if turns != [] {
      var used := CheckTurns(w, b, log, all, Front(turns)).value;
      var before := TrailEvents(w, b, log, all, Front(turns));
      var last := TurnEvents(w, b, log, all, Front(turns), used, Last(turns));
      OrderedConcat(before, last);
      events := before + last;
      assert Ids(events) == Ids(before) + Ids(last);
      assert ToSet(Trail(w, turns)) == ToSet(Trail(w, Front(turns))) + ToSet(TurnTrail(w, Last(turns)));
    }
  }

  /** Ordered events of an ordered log are what their identities select. */
  lemma SelectedByIds(log: seq<Event>, events: seq<Event>, ids: set<string>)
    requires UniqueIds(log) && InOrder(log) && InOrder(events)
    requires forall e :: e in events ==> e in log
    requires ids == ToSet(Ids(events))
    ensures Select(log, (e: Event) => e.id in ids) == events
  {
    var keep := (e: Event) => e.id in ids;
    SelectFacts(log, keep);
    SelectKeepsOrder(log, keep);
    forall e
      ensures e in Select(log, keep) <==> e in events
    {
      if e in events {
        var i :| 0 <= i < |events| && events[i] == e;
        assert Ids(events)[i] == e.id;
      }
      if e in Select(log, keep) {
        var i :| 0 <= i < |events| && Ids(events)[i] == e.id;
        FindFacts(log, e.id);
        assert events[i] in log;
      }
    }
    SameEvents(Select(log, keep), events);
  }

  /** If the evidence is accepted, the authoritative events of the log, in log order, are exactly the
      events the turns stand for, in trajectory order: one completed step for each assistant turn, one
      request and its result for each tool turn, none omitted, none reused, none fabricated. */
  lemma EvidenceIsTheTrajectory(w: Witness, b: Budgets, turns: seq<Turn>, log: seq<Event>)
    requires EvidenceOk(w, b, turns, log) && InOrder(log)
    ensures Ids(Select(log, (e: Event) => e.id in Authoritative(log, turns))) == Trail(w, turns)
  {
    var events := TrailEvents(w, b, log, turns, turns);
    SelectedByIds(log, events, Authoritative(log, turns));
  }
}
