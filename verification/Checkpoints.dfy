/** The durable execution checkpoint: its document, its two writers, and the trajectory fold. */
module Checkpoints {
  import opened Prelude

  const SAFE_INTEGER: nat := 9_007_199_254_740_991
  const MAX_TOOL_CALLS_PER_STEP: nat := 128
  const MAX_SINGLE_CALL_COST: nat := 1_000_000_000_000

  // ----- Documents -----

  /** The digests that name steps, logical calls and physical attempts of one run. */
  datatype Identities = Identities(
    step: nat -> string,
    logical: (string, nat, string) -> string,
    attempt: (string, nat) -> string)

  ghost predicate CollisionFree(ids: Identities)
  {
    && (forall m, n :: ids.step(m) == ids.step(n) ==> m == n)
    && (forall s, i, c, s', i', c' ::
          ids.logical(s, i, c) == ids.logical(s', i', c') ==> s == s' && i == i' && c == c')
    && (forall l, n, l', n' :: ids.attempt(l, n) == ids.attempt(l', n') ==> l == l' && n == n')
  }

  datatype Budgets = Budgets(maxSteps: nat, maxToolCalls: nat, maxWallMs: nat, maxCost: nat)

  /** The frozen Scenario: its budgets, and whether a tool, version and arguments are authorized. */
  datatype Scenario = Scenario(budgets: Budgets, authorized: (string, string, Json) -> bool)

  datatype Call = Call(callId: string, callIndex: nat, logicalId: string,
                       toolId: string, version: string, arguments: Json)

  datatype Pending = Pending(call: Call, stepId: string, attempt: nat, approvalId: Option<string>)

  datatype Usage = Usage(inputTokens: Option<nat>, outputTokens: Option<nat>, cost: Option<nat>)

  datatype Turn =
    | Assistant(stepId: string, stepNumber: nat, text: string, final: bool,
                durationMs: nat, calls: seq<Call>, usage: Usage)
    | Tool(callIndex: nat, stepId: string, logicalId: string, attemptId: string, attempt: nat,
           durationMs: nat, requestEvent: string, resultEvent: string, toolId: string,
           version: string, outcome: string, output: Option<Json>, error: Option<string>,
           approvalId: Option<string>)

  datatype Status = Active | WaitingForApproval | Final

  datatype Checkpoint = Checkpoint(
    version: nat, nextStep: nat, toolAttempts: nat, wallMs: nat, knownCost: nat,
    costComplete: bool, status: Status, trajectory: seq<Turn>, pending: seq<Pending>,
    finalAnswer: Option<string>)

  datatype RunStatus =
    | Queued | Provisioning | Running | Evaluating
    | Completed | Failed | TimedOut | Cancelled | InfraError

  /** What the writers start from when no checkpoint is stored. */
  const Blank := Checkpoint(0, 1, 0, 0, 0, true, Active, [], [], None)

  function Current(stored: Option<Checkpoint>): Checkpoint
  {
    if stored.Some? then stored.value else Blank
  }

  // ----- Inputs from the agent and from the tool gateway -----

  datatype Request = Request(callId: string, toolId: string, version: string, arguments: Json)

  datatype Output = Output(text: string, calls: seq<Request>, final: bool, usage: Usage)

  datatype ToolResult = ToolResult(
    requestEvent: string, resultEvent: string, toolId: string, version: string,
    outcome: string, output: Option<Json>, error: Option<string>, approvalId: Option<string>)

  predicate IsWait(error: Option<string>)
  {
    error == Some("approval_required") || error == Some("approval_pending")
  }

  /** The part of `_validated_output` that later code relies on. */
  predicate ValidOutput(scenario: Scenario, output: Output)
  {
    && |output.calls| <= MAX_TOOL_CALLS_PER_STEP
    && (output.final ==> output.calls == [])
    && (output.usage.cost.Some? ==> output.usage.cost.value <= MAX_SINGLE_CALL_COST)
    && (forall i, j :: 0 <= i < j < |output.calls| ==> output.calls[i].callId != output.calls[j].callId)
    && (forall i :: 0 <= i < |output.calls| ==>
          scenario.authorized(output.calls[i].toolId, output.calls[i].version, output.calls[i].arguments))
  }

  /** The gateway echoes the tool and version it was asked for, and a wait carries an approval. */
  predicate Faithful(result: ToolResult, head: Pending)
  {
    && result.toolId == head.call.toolId
    && result.version == head.call.version
    && (IsWait(result.error) ==> result.approvalId.Some?)
  }

  // ----- Budgets -----

  predicate WithinPostBudgets(b: Budgets, wallMs: nat, knownCost: nat, costComplete: bool)
  {
    costComplete && knownCost <= b.maxCost && wallMs < b.maxWallMs
  }

  function PostStepBudgetError(b: Budgets, cp: Checkpoint): Option<string>
  {
    if !cp.costComplete then Some("cost_unavailable")
    else if cp.knownCost > b.maxCost then Some("max_cost_exceeded")
    else if cp.wallMs >= b.maxWallMs then Some("max_wall_time_exceeded")
    else None
  }

  function PreStepBudgetError(b: Budgets, cp: Checkpoint): Option<string>
  {
    if cp.nextStep > b.maxSteps then Some("max_steps_exceeded")
    else if cp.toolAttempts > b.maxToolCalls then Some("max_tool_calls_exceeded")
    else if cp.wallMs >= b.maxWallMs then Some("max_wall_time_exceeded")
    else if !cp.costComplete then Some("cost_unavailable")
    else if cp.knownCost > b.maxCost then Some("max_cost_exceeded")
    else None
  }

  // ----- The writers -----

  function IssuedCall(ids: Identities, stepId: string, index: nat, r: Request): Call
  {
    Call(r.callId, index, ids.logical(stepId, index, r.callId), r.toolId, r.version, r.arguments)
  }

  function IssuedCalls(ids: Identities, stepId: string, requests: seq<Request>): (calls: seq<Call>)
    ensures |calls| == |requests|
  {
    seq(|requests|, i requires 0 <= i < |requests| => IssuedCall(ids, stepId, i + 1, requests[i]))
  }

  function FreshPending(stepId: string, calls: seq<Call>): (pending: seq<Pending>)
    ensures |pending| == |calls|
  {
    seq(|calls|, i requires 0 <= i < |calls| => Pending(calls[i], stepId, 1, None))
  }

  function AssistantTurn(ids: Identities, step: nat, output: Output, elapsed: nat): Turn
  {
    Assistant(ids.step(step), step, output.text, output.final, elapsed,
              IssuedCalls(ids, ids.step(step), output.calls), output.usage)
  }

  /** The document `_persist_agent_output` stores; None when a counter leaves the safe range. */
  function AfterOutput(ids: Identities, b: Budgets, cp: Checkpoint, output: Output, elapsed: nat)
    : Option<Checkpoint>
  {
    var turn := AssistantTurn(ids, cp.nextStep, output, elapsed);
    var wall := cp.wallMs + elapsed;
    var cost := cp.knownCost + (if output.usage.cost.Some? then output.usage.cost.value else 0);
    var complete := cp.costComplete && output.usage.cost.Some?;
    if wall > SAFE_INTEGER || cost > SAFE_INTEGER then None
    else
      Some(Checkpoint(
        cp.version + 1, cp.nextStep + 1, cp.toolAttempts, wall, cost, complete,
        if output.final && WithinPostBudgets(b, wall, cost, complete) then Final else Active,
        cp.trajectory + [turn],
        FreshPending(turn.stepId, turn.calls),
        if output.final then Some(output.text) else None))
  }

  function ToolTurn(ids: Identities, head: Pending, result: ToolResult, elapsed: nat): Turn
  {
    Tool(head.call.callIndex, head.stepId, head.call.logicalId,
         ids.attempt(head.call.logicalId, head.attempt), head.attempt, elapsed,
         result.requestEvent, result.resultEvent, result.toolId, result.version,
         result.outcome, result.output, result.error, result.approvalId)
  }

  /** The document `_checkpoint_after_tool` builds, with the version its callers set. */
  function AfterTool(ids: Identities, cp: Checkpoint, result: ToolResult, elapsed: nat)
    : Option<Checkpoint>
    requires cp.pending != []
  {
    var head := cp.pending[0];
    var wait := IsWait(result.error);
    if cp.wallMs + elapsed > SAFE_INTEGER then None
    else
      Some(cp.(
        version := cp.version + 1,
        toolAttempts := cp.toolAttempts + 1,
        wallMs := cp.wallMs + elapsed,
        status := if wait then WaitingForApproval else Active,
        trajectory := cp.trajectory + [ToolTurn(ids, head, result, elapsed)],
        pending :=
          if wait
          then [head.(approvalId := result.approvalId, attempt := head.attempt + 1)] + cp.pending[1..]
          else cp.pending[1..]))
  }

  // ----- The trajectory fold -----

  /** What a trajectory prefix leaves to do: the next step, the unprocessed suffix of the last
      assistant turn and the index of its head, the logical calls seen, and whether it is final. */
  datatype Progress = Progress(
    nextStep: nat, pending: seq<Pending>, headIndex: nat, seen: set<string>, finished: bool)

  const Start := Progress(1, [], 1, {}, false)

  predicate HeadOk(ids: Identities, scenario: Scenario, p: Progress)
    requires p.pending != []
  {
    var head := p.pending[0];
    && head.call.callIndex == p.headIndex
    && head.call.logicalId == ids.logical(head.stepId, p.headIndex, head.call.callId)
    && head.call.logicalId !in p.seen
    && scenario.authorized(head.call.toolId, head.call.version, head.call.arguments)
  }

  /** A call is checked when it becomes the head of the suffix, and not before. */
  function Expose(ids: Identities, scenario: Scenario, p: Progress): Option<Progress>
  {
    if p.pending == [] then Some(p)
    else if HeadOk(ids, scenario, p) then Some(p.(seen := p.seen + {p.pending[0].call.logicalId}))
    else None
  }

  predicate AssistantFits(ids: Identities, p: Progress, t: Turn)
    requires t.Assistant?
  {
    && p.pending == []
    && !p.finished
    && t.stepNumber == p.nextStep
    && t.stepId == ids.step(p.nextStep)
    && (t.final ==> t.calls == [])
  }

  function Begun(p: Progress, t: Turn): Progress
    requires t.Assistant?
  {
    Progress(p.nextStep + 1, FreshPending(t.stepId, t.calls), 1, p.seen, t.final)
  }

  predicate ToolFits(ids: Identities, p: Progress, t: Turn)
    requires t.Tool?
  {
    && p.pending != []
    && var head := p.pending[0];
    && t.logicalId == head.call.logicalId
    && t.callIndex == p.headIndex
    && t.stepId == head.stepId
    && t.attempt == head.attempt
    && t.attemptId == ids.attempt(t.logicalId, t.attempt)
    && t.toolId == head.call.toolId
    && t.version == head.call.version
    && (IsWait(t.error) ==> t.approvalId.Some?)
  }

  function Waited(p: Progress, t: Turn): Progress
    requires t.Tool? && p.pending != []
  {
    p.(pending := [p.pending[0].(approvalId := t.approvalId, attempt := t.attempt + 1)] + p.pending[1..])
  }

  function Resolved(p: Progress): Progress
    requires p.pending != []
  {
    p.(pending := p.pending[1..], headIndex := p.headIndex + 1)
  }

  function Advance(ids: Identities, scenario: Scenario, p: Progress, t: Turn): Option<Progress>
  {
    if t.Assistant? then
      if AssistantFits(ids, p, t) then Expose(ids, scenario, Begun(p, t)) else None
    else if !ToolFits(ids, p, t) then None
    else if IsWait(t.error) then Some(Waited(p, t))
    else Expose(ids, scenario, Resolved(p))
  }

  function FoldFrom(ids: Identities, scenario: Scenario, from: Option<Progress>, turns: seq<Turn>)
    : Option<Progress>
  {
    if turns == [] then from
    else
      match FoldFrom(ids, scenario, from, Front(turns))
      case None => None
      case Some(p) => Advance(ids, scenario, p, Last(turns))
  }

  function Fold(ids: Identities, scenario: Scenario, turns: seq<Turn>): Option<Progress>
  {
    FoldFrom(ids, scenario, Some(Start), turns)
  }

  lemma FoldSnoc(ids: Identities, scenario: Scenario, from: Option<Progress>, turns: seq<Turn>, t: Turn)
    ensures FoldFrom(ids, scenario, from, turns + [t]) ==
            match FoldFrom(ids, scenario, from, turns)
            case None => None
            case Some(p) => Advance(ids, scenario, p, t)
  {
    assert Front(turns + [t]) == turns;
  }

  lemma {:induction false} FoldConcat(ids: Identities, scenario: Scenario, from: Option<Progress>,
                                      a: seq<Turn>, b: seq<Turn>)
    ensures FoldFrom(ids, scenario, from, a + b) ==
            FoldFrom(ids, scenario, FoldFrom(ids, scenario, from, a), b)
  {
    if b == [] {
      assert a + b == a;
    } else {
      FoldConcat(ids, scenario, from, a, Front(b));
      FoldSnoc(ids, scenario, from, a + Front(b), Last(b));
      assert a + b == (a + Front(b)) + [Last(b)];
    }
  }

  lemma {:induction false} FoldFromNone(ids: Identities, scenario: Scenario, turns: seq<Turn>)
    ensures FoldFrom(ids, scenario, None, turns) == None
  {
    if turns != [] {
      FoldFromNone(ids, scenario, Front(turns));
    }
  }

  /** A trajectory with a bad prefix is bad. */
  lemma FoldPrefix(ids: Identities, scenario: Scenario, from: Option<Progress>, turns: seq<Turn>, n: nat)
    requires n <= |turns|
    requires FoldFrom(ids, scenario, from, turns).Some?
    ensures FoldFrom(ids, scenario, from, turns[..n]).Some?
  {
    assert turns[..n] + turns[n..] == turns;
    FoldConcat(ids, scenario, from, turns[..n], turns[n..]);
    FoldFromNone(ids, scenario, turns[n..]);
  }

  // ----- Accumulators of a trajectory -----

  function AssistantTurns(turns: seq<Turn>): nat
  {
    if turns == [] then 0 else AssistantTurns(Front(turns)) + (if Last(turns).Assistant? then 1 else 0)
  }

  function ToolTurns(turns: seq<Turn>): nat
  {
    if turns == [] then 0 else ToolTurns(Front(turns)) + (if Last(turns).Tool? then 1 else 0)
  }

  function WallMs(turns: seq<Turn>): nat
  {
    if turns == [] then 0 else WallMs(Front(turns)) + Last(turns).durationMs
  }

  function KnownCost(turns: seq<Turn>): nat
  {
    if turns == [] then 0
    else KnownCost(Front(turns)) +
         (if Last(turns).Assistant? && Last(turns).usage.cost.Some? then Last(turns).usage.cost.value else 0)
  }

  predicate CostComplete(turns: seq<Turn>)
  {
    forall i :: 0 <= i < |turns| && turns[i].Assistant? ==> turns[i].usage.cost.Some?
  }

  function LastAssistant(turns: seq<Turn>): Option<Turn>
  {
    if turns == [] then None
    else if Last(turns).Assistant? then Some(Last(turns))
    else LastAssistant(Front(turns))
  }

  predicate FinalIntent(turns: seq<Turn>)
  {
    LastAssistant(turns).Some? && LastAssistant(turns).value.Assistant? && LastAssistant(turns).value.final
  }

  function FinalAnswer(turns: seq<Turn>): Option<string>
  {
    if FinalIntent(turns) then Some(LastAssistant(turns).value.text) else None
  }

  lemma AccumulatorsSnoc(turns: seq<Turn>, t: Turn)
    ensures AssistantTurns(turns + [t]) == AssistantTurns(turns) + (if t.Assistant? then 1 else 0)
    ensures ToolTurns(turns + [t]) == ToolTurns(turns) + (if t.Tool? then 1 else 0)
    ensures WallMs(turns + [t]) == WallMs(turns) + t.durationMs
    ensures KnownCost(turns + [t]) ==
            KnownCost(turns) + (if t.Assistant? && t.usage.cost.Some? then t.usage.cost.value else 0)
    ensures CostComplete(turns + [t]) == (CostComplete(turns) && (t.Assistant? ==> t.usage.cost.Some?))
    ensures LastAssistant(turns + [t]) == if t.Assistant? then Some(t) else LastAssistant(turns)
  {
    assert Front(turns + [t]) == turns;
    if CostComplete(turns + [t]) {
      assert (turns + [t])[|turns|] == t;
      forall i | 0 <= i < |turns| && turns[i].Assistant?
        ensures turns[i].usage.cost.Some?
      {
        assert (turns + [t])[i] == turns[i];
      }
    }
  }
}
