/** `_execute_run`: the loop one worker runs, on the durable record it changes. */
module ExecutionLoop {
  import opened Prelude
  import opened Checkpoints
  import opened CheckpointValidator
  import opened CheckpointSoundness

  datatype AgentReply =
    | Replied(output: Output, elapsed: nat)
    | ProviderTimeout
    | ProviderError

  datatype GatewayReply =
    | Executed(result: ToolResult, duration: nat)
    | StaleLease
    | Infrastructure

  datatype Outcome =
    | EvaluationReady(answer: Option<string>)
    | Waiting(approvalId: Option<string>)
    | Terminated(status: RunStatus, code: string)
    | Stale
    | NotReady

  /** How many turns the loop can still commit. */
  function TurnsLeft(b: Budgets, cp: Checkpoint): int
  {
    (b.maxSteps + 1 - cp.nextStep) + (b.maxToolCalls - cp.toolAttempts)
  }

  // ----- What a stored checkpoint keeps -----

  /** Sound in every run status that agrees with the checkpoint's own. */
  ghost predicate Lasting(ids: Identities, scenario: Scenario, cp: Checkpoint)
  {
    forall run :: (run == Evaluating <==> cp.status == Final) ==> CollisionFree(ids) && Sound(ids, scenario, cp, run)
  }

  lemma SoundLasts(ids: Identities, scenario: Scenario, cp: Checkpoint, run: RunStatus)
    requires CollisionFree(ids) && Sound(ids, scenario, cp, run)
    ensures Lasting(ids, scenario, cp)
  {
    forall run' | run' == Evaluating <==> cp.status == Final
      ensures Sound(ids, scenario, cp, run')
    {
      AcceptedInStatus(ids, scenario, cp, run, run');
    }
  }

  lemma LastingIsSound(ids: Identities, scenario: Scenario, cp: Checkpoint)
    requires Lasting(ids, scenario, cp)
    ensures CollisionFree(ids) && Sound(ids, scenario, cp, SettledStatus(cp))
  {
    var sound := Sound(ids, scenario, cp, SettledStatus(cp));
    assert sound;
  }

  lemma OutputLasts(ids: Identities, scenario: Scenario, cp: Checkpoint, output: Output, elapsed: nat)
    requires Lasting(ids, scenario, cp) && cp.status != Final && cp.pending == []
    requires ValidOutput(scenario, output) && PreStepBudgetError(scenario.budgets, cp) == None
    requires AfterOutput(ids, scenario.budgets, cp, output, elapsed).Some?
    ensures Lasting(ids, scenario, AfterOutput(ids, scenario.budgets, cp, output, elapsed).value)
  {
    LastingIsSound(ids, scenario, cp);
    OutputStepSound(ids, scenario, cp, output, elapsed);
    var next := AfterOutput(ids, scenario.budgets, cp, output, elapsed).value;
    SoundLasts(ids, scenario, next, SettledStatus(next));
  }

  lemma AttemptLasts(ids: Identities, scenario: Scenario, cp: Checkpoint, result: ToolResult, duration: nat)
    requires Lasting(ids, scenario, cp) && cp.status != Final && cp.pending != []
    requires cp.toolAttempts < scenario.budgets.maxToolCalls && Faithful(result, cp.pending[0])
    requires AfterTool(ids, cp, result, duration).Some?
    ensures Lasting(ids, scenario, AfterTool(ids, cp, result, duration).value)
  {
    LastingIsSound(ids, scenario, cp);
    ToolStepSound(ids, scenario, cp, result, duration);
    SoundLasts(ids, scenario, AfterTool(ids, cp, result, duration).value, Running);
  }

  /** What the loop reads off a stored checkpoint. */
  lemma StoredFacts(ids: Identities, scenario: Scenario, cp: Checkpoint)
    requires Lasting(ids, scenario, cp)
    ensures TurnsLeft(scenario.budgets, cp) >= 0
    ensures cp.status == Final ==> cp.finalAnswer == FinalAnswer(cp.trajectory) && cp.finalAnswer.Some?
    ensures cp.status == WaitingForApproval ==> cp.pending != [] && cp.pending[0].approvalId.Some?
    ensures FinalIntent(cp.trajectory) ==>
      cp.pending == [] && (cp.status == Final || PreStepBudgetError(scenario.budgets, cp).Some?)
  {
    LastingIsSound(ids, scenario, cp);
    PostErrorIsPreError(scenario.budgets, cp);
  }

  /** The run row and its checkpoint row. */
  class RunRecord {
    const ids: Identities
    const scenario: Scenario
    var stored: Option<Checkpoint>
    var run: RunStatus

    ghost predicate Valid()
      reads this
    {
      && Lasting(ids, scenario, Current(stored))
      && (run == Running ==> Current(stored).status != Final)
      && (run == Evaluating ==> stored.Some? && stored.value.status == Final)
    }

    constructor (ids: Identities, scenario: Scenario)
      requires CollisionFree(ids)
      ensures Valid() && this.ids == ids && this.scenario == scenario
      ensures stored == None && run == Provisioning
    {
      this.ids, this.scenario, this.stored, this.run := ids, scenario, None, Provisioning;
      new;
      BlankSound(ids, scenario, Running);
      SoundLasts(ids, scenario, Blank, Running);
    }

    /** `_load_state`: starts a provisioned run, and refuses a run that is not executing. */
    method Load() returns (ok: bool)
      requires Valid()
      modifies `run
      ensures Valid()
      ensures ok <==> old(run) in {Provisioning, Running, Evaluating}
                      && !(old(run) == Provisioning && Current(stored).status == Final)
      ensures run == if ok && old(run) == Provisioning then Running else old(run)
    {
      ok := run in {Provisioning, Running, Evaluating} && !(run == Provisioning && Current(stored).status == Final);
      if ok && run == Provisioning {
        run := Running;
      }
    }

    /** `_persist_agent_output`: one transaction, refused unless the caller's base is the stored one. */
    method PersistAgentOutput(prior: Option<Checkpoint>, output: Output, elapsed: nat) returns (ok: bool)
      requires Valid() && ValidOutput(scenario, output)
      requires Current(prior).version == Current(stored).version ==> prior == stored
      requires Current(prior).pending == [] && PreStepBudgetError(scenario.budgets, Current(prior)) == None
      modifies this
      ensures Valid()
      ensures var next := AfterOutput(ids, scenario.budgets, old(Current(stored)), output, elapsed);
              if old(run) == Running && prior == old(stored) && next.Some?
              then ok && stored == next && run == SettledStatus(next.value)
              else !ok && stored == old(stored) && run == old(run)
    {
      ok := false;
      if run == Running && Current(prior).version == Current(stored).version {
        var next := AfterOutput(ids, scenario.budgets, Current(prior), output, elapsed);
        if next.Some? {
          OutputLasts(ids, scenario, Current(prior), output, elapsed);
          stored := next;
          if next.value.status == Final {
            run := Evaluating;
          }
          ok := true;
        }
      }
    }

    /** The transaction that records a tool attempt. */
    method RecordAttempt(base: Checkpoint, result: ToolResult, duration: nat) returns (ok: bool)
      requires Valid()
      requires base.version == Current(stored).version ==> stored == Some(base)
      requires base.pending != [] && base.toolAttempts < scenario.budgets.maxToolCalls
      requires Faithful(result, base.pending[0])
      modifies this
      ensures Valid() && run == old(run)
      ensures var next := AfterTool(ids, base, result, duration);
              if old(run) == Running && old(stored) == Some(base) && next.Some?
              then ok && stored == next
              else !ok && stored == old(stored)
    {
      ok := false;
      if run == Running && stored.Some? && stored.value.version == base.version {
        var next := AfterTool(ids, base, result, duration);
        if next.Some? {
          AttemptLasts(ids, scenario, base, result, duration);
          stored := next;
          ok := true;
        }
      }
    }

    /** `_terminate`. */
    method Terminate(target: RunStatus, code: string) returns (outcome: Outcome)
      requires Valid() && target in {Failed, TimedOut, InfraError}
      modifies `run
      ensures Valid()
      ensures if old(run) == Running
              then run == target && outcome == Terminated(target, code)
              else run == old(run) && outcome == Stale
    {
      if run != Running {
        return Stale;
      }
      run := target;
      return Terminated(target, code);
    }
  }

  /** One turn was committed: an agent step, or, with no step, a tool attempt. */
  ghost predicate OneTurn(b: Budgets, before: Checkpoint, after: Checkpoint, steps: nat)
  {
    && after.nextStep == before.nextStep + steps
    && before.trajectory < after.trajectory && |after.trajectory| == |before.trajectory| + 1
    && after.version == before.version + 1
    && TurnsLeft(b, after) == TurnsLeft(b, before) - 1
  }

  /** What an outcome says about the state it is returned from. */
  ghost predicate Describes(outcome: Outcome, stored: Option<Checkpoint>, run: RunStatus)
  {
    match outcome
    case EvaluationReady(answer) =>
      && run == Evaluating && stored.Some? && stored.value.status == Final
      && answer == FinalAnswer(stored.value.trajectory) && answer.Some?
    case Waiting(approvalId) =>
      && run == Running && stored.Some? && stored.value.status == WaitingForApproval
      && stored.value.pending != [] && approvalId == stored.value.pending[0].approvalId && approvalId.Some?
    case Terminated(status, _) => run == status && Current(stored).status != Final
    case Stale => true
    case NotReady => true
  }

  /** `_dispatch_pending`, single-transaction path: an outcome, or one tool turn committed. */
  method DispatchPending(record: RunRecord, gateway: Checkpoint -> GatewayReply) returns (r: Option<Outcome>)
    requires record.Valid() && record.run == Running && Current(record.stored).pending != []
    modifies record
    ensures record.Valid()
    ensures r == None ==> record.run == Running
    ensures r.Some? ==> Describes(r.value, record.stored, record.run) && !r.value.EvaluationReady?
    ensures record.stored != old(record.stored) ==>
      OneTurn(record.scenario.budgets, old(Current(record.stored)), Current(record.stored), 0)
    ensures r == None ==> record.stored != old(record.stored)
  {
    var b := record.scenario.budgets;
    var cp := record.stored.value;
    StoredFacts(record.ids, record.scenario, cp);
    if cp.toolAttempts >= b.maxToolCalls {
      var outcome := record.Terminate(TimedOut, "max_tool_calls_exceeded");
      return Some(outcome);
    }
    if cp.wallMs >= b.maxWallMs {
      var outcome := record.Terminate(TimedOut, "max_wall_time_exceeded");
      return Some(outcome);
    }
    var reply := gateway(cp);
    if reply.StaleLease? {
      return Some(Stale);
    }
    var ok := false;
    if reply.Executed? && Faithful(reply.result, cp.pending[0]) {
      ok := record.RecordAttempt(cp, reply.result, reply.duration);
    }
    if !ok {
      var outcome := record.Terminate(InfraError, "internal_error");
      return Some(outcome);
    }
    StoredFacts(record.ids, record.scenario, record.stored.value);
    if record.stored.value.status == WaitingForApproval {
      return Some(Waiting(record.stored.value.pending[0].approvalId));
    }
    return None;
  }

  /** What follows a recorded output: the post-step budgets, then the final answer. */
  method SettleOutput(record: RunRecord) returns (r: Option<Outcome>)
    requires record.Valid() && record.stored.Some? && record.run == SettledStatus(record.stored.value)
    requires record.stored.value.status == Final ==>
      PostStepBudgetError(record.scenario.budgets, record.stored.value) == None
    modifies record
    ensures record.Valid() && record.stored == old(record.stored)
    ensures r == None ==> record.run == Running
    ensures r.Some? ==> Describes(r.value, record.stored, record.run) && !r.value.Waiting?
  {
    var cp := record.stored.value;
    StoredFacts(record.ids, record.scenario, cp);
    var error := PostStepBudgetError(record.scenario.budgets, cp);
    if error.Some? {
      var outcome := record.Terminate(TimedOut, error.value);
      return Some(outcome);
    }
    if cp.status == Final {
      return Some(EvaluationReady(cp.finalAnswer));
    }
    return None;
  }

  /** What an output adds to an accepted checkpoint is one turn. */
  lemma OutputIsOneTurn(ids: Identities, b: Budgets, cp: Checkpoint, output: Output, elapsed: nat)
    requires AfterOutput(ids, b, cp, output, elapsed).Some?
    ensures OneTurn(b, cp, AfterOutput(ids, b, cp, output, elapsed).value, 1)
  {
  }

  /** A valid output arrives: an outcome, or one assistant turn committed. */
  method RecordOutput(record: RunRecord, output: Output, elapsed: nat) returns (r: Option<Outcome>)
    requires record.Valid() && record.run == Running && ValidOutput(record.scenario, output)
    requires var cp := Current(record.stored);
             cp.pending == [] && PreStepBudgetError(record.scenario.budgets, cp) == None
    modifies record
    ensures record.Valid()
    ensures r == None ==> record.run == Running && record.stored != old(record.stored)
    ensures r.Some? ==> Describes(r.value, record.stored, record.run) && !r.value.Waiting?
    ensures record.stored != old(record.stored) ==>
      OneTurn(record.scenario.budgets, old(Current(record.stored)), Current(record.stored), 1)
  {
    ghost var cp := Current(record.stored);
    var ok := record.PersistAgentOutput(record.stored, output, elapsed);
    if !ok {
      var outcome := record.Terminate(InfraError, "internal_error");
      return Some(outcome);
    }
    OutputIsOneTurn(record.ids, record.scenario.budgets, cp, output, elapsed);
    r := SettleOutput(record);
  }

  /** What the loop makes of a reply that holds no valid output. */
  function Refusal(scenario: Scenario, reply: AgentReply): Option<(RunStatus, string)>
  {
    match reply
    case ProviderTimeout => Some((TimedOut, "provider_timeout"))
    case ProviderError => Some((InfraError, "provider_error"))
    case Replied(output, _) => if ValidOutput(scenario, output) then None else Some((Failed, "invalid_agent_output"))
  }

  /** The agent round of the loop: an outcome, or one assistant turn committed. `asked` counts the calls of
      the agent. */
  method InvokeAgent(record: RunRecord, agent: Checkpoint -> AgentReply) returns (r: Option<Outcome>, ghost asked: nat)
    requires record.Valid() && record.run == Running && Current(record.stored).pending == []
    modifies record
    ensures record.Valid()
    ensures r == None ==> record.run == Running && record.stored != old(record.stored)
    ensures r.Some? ==> Describes(r.value, record.stored, record.run) && !r.value.Waiting?
    ensures record.stored != old(record.stored) ==>
      asked == 1 && OneTurn(record.scenario.budgets, old(Current(record.stored)), Current(record.stored), 1)
    ensures asked <= 1 && (asked == 1 ==> !FinalIntent(old(Current(record.stored)).trajectory))
    ensures asked == 0 ==> r.Some? && r.value.Terminated?
  {
    var cp := Current(record.stored);
    var error := PreStepBudgetError(record.scenario.budgets, cp);
    asked := 0;
    if error.Some? {
      var outcome := record.Terminate(TimedOut, error.value);
      r := Some(outcome);
    } else {
      StoredFacts(record.ids, record.scenario, cp);
      var reply := agent(cp);
      asked := asked + 1;
      var refusal := Refusal(record.scenario, reply);
      if refusal.Some? {
        var outcome := record.Terminate(refusal.value.0, refusal.value.1);
        r := Some(outcome);
      } else {
        r := RecordOutput(record, reply.output, reply.elapsed);
      }
    }
  }

  /** The loop, for every agent and every gateway. It ends because each round commits one turn; it
      commits at most `TurnsLeft` of them; it asks the agent once for each step and at most once more; and after a final answer it commits none and never asks. */
  method ExecuteRun(record: RunRecord, agent: Checkpoint -> AgentReply, gateway: Checkpoint -> GatewayReply)
    returns (outcome: Outcome, ghost asked: nat)
    requires record.Valid()
    modifies record
    ensures record.Valid() && Describes(outcome, record.stored, record.run)
    ensures var before, after := old(Current(record.stored)), Current(record.stored);
            && before.trajectory <= after.trajectory
            && after.version - before.version == |after.trajectory| - |before.trajectory|
            && |after.trajectory| - |before.trajectory| <= TurnsLeft(record.scenario.budgets, before)
    ensures FinalIntent(old(Current(record.stored)).trajectory) ==> record.stored == old(record.stored) && asked == 0
    ensures asked <= Current(record.stored).nextStep - old(Current(record.stored)).nextStep + 1
  {
    asked := 0;
    StoredFacts(record.ids, record.scenario, Current(record.stored));
    var ok := record.Load();
    if !ok {
      return NotReady, 0;
    }
    if record.run == Evaluating {
      return EvaluationReady(record.stored.value.finalAnswer), 0;
    }
    ghost var before := old(Current(record.stored));
    while true
      invariant record.Valid() && record.run == Running
      invariant Committed(record.scenario.budgets, before, Current(record.stored), asked)
      invariant FinalIntent(before.trajectory) ==> record.stored == old(record.stored) && asked == 0
      decreases TurnsLeft(record.scenario.budgets, Current(record.stored))
    {
      ghost var cp := Current(record.stored);
      var r: Option<Outcome>;
      ghost var now := 0;
      if Current(record.stored).pending != [] {
        r := DispatchPending(record, gateway);
      } else {
        r, now := InvokeAgent(record, agent);
      }
      StoredFacts(record.ids, record.scenario, Current(record.stored));
      CommittedGrows(record.scenario.budgets, before, cp, asked);
      asked := asked + now;
      if r.Some? {
        return r.value, asked;
      }
    }
  }

  /** What some rounds have committed, having asked the agent so often. */
  ghost predicate Committed(b: Budgets, before: Checkpoint, after: Checkpoint, asked: nat)
  {
    && before.trajectory <= after.trajectory
    && after.version - before.version == |after.trajectory| - |before.trajectory|
    && TurnsLeft(b, after) + |after.trajectory| == TurnsLeft(b, before) + |before.trajectory|
    && asked == after.nextStep - before.nextStep
  }

  lemma CommittedGrows(b: Budgets, before: Checkpoint, middle: Checkpoint, asked: nat)
    requires Committed(b, before, middle, asked)
    ensures forall after, steps: nat :: OneTurn(b, middle, after, steps) ==> Committed(b, before, after, asked + steps)
  {
  }
}
