/** What holds of every schedule of every number of workers. */
module Schedules {
  import opened Prelude
  import opened Checkpoints
  import opened CheckpointValidator
  import opened CheckpointSoundness
  import opened Attempts
  import opened Workers

  /** The stored checkpoints of a longer schedule continue those of a shorter one. */
  lemma {:induction false} HistoryOnlyGrows(config: Config, actions: seq<Action>, more: seq<Action>)
    requires Run(config, actions + more).Some?
    ensures Run(config, actions).Some?
    ensures Run(config, actions).value.history <= Run(config, actions + more).value.history
  {
    if more == [] {
      assert actions + more == actions;
    } else {
      assert Front(actions + more) == actions + Front(more);
      HistoryOnlyGrows(config, actions, Front(more));
    }
  }

  /** Whatever the interleaving, the stored versions form one history: version n+1 is version n with
      exactly one turn appended, no turn is lost or rewritten, and no attempt is recorded twice. */
  lemma OneLinearHistory(config: Config, actions: seq<Action>, i: nat, j: nat)
    requires CollisionFree(config.ids) && Run(config, actions).Some?
    requires i <= j < |Run(config, actions).value.history|
    ensures var history := Run(config, actions).value.history;
            && history[i].version == i + 1
            && |history[j].trajectory| == j + 1
            && history[i].trajectory == history[j].trajectory[..i + 1]
            && AttemptsDistinct(history[j].trajectory)
  {
    RunKeeps(config, actions);
    var history := Run(config, actions).value.history;
    TrajectoriesNest(history, i, j);
    EntriesFold(config, history);
    AttemptsNeverRepeat(config.ids, config.scenario, history[j].trajectory);
  }

  /** What a reload leaves its worker with, and the check it has passed. */
  ghost predicate ReloadOk(config: Config, world: World, w: nat)
  {
    && (world.run == Running || world.run == Evaluating)
    && WorkerAt(world, w) == Loaded(Stored(world), world.run)
    && (world.history != [] ==> Accepted(config.ids, config.scenario, Last(world.history), world.run))
    && (world.run == Evaluating ==> world.history != [] && Last(world.history).status == Final)
  }

  lemma ReloadIsAccepted(config: Config, world: World, reload: Action)
    requires Step(config, world, reload).Some? && (reload.Load? || reload.Recover?)
    requires WorldOk(config, Step(config, world, reload).value)
    ensures ReloadOk(config, Step(config, world, reload).value, reload.w)
  {
    var history := Step(config, world, reload).value.history;
    if history != [] {
      EntryAccepted(config, history, |history| - 1);
    }
  }

  /** Every reload of every reachable state, recovering or not, passes the reload check. */
  lemma EveryReloadIsAccepted(config: Config, actions: seq<Action>, reload: Action)
    requires CollisionFree(config.ids) && Run(config, actions + [reload]).Some?
    requires reload.Load? || reload.Recover?
    ensures ReloadOk(config, Run(config, actions + [reload]).value, reload.w)
  {
    RunKeeps(config, actions + [reload]);
    assert Front(actions + [reload]) == actions;
    ReloadIsAccepted(config, Run(config, actions).value, reload);
  }

  lemma EntryAccepted(config: Config, history: seq<Checkpoint>, i: nat)
    requires EntriesOk(config, history) && i < |history|
    ensures Accepted(config.ids, config.scenario, history[i], SettledStatus(history[i]))
    ensures history[i].knownCost <= config.scenario.budgets.maxCost + MAX_SINGLE_CALL_COST
  {
    assert EntryOk(config, history[i]);
  }

  /** Committed turns never exceed either budget, and known cost exceeds its budget by at most what
      one call may cost: on the single-transaction path, on the split path and on recovery. */
  lemma BudgetsAreKept(config: Config, actions: seq<Action>, i: nat)
    requires CollisionFree(config.ids) && Run(config, actions).Some?
    requires i < |Run(config, actions).value.history|
    ensures var cp := Run(config, actions).value.history[i];
            && AssistantTurns(cp.trajectory) <= config.scenario.budgets.maxSteps
            && ToolTurns(cp.trajectory) <= config.scenario.budgets.maxToolCalls
            && KnownCost(cp.trajectory) <= config.scenario.budgets.maxCost + MAX_SINGLE_CALL_COST
  {
    RunKeeps(config, actions);
    EntryAccepted(config, Run(config, actions).value.history, i);
  }

  lemma FinalIntentIsSettled(config: Config, cp: Checkpoint)
    requires Accepted(config.ids, config.scenario, cp, SettledStatus(cp)) && FinalIntent(cp.trajectory)
    ensures cp.pending == []
    ensures cp.status == Final || PreStepBudgetError(config.scenario.budgets, cp).Some?
  {
    PostErrorIsPreError(config.scenario.budgets, cp);
  }

  /** After a final answer, within budget or over it, nothing is stored again, and a worker that
      holds the stored checkpoint does not call the agent: whatever crashes and reloads follow. */
  lemma FinalAnswerIsLast(config: Config, actions: seq<Action>, next: Action)
    requires CollisionFree(config.ids) && Run(config, actions + [next]).Some?
    requires var world := Run(config, actions); world.Some? && world.value.history != []
    requires FinalIntent(Last(Run(config, actions).value.history).trajectory)
    ensures Run(config, actions + [next]).value.history == Run(config, actions).value.history
    ensures next.Invoke? ==>
      var worker := WorkerAt(Run(config, actions).value, next.w);
      worker.Loaded? && worker.snapshot != Stored(Run(config, actions).value)
  {
    assert Front(actions + [next]) == actions;
    var world := Run(config, actions).value;
    RunKeeps(config, actions);
    EntryAccepted(config, world.history, |world.history| - 1);
    FinalIntentIsSettled(config, Last(world.history));
    FinalStoresNothing(config, world, next);
  }

  lemma FinalStoresNothing(config: Config, world: World, next: Action)
    requires Linear(world.history) && RestOk(config, world) && world.history != []
    requires var cp := Last(world.history);
             cp.pending == [] && (cp.status == Final || PreStepBudgetError(config.scenario.budgets, cp).Some?)
    requires Step(config, world, next).Some?
    ensures Step(config, world, next).value.history == world.history
    ensures next.Invoke? ==> WorkerAt(world, next.w).Loaded? && WorkerAt(world, next.w).snapshot != Stored(world)
  {
    forall s | SnapshotOk(world.history, s) && Fresh(world, s)
      ensures s == Stored(world)
    {
      FreshIsStored(world, s);
    }
  }
}
