/** Any number of workers, with snapshots as stale as they like, over one stored checkpoint. */
module Workers {
  import opened Prelude
  import opened Checkpoints
  import opened CheckpointValidator
  import opened CheckpointSoundness
  import opened Attempts

  // ----- The state machine -----

  /** What one worker holds between its transactions. */
  datatype Worker =
    | Idle
    | Loaded(snapshot: Option<Checkpoint>, run: RunStatus)
    | Replied(snapshot: Option<Checkpoint>, output: Output, elapsed: nat)
    | Checked(base: Checkpoint)
    | Executed(base: Checkpoint, result: ToolResult, duration: nat)

  /** The durable state, every checkpoint ever stored, the attempts the gateway has committed
      outside a checkpoint transaction, and the workers. */
  datatype World = World(run: RunStatus, history: seq<Checkpoint>, committed: set<string>, workers: map<nat, Worker>)

  datatype Config = Config(ids: Identities, scenario: Scenario, mutation: string -> bool)

  datatype Action =
    | Load(w: nat)
    | Recover(w: nat, result: ToolResult, duration: nat)
    | Invoke(w: nat, output: Output, elapsed: nat)
    | Persist(w: nat)
    | Dispatch(w: nat, result: ToolResult, duration: nat)
    | Check(w: nat)
    | Execute(w: nat, result: ToolResult, duration: nat)
    | Store(w: nat)
    | Crash(w: nat)
    | Lifecycle(to: RunStatus)

  const Initial := World(Queued, [], {}, map[])

  function Stored(world: World): Option<Checkpoint>
  {
    if world.history == [] then None else Some(Last(world.history))
  }

  function WorkerAt(world: World, w: nat): Worker
  {
    if w in world.workers then world.workers[w] else Idle
  }

  function Put(world: World, w: nat, worker: Worker): World
  {
    world.(workers := world.workers[w := worker])
  }

  function Append(world: World, cp: Checkpoint): World
  {
    world.(history := world.history + [cp])
  }

  /** The compare-and-swap guard: the snapshot carries the stored version. */
  predicate Fresh(world: World, snapshot: Option<Checkpoint>)
  {
    Current(snapshot).version == Current(Stored(world)).version
  }

  /** The lifecycle edges, except requeueing an evaluating run. */
  predicate Edge(from: RunStatus, to: RunStatus)
  {
    match from
    case Queued => to == Provisioning || to == Cancelled
    case Provisioning => to in {Queued, Failed, TimedOut, Cancelled, InfraError}
    case Running => to in {Queued, Failed, TimedOut, Cancelled, InfraError}
    case Evaluating => to in {Completed, Failed, TimedOut, Cancelled, InfraError}
    case _ => false
  }

  /** The guard both dispatch paths share. */
  predicate MayDispatch(config: Config, worker: Worker)
  {
    && worker.Loaded?
    && worker.run == Running
    && worker.snapshot.Some?
    && worker.snapshot.value.pending != []
    && worker.snapshot.value.toolAttempts < config.scenario.budgets.maxToolCalls
    && worker.snapshot.value.wallMs < config.scenario.budgets.maxWallMs
  }

  /** The three ways an attempt's result reaches the stored checkpoint end here. */
  function StoreResult(config: Config, world: World, w: nat, base: Checkpoint, result: ToolResult,
                       duration: nat, next: Worker): Option<World>
    requires base.pending != []
  {
    var cp := AfterTool(config.ids, base, result, duration);
    if Faithful(result, base.pending[0]) && cp.Some?
    then Some(Put(Append(world, cp.value), w, next))
    else None
  }

  /** One transaction, adapter call, crash or lifecycle change; None when it is not possible. */
  function Step(config: Config, world: World, action: Action): Option<World>
  {
    match action
    case Load(w) =>
      if world.run !in {Provisioning, Running, Evaluating} then None
      else
        var world' := StartRunning(world);
        Some(Put(world', w, Loaded(Stored(world'), world'.run)))

    case Recover(w, result, duration) =>
      // Loading finds that the head's attempt was committed without its checkpoint.
      if world.run !in {Provisioning, Running} || world.history == [] then None
      else
        var base := Last(world.history);
        if base.pending == [] || !config.mutation(base.pending[0].call.toolId)
           || HeadAttempt(config.ids, base.pending) !in world.committed then None
        else
          var cp := AfterTool(config.ids, base, result, duration);
          StoreResult(config, StartRunning(world), w, base, result, duration, Loaded(cp, Running))

    case Invoke(w, output, elapsed) =>
      var worker := WorkerAt(world, w);
      if && worker.Loaded? && worker.run == Running
         && Current(worker.snapshot).pending == []
         && PreStepBudgetError(config.scenario.budgets, Current(worker.snapshot)) == None
         && ValidOutput(config.scenario, output)
      then Some(Put(world, w, Replied(worker.snapshot, output, elapsed)))
      else None

    case Persist(w) =>
      var worker := WorkerAt(world, w);
      if !worker.Replied? || world.run != Running || !Fresh(world, worker.snapshot) then None
      else
        var cp := AfterOutput(config.ids, config.scenario.budgets, Current(worker.snapshot),
                              worker.output, worker.elapsed);
        if cp.None? then None
        else
          var run := if cp.value.status == Final then Evaluating else Running;
          Some(Put(Append(world, cp.value).(run := run), w, Loaded(cp, run)))

    case Dispatch(w, result, duration) =>
      var worker := WorkerAt(world, w);
      if MayDispatch(config, worker) && world.run == Running && Fresh(world, worker.snapshot)
      then StoreResult(config, world, w, worker.snapshot.value, result, duration, Idle)
      else None

    case Check(w) =>
      var worker := WorkerAt(world, w);
      if MayDispatch(config, worker) && world.run == Running && Fresh(world, worker.snapshot)
      then Some(Put(world, w, Checked(worker.snapshot.value)))
      else None

    case Execute(w, result, duration) =>
      // The gateway's own transaction: it checks no checkpoint version.
      var worker := WorkerAt(world, w);
      if worker.Checked? && worker.base.pending != []
      then
        var world' := world.(committed := world.committed + {HeadAttempt(config.ids, worker.base.pending)});
        Some(Put(world', w, Executed(worker.base, result, duration)))
      else None

    case Store(w) =>
      var worker := WorkerAt(world, w);
      if worker.Executed? && worker.base.pending != [] && world.run == Running && Fresh(world, Some(worker.base))
      then StoreResult(config, world, w, worker.base, worker.result, worker.duration, Idle)
      else None

    case Crash(w) =>
      Some(Put(world, w, Idle))

    case Lifecycle(to) =>
      if Edge(world.run, to) then Some(world.(run := to)) else None
  }

  function StartRunning(world: World): World
  {
    if world.run == Provisioning then world.(run := Running) else world
  }

  /** The world after a schedule of actions; None when some action in it is not possible. */
  function Run(config: Config, actions: seq<Action>): Option<World>
  {
    if actions == [] then Some(Initial)
    else
      match Run(config, Front(actions))
      case None => None
      case Some(world) => Step(config, world, Last(actions))
  }

  // ----- What every schedule keeps -----

  /** One linear history: versions count up, and each version adds one turn to the one before. */
  ghost predicate Linear(history: seq<Checkpoint>)
  {
    && (forall i :: 0 <= i < |history| ==> history[i].version == i + 1 && |history[i].trajectory| == i + 1)
    && (forall i :: 0 <= i < |history| - 1 ==> history[i].trajectory <= history[i + 1].trajectory)
    && (forall i :: 0 <= i < |history| - 1 ==> history[i].status != Final)
  }

  ghost predicate EntryOk(config: Config, cp: Checkpoint)
  {
    && Sound(config.ids, config.scenario, cp, SettledStatus(cp))
    && cp.knownCost <= config.scenario.budgets.maxCost + MAX_SINGLE_CALL_COST
  }

  ghost predicate EntriesOk(config: Config, history: seq<Checkpoint>)
  {
    forall i :: 0 <= i < |history| ==> EntryOk(config, history[i])
  }

  ghost predicate HistoryOk(config: Config, history: seq<Checkpoint>)
  {
    Linear(history) && EntriesOk(config, history)
  }

  ghost predicate RunOk(world: World)
  {
    var final := world.history != [] && Last(world.history).status == Final;
    && (final ==> world.run !in {Queued, Provisioning, Running})
    && (world.run == Evaluating ==> final)
  }

  ghost predicate InHistory(history: seq<Checkpoint>, cp: Checkpoint)
  {
    1 <= cp.version <= |history| && history[cp.version - 1] == cp
  }

  ghost predicate SnapshotOk(history: seq<Checkpoint>, snapshot: Option<Checkpoint>)
  {
    snapshot.Some? ==> InHistory(history, snapshot.value)
  }

  ghost predicate Dispatchable(config: Config, cp: Checkpoint)
  {
    cp.pending != [] && cp.toolAttempts < config.scenario.budgets.maxToolCalls
  }

  ghost predicate WorkerOk(config: Config, history: seq<Checkpoint>, worker: Worker)
  {
    match worker
    case Idle => true
    case Loaded(snapshot, run) =>
      && SnapshotOk(history, snapshot)
      && (snapshot.Some? && snapshot.value.status == Final ==> run != Running)
    case Replied(snapshot, output, _) =>
      && SnapshotOk(history, snapshot)
      && Current(snapshot).pending == [] && Current(snapshot).status != Final
      && PreStepBudgetError(config.scenario.budgets, Current(snapshot)) == None
      && ValidOutput(config.scenario, output)
    case Checked(base) => InHistory(history, base) && Dispatchable(config, base)
    case Executed(base, _, _) => InHistory(history, base) && Dispatchable(config, base)
  }

  /** Every attempt the gateway committed on its own was dispatched from a stored checkpoint. */
  ghost predicate CommittedOk(config: Config, world: World)
  {
    forall a :: a in world.committed ==>
      exists i :: 0 <= i < |world.history| && Dispatchable(config, world.history[i])
                  && HeadAttempt(config.ids, world.history[i].pending) == a
  }

  ghost predicate WorldOk(config: Config, world: World)
  {
    HistoryOk(config, world.history) && RestOk(config, world)
  }

  ghost predicate RestOk(config: Config, world: World)
  {
    && RunOk(world)
    && CommittedOk(config, world)
    && forall w :: w in world.workers ==> WorkerOk(config, world.history, world.workers[w])
  }

  lemma {:induction false} TrajectoriesNest(history: seq<Checkpoint>, i: nat, j: nat)
    requires Linear(history) && i <= j < |history|
    ensures history[i].trajectory <= history[j].trajectory
  {
    if i < j {
      TrajectoriesNest(history, i, j - 1);
    }
  }

  /** A fresh snapshot is the stored checkpoint: the version alone decides. */
  lemma FreshIsStored(world: World, snapshot: Option<Checkpoint>)
    requires Linear(world.history) && SnapshotOk(world.history, snapshot) && Fresh(world, snapshot)
    ensures snapshot == Stored(world)
  {
  }

  // Appending one checkpoint disturbs nothing that is already recorded.
  lemma AppendKeepsWorkers(config: Config, history: seq<Checkpoint>, cp: Checkpoint, worker: Worker)
    requires WorkerOk(config, history, worker)
    ensures WorkerOk(config, history + [cp], worker)
  {
  }

  lemma AppendKeepsCommitted(config: Config, world: World, cp: Checkpoint)
    requires CommittedOk(config, world)
    ensures CommittedOk(config, Append(world, cp))
  {
    var history := world.history + [cp];
    forall a | a in world.committed
      ensures exists i :: 0 <= i < |history| && Dispatchable(config, history[i])
                          && HeadAttempt(config.ids, history[i].pending) == a
    {
      var i :| 0 <= i < |world.history| && Dispatchable(config, world.history[i])
               && HeadAttempt(config.ids, world.history[i].pending) == a;
      assert history[i] == world.history[i];
    }
  }

  lemma ExtendLinear(history: seq<Checkpoint>, cp: Checkpoint, t: Turn)
    requires Linear(history)
    requires var base := if history == [] then Blank else Last(history);
             && base.status != Final
             && cp.version == base.version + 1 && cp.trajectory == base.trajectory + [t]
    ensures Linear(history + [cp])
  {
  }

  lemma ExtendEntries(config: Config, history: seq<Checkpoint>, cp: Checkpoint)
    requires EntriesOk(config, history) && EntryOk(config, cp)
    ensures EntriesOk(config, history + [cp])
  {
  }

  /** Storing a tool result keeps the history linear and every entry acceptable. */
  lemma StoreKeepsHistory(config: Config, history: seq<Checkpoint>, result: ToolResult, duration: nat)
    requires CollisionFree(config.ids) && HistoryOk(config, history) && history != []
    requires Dispatchable(config, Last(history)) && Last(history).status != Final
    requires Faithful(result, Last(history).pending[0])
    requires AfterTool(config.ids, Last(history), result, duration).Some?
    ensures var cp := AfterTool(config.ids, Last(history), result, duration).value;
            HistoryOk(config, history + [cp]) && cp.status != Final
  {
    var base := Last(history);
    var cp := AfterTool(config.ids, base, result, duration).value;
    ToolStepSound(config.ids, config.scenario, base, result, duration);
    ExtendLinear(history, cp, ToolTurn(config.ids, base.pending[0], result, duration));
    ExtendEntries(config, history, cp);
  }

  lemma PersistKeepsHistory(config: Config, history: seq<Checkpoint>, base: Checkpoint, output: Output, elapsed: nat)
    requires CollisionFree(config.ids) && HistoryOk(config, history)
    requires base == if history == [] then Blank else Last(history)
    requires base.pending == [] && base.status != Final && ValidOutput(config.scenario, output)
    requires PreStepBudgetError(config.scenario.budgets, base) == None
    requires AfterOutput(config.ids, config.scenario.budgets, base, output, elapsed).Some?
    ensures HistoryOk(config, history +
              [AfterOutput(config.ids, config.scenario.budgets, base, output, elapsed).value])
  {
    if history == [] {
      BlankSound(config.ids, config.scenario, Running);
    }
    var cp := AfterOutput(config.ids, config.scenario.budgets, base, output, elapsed).value;
    OutputStepSound(config.ids, config.scenario, base, output, elapsed);
    ExtendLinear(history, cp, AssistantTurn(config.ids, base.nextStep, output, elapsed));
    ExtendEntries(config, history, cp);
  }

  ghost predicate Folds(config: Config, cp: Checkpoint)
  {
    var q := Fold(config.ids, config.scenario, cp.trajectory);
    q.Some? && q.value.pending == cp.pending
  }

  ghost predicate AllFold(config: Config, history: seq<Checkpoint>)
  {
    forall i :: 0 <= i < |history| ==> Folds(config, history[i])
  }

  lemma EntriesFold(config: Config, history: seq<Checkpoint>)
    requires EntriesOk(config, history)
    ensures AllFold(config, history)
  {
  }

  /** Once a version has a successor, its head attempt is recorded and is never the head again. */
  lemma RecordedHeadIsNotCurrent(config: Config, a: Checkpoint, b: Checkpoint, last: Checkpoint)
    requires CollisionFree(config.ids)
    requires Folds(config, a) && Folds(config, b) && Folds(config, last)
    requires a.trajectory <= b.trajectory && |b.trajectory| == |a.trajectory| + 1
    requires b.trajectory <= last.trajectory
    requires a.pending != [] && last.pending != []
    ensures HeadAttempt(config.ids, a.pending) != HeadAttempt(config.ids, last.pending)
  {
    var t := Last(b.trajectory);
    assert b.trajectory == a.trajectory + [t];
    FoldSnoc(config.ids, config.scenario, Some(Start), a.trajectory, t);
    assert t == last.trajectory[|a.trajectory|];
    HeadAttemptUnused(config.ids, config.scenario, last.trajectory);
  }

  /** A committed attempt that is still the head was dispatched from the stored checkpoint itself,
      so recovering it cannot exceed the tool-call budget. */
  lemma CommittedHeadIsDispatchable(config: Config, history: seq<Checkpoint>, i: nat)
    requires CollisionFree(config.ids) && Linear(history) && AllFold(config, history)
    requires i < |history| && Dispatchable(config, history[i])
    requires Last(history).pending != []
    requires HeadAttempt(config.ids, history[i].pending) == HeadAttempt(config.ids, Last(history).pending)
    ensures Dispatchable(config, Last(history))
  {
    if i < |history| - 1 {
      TrajectoriesNest(history, i + 1, |history| - 1);
      assert history[i].trajectory <= history[i + 1].trajectory && Folds(config, history[i + 1]);
      RecordedHeadIsNotCurrent(config, history[i], history[i + 1], Last(history));
    }
  }

  // ----- Every action keeps it -----

  lemma RecoverKeeps(config: Config, world: World, w: nat, result: ToolResult, duration: nat)
    requires CollisionFree(config.ids) && WorldOk(config, world)
    requires Step(config, world, Recover(w, result, duration)).Some?
    ensures WorldOk(config, Step(config, world, Recover(w, result, duration)).value)
  {
    var history := world.history;
    var a := HeadAttempt(config.ids, Last(history).pending);
    var i :| 0 <= i < |history| && Dispatchable(config, history[i]) && HeadAttempt(config.ids, history[i].pending) == a;
    EntriesFold(config, history);
    CommittedHeadIsDispatchable(config, history, i);
    StoreKeeps(config, StartRunning(world), w, result, duration,
               Loaded(AfterTool(config.ids, Last(history), result, duration), Running));
  }

  /** Appending the result of the stored head keeps the whole invariant. */
  lemma StoreKeeps(config: Config, world: World, w: nat, result: ToolResult, duration: nat, next: Worker)
    requires CollisionFree(config.ids) && WorldOk(config, world)
    requires world.run == Running && world.history != [] && Dispatchable(config, Last(world.history))
    requires next == Idle || next == Loaded(AfterTool(config.ids, Last(world.history), result, duration), Running)
    requires StoreResult(config, world, w, Last(world.history), result, duration, next).Some?
    ensures WorldOk(config, StoreResult(config, world, w, Last(world.history), result, duration, next).value)
  {
    var cp := AfterTool(config.ids, Last(world.history), result, duration).value;
    var world' := Put(Append(world, cp), w, next);
    StoreKeepsHistory(config, world.history, result, duration);
    AppendKeepsCommitted(config, world, cp);
    KeepsWorkers(config, world, cp, w, next);
  }

  lemma KeepsWorkers(config: Config, world: World, cp: Checkpoint, w: nat, next: Worker)
    requires forall v :: v in world.workers ==> WorkerOk(config, world.history, world.workers[v])
    requires WorkerOk(config, world.history + [cp], next)
    ensures var world' := Put(Append(world, cp), w, next);
            forall v :: v in world'.workers ==> WorkerOk(config, world'.history, world'.workers[v])
  {
    forall v | v in world.workers && v != w
      ensures WorkerOk(config, world.history + [cp], world.workers[v])
    {
      AppendKeepsWorkers(config, world.history, cp, world.workers[v]);
    }
  }

  lemma PersistKeeps(config: Config, world: World, w: nat)
    requires CollisionFree(config.ids) && WorldOk(config, world)
    requires Step(config, world, Persist(w)).Some?
    ensures WorldOk(config, Step(config, world, Persist(w)).value)
  {
    var worker := WorkerAt(world, w);
    FreshIsStored(world, worker.snapshot);
    PersistKeepsHistory(config, world.history, Current(worker.snapshot), worker.output, worker.elapsed);
    PersistKeepsRest(config, world, w);
  }

  lemma PersistKeepsRest(config: Config, world: World, w: nat)
    requires Linear(world.history) && RestOk(config, world)
    requires Step(config, world, Persist(w)).Some?
    ensures RestOk(config, Step(config, world, Persist(w)).value)
  {
    var worker := WorkerAt(world, w);
    FreshIsStored(world, worker.snapshot);
    var cp := AfterOutput(config.ids, config.scenario.budgets, Current(worker.snapshot), worker.output, worker.elapsed).value;
    AppendKeepsCommitted(config, world, cp);
    KeepsWorkers(config, world, cp, w, Loaded(Some(cp), SettledStatus(cp)));
  }

  lemma ExecuteKeeps(config: Config, world: World, w: nat, result: ToolResult, duration: nat)
    requires Linear(world.history) && RestOk(config, world)
    requires Step(config, world, Execute(w, result, duration)).Some?
    ensures var world' := Step(config, world, Execute(w, result, duration)).value;
            world'.history == world.history && RestOk(config, world')
  {
    var base := WorkerAt(world, w).base;
    var world' := Step(config, world, Execute(w, result, duration)).value;
    forall a | a in world'.committed
      ensures exists i :: 0 <= i < |world.history| && Dispatchable(config, world.history[i])
                          && HeadAttempt(config.ids, world.history[i].pending) == a
    {
      if a !in world.committed {
        assert world.history[base.version - 1] == base;
      }
    }
  }

  lemma StoredBase(config: Config, world: World, w: nat)
    requires Linear(world.history) && RestOk(config, world)
    requires Step(config, world, Store(w)).Some?
    ensures world.history != [] && Last(world.history) == WorkerAt(world, w).base
    ensures Dispatchable(config, Last(world.history))
  {
    FreshIsStored(world, Some(WorkerAt(world, w).base));
  }

  lemma StoredResultKeeps(config: Config, world: World, w: nat)
    requires CollisionFree(config.ids) && WorldOk(config, world)
    requires Step(config, world, Store(w)).Some?
    ensures WorldOk(config, Step(config, world, Store(w)).value)
  {
    var worker := WorkerAt(world, w);
    StoredBase(config, world, w);
    StoreKeeps(config, world, w, worker.result, worker.duration, Idle);
  }

  lemma DispatchKeeps(config: Config, world: World, w: nat, result: ToolResult, duration: nat)
    requires CollisionFree(config.ids) && WorldOk(config, world)
    requires Step(config, world, Dispatch(w, result, duration)).Some?
    ensures WorldOk(config, Step(config, world, Dispatch(w, result, duration)).value)
  {
    FreshIsStored(world, WorkerAt(world, w).snapshot);
    StoreKeeps(config, world, w, result, duration, Idle);
  }

  /** Loads, adapter calls, checks, crashes and lifecycle changes store nothing. */
  predicate Quiet(action: Action)
  {
    action.Load? || action.Invoke? || action.Check? || action.Crash? || action.Lifecycle?
  }

  lemma PutKeeps(config: Config, world: World, run: RunStatus, w: nat, worker: Worker)
    requires RestOk(config, world) && RunOk(world.(run := run)) && WorkerOk(config, world.history, worker)
    ensures RestOk(config, Put(world.(run := run), w, worker))
  {
  }

  lemma LoadKeeps(config: Config, world: World, w: nat)
    requires Linear(world.history) && RestOk(config, world) && Step(config, world, Load(w)).Some?
    ensures var world' := Step(config, world, Load(w)).value;
            world'.history == world.history && RestOk(config, world')
  {
    var run := StartRunning(world).run;
    PutKeeps(config, world, run, w, Loaded(Stored(world), run));
  }

  lemma InvokeKeeps(config: Config, world: World, w: nat, output: Output, elapsed: nat)
    requires RestOk(config, world) && Step(config, world, Invoke(w, output, elapsed)).Some?
    ensures var world' := Step(config, world, Invoke(w, output, elapsed)).value;
            world'.history == world.history && RestOk(config, world')
  {
    PutKeeps(config, world, world.run, w, Replied(WorkerAt(world, w).snapshot, output, elapsed));
  }

  lemma CheckKeeps(config: Config, world: World, w: nat)
    requires RestOk(config, world) && Step(config, world, Check(w)).Some?
    ensures var world' := Step(config, world, Check(w)).value;
            world'.history == world.history && RestOk(config, world')
  {
    PutKeeps(config, world, world.run, w, Checked(WorkerAt(world, w).snapshot.value));
  }

  lemma QuietKeeps(config: Config, world: World, action: Action)
    requires Linear(world.history) && RestOk(config, world)
    requires Quiet(action) && Step(config, world, action).Some?
    ensures var world' := Step(config, world, action).value;
            world'.history == world.history && RestOk(config, world')
  {
    match action
    case Load(w) => LoadKeeps(config, world, w);
    case Invoke(w, output, elapsed) => InvokeKeeps(config, world, w, output, elapsed);
    case Check(w) => CheckKeeps(config, world, w);
    case Crash(w) => PutKeeps(config, world, world.run, w, Idle);
    case Lifecycle(to) =>
  }

  lemma StepKeeps(config: Config, world: World, action: Action)
    requires CollisionFree(config.ids) && WorldOk(config, world)
    requires Step(config, world, action).Some?
    ensures WorldOk(config, Step(config, world, action).value)
  {
    match action
    case Recover(w, result, duration) => RecoverKeeps(config, world, w, result, duration);
    case Persist(w) => PersistKeeps(config, world, w);
    case Dispatch(w, result, duration) => DispatchKeeps(config, world, w, result, duration);
    case Execute(w, result, duration) => ExecuteKeeps(config, world, w, result, duration);
    case Store(w) => StoredResultKeeps(config, world, w);
    case _ => QuietKeeps(config, world, action);
  }

  lemma {:induction false} RunKeeps(config: Config, actions: seq<Action>)
    requires CollisionFree(config.ids)
    requires Run(config, actions).Some?
    ensures WorldOk(config, Run(config, actions).value)
  {
    if actions != [] {
      RunKeeps(config, Front(actions));
      StepKeeps(config, Run(config, Front(actions)).value, Last(actions));
    }
  }
}
