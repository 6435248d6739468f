/** Workers over one stored checkpoint and one event log: every reload passes both of its checks. */
module LoggedRuns {
  import opened Prelude
  import opened Checkpoints
  import opened CheckpointValidator
  import opened Attempts
  import opened Workers
  import opened Schedules
  import opened RunEvents
  import opened CheckpointEvidence
  import opened EvidenceGrowth

  /** The world, the run's log, and how much of the log the stored checkpoint's `last_event_sequence` covers. */
  datatype Logged = Logged(world: World, log: seq<Event>, cut: nat)

  function Known(l: Logged): seq<Event>
  {
    if l.cut <= |l.log| then l.log[..l.cut] else l.log
  }

  function Tail(l: Logged): seq<Event>
  {
    if l.cut <= |l.log| then l.log[l.cut..] else []
  }

  /** A request or a result of this attempt. */
  predicate OfAttempt(e: Event, attempt: string)
  {
    (e.body.ToolRequested? || e.body.ToolResulted?) && e.body.attemptId == attempt
  }

  /** The gateway records each attempt's request once and its result once. */
  ghost predicate OncePerAttempt(log: seq<Event>)
  {
    forall x, y :: x in log && y in log && SameRecord(x, y) ==> x == y
  }

  /** Two requests, or two results, of one attempt. */
  predicate SameRecord(x: Event, y: Event)
  {
    || (x.body.ToolRequested? && y.body.ToolRequested? && x.body.attemptId == y.body.attemptId)
    || (x.body.ToolResulted? && y.body.ToolResulted? && x.body.attemptId == y.body.attemptId)
  }

  ghost predicate OnlyAttempt(events: seq<Event>, pending: seq<Pending>, ids: Identities)
  {
    forall e :: e in events ==> Unaccounted(e) || (pending != [] && OfAttempt(e, HeadAttempt(ids, pending)))
  }

  /** What the gateway reports as a turn is what it has recorded since the last checkpoint. */
  ghost predicate Reports(w: Witness, all: seq<Turn>, t: Turn, log: seq<Event>, events: seq<Event>,
                          request: Event, result: Event)
  {
    && t.Tool?
    && request in events && result in events
    && request.id == t.requestEvent && result.id == t.resultEvent
    && request.sequence < result.sequence
    && RequestMatches(w, all, t, request)
    && ResultMatches(w, t, result)
    && CausationOk(log, request, result, t)
  }

  function StoredTurns(world: World): seq<Turn>
  {
    Current(Stored(world)).trajectory
  }

  /** The events a transaction may append, up to the boundary it records. */
  ghost predicate MayAppend(config: Config, w: Witness, l: Logged, action: Action, world': World, block: seq<Event>)
  {
    var cp := Current(Stored(l.world));
    match action
    case Persist(_) =>
      var turns := StoredTurns(world');
      turns != [] && Last(turns).Assistant? && AgentBlock(w, config.scenario.budgets, cp, Last(turns), block)
    case Execute(v, _, _) =>
      WorkerAt(l.world, v).Checked? && OnlyAttempt(block, WorkerAt(l.world, v).base.pending, config.ids)
    case Recover(_, _, _) => GatewayBlock(config, w, l, world', block)
    case Dispatch(_, _, _) => GatewayBlock(config, w, l, world', block)
    case Store(_) => GatewayBlock(config, w, l, world', block)
    case _ => forall e :: e in block ==> Unaccounted(e)
  }

  ghost predicate GatewayBlock(config: Config, w: Witness, l: Logged, world': World, block: seq<Event>)
  {
    var turns := StoredTurns(world');
    && OnlyAttempt(block, Current(Stored(l.world)).pending, config.ids)
    && turns != []
    && exists request, result :: Reports(w, turns, Last(turns), l.log + block, Tail(l) + block, request, result)
  }

  /** One action with what it appends: `block` up to the boundary a checkpoint stored with it records, then
      events no turn accounts for. */
  ghost predicate Appends(config: Config, w: Witness, l: Logged, action: Action, l': Logged,
                          block: seq<Event>, after: seq<Event>)
  {
    && Step(config, l.world, action) == Some(l'.world)
    && l'.log == l.log + block + after
    && l'.cut == (if l'.world.history == l.world.history then l.cut else |l.log| + |block|)
    && Grows(Known(l), Tail(l) + block + after) && OncePerAttempt(l'.log)
    && (forall e :: e in after ==> Unaccounted(e))
    && MayAppend(config, w, l, action, l'.world, block)
  }

  ghost predicate LoggedStep(config: Config, w: Witness, l: Logged, action: Action, l': Logged)
  {
    exists block, after :: Appends(config, w, l, action, l', block, after)
  }

  ghost predicate Follows(config: Config, w: Witness, l: Logged, l': Logged)
  {
    exists action :: LoggedStep(config, w, l, action, l')
  }

  // ----- What every step keeps -----

  ghost predicate LogOk(config: Config, w: Witness, l: Logged)
  {
    var cp := Current(Stored(l.world));
    && l.cut <= |l.log|
    && Evidenced(w, config.scenario.budgets, cp.trajectory, Known(l))
    && OnlyAttempt(Tail(l), cp.pending, config.ids)
  }

  lemma Parts(l: Logged, block: seq<Event>, after: seq<Event>)
    requires l.cut <= |l.log|
    ensures Known(l) + Tail(l) == l.log
    ensures Known(l) + (Tail(l) + block) == l.log + block
    ensures Known(l) + (Tail(l) + block + after) == l.log + block + after
  {
  }

  lemma GrowsLess(log: seq<Event>, block: seq<Event>, after: seq<Event>)
    requires Grows(log, block + after)
    ensures Grows(log, block)
  {
    var all := log + (block + after);
    assert forall i :: 0 <= i < |log + block| ==> (log + block)[i] == all[i];
    assert forall i :: 0 <= i < |block| ==> block[i] == (block + after)[i];
  }

  // ----- A tool attempt is stored -----

  lemma ResultStored(config: Config, world: World, v: nat, base: Checkpoint, result: ToolResult, duration: nat, next: Worker)
    requires base.pending != [] && StoreResult(config, world, v, base, result, duration, next).Some?
    ensures var world' := StoreResult(config, world, v, base, result, duration, next).value;
            && |world'.history| == |world.history| + 1
            && StoredTurns(world') == base.trajectory + [ToolTurn(config.ids, base.pending[0], result, duration)]
  {
  }

  ghost predicate AddsAttempt(config: Config, world: World, world': World, result: ToolResult, duration: nat)
  {
    var cp := Current(Stored(world));
    && cp.pending != [] && |world'.history| == |world.history| + 1
    && StoredTurns(world') == cp.trajectory + [ToolTurn(config.ids, cp.pending[0], result, duration)]
  }

  lemma AttemptStored(config: Config, world: World, action: Action) returns (result: ToolResult, duration: nat)
    requires Linear(world.history) && RestOk(config, world) && Step(config, world, action).Some?
    requires action.Recover? || action.Dispatch? || action.Store?
    ensures AddsAttempt(config, world, Step(config, world, action).value, result, duration)
  {
    match action
    case Recover(v, r, d) =>
      result, duration := r, d;
      var base := Last(world.history);
      var cp := AfterTool(config.ids, base, r, d);
      ResultStored(config, StartRunning(world), v, base, r, d, Loaded(cp, Running));
    case Dispatch(v, r, d) =>
      result, duration := r, d;
      FreshIsStored(world, WorkerAt(world, v).snapshot);
      ResultStored(config, world, v, WorkerAt(world, v).snapshot.value, r, d, Idle);
    case Store(v) =>
      var worker := WorkerAt(world, v);
      result, duration := worker.result, worker.duration;
      FreshIsStored(world, Some(worker.base));
      ResultStored(config, world, v, worker.base, result, duration, Idle);
  }

  /** What bears the attempt's identity is its one request and its one result. */
  lemma OnlyReported(w: Witness, all: seq<Turn>, t: Turn, log: seq<Event>, events: seq<Event>, pending: seq<Pending>,
                     ids: Identities, request: Event, result: Event)
    requires Reports(w, all, t, log, events, request, result) && OnlyAttempt(events, pending, ids)
    requires pending != [] && t.attemptId == HeadAttempt(ids, pending)
    requires OncePerAttempt(log) && forall e :: e in events ==> e in log
    ensures forall e :: e in events && e != request && e != result ==> Unaccounted(e)
  {
    assert request in log && result in log;
  }

  lemma MayStore(config: Config, w: Witness, l: Logged, action: Action, l': Logged, block: seq<Event>, after: seq<Event>)
    requires Appends(config, w, l, action, l', block, after) && |l'.world.history| == |l.world.history| + 1
    requires action.Recover? || action.Dispatch? || action.Store?
    ensures GatewayBlock(config, w, l, l'.world, block) && l'.cut == |l.log| + |block|
  {
  }

  lemma AttemptIsLogged(config: Config, w: Witness, l: Logged, action: Action, l': Logged, block: seq<Event>, after: seq<Event>)
    requires Linear(l.world.history) && RestOk(config, l.world) && LogOk(config, w, l)
    requires Appends(config, w, l, action, l', block, after)
    requires action.Recover? || action.Dispatch? || action.Store?
    ensures LogOk(config, w, l')
  {
    var result, duration := AttemptStored(config, l.world, action);
    MayStore(config, w, l, action, l', block, after);
    GatewayIsLogged(config, w, l, l', block, after, result, duration);
  }

  lemma GatewayIsLogged(config: Config, w: Witness, l: Logged, l': Logged, block: seq<Event>, after: seq<Event>,
                        r: ToolResult, duration: nat)
    requires LogOk(config, w, l) && AddsAttempt(config, l.world, l'.world, r, duration)
    requires l'.log == l.log + block + after && l'.cut == |l.log| + |block|
    requires Grows(Known(l), Tail(l) + block + after) && OncePerAttempt(l'.log)
    requires (forall e :: e in after ==> Unaccounted(e)) && GatewayBlock(config, w, l, l'.world, block)
    ensures LogOk(config, w, l')
  {
    var cp, turns, tail := Current(Stored(l.world)), StoredTurns(l'.world), Tail(l) + block;
    var t := Last(turns);
    assert turns == cp.trajectory + [t];
    var request, result :| Reports(w, turns, t, l.log + block, tail, request, result);
    Parts(l, block, after);
    GrowsLess(Known(l), tail, after);
    OnceBefore(l.log + block, after);
    OnlyReported(w, turns, t, l.log + block, tail, cp.pending, config.ids, request, result);
    ToolTurnIsEvidenced(w, config.scenario.budgets, cp.trajectory, t, Known(l), tail, request, result);
    assert Known(l') == l.log + block && Tail(l') == after;
  }

  lemma OnceBefore(log: seq<Event>, after: seq<Event>)
    requires OncePerAttempt(log + after)
    ensures OncePerAttempt(log)
  {
    assert forall e :: e in log ==> e in log + after;
  }

  // ----- An agent step is stored -----

  lemma StepStored(config: Config, world: World, v: nat) returns (t: Turn)
    requires Linear(world.history) && RestOk(config, world) && Step(config, world, Persist(v)).Some?
    ensures var world', cp := Step(config, world, Persist(v)).value, Current(Stored(world));
            && cp.pending == [] && |world'.history| == |world.history| + 1
            && StoredTurns(world') == cp.trajectory + [t] && t.Assistant? && t.stepNumber == cp.nextStep
  {
    var worker := WorkerAt(world, v);
    FreshIsStored(world, worker.snapshot);
    t := AssistantTurn(config.ids, Current(worker.snapshot).nextStep, worker.output, worker.elapsed);
  }

  lemma MayPersist(config: Config, w: Witness, l: Logged, v: nat, l': Logged, block: seq<Event>, after: seq<Event>, t: Turn)
    requires Appends(config, w, l, Persist(v), l', block, after) && |l'.world.history| == |l.world.history| + 1
    requires t.Assistant? && StoredTurns(l'.world) == StoredTurns(l.world) + [t]
    ensures AgentBlock(w, config.scenario.budgets, Current(Stored(l.world)), t, block) && l'.cut == |l.log| + |block|
  {
  }

  lemma StepIsLogged(config: Config, w: Witness, l: Logged, v: nat, l': Logged, block: seq<Event>, after: seq<Event>)
    requires WorldOk(config, l.world) && LogOk(config, w, l)
    requires Appends(config, w, l, Persist(v), l', block, after)
    ensures LogOk(config, w, l')
  {
    var t := StepStored(config, l.world, v);
    MayPersist(config, w, l, v, l', block, after, t);
    StoredReplays(config, l.world);
    AgentIsLogged(config, w, l, l', block, after, t);
  }

  lemma StoredReplays(config: Config, world: World)
    requires EntriesOk(config, world.history)
    ensures Replays(config.ids, config.scenario, Current(Stored(world)))
  {
    if world.history != [] {
      EntryAccepted(config, world.history, |world.history| - 1);
    }
  }

  lemma AgentBlockLater(w: Witness, b: Budgets, cp: Checkpoint, t: Turn, earlier: seq<Event>, block: seq<Event>)
    requires t.Assistant? && AgentBlock(w, b, cp, t, block) && forall e :: e in earlier ==> Unaccounted(e)
    ensures AgentBlock(w, b, cp, t, earlier + block)
  {
    assert Front(earlier + block) == earlier + Front(block) && Last(earlier + block) == Last(block);
  }

  lemma AgentIsLogged(config: Config, w: Witness, l: Logged, l': Logged, block: seq<Event>, after: seq<Event>, t: Turn)
    requires LogOk(config, w, l) && t.Assistant?
    requires var cp := Current(Stored(l.world));
             && Replays(config.ids, config.scenario, cp) && cp.pending == [] && t.stepNumber == cp.nextStep
             && StoredTurns(l'.world) == cp.trajectory + [t]
             && AgentBlock(w, config.scenario.budgets, cp, t, block)
    requires l'.log == l.log + block + after && l'.cut == |l.log| + |block|
    requires Grows(Known(l), Tail(l) + block + after) && forall e :: e in after ==> Unaccounted(e)
    ensures LogOk(config, w, l')
  {
    var cp, tail := Current(Stored(l.world)), Tail(l) + block;
    Parts(l, block, after);
    GrowsLess(Known(l), tail, after);
    AgentBlockLater(w, config.scenario.budgets, cp, t, Tail(l), block);
    AgentTurnIsEvidenced(w, config.ids, config.scenario, cp, t, Known(l), tail);
    assert Known(l') == l.log + block && Tail(l') == after;
  }

  // ----- Nothing is stored -----

  lemma NothingIsLogged(config: Config, w: Witness, l: Logged, l': Logged, block: seq<Event>)
    requires LogOk(config, w, l) && l'.world.history == l.world.history
    requires l'.log == l.log + block && l'.cut == l.cut
    requires OnlyAttempt(block, Current(Stored(l.world)).pending, config.ids)
    ensures LogOk(config, w, l')
  {
    Slices(l.log, block, l.cut);
    TailOnlyGrows(Tail(l), block, Current(Stored(l.world)).pending, config.ids);
  }

  lemma Slices(log: seq<Event>, block: seq<Event>, cut: nat)
    requires cut <= |log|
    ensures (log + block)[..cut] == log[..cut] && (log + block)[cut..] == log[cut..] + block
  {
  }

  lemma TailOnlyGrows(tail: seq<Event>, block: seq<Event>, pending: seq<Pending>, ids: Identities)
    requires OnlyAttempt(tail, pending, ids) && OnlyAttempt(block, pending, ids)
    ensures OnlyAttempt(tail + block, pending, ids)
  {
  }

  /** The request and the result of every recorded attempt are in the log. */
  lemma {:induction false} RecordedIsLogged(w: Witness, b: Budgets, log: seq<Event>, all: seq<Turn>, turns: seq<Turn>, i: nat)
    requires CheckTurns(w, b, log, all, turns).Some? && i < |turns| && turns[i].Tool?
    ensures exists x :: x in log && x.body.ToolRequested? && x.body.attemptId == turns[i].attemptId
    ensures exists x :: x in log && x.body.ToolResulted? && x.body.attemptId == turns[i].attemptId
  {
    if i == |turns| - 1 {
      FindFacts(log, turns[i].requestEvent);
      FindFacts(log, turns[i].resultEvent);
      assert Find(log, turns[i].requestEvent).value in log && Find(log, turns[i].resultEvent).value in log;
    } else {
      RecordedIsLogged(w, b, log, all, Front(turns), i);
    }
  }

  lemma NextIsHeadAttempt(config: Config, a: Checkpoint, b: Checkpoint)
    requires Folds(config, a) && Folds(config, b) && a.pending != []
    requires a.trajectory <= b.trajectory && |b.trajectory| == |a.trajectory| + 1
    ensures Last(b.trajectory).Tool? && Last(b.trajectory).attemptId == HeadAttempt(config.ids, a.pending)
  {
    var t := Last(b.trajectory);
    assert b.trajectory == a.trajectory + [t];
    FoldSnoc(config.ids, config.scenario, Some(Start), a.trajectory, t);
  }

  /** The attempt of a checkpoint that has been succeeded is recorded. */
  lemma StaleIsRecorded(config: Config, history: seq<Checkpoint>, i: nat)
    requires Linear(history) && AllFold(config, history) && i < |history| - 1 && history[i].pending != []
    ensures i + 1 < |Last(history).trajectory|
    ensures var t := Last(history).trajectory[i + 1]; t.Tool? && t.attemptId == HeadAttempt(config.ids, history[i].pending)
  {
    TrajectoriesNest(history, i, i + 1);
    NextIsHeadAttempt(config, history[i], history[i + 1]);
    TrajectoriesNest(history, i + 1, |history| - 1);
    assert Last(history).trajectory[i + 1] == Last(history[i + 1].trajectory);
  }

  /** So a worker that executes from such a checkpoint makes the gateway record nothing new. */
  lemma StaleRecordsNothing(log: seq<Event>, block: seq<Event>, attempt: string)
    requires UniqueIds(log + block) && OncePerAttempt(log + block)
    requires exists x :: x in log && x.body.ToolRequested? && x.body.attemptId == attempt
    requires exists x :: x in log && x.body.ToolResulted? && x.body.attemptId == attempt
    ensures forall e :: e in block ==> !OfAttempt(e, attempt)
  {
    var x :| x in log && x.body.ToolRequested? && x.body.attemptId == attempt;
    var y :| y in log && y.body.ToolResulted? && y.body.attemptId == attempt;
    forall e | e in block
      ensures !OfAttempt(e, attempt)
    {
      NewIsNotOld(log, block, x, e);
      NewIsNotOld(log, block, y, e);
      assert x in log + block && y in log + block && e in log + block;
    }
  }

  lemma ExecutedOnce(config: Config, w: Witness, history: seq<Checkpoint>, i: nat, known: seq<Event>, log: seq<Event>,
                     block: seq<Event>)
    requires Linear(history) && AllFold(config, history) && i < |history| && history[i].pending != []
    requires CheckTurns(w, config.scenario.budgets, known, Last(history).trajectory, Last(history).trajectory).Some?
    requires (forall x :: x in known ==> x in log) && UniqueIds(log + block) && OncePerAttempt(log + block)
    requires OnlyAttempt(block, history[i].pending, config.ids)
    ensures OnlyAttempt(block, Last(history).pending, config.ids)
  {
    if i < |history| - 1 {
      var turns := Last(history).trajectory;
      StaleIsRecorded(config, history, i);
      RecordedIsLogged(w, config.scenario.budgets, known, turns, turns, i + 1);
      StaleRecordsNothing(log, block, turns[i + 1].attemptId);
    }
  }

  lemma ExecutedFrom(config: Config, world: World, v: nat, result: ToolResult, duration: nat) returns (i: nat)
    requires RestOk(config, world) && Step(config, world, Execute(v, result, duration)).Some?
    ensures i < |world.history| && world.history[i] == WorkerAt(world, v).base && world.history[i].pending != []
    ensures Step(config, world, Execute(v, result, duration)).value.history == world.history
  {
    i := WorkerAt(world, v).base.version - 1;
  }

  lemma AppendsOne(l: Logged, l': Logged, block: seq<Event>, after: seq<Event>)
    requires l.cut <= |l.log| && l'.log == l.log + block + after && Grows(Known(l), Tail(l) + block + after)
    ensures l'.log == l.log + (block + after) && UniqueIds(l'.log)
  {
    Parts(l, block, after);
  }

  lemma OnlyConcat(block: seq<Event>, after: seq<Event>, pending: seq<Pending>, ids: Identities)
    requires OnlyAttempt(block, pending, ids) && forall e :: e in after ==> Unaccounted(e)
    ensures OnlyAttempt(block + after, pending, ids)
  {
  }

  // ----- Every run -----

  ghost predicate LoggedOk(config: Config, w: Witness, l: Logged)
  {
    WorldOk(config, l.world) && LogOk(config, w, l)
  }

  lemma MayExecute(config: Config, w: Witness, l: Logged, action: Action, l': Logged, block: seq<Event>, after: seq<Event>)
    requires l.cut <= |l.log| && action.Execute? && Appends(config, w, l, action, l', block, after)
    ensures WorkerAt(l.world, action.w).Checked?
    ensures OnlyAttempt(block + after, WorkerAt(l.world, action.w).base.pending, config.ids)
    ensures UniqueIds(l.log + (block + after)) && OncePerAttempt(l.log + (block + after))
  {
    AppendsOne(l, l', block, after);
    OnlyConcat(block, after, WorkerAt(l.world, action.w).base.pending, config.ids);
  }

  /** Executing appends, besides what no turn accounts for, nothing but the request and the result in flight. */
  lemma ExecuteAppends(config: Config, w: Witness, l: Logged, action: Action, l': Logged, block: seq<Event>, after: seq<Event>)
    requires Linear(l.world.history) && AllFold(config, l.world.history) && RestOk(config, l.world)
    requires var turns := StoredTurns(l.world); CheckTurns(w, config.scenario.budgets, Known(l), turns, turns).Some?
    requires l.cut <= |l.log| && action.Execute? && Appends(config, w, l, action, l', block, after)
    ensures l'.world.history == l.world.history
    ensures OnlyAttempt(block + after, Current(Stored(l.world)).pending, config.ids)
  {
    var history := l.world.history;
    var i := ExecutedFrom(config, l.world, action.w, action.result, action.duration);
    MayExecute(config, w, l, action, l', block, after);
    ExecutedOnce(config, w, history, i, Known(l), l.log, block + after);
  }

  lemma ExecuteKeepsLog(config: Config, w: Witness, l: Logged, action: Action, l': Logged, block: seq<Event>, after: seq<Event>)
    requires WorldOk(config, l.world) && LogOk(config, w, l)
    requires Appends(config, w, l, action, l', block, after) && action.Execute?
    ensures LogOk(config, w, l')
  {
    EntriesFold(config, l.world.history);
    ExecuteAppends(config, w, l, action, l', block, after);
    AppendsOne(l, l', block, after);
    NothingIsLogged(config, w, l, l', block + after);
  }

  lemma QuietAppends(config: Config, w: Witness, l: Logged, action: Action, l': Logged, block: seq<Event>, after: seq<Event>)
    requires Linear(l.world.history) && RestOk(config, l.world)
    requires Appends(config, w, l, action, l', block, after) && Quiet(action)
    ensures l'.world.history == l.world.history
    ensures OnlyAttempt(block + after, Current(Stored(l.world)).pending, config.ids)
  {
    QuietKeeps(config, l.world, action);
    OnlyConcat(block, after, Current(Stored(l.world)).pending, config.ids);
  }

  lemma QuietKeepsLog(config: Config, w: Witness, l: Logged, action: Action, l': Logged, block: seq<Event>, after: seq<Event>)
    requires WorldOk(config, l.world) && LogOk(config, w, l)
    requires Appends(config, w, l, action, l', block, after) && Quiet(action)
    ensures LogOk(config, w, l')
  {
    QuietAppends(config, w, l, action, l', block, after);
    AppendsOne(l, l', block, after);
    NothingIsLogged(config, w, l, l', block + after);
  }

  lemma AppendsKeepsLog(config: Config, w: Witness, l: Logged, action: Action, l': Logged, block: seq<Event>, after: seq<Event>)
    requires WorldOk(config, l.world) && LogOk(config, w, l)
    requires Appends(config, w, l, action, l', block, after)
    ensures LogOk(config, w, l')
  {
    if action.Persist? {
      StepIsLogged(config, w, l, action.w, l', block, after);
    } else if action.Execute? {
      ExecuteKeepsLog(config, w, l, action, l', block, after);
    } else if Quiet(action) {
      QuietKeepsLog(config, w, l, action, l', block, after);
    } else {
      AttemptIsLogged(config, w, l, action, l', block, after);
    }
  }

  lemma LoggedStepKeeps(config: Config, w: Witness, l: Logged, action: Action, l': Logged)
    requires CollisionFree(config.ids) && LoggedOk(config, w, l) && LoggedStep(config, w, l, action, l')
    ensures LoggedOk(config, w, l')
  {
    var block, after :| Appends(config, w, l, action, l', block, after);
    StepKeeps(config, l.world, action);
    AppendsKeepsLog(config, w, l, action, l', block, after);
  }

  /** A run: from no checkpoint and a log without any step, action after action. */
  ghost predicate IsRun(config: Config, w: Witness, run: seq<Logged>)
  {
    && run != []
    && run[0].world == Initial && run[0].cut == 0 && (forall e :: e in run[0].log ==> Unaccounted(e))
    && forall i :: 0 <= i < |run| - 1 ==> Follows(config, w, run[i], run[i + 1])
  }

  lemma EveryRunKeeps(config: Config, w: Witness, run: seq<Logged>)
    requires CollisionFree(config.ids) && IsRun(config, w, run)
    ensures LoggedOk(config, w, Last(run))
  {
    var good := (l: Logged) => LoggedOk(config, w, l);
    var step := (l: Logged, l': Logged) => Follows(config, w, l, l');
    NothingIsEvidenced(w, config.scenario.budgets, []);
    forall l, l' | good(l) && step(l, l')
      ensures good(l')
    {
      var action :| LoggedStep(config, w, l, action, l');
      LoggedStepKeeps(config, w, l, action, l');
    }
    ChainKeeps(good, step, run);
  }

  // ----- Both checks of a reload -----

  /** The events the reload's evidence check looks at: those up to the stored `last_event_sequence`. */
  function Covered(l: Logged): seq<Event>
  {
    if Known(l) == [] then [] else Select(l.log, UpTo(Last(Known(l)).sequence))
  }

  function UpTo(sequence: nat): Event -> bool
  {
    (e: Event) => e.sequence <= sequence
  }

  lemma CoveredIsKnown(l: Logged)
    requires l.cut <= |l.log| && InOrder(l.log)
    ensures Covered(l) == Known(l)
  {
    if Known(l) != [] {
      var keep := UpTo(Last(Known(l)).sequence);
      Parts(l, [], []);
      SelectConcat(Known(l), Tail(l), keep);
      SelectAll(Known(l), keep);
      SelectNone(Tail(l), keep);
    }
  }

  /** Whatever the interleaving of workers, crashes, waits and lifecycle changes, and whatever the log has
      gained since the checkpoint was stored, every reload, recovering a committed attempt or not, passes the
      reload check and the evidence check; and what the log holds past the checkpoint's boundary is no agent
      step, and no request or result but those of the attempt in flight. */
  lemma EveryReloadPassesBothChecks(config: Config, w: Witness, run: seq<Logged>, reload: Action, l: Logged)
    requires CollisionFree(config.ids) && IsRun(config, w, run)
    requires LoggedStep(config, w, Last(run), reload, l) && (reload.Load? || reload.Recover?)
    ensures ReloadOk(config, l.world, reload.w)
    ensures EvidenceOk(w, config.scenario.budgets, StoredTurns(l.world), Covered(l))
    ensures OnlyAttempt(Tail(l), Current(Stored(l.world)).pending, config.ids)
  {
    EveryRunKeeps(config, w, run);
    LoggedStepKeeps(config, w, Last(run), reload, l);
    StepReload(config, w, Last(run), reload, l);
    CoveredIsKnown(l);
  }

  lemma StepReload(config: Config, w: Witness, l: Logged, reload: Action, l': Logged)
    requires l.cut <= |l.log| && LoggedStep(config, w, l, reload, l') && (reload.Load? || reload.Recover?)
    requires WorldOk(config, l'.world)
    ensures ReloadOk(config, l'.world, reload.w) && InOrder(l'.log)
  {
    var block, after :| Appends(config, w, l, reload, l', block, after);
    Parts(l, block, after);
    ReloadIsAccepted(config, l.world, reload);
  }
}
