/** The writers and the reload check agree: what the writers store is accepted, and what is
    accepted is determined by its trajectory. */
module CheckpointSoundness {
  import opened Prelude
  import opened Checkpoints
  import opened CheckpointValidator

  // ----- What every stored checkpoint keeps, beyond what the reload check looks at -----

  /** The whole unprocessed suffix is as the writer issued it, not only its head. */
  ghost predicate SuffixIssued(ids: Identities, scenario: Scenario, p: Progress)
  {
    && (p.pending != [] ==> p.nextStep >= 2)
    && forall i :: 0 <= i < |p.pending| ==>
         && p.pending[i].stepId == ids.step(p.nextStep - 1)
         && p.pending[i].call.callIndex == p.headIndex + i
         && p.pending[i].call.logicalId == ids.logical(p.pending[i].stepId, p.headIndex + i, p.pending[i].call.callId)
         && scenario.authorized(p.pending[i].call.toolId, p.pending[i].call.version, p.pending[i].call.arguments)
         && (i > 0 ==> p.pending[i].approvalId == None)
  }

  ghost predicate Named(ids: Identities, id: string, step: nat, index: nat)
  {
    exists c :: id == ids.logical(ids.step(step), index, c)
  }

  /** Every call seen so far was issued by an earlier step, or by this step at or below `bound`. */
  ghost predicate SeenBelow(ids: Identities, p: Progress, bound: int)
  {
    forall id :: id in p.seen ==>
      exists n: nat, i: nat :: Named(ids, id, n, i) && (n + 1 < p.nextStep || (n + 1 == p.nextStep && i <= bound))
  }

  ghost predicate Issued(ids: Identities, scenario: Scenario, turns: seq<Turn>)
  {
    var q := Fold(ids, scenario, turns);
    q.Some? && SuffixIssued(ids, scenario, q.value) && SeenBelow(ids, q.value, q.value.headIndex)
  }

  /** The invariant of a stored checkpoint. */
  ghost predicate Sound(ids: Identities, scenario: Scenario, cp: Checkpoint, run: RunStatus)
  {
    Accepted(ids, scenario, cp, run) && Issued(ids, scenario, cp.trajectory)
  }

  lemma BlankSound(ids: Identities, scenario: Scenario, run: RunStatus)
    requires run != Evaluating
    ensures Sound(ids, scenario, Blank, run)
  {
  }

  /** The head of an issued suffix is named by its own step and place only. */
  lemma HeadNamedOnce(ids: Identities, scenario: Scenario, p: Progress)
    requires CollisionFree(ids) && SuffixIssued(ids, scenario, p) && p.pending != []
    ensures forall n: nat, i: nat :: Named(ids, p.pending[0].call.logicalId, n, i) ==> n == p.nextStep - 1 && i == p.headIndex
  {
    forall n: nat, i: nat | Named(ids, p.pending[0].call.logicalId, n, i)
      ensures n == p.nextStep - 1 && i == p.headIndex
    {
      var c :| p.pending[0].call.logicalId == ids.logical(ids.step(n), i, c);
    }
  }

  /** An issued suffix always exposes its next head: no identity is ever seen twice. */
  lemma ExposeSucceeds(ids: Identities, scenario: Scenario, p: Progress)
    requires CollisionFree(ids)
    requires SuffixIssued(ids, scenario, p) && SeenBelow(ids, p, p.headIndex - 1)
    ensures var q := Expose(ids, scenario, p);
            q.Some? && SuffixIssued(ids, scenario, q.value) && SeenBelow(ids, q.value, p.headIndex)
  {
    if p.pending != [] {
      var head := p.pending[0];
      HeadNamedOnce(ids, scenario, p);
      assert head.call.logicalId !in p.seen;
      var q := p.(seen := p.seen + {head.call.logicalId});
      forall id | id in q.seen
        ensures exists n: nat, i: nat :: Named(ids, id, n, i) && (n + 1 < q.nextStep || (n + 1 == q.nextStep && i <= p.headIndex))
      {
        if id in p.seen {
          var n: nat, i: nat :| Named(ids, id, n, i) && (n + 1 < p.nextStep || (n + 1 == p.nextStep && i <= p.headIndex - 1));
          assert Named(ids, id, n, i);
        } else {
          assert Named(ids, id, (p.nextStep - 1) as nat, p.headIndex);
        }
      }
    }
  }

  lemma {:induction false} FoldFacts(ids: Identities, scenario: Scenario, turns: seq<Turn>)
    requires Fold(ids, scenario, turns).Some?
    ensures var p := Fold(ids, scenario, turns).value;
            && p.nextStep == AssistantTurns(turns) + 1
            && p.finished == FinalIntent(turns)
            && (p.finished ==> p.pending == [])
  {
    if turns != [] {
      FoldFacts(ids, scenario, Front(turns));
    }
  }

  lemma PostErrorIsPreError(b: Budgets, cp: Checkpoint)
    ensures PostStepBudgetError(b, cp).Some? ==> PreStepBudgetError(b, cp).Some?
  {
  }

  // ----- The two writers keep it -----

  /** Why an agent step may be recorded: the budget check has passed, so the run is not final. */
  lemma OutputStepFolds(ids: Identities, scenario: Scenario, cp: Checkpoint, output: Output, elapsed: nat)
    requires CollisionFree(ids) && ValidOutput(scenario, output)
    requires Sound(ids, scenario, cp, Running) && cp.pending == []
    requires PreStepBudgetError(scenario.budgets, cp) == None
    ensures var turn := AssistantTurn(ids, cp.nextStep, output, elapsed);
            && Issued(ids, scenario, cp.trajectory + [turn])
            && Fold(ids, scenario, cp.trajectory + [turn]).value.pending == FreshPending(turn.stepId, turn.calls)
  {
    var turn := AssistantTurn(ids, cp.nextStep, output, elapsed);
    var p := Fold(ids, scenario, cp.trajectory).value;
    FoldFacts(ids, scenario, cp.trajectory);
    PostErrorIsPreError(scenario.budgets, cp);
    assert AssistantFits(ids, p, turn);
    FoldSnoc(ids, scenario, Some(Start), cp.trajectory, turn);
    var q := Begun(p, turn);
    forall id | id in q.seen
      ensures exists n: nat, i: nat :: Named(ids, id, n, i) && (n + 1 < q.nextStep || (n + 1 == q.nextStep && i <= q.headIndex - 1))
    {
      var n: nat, i: nat :| Named(ids, id, n, i) && (n + 1 < p.nextStep || (n + 1 == p.nextStep && i <= p.headIndex));
      assert Named(ids, id, n, i);
    }
    ExposeSucceeds(ids, scenario, q);
  }

  lemma OutputStatus(ids: Identities, scenario: Scenario, cp: Checkpoint, output: Output, elapsed: nat)
    requires output.final ==> output.calls == []
    requires AfterOutput(ids, scenario.budgets, cp, output, elapsed).Some?
    ensures var cp' := AfterOutput(ids, scenario.budgets, cp, output, elapsed).value;
            && cp'.finalAnswer == FinalAnswer(cp'.trajectory)
            && StatusOk(scenario.budgets, cp', if cp'.status == Final then Evaluating else Running)
  {
    var turn := AssistantTurn(ids, cp.nextStep, output, elapsed);
    assert LastAssistant(cp.trajectory + [turn]) == Some(turn) by {
      AccumulatorsSnoc(cp.trajectory, turn);
    }
  }

  lemma OutputChanges(ids: Identities, b: Budgets, cp: Checkpoint, output: Output, elapsed: nat)
    requires AfterOutput(ids, b, cp, output, elapsed).Some?
    ensures var cp', turn := AfterOutput(ids, b, cp, output, elapsed).value, AssistantTurn(ids, cp.nextStep, output, elapsed);
            && cp'.trajectory == cp.trajectory + [turn] && cp'.pending == FreshPending(turn.stepId, turn.calls)
            && cp'.nextStep == cp.nextStep + 1 && cp'.toolAttempts == cp.toolAttempts
            && cp'.wallMs == cp.wallMs + turn.durationMs <= SAFE_INTEGER && cp'.knownCost <= SAFE_INTEGER
            && cp'.knownCost == cp.knownCost + (if turn.usage.cost.Some? then turn.usage.cost.value else 0)
            && cp'.costComplete == (cp.costComplete && turn.usage.cost.Some?)
  {
  }

  lemma ReplaysAfterOutput(ids: Identities, scenario: Scenario, cp: Checkpoint, output: Output, elapsed: nat)
    requires Replays(ids, scenario, cp) && PreStepBudgetError(scenario.budgets, cp) == None
    requires AfterOutput(ids, scenario.budgets, cp, output, elapsed).Some?
    requires var turn := AssistantTurn(ids, cp.nextStep, output, elapsed);
             && Fold(ids, scenario, cp.trajectory + [turn]).Some?
             && Fold(ids, scenario, cp.trajectory + [turn]).value.pending == FreshPending(turn.stepId, turn.calls)
    ensures Replays(ids, scenario, AfterOutput(ids, scenario.budgets, cp, output, elapsed).value)
  {
    OutputChanges(ids, scenario.budgets, cp, output, elapsed);
    AccumulatorsSnoc(cp.trajectory, AssistantTurn(ids, cp.nextStep, output, elapsed));
  }

  /** Recording an agent step keeps the invariant, in the run status the same transaction leaves. */
  lemma OutputStepSound(ids: Identities, scenario: Scenario, cp: Checkpoint, output: Output, elapsed: nat)
    requires CollisionFree(ids) && ValidOutput(scenario, output)
    requires Sound(ids, scenario, cp, Running) && cp.pending == []
    requires PreStepBudgetError(scenario.budgets, cp) == None
    requires AfterOutput(ids, scenario.budgets, cp, output, elapsed).Some?
    ensures var cp' := AfterOutput(ids, scenario.budgets, cp, output, elapsed).value;
            Sound(ids, scenario, cp', if cp'.status == Final then Evaluating else Running)
  {
    OutputStepFolds(ids, scenario, cp, output, elapsed);
    ReplaysAfterOutput(ids, scenario, cp, output, elapsed);
    OutputStatus(ids, scenario, cp, output, elapsed);
  }

  lemma WaitedIssued(ids: Identities, scenario: Scenario, p: Progress, t: Turn)
    requires SuffixIssued(ids, scenario, p) && p.pending != [] && t.Tool?
    ensures SuffixIssued(ids, scenario, Waited(p, t))
  {
    var q := Waited(p, t);
    assert forall i :: 1 <= i < |q.pending| ==> q.pending[i] == p.pending[i];
  }

  lemma ResolvedIssued(ids: Identities, scenario: Scenario, p: Progress)
    requires SuffixIssued(ids, scenario, p) && p.pending != []
    ensures SuffixIssued(ids, scenario, Resolved(p))
  {
    var q := Resolved(p);
    assert forall i :: 0 <= i < |q.pending| ==> q.pending[i] == p.pending[i + 1];
  }

  lemma ToolStepFolds(ids: Identities, scenario: Scenario, turns: seq<Turn>, p: Progress,
                      result: ToolResult, elapsed: nat)
    requires CollisionFree(ids) && Issued(ids, scenario, turns)
    requires Fold(ids, scenario, turns) == Some(p) && p.pending != []
    requires Faithful(result, p.pending[0])
    ensures var turn := ToolTurn(ids, p.pending[0], result, elapsed);
            && Issued(ids, scenario, turns + [turn])
            && Fold(ids, scenario, turns + [turn]).value.pending ==
               (if IsWait(result.error) then Waited(p, turn).pending else p.pending[1..])
  {
    var turn := ToolTurn(ids, p.pending[0], result, elapsed);
    FoldSnoc(ids, scenario, Some(Start), turns, turn);
    assert ToolFits(ids, p, turn);
    if IsWait(turn.error) {
      WaitedIssued(ids, scenario, p, turn);
    } else {
      ResolvedIssued(ids, scenario, p);
      ExposeSucceeds(ids, scenario, Resolved(p));
    }
  }

  lemma ToolStatus(ids: Identities, scenario: Scenario, cp: Checkpoint, p: Progress,
                   result: ToolResult, elapsed: nat)
    requires SuffixIssued(ids, scenario, p) && p.pending == cp.pending != []
    requires !FinalIntent(cp.trajectory) && Faithful(result, cp.pending[0])
    requires AfterTool(ids, cp, result, elapsed).Some?
    ensures StatusOk(scenario.budgets, AfterTool(ids, cp, result, elapsed).value, Running)
  {
    AccumulatorsSnoc(cp.trajectory, ToolTurn(ids, cp.pending[0], result, elapsed));
    if |cp.pending| > 1 {
      assert cp.pending[1..][0] == cp.pending[1];
    }
  }

  lemma AcceptedAfterTool(ids: Identities, scenario: Scenario, cp: Checkpoint, result: ToolResult, elapsed: nat)
    requires Accepted(ids, scenario, cp, Running) && cp.pending != []
    requires cp.toolAttempts < scenario.budgets.maxToolCalls
    requires AfterTool(ids, cp, result, elapsed).Some?
    requires var cp' := AfterTool(ids, cp, result, elapsed).value;
             && Fold(ids, scenario, cp'.trajectory).Some?
             && Fold(ids, scenario, cp'.trajectory).value.pending == cp'.pending
             && StatusOk(scenario.budgets, cp', Running)
    ensures Accepted(ids, scenario, AfterTool(ids, cp, result, elapsed).value, Running)
  {
    AccumulatorsSnoc(cp.trajectory, ToolTurn(ids, cp.pending[0], result, elapsed));
  }

  lemma AttemptChanges(ids: Identities, cp: Checkpoint, p: Progress, result: ToolResult, elapsed: nat)
    requires cp.pending == p.pending != [] && AfterTool(ids, cp, result, elapsed).Some?
    ensures var cp', turn := AfterTool(ids, cp, result, elapsed).value, ToolTurn(ids, p.pending[0], result, elapsed);
            && cp'.trajectory == cp.trajectory + [turn]
            && cp'.pending == if IsWait(result.error) then Waited(p, turn).pending else p.pending[1..]
  {
  }

  lemma ToolStepKeepsIssued(ids: Identities, scenario: Scenario, cp: Checkpoint, result: ToolResult, elapsed: nat)
    requires CollisionFree(ids) && Issued(ids, scenario, cp.trajectory)
    requires cp.pending == Fold(ids, scenario, cp.trajectory).value.pending != []
    requires Faithful(result, cp.pending[0])
    requires AfterTool(ids, cp, result, elapsed).Some?
    ensures var cp' := AfterTool(ids, cp, result, elapsed).value;
            && Issued(ids, scenario, cp'.trajectory)
            && Fold(ids, scenario, cp'.trajectory).value.pending == cp'.pending
  {
    var p := Fold(ids, scenario, cp.trajectory).value;
    AttemptChanges(ids, cp, p, result, elapsed);
    ToolStepFolds(ids, scenario, cp.trajectory, p, result, elapsed);
  }

  lemma ToolStepStatus(ids: Identities, scenario: Scenario, cp: Checkpoint, result: ToolResult, elapsed: nat)
    requires Issued(ids, scenario, cp.trajectory)
    requires cp.pending == Fold(ids, scenario, cp.trajectory).value.pending != []
    requires Faithful(result, cp.pending[0])
    requires AfterTool(ids, cp, result, elapsed).Some?
    ensures StatusOk(scenario.budgets, AfterTool(ids, cp, result, elapsed).value, Running)
  {
    FoldFacts(ids, scenario, cp.trajectory);
    ToolStatus(ids, scenario, cp, Fold(ids, scenario, cp.trajectory).value, result, elapsed);
  }

  /** Recording a tool attempt keeps the invariant: a result, a repeated approval wait, a recovery. */
  lemma ToolStepSound(ids: Identities, scenario: Scenario, cp: Checkpoint, result: ToolResult, elapsed: nat)
    requires CollisionFree(ids)
    requires Sound(ids, scenario, cp, Running) && cp.pending != []
    requires cp.toolAttempts < scenario.budgets.maxToolCalls
    requires Faithful(result, cp.pending[0])
    requires AfterTool(ids, cp, result, elapsed).Some?
    ensures Sound(ids, scenario, AfterTool(ids, cp, result, elapsed).value, Running)
  {
    ToolStepKeepsIssued(ids, scenario, cp, result, elapsed);
    ToolStepStatus(ids, scenario, cp, result, elapsed);
    AcceptedAfterTool(ids, scenario, cp, result, elapsed);
  }

  // ----- What acceptance determines -----

  /** The fields the writers maintain incrementally. */
  ghost predicate SameDerived(a: Checkpoint, b: Checkpoint)
  {
    && a.nextStep == b.nextStep && a.toolAttempts == b.toolAttempts
    && a.wallMs == b.wallMs && a.knownCost == b.knownCost && a.costComplete == b.costComplete
    && a.pending == b.pending && a.finalAnswer == b.finalAnswer && a.status == b.status
  }

  /** Two accepted checkpoints with one trajectory, in one run status, differ at most in version. */
  lemma AcceptedIsDetermined(ids: Identities, scenario: Scenario, a: Checkpoint, b: Checkpoint, run: RunStatus)
    requires Accepted(ids, scenario, a, run) && Accepted(ids, scenario, b, run)
    requires a.trajectory == b.trajectory
    ensures SameDerived(a, b)
  {
  }

  /** Acceptance does not depend on the run status, except that Final goes with Evaluating. */
  lemma AcceptedInStatus(ids: Identities, scenario: Scenario, cp: Checkpoint, run: RunStatus, run': RunStatus)
    requires Accepted(ids, scenario, cp, run)
    ensures Accepted(ids, scenario, cp, run') <==> (run == Evaluating <==> run' == Evaluating)
  {
  }

  /** The check is lazy: it looks at a pending call once that call is the head. With two calls
      pending, a checkpoint whose second call carries any index and identity is accepted. */
  lemma TailIsCheckedLater(ids: Identities, scenario: Scenario, head: Call, tail: Call)
    requires scenario.budgets == Budgets(1, 1, 1, 1)
    requires head.callIndex == 1 && head.logicalId == ids.logical(ids.step(1), 1, head.callId)
    requires scenario.authorized(head.toolId, head.version, head.arguments)
    ensures exists cp :: Accepted(ids, scenario, cp, Running) && |cp.pending| == 2 && cp.pending[1].call == tail
  {
    var turn := Assistant(ids.step(1), 1, "", false, 0, [head, tail], Usage(None, None, Some(0)));
    var cp := Checkpoint(1, 2, 0, 0, 0, true, Active, [turn], FreshPending(turn.stepId, turn.calls), None);
    AccumulatorsSnoc([], turn);
    FoldSnoc(ids, scenario, Some(Start), [], turn);
    assert [] + [turn] == [turn];
    assert HeadOk(ids, scenario, Begun(Start, turn));
    assert Accepted(ids, scenario, cp, Running) && |cp.pending| == 2 && cp.pending[1].call == tail;
  }

  lemma {:induction false} TailIsUnapproved(ids: Identities, scenario: Scenario, turns: seq<Turn>)
    requires Fold(ids, scenario, turns).Some?
    ensures forall i :: 0 < i < |Fold(ids, scenario, turns).value.pending| ==>
              Fold(ids, scenario, turns).value.pending[i].approvalId == None
  {
    if turns != [] {
      TailIsUnapproved(ids, scenario, Front(turns));
    }
  }

  lemma ResolvedFolds(ids: Identities, scenario: Scenario, turns: seq<Turn>, result: ToolResult, elapsed: nat)
    requires Fold(ids, scenario, turns).Some? && Fold(ids, scenario, turns).value.pending != []
    requires var p := Fold(ids, scenario, turns).value;
             Faithful(result, p.pending[0]) && p.pending[0].call.callIndex == p.headIndex
    requires !IsWait(result.error)
    ensures var p := Fold(ids, scenario, turns).value;
            Fold(ids, scenario, turns + [ToolTurn(ids, p.pending[0], result, elapsed)]) == Expose(ids, scenario, Resolved(p))
  {
    var p := Fold(ids, scenario, turns).value;
    FoldSnoc(ids, scenario, Some(Start), turns, ToolTurn(ids, p.pending[0], result, elapsed));
  }

  lemma ResolvedStatus(ids: Identities, scenario: Scenario, cp: Checkpoint, result: ToolResult, elapsed: nat)
    requires Accepted(ids, scenario, cp, Running) && cp.pending != [] && !IsWait(result.error)
    requires AfterTool(ids, cp, result, elapsed).Some?
    ensures StatusOk(scenario.budgets, AfterTool(ids, cp, result, elapsed).value, Running)
  {
    FoldFacts(ids, scenario, cp.trajectory);
    TailIsUnapproved(ids, scenario, cp.trajectory);
    AccumulatorsSnoc(cp.trajectory, ToolTurn(ids, cp.pending[0], result, elapsed));
  }

  /** When the laziness shows: resolving the head of an accepted checkpoint leaves an accepted one if and
      only if the call that becomes the head, if there is one, has the next index, its own identity, not
      seen before, and is authorized. */
  lemma ResolvedIsAccepted(ids: Identities, scenario: Scenario, cp: Checkpoint, result: ToolResult, elapsed: nat)
    requires Accepted(ids, scenario, cp, Running) && cp.pending != []
    requires cp.toolAttempts < scenario.budgets.maxToolCalls
    requires Faithful(result, cp.pending[0]) && !IsWait(result.error)
    requires AfterTool(ids, cp, result, elapsed).Some?
    ensures Accepted(ids, scenario, AfterTool(ids, cp, result, elapsed).value, Running) <==>
            (|cp.pending| == 1 || HeadOk(ids, scenario, Resolved(Fold(ids, scenario, cp.trajectory).value)))
  {
    HeadIsIndexed(ids, scenario, cp.trajectory);
    ResolvedFolds(ids, scenario, cp.trajectory, result, elapsed);
    ResolvedStatus(ids, scenario, cp, result, elapsed);
    if |cp.pending| == 1 || HeadOk(ids, scenario, Resolved(Fold(ids, scenario, cp.trajectory).value)) {
      AcceptedAfterTool(ids, scenario, cp, result, elapsed);
    }
  }

  /** The head of a folded trajectory has been checked. */
  lemma {:induction false} HeadIsIndexed(ids: Identities, scenario: Scenario, turns: seq<Turn>)
    requires Fold(ids, scenario, turns).Some?
    ensures var p := Fold(ids, scenario, turns).value; p.pending != [] ==> p.pending[0].call.callIndex == p.headIndex
  {
    if turns != [] {
      HeadIsIndexed(ids, scenario, Front(turns));
    }
  }
}
