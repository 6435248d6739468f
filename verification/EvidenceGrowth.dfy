/** The log the writers and the gateway build is always accepted as the trajectory's evidence. */
module EvidenceGrowth {
  import opened Prelude
  import opened Checkpoints
  import opened CheckpointValidator
  import opened RunEvents
  import opened CheckpointEvidence

  /** The context built from the accumulators is the one recomputed from the trajectory. */
  lemma ContextsAgree(ids: Identities, scenario: Scenario, cp: Checkpoint)
    requires Replays(ids, scenario, cp)
    ensures AgentContext(scenario.budgets, cp) ==
            ContextFromTrajectory(scenario.budgets, cp.trajectory, cp.nextStep)
  {
  }

  // ----- What is appended to the log -----

  /** The log grows at its end, under new identities, and new fault events stay among themselves. */
  ghost predicate Grows(log: seq<Event>, block: seq<Event>)
  {
    && UniqueIds(log + block) && InOrder(log + block)
    && (forall i :: 0 <= i < |log + block| ==> (log + block)[i].sequence > 0)
    && (forall i :: 0 <= i < |block| && (block[i].body.Fault? || block[i].body.FaultNotMatched?) ==>
          && (block[i].causation.Some? ==> !Contains(log, block[i].causation.value))
          && (forall r :: r in Related(block[i]) ==> !Contains(log, r)))
  }

  /** Events no turn accounts for: lifecycle, policy, approvals, faults. */
  predicate Unaccounted(e: Event)
  {
    !IsCompletedStep(e) && !e.body.ToolRequested? && !e.body.ToolResulted?
  }

  /** `_append_agent_step`: the event recorded with an assistant turn. */
  function AgentEvent(w: Witness, b: Budgets, cp: Checkpoint, turn: Turn, sequence: nat): Event
    requires turn.Assistant?
  {
    Event(w.agentEvent(turn.stepNumber), w.runId, sequence, w.producer, None, turn.stepId,
          AgentStep(true, turn.stepId, turn.stepNumber, w.modelCall(turn.stepNumber), w.model,
                    w.contextDigest(AgentContext(b, cp)), Some(w.outputDigest(AssistantPayload(turn)))))
  }

  ghost predicate AgentBlock(w: Witness, b: Budgets, cp: Checkpoint, turn: Turn, block: seq<Event>)
    requires turn.Assistant?
  {
    && block != []
    && Last(block) == AgentEvent(w, b, cp, turn, Last(block).sequence)
    && forall e :: e in Front(block) ==> Unaccounted(e)
  }

  /** The gateway's side: one request and one result that match the turn, with a valid cause. */
  ghost predicate ToolBlock(w: Witness, all: seq<Turn>, t: Turn, log: seq<Event>, block: seq<Event>,
                            request: Event, result: Event)
    requires t.Tool?
  {
    && request in block && result in block
    && request.id == t.requestEvent && result.id == t.resultEvent
    && request.sequence < result.sequence
    && RequestMatches(w, all, t, request)
    && ResultMatches(w, t, result)
    && CausationOk(log + block, request, result, t)
    && forall e :: e in block && e != request && e != result ==> Unaccounted(e)
  }

  /** Every request of the log belongs to a recorded step, and every result to a request of the log. */
  ghost predicate Attributed(turns: seq<Turn>, log: seq<Event>)
  {
    && (forall e :: e in log && e.body.ToolRequested? ==> e.body.stepId in Steps(turns))
    && (forall e :: e in log && e.body.ToolResulted? ==> e.body.requestEvent in RequestsOf(log, Steps(turns)))
  }

  // ----- Earlier turns are not disturbed -----

  lemma CausationStable(log: seq<Event>, block: seq<Event>, request: Event, result: Event, t: Turn)
    requires t.Tool? && Grows(log, block) && request in log && result in log
    requires CausationOk(log, request, result, t)
    ensures CausationOk(log + block, request, result, t)
  {
    forall e | e in block
      ensures e.sequence > result.sequence
    {
      LaterThan(log, block, result, e);
    }
    SelectStable(log, block, (e: Event) =>
      e.body.PolicyDecision? && e.causation == Some(request.id) && e.body.logicalId == t.logicalId
      && Between(request, e, result));
    if t.approvalId.Some? {
      SelectStable(log, block, (e: Event) =>
        && (if IsWait(t.error) then e.body.ApprovalRequested? && e.body.approvalId == t.approvalId.value
            else e.body.ApprovalResolved? && e.body.approvalId == t.approvalId.value)
        && e.sequence < result.sequence);
    }
    FaultsStable(log, block, request, result, t.logicalId);
  }

  lemma FaultsStable(log: seq<Event>, block: seq<Event>, request: Event, result: Event, logicalId: string)
    requires Grows(log, block) && request in log && result in log
    ensures FaultEvents(log + block, request, result, logicalId) == FaultEvents(log, request, result, logicalId)
  {
    var keep := (e: Event) =>
      && e.correlation == logicalId && (e.body.Fault? || e.body.FaultNotMatched?)
      && (e.causation == Some(request.id) || e.causation == Some(result.id) || request.id in Related(e));
    assert Contains(log, request.id) && Contains(log, result.id);
    forall e | e in block
      ensures !keep(e)
    {
      var i :| 0 <= i < |block| && block[i] == e;
    }
    SelectStable(log, block, keep);
  }

  lemma {:induction false} ArgumentsStable(turns: seq<Turn>, t: Turn, id: string)
    ensures ArgumentsOf(turns, id).Some? ==> ArgumentsOf(turns + [t], id) == ArgumentsOf(turns, id)
    ensures StepNumberOf(turns, id).Some? ==> StepNumberOf(turns + [t], id) == StepNumberOf(turns, id)
  {
    if turns != [] {
      ArgumentsStable(turns[1..], t, id);
      assert (turns + [t])[1..] == turns[1..] + [t];
    }
  }

  lemma ToolTurnStable(w: Witness, log: seq<Event>, block: seq<Event>, all: seq<Turn>, next: Turn, used: Used, t: Turn)
    requires Grows(log, block) && UniqueIds(log) && t.Tool? && ToolEvidenced(w, log, all, used, t)
    ensures ToolEvidenced(w, log + block, all + [next], used, t)
    ensures Find(log + block, t.resultEvent) == Find(log, t.resultEvent)
  {
    FindStable(log, block, t.requestEvent);
    FindStable(log, block, t.resultEvent);
    FindFacts(log, t.requestEvent);
    FindFacts(log, t.resultEvent);
    ArgumentsStable(all, next, t.logicalId);
    ArgumentsStable(all, next, t.stepId);
    CausationStable(log, block, Find(log, t.requestEvent).value, Find(log, t.resultEvent).value, t);
  }

  lemma {:induction false} TurnsStable(w: Witness, b: Budgets, log: seq<Event>, block: seq<Event>,
                                       all: seq<Turn>, next: Turn, turns: seq<Turn>)
    requires Grows(log, block) && UniqueIds(log) && CheckTurns(w, b, log, all, turns).Some?
    ensures CheckTurns(w, b, log + block, all + [next], turns) == CheckTurns(w, b, log, all, turns)
  {
    if turns != [] {
      TurnsStable(w, b, log, block, all, next, Front(turns));
      var t := Last(turns);
      if t.Assistant? {
        FindStable(log, block, w.agentEvent(t.stepNumber));
      } else {
        ToolTurnStable(w, log, block, all, next, CheckTurns(w, b, log, all, Front(turns)).value, t);
      }
    }
  }

  /** The last sequence used lies in the log, so everything appended comes after it. */
  lemma {:induction false} PriorBefore(w: Witness, b: Budgets, log: seq<Event>, block: seq<Event>,
                                       all: seq<Turn>, turns: seq<Turn>, e: Event)
    requires Grows(log, block) && UniqueIds(log) && CheckTurns(w, b, log, all, turns).Some? && e in block
    ensures CheckTurns(w, b, log, all, turns).value.prior < e.sequence
  {
    if turns == [] {
      var j :| 0 <= j < |block| && block[j] == e;
      assert (log + block)[|log| + j] == e;
    } else {
      var t := Last(turns);
      var last := if t.Assistant? then w.agentEvent(t.stepNumber) else t.resultEvent;
      FindFacts(log, last);
      LaterThan(log, block, Find(log, last).value, e);
    }
  }

  // ----- One more turn -----

  /** The requests and results the trajectory accounts for, after a block without any. */
  lemma NothingRequested(log: seq<Event>, block: seq<Event>, turns: seq<Turn>, turns': seq<Turn>)
    requires Attributed(turns, log) && Steps(turns) <= Steps(turns')
    requires forall e :: e in block ==> !e.body.ToolRequested? && !e.body.ToolResulted?
    ensures RequestsOf(log + block, Steps(turns')) == RequestsOf(log, Steps(turns))
    ensures ResultsOf(log + block, RequestsOf(log, Steps(turns))) == ResultsOf(log, RequestsOf(log, Steps(turns)))
    ensures Attributed(turns', log + block)
  {
  }

  lemma StepsGrow(turns: seq<Turn>, t: Turn)
    ensures Steps(turns + [t]) == Steps(turns) + (if t.Assistant? then {t.stepId} else {})
  {
    var all := turns + [t];
    assert forall i :: 0 <= i < |turns| ==> all[i] == turns[i];
    assert all[|turns|] == t;
  }

  lemma AgentTurnWalks(w: Witness, ids: Identities, scenario: Scenario, cp: Checkpoint, turn: Turn,
                       log: seq<Event>, block: seq<Event>)
    requires Replays(ids, scenario, cp) && turn.Assistant? && turn.stepNumber == cp.nextStep
    requires UniqueIds(log) && CheckTurns(w, scenario.budgets, log, cp.trajectory, cp.trajectory).Some?
    requires Grows(log, block) && AgentBlock(w, scenario.budgets, cp, turn, block)
    ensures var turns, e := cp.trajectory + [turn], Last(block);
            var used := CheckTurns(w, scenario.budgets, log, cp.trajectory, cp.trajectory).value;
            CheckTurns(w, scenario.budgets, log + block, turns, turns) ==
            Some(used.(prior := e.sequence, agents := used.agents + {e.id}))
  {
    var b, e, turns := scenario.budgets, Last(block), cp.trajectory;
    ContextsAgree(ids, scenario, cp);
    TurnsStable(w, b, log, block, turns, turn, turns);
    PriorBefore(w, b, log, block, turns, turns, e);
    assert Front(turns + [turn]) == turns && e in log + block;
    FindFacts(log + block, e.id);
  }

  /** Recording an agent step with its event leaves evidence that is accepted. */
  lemma AgentTurnIsEvidenced(w: Witness, ids: Identities, scenario: Scenario, cp: Checkpoint, turn: Turn,
                             log: seq<Event>, block: seq<Event>)
    requires Replays(ids, scenario, cp) && turn.Assistant? && turn.stepNumber == cp.nextStep
    requires EvidenceOk(w, scenario.budgets, cp.trajectory, log) && Attributed(cp.trajectory, log)
    requires Grows(log, block) && AgentBlock(w, scenario.budgets, cp, turn, block)
    ensures EvidenceOk(w, scenario.budgets, cp.trajectory + [turn], log + block)
    ensures Attributed(cp.trajectory + [turn], log + block)
  {
    AgentTurnWalks(w, ids, scenario, cp, turn, log, block);
    var used := CheckTurns(w, scenario.budgets, log, cp.trajectory, cp.trajectory).value;
    AgentTurnAccounts(used, cp.trajectory, turn, log, block);
  }

  lemma AgentTurnAccounts(used: Used, turns: seq<Turn>, turn: Turn, log: seq<Event>, block: seq<Event>)
    requires turn.Assistant? && Accounts(used, turns, log) && Attributed(turns, log)
    requires block != [] && IsCompletedStep(Last(block)) && forall e :: e in Front(block) ==> Unaccounted(e)
    ensures Accounts(used.(prior := Last(block).sequence, agents := used.agents + {Last(block).id}),
                     turns + [turn], log + block)
    ensures Attributed(turns + [turn], log + block)
  {
    StepsGrow(turns, turn);
    assert block == Front(block) + [Last(block)];
    NothingRequested(log, block, turns, turns + [turn]);
    OneCompleted(log, block);
  }

  lemma OneCompleted(log: seq<Event>, block: seq<Event>)
    requires block != [] && IsCompletedStep(Last(block))
    requires forall e :: e in Front(block) ==> Unaccounted(e)
    ensures CompletedSteps(log + block) == CompletedSteps(log) + {Last(block).id}
  {
    assert block == Front(block) + [Last(block)];
  }

  /** One request and its result are added to what the trajectory accounts for. */
  lemma OneRequested(log: seq<Event>, block: seq<Event>, turns: seq<Turn>, request: Event, result: Event)
    requires UniqueIds(log + block) && Attributed(turns, log)
    requires request in block && request.body.ToolRequested? && request.body.stepId in Steps(turns)
    requires result in block && result.body.ToolResulted? && result.body.requestEvent == request.id
    requires forall e :: e in block && e != request && e != result ==> Unaccounted(e)
    ensures var requests := RequestsOf(log, Steps(turns));
            && RequestsOf(log + block, Steps(turns)) == requests + {request.id}
            && ResultsOf(log + block, requests + {request.id}) == ResultsOf(log, requests) + {result.id}
    ensures Attributed(turns, log + block)
  {
    var requests := RequestsOf(log, Steps(turns));
    forall x | x in log
      ensures x.id != request.id
      ensures x.body.ToolResulted? ==> x.body.requestEvent != request.id
    {
      NewIsNotOld(log, block, x, request);
      if x.body.ToolResulted? && x.body.requestEvent == request.id {
        var y :| y in log && y.id == request.id;
        NewIsNotOld(log, block, y, request);
      }
    }
    assert RequestsOf(log + block, Steps(turns)) == requests + {request.id};
    assert ResultsOf(log + block, requests + {request.id}) == ResultsOf(log, requests) + {result.id};
  }

  lemma {:induction false} StepNumberInSteps(turns: seq<Turn>, stepId: string)
    requires StepNumberOf(turns, stepId).Some?
    ensures stepId in Steps(turns)
  {
    if turns[0].Assistant? && turns[0].stepId == stepId {
    } else {
      StepNumberInSteps(turns[1..], stepId);
      var i :| 0 <= i < |turns[1..]| && turns[1..][i].Assistant? && turns[1..][i].stepId == stepId;
      assert turns[i + 1] == turns[1..][i];
    }
  }

  lemma ToolTurnWalks(w: Witness, b: Budgets, turns: seq<Turn>, t: Turn, log: seq<Event>,
                      block: seq<Event>, request: Event, result: Event)
    requires t.Tool? && EvidenceOk(w, b, turns, log)
    requires Grows(log, block) && ToolBlock(w, turns + [t], t, log, block, request, result)
    ensures var used := CheckTurns(w, b, log, turns, turns).value;
            CheckTurns(w, b, log + block, turns + [t], turns + [t]) ==
            Some(used.(prior := result.sequence, tools := used.tools + {request.id, result.id}))
  {
    TurnsStable(w, b, log, block, turns, t, turns);
    PriorBefore(w, b, log, block, turns, turns, request);
    NotYetUsed(w, b, turns, log, block, request);
    NotYetUsed(w, b, turns, log, block, result);
    assert Front(turns + [t]) == turns && request in log + block && result in log + block;
    FindFacts(log + block, request.id);
    FindFacts(log + block, result.id);
  }

  /** Recording a tool attempt with the gateway's events leaves evidence that is accepted. */
  lemma ToolTurnIsEvidenced(w: Witness, b: Budgets, turns: seq<Turn>, t: Turn, log: seq<Event>,
                            block: seq<Event>, request: Event, result: Event)
    requires t.Tool? && EvidenceOk(w, b, turns, log) && Attributed(turns, log)
    requires Grows(log, block) && ToolBlock(w, turns + [t], t, log, block, request, result)
    ensures EvidenceOk(w, b, turns + [t], log + block) && Attributed(turns + [t], log + block)
  {
    ToolTurnWalks(w, b, turns, t, log, block, request, result);
    ToolTurnAccounts(CheckTurns(w, b, log, turns, turns).value, turns, t, log, block, request, result);
  }

  lemma ToolTurnAccounts(used: Used, turns: seq<Turn>, t: Turn, log: seq<Event>, block: seq<Event>,
                         request: Event, result: Event)
    requires t.Tool? && Accounts(used, turns, log) && Attributed(turns, log) && UniqueIds(log + block)
    requires request in block && request.body.ToolRequested? && request.body.stepId == t.stepId
    requires StepNumberOf(turns + [t], t.stepId).Some?
    requires result in block && result.body.ToolResulted? && result.body.requestEvent == request.id
    requires forall e :: e in block && e != request && e != result ==> Unaccounted(e)
    ensures Accounts(used.(prior := result.sequence, tools := used.tools + {request.id, result.id}),
                     turns + [t], log + block)
    ensures Attributed(turns + [t], log + block)
  {
    StepNumberInSteps(turns + [t], t.stepId);
    StepsGrow(turns, t);
    assert Steps(turns + [t]) == Steps(turns);
    OneRequested(log, block, turns, request, result);
    NothingCompleted(log, block);
    SameStepsAccount(used, turns, turns + [t], log + block, request.id, result.id, result.sequence);
  }

  lemma SameStepsAccount(used: Used, turns: seq<Turn>, turns': seq<Turn>, log: seq<Event>, request: string,
                         result: string, prior: nat)
    requires Steps(turns') == Steps(turns)
    requires used.agents == CompletedSteps(log)
    requires var requests := RequestsOf(log, Steps(turns));
             used.tools + {request, result} == requests + ResultsOf(log, requests)
    ensures Accounts(used.(prior := prior, tools := used.tools + {request, result}), turns', log)
  {
  }

  lemma NothingCompleted(log: seq<Event>, block: seq<Event>)
    requires forall e :: e in block ==> !IsCompletedStep(e)
    ensures CompletedSteps(log + block) == CompletedSteps(log)
  {
  }

  lemma NotYetUsed(w: Witness, b: Budgets, turns: seq<Turn>, log: seq<Event>, block: seq<Event>, e: Event)
    requires EvidenceOk(w, b, turns, log) && UniqueIds(log + block) && e in block
    ensures e.id !in CheckTurns(w, b, log, turns, turns).value.tools
  {
    forall x | x in log
      ensures x.id != e.id
    {
      NewIsNotOld(log, block, x, e);
    }
  }

  // ----- A whole history -----

  /** Before the first step the log holds only events no turn accounts for. */
  ghost predicate BeforeExecution(log: seq<Event>)
  {
    UniqueIds(log) && forall e :: e in log ==> Unaccounted(e)
  }

  ghost predicate Evidenced(w: Witness, b: Budgets, turns: seq<Turn>, log: seq<Event>)
  {
    EvidenceOk(w, b, turns, log) && Attributed(turns, log)
  }

  lemma NothingIsEvidenced(w: Witness, b: Budgets, log: seq<Event>)
    requires BeforeExecution(log)
    ensures Evidenced(w, b, [], log)
  {
  }

  /** A stored version and the log its transaction left. */
  datatype Moment = Moment(cp: Checkpoint, log: seq<Event>)

  /** A transaction that records an agent step with its event. */
  ghost predicate CommitsAgentTurn(w: Witness, ids: Identities, scenario: Scenario, a: Moment, z: Moment, t: Turn,
                                   block: seq<Event>)
  {
    && Replays(ids, scenario, a.cp) && Grows(a.log, block)
    && z.log == a.log + block && z.cp.trajectory == a.cp.trajectory + [t]
    && t.Assistant? && t.stepNumber == a.cp.nextStep && AgentBlock(w, scenario.budgets, a.cp, t, block)
  }

  /** A transaction that records a tool attempt with the gateway's events. */
  ghost predicate CommitsToolTurn(w: Witness, a: Moment, z: Moment, t: Turn, block: seq<Event>)
  {
    && Grows(a.log, block)
    && z.log == a.log + block && z.cp.trajectory == a.cp.trajectory + [t]
    && t.Tool? && exists request, result :: ToolBlock(w, z.cp.trajectory, t, a.log, block, request, result)
  }

  /** One committed transaction of the run. */
  ghost predicate Committed(w: Witness, ids: Identities, scenario: Scenario, a: Moment, z: Moment)
  {
    || (exists t, block :: CommitsAgentTurn(w, ids, scenario, a, z, t, block))
    || (exists t, block :: CommitsToolTurn(w, a, z, t, block))
  }

  lemma CommittedAgentTurn(w: Witness, ids: Identities, scenario: Scenario, a: Moment, z: Moment, t: Turn, block: seq<Event>)
    requires Evidenced(w, scenario.budgets, a.cp.trajectory, a.log) && CommitsAgentTurn(w, ids, scenario, a, z, t, block)
    ensures Evidenced(w, scenario.budgets, z.cp.trajectory, z.log)
  {
    AgentTurnIsEvidenced(w, ids, scenario, a.cp, t, a.log, block);
  }

  lemma CommittedToolTurn(w: Witness, b: Budgets, a: Moment, z: Moment, t: Turn, block: seq<Event>)
    requires Evidenced(w, b, a.cp.trajectory, a.log) && CommitsToolTurn(w, a, z, t, block)
    ensures Evidenced(w, b, z.cp.trajectory, z.log)
  {
    var request, result :| ToolBlock(w, z.cp.trajectory, t, a.log, block, request, result);
    ToolTurnIsEvidenced(w, b, a.cp.trajectory, t, a.log, block, request, result);
  }

  lemma CommittedIsEvidenced(w: Witness, ids: Identities, scenario: Scenario, a: Moment, z: Moment)
    requires Evidenced(w, scenario.budgets, a.cp.trajectory, a.log) && Committed(w, ids, scenario, a, z)
    ensures Evidenced(w, scenario.budgets, z.cp.trajectory, z.log)
  {
    if t, block :| CommitsAgentTurn(w, ids, scenario, a, z, t, block) {
      CommittedAgentTurn(w, ids, scenario, a, z, t, block);
    } else {
      var t, block :| CommitsToolTurn(w, a, z, t, block);
      CommittedToolTurn(w, scenario.budgets, a, z, t, block);
    }
  }

  /** Every stored version, after any chain of transactions from the blank checkpoint, passes the
      evidence check on the log its own transaction leaves. */
  lemma HistoryIsEvidenced(w: Witness, ids: Identities, scenario: Scenario, chain: seq<Moment>)
    requires chain != [] && chain[0].cp == Blank && BeforeExecution(chain[0].log)
    requires forall i :: 0 <= i < |chain| - 1 ==> Committed(w, ids, scenario, chain[i], chain[i + 1])
    ensures EvidenceOk(w, scenario.budgets, Last(chain).cp.trajectory, Last(chain).log)
  {
    var good := (m: Moment) => Evidenced(w, scenario.budgets, m.cp.trajectory, m.log);
    var step := (a: Moment, z: Moment) => Committed(w, ids, scenario, a, z);
    NothingIsEvidenced(w, scenario.budgets, chain[0].log);
    forall a, z | good(a) && step(a, z)
      ensures good(z)
    {
      CommittedIsEvidenced(w, ids, scenario, a, z);
    }
    ChainKeeps(good, step, chain);
  }
}
