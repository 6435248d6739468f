/** `_validate_checkpoint_semantics`: the reload check, as the loops it is and as what it decides. */
module CheckpointValidator {
  import opened Prelude
  import opened Checkpoints

  /** What the reload check decides, stated on the fold of the trajectory. */
  ghost predicate Accepted(ids: Identities, scenario: Scenario, cp: Checkpoint, run: RunStatus)
  {
    && Replays(ids, scenario, cp)
    && cp.finalAnswer == FinalAnswer(cp.trajectory)
    && StatusOk(scenario.budgets, cp, run)
  }

  /** The part that does not look at the final answer or the statuses. */
  ghost predicate Replays(ids: Identities, scenario: Scenario, cp: Checkpoint)
  {
    var turns := cp.trajectory;
    && cp.nextStep == AssistantTurns(turns) + 1
    && cp.toolAttempts == ToolTurns(turns)
    && AssistantTurns(turns) <= scenario.budgets.maxSteps
    && ToolTurns(turns) <= scenario.budgets.maxToolCalls
    && Fold(ids, scenario, turns).Some?
    && cp.pending == Fold(ids, scenario, turns).value.pending
    && cp.wallMs == WallMs(turns) <= SAFE_INTEGER
    && cp.knownCost == KnownCost(turns) <= SAFE_INTEGER
    && cp.costComplete == CostComplete(turns)
  }

  predicate StatusOk(b: Budgets, cp: Checkpoint, run: RunStatus)
  {
    var intent := FinalIntent(cp.trajectory);
    && (cp.status == Final ==> intent && cp.pending == [] && run == Evaluating)
    && (cp.status != Final ==> run != Evaluating)
    && (intent && cp.status != Final ==> cp.pending == [] && PostStepBudgetError(b, cp).Some?)
    && (cp.status == WaitingForApproval <==> cp.pending != [] && cp.pending[0].approvalId.Some?)
  }

  /** The run status the transaction that stores a checkpoint leaves. */
  function SettledStatus(cp: Checkpoint): RunStatus
  {
    if cp.status == Final then Evaluating else Running
  }

  /** How one assistant turn's calls meet the tool turns that follow it. */
  datatype Segment =
    | Bad
    | Done(seen: set<string>)
    | Stuck(pending: seq<Pending>)

  lemma StepFold(ids: Identities, scenario: Scenario, start: Option<Progress>, segment: seq<Turn>, at: nat)
    requires at < |segment|
    ensures FoldFrom(ids, scenario, start, segment[..at + 1]) ==
            match FoldFrom(ids, scenario, start, segment[..at])
            case None => None
            case Some(p) => Advance(ids, scenario, p, segment[at])
  {
    FoldSnoc(ids, scenario, start, segment[..at], segment[at]);
    assert segment[..at] + [segment[at]] == segment[..at + 1];
  }

  lemma DeadPrefix(ids: Identities, scenario: Scenario, start: Option<Progress>, segment: seq<Turn>, at: nat)
    requires at <= |segment|
    requires FoldFrom(ids, scenario, start, segment[..at]) == None
    ensures FoldFrom(ids, scenario, start, segment) == None
  {
    if FoldFrom(ids, scenario, start, segment).Some? {
      FoldPrefix(ids, scenario, start, segment, at);
    }
  }

  /** The progress while the call at the head of `rest` has been attempted `attempt - 1` times. */
  function Attempting(p: Progress, head: Pending, rest: seq<Pending>, attempt: nat,
                      approval: Option<string>): Progress
  {
    p.(pending := [head.(attempt := attempt, approvalId := approval)] + rest)
  }

  predicate AttemptFits(ids: Identities, head: Pending, index: nat, attempt: nat, t: Turn)
    requires t.Tool?
  {
    && t.callIndex == index && t.stepId == head.stepId && t.attempt == attempt
    && t.attemptId == ids.attempt(t.logicalId, attempt)
    && t.toolId == head.call.toolId && t.version == head.call.version
    && (IsWait(t.error) ==> t.approvalId.Some?)
  }

  lemma AttemptAdvances(ids: Identities, scenario: Scenario, p: Progress, head: Pending, rest: seq<Pending>,
                        attempt: nat, approval: Option<string>, t: Turn)
    requires t.Tool? && t.logicalId == head.call.logicalId
    ensures Advance(ids, scenario, Attempting(p, head, rest, attempt, approval), t) ==
            if !AttemptFits(ids, head, p.headIndex, attempt, t) then None
            else if IsWait(t.error) then Some(Attempting(p, head, rest, attempt + 1, t.approvalId))
            else Expose(ids, scenario, p.(pending := rest, headIndex := p.headIndex + 1))
  {
    var e := Attempting(p, head, rest, attempt, approval);
    assert e.pending[1..] == rest;
  }

  /** One more attempt, as the fold sees it. */
  lemma AttemptStep(ids: Identities, scenario: Scenario, start: Option<Progress>, segment: seq<Turn>, at: nat,
                    p: Progress, head: Pending, rest: seq<Pending>, attempt: nat, approval: Option<string>)
    requires at < |segment| && segment[at].Tool? && segment[at].logicalId == head.call.logicalId
    requires FoldFrom(ids, scenario, start, segment[..at]) == Some(Attempting(p, head, rest, attempt, approval))
    ensures var t := segment[at];
            FoldFrom(ids, scenario, start, segment[..at + 1]) ==
            if !AttemptFits(ids, head, p.headIndex, attempt, t) then None
            else if IsWait(t.error) then Some(Attempting(p, head, rest, attempt + 1, t.approvalId))
            else Expose(ids, scenario, p.(pending := rest, headIndex := p.headIndex + 1))
  {
    StepFold(ids, scenario, start, segment, at);
    AttemptAdvances(ids, scenario, p, head, rest, attempt, approval, segment[at]);
  }

  /** How far the attempts of one call have been walked. */
  ghost predicate Walked(ids: Identities, scenario: Scenario, start: Option<Progress>, segment: seq<Turn>, p: Progress,
                         head: Pending, rest: seq<Pending>, at: nat, completed: bool, attempt: nat, approval: Option<string>)
    requires at <= |segment|
  {
    FoldFrom(ids, scenario, start, segment[..at]) ==
    if completed then Expose(ids, scenario, p.(pending := rest, headIndex := p.headIndex + 1))
    else Some(Attempting(p, head, rest, attempt, approval))
  }

  lemma WalkOne(ids: Identities, scenario: Scenario, start: Option<Progress>, segment: seq<Turn>, at: nat,
                p: Progress, head: Pending, rest: seq<Pending>, attempt: nat, approval: Option<string>)
    requires at < |segment| && segment[at].Tool? && segment[at].logicalId == head.call.logicalId
    requires Walked(ids, scenario, start, segment, p, head, rest, at, false, attempt, approval)
    ensures var t := segment[at];
            if !AttemptFits(ids, head, p.headIndex, attempt, t) then FoldFrom(ids, scenario, start, segment) == None
            else Walked(ids, scenario, start, segment, p, head, rest, at + 1, !IsWait(t.error), attempt + 1,
                        if IsWait(t.error) then t.approvalId else None)
  {
    AttemptStep(ids, scenario, start, segment, at, p, head, rest, attempt, approval);
    if !AttemptFits(ids, head, p.headIndex, attempt, segment[at]) {
      DeadPrefix(ids, scenario, start, segment, at + 1);
    }
  }

  /** The attempts of one call: the tool turns from `from` on that carry its logical identity. */
  method WalkAttempts(ids: Identities, scenario: Scenario, segment: seq<Turn>, from: nat,
                      head: Pending, index: nat,
                      ghost start: Option<Progress>, ghost p: Progress, ghost rest: seq<Pending>)
    returns (bad: bool, completed: bool, at: nat, attempt: nat, approval: Option<string>)
    requires from <= |segment| && forall i :: 0 <= i < |segment| ==> segment[i].Tool?
    requires p.headIndex == index
    requires FoldFrom(ids, scenario, start, segment[..from]) == Some(Attempting(p, head, rest, 1, None))
    ensures at <= |segment|
    ensures bad ==> FoldFrom(ids, scenario, start, segment) == None
    ensures !bad ==> Walked(ids, scenario, start, segment, p, head, rest, at, completed, attempt, approval)
    ensures !bad && !completed && at < |segment| ==> segment[at].logicalId != head.call.logicalId
  {
    bad, completed, at, attempt, approval := false, false, from, 1, None;
    while !completed && at < |segment| && segment[at].logicalId == head.call.logicalId
      invariant at <= |segment|
      invariant Walked(ids, scenario, start, segment, p, head, rest, at, completed, attempt, approval)
      decreases |segment| - at
    {
      var turn := segment[at];
      WalkOne(ids, scenario, start, segment, at, p, head, rest, attempt, approval);
      if !AttemptFits(ids, head, index, attempt, turn) {
        bad := true;
        return;
      }
      approval := if IsWait(turn.error) then turn.approvalId else None;
      completed := !IsWait(turn.error);
      at := at + 1;
      attempt := attempt + 1;
    }
  }

  /** A tool turn that is not an attempt of the head breaks the segment. */
  lemma Misplaced(ids: Identities, scenario: Scenario, start: Option<Progress>, segment: seq<Turn>, at: nat)
    requires at < |segment| && segment[at].Tool?
    requires var q := FoldFrom(ids, scenario, start, segment[..at]);
             q.Some? && (q.value.pending == [] || q.value.pending[0].call.logicalId != segment[at].logicalId)
    ensures FoldFrom(ids, scenario, start, segment) == None
  {
    StepFold(ids, scenario, start, segment, at);
    DeadPrefix(ids, scenario, start, segment, at + 1);
  }

  /** How one call ends: ill formed, resolved, or still pending at the end of the segment. */
  datatype CallEnd = CallBad | CallResolved(at: nat, seen: set<string>) | CallPending(pending: seq<Pending>)

  /** What the calls from `index` on are still to be walked as. */
  ghost function Remaining(p: Progress, assistant: Turn, issued: seq<Pending>, index: nat, seen: set<string>): Progress
    requires assistant.Assistant? && index <= |issued|
  {
    Progress(p.nextStep + 1, issued[index..], index + 1, seen, assistant.final)
  }

  method WalkCall(ids: Identities, scenario: Scenario, assistant: Turn, segment: seq<Turn>, from: nat,
                  issued: seq<Pending>, index: nat, seen0: set<string>, ghost start: Option<Progress>, ghost p: Progress)
    returns (r: CallEnd)
    requires assistant.Assistant? && forall i :: 0 <= i < |segment| ==> segment[i].Tool?
    requires issued == FreshPending(assistant.stepId, assistant.calls) && index < |issued| && from <= |segment|
    requires FoldFrom(ids, scenario, start, segment[..from]) == Expose(ids, scenario, Remaining(p, assistant, issued, index, seen0))
    ensures r.CallBad? ==> FoldFrom(ids, scenario, start, segment) == None
    ensures r.CallResolved? ==>
      && r.at <= |segment|
      && FoldFrom(ids, scenario, start, segment[..r.at]) ==
         Expose(ids, scenario, Remaining(p, assistant, issued, index + 1, r.seen))
    ensures r.CallPending? ==>
      && FoldFrom(ids, scenario, start, segment).Some?
      && FoldFrom(ids, scenario, start, segment).value.pending == r.pending != []
  {
    var head, rest := issued[index], issued[index + 1..];
    ghost var raw := Remaining(p, assistant, issued, index, seen0);
    assert raw.pending == [head] + rest;
    if head.call.callIndex != index + 1
       || head.call.logicalId != ids.logical(assistant.stepId, index + 1, head.call.callId)
       || head.call.logicalId in seen0
       || !scenario.authorized(head.call.toolId, head.call.version, head.call.arguments) {
      DeadPrefix(ids, scenario, start, segment, from);
      return CallBad;
    }
    var seen := seen0 + {head.call.logicalId};
    ghost var open := raw.(seen := seen);
    assert open == Attempting(open, head, rest, 1, None);
    var bad, completed, at, attempt, approval := WalkAttempts(ids, scenario, segment, from, head, index + 1, start, open, rest);
    if bad {
      return CallBad;
    }
    if completed {
      assert open.(pending := rest, headIndex := open.headIndex + 1) == Remaining(p, assistant, issued, index + 1, seen);
      return CallResolved(at, seen);
    }
    if at < |segment| {
      Misplaced(ids, scenario, start, segment, at);
      return CallBad;
    }
    assert segment[..at] == segment;
    return CallPending([head.(attempt := attempt, approvalId := approval)] + rest);
  }

  method WalkCalls(ids: Identities, scenario: Scenario, assistant: Turn, segment: seq<Turn>,
                   seen0: set<string>, ghost p: Progress)
    returns (r: Segment)
    requires assistant.Assistant? && forall i :: 0 <= i < |segment| ==> segment[i].Tool?
    requires p.seen == seen0
    ensures var q := FoldFrom(ids, scenario, Expose(ids, scenario, Begun(p, assistant)), segment);
            && (r.Bad? <==> q == None)
            && (r.Done? ==>
                  && q.value.pending == [] && q.value.seen == r.seen
                  && q.value.nextStep == p.nextStep + 1 && q.value.finished == assistant.final)
            && (r.Stuck? ==> q.value.pending == r.pending != [])
  {
    var issued := FreshPending(assistant.stepId, assistant.calls);
    ghost var start := Expose(ids, scenario, Begun(p, assistant));
    var seen, at := seen0, 0;
    assert segment[..0] == [] && issued[0..] == issued;
    for index := 0 to |issued|
      invariant 0 <= at <= |segment|
      invariant FoldFrom(ids, scenario, start, segment[..at]) ==
                Expose(ids, scenario, Remaining(p, assistant, issued, index, seen))
    {
      var end := WalkCall(ids, scenario, assistant, segment, at, issued, index, seen, start, p);
      match end {
        case CallBad => return Bad;
        case CallPending(pending) => return Stuck(pending);
        case CallResolved(at', seen') => at, seen := at', seen';
      }
    }
    if at < |segment| {
      Misplaced(ids, scenario, start, segment, at);
      return Bad;
    }
    assert segment[..at] == segment;
    return Done(seen);
  }

  /** One assistant turn that fits, followed by a segment, folds as the walk of its calls does. */
  lemma SegmentFold(ids: Identities, scenario: Scenario, turns: seq<Turn>, at: nat, end: nat, p: Progress)
    requires at < end <= |turns| && turns[at].Assistant?
    requires Fold(ids, scenario, turns[..at]) == Some(p) && AssistantFits(ids, p, turns[at])
    ensures Fold(ids, scenario, turns[..end]) ==
            FoldFrom(ids, scenario, Expose(ids, scenario, Begun(p, turns[at])), turns[at + 1..end])
  {
    StepFold(ids, scenario, Some(Start), turns, at);
    FoldConcat(ids, scenario, Some(Start), turns[..at + 1], turns[at + 1..end]);
    assert turns[..at + 1] + turns[at + 1..end] == turns[..end];
  }

  /** Nothing but an assistant turn follows a segment, and it cannot follow an open or final one. */
  lemma Overrun(ids: Identities, scenario: Scenario, turns: seq<Turn>, at: nat)
    requires at < |turns| && !turns[at].Tool? && Fold(ids, scenario, turns[..at]).Some?
    requires var p := Fold(ids, scenario, turns[..at]).value; p.pending != [] || p.finished
    ensures Fold(ids, scenario, turns) == None
  {
    StepFold(ids, scenario, Some(Start), turns, at);
    DeadPrefix(ids, scenario, Some(Start), turns, at + 1);
  }

  /** Where the maximal run of tool turns that starts at `from` ends. */
  method SegmentEnd(turns: seq<Turn>, from: nat) returns (end: nat)
    requires from <= |turns|
    ensures from <= end <= |turns|
    ensures forall i :: from <= i < end ==> turns[i].Tool?
    ensures end < |turns| ==> !turns[end].Tool?
  {
    end := from;
    while end < |turns| && turns[end].Tool?
      invariant from <= end <= |turns|
      invariant forall i :: from <= i < end ==> turns[i].Tool?
    {
      end := end + 1;
    }
  }

  /** The walk of the whole trajectory: the pending calls it implies, or None when it is ill formed. */
  method WalkTrajectory(ids: Identities, scenario: Scenario, turns: seq<Turn>)
    returns (r: Option<seq<Pending>>)
    ensures r == match Fold(ids, scenario, turns)
                 case None => None
                 case Some(p) => Some(p.pending)
  {
    var position, expectedStep, seen := 0, 1, {};
    ghost var p := Start;
    assert turns[..0] == [];
    while position < |turns|
      invariant position <= |turns|
      invariant Fold(ids, scenario, turns[..position]) == Some(p)
      invariant p.pending == [] && !p.finished && p.nextStep == expectedStep && p.seen == seen
    {
      var assistant := turns[position];
      if !assistant.Assistant? || assistant.stepNumber != expectedStep
         || assistant.stepId != ids.step(expectedStep) || (assistant.final && assistant.calls != []) {
        StepFold(ids, scenario, Some(Start), turns, position);
        DeadPrefix(ids, scenario, Some(Start), turns, position + 1);
        return None;
      }
      var end := SegmentEnd(turns, position + 1);
      SegmentFold(ids, scenario, turns, position, end, p);
      var outcome := WalkCalls(ids, scenario, assistant, turns[position + 1..end], seen, p);
      if outcome.Bad? {
        DeadPrefix(ids, scenario, Some(Start), turns, end);
        return None;
      }
      p := Fold(ids, scenario, turns[..end]).value;
      if (outcome.Stuck? || assistant.final) && end != |turns| {
        Overrun(ids, scenario, turns, end);
        return None;
      }
      assert end == |turns| ==> turns[..end] == turns;
      if outcome.Stuck? {
        return Some(outcome.pending);
      }
      if assistant.final {
        return Some([]);
      }
      seen := outcome.seen;
      expectedStep := expectedStep + 1;
      position := end;
    }
    assert turns[..position] == turns;
    return Some([]);
  }

  /** The counters a trajectory implies; None when one leaves the safe range. */
  method Accumulate(turns: seq<Turn>) returns (r: Option<(nat, nat, bool)>)
    ensures WallMs(turns) <= SAFE_INTEGER && KnownCost(turns) <= SAFE_INTEGER ==>
      r == Some((WallMs(turns), KnownCost(turns), CostComplete(turns)))
    ensures !(WallMs(turns) <= SAFE_INTEGER && KnownCost(turns) <= SAFE_INTEGER) ==> r == None
  {
    var wall, cost, complete := 0, 0, true;
    assert turns[..0] == [];
    for i := 0 to |turns|
      invariant wall == WallMs(turns[..i]) <= SAFE_INTEGER
      invariant cost == KnownCost(turns[..i]) <= SAFE_INTEGER
      invariant complete == CostComplete(turns[..i])
    {
      var turn := turns[i];
      assert turns[..i + 1] == turns[..i] + [turn];
      AccumulatorsSnoc(turns[..i], turn);
      AccumulatorsGrow(turns, i + 1);
      wall := wall + turn.durationMs;
      if wall > SAFE_INTEGER {
        return None;
      }
      if turn.Assistant? {
        if turn.usage.cost.None? {
          complete := false;
        } else {
          cost := cost + turn.usage.cost.value;
          if cost > SAFE_INTEGER {
            return None;
          }
        }
      }
    }
    assert turns[..|turns|] == turns;
    return Some((wall, cost, complete));
  }

  lemma {:induction false} AccumulatorsGrow(turns: seq<Turn>, n: nat)
    requires n <= |turns|
    ensures WallMs(turns[..n]) <= WallMs(turns)
    ensures KnownCost(turns[..n]) <= KnownCost(turns)
  {
    if n == |turns| {
      assert turns[..n] == turns;
    } else {
      AccumulatorsGrow(Front(turns), n);
      assert Front(turns)[..n] == turns[..n];
    }
  }

  method CountTurns(turns: seq<Turn>) returns (assistants: nat, tools: nat, last: Option<Turn>)
    ensures assistants == AssistantTurns(turns) && tools == ToolTurns(turns)
    ensures last == LastAssistant(turns)
  {
    assistants, tools, last := 0, 0, None;
    assert turns[..0] == [];
    for i := 0 to |turns|
      invariant assistants == AssistantTurns(turns[..i]) && tools == ToolTurns(turns[..i])
      invariant last == LastAssistant(turns[..i])
    {
      assert turns[..i + 1] == turns[..i] + [turns[i]];
      if turns[i].Assistant? {
        assistants, last := assistants + 1, Some(turns[i]);
      } else {
        tools := tools + 1;
      }
    }
    assert turns[..|turns|] == turns;
  }

  /** The reload check itself: it accepts exactly the checkpoints described by `Accepted`. */
  method ValidateSemantics(ids: Identities, scenario: Scenario, cp: Checkpoint, run: RunStatus)
    returns (ok: bool)
    ensures ok <==> Accepted(ids, scenario, cp, run)
  {
    var turns := cp.trajectory;
    var assistants, tools, last := CountTurns(turns);
    if cp.nextStep != assistants + 1 || cp.toolAttempts != tools
       || assistants > scenario.budgets.maxSteps || tools > scenario.budgets.maxToolCalls {
      return false;
    }
    var expected := WalkTrajectory(ids, scenario, turns);
    if expected.None? || cp.pending != expected.value {
      return false;
    }
    var totals := Accumulate(turns);
    if totals.None? || cp.wallMs != totals.value.0 || cp.knownCost != totals.value.1
       || cp.costComplete != totals.value.2 {
      return false;
    }
    var intent := last.Some? && last.value.Assistant? && last.value.final;
    if cp.finalAnswer != if intent then Some(last.value.text) else None {
      return false;
    }
    if cp.status == Final {
      if !intent || expected.value != [] || run != Evaluating {
        return false;
      }
    } else if run == Evaluating {
      return false;
    }
    if intent && cp.status != Final {
      if expected.value != [] || PostStepBudgetError(scenario.budgets, cp) == None {
        return false;
      }
    }
    var waiting := cp.status == WaitingForApproval;
    return waiting == (expected.value != [] && expected.value[0].approvalId.Some?);
  }
}
