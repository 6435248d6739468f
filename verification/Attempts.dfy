/** Physical attempts in a folded trajectory: no attempt identity is used twice. */
module Attempts {
  import opened Prelude
  import opened Checkpoints

  /** Every tool turn is an attempt of a call already seen, below the next attempt of the head. */
  ghost predicate AttemptsBelow(ids: Identities, turns: seq<Turn>, p: Progress)
  {
    && (p.pending != [] ==> p.pending[0].call.logicalId in p.seen)
    && forall i :: 0 <= i < |turns| && turns[i].Tool? ==>
         && turns[i].attemptId == ids.attempt(turns[i].logicalId, turns[i].attempt)
         && turns[i].logicalId in p.seen
         && (p.pending != [] && turns[i].logicalId == p.pending[0].call.logicalId
             ==> turns[i].attempt < p.pending[0].attempt)
  }

  ghost predicate AttemptsDistinct(turns: seq<Turn>)
  {
    forall i, j :: 0 <= i < j < |turns| && turns[i].Tool? && turns[j].Tool? ==>
      turns[i].attemptId != turns[j].attemptId
  }

  lemma {:induction false} AttemptsOrdered(ids: Identities, scenario: Scenario, turns: seq<Turn>)
    requires Fold(ids, scenario, turns).Some?
    ensures AttemptsBelow(ids, turns, Fold(ids, scenario, turns).value)
  {
    if turns != [] {
      AttemptsOrdered(ids, scenario, Front(turns));
      var p := Fold(ids, scenario, Front(turns)).value;
      var q := Fold(ids, scenario, turns).value;
      forall i | 0 <= i < |turns| && turns[i].Tool?
        ensures turns[i].attemptId == ids.attempt(turns[i].logicalId, turns[i].attempt)
        ensures turns[i].logicalId in q.seen
        ensures q.pending != [] && turns[i].logicalId == q.pending[0].call.logicalId
                ==> turns[i].attempt < q.pending[0].attempt
      {
        if i < |turns| - 1 {
          assert turns[i] == Front(turns)[i];
        }
      }
    }
  }

  ghost predicate Unused(turns: seq<Turn>, attemptId: string)
  {
    forall i :: 0 <= i < |turns| && turns[i].Tool? ==> turns[i].attemptId != attemptId
  }

  function HeadAttempt(ids: Identities, pending: seq<Pending>): string
    requires pending != []
  {
    ids.attempt(pending[0].call.logicalId, pending[0].attempt)
  }

  /** The attempt the head is about to make has not been recorded. */
  lemma HeadAttemptUnused(ids: Identities, scenario: Scenario, turns: seq<Turn>)
    requires CollisionFree(ids)
    requires Fold(ids, scenario, turns).Some? && Fold(ids, scenario, turns).value.pending != []
    ensures Unused(turns, HeadAttempt(ids, Fold(ids, scenario, turns).value.pending))
  {
    AttemptsOrdered(ids, scenario, turns);
  }

  /** No attempt identity appears twice in an accepted trajectory. */
  lemma {:induction false} AttemptsNeverRepeat(ids: Identities, scenario: Scenario, turns: seq<Turn>)
    requires CollisionFree(ids) && Fold(ids, scenario, turns).Some?
    ensures AttemptsDistinct(turns)
  {
    if turns != [] {
      AttemptsNeverRepeat(ids, scenario, Front(turns));
      var t := Last(turns);
      if t.Tool? {
        HeadAttemptUnused(ids, scenario, Front(turns));
        assert Unused(Front(turns), t.attemptId);
      }
      forall i, j | 0 <= i < j < |turns| && turns[i].Tool? && turns[j].Tool?
        ensures turns[i].attemptId != turns[j].attemptId
      {
        assert turns[i] == Front(turns)[i];
        if j < |turns| - 1 {
          assert turns[j] == Front(turns)[j];
        }
      }
    }
  }
}
