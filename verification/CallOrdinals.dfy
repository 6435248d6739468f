/** Two ways to number a logical call: over the attempts made so far, when it is dispatched
    (`_logical_call_ordinal`), and over the calls requested, when it is evaluated (`_execution_document`). */
module CallOrdinals {
  import opened Prelude
  import opened Checkpoints

  // ----- At dispatch -----

  function IndexOf(s: seq<string>, x: string): (i: nat)
    requires x in s
    ensures i < |s| && s[i] == x && x !in s[..i]
  {
    if s[0] == x then 0 else 1 + IndexOf(s[1..], x)
  }

  /** The logical calls attempted, in the order of their first attempts. */
  function Attempted(turns: seq<Turn>): seq<string>
  {
    if turns == [] then []
    else
      var before := Attempted(Front(turns));
      var t := Last(turns);
      if t.Tool? && t.logicalId !in before then before + [t.logicalId] else before
  }

  function DispatchOrdinal(turns: seq<Turn>, id: string): nat
  {
    var seen := Attempted(turns);
    if id in seen then IndexOf(seen, id) + 1 else |seen| + 1
  }

  method LogicalCallOrdinal(turns: seq<Turn>, id: string) returns (n: nat)
    ensures n == DispatchOrdinal(turns, id)
  {
    var seen := [];
    assert turns[..0] == [];
    for i := 0 to |turns|
      invariant seen == Attempted(turns[..i])
    {
      assert Front(turns[..i + 1]) == turns[..i];
      if turns[i].Tool? && turns[i].logicalId !in seen {
        seen := seen + [turns[i].logicalId];
      }
    }
    assert turns[..|turns|] == turns;
    n := if id in seen then IndexOf(seen, id) + 1 else |seen| + 1;
  }

  // ----- At evaluation -----

  function CallIds(calls: seq<Call>): (ids: seq<string>)
    ensures |ids| == |calls|
  {
    seq(|calls|, i requires 0 <= i < |calls| => calls[i].logicalId)
  }

  /** The logical calls requested, in order. */
  function Requested(turns: seq<Turn>): seq<string>
  {
    if turns == [] then []
    else Requested(Front(turns)) + (if Last(turns).Assistant? then CallIds(Last(turns).calls) else [])
  }

  /** `m` gives every call in `all` the place of its last occurrence, counted from one. */
  ghost predicate Numbers(m: map<string, nat>, all: seq<string>)
  {
    && (forall id :: id in m <==> id in all)
    && (forall id :: id in m ==> 1 <= m[id] <= |all| && all[m[id] - 1] == id && id !in all[m[id]..])
  }

  lemma NumbersNext(m: map<string, nat>, all: seq<string>, id: string)
    requires Numbers(m, all)
    ensures Numbers(m[id := |all| + 1], all + [id])
  {
    var all' := all + [id];
    forall x | x in m && x != id
      ensures all'[m[x] - 1] == x && x !in all'[m[x]..]
    {
      assert all'[m[x]..] == all[m[x]..] + [id];
    }
    assert all'[|all| + 1..] == [];
  }

  /** The dictionary the evaluator fills: a later entry replaces an earlier one. */
  method EvaluatorOrdinals(turns: seq<Turn>) returns (m: map<string, nat>)
    ensures Numbers(m, Requested(turns))
  {
    m := map[];
    var ordinal := 0;
    assert turns[..0] == [];
    for i := 0 to |turns|
      invariant Numbers(m, Requested(turns[..i])) && ordinal == |Requested(turns[..i])|
    {
      assert Front(turns[..i + 1]) == turns[..i];
      if turns[i].Assistant? {
        m, ordinal := NumberCalls(m, ordinal, CallIds(turns[i].calls), Requested(turns[..i]));
      }
    }
    assert turns[..|turns|] == turns;
  }

  method NumberCalls(m0: map<string, nat>, ordinal0: nat, ids: seq<string>, ghost all: seq<string>)
    returns (m: map<string, nat>, ordinal: nat)
    requires Numbers(m0, all) && ordinal0 == |all|
    ensures Numbers(m, all + ids) && ordinal == |all + ids|
  {
    m, ordinal := m0, ordinal0;
    assert all + ids[..0] == all;
    for j := 0 to |ids|
      invariant Numbers(m, all + ids[..j]) && ordinal == |all + ids[..j]|
    {
      NumbersNext(m, all + ids[..j], ids[j]);
      assert (all + ids[..j]) + [ids[j]] == all + ids[..j + 1];
      ordinal := ordinal + 1;
      m := m[ids[j] := ordinal];
    }
    assert ids[..|ids|] == ids;
  }

  // ----- They agree -----

  /** The calls requested are those resolved and then those pending. Of these `exposed` have been
      seen, all different; the head may or may not have been attempted. */
  ghost predicate Split(all: seq<string>, attempted: seq<string>, p: Progress, exposed: nat)
  {
    var done := |all| - |p.pending|;
    && 0 <= done <= exposed <= |all| && exposed <= done + 1
    && (forall i :: 0 <= i < |p.pending| ==> p.pending[i].call.logicalId == all[done + i])
    && (attempted == all[..done] || (exposed == done + 1 && attempted == all[..exposed]))
    && p.seen == (set id | id in all[..exposed])
    && Distinct(all[..exposed])
  }

  function Exposed(all: seq<string>, p: Progress): int
  {
    |all| - |p.pending| + (if p.pending == [] then 0 else 1)
  }

  lemma ExposeSplits(ids: Identities, scenario: Scenario, all: seq<string>, attempted: seq<string>, p: Progress)
    requires |p.pending| <= |all| && Split(all, attempted, p, |all| - |p.pending|)
    requires Expose(ids, scenario, p).Some?
    ensures var q := Expose(ids, scenario, p).value;
            |q.pending| <= |all| && Split(all, attempted, q, Exposed(all, q))
  {
    if p.pending != [] {
      var done := |all| - |p.pending|;
      assert all[..done + 1] == all[..done] + [p.pending[0].call.logicalId];
    }
  }

  lemma ResolvedSplits(all: seq<string>, attempted: seq<string>, p: Progress)
    requires p.pending != [] && |p.pending| <= |all|
    requires Split(all, attempted, p, |all| - |p.pending| + 1)
    ensures Split(all, all[..|all| - |p.pending| + 1], Resolved(p), |all| - |p.pending| + 1)
  {
  }

  lemma WaitedSplits(all: seq<string>, attempted: seq<string>, p: Progress, t: Turn)
    requires p.pending != [] && |p.pending| <= |all| && t.Tool?
    requires Split(all, attempted, p, |all| - |p.pending| + 1)
    ensures Split(all, all[..|all| - |p.pending| + 1], Waited(p, t), |all| - |p.pending| + 1)
  {
  }

  lemma BegunSplits(all: seq<string>, attempted: seq<string>, p: Progress, t: Turn)
    requires t.Assistant? && p.pending == [] && Split(all, attempted, p, |all|)
    ensures Split(all + CallIds(t.calls), attempted, Begun(p, t), |all|)
  {
    assert (all + CallIds(t.calls))[..|all|] == all[..|all|];
  }

  /** Recording an attempt of the head makes the head the last call attempted. */
  lemma AttemptedNext(before: seq<Turn>, t: Turn, all: seq<string>, p: Progress)
    requires t.Tool? && p.pending != [] && |p.pending| <= |all| && t.logicalId == p.pending[0].call.logicalId
    requires Split(all, Attempted(before), p, |all| - |p.pending| + 1)
    ensures Attempted(before + [t]) == all[..|all| - |p.pending| + 1]
    ensures DispatchOrdinal(before, t.logicalId) == |all| - |p.pending| + 1
  {
    assert Front(before + [t]) == before;
    PlaceNext(all, Attempted(before), |all| - |p.pending|);
  }

  /** The call at a place is attempted for the first time after those before it, or again. */
  lemma PlaceNext(all: seq<string>, attempted: seq<string>, done: nat)
    requires done < |all| && Distinct(all[..done + 1])
    requires attempted == all[..done] || attempted == all[..done + 1]
    ensures all[done] in attempted <==> attempted == all[..done + 1]
    ensures all[..done + 1] == all[..done] + [all[done]]
    ensures all[done] in attempted ==> IndexOf(attempted, all[done]) == done
  {
    var e := all[..done + 1];
    assert forall i :: 0 <= i < done ==> all[i] == e[i] != e[done];
    if attempted == e {
      assert attempted[done] == all[done];
    }
  }

  ghost predicate Splits(ids: Identities, scenario: Scenario, turns: seq<Turn>)
  {
    var q := Fold(ids, scenario, turns);
    q.Some? && |q.value.pending| <= |Requested(turns)|
    && Split(Requested(turns), Attempted(turns), q.value, Exposed(Requested(turns), q.value))
  }

  lemma AssistantSplits(ids: Identities, scenario: Scenario, turns: seq<Turn>, t: Turn)
    requires Splits(ids, scenario, turns) && t.Assistant?
    requires Fold(ids, scenario, turns + [t]).Some?
    ensures Splits(ids, scenario, turns + [t])
  {
    assert Front(turns + [t]) == turns;
    var p := Fold(ids, scenario, turns).value;
    assert Requested(turns + [t]) == Requested(turns) + CallIds(t.calls);
    assert Attempted(turns + [t]) == Attempted(turns);
    AssistantAdvances(ids, scenario, Requested(turns), Attempted(turns), p, t);
  }

  lemma AssistantAdvances(ids: Identities, scenario: Scenario, all: seq<string>, attempted: seq<string>,
                          p: Progress, t: Turn)
    requires t.Assistant? && p.pending == [] && Split(all, attempted, p, |all|)
    requires Advance(ids, scenario, p, t).Some?
    ensures var q := Advance(ids, scenario, p, t).value;
            var all' := all + CallIds(t.calls);
            |q.pending| <= |all'| && Split(all', attempted, q, Exposed(all', q))
  {
    BegunSplits(all, attempted, p, t);
    BegunIsExposed(ids, scenario, p, t);
    ExposeSplits(ids, scenario, all + CallIds(t.calls), attempted, Begun(p, t));
  }

  lemma BegunIsExposed(ids: Identities, scenario: Scenario, p: Progress, t: Turn)
    requires t.Assistant? && Advance(ids, scenario, p, t).Some?
    ensures |Begun(p, t).pending| == |CallIds(t.calls)|
    ensures Advance(ids, scenario, p, t) == Expose(ids, scenario, Begun(p, t))
  {
  }

  lemma ToolSplits(ids: Identities, scenario: Scenario, turns: seq<Turn>, t: Turn)
    requires Splits(ids, scenario, turns) && t.Tool?
    requires Fold(ids, scenario, turns + [t]).Some?
    ensures Splits(ids, scenario, turns + [t])
  {
    assert Front(turns + [t]) == turns;
    var p := Fold(ids, scenario, turns).value;
    var all := Requested(turns);
    assert Requested(turns + [t]) == all;
    AttemptedNext(turns, t, all, p);
    ToolAdvances(ids, scenario, all, Attempted(turns), Attempted(turns + [t]), p, t);
  }

  lemma ToolAdvances(ids: Identities, scenario: Scenario, all: seq<string>, attempted: seq<string>,
                     attempted': seq<string>, p: Progress, t: Turn)
    requires t.Tool? && p.pending != [] && |p.pending| <= |all|
    requires Split(all, attempted, p, |all| - |p.pending| + 1)
    requires attempted' == all[..|all| - |p.pending| + 1]
    requires Advance(ids, scenario, p, t).Some?
    ensures var q := Advance(ids, scenario, p, t).value;
            |q.pending| <= |all| && Split(all, attempted', q, Exposed(all, q))
  {
    if IsWait(t.error) {
      WaitedSplits(all, attempted, p, t);
    } else {
      ResolvedSplits(all, attempted, p);
      ExposeSplits(ids, scenario, all, attempted', Resolved(p));
    }
  }

  lemma {:induction false} RequestedSplits(ids: Identities, scenario: Scenario, turns: seq<Turn>)
    requires Fold(ids, scenario, turns).Some?
    ensures Splits(ids, scenario, turns)
  {
    if turns != [] {
      RequestedSplits(ids, scenario, Front(turns));
      assert Front(turns) + [Last(turns)] == turns;
      if Last(turns).Assistant? {
        AssistantSplits(ids, scenario, Front(turns), Last(turns));
      } else {
        ToolSplits(ids, scenario, Front(turns), Last(turns));
      }
    }
  }

  lemma {:induction false} RequestedPrefix(turns: seq<Turn>, n: nat)
    requires n <= |turns|
    ensures Requested(turns[..n]) <= Requested(turns)
  {
    if n == |turns| {
      assert turns[..n] == turns;
    } else {
      RequestedPrefix(Front(turns), n);
      assert Front(turns)[..n] == turns[..n];
    }
  }

  /** In a finished trajectory the calls requested are all different. */
  lemma RequestedDistinct(ids: Identities, scenario: Scenario, turns: seq<Turn>)
    requires Fold(ids, scenario, turns).Some? && Fold(ids, scenario, turns).value.pending == []
    ensures Distinct(Requested(turns))
  {
    RequestedSplits(ids, scenario, turns);
    assert Requested(turns)[..|Requested(turns)|] == Requested(turns);
  }

  /** The ordinal computed at dispatch names the call among those requested so far. */
  lemma DispatchOrdinalNames(ids: Identities, scenario: Scenario, before: seq<Turn>, t: Turn)
    requires t.Tool? && Fold(ids, scenario, before + [t]).Some?
    ensures 1 <= DispatchOrdinal(before, t.logicalId) <= |Requested(before)|
    ensures Requested(before)[DispatchOrdinal(before, t.logicalId) - 1] == t.logicalId
  {
    FoldSnoc(ids, scenario, Some(Start), before, t);
    RequestedSplits(ids, scenario, before);
    AttemptedNext(before, t, Requested(before), Fold(ids, scenario, before).value);
  }

  /** The ordinal computed at dispatch is the only place of the call among those of the whole run. */
  lemma DispatchOrdinalIsPlace(ids: Identities, scenario: Scenario, turns: seq<Turn>, j: nat)
    requires Fold(ids, scenario, turns).Some? && Fold(ids, scenario, turns).value.pending == []
    requires j < |turns| && turns[j].Tool?
    ensures var n := DispatchOrdinal(turns[..j], turns[j].logicalId);
            && 1 <= n <= |Requested(turns)|
            && Requested(turns)[n - 1] == turns[j].logicalId
            && forall k :: 0 <= k < |Requested(turns)| && Requested(turns)[k] == turns[j].logicalId ==> k == n - 1
  {
    var before := turns[..j];
    assert turns[..j + 1] == before + [turns[j]];
    FoldPrefix(ids, scenario, Some(Start), turns, j + 1);
    DispatchOrdinalNames(ids, scenario, before, turns[j]);
    RequestedPrefix(turns, j);
    RequestedDistinct(ids, scenario, turns);
  }

  /** For every attempt of a finished trajectory, the ordinal computed when it was dispatched, from
      the turns before it, is the one the evaluator computes from the whole run. */
  lemma OrdinalsAgree(ids: Identities, scenario: Scenario, turns: seq<Turn>, m: map<string, nat>, j: nat)
    requires Fold(ids, scenario, turns).Some? && Fold(ids, scenario, turns).value.pending == []
    requires Numbers(m, Requested(turns))
    requires j < |turns| && turns[j].Tool?
    ensures turns[j].logicalId in m
    ensures m[turns[j].logicalId] == DispatchOrdinal(turns[..j], turns[j].logicalId)
  {
    DispatchOrdinalIsPlace(ids, scenario, turns, j);
  }
}
