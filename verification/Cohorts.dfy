/** `campaign_cohort_v0`: who belongs to one Campaign arm, in one order. */
module Cohorts {
  import opened Prelude
  import opened Texts
  import opened Reliability

  datatype Arm = Baseline | Faulted

  datatype Run = Run(runId: string, index: nat, evaluationDigest: string, evaluationId: string, inputDigest: string,
                     through: nat, classification: Classification, observed: seq<string>)

  /** A trial with the Campaign it says it belongs to. */
  datatype Member = Member(campaignId: string, arm: Arm, scenario: string, agent: string, available: seq<string>,
                           selected: seq<string>, planned: nat, run: Run)

  datatype Cohort = Cohort(campaignId: string, arm: Arm, scenario: string, agent: string, available: seq<string>,
                           selected: seq<string>, planned: nat, runs: seq<Run>)

  // ----- Membership -----

  ghost predicate Subset(a: seq<string>, b: seq<string>)
  {
    forall x :: x in a ==> x in b
  }

  /** The fields of `_validate_trial` that concern faults. */
  ghost predicate FaultsSane(arm: Arm, selected: seq<string>, available: seq<string>, observed: seq<string>)
  {
    && (arm == Baseline <==> selected == [])
    && Ordered(observed) && Subset(observed, available)
  }

  ghost predicate Joins(cohort: Cohort, m: Member)
  {
    && m.campaignId == cohort.campaignId && m.arm == cohort.arm && m.scenario == cohort.scenario && m.agent == cohort.agent
    && m.available == cohort.available && m.selected == cohort.selected && m.planned == cohort.planned
    && m.run.index < cohort.planned
    && FaultsSane(m.arm, m.selected, m.available, m.run.observed)
  }

  ghost predicate Apart(trials: seq<Member>)
  {
    forall i, j :: 0 <= i < j < |trials| ==>
      trials[i].run.runId != trials[j].run.runId && trials[i].run.index != trials[j].run.index
  }

  ghost predicate PlanOk(cohort: Cohort)
  {
    && Ordered(cohort.available) && Distinct(cohort.available)
    && Ordered(cohort.selected) && Distinct(cohort.selected)
    && Subset(cohort.selected, cohort.available)
    && (cohort.arm == Baseline <==> cohort.selected == [])
  }

  ghost predicate Admitted(cohort: Cohort, trials: seq<Member>)
  {
    PlanOk(cohort) && Apart(trials) && forall m :: m in trials ==> Joins(cohort, m)
  }

  // ----- Order -----

  predicate Precedes(a: Run, b: Run)
  {
    a.index < b.index || (a.index == b.index && Before(a.runId, b.runId))
  }

  function InsertRun(sorted: seq<Run>, r: Run): seq<Run>
  {
    if sorted == [] then [r]
    else if Precedes(r, Last(sorted)) then InsertRun(Front(sorted), r) + [Last(sorted)]
    else sorted + [r]
  }

  /** The runs by planned place and identity. */
  function SortRuns(trials: seq<Member>): seq<Run>
  {
    if trials == [] then [] else InsertRun(SortRuns(Front(trials)), Last(trials).run)
  }

  ghost predicate ByPlace(runs: seq<Run>)
  {
    forall i, j :: 0 <= i < j < |runs| ==> runs[i].index < runs[j].index
  }

  lemma {:induction false} InsertPlaces(sorted: seq<Run>, r: Run)
    requires ByPlace(sorted) && forall x :: x in sorted ==> x.index != r.index
    ensures ByPlace(InsertRun(sorted, r))
    ensures forall x :: x in InsertRun(sorted, r) <==> x in sorted || x == r
  {
    if sorted != [] {
      var before, last := Front(sorted), Last(sorted);
      assert sorted == before + [last] && last in sorted;
      forall x | x in sorted
        ensures x.index <= last.index && (x in before ==> x.index < last.index)
      {
        BelowLast(sorted, x);
      }
      if Precedes(r, last) {
        assert ByPlace(before) && forall x :: x in before ==> x in sorted;
        InsertPlaces(before, r);
        PlaceLast(InsertRun(before, r), last);
      } else {
        PlaceLast(sorted, r);
      }
    }
  }

  lemma PlaceLast(sorted: seq<Run>, last: Run)
    requires ByPlace(sorted) && forall x :: x in sorted ==> x.index < last.index
    ensures ByPlace(sorted + [last])
  {
    assert forall i :: 0 <= i < |sorted| ==> sorted[i] in sorted;
  }

  lemma BelowLast(sorted: seq<Run>, x: Run)
    requires ByPlace(sorted) && sorted != []
    ensures x in sorted ==> x.index <= Last(sorted).index
    ensures x in Front(sorted) ==> x.index < Last(sorted).index
  {
  }

  ghost predicate HasRun(trials: seq<Member>, x: Run)
  {
    exists m :: m in trials && m.run == x
  }

  lemma LastIsApart(before: seq<Member>, last: Member)
    requires Apart(before + [last])
    ensures Apart(before) && forall x :: HasRun(before, x) ==> x.index != last.run.index
    ensures forall x :: HasRun(before + [last], x) <==> HasRun(before, x) || x == last.run
  {
    var trials := before + [last];
    assert trials[|before|] == last && last in trials;
    forall x | HasRun(before, x)
      ensures x.index != last.run.index && HasRun(trials, x)
    {
      var m :| m in before && m.run == x;
      var i :| 0 <= i < |before| && before[i] == m;
      assert trials[i] == m && m in trials;
    }
    forall i, j | 0 <= i < j < |before|
      ensures before[i].run.index != before[j].run.index && before[i].run.runId != before[j].run.runId
    {
      assert trials[i] == before[i] && trials[j] == before[j];
    }
  }

  lemma {:induction false} SortPlaces(trials: seq<Member>)
    requires Apart(trials)
    ensures ByPlace(SortRuns(trials))
    ensures forall x :: x in SortRuns(trials) <==> HasRun(trials, x)
  {
    if trials != [] {
      var before, last := Front(trials), Last(trials);
      assert trials == before + [last];
      LastIsApart(before, last);
      SortPlaces(before);
      InsertPlaces(SortRuns(before), last.run);
    }
  }

  /** Runs in strictly increasing places are determined by which runs they are. */
  lemma {:induction false} PlacesAreCanonical(a: seq<Run>, b: seq<Run>)
    requires ByPlace(a) && ByPlace(b) && forall x :: x in a <==> x in b
    ensures a == b
  {
    assert (a != [] ==> a[0] in a) && (b != [] ==> b[0] in b);
    if a != [] && b != [] {
      assert Last(a) in a && Last(b) in b;
      BelowLast(a, Last(b));
      BelowLast(b, Last(a));
      SameIndexSameRun(a, Last(a), Last(b));
      AllButLast(a);
      AllButLast(b);
      PlacesAreCanonical(Front(a), Front(b));
    }
  }

  lemma AllButLast(a: seq<Run>)
    requires ByPlace(a) && a != []
    ensures forall x :: x in Front(a) <==> x in a && x != Last(a)
  {
    assert a == Front(a) + [Last(a)];
    forall x | x in Front(a)
      ensures x != Last(a)
    {
      BelowLast(a, x);
    }
  }

  lemma SameIndexSameRun(a: seq<Run>, x: Run, y: Run)
    requires ByPlace(a) && x in a && y in a && x.index == y.index
    ensures x == y
  {
  }

  // ----- The cohort -----

  /** The cohort of some trials, or None where any trial is refused. */
  ghost function CohortOf(plan: Cohort, trials: seq<Member>): Option<Cohort>
  {
    if Admitted(plan, trials) then Some(plan.(runs := SortRuns(trials))) else None
  }

  method SubsetOf(a: seq<string>, b: seq<string>) returns (ok: bool)
    ensures ok <==> Subset(a, b)
  {
    for i := 0 to |a|
      invariant forall j :: 0 <= j < i ==> a[j] in b
    {
      if a[i] !in b {
        return false;
      }
    }
    return true;
  }

  method IsOrdered(s: seq<string>) returns (ok: bool)
    ensures ok <==> Ordered(s)
  {
    if s == [] {
      return true;
    }
    for i := 1 to |s|
      invariant Ordered(s[..i])
    {
      assert s[..i + 1] == s[..i] + [s[i]];
      if Before(s[i], s[i - 1]) {
        return false;
      }
      forall j | 0 <= j < i
        ensures !Before(s[i], s[j])
      {
        assert j < i - 1 ==> !Before(s[..i][i - 1], s[..i][j]);
        BeforeIsTotal(s[j], s[i - 1]);
        if Before(s[i], s[j]) && Before(s[j], s[i - 1]) {
          BeforeIsTransitive(s[i], s[j], s[i - 1]);
        }
      }
    }
    assert s[..|s|] == s;
    return true;
  }

  method CheckFaults(arm: Arm, selected: seq<string>, available: seq<string>, observed: seq<string>) returns (ok: bool)
    ensures ok <==> FaultsSane(arm, selected, available, observed)
  {
    var ordered := IsOrdered(observed);
    var known := SubsetOf(observed, available);
    return ordered && known && (arm == Baseline <==> selected == []);
  }

  /** The loop of `campaign_cohort_v0` over the trials, for a plan already found in order. */
  method BuildCohort(plan: Cohort, trials: seq<Member>) returns (cohort: Option<Cohort>)
    requires PlanOk(plan)
    ensures cohort == CohortOf(plan, trials)
  {
    var runIds: set<string>, indexes: set<nat> := {}, {};
    var ok := true;
    for i := 0 to |trials|
      invariant runIds == set j | 0 <= j < i :: trials[j].run.runId
      invariant indexes == set j | 0 <= j < i :: trials[j].run.index
      invariant ok <==> Apart(trials[..i]) && forall j :: 0 <= j < i ==> Joins(plan, trials[j])
    {
      var m := trials[i];
      var sane := CheckFaults(m.arm, m.selected, m.available, m.run.observed);
      var fits := sane && m.campaignId == plan.campaignId && m.arm == plan.arm && m.scenario == plan.scenario
        && m.agent == plan.agent && m.available == plan.available && m.selected == plan.selected
        && m.planned == plan.planned && m.run.index < plan.planned;
      ApartExtends(trials, i);
      ok := ok && fits && m.run.runId !in runIds && m.run.index !in indexes;
      runIds, indexes := runIds + {m.run.runId}, indexes + {m.run.index};
    }
    assert trials[..|trials|] == trials;
    if !ok {
      return None;
    }
    var runs := [];
    for i := 0 to |trials|
      invariant runs == SortRuns(trials[..i])
    {
      assert Front(trials[..i + 1]) == trials[..i];
      runs := InsertRun(runs, trials[i].run);
    }
    return Some(plan.(runs := runs));
  }

  lemma ApartExtends(trials: seq<Member>, i: nat)
    requires i < |trials|
    ensures Apart(trials[..i + 1]) <==>
            && Apart(trials[..i])
            && forall j :: 0 <= j < i ==> trials[j].run.runId != trials[i].run.runId && trials[j].run.index != trials[i].run.index
  {
    var upTo := trials[..i + 1];
    assert forall j :: 0 <= j <= i ==> upTo[j] == trials[j];
    if Apart(upTo) {
      forall j, k | 0 <= j < k < i
        ensures trials[..i][j].run.runId != trials[..i][k].run.runId && trials[..i][j].run.index != trials[..i][k].run.index
      {
        assert upTo[j] == trials[..i][j] && upTo[k] == trials[..i][k];
      }
      forall j | 0 <= j < i
        ensures trials[j].run.runId != trials[i].run.runId && trials[j].run.index != trials[i].run.index
      {
        assert upTo[j] == trials[j] && upTo[i] == trials[i];
      }
    }
  }

  // ----- Order of arrival -----

  lemma OnceEach(trials: seq<Member>)
    ensures Apart(trials) <==>
            && (forall m :: m in trials ==> multiset(trials)[m] == 1)
            && (forall m, n :: m in trials && n in trials && m != n ==> m.run.runId != n.run.runId && m.run.index != n.run.index)
  {
    if Apart(trials) {
      forall m | m in trials
        ensures multiset(trials)[m] == 1
      {
        OnceIn(trials, m);
      }
    } else {
      var i, j :| 0 <= i < j < |trials|
        && !(trials[i].run.runId != trials[j].run.runId && trials[i].run.index != trials[j].run.index);
      if trials[i] == trials[j] {
        TwiceIn(trials, i, j);
      }
    }
  }

  lemma OnceIn(trials: seq<Member>, m: Member)
    requires Apart(trials) && m in trials
    ensures multiset(trials)[m] == 1
  {
    var i :| 0 <= i < |trials| && trials[i] == m;
    assert trials == trials[..i] + [m] + trials[i + 1..];
    assert m !in trials[..i] && m !in trials[i + 1..];
    assert multiset(trials) == multiset(trials[..i]) + multiset{m} + multiset(trials[i + 1..]);
  }

  lemma TwiceIn(trials: seq<Member>, i: nat, j: nat)
    requires i < j < |trials| && trials[i] == trials[j]
    ensures multiset(trials)[trials[i]] >= 2
  {
    var m := trials[i];
    assert trials == trials[..i] + [m] + trials[i + 1..j] + [m] + trials[j + 1..];
    assert multiset(trials) == multiset(trials[..i]) + multiset{m} + multiset(trials[i + 1..j]) + multiset{m}
                               + multiset(trials[j + 1..]);
  }

  /** The cohort does not depend on the order its trials arrive in. */
  lemma ArrivalOrderDoesNotMatter(plan: Cohort, trials: seq<Member>, others: seq<Member>)
    requires multiset(trials) == multiset(others)
    ensures CohortOf(plan, trials) == CohortOf(plan, others)
  {
    forall m
      ensures m in trials <==> m in others
    {
      assert m in multiset(trials) <==> m in multiset(others);
    }
    OnceEach(trials);
    OnceEach(others);
    if Admitted(plan, trials) {
      SortPlaces(trials);
      SortPlaces(others);
      PlacesAreCanonical(SortRuns(trials), SortRuns(others));
    }
  }
}
