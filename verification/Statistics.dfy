/** Campaign statistics and comparisons: what the generator writes, and what the validators recompute. */
module Statistics {
  import opened Prelude
  import opened Texts
  import opened Reliability
  import P = Pairs
  import opened Cohorts

  datatype ObservedCondition =
    | NotApplicable
    | Conditioned(empty: bool, unobserved: int, counts: Counts, rate: Rate, rows: seq<Row>)

  /** The document: its membership (all of it digested into the identity) and what is derived. */
  datatype Document = Document(cohort: Cohort, counts: Counts, rate: Rate, rows: seq<Row>,
                               observed: ObservedCondition, warnings: set<string>, id: string)

  /** The arithmetic and the digest both sides use. */
  datatype Tools = Tools(arithmetic: Arithmetic, identity: Cohort -> string,
                         comparison: (Document, Document, P.Paired) -> string)

  // ----- What is derived from the membership -----

  function IndexedRuns(runs: seq<Run>): seq<Indexed>
  {
    seq(|runs|, i requires 0 <= i < |runs| => Indexed(runs[i].index, runs[i].classification))
  }

  predicate Observes(run: Run, selected: seq<string>)
  {
    forall x :: x in selected ==> x in run.observed
  }

  function ObservedRuns(runs: seq<Run>, selected: seq<string>): seq<Run>
  {
    if runs == [] then []
    else ObservedRuns(Front(runs), selected) + (if Observes(Last(runs), selected) then [Last(runs)] else [])
  }

  predicate KsOk(ks: seq<nat>)
  {
    && (forall i :: 0 <= i < |ks| ==> ks[i] > 0)
    && (forall i, j :: 0 <= i < j < |ks| ==> ks[i] < ks[j])
  }

  function RowsOf(a: Arithmetic, trials: seq<Indexed>, planned: nat, ks: seq<nat>): seq<Row>
    requires forall i :: 0 <= i < |ks| ==> ks[i] > 0
  {
    seq(|ks|, i requires 0 <= i < |ks| => RowOf(a, trials, planned, ks[i]))
  }

  function AllWarnings(rows: seq<Row>): set<string>
  {
    if rows == [] then {} else AllWarnings(Front(rows)) + RowWarnings(Last(rows))
  }

  /** `_count_warnings`. */
  function CountWarnings(c: Counts): set<string>
  {
    (if c.valid == 0 then {"no_valid_evaluations"} else if c.valid < SMALL_SAMPLE then {"small_sample"} else {})
    + (if c.invalid > 0 then {"invalid_evaluations_present"} else {})
  }

  function ConditionOf(a: Arithmetic, cohort: Cohort, ks: seq<nat>): ObservedCondition
    requires KsOk(ks)
  {
    if cohort.selected == [] then NotApplicable
    else
      var seen := ObservedRuns(cohort.runs, cohort.selected);
      var trials := IndexedRuns(seen);
      var counts := CountsOf(trials);
      Conditioned(seen == [], |cohort.runs| - |seen|, counts, BinomialRate(a, counts.passed, counts.valid),
                  RowsOf(a, trials, cohort.planned, ks))
  }

  function ConditionWarnings(cohort: Cohort, condition: ObservedCondition): set<string>
  {
    if condition.NotApplicable? then {}
    else
      AllWarnings(condition.rows)
      + (if condition.empty then {"observed_fault_condition_empty"} else {})
      + (if condition.unobserved != 0 then {"unobserved_fault_trials"} else {})
  }

  function WarningsOf(cohort: Cohort, counts: Counts, rows: seq<Row>, condition: ObservedCondition): set<string>
  {
    CountWarnings(counts)
    + (if |cohort.runs| != cohort.planned then {"missing_planned_trials"} else {})
    + AllWarnings(rows) + ConditionWarnings(cohort, condition)
  }

  /** The one document a membership and its ks determine. */
  function DocumentOf(t: Tools, cohort: Cohort, ks: seq<nat>): Document
    requires KsOk(ks)
  {
    var trials := IndexedRuns(cohort.runs);
    var counts := CountsOf(trials);
    var rows, condition := RowsOf(t.arithmetic, trials, cohort.planned, ks), ConditionOf(t.arithmetic, cohort, ks);
    Document(cohort, counts, BinomialRate(t.arithmetic, counts.passed, counts.valid), rows, condition,
             WarningsOf(cohort, counts, rows, condition), t.identity(cohort))
  }

  // ----- The generator -----

  lemma OneMoreRow(rows: seq<Row>, row: Row)
    ensures AllWarnings(rows + [row]) == AllWarnings(rows) + RowWarnings(row)
  {
    assert Front(rows + [row]) == rows;
  }

  lemma RowsNext(a: Arithmetic, trials: seq<Indexed>, planned: nat, ks: seq<nat>, i: nat)
    requires KsOk(ks) && i < |ks|
    ensures RowsOf(a, trials, planned, ks[..i + 1]) == RowsOf(a, trials, planned, ks[..i]) + [RowOf(a, trials, planned, ks[i])]
  {
  }

  method BuildRows(a: Arithmetic, trials: seq<Indexed>, planned: nat, ks: seq<nat>, warnings: set<string>)
    returns (rows: seq<Row>, warnings': set<string>)
    requires KsOk(ks)
    ensures rows == RowsOf(a, trials, planned, ks) && warnings' == warnings + AllWarnings(rows)
  {
    rows, warnings' := [], warnings;
    for i := 0 to |ks|
      invariant rows == RowsOf(a, trials, planned, ks[..i])
      invariant warnings' == warnings + AllWarnings(rows)
    {
      var row;
      row, warnings' := ReliabilityOf(a, trials, planned, ks[i], warnings');
      OneMoreRow(rows, row);
      RowsNext(a, trials, planned, ks, i);
      rows := rows + [row];
    }
    assert ks[..|ks|] == ks;
  }

  method FindObserved(runs: seq<Run>, selected: seq<string>) returns (seen: seq<Run>)
    ensures seen == ObservedRuns(runs, selected)
  {
    seen := [];
    for i := 0 to |runs|
      invariant seen == ObservedRuns(runs[..i], selected)
    {
      assert Front(runs[..i + 1]) == runs[..i];
      if Observes(runs[i], selected) {
        seen := seen + [runs[i]];
      }
    }
    assert runs[..|runs|] == runs;
  }

  method BuildCondition(a: Arithmetic, cohort: Cohort, ks: seq<nat>, warnings: set<string>)
    returns (condition: ObservedCondition, warnings': set<string>)
    requires KsOk(ks)
    ensures condition == ConditionOf(a, cohort, ks) && warnings' == warnings + ConditionWarnings(cohort, condition)
  {
    if cohort.selected == [] {
      return NotApplicable, warnings;
    }
    var seen := FindObserved(cohort.runs, cohort.selected);
    var counts := CountsOf(IndexedRuns(seen));
    var rows;
    rows, warnings' := BuildRows(a, IndexedRuns(seen), cohort.planned, ks, warnings);
    condition := Conditioned(seen == [], |cohort.runs| - |seen|, counts, BinomialRate(a, counts.passed, counts.valid), rows);
    var empty := if seen == [] then {"observed_fault_condition_empty"} else {};
    var unobserved := if |seen| != |cohort.runs| then {"unobserved_fault_trials"} else {};
    Unions(warnings, AllWarnings(rows), empty, unobserved);
    warnings' := warnings' + empty + unobserved;
  }

  lemma Unions(w: set<string>, a: set<string>, b: set<string>, c: set<string>)
    ensures w + a + b + c == w + (a + b + c)
  {
  }

  /** `_statistics_document`. */
  method BuildDocument(t: Tools, cohort: Cohort, ks: seq<nat>) returns (document: Document)
    requires KsOk(ks)
    ensures document == DocumentOf(t, cohort, ks)
  {
    var trials := IndexedRuns(cohort.runs);
    var counts := CountsOf(trials);
    var warnings := CountWarnings(counts) + (if |cohort.runs| != cohort.planned then {"missing_planned_trials"} else {});
    var rows, condition;
    rows, warnings := BuildRows(t.arithmetic, trials, cohort.planned, ks, warnings);
    condition, warnings := BuildCondition(t.arithmetic, cohort, ks, warnings);
    return Document(cohort, counts, BinomialRate(t.arithmetic, counts.passed, counts.valid), rows, condition, warnings,
                    t.identity(cohort));
  }

  // ----- The validator -----

  /** What the validator asks of the membership itself. */
  ghost predicate MembershipOk(c: Cohort)
  {
    && (forall i, j :: 0 <= i < j < |c.runs| ==> c.runs[i].runId != c.runs[j].runId)
    && ByPlace(c.runs)
    && Ordered(c.available) && Subset(c.selected, c.available) && Ordered(c.selected)
    && (c.arm == Baseline <==> c.selected == [])
    && (forall r :: r in c.runs ==> Ordered(r.observed) && Subset(r.observed, c.available) && r.index < c.planned)
  }

  function Ks(rows: seq<Row>): seq<nat>
  {
    seq(|rows|, i requires 0 <= i < |rows| => rows[i].k)
  }

  /** The document is exactly what its membership determines. */
  ghost predicate DocumentOk(t: Tools, d: Document)
  {
    MembershipOk(d.cohort) && KsOk(Ks(d.rows)) && d == DocumentOf(t, d.cohort, Ks(d.rows))
  }

  method CheckMembership(c: Cohort) returns (ok: bool)
    ensures ok <==> MembershipOk(c)
  {
    var available := IsOrdered(c.available);
    var selected := IsOrdered(c.selected);
    var subset := SubsetOf(c.selected, c.available);
    ok := available && selected && subset && (c.arm == Baseline <==> c.selected == []);
    ghost var plan := ok;
    var runIds: set<string> := {};
    for i := 0 to |c.runs|
      invariant runIds == set j | 0 <= j < i :: c.runs[j].runId
      invariant ok <==> plan && MembersUpTo(c, i)
    {
      var r := c.runs[i];
      var ordered := IsOrdered(r.observed);
      var known := SubsetOf(r.observed, c.available);
      PlacesExtend(c, i);
      ok := ok && ordered && known && r.index < c.planned && r.runId !in runIds
        && (i == 0 || c.runs[i - 1].index < r.index);
      runIds := runIds + {r.runId};
    }
  }

  ghost predicate MembersUpTo(c: Cohort, n: nat)
    requires n <= |c.runs|
  {
    && (forall i, j :: 0 <= i < j < n ==> c.runs[i].runId != c.runs[j].runId && c.runs[i].index < c.runs[j].index)
    && (forall i :: 0 <= i < n ==>
          Ordered(c.runs[i].observed) && Subset(c.runs[i].observed, c.available) && c.runs[i].index < c.planned)
  }

  lemma PlacesExtend(c: Cohort, i: nat)
    requires i < |c.runs|
    ensures MembersUpTo(c, i + 1) <==>
            && MembersUpTo(c, i)
            && Ordered(c.runs[i].observed) && Subset(c.runs[i].observed, c.available) && c.runs[i].index < c.planned
            && (forall j :: 0 <= j < i ==> c.runs[j].runId != c.runs[i].runId)
            && (i == 0 || c.runs[i - 1].index < c.runs[i].index)
  {
  }

  /** `_statistics_semantic_errors`: everything derived is recomputed and compared. */
  method ValidateDocument(t: Tools, d: Document) returns (ok: bool)
    ensures ok <==> DocumentOk(t, d)
  {
    ok := CheckMembership(d.cohort);
    var ks := Ks(d.rows);
    if !KsOk(ks) {
      return false;
    }
    var cohort, trials := d.cohort, IndexedRuns(d.cohort.runs);
    var counts := CountsOf(trials);
    if d.counts != counts || d.rate != BinomialRate(t.arithmetic, counts.passed, counts.valid) {
      return false;
    }
    var warnings := CountWarnings(counts) + (if |cohort.runs| != cohort.planned then {"missing_planned_trials"} else {});
    var rows, condition;
    rows, warnings := BuildRows(t.arithmetic, trials, cohort.planned, ks, warnings);
    condition, warnings := BuildCondition(t.arithmetic, cohort, ks, warnings);
    return ok && d.rows == rows && d.observed == condition && d.warnings == warnings && d.id == t.identity(cohort);
  }

  // ----- Generator and validator agree -----

  /** Every document the generator builds, of any admitted cohort, passes the validator; and every document
      the validator passes is one the generator builds from its membership. */
  lemma GeneratedDocumentsAreValid(t: Tools, plan: Cohort, trials: seq<Member>, ks: seq<nat>)
    requires CohortOf(plan, trials).Some? && KsOk(ks)
    ensures DocumentOk(t, DocumentOf(t, CohortOf(plan, trials).value, ks))
  {
    var cohort := CohortOf(plan, trials).value;
    SortPlaces(trials);
    CohortIsMembership(plan, trials);
    assert Ks(RowsOf(t.arithmetic, IndexedRuns(cohort.runs), cohort.planned, ks)) == ks;
  }

  lemma CohortIsMembership(plan: Cohort, trials: seq<Member>)
    requires CohortOf(plan, trials).Some?
    ensures MembershipOk(CohortOf(plan, trials).value)
  {
    var c := CohortOf(plan, trials).value;
    SortPlaces(trials);
    forall i, j | 0 <= i < j < |c.runs|
      ensures c.runs[i].runId != c.runs[j].runId
    {
      assert c.runs[i] in c.runs && c.runs[j] in c.runs && c.runs[i].index < c.runs[j].index;
      var m :| m in trials && m.run == c.runs[i];
      var n :| n in trials && n.run == c.runs[j];
      OnceEach(trials);
    }
    forall r | r in c.runs
      ensures Ordered(r.observed) && Subset(r.observed, c.available) && r.index < c.planned
    {
      var m :| m in trials && m.run == r;
      assert Joins(plan, m);
    }
  }

  // ----- What an accepted document accounts for -----

  lemma {:induction false} PlacesFit(runs: seq<Run>, planned: nat)
    requires ByPlace(runs) && forall r :: r in runs ==> r.index < planned
    ensures |runs| <= planned
  {
    if runs != [] {
      var before, last := Front(runs), Last(runs);
      forall r | r in before
        ensures r.index < last.index
      {
        var i :| 0 <= i < |before| && before[i] == r;
      }
      PlacesFit(before, last.index);
    }
  }

  lemma RowIsRecomputed(t: Tools, d: Document, i: nat)
    requires DocumentOk(t, d) && i < |d.rows|
    ensures d.counts == CountsOf(IndexedRuns(d.cohort.runs)) && d.rows[i].k > 0
    ensures d.rows[i] == RowOf(t.arithmetic, IndexedRuns(d.cohort.runs), d.cohort.planned, d.rows[i].k)
  {
    assert Ks(d.rows)[i] == d.rows[i].k;
  }

  /** No run is lost in an accepted document: every run is valid or invalid, every valid run passed or
      failed, and there are no more runs than planned places. */
  lemma AcceptedCountsAreConserved(t: Tools, d: Document)
    requires DocumentOk(t, d)
    ensures d.counts.total == |d.cohort.runs| <= d.cohort.planned
    ensures d.counts.total == d.counts.valid + d.counts.invalid && d.counts.valid == d.counts.passed + d.counts.failed
  {
    PlacesFit(d.cohort.runs, d.cohort.planned);
    CountsPartition(IndexedRuns(d.cohort.runs));
  }

  /** In every row of an accepted document pass@k is taken over the valid runs counted, and each planned
      place is in a valid, an invalid or a missing group or among those discarded. */
  lemma AcceptedRowsAreConserved(t: Tools, d: Document, i: nat)
    requires DocumentOk(t, d) && i < |d.rows|
    ensures d.rows[i].passAt.n == d.counts.valid && d.rows[i].passAt.successes == d.counts.passed
    ensures var p := d.rows[i].passPower;
            && p.complete == p.valid + p.invalid + p.missing
            && d.rows[i].k * p.complete + p.discarded == d.cohort.planned
  {
    RowIsRecomputed(t, d, i);
    GroupsAreConserved(t.arithmetic, IndexedRuns(d.cohort.runs), d.cohort.planned, d.rows[i].k);
  }

  // ----- Comparisons -----

  datatype Comparison = Comparison(baseline: Document, faulted: Document, paired: P.Paired, warnings: set<string>, id: string)

  function TrialsOf(runs: seq<Run>): seq<P.Trial>
  {
    seq(|runs|, i requires 0 <= i < |runs| => P.Trial(runs[i].index, runs[i].classification, ToSet(runs[i].observed)))
  }

  function RunIds(runs: seq<Run>): set<string>
  {
    set r | r in runs :: r.runId
  }

  /** The two arms may be compared. */
  predicate Comparable(b: Cohort, f: Cohort)
  {
    && b.arm == Baseline && f.arm == Faulted
    && b.campaignId != f.campaignId
    && b.scenario == f.scenario && b.agent == f.agent && b.available == f.available && b.planned == f.planned
    && RunIds(b.runs) !! RunIds(f.runs)
  }

  function PairedDocument(a: Arithmetic, b: Cohort, f: Cohort): P.Paired
  {
    P.PairedOf(a, P.Table(TrialsOf(b.runs)), P.Table(TrialsOf(f.runs)), ToSet(f.selected))
  }

  function ComparisonOf(t: Tools, b: Document, f: Document): Comparison
  {
    var paired := PairedDocument(t.arithmetic, b.cohort, f.cohort);
    Comparison(b, f, paired, b.warnings + f.warnings + paired.warnings, t.comparison(b, f, paired))
  }

  /** `compare_campaigns_v0`. */
  method BuildComparison(t: Tools, baseline: Cohort, faulted: Cohort, ks: seq<nat>) returns (comparison: Option<Comparison>)
    requires KsOk(ks)
    ensures comparison.Some? <==> Comparable(baseline, faulted)
    ensures comparison.Some? ==>
              comparison.value == ComparisonOf(t, DocumentOf(t, baseline, ks), DocumentOf(t, faulted, ks))
  {
    if !Comparable(baseline, faulted) {
      return None;
    }
    var b := BuildDocument(t, baseline, ks);
    var f := BuildDocument(t, faulted, ks);
    var paired := P.PairRows(t.arithmetic, TrialsOf(baseline.runs), TrialsOf(faulted.runs), ToSet(faulted.selected));
    return Some(Comparison(b, f, paired, b.warnings + f.warnings + paired.warnings, t.comparison(b, f, paired)));
  }

  ghost predicate ComparisonOk(t: Tools, c: Comparison)
  {
    && DocumentOk(t, c.baseline) && DocumentOk(t, c.faulted)
    && Comparable(c.baseline.cohort, c.faulted.cohort)
    && c == ComparisonOf(t, c.baseline, c.faulted)
  }

  /** `_comparison_semantic_errors`. */
  method ValidateComparison(t: Tools, c: Comparison) returns (ok: bool)
    ensures ok <==> ComparisonOk(t, c)
  {
    var b := ValidateDocument(t, c.baseline);
    var f := ValidateDocument(t, c.faulted);
    if !b || !f {
      return false;
    }
    var left, right := c.baseline.cohort, c.faulted.cohort;
    var paired := P.PairRows(t.arithmetic, TrialsOf(left.runs), TrialsOf(right.runs), ToSet(right.selected));
    return Comparable(left, right) && c.paired == paired && c.id == t.comparison(c.baseline, c.faulted, c.paired)
        && c.warnings == c.baseline.warnings + c.faulted.warnings + c.paired.warnings;
  }

  /** Every comparison the generator builds of two admitted cohorts passes the validator, whatever order
      the trials of either arm arrived in. */
  lemma GeneratedComparisonsAreValid(t: Tools, plan: Cohort, plan': Cohort, b: seq<Member>, f: seq<Member>,
                                     b': seq<Member>, f': seq<Member>, ks: seq<nat>)
    requires KsOk(ks) && multiset(b) == multiset(b') && multiset(f) == multiset(f')
    requires CohortOf(plan, b).Some? && CohortOf(plan', f).Some?
    requires Comparable(CohortOf(plan, b).value, CohortOf(plan', f).value)
    ensures CohortOf(plan, b') == CohortOf(plan, b) && CohortOf(plan', f') == CohortOf(plan', f)
    ensures ComparisonOk(t, ComparisonOf(t, DocumentOf(t, CohortOf(plan, b).value, ks), DocumentOf(t, CohortOf(plan', f).value, ks)))
  {
    ArrivalOrderDoesNotMatter(plan, b, b');
    ArrivalOrderDoesNotMatter(plan', f, f');
    GeneratedDocumentsAreValid(t, plan, b, ks);
    GeneratedDocumentsAreValid(t, plan', f, ks);
  }
}
