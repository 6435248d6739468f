/** Counts, pass@k and predetermined groups of one set of indexed trials. */
module Reliability {
  import opened Prelude
  import W = Wilson
  import K = PassAtK
  import E = Classifications

  type Classification = E.Classification

  const SMALL_SAMPLE: nat := 30

  /** One trial's planned place and its classification. */
  datatype Indexed = Indexed(index: nat, classification: Classification)

  // ----- Counts -----

  datatype Counts = Counts(total: nat, valid: nat, passed: nat, failed: nat, invalid: nat)

  function CountOf(trials: seq<Indexed>, c: Classification): nat
  {
    if trials == [] then 0 else CountOf(Front(trials), c) + (if Last(trials).classification == c then 1 else 0)
  }

  /** `_counts`. */
  function CountsOf(trials: seq<Indexed>): Counts
  {
    var passed, failed := CountOf(trials, E.Passed), CountOf(trials, E.Failed);
    Counts(|trials|, passed + failed, passed, failed, CountOf(trials, E.Invalid))
  }

  lemma {:induction false} CountsPartition(trials: seq<Indexed>)
    ensures var c := CountsOf(trials); c.total == c.valid + c.invalid && c.valid == c.passed + c.failed
  {
    if trials != [] {
      CountsPartition(Front(trials));
    }
  }

  // ----- Rates -----

  /** How a fraction and a Wilson interval are printed, in units of the twelfth decimal place. */
  datatype Arithmetic = Arithmetic(ratio: (int, nat) -> int, wilson: (nat, nat) -> (int, int))

  /** `_fraction_decimal`: rounded half to even. */
  ghost predicate PrintsRatios(a: Arithmetic)
  {
    forall n, d :: d > 0 ==> a.ratio(n, d) == W.Quantised(n as real / d as real)
  }

  /** `_wilson`, computed with a given square root. */
  ghost predicate PrintsIntervals(a: Arithmetic, sqrt: real -> real)
  {
    forall s, n :: n > 0 && s <= n ==>
      var i := W.WilsonInterval(s, n, sqrt(W.Radicand(s, n)));
      a.wilson(s, n) == (W.Quantised(i.lower), W.Quantised(i.upper))
  }

  /** A rate with its estimate and its interval as printed. */
  datatype Rate = NoRate | Rate(n: nat, successes: nat, estimate: int, lower: int, upper: int)

  /** `_binomial_rate`. */
  function BinomialRate(a: Arithmetic, successes: nat, n: nat): Rate
  {
    if n == 0 then NoRate
    else Rate(n, successes, a.ratio(successes, n), a.wilson(successes, n).0, a.wilson(successes, n).1)
  }

  // ----- Groups -----

  function ByIndex(trials: seq<Indexed>): map<nat, Classification>
  {
    if trials == [] then map[] else ByIndex(Front(trials))[Last(trials).index := Last(trials).classification]
  }

  datatype GroupKind = MissingGroup | InvalidGroup | FailedGroup | SuccessfulGroup

  /** The group of the k planned places from `first` on. */
  function KindOf(table: map<nat, Classification>, first: nat, k: nat): GroupKind
  {
    if exists i :: first <= i < first + k && i !in table then MissingGroup
    else if exists i :: first <= i < first + k && i in table && table[i] == E.Invalid then InvalidGroup
    else if exists i :: first <= i < first + k && i in table && table[i] != E.Passed then FailedGroup
    else SuccessfulGroup
  }

  function GroupCount(table: map<nat, Classification>, k: nat, groups: nat, kind: GroupKind): nat
  {
    if groups == 0 then 0
    else GroupCount(table, k, groups - 1, kind) + (if KindOf(table, (groups - 1) * k, k) == kind then 1 else 0)
  }

  datatype PassAt = PassAt(n: nat, successes: nat, estimate: Option<int>)

  datatype PassPower = PassPower(complete: nat, valid: nat, successful: nat, invalid: nat, missing: nat,
                                 discarded: nat, rate: Rate)

  datatype Row = Row(k: nat, passAt: PassAt, passPower: PassPower)

  function PassAtOf(a: Arithmetic, n: nat, passed: nat, k: nat): PassAt
    requires passed <= n
  {
    PassAt(n, passed, if k > n then None else Some(a.ratio(K.Numerator(n, passed, k), K.Comb(n, k))))
  }

  /** `_reliability`, without its warnings. */
  function RowOf(a: Arithmetic, trials: seq<Indexed>, planned: nat, k: nat): Row
    requires k > 0
  {
    var counts, table, groups := CountsOf(trials), ByIndex(trials), planned / k;
    var successful := GroupCount(table, k, groups, SuccessfulGroup);
    var valid := successful + GroupCount(table, k, groups, FailedGroup);
    Row(k, PassAtOf(a, counts.valid, counts.passed, k),
        PassPower(groups, valid, successful, GroupCount(table, k, groups, InvalidGroup),
                  GroupCount(table, k, groups, MissingGroup), planned % k, BinomialRate(a, successful, valid)))
  }

  function RowWarnings(row: Row): set<string>
  {
    (if row.passAt.estimate.None? then {"insufficient_pass_at_k_samples"} else {})
    + (if row.passPower.discarded > 0 then {"incomplete_pass_power_group"} else {})
    + (if row.passPower.invalid > 0 then {"invalid_pass_power_groups"} else {})
    + (if row.passPower.missing > 0 then {"missing_pass_power_groups"} else {})
  }

  method CountTrials(trials: seq<Indexed>) returns (table: map<nat, Classification>, n: nat, passed: nat)
    ensures table == ByIndex(trials) && n == CountsOf(trials).valid && passed == CountsOf(trials).passed
  {
    table, n, passed := map[], 0, 0;
    for i := 0 to |trials|
      invariant table == ByIndex(trials[..i])
      invariant n == CountOf(trials[..i], E.Passed) + CountOf(trials[..i], E.Failed) && passed == CountOf(trials[..i], E.Passed)
    {
      assert Front(trials[..i + 1]) == trials[..i];
      table := table[trials[i].index := trials[i].classification];
      n := n + (if trials[i].classification != E.Invalid then 1 else 0);
      passed := passed + (if trials[i].classification == E.Passed then 1 else 0);
    }
    assert trials[..|trials|] == trials;
  }

  method CountGroups(table: map<nat, Classification>, k: nat, complete: nat)
    returns (valid: nat, successful: nat, invalid: nat, missing: nat)
    ensures successful == GroupCount(table, k, complete, SuccessfulGroup)
    ensures valid == successful + GroupCount(table, k, complete, FailedGroup)
    ensures invalid == GroupCount(table, k, complete, InvalidGroup)
    ensures missing == GroupCount(table, k, complete, MissingGroup)
  {
    valid, successful, invalid, missing := 0, 0, 0, 0;
    for group := 0 to complete
      invariant successful == GroupCount(table, k, group, SuccessfulGroup)
      invariant valid == successful + GroupCount(table, k, group, FailedGroup)
      invariant invalid == GroupCount(table, k, group, InvalidGroup)
      invariant missing == GroupCount(table, k, group, MissingGroup)
    {
      match KindOf(table, group * k, k) {
        case MissingGroup => missing := missing + 1;
        case InvalidGroup => invalid := invalid + 1;
        case FailedGroup => valid := valid + 1;
        case SuccessfulGroup => valid, successful := valid + 1, successful + 1;
      }
    }
  }

  /** `_reliability`: the row, and the warnings added to the caller's. */
  method ReliabilityOf(a: Arithmetic, trials: seq<Indexed>, planned: nat, k: nat, warnings: set<string>)
    returns (row: Row, warnings': set<string>)
    requires k > 0
    ensures row == RowOf(a, trials, planned, k) && warnings' == warnings + RowWarnings(row)
  {
    var table, n, passed := CountTrials(trials);
    var valid, successful, invalid, missing := CountGroups(table, k, planned / k);
    row := Row(k, PassAtOf(a, n, passed, k),
               PassPower(planned / k, valid, successful, invalid, missing, planned % k, BinomialRate(a, successful, valid)));
    warnings' := warnings + RowWarnings(row);
  }

  lemma {:induction false} GroupsPartition(table: map<nat, Classification>, k: nat, groups: nat)
    ensures groups == GroupCount(table, k, groups, MissingGroup) + GroupCount(table, k, groups, InvalidGroup)
                    + GroupCount(table, k, groups, FailedGroup) + GroupCount(table, k, groups, SuccessfulGroup)
  {
    if groups > 0 {
      GroupsPartition(table, k, groups - 1);
    }
  }

  /** Every planned place is in a complete group or discarded, and every complete group is valid, invalid
      or missing. */
  lemma GroupsAreConserved(a: Arithmetic, trials: seq<Indexed>, planned: nat, k: nat)
    requires k > 0
    ensures var p := RowOf(a, trials, planned, k).passPower;
            && k * p.complete + p.discarded == planned && p.discarded < k
            && p.complete == p.valid + p.invalid + p.missing
            && p.successful <= p.valid
  {
    GroupsPartition(ByIndex(trials), k, planned / k);
    DivMod(planned, k);
  }

  lemma DivMod(n: nat, k: nat)
    requires k > 0
    ensures k * (n / k) + n % k == n && n % k < k
  {
  }

  // ----- Groups of one -----

  ghost predicate Places(trials: seq<Indexed>, planned: nat)
  {
    && (forall i, j :: 0 <= i < j < |trials| ==> trials[i].index != trials[j].index)
    && (forall t :: t in trials ==> t.index < planned)
  }

  ghost function PlacesOf(table: map<nat, Classification>, c: Classification): set<nat>
  {
    set i | i in table && table[i] == c
  }

  lemma {:induction false} TableMembers(trials: seq<Indexed>)
    ensures forall i :: i in ByIndex(trials) <==> exists t :: t in trials && t.index == i
  {
    if trials != [] {
      TableMembers(Front(trials));
      assert trials == Front(trials) + [Last(trials)];
    }
  }

  lemma LastIsNew(trials: seq<Indexed>, planned: nat)
    requires trials != [] && Places(trials, planned)
    ensures Places(Front(trials), planned) && Last(trials).index !in ByIndex(Front(trials))
  {
    TableMembers(Front(trials));
    forall t | t in Front(trials)
      ensures t.index != Last(trials).index && t.index < planned
    {
      var i :| 0 <= i < |trials| - 1 && trials[i] == t;
      assert trials[i] in trials;
    }
  }

  lemma {:induction false} TableCounts(trials: seq<Indexed>, planned: nat, c: Classification)
    requires Places(trials, planned)
    ensures |PlacesOf(ByIndex(trials), c)| == CountOf(trials, c)
  {
    if trials != [] {
      LastIsNew(trials, planned);
      TableCounts(Front(trials), planned, c);
      PlaceAdded(ByIndex(Front(trials)), Last(trials).index, Last(trials).classification, c);
    }
  }

  lemma PlaceAdded(table: map<nat, Classification>, i: nat, d: Classification, c: Classification)
    requires i !in table
    ensures |PlacesOf(table[i := d], c)| == |PlacesOf(table, c)| + (if d == c then 1 else 0)
  {
    assert PlacesOf(table[i := d], c) == PlacesOf(table, c) + (if d == c then {i} else {});
  }

  ghost function PlacesBelow(table: map<nat, Classification>, c: Classification, n: nat): set<nat>
  {
    set i | i in table && table[i] == c && i < n
  }

  lemma {:induction false} SingleGroups(table: map<nat, Classification>, n: nat)
    ensures GroupCount(table, 1, n, SuccessfulGroup) == |PlacesBelow(table, E.Passed, n)|
    ensures GroupCount(table, 1, n, FailedGroup) == |PlacesBelow(table, E.Failed, n)|
  {
    if n == 0 {
      assert PlacesBelow(table, E.Passed, 0) == {} && PlacesBelow(table, E.Failed, 0) == {};
    } else {
      SingleGroups(table, n - 1);
      OnePlaceMore(table, E.Passed, n - 1);
      OnePlaceMore(table, E.Failed, n - 1);
      SingleKind(table, n - 1);
      assert (n - 1) * 1 == n - 1;
    }
  }

  lemma OnePlaceMore(table: map<nat, Classification>, c: Classification, n: nat)
    ensures |PlacesBelow(table, c, n + 1)| == |PlacesBelow(table, c, n)| + (if n in table && table[n] == c then 1 else 0)
  {
    assert PlacesBelow(table, c, n + 1) == PlacesBelow(table, c, n) + (if n in table && table[n] == c then {n} else {});
  }

  lemma SingleKind(table: map<nat, Classification>, i: nat)
    ensures KindOf(table, i, 1) == SuccessfulGroup <==> i in table && table[i] == E.Passed
    ensures KindOf(table, i, 1) == FailedGroup <==> i in table && table[i] == E.Failed
  {
  }

  /** With groups of one, pass^1 is pass@1: the valid groups are the valid trials and the successful groups
      the passes, so both report the pass rate. */
  lemma OneIsThePassRate(a: Arithmetic, trials: seq<Indexed>, planned: nat)
    requires Places(trials, planned) && CountsOf(trials).valid > 0
    ensures var row, counts := RowOf(a, trials, planned, 1), CountsOf(trials);
            && row.passPower.valid == counts.valid && row.passPower.successful == counts.passed
            && row.passPower.rate == BinomialRate(a, counts.passed, counts.valid)
            && row.passAt.estimate == Some(row.passPower.rate.estimate)
  {
    PlacesCounted(trials, planned, E.Passed);
    PlacesCounted(trials, planned, E.Failed);
    SingleGroups(ByIndex(trials), planned);
    K.CombOne(CountsOf(trials).valid);
    K.CombOne(CountsOf(trials).valid - CountsOf(trials).passed);
  }

  lemma PlacesCounted(trials: seq<Indexed>, planned: nat, c: Classification)
    requires Places(trials, planned)
    ensures |PlacesBelow(ByIndex(trials), c, planned)| == CountOf(trials, c)
  {
    TableMembers(trials);
    TableCounts(trials, planned, c);
    assert PlacesBelow(ByIndex(trials), c, planned) == PlacesOf(ByIndex(trials), c);
  }

  /** Every printed rate encloses its estimate within [0, 1], given a square root that is one. */
  lemma RatesEnclose(a: Arithmetic, sqrt: real -> real, successes: nat, n: nat)
    requires PrintsRatios(a) && PrintsIntervals(a, sqrt)
    requires 0 < n && successes <= n && W.IsRoot(sqrt(W.Radicand(successes, n)), W.Radicand(successes, n))
    ensures var r := BinomialRate(a, successes, n);
            r.Rate? && 0 <= r.lower <= r.estimate <= r.upper <= W.SCALE
  {
    W.QuantisedEncloses(successes, n, sqrt(W.Radicand(successes, n)));
    assert a.ratio(successes, n) == W.Quantised(W.Share(successes, n));
    var i := W.WilsonInterval(successes, n, sqrt(W.Radicand(successes, n)));
    assert a.wilson(successes, n) == (W.Quantised(i.lower), W.Quantised(i.upper));
  }

  /** Every printed pass@k is the rounded estimate, within [0, 1]. */
  lemma PassAtIsEstimate(a: Arithmetic, n: nat, passed: nat, k: nat)
    requires PrintsRatios(a) && passed <= n && 0 < k <= n
    ensures K.Comb(n, k) > 0
    ensures PassAtOf(a, n, passed, k).estimate == Some(W.Quantised(K.Estimate(n, passed, k)))
    ensures 0 <= PassAtOf(a, n, passed, k).estimate.value <= W.SCALE
  {
    K.EstimateIsProbability(n, passed, k);
    W.QuantisedMonotone(0.0, K.Estimate(n, passed, k));
    W.QuantisedMonotone(K.Estimate(n, passed, k), 1.0);
    assert W.Quantised(0.0) == 0 && W.Quantised(1.0) == W.SCALE;
    assert a.ratio(K.Numerator(n, passed, k), K.Comb(n, k)) == W.Quantised(K.Estimate(n, passed, k));
  }
}
