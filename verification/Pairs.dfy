/** Baseline and faulted trials compared by planned place. */
module Pairs {
  import opened Prelude
  import W = Wilson
  import E = Classifications
  import opened Reliability

  datatype Trial = Trial(index: nat, classification: Classification, observed: set<string>)

  datatype SignedRate = NoSignedRate | SignedRate(numerator: int, denominator: nat, estimate: int)

  /** `_signed_rate`. */
  function SignedRateOf(a: Arithmetic, numerator: int, denominator: nat): SignedRate
  {
    if denominator == 0 then NoSignedRate else SignedRate(numerator, denominator, a.ratio(numerator, denominator))
  }

  datatype Paired = Paired(
    common: nat, valid: nat, invalid: nat, improved: nat, regressed: nat, steady: int,
    missingBaseline: set<nat>, missingFaulted: set<nat>, delta: SignedRate,
    observed: nat, observedImproved: nat, observedRegressed: nat, observedDelta: SignedRate,
    warnings: set<string>)

  function Table(trials: seq<Trial>): map<nat, Trial>
  {
    if trials == [] then map[] else Table(Front(trials))[Last(trials).index := Last(trials)]
  }

  // ----- Sets of places -----

  function Common(b: map<nat, Trial>, f: map<nat, Trial>): set<nat>
  {
    set i | i in b && i in f
  }

  function ValidPairs(b: map<nat, Trial>, f: map<nat, Trial>): set<nat>
  {
    set i | i in b && i in f && b[i].classification != E.Invalid && f[i].classification != E.Invalid
  }

  /** Valid pairs whose baseline and faulted trials were classified so. */
  function Moved(b: map<nat, Trial>, f: map<nat, Trial>, from: Classification, to: Classification): set<nat>
  {
    set i | i in ValidPairs(b, f) && b[i].classification == from && f[i].classification == to
  }

  /** Pairs whose faulted trial observed every selected fault. */
  function Seen(f: map<nat, Trial>, pairs: set<nat>, selected: set<string>): set<nat>
  {
    set i | i in pairs && i in f && selected <= f[i].observed
  }

  /** The places of the common pairs, by what became of them. */
  datatype Places = Places(valid: set<nat>, invalid: set<nat>, improved: set<nat>, regressed: set<nat>, seen: set<nat>)

  function PlacesOf(b: map<nat, Trial>, f: map<nat, Trial>, selected: set<string>): Places
  {
    var valid := ValidPairs(b, f);
    Places(valid, Common(b, f) - valid, Moved(b, f, E.Failed, E.Passed), Moved(b, f, E.Passed, E.Failed),
           Seen(f, valid, selected))
  }

  function Warnings(p: Places, lost: set<nat>, gone: set<nat>): set<string>
  {
    (if lost != {} || gone != {} then {"missing_pairs"} else {})
    + (if p.invalid != {} then {"invalid_pairs_excluded"} else {})
    + (if |p.valid| < SMALL_SAMPLE then {"small_paired_sample"} else {})
    + (if p.seen == {} then {"observed_fault_pair_set_empty"} else {})
  }

  function Summary(a: Arithmetic, common: set<nat>, p: Places, lost: set<nat>, gone: set<nat>): Paired
  {
    var up, down := |p.improved * p.seen|, |p.regressed * p.seen|;
    Paired(|common|, |p.valid|, |p.invalid|, |p.improved|, |p.regressed|, |p.valid| - |p.improved| - |p.regressed|,
           lost, gone, SignedRateOf(a, |p.improved| - |p.regressed|, |p.valid|),
           |p.seen|, up, down, SignedRateOf(a, up - down, |p.seen|), Warnings(p, lost, gone))
  }

  function PairedOf(a: Arithmetic, b: map<nat, Trial>, f: map<nat, Trial>, selected: set<string>): Paired
  {
    Summary(a, Common(b, f), PlacesOf(b, f, selected), f.Keys - b.Keys, b.Keys - f.Keys)
  }

  // ----- The loop -----

  function Restrict(p: Places, handled: set<nat>): Places
  {
    Places(p.valid * handled, p.invalid * handled, p.improved * handled, p.regressed * handled, p.seen * handled)
  }

  /** One more common place, put where it belongs. */
  function Handle(b: map<nat, Trial>, f: map<nat, Trial>, selected: set<string>, p: Places, i: nat): Places
    requires i in b && i in f
  {
    var left, right := b[i].classification, f[i].classification;
    if left == E.Invalid || right == E.Invalid then p.(invalid := p.invalid + {i})
    else
      Places(p.valid + {i}, p.invalid,
             if left == E.Failed && right == E.Passed then p.improved + {i} else p.improved,
             if left == E.Passed && right == E.Failed then p.regressed + {i} else p.regressed,
             if selected <= f[i].observed then p.seen + {i} else p.seen)
  }

  lemma HandleOne(b: map<nat, Trial>, f: map<nat, Trial>, selected: set<string>, handled: set<nat>, i: nat)
    requires i in b && i in f
    ensures Restrict(PlacesOf(b, f, selected), handled + {i}) ==
            Handle(b, f, selected, Restrict(PlacesOf(b, f, selected), handled), i)
  {
    var p, q := PlacesOf(b, f, selected), Handle(b, f, selected, Restrict(PlacesOf(b, f, selected), handled), i);
    assert p.valid * (handled + {i}) == q.valid;
    assert p.invalid * (handled + {i}) == q.invalid;
    assert p.improved * (handled + {i}) == q.improved;
    assert p.regressed * (handled + {i}) == q.regressed;
    assert p.seen * (handled + {i}) == q.seen;
  }

  lemma AllHandled(b: map<nat, Trial>, f: map<nat, Trial>, selected: set<string>)
    ensures Restrict(PlacesOf(b, f, selected), Common(b, f)) == PlacesOf(b, f, selected)
    ensures Restrict(PlacesOf(b, f, selected), {}) == Places({}, {}, {}, {}, {})
  {
    var p, common := PlacesOf(b, f, selected), Common(b, f);
    assert p.valid * common == p.valid && p.invalid * common == p.invalid && p.improved * common == p.improved;
    assert p.regressed * common == p.regressed && p.seen * common == p.seen;
  }

  /** `_paired_rows`. */
  method PairRows(a: Arithmetic, baseline: seq<Trial>, faulted: seq<Trial>, selected: set<string>) returns (paired: Paired)
    ensures paired == PairedOf(a, Table(baseline), Table(faulted), selected)
  {
    var b, f := Table(baseline), Table(faulted);
    var places := SortPlaces(b, f, selected);
    assert b.Keys * f.Keys == Common(b, f);
    return Summary(a, b.Keys * f.Keys, places, f.Keys - b.Keys, b.Keys - f.Keys);
  }

  method SortPlaces(b: map<nat, Trial>, f: map<nat, Trial>, selected: set<string>) returns (places: Places)
    ensures places == PlacesOf(b, f, selected)
  {
    var rest, handled := Common(b, f), {};
    places := Places({}, {}, {}, {}, {});
    AllHandled(b, f, selected);
    while rest != {}
      invariant rest + handled == Common(b, f) && rest <= Common(b, f)
      invariant places == Restrict(PlacesOf(b, f, selected), handled)
      decreases |rest|
    {
      var i :| i in rest;
      HandleOne(b, f, selected, handled, i);
      OneLess(rest, handled, i);
      places := Handle(b, f, selected, places, i);
      rest, handled := rest - {i}, handled + {i};
    }
  }

  lemma OneLess(rest: set<nat>, handled: set<nat>, i: nat)
    requires i in rest
    ensures (rest - {i}) + (handled + {i}) == rest + handled && rest - {i} <= rest && |rest - {i}| < |rest|
  {
  }

  // ----- Conservation -----

  lemma ThreeParts(a: set<nat>, b: set<nat>, c: set<nat>, whole: set<nat>)
    requires a !! b && a !! c && b !! c && whole == a + b + c
    ensures |whole| == |a| + |b| + |c|
  {
    DisjointSize(a, b);
    DisjointSize(a + b, c);
  }

  /** Valid pairs in which nothing moved. */
  function Stayed(b: map<nat, Trial>, f: map<nat, Trial>): set<nat>
  {
    set i | i in ValidPairs(b, f) && b[i].classification == f[i].classification
  }

  lemma ValidSplits(b: map<nat, Trial>, f: map<nat, Trial>)
    ensures var improved, regressed, stayed := Moved(b, f, E.Failed, E.Passed), Moved(b, f, E.Passed, E.Failed), Stayed(b, f);
            improved !! regressed && improved !! stayed && regressed !! stayed
            && ValidPairs(b, f) == improved + regressed + stayed
  {
  }

  lemma PlacesAreConserved(b: map<nat, Trial>, f: map<nat, Trial>, selected: set<string>)
    ensures var p := PlacesOf(b, f, selected);
            && |p.valid| == |p.improved| + |p.regressed| + |Stayed(b, f)|
            && |Common(b, f)| == |p.valid| + |p.invalid|
  {
    ValidSplits(b, f);
    ThreeParts(Moved(b, f, E.Failed, E.Passed), Moved(b, f, E.Passed, E.Failed), Stayed(b, f), ValidPairs(b, f));
    InvalidSplits(b, f);
  }

  lemma InvalidSplits(b: map<nat, Trial>, f: map<nat, Trial>)
    ensures |Common(b, f)| == |ValidPairs(b, f)| + |Common(b, f) - ValidPairs(b, f)|
  {
    DisjointSize(ValidPairs(b, f), Common(b, f) - ValidPairs(b, f));
    assert Common(b, f) == ValidPairs(b, f) + (Common(b, f) - ValidPairs(b, f));
  }

  /** Every common place is improved, regressed, unchanged or invalid, once. */
  lemma PairsAreConserved(a: Arithmetic, b: map<nat, Trial>, f: map<nat, Trial>, selected: set<string>)
    ensures var p := PairedOf(a, b, f, selected);
            && p.steady == |Stayed(b, f)|
            && p.common == p.improved + p.regressed + p.steady + p.invalid
            && p.valid + p.invalid == p.common
            && p.observed <= p.valid && p.observedImproved <= p.improved && p.observedRegressed <= p.regressed
  {
    var p := PlacesOf(b, f, selected);
    PlacesAreConserved(b, f, selected);
    Smaller(p.seen, p.valid);
    Smaller(p.improved * p.seen, p.improved);
    Smaller(p.regressed * p.seen, p.regressed);
  }

  lemma Smaller(a: set<nat>, b: set<nat>)
    requires a <= b
    ensures |a| <= |b|
  {
    DisjointSize(a, b - a);
    assert b == a + (b - a);
  }

  function Passes(t: map<nat, Trial>, places: set<nat>): set<nat>
  {
    set i | i in places && i in t && t[i].classification == E.Passed
  }

  /** The paired delta is the faulted passes less the baseline passes, over the valid pairs. */
  lemma DeltaIsPassDifference(a: Arithmetic, b: map<nat, Trial>, f: map<nat, Trial>, selected: set<string>)
    ensures var p, valid := PairedOf(a, b, f, selected), ValidPairs(b, f);
            p.improved - p.regressed == |Passes(f, valid)| - |Passes(b, valid)|
  {
    var valid := ValidPairs(b, f);
    var improved, regressed := Moved(b, f, E.Failed, E.Passed), Moved(b, f, E.Passed, E.Failed);
    var both := Passes(f, valid) * Passes(b, valid);
    assert Passes(f, valid) == improved + both && improved !! both;
    assert Passes(b, valid) == regressed + both && regressed !! both;
    DisjointSize(improved, both);
    DisjointSize(regressed, both);
  }

  function Negated(r: SignedRate): SignedRate
  {
    if r.SignedRate? then SignedRate(-r.numerator, r.denominator, -r.estimate) else r
  }

  /** One summary is the other seen from the opposite arm. */
  ghost predicate Opposite(p: Paired, q: Paired)
  {
    && q.common == p.common && q.valid == p.valid && q.invalid == p.invalid && q.steady == p.steady
    && q.improved == p.regressed && q.regressed == p.improved
    && q.missingBaseline == p.missingFaulted && q.missingFaulted == p.missingBaseline
    && q.delta == Negated(p.delta)
  }

  lemma SummarySwaps(a: Arithmetic, common: set<nat>, p: Places, q: Places, lost: set<nat>, gone: set<nat>)
    requires OddRatios(a)
    requires q.valid == p.valid && q.invalid == p.invalid && q.improved == p.regressed && q.regressed == p.improved
    ensures Opposite(Summary(a, common, p, lost, gone), Summary(a, common, q, gone, lost))
  {
  }

  /** Swapping the arms exchanges improvement and regression and negates the delta as printed. */
  lemma SwapNegates(a: Arithmetic, b: map<nat, Trial>, f: map<nat, Trial>, selected: set<string>)
    requires OddRatios(a)
    ensures Opposite(PairedOf(a, b, f, selected), PairedOf(a, f, b, selected))
  {
    PlacesSwap(b, f, selected);
    SummarySwaps(a, Common(b, f), PlacesOf(b, f, selected), PlacesOf(f, b, selected), f.Keys - b.Keys, b.Keys - f.Keys);
  }

  /** The printed ratio of an opposite is the opposite of the printed ratio. */
  ghost predicate OddRatios(a: Arithmetic)
  {
    forall m: int, n: int, d: nat :: m == -n && d > 0 ==> a.ratio(m, d) == -a.ratio(n, d)
  }

  /** Rounding half to even does not favour a sign. */
  lemma PrintedRatiosAreOdd(a: Arithmetic)
    requires PrintsRatios(a)
    ensures OddRatios(a)
  {
    forall m: int, n: int, d: nat | m == -n && d > 0
      ensures a.ratio(m, d) == -a.ratio(n, d)
    {
      EstimateNegates(n, d);
    }
  }

  lemma PlacesSwap(b: map<nat, Trial>, f: map<nat, Trial>, selected: set<string>)
    ensures var p, q := PlacesOf(b, f, selected), PlacesOf(f, b, selected);
            Common(f, b) == Common(b, f) && q.valid == p.valid && q.invalid == p.invalid
            && q.improved == p.regressed && q.regressed == p.improved
  {
    assert Common(f, b) == Common(b, f) && ValidPairs(f, b) == ValidPairs(b, f);
    assert Moved(f, b, E.Failed, E.Passed) == Moved(b, f, E.Passed, E.Failed);
    assert Moved(f, b, E.Passed, E.Failed) == Moved(b, f, E.Failed, E.Passed);
  }

  lemma EstimateNegates(numerator: int, denominator: nat)
    requires denominator > 0
    ensures W.Quantised((-numerator) as real / denominator as real) == -W.Quantised(numerator as real / denominator as real)
  {
    var x := numerator as real / denominator as real;
    var y := (-numerator) as real / denominator as real;
    W.Quotients(0.0, numerator as real, denominator as real);
    W.Cancel(0.0 / denominator as real, 0.0, denominator as real);
    assert y == -x;
    HalfEvenIsOdd(x * W.SCALE as real);
    assert y * W.SCALE as real == -(x * W.SCALE as real);
  }

  lemma HalfEvenIsOdd(x: real)
    ensures W.HalfEven(-x) == -W.HalfEven(x)
  {
    var down := x.Floor;
    var part := x - down as real;
    if part == 0.0 {
      assert (-x).Floor == -down;
    } else {
      assert (-x).Floor == -down - 1;
      assert -x - (-down - 1) as real == 1.0 - part;
      assert (-down - 1) % 2 == 0 <==> down % 2 == 1;
    }
  }
}
