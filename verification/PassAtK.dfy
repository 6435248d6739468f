/** The pass@k estimate: what its numerator counts, and how it moves. */
module PassAtK {
  import opened Prelude

  /** `math.comb`. */
  function Comb(n: nat, k: nat): nat
  {
    if k == 0 then 1 else if n == 0 then 0 else Comb(n - 1, k - 1) + Comb(n - 1, k)
  }

  /** Subsets of a given size. */
  ghost function Choices<T(!new)>(s: set<T>, k: nat): set<set<T>>
  {
    set c: set<T> | c <= s && |c| == k
  }

  ghost function With<T(!new)>(x: T, choices: set<set<T>>): set<set<T>>
  {
    set c: set<T> | c in choices :: c + {x}
  }

  lemma {:induction false} WithKeepsSize<T(!new)>(x: T, choices: set<set<T>>)
    requires forall c :: c in choices ==> x !in c
    ensures |With(x, choices)| == |choices|
  {
    if choices != {} {
      var c :| c in choices;
      var rest := choices - {c};
      WithKeepsSize(x, rest);
      forall d | d in rest
        ensures d + {x} != c + {x}
      {
        assert d == (d + {x}) - {x} && c == (c + {x}) - {x};
      }
      assert With(x, choices) == With(x, rest) + {c + {x}};
    }
  }

  lemma SplitChoices<T(!new)>(s: set<T>, k: nat, x: T)
    requires x in s && k > 0
    ensures Choices(s, k) == Choices(s - {x}, k) + With(x, Choices(s - {x}, k - 1))
    ensures Choices(s - {x}, k) !! With(x, Choices(s - {x}, k - 1))
  {
    forall c | c in Choices(s, k) && x in c
      ensures c in With(x, Choices(s - {x}, k - 1))
    {
      assert c == (c - {x}) + {x} && c - {x} in Choices(s - {x}, k - 1);
    }
  }

  lemma NoChoice<T(!new)>(s: set<T>, k: nat)
    ensures k == 0 ==> Choices(s, k) == {{}}
    ensures k > |s| ==> Choices(s, k) == {}
  {
    forall c | c in Choices(s, k)
      ensures k <= |s|
    {
      DisjointSize(c, s - c);
      assert c + (s - c) == s;
    }
  }

  lemma CountStep<T(!new)>(s: set<T>, k: nat, x: T)
    requires x in s && k > 0
    ensures |Choices(s, k)| == |Choices(s - {x}, k)| + |Choices(s - {x}, k - 1)|
  {
    SplitChoices(s, k, x);
    WithKeepsSize(x, Choices(s - {x}, k - 1));
    DisjointSize(Choices(s - {x}, k), With(x, Choices(s - {x}, k - 1)));
  }

  /** The number of k-element subsets. */
  lemma {:induction false} CountChoices<T(!new)>(s: set<T>, k: nat)
    ensures |Choices(s, k)| == Comb(|s|, k)
    decreases |s|
  {
    NoChoice(s, k);
    if k > 0 && s != {} {
      var x :| x in s;
      CountStep(s, k, x);
      CountChoices(s - {x}, k);
      CountChoices(s - {x}, k - 1);
    }
  }

  /** The numerator C(n, k) - C(n - c, k) counts exactly the k-element groups of the valid trials that
      hold at least one pass. */
  lemma NumeratorCountsGroups<T(!new)>(valid: set<T>, passing: set<T>, k: nat)
    requires passing <= valid
    ensures |passing| <= |valid|
    ensures |set g | g in Choices(valid, k) && g * passing != {}| == Numerator(|valid|, |passing|, k)
  {
    var none := Choices(valid - passing, k);
    var some := set g | g in Choices(valid, k) && g * passing != {};
    assert |Choices(valid, k)| == |some| + |none| by {
      WithoutPass(valid, passing, k);
      DisjointSize(some, none);
    }
    assert |valid| == |passing| + |valid - passing| by {
      assert valid == passing + (valid - passing);
      DisjointSize(passing, valid - passing);
    }
    CountChoices(valid, k);
    CountChoices(valid - passing, k);
  }

  /** The groups without a pass are the groups of the trials that did not pass. */
  lemma WithoutPass<T(!new)>(valid: set<T>, passing: set<T>, k: nat)
    requires passing <= valid
    ensures var some := set g | g in Choices(valid, k) && g * passing != {};
            Choices(valid, k) == some + Choices(valid - passing, k) && some !! Choices(valid - passing, k)
  {
    forall g | g in Choices(valid, k) && g * passing == {}
      ensures g in Choices(valid - passing, k)
    {
      forall x | x in g
        ensures x in valid - passing
      {
        assert x in passing ==> x in g * passing;
      }
    }
  }

  // ----- The estimate -----

  lemma {:induction false} CombPositive(n: nat, k: nat)
    ensures Comb(n, k) > 0 <==> k <= n
  {
    if k > 0 && n > 0 {
      CombPositive(n - 1, k - 1);
      CombPositive(n - 1, k);
    }
  }

  lemma {:induction false} CombGrows(m: nat, n: nat, k: nat)
    requires m <= n
    ensures Comb(m, k) <= Comb(n, k)
  {
    if m < n {
      CombGrows(m, n - 1, k);
    }
  }

  lemma {:induction false} CombOne(n: nat)
    ensures Comb(n, 1) == n
  {
    if n > 0 {
      CombOne(n - 1);
    }
  }

  /** (k + 1) C(n, k + 1) = (n - k) C(n, k). */
  lemma {:induction false} Absorb(n: nat, k: nat)
    ensures (k + 1) * Comb(n, k + 1) == (n - k) * Comb(n, k)
  {
    if n == 0 {
      CombPositive(0, k);
    } else {
      Absorb(n - 1, k);
      if k == 0 {
        assert Comb(n, 1) == Comb(n - 1, 0) + Comb(n - 1, 1);
      } else {
        Absorb(n - 1, k - 1);
        AbsorbStep(n, k, Comb(n - 1, k - 1), Comb(n - 1, k), Comb(n - 1, k + 1));
      }
    }
  }

  lemma AbsorbStep(n: int, k: int, a: int, b: int, c: int)
    requires (k + 1) * c == (n - 1 - k) * b && k * b == (n - k) * a
    ensures (k + 1) * (b + c) == (n - k) * (a + b)
  {
    assert (k + 1) * (b + c) == (k + 1) * b + (n - 1 - k) * b == n * b;
    assert (n - k) * (a + b) == k * b + (n - k) * b == n * b;
  }

  /** Numerator and denominator of the estimate for n valid trials of which c passed. */
  function Numerator(n: nat, c: nat, k: nat): int
    requires c <= n
  {
    Comb(n, k) - Comb(n - c, k)
  }

  function Estimate(n: nat, c: nat, k: nat): real
    requires c <= n && Comb(n, k) > 0
  {
    Numerator(n, c, k) as real / Comb(n, k) as real
  }

  lemma RatioOrder(a: int, b: int, c: int, d: int)
    requires b > 0 && d > 0 && a * d <= c * b
    ensures a as real / b as real <= c as real / d as real
  {
    var x, y, p, q := b as real, d as real, a as real / b as real, c as real / d as real;
    assert p * x == a as real && q * y == c as real;
    assert (a * d) as real == p * x * y && (c * b) as real == q * y * x;
    CancelReal(p, q, x * y);
  }

  lemma CancelReal(p: real, q: real, d: real)
    requires d > 0.0 && p * d <= q * d
    ensures p <= q
  {
    assert (p - q) * d <= 0.0;
  }

  lemma RatioWithin(a: int, b: int)
    requires 0 <= a <= b && b > 0
    ensures 0.0 <= a as real / b as real <= 1.0
    ensures a as real / b as real == 1.0 <==> a == b
  {
  }

  /** The estimate is a probability, it is 1 exactly when no k trials all failed, and at k = 1 it is the
      pass rate. */
  lemma EstimateIsProbability(n: nat, c: nat, k: nat)
    requires c <= n && k <= n && k > 0
    ensures Comb(n, k) > 0
    ensures 0.0 <= Estimate(n, c, k) <= 1.0
    ensures Estimate(n, c, k) == 1.0 <==> n - c < k
    ensures k == 1 ==> Estimate(n, c, 1) == c as real / n as real
  {
    CombPositive(n, k);
    CombPositive(n - c, k);
    CombGrows(n - c, n, k);
    RatioWithin(Numerator(n, c, k), Comb(n, k));
    CombOne(n);
    CombOne(n - c);
  }

  /** More passes never lower the estimate. */
  lemma MonotoneInPasses(n: nat, c: nat, d: nat, k: nat)
    requires c <= d <= n && k <= n
    ensures Comb(n, k) > 0 && Estimate(n, c, k) <= Estimate(n, d, k)
  {
    CombPositive(n, k);
    CombGrows(n - d, n - c, k);
    SameDenominator(Numerator(n, c, k), Numerator(n, d, k), Comb(n, k));
  }

  lemma SameDenominator(a: int, c: int, b: int)
    requires b > 0 && a <= c
    ensures a as real / b as real <= c as real / b as real
  {
  }

  /** C(m, k + 1) / C(n, k + 1) <= C(m, k) / C(n, k) for m <= n. */
  lemma FailuresThin(m: nat, n: nat, k: nat)
    requires m <= n
    ensures Comb(m, k + 1) * Comb(n, k) <= Comb(m, k) * Comb(n, k + 1)
  {
    Absorb(m, k);
    Absorb(n, k);
    var a, b, x, y := Comb(m, k + 1), Comb(n, k + 1), Comb(m, k), Comb(n, k);
    Scale(a, b, x, y, k + 1, m - k, n - k);
  }

  lemma Scale(a: nat, b: nat, x: nat, y: nat, q: int, s: int, t: int)
    requires q > 0 && q * a == s * x && q * b == t * y && s <= t
    ensures a * y <= x * b
  {
    assert q * (a * y) == (q * a) * y == (s * x) * y == s * (x * y);
    assert q * (x * b) == x * (q * b) == x * (t * y) == t * (x * y);
    assert s * (x * y) <= t * (x * y) by {
      assert 0 <= x * y && 0 <= (t - s) * (x * y);
    }
    CancelInt(a * y, x * b, q);
  }

  lemma CancelInt(p: int, r: int, q: int)
    requires q > 0 && q * p <= q * r
    ensures p <= r
  {
    assert q * (p - r) <= 0;
  }

  lemma OneMoreTrial(n: nat, c: nat, k: nat)
    requires c <= n && k < n
    ensures Comb(n, k) > 0 && Comb(n, k + 1) > 0 && Estimate(n, c, k) <= Estimate(n, c, k + 1)
  {
    CombPositive(n, k);
    CombPositive(n, k + 1);
    FailuresThin(n - c, n, k);
    Complements(Comb(n - c, k), Comb(n, k), Comb(n - c, k + 1), Comb(n, k + 1));
  }

  /** Larger groups never lower the estimate. */
  lemma {:induction false} MonotoneInK(n: nat, c: nat, k: nat, l: nat)
    requires c <= n && k <= l <= n
    ensures Comb(n, k) > 0 && Comb(n, l) > 0 && Estimate(n, c, k) <= Estimate(n, c, l)
    decreases l - k
  {
    CombPositive(n, k);
    CombPositive(n, l);
    if k < l {
      OneMoreTrial(n, c, k);
      MonotoneInK(n, c, k + 1, l);
    }
  }

  lemma Complements(a: nat, b: nat, x: nat, y: nat)
    requires b > 0 && y > 0 && x * b <= a * y
    ensures (b - a) as real / b as real <= (y - x) as real / y as real
  {
    assert (b - a) * y == b * y - a * y && (y - x) * b == b * y - x * b;
    RatioOrder(b - a, b, y - x, y);
  }
}
