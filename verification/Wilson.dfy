/** The Wilson interval in exact arithmetic, and rounding to twelve decimal places. */
module Wilson {

  const Z: real := 1.959963984540054

  const SCALE: int := 1_000_000_000_000

  ghost predicate IsRoot(root: real, x: real)
  {
    root >= 0.0 && root * root == x
  }

  function Share(successes: nat, n: nat): real
    requires 0 < n
  {
    successes as real / n as real
  }

  /** Under the square root: p (1 - p) / n + z^2 / (4 n^2). */
  function Radicand(successes: nat, n: nat): real
    requires 0 < n
  {
    var p := Share(successes, n);
    p * (1.0 - p) / n as real + Z * Z / (4.0 * n as real * n as real)
  }

  datatype Interval = Interval(lower: real, upper: real)

  function Min(a: real, b: real): real
  {
    if a <= b then a else b
  }

  function Max(a: real, b: real): real
  {
    if a >= b then a else b
  }

  function Denominator(n: nat): (d: real)
    requires 0 < n
    ensures d > 0.0
  {
    1.0 + Z * Z / n as real
  }

  function Raised(successes: nat, n: nat): real
    requires 0 < n
  {
    Share(successes, n) + Z * Z / (2.0 * n as real)
  }

  /** Centre t / d and spread s / d, clamped to [0, 1]. */
  function ClampedInterval(t: real, s: real, d: real): Interval
    requires d > 0.0
  {
    Interval(Max(0.0, t / d - s / d), Min(1.0, t / d + s / d))
  }

  /** `_wilson`, given the square root of the radicand. */
  function WilsonInterval(successes: nat, n: nat, root: real): Interval
    requires 0 < n
  {
    ClampedInterval(Raised(successes, n), Z * root, Denominator(n))
  }

  // ----- Ordered-field facts -----

  lemma Product(a: real, b: real)
    requires a >= 0.0 && b >= 0.0
    ensures a * b >= 0.0
  {
  }

  lemma Positive(a: real, b: real)
    requires a > 0.0 && b > 0.0
    ensures a * b > 0.0
  {
  }

  lemma SquareOrder(a: real, b: real)
    requires b >= 0.0 && a * a <= b * b
    ensures -b <= a <= b
  {
    assert (a - b) * (a + b) == a * a - b * b;
    assert (-a - b) * (b - a) == a * a - b * b;
    if a > b {
      Positive(a - b, a + b);
    }
    if a < -b {
      Positive(-a - b, b - a);
    }
  }

  lemma Cancel(a: real, b: real, d: real)
    requires d > 0.0
    ensures a * d == b * d ==> a == b
    ensures a * d <= b * d ==> a <= b
  {
    assert (a - b) * d == a * d - b * d;
    assert (b - a) * d == b * d - a * d;
    if a > b {
      Positive(a - b, d);
    } else if a < b {
      Positive(b - a, d);
    }
  }

  lemma Quotients(a: real, b: real, d: real)
    requires d > 0.0
    ensures a <= b ==> a / d <= b / d
    ensures a / d + b / d == (a + b) / d
    ensures a / d - b / d == (a - b) / d
  {
    var x, y, z, u := a / d, b / d, (a + b) / d, (a - b) / d;
    assert x * d == a && y * d == b && z * d == a + b && u * d == a - b;
    assert (x + y) * d == x * d + y * d && (x - y) * d == x * d - y * d;
    assert (x + y) * d == z * d && (x - y) * d == u * d;
    Cancel(x, y, d);
    Cancel(x + y, z, d);
    Cancel(x - y, u, d);
  }

  // ----- The interval -----

  /** In units of the denominator: with w = z^2 / n, the squared spread is w p (1 - p) + w^2 / 4. */
  lemma SpreadSquared(successes: nat, n: nat, root: real)
    requires 0 < n && IsRoot(root, Radicand(successes, n))
    ensures var p, w := Share(successes, n), Z * Z / n as real;
            (Z * root) * (Z * root) == w * (p * (1.0 - p)) + w * w / 4.0
  {
    var p, m := Share(successes, n), n as real;
    var w := Z * Z / m;
    assert w * m == Z * Z;
    assert Z * Z / (4.0 * m * m) == w / (4.0 * m) by {
      DivideTwice(Z * Z, 4.0 * m, m);
    }
    assert (Z * root) * (Z * root) == (Z * Z) * (root * root);
    var q := p * (1.0 - p);
    Expand(w, m, q, root * root);
  }

  lemma DivideTwice(x: real, a: real, b: real)
    requires a > 0.0 && b > 0.0
    ensures a * b > 0.0 && x / (a * b) == x / b / a
  {
    Positive(a, b);
    var y, k := x / b / a, a * b;
    assert y * a == x / b && (x / b) * b == x;
    assert y * k == (y * a) * b;
    assert (x / k) * k == x;
    Cancel(y, x / k, k);
  }

  lemma Expand(w: real, m: real, q: real, r: real)
    requires m > 0.0 && r == q / m + w / (4.0 * m)
    ensures (w * m) * r == w * q + w * w / 4.0
  {
    var a, b := q / m, w / (4.0 * m);
    assert a * m == q && b * (4.0 * m) == w;
    assert b * m == w / 4.0;
    assert (w * m) * r == w * (a * m + b * m);
    assert w * (q + w / 4.0) == w * q + w * w / 4.0;
  }

  /** The algebra behind the bounds, for s the spread in units of the denominator. */
  lemma Bounds(p: real, w: real, s: real)
    requires 0.0 <= p <= 1.0 && w >= 0.0 && s >= 0.0
    requires s * s == w * (p * (1.0 - p)) + w * w / 4.0
    ensures s <= p + w / 2.0
    ensures s <= (1.0 - p) + w / 2.0
    ensures -s <= w * (p - 0.5) <= s
  {
    var q := 1.0 - p;
    LowerBound(p, q, w, s);
    LowerBound(q, p, w, s);
    Product(p, q);
    Product(w, p * q);
    Product(w, w);
    Product(w * w, p * q);
    CentreOffset(p, q, w);
    SquareOrder(w * (p - 0.5), s);
  }

  lemma CentreOffset(p: real, q: real, w: real)
    requires q == 1.0 - p
    ensures (w * (p - 0.5)) * (w * (p - 0.5)) == w * w / 4.0 - (w * w) * (p * q)
  {
    var d := p - 0.5;
    assert d * d == 0.25 - p * q;
    assert (w * d) * (w * d) == (w * w) * (d * d);
    assert (w * w) * (0.25 - p * q) == w * w / 4.0 - (w * w) * (p * q);
  }

  lemma LowerBound(p: real, q: real, w: real, s: real)
    requires p >= 0.0 && q == 1.0 - p && w >= 0.0 && s >= 0.0
    requires s * s == w * (p * q) + w * w / 4.0
    ensures s <= p + w / 2.0
  {
    var t := p + w / 2.0;
    assert t * t == p * p + w * p + w * w / 4.0;
    assert p * q == p - p * p;
    assert w * (p * q) == w * p - w * (p * p);
    Product(p, p);
    Product(w, p * p);
    SquareOrder(s, t);
  }

  /** In units of the denominator, a centre t and a spread s enclose a share p and stay within [0, 1]. */
  ghost predicate Spreads(t: real, s: real, d: real, p: real)
  {
    d >= 1.0 && 0.0 <= s <= t && t + s <= d && t - s <= p * d <= t + s
  }

  lemma SpreadsFrom(p: real, w: real, s: real)
    requires 0.0 <= p <= 1.0 && w >= 0.0 && s >= 0.0
    requires s * s == w * (p * (1.0 - p)) + w * w / 4.0
    ensures Spreads(p + w / 2.0, s, 1.0 + w, p)
  {
    Bounds(p, w, s);
    var x, y := p * (1.0 + w), w * (p - 0.5);
    assert x == p + p * w && y == p * w - w / 2.0;
  }

  lemma WidthIsPositive(n: nat)
    requires 0 < n
    ensures Z * Z / n as real >= 0.0
  {
    var m := n as real;
    Quotients(0.0, Z * Z, m);
    Cancel(0.0 / m, 0.0, m);
  }

  lemma SpreadBounds(successes: nat, n: nat, root: real)
    requires 0 < n && successes <= n && IsRoot(root, Radicand(successes, n))
    ensures Spreads(Raised(successes, n), Z * root, Denominator(n), Share(successes, n))
  {
    var w := Z * Z / n as real;
    ShareInRange(successes, n);
    WidthIsPositive(n);
    SpreadSquared(successes, n, root);
    Product(Z, root);
    SpreadsFrom(Share(successes, n), w, Z * root);
    Half(Z * Z, w, n as real);
  }

  ghost predicate Encloses(i: Interval, p: real)
  {
    0.0 <= i.lower <= p <= i.upper <= 1.0
  }

  /** The interval before it is clamped. */
  function CentredInterval(t: real, s: real, d: real): Interval
    requires d > 0.0
  {
    Interval(t / d - s / d, t / d + s / d)
  }

  /** The interval encloses the share and lies within [0, 1]; in exact arithmetic the clamps to [0, 1]
      never change anything. */
  lemma IntervalEncloses(successes: nat, n: nat, root: real)
    requires 0 < n && successes <= n && IsRoot(root, Radicand(successes, n))
    ensures Encloses(WilsonInterval(successes, n, root), Share(successes, n))
    ensures WilsonInterval(successes, n, root) == CentredInterval(Raised(successes, n), Z * root, Denominator(n))
  {
    SpreadBounds(successes, n, root);
    Clamped(Raised(successes, n), Z * root, Share(successes, n), Denominator(n));
  }

  lemma Half(x: real, w: real, m: real)
    requires m > 0.0 && w == x / m
    ensures x / (2.0 * m) == w / 2.0
  {
    var y := w / 2.0;
    assert w * m == x;
    assert y * (2.0 * m) == w * m;
    Cancel(y, x / (2.0 * m), 2.0 * m);
  }

  lemma ShareInRange(successes: nat, n: nat)
    requires 0 < n && successes <= n
    ensures 0.0 <= Share(successes, n) <= 1.0
  {
  }

  lemma Clamped(t: real, s: real, p: real, d: real)
    requires Spreads(t, s, d, p)
    ensures Encloses(ClampedInterval(t, s, d), p)
    ensures ClampedInterval(t, s, d) == CentredInterval(t, s, d)
  {
    assert (t / d) * d == t && (s / d) * d == s;
    Within(t / d, s / d, p, d, t, s);
  }

  lemma Within(x: real, y: real, p: real, d: real, t: real, s: real)
    requires d > 0.0 && x * d == t && y * d == s
    requires s <= t && t + s <= d && t - s <= p * d <= t + s
    ensures 0.0 <= x - y <= p <= x + y <= 1.0
  {
    assert (x - y) * d == t - s && (x + y) * d == t + s;
    Cancel(0.0, x - y, d);
    Cancel(x - y, p, d);
    Cancel(p, x + y, d);
    Cancel(x + y, 1.0, d);
  }

  /** Exchanging successes and failures mirrors the interval about one half. */
  lemma IntervalMirrors(successes: nat, n: nat, root: real)
    requires 0 < n && successes <= n && IsRoot(root, Radicand(successes, n))
    ensures IsRoot(root, Radicand(n - successes, n))
    ensures var i, j := WilsonInterval(successes, n, root), WilsonInterval(n - successes, n, root);
            j.lower == 1.0 - i.upper && j.upper == 1.0 - i.lower
  {
    RadicandMirrors(successes, n);
    RaisedMirrors(successes, n);
    IntervalEncloses(successes, n, root);
    IntervalEncloses(n - successes, n, root);
    MirrorQuotient(Raised(successes, n), Denominator(n));
  }

  lemma MirrorQuotient(t: real, d: real)
    requires d > 0.0
    ensures (d - t) / d == 1.0 - t / d
  {
    Quotients(d, t, d);
    Cancel(d / d, 1.0, d);
  }

  lemma RadicandMirrors(successes: nat, n: nat)
    requires 0 < n && successes <= n
    ensures Radicand(n - successes, n) == Radicand(successes, n)
  {
    ComplementShare(successes, n);
    var p, q := Share(successes, n), Share(n - successes, n);
    assert q * (1.0 - q) == p * (1.0 - p);
  }

  lemma ComplementShare(successes: nat, n: nat)
    requires 0 < n && successes <= n
    ensures Share(n - successes, n) == 1.0 - Share(successes, n)
  {
    var m, s := n as real, successes as real;
    Quotients(m, s, m);
    Cancel(m / m, 1.0, m);
  }

  lemma RaisedMirrors(successes: nat, n: nat)
    requires 0 < n && successes <= n
    ensures Raised(n - successes, n) == Denominator(n) - Raised(successes, n)
  {
    ComplementShare(successes, n);
    var m := n as real;
    Half(Z * Z, Z * Z / m, m);
  }

  // ----- Rounding -----

  /** The nearest integer, ties to even. */
  function HalfEven(x: real): int
  {
    var down := x.Floor;
    var part := x - down as real;
    if part < 0.5 || (part == 0.5 && down % 2 == 0) then down else down + 1
  }

  /** `quantize` to twelve places, as a number of units in the last place. */
  function Quantised(x: real): int
  {
    HalfEven(x * SCALE as real)
  }

  lemma HalfEvenMonotone(x: real, y: real)
    requires x <= y
    ensures HalfEven(x) <= HalfEven(y)
  {
    assert x.Floor <= y.Floor;
  }

  lemma HalfEvenNear(x: real)
    ensures -0.5 <= HalfEven(x) as real - x <= 0.5
    ensures x == x.Floor as real ==> HalfEven(x) == x.Floor
  {
  }

  /** The printed interval keeps the order, and prints 0 and 1 exactly. */
  lemma QuantisedEncloses(successes: nat, n: nat, root: real)
    requires 0 < n && successes <= n && IsRoot(root, Radicand(successes, n))
    ensures var i := WilsonInterval(successes, n, root);
            0 <= Quantised(i.lower) <= Quantised(Share(successes, n)) <= Quantised(i.upper) <= SCALE
  {
    var i, p := WilsonInterval(successes, n, root), Share(successes, n);
    IntervalEncloses(successes, n, root);
    QuantisedMonotone(0.0, i.lower);
    QuantisedMonotone(i.lower, p);
    QuantisedMonotone(p, i.upper);
    QuantisedMonotone(i.upper, 1.0);
    assert Quantised(0.0) == 0 && Quantised(1.0) == SCALE;
  }

  lemma QuantisedMonotone(x: real, y: real)
    requires x <= y
    ensures Quantised(x) <= Quantised(y)
  {
    HalfEvenMonotone(x * SCALE as real, y * SCALE as real);
  }
}
