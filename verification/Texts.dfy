/** Lexical order of strings by code point, as sorting and `<` on strings use it. */
module Texts {
  import opened Prelude

  predicate IsAscii(s: string)
  {
    forall i :: 0 <= i < |s| ==> s[i] as int < 128
  }

  predicate Within(part: string, s: string)
  {
    exists i :: 0 <= i <= |s| && part <= s[i..]
  }

  predicate Before(a: string, b: string)
  {
    b != [] && (a == [] || a[0] < b[0] || (a[0] == b[0] && Before(a[1..], b[1..])))
  }

  lemma {:induction false} BeforeIsTotal(a: string, b: string)
    ensures Before(a, b) || Before(b, a) || a == b
    ensures Before(a, b) ==> a != b && !Before(b, a)
  {
    if a != [] && b != [] && a[0] == b[0] {
      BeforeIsTotal(a[1..], b[1..]);
      assert a == [a[0]] + a[1..] && b == [b[0]] + b[1..];
    }
  }

  lemma {:induction false} BeforeIsTransitive(a: string, b: string, c: string)
    requires Before(a, b) && Before(b, c)
    ensures Before(a, c)
  {
    if a != [] && a[0] == b[0] && b[0] == c[0] {
      BeforeIsTransitive(a[1..], b[1..], c[1..]);
    }
  }

  /** Strictly increasing, hence without repetition. */
  ghost predicate Increasing(s: seq<string>)
  {
    forall i, j :: 0 <= i < j < |s| ==> Before(s[i], s[j])
  }

  // ----- Sorting -----

  /** In order, repetition allowed. */
  ghost predicate Ordered(s: seq<string>)
  {
    forall i, j :: 0 <= i < j < |s| ==> !Before(s[j], s[i])
  }

  function InsertText(sorted: seq<string>, x: string): seq<string>
  {
    if sorted == [] then [x]
    else if Before(x, Last(sorted)) then InsertText(Front(sorted), x) + [Last(sorted)]
    else sorted + [x]
  }

  /** Strictly increasing sequences of the same texts are the same sequence. */
  lemma {:induction false} IncreasingIsCanonical(a: seq<string>, b: seq<string>)
    requires Increasing(a) && Increasing(b) && forall x :: x in a <==> x in b
    ensures a == b
  {
    assert (a != [] ==> a[0] in a) && (b != [] ==> b[0] in b);
    if a != [] && b != [] {
      LastIsGreatest(a);
      LastIsGreatest(b);
      assert Last(a) in a && Last(b) in b;
      BeforeIsTotal(Last(a), Last(b));
      assert Last(a) == Last(b);
      assert forall x :: x in Front(a) <==> x in Front(b);
      IncreasingIsCanonical(Front(a), Front(b));
    }
  }

  lemma LastIsGreatest(s: seq<string>)
    requires Increasing(s) && s != []
    ensures forall x :: x in s ==> x == Last(s) || Before(x, Last(s))
    ensures forall x :: x in Front(s) <==> x in s && x != Last(s)
  {
    forall x | x in Front(s)
      ensures Before(x, Last(s)) && x != Last(s)
    {
      var i :| 0 <= i < |s| - 1 && s[i] == x;
      BeforeIsTotal(x, Last(s));
    }
    assert s == Front(s) + [Last(s)];
  }

  // ----- Keys in order -----

  lemma {:induction false} HasSmallest(keys: set<string>) returns (k: string)
    requires keys != {}
    ensures k in keys && forall x :: x in keys ==> x == k || Before(k, x)
  {
    k :| k in keys;
    if keys != {k} {
      assert keys - {k} != {};
      var l := HasSmallest(keys - {k});
      BeforeIsTotal(k, l);
      if Before(l, k) {
        k := l;
      } else {
        forall x | x in keys && x != k
          ensures Before(k, x)
        {
          if x != l {
            BeforeIsTransitive(k, l, x);
          }
        }
      }
    }
  }

  /** The keys in increasing order. */
  ghost function SortedKeys(keys: set<string>): (s: seq<string>)
    ensures Increasing(s) && forall x :: x in s <==> x in keys
  {
    if keys == {} then []
    else
      assert exists k :: k in keys && forall x :: x in keys ==> x == k || Before(k, x) by {
        var k := HasSmallest(keys);
      }
      var k :| k in keys && forall x :: x in keys ==> x == k || Before(k, x);
      [k] + SortedKeys(keys - {k})
  }

  /** `sorted(...)` of the keys of a mapping. */
  method SortKeys(keys: set<string>) returns (s: seq<string>)
    ensures s == SortedKeys(keys)
  {
    s := [];
    var rest := keys;
    while rest != {}
      invariant rest <= keys && Increasing(s)
      invariant forall x :: x in s <==> x in keys - rest
      decreases |rest|
    {
      var k :| k in rest;
      InsertIncreasing(s, k);
      s := InsertText(s, k);
      rest := rest - {k};
    }
    IncreasingIsCanonical(s, SortedKeys(keys));
  }

  lemma {:induction false} InsertIncreasing(sorted: seq<string>, x: string)
    requires Increasing(sorted) && x !in sorted
    ensures Increasing(InsertText(sorted, x))
    ensures forall y :: y in InsertText(sorted, x) <==> y in sorted || y == x
  {
    if sorted != [] {
      var last := Last(sorted);
      LastIsGreatest(sorted);
      assert sorted == Front(sorted) + [last];
      BeforeIsTotal(x, last);
      if Before(x, last) {
        InsertIncreasing(Front(sorted), x);
        var inserted := InsertText(Front(sorted), x);
        forall i | 0 <= i < |inserted|
          ensures Before(inserted[i], last)
        {
          assert inserted[i] in inserted;
        }
      } else {
        forall i | 0 <= i < |sorted|
          ensures Before(sorted[i], x)
        {
          assert sorted[i] in sorted;
          if sorted[i] != last {
            BeforeIsTransitive(sorted[i], last, x);
          }
        }
      }
    }
  }

  // ----- Splitting -----

  /** `s.split(separator)` for one character. */
  function Split(s: string, separator: char): (parts: seq<string>)
    ensures parts != []
  {
    if s == [] then [[]]
    else
      var rest := Split(s[1..], separator);
      if s[0] == separator then [[]] + rest else [[s[0]] + rest[0]] + rest[1..]
  }

  lemma {:induction false} SplitToken(raw: string, rest: string, separator: char)
    requires separator !in raw
    ensures Split(raw, separator) == [raw]
    ensures Split(raw + [separator] + rest, separator) == [raw] + Split(rest, separator)
  {
    if raw == [] {
      assert ([separator] + rest)[1..] == rest && raw + [separator] + rest == [separator] + rest;
    } else {
      SplitToken(raw[1..], rest, separator);
      assert (raw + [separator] + rest)[1..] == raw[1..] + [separator] + rest;
      assert raw == [raw[0]] + raw[1..];
    }
  }

  lemma {:induction false} FirstToken(s: string, separator: char) returns (raw: string)
    ensures raw <= s && separator !in raw && (raw == s || s[|raw|] == separator)
    ensures Split(s, separator)[0] == raw
  {
    if s == [] || s[0] == separator {
      raw := [];
    } else {
      var tail := FirstToken(s[1..], separator);
      raw := [s[0]] + tail;
    }
  }
}
