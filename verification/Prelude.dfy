/** Types and small facts shared by every component. */
module Prelude {

  datatype Option<+T> = None | Some(value: T)

  /** JSON documents stand as their canonical text (RFC 8785), so equality is canonical equality. */
  type Json = string

  function Last<T>(s: seq<T>): T
    requires s != []
  {
    s[|s| - 1]
  }

  function Front<T>(s: seq<T>): seq<T>
    requires s != []
  {
    s[..|s| - 1]
  }

  function ToSet(s: seq<string>): set<string>
  {
    set x | x in s
  }

  ghost predicate Distinct<T>(s: seq<T>)
  {
    forall i, j :: 0 <= i < j < |s| ==> s[i] != s[j]
  }

  /** `_duplicates`: nothing is repeated. */
  method NoDuplicates(values: seq<string>) returns (none: bool)
    ensures none <==> Distinct(values)
  {
    var seen: set<string> := {};
    for i := 0 to |values|
      invariant seen == set j | 0 <= j < i :: values[j]
      invariant Distinct(values[..i])
    {
      if values[i] in seen {
        return false;
      }
      seen := seen + {values[i]};
    }
    assert values[..|values|] == values;
    return true;
  }

  lemma DisjointSize<T>(a: set<T>, b: set<T>)
    requires a !! b
    ensures |a + b| == |a| + |b|
  {
  }

  /** What holds at the start of a chain and is kept by every step holds at its end. */
  lemma {:induction false} ChainKeeps<S(!new)>(good: S -> bool, step: (S, S) -> bool, chain: seq<S>)
    requires chain != [] && good(chain[0])
    requires forall i :: 0 <= i < |chain| - 1 ==> step(chain[i], chain[i + 1])
    requires forall s, t :: good(s) && step(s, t) ==> good(t)
    ensures good(Last(chain))
  {
    if |chain| > 1 {
      ChainKeeps(good, step, Front(chain));
      assert step(chain[|chain| - 2], chain[|chain| - 1]);
    }
  }
}
