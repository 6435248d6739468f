/** Redacting exported documents by a list of JSON Pointers. */
module Redaction {
  import opened Prelude
  import opened JsonTrees
  import P = Pointers

  const REDACTED := Text("[REDACTED]")

  // ----- One pointer -----

  /** What following a pointer does: replace a text, find nothing, or raise. */
  datatype Outcome = Hit | Skip | Raise

  function Resolve(t: Tree, path: Path): Outcome
    requires path != []
  {
    if t.Object? then
      if path[0] !in t.fields then Skip
      else if |path| > 1 then Resolve(t.fields[path[0]], path[1..])
      else if t.fields[path[0]].Text? then Hit else Raise
    else if t.Array? then
      var index := ArrayIndex(path[0], |t.items|);
      if index.None? then Raise
      else if |path| > 1 then Resolve(t.items[index.value], path[1..])
      else if t.items[index.value].Text? then Hit else Raise
    else Skip
  }

  lemma {:induction false} HitIsText(t: Tree, path: Path)
    requires path != []
    ensures Resolve(t, path) == Hit <==> Get(t, path).Some? && Get(t, path).value.Text?
  {
    if |path| > 1 {
      if t.Object? && path[0] in t.fields {
        HitIsText(t.fields[path[0]], path[1..]);
      } else if t.Array? && ArrayIndex(path[0], |t.items|).Some? {
        HitIsText(t.items[ArrayIndex(path[0], |t.items|).value], path[1..]);
      }
    }
  }

  function PathOf(pointer: string): Option<Path>
  {
    P.Parts(pointer)
  }

  lemma PathIsNotEmpty(pointer: string)
    ensures PathOf(pointer).Some? ==> PathOf(pointer).value != []
  {
    P.PointerRoundTrip([], pointer);
  }

  function Effect(t: Tree, pointer: string): Outcome
  {
    PathIsNotEmpty(pointer);
    if PathOf(pointer).None? then Raise else Resolve(t, PathOf(pointer).value)
  }

  function Step(t: Tree, pointer: string): Option<Tree>
  {
    PathIsNotEmpty(pointer);
    match Effect(t, pointer)
    case Raise => None
    case Skip => Some(t)
    case Hit =>
      HitIsText(t, PathOf(pointer).value);
      Some(Put(t, PathOf(pointer).value, REDACTED))
  }

  // ----- A list of pointers -----

  function RedactAll(t: Tree, pointers: seq<string>): Option<Tree>
    decreases |pointers|
  {
    if pointers == [] then Some(t)
    else
      match Step(t, pointers[0])
      case None => None
      case Some(next) => RedactAll(next, pointers[1..])
  }

  function Hits(t: Tree, pointers: seq<string>): set<string>
  {
    set p | p in pointers && Effect(t, p) == Hit
  }

  /** `_redact`: the copy with every target replaced, and the pointers that found one. */
  method Redact(document: Tree, pointers: seq<string>) returns (result: Option<(Tree, set<string>)>)
    ensures result.Some? <==> RedactAll(document, pointers).Some?
    ensures result.Some? ==> result.value.0 == RedactAll(document, pointers).value
    ensures result.Some? ==> result.value.1 == Hits(document, pointers)
  {
    var value := document;
    var applied: set<string> := {};
    assert pointers[0..] == pointers;
    for i := 0 to |pointers|
      invariant RedactAll(document, pointers) == RedactAll(value, pointers[i..])
      invariant applied == Hits(document, pointers[..i])
      invariant forall p :: Effect(value, p) == Effect(document, p)
    {
      var pointer := pointers[i];
      assert pointers[i..][1..] == pointers[i + 1..];
      assert pointers[..i + 1] == pointers[..i] + [pointer];
      var next := Step(value, pointer);
      if next.None? {
        return None;
      }
      if Effect(value, pointer) == Hit {
        applied := applied + {pointer};
      }
      forall p
        ensures Effect(next.value, p) == Effect(value, p)
      {
        EffectKept(value, pointer, p);
      }
      value := next.value;
    }
    assert pointers[..|pointers|] == pointers;
    return Some((value, applied));
  }

  // ----- One redaction does not disturb another -----

  lemma {:induction false} ResolveKept(t: Tree, path: Path, other: Path)
    requires path != [] && other != [] && Get(t, path).Some? && Get(t, path).value.Text?
    ensures Resolve(Put(t, path, REDACTED), other) == Resolve(t, other)
  {
    if path[0] == other[0] && |path| > 1 && |other| > 1 {
      var child := if t.Object? then t.fields[path[0]] else t.items[ArrayIndex(path[0], |t.items|).value];
      ResolveKept(child, path[1..], other[1..]);
    } else if t.Array? && |path| > 1 && |other| > 1
              && ArrayIndex(path[0], |t.items|) == ArrayIndex(other[0], |t.items|) {
      ArrayIndexInjective(path[0], other[0], |t.items|);
    }
  }

  lemma EffectKept(t: Tree, pointer: string, other: string)
    requires Step(t, pointer).Some?
    ensures Effect(Step(t, pointer).value, other) == Effect(t, other)
  {
    PathIsNotEmpty(pointer);
    PathIsNotEmpty(other);
    if Effect(t, pointer) == Hit && PathOf(other).Some? {
      HitIsText(t, PathOf(pointer).value);
      ResolveKept(t, PathOf(pointer).value, PathOf(other).value);
    }
  }

  lemma {:induction false} PutsCommute(t: Tree, p: Path, q: Path)
    requires Get(t, p).Some? && Get(t, p).value.Text? && Get(t, q).Some? && Get(t, q).value.Text?
    requires Get(Put(t, p, REDACTED), q).Some? && Get(Put(t, q, REDACTED), p).Some?
    ensures Put(Put(t, p, REDACTED), q, REDACTED) == Put(Put(t, q, REDACTED), p, REDACTED)
  {
    if p != [] && q != [] {
      if t.Object? {
        if p[0] == q[0] {
          PutsCommute(t.fields[p[0]], p[1..], q[1..]);
          var a := t.fields[p[0] := Put(t.fields[p[0]], p[1..], REDACTED)];
          var b := t.fields[q[0] := Put(t.fields[q[0]], q[1..], REDACTED)];
          assert a[q[0] := Put(a[q[0]], q[1..], REDACTED)] == b[p[0] := Put(b[p[0]], p[1..], REDACTED)];
        } else {
          var x, y := Put(t.fields[p[0]], p[1..], REDACTED), Put(t.fields[q[0]], q[1..], REDACTED);
          assert t.fields[p[0] := x][q[0] := y] == t.fields[q[0] := y][p[0] := x];
        }
      } else {
        var i, j := ArrayIndex(p[0], |t.items|).value, ArrayIndex(q[0], |t.items|).value;
        if i == j {
          PutsCommute(t.items[i], p[1..], q[1..]);
          var a := t.items[i := Put(t.items[i], p[1..], REDACTED)];
          var b := t.items[j := Put(t.items[j], q[1..], REDACTED)];
          assert a[j := Put(a[j], q[1..], REDACTED)] == b[i := Put(b[i], p[1..], REDACTED)];
        } else {
          var x, y := Put(t.items[i], p[1..], REDACTED), Put(t.items[j], q[1..], REDACTED);
          assert t.items[i := x][j := y] == t.items[j := y][i := x];
        }
      }
    }
  }

  function Then(t: Option<Tree>, pointer: string): Option<Tree>
  {
    if t.None? then None else Step(t.value, pointer)
  }

  /** Two pointers may be applied in either order, and one applied twice acts once. */
  lemma StepsCommute(t: Tree, p: string, q: string)
    ensures Then(Step(t, p), q) == Then(Step(t, q), p)
    ensures Then(Step(t, p), p) == Step(t, p)
  {
    PathIsNotEmpty(p);
    PathIsNotEmpty(q);
    if Step(t, p).Some? {
      EffectKept(t, p, q);
      EffectKept(t, p, p);
    }
    if Step(t, q).Some? {
      EffectKept(t, q, p);
    }
    if Effect(t, p) == Hit {
      var path := PathOf(p).value;
      HitIsText(t, path);
      PutGet(t, path, REDACTED);
      PutGet(Put(t, path, REDACTED), path, REDACTED);
      HitIsText(Put(t, path, REDACTED), path);
      if Effect(t, q) == Hit {
        var path' := PathOf(q).value;
        HitIsText(t, path');
        HitIsText(Put(t, path, REDACTED), path');
        HitIsText(Put(t, path', REDACTED), path);
        PutsCommute(t, path, path');
      }
    }
  }

  // ----- Only the set of pointers matters -----

  lemma {:induction false} Absorbed(t: Tree, p: string, pointers: seq<string>)
    requires p in pointers
    ensures RedactAll(t, [p] + pointers) == RedactAll(t, pointers)
    decreases |pointers|
  {
    var q := pointers[0];
    assert ([p] + pointers)[1..] == pointers;
    StepsCommute(t, p, q);
    if q != p {
      assert p in pointers[1..];
      if Step(t, q).Some? {
        Absorbed(Step(t, q).value, p, pointers[1..]);
        assert ([p] + pointers[1..])[1..] == pointers[1..];
      }
    }
  }

  lemma {:induction false} AllAbsorbed(t: Tree, some: seq<string>, pointers: seq<string>)
    requires forall p :: p in some ==> p in pointers
    ensures RedactAll(t, some + pointers) == RedactAll(t, pointers)
  {
    if some == [] {
      assert some + pointers == pointers;
    } else {
      assert some + pointers == [some[0]] + (some[1..] + pointers);
      Absorbed(t, some[0], some[1..] + pointers);
      AllAbsorbed(t, some[1..], pointers);
    }
  }

  lemma {:induction false} MovedToEnd(t: Tree, p: string, pointers: seq<string>)
    ensures RedactAll(t, [p] + pointers) == RedactAll(t, pointers + [p])
    decreases |pointers|
  {
    if pointers == [] {
      assert [p] + pointers == pointers + [p];
    } else {
      var q := pointers[0];
      assert ([p] + pointers)[1..] == pointers && (pointers + [p])[1..] == pointers[1..] + [p];
      StepsCommute(t, p, q);
      if Step(t, q).Some? {
        MovedToEnd(Step(t, q).value, p, pointers[1..]);
        assert ([p] + pointers[1..])[1..] == pointers[1..];
      }
    }
  }

  lemma {:induction false} Swapped(t: Tree, first: seq<string>, second: seq<string>)
    ensures RedactAll(t, first + second) == RedactAll(t, second + first)
  {
    if first == [] {
      assert first + second == second == second + first;
    } else {
      assert first + second == [first[0]] + (first[1..] + second);
      MovedToEnd(t, first[0], first[1..] + second);
      assert (first[1..] + second) + [first[0]] == first[1..] + (second + [first[0]]);
      Swapped(t, first[1..], second + [first[0]]);
      assert (second + [first[0]]) + first[1..] == second + first;
    }
  }

  /** Redaction depends on the set of pointers only: not on their order, not on repetition. */
  lemma OrderDoesNotMatter(t: Tree, pointers: seq<string>, others: seq<string>)
    requires forall p :: p in pointers <==> p in others
    ensures RedactAll(t, pointers) == RedactAll(t, others) && Hits(t, pointers) == Hits(t, others)
  {
    AllAbsorbed(t, pointers, others);
    AllAbsorbed(t, others, pointers);
    Swapped(t, pointers, others);
  }

  lemma {:induction false} RedactTwo(t: Tree, first: seq<string>, second: seq<string>)
    ensures RedactAll(t, first + second) ==
            if RedactAll(t, first).None? then None else RedactAll(RedactAll(t, first).value, second)
    decreases |first|
  {
    if first == [] {
      assert first + second == second;
    } else {
      assert (first + second)[1..] == first[1..] + second;
      if Step(t, first[0]).Some? {
        RedactTwo(Step(t, first[0]).value, first[1..], second);
      }
    }
  }

  /** Redacting a redacted document again changes nothing. */
  lemma RedactionIsIdempotent(t: Tree, pointers: seq<string>)
    requires RedactAll(t, pointers).Some?
    ensures RedactAll(RedactAll(t, pointers).value, pointers) == RedactAll(t, pointers)
  {
    RedactTwo(t, pointers, pointers);
    AllAbsorbed(t, pointers, pointers);
  }

  // ----- What is changed -----

  ghost predicate Targeted(t: Tree, pointers: seq<string>, path: Path)
  {
    exists p :: p in pointers && PathOf(p) == Some(path) && Effect(t, p) == Hit
  }

  /** Exactly the targeted texts are replaced; every other leaf stays what and where it was. */
  lemma {:induction false} OnlyTargetsChange(t: Tree, pointers: seq<string>, path: Path)
    requires RedactAll(t, pointers).Some?
    ensures LeafAt(RedactAll(t, pointers).value, path) ==
            if Targeted(t, pointers, path) then Some(REDACTED) else LeafAt(t, path)
    decreases |pointers|
  {
    if pointers != [] {
      var p := pointers[0];
      var next := Step(t, p).value;
      OnlyTargetsChange(next, pointers[1..], path);
      forall q
        ensures Effect(next, q) == Effect(t, q)
      {
        EffectKept(t, p, q);
      }
      assert Targeted(t, pointers, path) <==>
             Targeted(next, pointers[1..], path) || (PathOf(p) == Some(path) && Effect(t, p) == Hit) by {
        assert pointers == [p] + pointers[1..];
      }
      if Effect(t, p) == Hit {
        PathIsNotEmpty(p);
        HitIsText(t, PathOf(p).value);
        PutLeaf(t, PathOf(p).value, REDACTED, path);
      }
    }
  }

  /** No redaction reaches a leaf under a protected name. */
  lemma ProtectedLeavesKept(t: Tree, pointers: seq<string>, path: Path)
    requires RedactAll(t, pointers).Some? && exists name :: name in path && P.IsProtected(name)
    ensures LeafAt(RedactAll(t, pointers).value, path) == LeafAt(t, path)
  {
    OnlyTargetsChange(t, pointers, path);
  }
}
