/** JSON documents as trees, and what lies at the end of a path. */
module JsonTrees {
  import opened Prelude
  import opened Decimals

  datatype Tree =
    | Scalar(text: Json)
    | Text(text: string)
    | Array(items: seq<Tree>)
    | Object(fields: map<string, Tree>)

  type Path = seq<string>

  /** `_array_index`; None is the integrity error. */
  function ArrayIndex(token: string, length: nat): (index: Option<nat>)
    ensures index.Some? ==> index.value < length
  {
    if Canonical(token) && Value(token) < length then Some(Value(token)) else None
  }

  /** Two tokens for one element are the same token. */
  lemma ArrayIndexInjective(a: string, b: string, length: nat)
    requires ArrayIndex(a, length).Some? && ArrayIndex(a, length) == ArrayIndex(b, length)
    ensures a == b
  {
    PrintRead(a);
    PrintRead(b);
  }

  predicate IsLeaf(t: Tree)
  {
    t.Scalar? || t.Text?
  }

  function Get(t: Tree, path: Path): Option<Tree>
  {
    if path == [] then Some(t)
    else if t.Object? && path[0] in t.fields then Get(t.fields[path[0]], path[1..])
    else if t.Array? && ArrayIndex(path[0], |t.items|).Some? then
      Get(t.items[ArrayIndex(path[0], |t.items|).value], path[1..])
    else None
  }

  /** The scalar or text at a path, if one is there. */
  function LeafAt(t: Tree, path: Path): Option<Tree>
  {
    var found := Get(t, path);
    if found.Some? && IsLeaf(found.value) then found else None
  }

  /** The tree with another value at a path that leads somewhere. */
  function Put(t: Tree, path: Path, value: Tree): Tree
    requires Get(t, path).Some?
  {
    if path == [] then value
    else if t.Object? then Object(t.fields[path[0] := Put(t.fields[path[0]], path[1..], value)])
    else
      var i := ArrayIndex(path[0], |t.items|).value;
      Array(t.items[i := Put(t.items[i], path[1..], value)])
  }

  /** Replacing a leaf by a leaf changes that leaf and no other. */
  lemma {:induction false} PutLeaf(t: Tree, path: Path, value: Tree, other: Path)
    requires LeafAt(t, path).Some? && IsLeaf(value)
    ensures LeafAt(Put(t, path, value), other) == if other == path then Some(value) else LeafAt(t, other)
  {
    if path != [] && other != [] {
      assert path == [path[0]] + path[1..] && other == [other[0]] + other[1..];
      if t.Object? {
        if other[0] == path[0] {
          PutLeaf(t.fields[path[0]], path[1..], value, other[1..]);
        }
      } else {
        var i, j := ArrayIndex(path[0], |t.items|), ArrayIndex(other[0], |t.items|);
        if i == j {
          ArrayIndexInjective(path[0], other[0], |t.items|);
          PutLeaf(t.items[i.value], path[1..], value, other[1..]);
        }
      }
    }
  }

  /** What stood at a path is what putting it back restores. */
  lemma {:induction false} PutGet(t: Tree, path: Path, value: Tree)
    requires Get(t, path).Some?
    ensures Get(Put(t, path, value), path) == Some(value)
    ensures Put(t, path, Get(t, path).value) == t
  {
    if path != [] {
      if t.Object? {
        PutGet(t.fields[path[0]], path[1..], value);
        assert t.fields[path[0] := t.fields[path[0]]] == t.fields;
      } else {
        var i := ArrayIndex(path[0], |t.items|).value;
        PutGet(t.items[i], path[1..], value);
        assert t.items[i := t.items[i]] == t.items;
      }
    }
  }

  /** Putting a value at a path leaves every path that neither leads to it nor goes through it. */
  lemma {:induction false} PutFrame(t: Tree, path: Path, value: Tree, other: Path)
    requires Get(t, path).Some? && !(path <= other) && !(other <= path)
    ensures Get(Put(t, path, value), other) == Get(t, other)
  {
    assert path == [path[0]] + path[1..] && other == [other[0]] + other[1..];
    if t.Object? {
      if other[0] == path[0] {
        PutFrame(t.fields[path[0]], path[1..], value, other[1..]);
      }
    } else {
      var i, j := ArrayIndex(path[0], |t.items|), ArrayIndex(other[0], |t.items|);
      if i == j {
        ArrayIndexInjective(path[0], other[0], |t.items|);
        PutFrame(t.items[i.value], path[1..], value, other[1..]);
      }
    }
  }
}
