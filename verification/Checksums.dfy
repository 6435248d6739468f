/** The checksum index of an export bundle: printing it and reading it back. */
module Checksums {
  import opened Prelude
  import opened Texts

  const MAX_INDEX: nat := 2 * 1024 * 1024

  // ----- Paths and digests -----

  predicate IsHex(digest: string)
  {
    |digest| == 64 && forall i :: 0 <= i < 64 ==> '0' <= digest[i] <= '9' || 'a' <= digest[i] <= 'f'
  }

  predicate IsLetter(c: char)
  {
    'A' <= c <= 'Z' || 'a' <= c <= 'z'
  }

  /** `_safe_path`: relative, normalised, without drive or backslash. A lone dot is its own normal form. */
  predicate IsSafe(path: string)
  {
    && path != [] && '\\' !in path && '\0' !in path
    && path[0] != '/'
    && !(|path| >= 2 && IsLetter(path[0]) && path[1] == ':')
    && (path == "." || forall part :: part in Split(path, '/') ==> part != "" && part != "." && part != "..")
  }

  predicate PathChar(c: char)
  {
    IsLetter(c) || '0' <= c <= '9' || c == '.' || c == '_' || c == ':' || c == '-'
  }

  /** The path group of `_CHECKSUM_RE`. */
  predicate IsWritable(path: string)
  {
    forall part :: part in Split(path, '/') ==> part != "" && forall i :: 0 <= i < |part| ==> PathChar(part[i])
  }

  lemma {:induction false} PartsChars(s: string, separator: char, i: nat)
    requires i < |s| && s[i] != separator
    ensures exists part :: part in Split(s, separator) && s[i] in part
  {
    var rest := Split(s[1..], separator);
    if i == 0 {
      assert s[0] in Split(s, separator)[0];
    } else {
      PartsChars(s[1..], separator, i - 1);
      var part :| part in rest && s[i] in part;
      if part == rest[0] && s[0] != separator {
        assert s[i] in Split(s, separator)[0];
      } else if s[0] == separator {
        assert part in [[]] + rest;
      } else {
        var j :| 0 <= j < |rest| && rest[j] == part;
        assert Split(s, separator)[j] == part;
      }
    }
  }

  lemma WritableChars(path: string)
    requires IsWritable(path)
    ensures forall i :: 0 <= i < |path| ==> PathChar(path[i]) || path[i] == '/'
    ensures '\n' !in path && ' ' !in path && IsAscii(path)
  {
    forall i | 0 <= i < |path|
      ensures PathChar(path[i]) || path[i] == '/'
    {
      if path[i] != '/' {
        PartsChars(path, '/', i);
      }
    }
  }

  // ----- One line -----

  datatype Entry = Entry(path: string, digest: string)

  function WriteLine(e: Entry): string
  {
    e.digest + "  " + e.path
  }

  /** One line without its end, as `_CHECKSUM_RE` matches it. */
  predicate Matches(line: string)
  {
    |line| > 66 && IsHex(line[..64]) && line[64..66] == "  " && IsWritable(line[66..])
  }

  function ReadLine(line: string): Option<Entry>
  {
    if Matches(line) && IsSafe(line[66..]) then Some(Entry(line[66..], line[..64])) else None
  }

  predicate Readable(e: Entry)
  {
    IsHex(e.digest) && IsWritable(e.path) && IsSafe(e.path)
  }

  lemma ReadWritten(e: Entry)
    requires IsHex(e.digest) && IsSafe(e.path)
    ensures IsWritable(e.path) ==> ReadLine(WriteLine(e)) == Some(e) && '\n' !in WriteLine(e)
  {
    var line := WriteLine(e);
    assert line[..64] == e.digest && line[64..66] == "  " && line[66..] == e.path;
    if IsWritable(e.path) {
      WritableChars(e.path);
    }
  }

  lemma WriteRead(line: string)
    requires ReadLine(line).Some?
    ensures WriteLine(ReadLine(line).value) == line && Readable(ReadLine(line).value)
  {
    assert line == line[..64] + line[64..66] + line[66..];
  }

  // ----- Printing -----

  function Concat(lines: seq<string>): string
  {
    if lines == [] then [] else Concat(Front(lines)) + (Last(lines) + ['\n'])
  }

  function WriteBy(write: Entry -> string, entries: seq<Entry>): (lines: seq<string>)
    ensures |lines| == |entries|
  {
    seq(|entries|, i requires 0 <= i < |entries| => write(entries[i]))
  }

  function WriteAll(entries: seq<Entry>): (lines: seq<string>)
  {
    WriteBy(WriteLine, entries)
  }

  function Listed(paths: seq<string>, index: map<string, string>): (entries: seq<Entry>)
    requires forall p :: p in paths ==> p in index
    ensures |entries| == |paths|
  {
    seq(|paths|, i requires 0 <= i < |paths| => assert paths[i] in paths; Entry(paths[i], index[paths[i]]))
  }

  /** The entries of an index in path order. */
  ghost function EntriesOf(index: map<string, string>): seq<Entry>
  {
    Listed(SortedKeys(index.Keys), index)
  }

  predicate AllSafe(entries: seq<Entry>)
  {
    forall e :: e in entries ==> IsSafe(e.path)
  }

  /** `checksum_index`, of the digests by path; None where a path is unsafe or not ASCII. */
  ghost function Print(index: map<string, string>): Option<string>
  {
    var text := Concat(WriteAll(EntriesOf(index)));
    if AllSafe(EntriesOf(index)) && IsAscii(text) then Some(text) else None
  }

  method ChecksumIndex(index: map<string, string>) returns (text: Option<string>)
    ensures text == Print(index)
  {
    var paths := SortKeys(index.Keys);
    var safe, lines := JoinLines(Listed(paths, index));
    return if safe && IsAscii(lines) then Some(lines) else None;
  }

  /** The loop over the sorted paths. */
  method JoinLines(entries: seq<Entry>) returns (safe: bool, lines: string)
    ensures safe <==> AllSafe(entries)
    ensures safe ==> lines == Concat(WriteAll(entries))
  {
    lines := [];
    for i := 0 to |entries|
      invariant AllSafe(entries[..i])
      invariant lines == Concat(WriteAll(entries[..i]))
    {
      assert entries[..i + 1] == entries[..i] + [entries[i]];
      if !IsSafe(entries[i].path) {
        assert entries[i] in entries;
        return false, [];
      }
      WriteOneMore(entries[..i], entries[i]);
      lines := lines + (WriteLine(entries[i]) + ['\n']);
    }
    assert entries[..|entries|] == entries;
    return true, lines;
  }

  lemma WriteOneMore(entries: seq<Entry>, e: Entry)
    ensures WriteAll(entries + [e]) == WriteAll(entries) + [WriteLine(e)]
    ensures Concat(WriteAll(entries + [e])) == Concat(WriteAll(entries)) + (WriteLine(e) + ['\n'])
  {
    assert Front(WriteAll(entries + [e])) == WriteAll(entries);
  }

  // ----- Reading -----

  /** The lines of a text whose every line is ended; any line break other than LF is refused by `Matches`. */
  function SplitLines(text: string): Option<seq<string>>
  {
    var parts := Split(text, '\n');
    if Last(parts) == [] then Some(Front(parts)) else None
  }

  function ReadBy(read: string -> Option<Entry>, lines: seq<string>): Option<seq<Entry>>
  {
    if lines == [] then Some([])
    else
      var before, entry := ReadBy(read, Front(lines)), read(Last(lines));
      if before.None? || entry.None? then None else Some(before.value + [entry.value])
  }

  function ReadAll(lines: seq<string>): Option<seq<Entry>>
  {
    ReadBy(ReadLine, lines)
  }

  /** Entries in strictly increasing path order make an index. */
  function IndexOf(entries: seq<Entry>): Option<map<string, string>>
  {
    if entries == [] then Some(map[])
    else
      var before, e := IndexOf(Front(entries)), Last(entries);
      if before.None? || (|entries| > 1 && !Before(entries[|entries| - 2].path, e.path)) || e.path in before.value then None
      else Some(before.value[e.path := e.digest])
  }

  /** `parse_checksum_index`, less the prefix it puts before each digest. */
  function Parse(text: string): Option<map<string, string>>
  {
    if |text| > MAX_INDEX || !IsAscii(text) || SplitLines(text).None? then None
    else
      var entries := ReadAll(SplitLines(text).value);
      if entries.None? then None else IndexOf(entries.value)
  }

  method ParseChecksumIndex(text: string) returns (index: Option<map<string, string>>)
    ensures index == Parse(text)
  {
    if |text| > MAX_INDEX || !IsAscii(text) || SplitLines(text).None? {
      return None;
    }
    index := ParseLines(SplitLines(text).value);
  }

  /** The loop over the lines, which remembers the previous path. */
  method ParseLines(lines: seq<string>) returns (index: Option<map<string, string>>)
    ensures index == if ReadAll(lines).None? then None else IndexOf(ReadAll(lines).value)
  {
    var result: map<string, string> := map[];
    var previous := "";
    ghost var entries := [];
    for i := 0 to |lines|
      invariant ReadAll(lines[..i]) == Some(entries) && IndexOf(entries) == Some(result)
      invariant previous == if entries == [] then "" else Last(entries).path
    {
      ReadNext(lines, i, entries);
      var entry := ReadLine(lines[i]);
      if entry.None? {
        RefusedPrefix(lines, i + 1);
        return None;
      }
      IndexNext(entries, result, previous, entry.value);
      if entry.value.path in result || !Before(previous, entry.value.path) {
        RefusedEntries(lines, i + 1);
        return None;
      }
      result := result[entry.value.path := entry.value.digest];
      previous := entry.value.path;
      entries := entries + [entry.value];
    }
    assert lines[..|lines|] == lines;
    return Some(result);
  }

  lemma ReadNext(lines: seq<string>, i: nat, entries: seq<Entry>)
    requires i < |lines| && ReadAll(lines[..i]) == Some(entries)
    ensures ReadAll(lines[..i + 1]) ==
            if ReadLine(lines[i]).None? then None else Some(entries + [ReadLine(lines[i]).value])
    ensures ReadLine(lines[i]).Some? ==> ReadLine(lines[i]).value.path != ""
  {
    assert Front(lines[..i + 1]) == lines[..i] && Last(lines[..i + 1]) == lines[i];
  }

  lemma IndexNext(entries: seq<Entry>, result: map<string, string>, previous: string, e: Entry)
    requires IndexOf(entries) == Some(result) && e.path != ""
    requires previous == if entries == [] then "" else Last(entries).path
    ensures IndexOf(entries + [e]) ==
            if e.path in result || !Before(previous, e.path) then None else Some(result[e.path := e.digest])
  {
    NotEmptyPath(e.path);
    assert Front(entries + [e]) == entries;
  }

  lemma NotEmptyPath(path: string)
    ensures path != "" ==> Before("", path)
  {
  }

  lemma {:induction false} RefusedPrefix(lines: seq<string>, n: nat)
    requires n <= |lines| && ReadAll(lines[..n]).None?
    ensures ReadAll(lines).None?
  {
    if n == |lines| {
      assert lines[..n] == lines;
    } else {
      assert Front(lines)[..n] == lines[..n];
      RefusedPrefix(Front(lines), n);
    }
  }

  lemma {:induction false} RefusedEntries(lines: seq<string>, n: nat)
    requires n <= |lines| && ReadAll(lines[..n]).Some? && IndexOf(ReadAll(lines[..n]).value).None?
    ensures ReadAll(lines).Some? ==> IndexOf(ReadAll(lines).value).None?
  {
    if n == |lines| {
      assert lines[..n] == lines;
    } else if ReadAll(lines).Some? {
      assert Front(lines)[..n] == lines[..n];
      RefusedEntries(Front(lines), n);
      assert Front(ReadAll(lines).value) == ReadAll(Front(lines)).value;
    }
  }

  // ----- Each undoes the other -----

  function PathsOf(entries: seq<Entry>): (paths: seq<string>)
    ensures |paths| == |entries|
  {
    seq(|entries|, i requires 0 <= i < |entries| => entries[i].path)
  }

  /** The index holds the entries, and nothing else. */
  ghost predicate Holds(index: map<string, string>, entries: seq<Entry>)
  {
    && (forall p :: p in index <==> p in PathsOf(entries))
    && forall e :: e in entries ==> e.path in index && index[e.path] == e.digest
  }

  lemma FrontPaths(entries: seq<Entry>)
    requires entries != []
    ensures PathsOf(entries) == PathsOf(Front(entries)) + [Last(entries).path]
    ensures entries == Front(entries) + [Last(entries)]
    ensures Increasing(PathsOf(entries)) ==> Increasing(PathsOf(Front(entries)))
  {
    assert forall i :: 0 <= i < |entries| - 1 ==> PathsOf(Front(entries))[i] == PathsOf(entries)[i];
  }

  lemma {:induction false} IndexedHolds(entries: seq<Entry>)
    requires IndexOf(entries).Some?
    ensures Increasing(PathsOf(entries)) && Holds(IndexOf(entries).value, entries)
  {
    if entries != [] {
      var before, e := Front(entries), Last(entries);
      IndexedHolds(before);
      FrontPaths(entries);
      NewIsLast(before, e);
      assert forall x :: x in before ==> x.path in PathsOf(before) by {
        forall x | x in before
          ensures x.path in PathsOf(before)
        {
          var i :| 0 <= i < |before| && before[i] == x;
          assert PathsOf(before)[i] == x.path;
        }
      }
    }
  }

  lemma NewIsLast(before: seq<Entry>, e: Entry)
    requires Increasing(PathsOf(before)) && (before == [] || Before(Last(before).path, e.path))
    ensures Increasing(PathsOf(before) + [e.path])
  {
    var paths := PathsOf(before);
    if before != [] {
      LastIsGreatest(paths);
      forall i | 0 <= i < |paths|
        ensures Before(paths[i], e.path)
      {
        assert paths[i] in paths;
        if paths[i] != Last(paths) {
          BeforeIsTransitive(paths[i], Last(paths), e.path);
        }
      }
    }
  }

  lemma {:induction false} IncreasingIndexes(entries: seq<Entry>)
    requires Increasing(PathsOf(entries))
    ensures IndexOf(entries).Some?
  {
    if entries != [] {
      FrontPaths(entries);
      IncreasingIndexes(Front(entries));
      NextIsAccepted(entries);
    }
  }

  lemma NextIsAccepted(entries: seq<Entry>)
    requires entries != [] && Increasing(PathsOf(entries)) && IndexOf(Front(entries)).Some?
    ensures Last(entries).path !in IndexOf(Front(entries)).value
    ensures |entries| > 1 ==> Before(entries[|entries| - 2].path, Last(entries).path)
  {
    var paths := PathsOf(entries);
    IndexedHolds(Front(entries));
    LastIsGreatest(paths);
    assert Front(paths) == PathsOf(Front(entries));
    if |entries| > 1 {
      assert Before(paths[|entries| - 2], paths[|entries| - 1]);
    }
  }

  lemma SameIndex(a: map<string, string>, b: map<string, string>, entries: seq<Entry>)
    requires Holds(a, entries) && Holds(b, entries)
    ensures a == b
  {
    forall p | p in a
      ensures p in b && a[p] == b[p]
    {
      var i :| 0 <= i < |entries| && PathsOf(entries)[i] == p;
      assert entries[i] in entries;
    }
  }

  lemma ListedHolds(index: map<string, string>)
    ensures PathsOf(EntriesOf(index)) == SortedKeys(index.Keys) && Holds(index, EntriesOf(index))
  {
    var entries := EntriesOf(index);
    assert PathsOf(entries) == SortedKeys(index.Keys);
  }

  /** An index and its ordered entries determine each other. */
  lemma EntriesAndIndex(index: map<string, string>, entries: seq<Entry>)
    ensures IndexOf(EntriesOf(index)) == Some(index)
    ensures IndexOf(entries) == Some(index) ==> EntriesOf(index) == entries
  {
    ListedHolds(index);
    IncreasingIndexes(EntriesOf(index));
    IndexedHolds(EntriesOf(index));
    SameIndex(index, IndexOf(EntriesOf(index)).value, EntriesOf(index));
    if IndexOf(entries) == Some(index) {
      IndexedHolds(entries);
      IncreasingIsCanonical(PathsOf(entries), SortedKeys(index.Keys));
      forall i | 0 <= i < |entries|
        ensures EntriesOf(index)[i] == entries[i]
      {
        assert PathsOf(entries)[i] == entries[i].path && entries[i] in entries;
      }
    }
  }

  /** Reading what is written line by line, and writing what is read. */
  lemma {:induction false} ReadWrittenBy(read: string -> Option<Entry>, write: Entry -> string, entries: seq<Entry>)
    requires forall e :: e in entries ==> read(write(e)) == Some(e)
    ensures ReadBy(read, WriteBy(write, entries)) == Some(entries)
  {
    if entries != [] {
      assert entries == Front(entries) + [Last(entries)];
      ReadWrittenBy(read, write, Front(entries));
      assert Front(WriteBy(write, entries)) == WriteBy(write, Front(entries));
    }
  }

  lemma {:induction false} WriteReadBy(read: string -> Option<Entry>, write: Entry -> string, lines: seq<string>)
    requires forall line :: read(line).Some? ==> write(read(line).value) == line
    requires ReadBy(read, lines).Some?
    ensures WriteBy(write, ReadBy(read, lines).value) == lines
    ensures forall e :: e in ReadBy(read, lines).value ==> exists line :: read(line) == Some(e)
  {
    if lines != [] {
      WriteReadBy(read, write, Front(lines));
      assert lines == Front(lines) + [Last(lines)];
    }
  }

  lemma ReadWrittenAll(entries: seq<Entry>)
    requires forall e :: e in entries ==> Readable(e)
    ensures ReadAll(WriteAll(entries)) == Some(entries)
    ensures forall line :: line in WriteAll(entries) ==> '\n' !in line
  {
    forall e | e in entries
      ensures ReadLine(WriteLine(e)) == Some(e) && '\n' !in WriteLine(e)
    {
      ReadWritten(e);
    }
    ReadWrittenBy(ReadLine, WriteLine, entries);
  }

  lemma WriteReadAll(lines: seq<string>)
    requires ReadAll(lines).Some?
    ensures WriteAll(ReadAll(lines).value) == lines
    ensures forall e :: e in ReadAll(lines).value ==> Readable(e)
  {
    forall line | ReadLine(line).Some?
      ensures WriteLine(ReadLine(line).value) == line && Readable(ReadLine(line).value)
    {
      WriteRead(line);
    }
    WriteReadBy(ReadLine, WriteLine, lines);
  }

  lemma EndOfText(raw: string, last: string)
    requires '\n' !in raw && '\n' !in last
    ensures Split(raw, '\n') == [raw] && Split(raw + (last + ['\n']), '\n') == [raw + last, []]
  {
    SplitToken(raw, [], '\n');
    SplitToken(raw + last, [], '\n');
    SplitToken([], [], '\n');
    assert raw + (last + ['\n']) == (raw + last) + ['\n'] + [];
  }

  lemma SplitMore(raw: string, rest: string, more: string)
    requires '\n' !in raw
    ensures Split(raw + ['\n'] + rest, '\n') == [raw] + Split(rest, '\n')
    ensures Split(raw + ['\n'] + rest + more, '\n') == [raw] + Split(rest + more, '\n')
  {
    SplitToken(raw, rest, '\n');
    SplitToken(raw, rest + more, '\n');
    assert raw + ['\n'] + rest + more == raw + ['\n'] + (rest + more);
  }

  lemma EndOfParts(raw: string, parts: seq<string>)
    requires parts != []
    ensures Front([raw] + parts) == [raw] + Front(parts) && Last([raw] + parts) == Last(parts)
  {
  }

  lemma {:induction false} SplitBefore(lines: string, last: string)
    requires '\n' !in last
    ensures Split(lines + (last + ['\n']), '\n') ==
            Front(Split(lines, '\n')) + [Last(Split(lines, '\n')) + last, []]
    decreases |lines|
  {
    var raw := FirstToken(lines, '\n');
    if raw == lines {
      EndOfText(raw, last);
    } else {
      var rest := lines[|raw| + 1..];
      assert lines == raw + ['\n'] + rest;
      SplitMore(raw, rest, last + ['\n']);
      SplitBefore(rest, last);
      EndOfParts(raw, Split(rest, '\n'));
    }
  }

  lemma {:induction false} SplitConcat(lines: seq<string>)
    requires forall line :: line in lines ==> '\n' !in line
    ensures Split(Concat(lines), '\n') == lines + [[]]
  {
    if lines == [] {
      SplitToken([], [], '\n');
    } else {
      SplitConcat(Front(lines));
      SplitBefore(Concat(Front(lines)), Last(lines));
      assert lines == Front(lines) + [Last(lines)];
      assert [] + Last(lines) == Last(lines);
    }
  }

  lemma {:induction false} PartsHaveNoSeparator(text: string)
    ensures forall part :: part in Split(text, '\n') ==> '\n' !in part
    decreases |text|
  {
    var raw := FirstToken(text, '\n');
    if raw == text {
      SplitToken(raw, [], '\n');
    } else {
      var rest := text[|raw| + 1..];
      assert text == raw + ['\n'] + rest;
      SplitToken(raw, rest, '\n');
      PartsHaveNoSeparator(rest);
    }
  }

  lemma {:induction false} SplitInjective(a: string, b: string)
    requires Split(a, '\n') == Split(b, '\n')
    ensures a == b
    decreases |a|
  {
    var raw := FirstToken(a, '\n');
    var raw' := FirstToken(b, '\n');
    assert raw == raw';
    SplitToken(raw, [], '\n');
    if raw != a {
      var rest := a[|raw| + 1..];
      assert a == raw + ['\n'] + rest;
      SplitToken(raw, rest, '\n');
      assert |Split(rest, '\n')| > 0;
    }
    if raw != b {
      var rest' := b[|raw| + 1..];
      assert b == raw + ['\n'] + rest';
      SplitToken(raw, rest', '\n');
    }
    if raw != a && raw != b {
      assert Split(a, '\n')[1..] == Split(a[|raw| + 1..], '\n');
      assert Split(b, '\n')[1..] == Split(b[|raw| + 1..], '\n');
      SplitInjective(a[|raw| + 1..], b[|raw| + 1..]);
    }
  }

  lemma ConcatSplit(text: string)
    requires SplitLines(text).Some?
    ensures Concat(SplitLines(text).value) == text
  {
    var parts, lines := Split(text, '\n'), SplitLines(text).value;
    PartsHaveNoSeparator(text);
    assert parts == lines + [Last(parts)];
    SplitConcat(lines);
    SplitInjective(Concat(lines), text);
  }

  ghost predicate Digested(index: map<string, string>)
  {
    forall p :: p in index ==> IsHex(index[p])
  }

  lemma ReadsBack(index: map<string, string>)
    requires Digested(index) && Print(index).Some? && |Print(index).value| <= MAX_INDEX
    requires forall p :: p in index ==> IsWritable(p)
    ensures Parse(Print(index).value) == Some(index)
  {
    var entries := EntriesOf(index);
    EntriesReadable(index);
    ReadWrittenAll(entries);
    SplitConcat(WriteAll(entries));
    assert Front(WriteAll(entries) + [[]]) == WriteAll(entries);
    EntriesAndIndex(index, entries);
  }

  lemma EntriesReadable(index: map<string, string>)
    requires Digested(index) && (forall p :: p in index ==> IsWritable(p)) && AllSafe(EntriesOf(index))
    ensures forall e :: e in EntriesOf(index) ==> Readable(e)
  {
    ListedHolds(index);
  }

  lemma ParsedIsWritable(text: string, index: map<string, string>)
    requires Parse(text) == Some(index)
    ensures forall p :: p in index ==> IsWritable(p) && IsSafe(p)
  {
    var lines := SplitLines(text).value;
    var entries := ReadAll(lines).value;
    WriteReadAll(lines);
    IndexedHolds(entries);
    forall p | p in index
      ensures IsWritable(p) && IsSafe(p)
    {
      var i :| 0 <= i < |entries| && PathsOf(entries)[i] == p;
      assert entries[i] in entries;
    }
  }

  /** Reading a printed index gives it back exactly when every path is one the reader's pattern allows and
      the text is within the size limit. */
  lemma ReadsBackExactly(index: map<string, string>)
    requires Digested(index) && Print(index).Some?
    ensures Parse(Print(index).value) == Some(index) <==>
            (forall p :: p in index ==> IsWritable(p)) && |Print(index).value| <= MAX_INDEX
  {
    var text := Print(index).value;
    if (forall p :: p in index ==> IsWritable(p)) && |text| <= MAX_INDEX {
      ReadsBack(index);
    }
    if Parse(text) == Some(index) {
      ParsedIsWritable(text, index);
    }
  }

  /** Printing what was read gives the text back, for every text the reader accepts. */
  lemma PrintsBack(text: string)
    requires Parse(text).Some?
    ensures Print(Parse(text).value) == Some(text)
  {
    var index, lines := Parse(text).value, SplitLines(text).value;
    WriteReadAll(lines);
    EntriesAndIndex(index, ReadAll(lines).value);
    ConcatSplit(text);
  }

  lemma SafeIsNotWritable()
    ensures IsSafe("a b") && IsAscii("a b") && !IsWritable("a b")
  {
    var path := "a b";
    SplitToken(path, [], '/');
    assert path[1] == ' ' && !PathChar(path[1]);
    assert path in Split(path, '/');
  }

  lemma OneEntry(path: string, digest: string)
    ensures EntriesOf(map[path := digest]) == [Entry(path, digest)]
  {
    var index := map[path := digest];
    var paths := SortedKeys(index.Keys);
    assert path in paths;
    if |paths| > 1 {
      assert paths[0] in paths && paths[1] in paths && Before(paths[0], paths[1]);
      BeforeIsTotal(path, path);
    }
    assert paths == [path];
  }

  lemma OneLine(path: string, digest: string)
    requires IsHex(digest) && IsSafe(path) && IsAscii(path)
    ensures Print(map[path := digest]) == Some(WriteLine(Entry(path, digest)) + ['\n'])
  {
    var e := Entry(path, digest);
    OneEntry(path, digest);
    WriteOneMore([], e);
    assert [] + [e] == [e] && WriteAll([]) == [];
    assert Concat(WriteAll([e])) == WriteLine(e) + ['\n'];
  }

  /** An index the printer writes and the reader does not read back, whatever the digest in it. */
  lemma SomeIndexIsNotReadBack(digest: string)
    requires IsHex(digest)
    ensures var printed := Print(map["a b" := digest]);
            printed.Some? && Parse(printed.value) != Some(map["a b" := digest])
  {
    SafeIsNotWritable();
    OneLine("a b", digest);
    assert "a b" in map["a b" := digest];
    ReadsBackExactly(map["a b" := digest]);
  }
}
