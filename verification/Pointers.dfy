/** JSON Pointers (RFC 6901): the one-pass and the two-replace decoder, and whole pointers. */
module Pointers {
  import opened Prelude
  import opened Texts

  const MAX_POINTER: nat := 512

  // ----- One token -----

  /** Every '~' is followed by '0' or '1' (section 3 of RFC 6901). */
  predicate WellFormed(raw: string)
  {
    forall i :: 0 <= i < |raw| && raw[i] == '~' ==> i + 1 < |raw| && (raw[i + 1] == '0' || raw[i + 1] == '1')
  }

  /** The token a string is written as. */
  function Escape(s: string): string
  {
    if s == [] then []
    else (if s[0] == '~' then "~0" else if s[0] == '/' then "~1" else [s[0]]) + Escape(s[1..])
  }

  function Unescape(raw: string): Option<string>
  {
    if raw == [] then Some([])
    else if raw[0] != '~' then Then([raw[0]], Unescape(raw[1..]))
    else if |raw| < 2 || (raw[1] != '0' && raw[1] != '1') then None
    else Then([if raw[1] == '0' then '~' else '/'], Unescape(raw[2..]))
  }

  function Then(buffer: string, rest: Option<string>): Option<string>
  {
    if rest.None? then None else Some(buffer + rest.value)
  }

  /** The scan of `_pointer_parts`: an index and a buffer over one raw token. */
  method DecodeOnePass(raw: string) returns (decoded: Option<string>)
    ensures decoded == Unescape(raw)
  {
    var buffer := [];
    var index := 0;
    assert raw[0..] == raw && forall rest: string {:trigger Then([], Some(rest))} :: [] + rest == rest;
    while index < |raw|
      invariant 0 <= index <= |raw|
      invariant Unescape(raw) == Then(buffer, Unescape(raw[index..]))
    {
      var character := raw[index];
      if character != '~' {
        assert raw[index..][1..] == raw[index + 1..];
        ThenAppend(buffer, character, Unescape(raw[index + 1..]));
        buffer := buffer + [character];
        index := index + 1;
      } else {
        if index + 1 >= |raw| || (raw[index + 1] != '0' && raw[index + 1] != '1') {
          return None;
        }
        assert raw[index..][2..] == raw[index + 2..];
        ThenAppend(buffer, if raw[index + 1] == '0' then '~' else '/', Unescape(raw[index + 2..]));
        buffer := buffer + [if raw[index + 1] == '0' then '~' else '/'];
        index := index + 2;
      }
    }
    assert Unescape(raw[index..]) == Some([]) && buffer + [] == buffer;
    return Some(buffer);
  }

  lemma ThenAppend(buffer: string, c: char, rest: Option<string>)
    ensures Then(buffer, Then([c], rest)) == Then(buffer + [c], rest)
  {
    if rest.Some? {
      assert buffer + ([c] + rest.value) == (buffer + [c]) + rest.value;
    }
  }

  /** `str.replace` for a two-character pattern: leftmost, not overlapping. */
  function Replace(s: string, first: char, second: char, with: char): string
  {
    if |s| < 2 then s
    else if s[0] == first && s[1] == second then [with] + Replace(s[2..], first, second, with)
    else [s[0]] + Replace(s[1..], first, second, with)
  }

  /** `token.replace("~1", "/").replace("~0", "~")`. */
  function DecodeTwoReplace(raw: string): string
  {
    Replace(Replace(raw, '~', '1', '/'), '~', '0', '~')
  }

  lemma {:induction false} ReplaceHead(raw: string, c: char)
    requires c != '~'
    ensures Replace([c] + raw, '~', '1', '/') == [c] + Replace(raw, '~', '1', '/')
    ensures Replace([c] + raw, '~', '0', '~') == [c] + Replace(raw, '~', '0', '~')
  {
    assert ([c] + raw)[1..] == raw;
  }

  lemma WellFormedTail(raw: string, n: nat)
    requires WellFormed(raw) && n <= |raw|
    ensures WellFormed(raw[n..])
  {
    forall i | 0 <= i < |raw[n..]| && raw[n..][i] == '~'
      ensures i + 1 < |raw[n..]| && (raw[n..][i + 1] == '0' || raw[n..][i + 1] == '1')
    {
      assert raw[n + i] == '~';
    }
  }

  /** On well-formed tokens both decoders give the same string, the one whose escaped form is the
      token; on every other token the one-pass decoder refuses. */
  lemma {:induction false} DecodersAgree(raw: string)
    ensures Unescape(raw).Some? <==> WellFormed(raw)
    ensures WellFormed(raw) ==> Unescape(raw) == Some(DecodeTwoReplace(raw))
    decreases |raw|
  {
    if raw == [] {
    } else if raw[0] != '~' {
      DecodersAgree(raw[1..]);
      assert raw == [raw[0]] + raw[1..];
      if WellFormed(raw) {
        WellFormedTail(raw, 1);
        ReplaceHead(raw[1..], raw[0]);
        ReplaceHead(Replace(raw[1..], '~', '1', '/'), raw[0]);
      } else {
        var i :| 0 <= i < |raw| && raw[i] == '~' && !(i + 1 < |raw| && (raw[i + 1] == '0' || raw[i + 1] == '1'));
        assert raw[1..][i - 1] == '~';
      }
    } else if |raw| >= 2 && (raw[1] == '0' || raw[1] == '1') {
      DecodersAgree(raw[2..]);
      if WellFormed(raw) {
        WellFormedTail(raw, 2);
        EscapedHead(raw);
      } else {
        var i :| 0 <= i < |raw| && raw[i] == '~' && !(i + 1 < |raw| && (raw[i + 1] == '0' || raw[i + 1] == '1'));
        assert raw[2..][i - 2] == '~';
      }
    }
  }

  lemma EscapedHead(raw: string)
    requires |raw| >= 2 && raw[0] == '~' && (raw[1] == '0' || raw[1] == '1')
    ensures DecodeTwoReplace(raw) == [if raw[1] == '0' then '~' else '/'] + DecodeTwoReplace(raw[2..])
  {
    var tail := Replace(raw[2..], '~', '1', '/');
    if raw[1] == '1' {
      ReplaceHead(tail, '/');
    } else {
      assert raw[1..] == ['0'] + raw[2..];
      ReplaceHead(raw[2..], '0');
      assert Replace(raw, '~', '1', '/') == ['~'] + (['0'] + tail);
      assert (['~'] + (['0'] + tail))[2..] == tail;
    }
  }

  /** A malformed token only the two-replace decoder accepts. */
  lemma DecodersDifferOnMalformed()
    ensures Unescape("~2").None? && DecodeTwoReplace("~2") == "~2"
  {
    var raw := "~2";
    assert raw[0] == '~' && raw[1] == '2' && raw[1..] == "2";
    assert Replace(raw, '~', '1', '/') == raw && Replace(raw, '~', '0', '~') == raw;
  }

  lemma {:induction false} UnescapeEscaped(s: string)
    ensures Unescape(Escape(s)) == Some(s) && '/' !in Escape(s)
  {
    if s != [] {
      UnescapeEscaped(s[1..]);
      var head := if s[0] == '~' then "~0" else if s[0] == '/' then "~1" else [s[0]];
      var rest := Escape(s[1..]);
      assert Escape(s) == head + rest && (head + rest)[|head|..] == rest;
      assert s == [s[0]] + s[1..];
      if s[0] == '~' || s[0] == '/' {
        assert (head + rest)[0] == '~' && (head + rest)[1] == head[1];
      }
    }
  }

  lemma {:induction false} EscapeUnescaped(raw: string)
    requires Unescape(raw).Some? && '/' !in raw
    ensures Escape(Unescape(raw).value) == raw
    decreases |raw|
  {
    if raw == [] {
    } else if raw[0] != '~' {
      EscapeUnescaped(raw[1..]);
      assert raw == [raw[0]] + raw[1..];
    } else {
      EscapeUnescaped(raw[2..]);
      assert raw == raw[..2] + raw[2..];
    }
  }

  // ----- Whole pointers -----

  function Text(parts: seq<string>): string
  {
    if parts == [] then [] else ['/'] + Escape(parts[0]) + Text(parts[1..])
  }

  function UnescapeAll(raw: seq<string>): Option<seq<string>>
  {
    if raw == [] then Some([])
    else if Unescape(raw[0]).None? || UnescapeAll(raw[1..]).None? then None
    else Some([Unescape(raw[0]).value] + UnescapeAll(raw[1..]).value)
  }

  const PROTECTED: set<string> := {
    "schema_version", "id", "run_id", "event_id", "report_id", "evaluation_id", "scenario_id",
    "agent_configuration_id", "revision", "digest", "payload_digest", "input_digest", "sequence",
    "evidence_through_sequence" }

  /** Names of identities, digests and evidence boundaries. */
  predicate IsProtected(part: string)
  {
    || part in PROTECTED
    || (|part| >= 3 && part[|part| - 3..] == "_id")
    || Within("digest", part)
  }

  /** `_pointer_parts`; None is the integrity error. */
  function Parts(pointer: string): (parts: Option<seq<string>>)
    ensures parts.Some? ==> forall p :: p in parts.value ==> !IsProtected(p)
  {
    if pointer == [] || pointer[0] != '/' || |pointer| > MAX_POINTER then None
    else
      var parts := UnescapeAll(Split(pointer[1..], '/'));
      if parts.None? || exists p :: p in parts.value && IsProtected(p) then None else parts
  }

  lemma {:induction false} SplitText(parts: seq<string>)
    requires parts != []
    ensures UnescapeAll(Split(Text(parts)[1..], '/')) == Some(parts)
  {
    var token, more := Escape(parts[0]), parts[1..];
    UnescapeEscaped(parts[0]);
    assert parts == [parts[0]] + more;
    if more == [] {
      assert Text(parts)[1..] == token;
      SplitToken(token, [], '/');
      UnescapeFirst(token, []);
    } else {
      SplitText(more);
      var rest := Text(more)[1..];
      TextTail(parts);
      SplitToken(token, rest, '/');
      UnescapeFirst(token, Split(rest, '/'));
    }
  }

  lemma AfterFirst(c: char, a: string, t: string)
    requires t != [] && t[0] == c
    ensures ([c] + a + t)[1..] == a + [c] + t[1..]
  {
    assert t == [c] + t[1..];
  }

  lemma TextTail(parts: seq<string>)
    requires |parts| > 1
    ensures Text(parts)[1..] == Escape(parts[0]) + ['/'] + Text(parts[1..])[1..]
  {
    var more := Text(parts[1..]);
    assert more != [] && more[0] == '/';
    AfterFirst('/', Escape(parts[0]), more);
  }

  lemma UnescapeFirst(token: string, rest: seq<string>)
    requires Unescape(token).Some? && UnescapeAll(rest).Some?
    ensures UnescapeAll([token] + rest) == Some([Unescape(token).value] + UnescapeAll(rest).value)
  {
    assert ([token] + rest)[1..] == rest;
  }

  lemma JoinFirst(raw: string, rest: string, parts: seq<string>)
    requires parts != [] && Escape(parts[0]) == raw && Text(parts[1..]) == ['/'] + rest
    ensures Text(parts) == ['/'] + (raw + ['/'] + rest)
  {
  }

  lemma {:induction false} SplitJoins(s: string, parts: seq<string>)
    requires UnescapeAll(Split(s, '/')) == Some(parts)
    ensures Text(parts) == ['/'] + s
  {
    var raw := FirstToken(s, '/');
    EscapeUnescaped(raw);
    if raw == s {
      SplitToken(raw, [], '/');
      UnescapeFirst(raw, []);
      assert parts[1..] == [];
    } else {
      var rest := s[|raw| + 1..];
      assert s == raw + ['/'] + rest;
      SplitToken(raw, rest, '/');
      RestOfParts(raw, Split(rest, '/'), parts);
      SplitJoins(rest, parts[1..]);
      JoinFirst(raw, rest, parts);
    }
  }

  lemma RestOfParts(raw: string, rest: seq<string>, parts: seq<string>)
    requires UnescapeAll([raw] + rest) == Some(parts)
    ensures parts != [] && Unescape(raw) == Some(parts[0]) && UnescapeAll(rest) == Some(parts[1..])
  {
    assert ([raw] + rest)[1..] == rest;
  }

  /** Reading a printed pointer gives its parts back, and an accepted pointer is the printed form of its
      parts, so two accepted pointers with the same parts are the same text. */
  lemma PointerRoundTrip(parts: seq<string>, pointer: string)
    ensures parts != [] && (forall p :: p in parts ==> !IsProtected(p)) && |Text(parts)| <= MAX_POINTER ==>
              Parts(Text(parts)) == Some(parts)
    ensures Parts(pointer).Some? ==> Text(Parts(pointer).value) == pointer && Parts(pointer).value != []
  {
    if parts != [] {
      SplitText(parts);
    }
    if Parts(pointer).Some? {
      SplitJoins(pointer[1..], Parts(pointer).value);
      assert pointer == ['/'] + pointer[1..];
    }
  }
}
