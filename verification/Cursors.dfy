/** Opaque event cursors: base64url (section 5 of RFC 4648) of run, sequence and event. */
module Cursors {
  import opened Prelude
  import opened Texts
  import opened Decimals

  const MAX_SEQUENCE: nat := 9_007_199_254_740_991

  type Byte = b: int | 0 <= b < 256

  // ----- base64url -----

  type Sextet = d: int | 0 <= d < 64

  function Char64(d: Sextet): char
  {
    if d < 26 then ('A' as int + d) as char
    else if d < 52 then ('a' as int + d - 26) as char
    else if d < 62 then ('0' as int + d - 52) as char
    else if d == 62 then '-' else '_'
  }

  function Digit64(c: char): Option<Sextet>
  {
    if 'A' <= c <= 'Z' then Some(c as int - 'A' as int)
    else if 'a' <= c <= 'z' then Some(c as int - 'a' as int + 26)
    else if '0' <= c <= '9' then Some(c as int - '0' as int + 52)
    else if c == '-' then Some(62) else if c == '_' then Some(63) else None
  }

  function First6(a: Byte): Sextet
  {
    a / 4
  }

  function Second6(a: Byte, b: Byte): Sextet
  {
    a % 4 * 16 + b / 16
  }

  function Third6(b: Byte, c: Byte): Sextet
  {
    b % 16 * 4 + c / 64
  }

  function Fourth6(c: Byte): Sextet
  {
    c % 64
  }

  function First8(p: Sextet, q: Sextet): Byte
  {
    (p as int) * 4 + q / 16
  }

  function Second8(q: Sextet, r: Sextet): Byte
  {
    (q as int) % 16 * 16 + r / 4
  }

  function Third8(r: Sextet, s: Sextet): Byte
  {
    (r as int) % 4 * 64 + s
  }

  /** Four groups of six bits hold three bytes. */
  lemma SameBits(a: Byte, b: Byte, c: Byte)
    ensures First8(First6(a), Second6(a, b)) == a
    ensures Second8(Second6(a, b), Third6(b, c)) == b
    ensures Third8(Third6(b, c), Fourth6(c)) == c
  {
  }

  /** Three bytes in four groups of six bits; a rest of one or two bytes in two or three. */
  function Sextets(bytes: seq<Byte>): seq<Sextet>
  {
    if bytes == [] then []
    else if |bytes| == 1 then [First6(bytes[0]), Second6(bytes[0], 0)]
    else if |bytes| == 2 then [First6(bytes[0]), Second6(bytes[0], bytes[1]), Third6(bytes[1], 0)]
    else
      [First6(bytes[0]), Second6(bytes[0], bytes[1]), Third6(bytes[1], bytes[2]), Fourth6(bytes[2])] + Sextets(bytes[3..])
  }

  /** The bytes of some groups; the bits left over in the last group are dropped. */
  function Octets(s: seq<Sextet>): seq<Byte>
  {
    if |s| < 2 then []
    else if |s| == 2 then [First8(s[0], s[1])]
    else if |s| == 3 then [First8(s[0], s[1]), Second8(s[1], s[2])]
    else [First8(s[0], s[1]), Second8(s[1], s[2]), Third8(s[2], s[3])] + Octets(s[4..])
  }

  function Chars64(s: seq<Sextet>): (text: string)
    ensures |text| == |s|
  {
    seq(|s|, i requires 0 <= i < |s| => Char64(s[i]))
  }

  predicate Is64(s: string)
  {
    forall i :: 0 <= i < |s| ==> Digit64(s[i]).Some?
  }

  function Digits64(s: string): (d: seq<Sextet>)
    requires Is64(s)
    ensures |d| == |s|
  {
    seq(|s|, i requires 0 <= i < |s| => Digit64(s[i]).value)
  }

  /** `urlsafe_b64encode`, without padding. */
  function Encode64(bytes: seq<Byte>): string
  {
    Chars64(Sextets(bytes))
  }

  /** `b64decode` of the padded text; one character alone is an error. */
  function Decode64(s: string): Option<seq<Byte>>
  {
    if !Is64(s) || |s| % 4 == 1 then None else Some(Octets(Digits64(s)))
  }

  lemma ReadChars64(s: seq<Sextet>)
    ensures Is64(Chars64(s)) && Digits64(Chars64(s)) == s
  {
    forall i | 0 <= i < |s|
      ensures Digit64(Chars64(s)[i]) == Some(s[i])
    {
      ReadChar64(s[i]);
    }
  }

  lemma ReadChar64(d: Sextet)
    ensures Digit64(Char64(d)) == Some(d)
  {
  }

  lemma {:induction false} SextetsSize(bytes: seq<Byte>)
    ensures |Sextets(bytes)| == (|bytes| * 4 + 2) / 3 && |Sextets(bytes)| % 4 != 1
  {
    if |bytes| >= 3 {
      SextetsSize(bytes[3..]);
      assert |Sextets(bytes)| == |Sextets(bytes[3..])| + 4;
      FourMore(|bytes| - 3, |Sextets(bytes[3..])|);
    }
  }

  lemma FourMore(n: nat, m: nat)
    requires m == (n * 4 + 2) / 3 && m % 4 != 1
    ensures m + 4 == ((n + 3) * 4 + 2) / 3 && (m + 4) % 4 != 1
  {
  }

  lemma OctetsOfFour(p: Sextet, q: Sextet, r: Sextet, s: Sextet, rest: seq<Sextet>)
    ensures Octets([p, q, r, s] + rest) == [First8(p, q), Second8(q, r), Third8(r, s)] + Octets(rest)
  {
    assert ([p, q, r, s] + rest)[4..] == rest;
  }

  lemma OctetsOfFew(p: Sextet, q: Sextet, r: Sextet)
    ensures Octets([p, q]) == [First8(p, q)] && Octets([p, q, r]) == [First8(p, q), Second8(q, r)]
  {
  }

  lemma OneByte(a: Byte)
    ensures Octets(Sextets([a])) == [a]
  {
    OctetsOfFew(First6(a), Second6(a, 0), 0);
    SameBits(a, 0, 0);
  }

  lemma TwoBytes(a: Byte, b: Byte)
    ensures Octets(Sextets([a, b])) == [a, b]
  {
    OctetsOfFew(First6(a), Second6(a, b), Third6(b, 0));
    SameBits(a, b, 0);
  }

  lemma SextetsOfMore(a: Byte, b: Byte, c: Byte, rest: seq<Byte>)
    ensures Sextets([a, b, c] + rest) == [First6(a), Second6(a, b), Third6(b, c), Fourth6(c)] + Sextets(rest)
  {
    assert ([a, b, c] + rest)[3..] == rest;
  }

  lemma JoinFour(p: Sextet, q: Sextet, r: Sextet, s: Sextet, a: Byte, b: Byte, c: Byte, rest: seq<Sextet>)
    requires First8(p, q) == a && Second8(q, r) == b && Third8(r, s) == c
    ensures Octets([p, q, r, s] + rest) == [a, b, c] + Octets(rest)
  {
    OctetsOfFour(p, q, r, s, rest);
  }

  lemma MoreBytes(a: Byte, b: Byte, c: Byte, rest: seq<Byte>)
    ensures Octets(Sextets([a, b, c] + rest)) == [a, b, c] + Octets(Sextets(rest))
  {
    SextetsOfMore(a, b, c, rest);
    SameBits(a, b, c);
    JoinFour(First6(a), Second6(a, b), Third6(b, c), Fourth6(c), a, b, c, Sextets(rest));
  }

  lemma {:induction false} OctetsOfSextets(bytes: seq<Byte>)
    ensures Octets(Sextets(bytes)) == bytes
  {
    if |bytes| == 1 {
      OneByte(bytes[0]);
      assert bytes == [bytes[0]];
    } else if |bytes| == 2 {
      TwoBytes(bytes[0], bytes[1]);
      assert bytes == [bytes[0], bytes[1]];
    } else if |bytes| > 2 {
      OctetsOfSextets(bytes[3..]);
      MoreBytes(bytes[0], bytes[1], bytes[2], bytes[3..]);
      assert bytes == [bytes[0], bytes[1], bytes[2]] + bytes[3..];
    }
  }

  lemma DecodeEncoded(bytes: seq<Byte>)
    ensures Is64(Encode64(bytes)) && |Encode64(bytes)| == (|bytes| * 4 + 2) / 3
    ensures Decode64(Encode64(bytes)) == Some(bytes)
  {
    ReadChars64(Sextets(bytes));
    SextetsSize(bytes);
    OctetsOfSextets(bytes);
  }

  // ----- Cursors -----

  datatype Cursor = Cursor(runId: string, sequence: int, eventId: string)

  predicate IdChar(c: char)
  {
    'A' <= c <= 'Z' || 'a' <= c <= 'z' || '0' <= c <= '9' || c == '.' || c == '_' || c == ':' || c == '-'
  }

  /** `_IDENTIFIER_RE`. */
  predicate IsIdentifier(s: string)
  {
    && 1 <= |s| <= 128
    && (forall i :: 0 <= i < |s| ==> IdChar(s[i]))
    && ('A' <= s[0] <= 'Z' || 'a' <= s[0] <= 'z' || '0' <= s[0] <= '9')
  }

  predicate Valid(c: Cursor)
  {
    IsIdentifier(c.runId) && IsIdentifier(c.eventId) && 1 <= c.sequence <= MAX_SEQUENCE
  }

  function Ascii(s: string): (bytes: seq<Byte>)
    requires IsAscii(s)
    ensures |bytes| == |s|
  {
    seq(|s|, i requires 0 <= i < |s| => s[i] as int)
  }

  function Material(c: Cursor): string
    requires c.sequence > 0
  {
    c.runId + ['\n'] + (Digits(c.sequence) + ['\n'] + c.eventId)
  }

  lemma MaterialIsAscii(c: Cursor)
    requires Valid(c)
    ensures IsAscii(Material(c)) && |Material(c)| <= 274
    ensures '\n' !in c.runId && '\n' !in c.eventId && '\n' !in Digits(c.sequence)
  {
    ReadPrinted(c.sequence);
    assert Power10(16) == 10_000_000_000_000_000 by {
      assert Power10(8) == 100_000_000;
      assert Power10(12) == 1_000_000_000_000;
    }
    FewDigits(c.sequence, 16);
  }

  /** `encode_cursor`; None is the refusal. */
  function Encode(c: Cursor): Option<string>
  {
    if !Valid(c) then None
    else
      MaterialIsAscii(c);
      Some("v1." + Encode64(Ascii(Material(c))))
  }

  /** How bytes are read as text, and text as a number. Both may read more than is ever written, and
      may refuse what is not. */
  datatype Reader = Reader(text: seq<Byte> -> Option<string>, number: string -> Option<int>)

  ghost predicate Reads(r: Reader)
  {
    && (forall s: string :: IsAscii(s) ==> r.text(Ascii(s)) == Some(s))
    && (forall n: nat :: n <= MAX_SEQUENCE ==> r.number(Digits(n)) == Some(n))
  }

  /** `decode_cursor`; None is the refusal. */
  function Decode(r: Reader, value: string): Option<Cursor>
  {
    if |value| > 605 || !("v1." <= value) || !(1 <= |value| - 3 <= 600) || !Is64(value[3..]) then None
    else
      var bytes := Decode64(value[3..]);
      var material := if bytes.None? then None else r.text(bytes.value);
      if material.None? then None
      else
        var parts := Split(material.value, '\n');
        if |parts| != 3 || r.number(parts[1]).None? then None
        else
          var c := Cursor(parts[0], r.number(parts[1]).value, parts[2]);
          if Encode(c) == Some(value) then Some(c) else None
  }

  lemma SplitMaterial(c: Cursor)
    requires Valid(c)
    ensures Split(Material(c), '\n') == [c.runId, Digits(c.sequence), c.eventId]
  {
    MaterialIsAscii(c);
    var rest := Digits(c.sequence) + ['\n'] + c.eventId;
    SplitToken(c.runId, rest, '\n');
    SplitToken(Digits(c.sequence), c.eventId, '\n');
    SplitToken(c.eventId, [], '\n');
  }

  /** Decoding undoes encoding on every valid cursor, whose text never exceeds the length limit. */
  lemma DecodeEncodedCursor(r: Reader, c: Cursor)
    requires Reads(r) && Valid(c)
    ensures Encode(c).Some? && |Encode(c).value| <= 603 && Decode(r, Encode(c).value) == Some(c)
  {
    MaterialIsAscii(c);
    var material := Material(c);
    var bytes := Ascii(material);
    var value := Encode(c).value;
    DecodeEncoded(bytes);
    assert value[3..] == Encode64(bytes);
    SplitMaterial(c);
    assert r.text(bytes) == Some(material);
    assert r.number(Digits(c.sequence)) == Some(c.sequence);
  }

  /** Exactly the encodings are accepted: however lenient the reading of bytes and numbers is, a text
      decodes to a cursor if and only if it is the cursor's own encoding. */
  lemma DecodesExactly(r: Reader, value: string, c: Cursor)
    requires Reads(r)
    ensures Decode(r, value) == Some(c) <==> Encode(c) == Some(value)
  {
    if Encode(c) == Some(value) {
      DecodeEncodedCursor(r, c);
    }
  }
}
