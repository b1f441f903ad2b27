/** NMEA 2000 alert payloads: the header every alert message starts with, and alert text, whose
    two strings are cut to fit. Strings are UTF-8 bytes without their terminating NUL. */
module AlertText {
  import opened Numbers
  import opened Bytes
  import opened Options

  const HEADER_LEN: int := 16
  const TEXT_MAX_LEN: int := 223
  const RESPONSE_LEN: int := 25

  type Word16 = x: int | 0 <= x < 0x1_0000
  type Word64 = x: int | 0 <= x < 0x1_0000_0000_0000_0000

  datatype AlertId = AlertId(
    kind: Byte, category: Byte, system: Byte, subsystem: Byte, id: Word16, source: Word64,
    instance: Byte, index: Byte, occurrence: Byte)

  // ---------------------------------------------------------------- header

  /** Type and category have four bits each. */
  function EncodeHeader(a: AlertId): (p: seq<Byte>)
    ensures |p| == HEADER_LEN
  {
    [a.kind % 16 + a.category * 16 % 256, a.system, a.subsystem] + Le(a.id, 2) + Le(a.source, 8)
    + [a.instance, a.index, a.occurrence]
  }

  function DecodeHeader(p: seq<Byte>): AlertId
    requires |p| >= HEADER_LEN
  {
    WordBounds(p[3..5], p[5..13]);
    AlertId(p[0] % 16, p[0] / 16, p[1], p[2], FromLe(p[3..5]), FromLe(p[5..13]), p[13], p[14], p[15])
  }

  lemma WordBounds(two: seq<Byte>, eight: seq<Byte>)
    requires |two| == 2 && |eight| == 8
    ensures FromLe(two) < 0x1_0000 && FromLe(eight) < 0x1_0000_0000_0000_0000
    ensures Pow256(2) == 0x1_0000 && Pow256(8) == 0x1_0000_0000_0000_0000
  {
    FromLeBound(two);
    FromLeBound(eight);
    assert Pow256(4) == 0x1_0000_0000;
  }

  /** What the header can carry of an identity. */
  function Carried(a: AlertId): AlertId {
    a.(kind := a.kind % 16, category := a.category % 16)
  }

  /** A header reads back as the identity it was made from, and every 16 bytes are the header of
      the identity read from them. */
  lemma HeaderRoundTrip(a: AlertId, tail: seq<Byte>)
    ensures DecodeHeader(EncodeHeader(a) + tail) == Carried(a)
  {
    hide Le, FromLe, Pow256, EncodeHeader;
    var p := EncodeHeader(a) + tail;
    HeaderBytes(a);
    assert p[3..5] == EncodeHeader(a)[3..5] && p[5..13] == EncodeHeader(a)[5..13];
    WordBounds(p[3..5], p[5..13]);
    LeThenFrom(a.id, 2);
    LeThenFrom(a.source, 8);
  }

  lemma HeaderBytes(a: AlertId)
    ensures var p := EncodeHeader(a);
            && p[0] % 16 == a.kind % 16 && p[0] / 16 == a.category % 16
            && p[1] == a.system && p[2] == a.subsystem && p[3..5] == Le(a.id, 2) && p[5..13] == Le(a.source, 8)
            && p[13] == a.instance && p[14] == a.index && p[15] == a.occurrence
  {
    hide Le;
    assert a.category * 16 % 256 == a.category % 16 * 16;
  }

  lemma HeaderIsExact(p: seq<Byte>)
    requires |p| >= HEADER_LEN
    ensures EncodeHeader(DecodeHeader(p)) == p[..HEADER_LEN]
  {
    hide Le, FromLe, Pow256;
    FromThenLe(p[3..5]);
    FromThenLe(p[5..13]);
    assert p[..HEADER_LEN] == p[..3] + p[3..5] + p[5..13] + p[13..16];
  }

  // ----------------------------------------------------------------- UTF-8

  const QUESTION: Word16 := 0x3F

  predicate Continuation(b: Byte) {
    0x80 <= b < 0xC0
  }

  /** Continuation bytes a lead byte calls for; None for a byte that leads nothing. */
  function Extra(c: Byte): Option<nat> {
    if c < 0x80 then Some(0)
    else if 0xC0 <= c < 0xE0 then Some(1)
    else if 0xE0 <= c < 0xF0 then Some(2)
    else if 0xF0 <= c < 0xF8 then Some(3)
    else None
  }

  /** The payload bits of a lead byte. */
  function LeadBits(c: Byte): nat {
    if c < 0x80 then c
    else if c < 0xC0 then 0
    else if c < 0xE0 then c - 0xC0
    else if c < 0xF0 then c - 0xE0
    else c - 0xF0
  }

  datatype Read = Read(cp: Option<nat>, used: nat)

  /** Up to `k` continuation bytes; a sequence cut short stops at the byte that cut it. */
  function Continue(s: seq<Byte>, k: nat, cp: nat): (r: Read)
    ensures r.used <= |s| && r.used <= k
  {
    if k == 0 then Read(Some(cp), 0)
    else if s == [] || !Continuation(s[0]) then Read(None, 0)
    else var r := Continue(s[1..], k - 1, cp * 64 + s[0] - 0x80); Read(r.cp, r.used + 1)
  }

  datatype Next = Next(cp: Word16, used: nat)

  /** The next code point of what is left of a string: it always makes progress, and never passes
      the end. */
  function NextCodePoint(s: seq<Byte>): (n: Next)
    requires s != []
    ensures 1 <= n.used <= |s|
  {
    match Extra(s[0])
    case None => Next(QUESTION, 1)
    case Some(k) =>
      var r := Continue(s[1..], k, LeadBits(s[0]));
      Next(if r.cp == None || r.cp.value > 0xFFFF then QUESTION else r.cp.value, 1 + r.used)
  }

  function CodePoints(s: seq<Byte>): seq<Word16> {
    if s == [] then [] else var n := NextCodePoint(s); [n.cp] + CodePoints(s[n.used..])
  }

  type CodePoint = c: int | 0 <= c <= 0x10FFFF

  /** UTF-8, as section 3 of RFC 3629 lays it out. */
  function Utf8(c: CodePoint): seq<Byte> {
    if c < 0x80 then [c]
    else if c < 0x800 then [0xC0 + c / 64, 0x80 + c % 64]
    else if c < 0x1_0000 then [0xE0 + c / 4096, 0x80 + c / 64 % 64, 0x80 + c % 64]
    else [0xF0 + c / 262144, 0x80 + c / 4096 % 64, 0x80 + c / 64 % 64, 0x80 + c % 64]
  }

  function Utf8Text(cs: seq<CodePoint>): seq<Byte> {
    if cs == [] then [] else Utf8(cs[0]) + Utf8Text(cs[1..])
  }

  /** UCS-2 has the first 65536 code points. */
  function Ucs2(c: CodePoint): Word16 {
    if c > 0xFFFF then QUESTION else c
  }

  predicate StartsCharacter(s: seq<Byte>) {
    s == [] || !Continuation(s[0])
  }

  lemma {:induction false} ContinueStops(s: seq<Byte>, rest: seq<Byte>, k: nat, cp: nat)
    requires StartsCharacter(rest)
    ensures Continue(s + rest, k, cp) == Continue(s, k, cp)
    decreases k
  {
    if k > 0 {
      if s == [] {
        assert s + rest == rest;
      } else {
        assert (s + rest)[1..] == s[1..] + rest;
        if Continuation(s[0]) {
          ContinueStops(s[1..], rest, k - 1, cp * 64 + s[0] - 0x80);
        }
      }
    }
  }

  /** Decoding is self-synchronising: whatever bytes come before a character boundary, well formed
      or not, they are read as they would be alone, and what follows is read as if they were not
      there. */
  lemma {:induction false} CodePointsSplit(s: seq<Byte>, rest: seq<Byte>)
    requires StartsCharacter(rest)
    ensures CodePoints(s + rest) == CodePoints(s) + CodePoints(rest)
    decreases |s|
  {
    hide Continue, LeadBits, StartsCharacter;
    if s == [] {
      assert s + rest == rest;
    } else {
      assert (s + rest)[1..] == s[1..] + rest;
      if Extra(s[0]).Some? {
        ContinueStops(s[1..], rest, Extra(s[0]).value, LeadBits(s[0]));
      }
      var n := NextCodePoint(s);
      assert NextCodePoint(s + rest) == n;
      assert (s + rest)[n.used..] == s[n.used..] + rest;
      CodePointsSplit(s[n.used..], rest);
    }
  }

  /** The six-bit digits of a code point, most significant first, make it up again. */
  lemma SixBits(c: CodePoint)
    ensures c / 64 * 64 + c % 64 == c
    ensures c / 4096 * 64 + c / 64 % 64 == c / 64
    ensures c / 262144 * 64 + c / 4096 % 64 == c / 4096
  {
  }

  lemma Utf8Decodes(c: CodePoint)
    ensures CodePoints(Utf8(c)) == [Ucs2(c)]
    ensures StartsCharacter(Utf8(c)) && Utf8(c) != []
  {
    hide CodePoints;
    Utf8Reads(c);
    LoneCodePoint(Utf8(c));
  }

  lemma Utf8Reads(c: CodePoint)
    ensures NextCodePoint(Utf8(c)) == Next(Ucs2(c), |Utf8(c)|)
  {
    hide Continue, Utf8, LeadBits, Extra;
    var s := Utf8(c);
    Utf8Shape(c);
    ContinueAll(s[1..], LeadBits(s[0]));
  }

  /** A lead byte that says how many more there are, and bytes that carry the code point. */
  lemma Utf8Shape(c: CodePoint)
    ensures var s := Utf8(c);
            && 1 <= |s| <= 4 && Extra(s[0]) == Some(|s| - 1)
            && (forall i | 0 <= i < |s| - 1 :: Continuation(s[1..][i]))
            && c == Folded(s[1..], LeadBits(s[0]))
  {
    SixBits(c);
  }

  function Folded(s: seq<Byte>, cp: nat): int
    requires |s| <= 3
  {
    if |s| == 0 then cp
    else if |s| == 1 then cp * 64 + s[0] - 0x80
    else if |s| == 2 then (cp * 64 + s[0] - 0x80) * 64 + s[1] - 0x80
    else ((cp * 64 + s[0] - 0x80) * 64 + s[1] - 0x80) * 64 + s[2] - 0x80
  }

  /** Up to three continuation bytes are folded in, six bits each. */
  lemma ContinueAll(s: seq<Byte>, cp: nat)
    requires |s| <= 3 && forall i | 0 <= i < |s| :: Continuation(s[i])
    ensures var r := Continue(s, |s|, cp); r.used == |s| && r.cp.Some? && r.cp.value == Folded(s, cp)
  {
    if |s| > 0 {
      ContinueAll(s[1..], cp * 64 + s[0] - 0x80);
    }
  }

  lemma LoneCodePoint(s: seq<Byte>)
    requires s != [] && NextCodePoint(s).used == |s|
    ensures CodePoints(s) == [NextCodePoint(s).cp]
  {
    assert s[|s|..] == [];
  }

  function Ucs2Text(cs: seq<CodePoint>): (r: seq<Word16>)
    ensures |r| == |cs| && forall i | 0 <= i < |cs| :: r[i] == Ucs2(cs[i])
  {
    if cs == [] then [] else [Ucs2(cs[0])] + Ucs2Text(cs[1..])
  }

  /** Well-formed text decodes to its own code points, those beyond UCS-2 as question marks, also
      after any bytes `junk` that are not. */
  lemma {:induction false} WellFormedDecodes(junk: seq<Byte>, cs: seq<CodePoint>)
    ensures StartsCharacter(Utf8Text(cs))
    ensures CodePoints(junk + Utf8Text(cs)) == CodePoints(junk) + Ucs2Text(cs)
    decreases |cs|
  {
    if cs == [] {
      assert junk + [] == junk;
    } else {
      Utf8Decodes(cs[0]);
      WellFormedDecodes(Utf8(cs[0]), cs[1..]);
      CodePointsSplit(junk, Utf8Text(cs));
      assert CodePoints(Utf8Text(cs)) == [Ucs2(cs[0])] + Ucs2Text(cs[1..]);
    }
  }

  // ---------------------------------------------------------------- strings

  predicate Ascii(s: seq<Byte>) {
    forall i | 0 <= i < |s| :: s[i] < 0x80
  }

  /** An all-ASCII string is its own code points. */
  lemma {:induction false} AsciiCodePoints(s: seq<Byte>)
    requires Ascii(s)
    ensures CodePoints(s) == s
  {
    if s != [] {
      AsciiCodePoints(s[1..]);
      assert NextCodePoint(s) == Next(s[0], 1);
      assert s == [s[0]] + s[1..];
    }
  }

  function Units(cs: seq<Word16>): (s: seq<Byte>)
    ensures |s| == 2 * |cs|
  {
    if cs == [] then [] else [cs[0] % 256, cs[0] / 256] + Units(cs[1..])
  }

  function Unit(low: Byte, high: Byte): Word16 {
    var n: int := low; n + 256 * high
  }

  function FromUnits(s: seq<Byte>): seq<Word16>
    requires |s| % 2 == 0
  {
    if s == [] then [] else [Unit(s[0], s[1])] + FromUnits(s[2..])
  }

  lemma {:induction false} UnitsRoundTrip(cs: seq<Word16>)
    ensures FromUnits(Units(cs)) == cs
  {
    if cs != [] {
      UnitsRoundTrip(cs[1..]);
      assert Units(cs)[2..] == Units(cs[1..]);
      assert cs == [cs[0]] + cs[1..];
    }
  }

  /** Bytes a character of `s` takes. */
  function Width(s: seq<Byte>): nat {
    if Ascii(s) then 1 else 2
  }

  /** Characters of `s` that fit in `room` bytes, at most what a length byte can say, two of them
      for the length and control bytes. */
  function Fit(s: seq<Byte>, room: nat): (fit: nat)
    requires room >= 2
    ensures fit <= |CodePoints(s)|
  {
    Min(|CodePoints(s)|, (Min(room, 255) - 2) / Width(s))
  }

  /** A variable-length string: its length in bytes, 1 for ASCII or 0 for UCS-2, and what fits. */
  function Lau(s: seq<Byte>, room: nat): (p: seq<Byte>)
    requires room >= 2
    ensures 2 <= |p| <= Min(room, 255) && p[0] == |p|
  {
    var fit := Fit(s, room);
    if Ascii(s) then AsciiCodePoints(s); [2 + fit, 1] + s[..fit]
    else [2 + 2 * fit, 0] + Units(CodePoints(s)[..fit])
  }

  datatype Parsed = Parsed(characters: seq<Word16>, rest: seq<Byte>)

  /** How a receiver reads a variable-length string. */
  function ParseLau(p: seq<Byte>): Option<Parsed> {
    if |p| < 2 || p[0] < 2 || |p| < p[0] then None
    else
      var body, rest := p[2..p[0]], p[p[0]..];
      if p[1] == 1 then Some(Parsed(body, rest))
      else if p[1] == 0 && |body| % 2 == 0 then Some(Parsed(FromUnits(body), rest))
      else None
  }

  /** `taken` is the longest run of whole characters from the start of `s` that fits `room`. */
  predicate LongestFit(s: seq<Byte>, taken: seq<Word16>, room: nat) {
    && taken <= CodePoints(s)
    && 2 + Width(s) * |taken| <= Min(room, 255)
    && (taken == CodePoints(s) || 2 + Width(s) * (|taken| + 1) > Min(room, 255))
  }

  lemma LauParsesBack(s: seq<Byte>, room: nat, rest: seq<Byte>)
    requires room >= 2
    ensures var taken := CodePoints(s)[..Fit(s, room)];
            && ParseLau(Lau(s, room) + rest) == Some(Parsed(taken, rest))
            && LongestFit(s, taken, room)
            && |Lau(s, room)| == 2 + Width(s) * |taken|
  {
    hide CodePoints, Ascii;
    var p, fit := Lau(s, room), Fit(s, room);
    assert (p + rest)[p[0]..] == rest;
    assert (p + rest)[2..p[0]] == p[2..];
    if Ascii(s) {
      AsciiCodePoints(s);
    } else {
      UnitsRoundTrip(CodePoints(s)[..fit]);
    }
  }

  // ------------------------------------------------------------------- text

  /** The payload for a buffer of `size` bytes; none when the smallest does not fit. */
  function EncodeText(a: AlertId, description: seq<Byte>, location: seq<Byte>, size: nat): seq<Byte> {
    var cap := Min(size, TEXT_MAX_LEN);
    if cap < HEADER_LEN + 1 + 4 then []
    else
      var front := EncodeHeader(a) + [0] + Lau(description, cap - (HEADER_LEN + 1) - 2);
      front + Lau(location, cap - |front|)
  }

  datatype Message = Message(id: AlertId, language: Byte, description: seq<Word16>, location: seq<Word16>)

  /** How a receiver reads alert text. */
  function ParseText(p: seq<Byte>): Option<Message> {
    if |p| <= HEADER_LEN then None
    else
      match ParseLau(p[HEADER_LEN + 1..])
      case None => None
      case Some(d) =>
        match ParseLau(d.rest)
        case None => None
        case Some(l) =>
          if l.rest != [] then None
          else Some(Message(DecodeHeader(p), p[HEADER_LEN], d.characters, l.characters))
  }

  /** Alert text reads back, whatever the strings and the buffer: the identity, English, the
      longest whole-character start of the description that leaves room for an empty location,
      and the longest such start of the location in what is then left. */
  lemma TextParsesBack(a: AlertId, description: seq<Byte>, location: seq<Byte>, size: nat)
    requires size >= 21
    ensures var cap, p := Min(size, 223), EncodeText(a, description, location, size);
            && |p| <= cap
            && ParseText(p).Some?
            && var m := ParseText(p).value;
               && m.id == Carried(a) && m.language == 0
               && LongestFit(description, m.description, cap - 19)
               && LongestFit(location, m.location, cap - 19 - Width(description) * |m.description|)
  {
    hide CodePoints, Ascii, Lau, ParseLau, EncodeHeader, DecodeHeader, LongestFit, Carried, Fit;
    var cap, head := Min(size, TEXT_MAX_LEN), EncodeHeader(a) + [0];
    var d := Lau(description, cap - 19);
    var l := Lau(location, cap - |head + d|);
    var p := EncodeText(a, description, location, size);
    assert p == head + d + l && p[HEADER_LEN + 1..] == d + l;
    assert p == EncodeHeader(a) + ([0] + d + l);
    assert p[HEADER_LEN] == 0;
    HeaderRoundTrip(a, [0] + d + l);
    LauParsesBack(description, cap - 19, l);
    assert l + [] == l;
    LauParsesBack(location, cap - |head + d|, []);
  }

  /** A buffer that cannot hold two empty strings gets nothing. */
  lemma NothingBelowTheSmallest(a: AlertId, description: seq<Byte>, location: seq<Byte>, size: nat)
    ensures EncodeText(a, description, location, size) == [] <==> size < 21
  {
    if size >= 21 {
      TextParsesBack(a, description, location, size);
    }
  }

  // --------------------------------------------------------------- responses

  datatype Response = Response(id: AlertId, acknowledgedBy: Word64, command: Byte)

  function DecodeResponse(p: seq<Byte>): Option<Response> {
    if |p| < RESPONSE_LEN then None
    else
      WordBounds(p[3..5], p[16..24]);
      Some(Response(DecodeHeader(p), FromLe(p[16..24]), p[24] % 4))
  }

  /** A response reads back as the identity, name and two-bit command it was laid out from. */
  lemma ResponseReadsBack(r: Response, tail: seq<Byte>)
    ensures DecodeResponse(EncodeHeader(r.id) + Le(r.acknowledgedBy, 8) + [r.command] + tail)
         == Some(Response(Carried(r.id), r.acknowledgedBy, r.command % 4))
  {
    var p := EncodeHeader(r.id) + Le(r.acknowledgedBy, 8) + [r.command] + tail;
    assert p == EncodeHeader(r.id) + (Le(r.acknowledgedBy, 8) + [r.command] + tail);
    HeaderRoundTrip(r.id, Le(r.acknowledgedBy, 8) + [r.command] + tail);
    assert p[16..24] == Le(r.acknowledgedBy, 8);
    WordBounds(p[3..5], p[16..24]);
    LeThenFrom(r.acknowledgedBy, 8);
  }
}
