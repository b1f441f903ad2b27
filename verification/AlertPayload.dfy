/** Alert payloads as the firmware builds them: bytes written into a caller's buffer, text read up
    to its terminating NUL. That every read of a string is within it is what makes the decoding
    safe on bytes that are not UTF-8. */
module AlertPayload {
  import opened Numbers
  import opened Bytes
  import opened Options
  import opened AlertText

  /** A C string: its bytes, then a NUL. */
  predicate Terminated(s: seq<Byte>) {
    |s| > 0 && s[|s| - 1] == 0 && forall i | 0 <= i < |s| - 1 :: s[i] != 0
  }

  function Text(s: seq<Byte>): seq<Byte>
    requires Terminated(s)
  {
    s[..|s| - 1]
  }

  /** `was` with `p` written at `at`. */
  function Written(was: seq<Byte>, at: nat, p: seq<Byte>): (r: seq<Byte>)
    requires at + |p| <= |was|
    ensures |r| == |was|
  {
    was[..at] + p + was[at + |p|..]
  }

  lemma WrittenTwice(was: seq<Byte>, at: nat, p: seq<Byte>, q: seq<Byte>)
    requires at + |p| + |q| <= |was|
    ensures Written(Written(was, at, p), at + |p|, q) == Written(was, at, p + q)
  {
  }

  lemma WrittenNothing(was: seq<Byte>, at: nat)
    requires at <= |was|
    ensures Written(was, at, []) == was
  {
  }

  method PutByte(out: array<Byte>, at: nat, b: Byte)
    requires at < out.Length
    modifies out
    ensures out[..] == Written(old(out[..]), at, [b])
  {
    out[at] := b;
  }

  method PutPair(out: array<Byte>, at: nat, b: Byte, c: Byte)
    requires at + 2 <= out.Length
    modifies out
    ensures out[..] == Written(old(out[..]), at, [b, c])
  {
    out[at], out[at + 1] := b, c;
  }

  method PutLe(out: array<Byte>, at: nat, v: nat, n: nat)
    requires at + n <= out.Length
    modifies out
    ensures out[..] == Written(old(out[..]), at, Le(v, n))
  {
    hide Written;
    ghost var was := out[..];
    var left := v;
    ghost var done: seq<Byte> := [];
    WrittenNothing(was, at);
    for i := 0 to n
      invariant |done| == i && done + Le(left, n - i) == Le(v, n)
      invariant out[..] == Written(was, at, done)
    {
      PutByte(out, at + i, left % 256);
      WrittenTwice(was, at, done, [left % 256]);
      assert done + ([left % 256] + Le(left / 256, n - i - 1)) == done + [left % 256] + Le(left / 256, n - i - 1);
      done := done + [left % 256];
      left := left / 256;
    }
    assert done + [] == done;
  }

  method PutHeader(a: AlertId, out: array<Byte>)
    requires out.Length >= HEADER_LEN
    modifies out
    ensures out[..] == Written(old(out[..]), 0, EncodeHeader(a))
  {
    hide Le, Written;
    ghost var was := out[..];
    var first: Byte := a.kind % 16 + a.category * 16 % 256;
    PutByte(out, 0, first);
    PutPair(out, 1, a.system, a.subsystem);
    WrittenTwice(was, 0, [first], [a.system, a.subsystem]);
    ghost var p := [first] + [a.system, a.subsystem];
    PutLe(out, 3, a.id, 2);
    WrittenTwice(was, 0, p, Le(a.id, 2));
    p := p + Le(a.id, 2);
    PutLe(out, 5, a.source, 8);
    WrittenTwice(was, 0, p, Le(a.source, 8));
    p := p + Le(a.source, 8);
    PutPair(out, 13, a.instance, a.index);
    WrittenTwice(was, 0, p, [a.instance, a.index]);
    p := p + [a.instance, a.index];
    PutByte(out, 15, a.occurrence);
    WrittenTwice(was, 0, p, [a.occurrence]);
    assert p + [a.occurrence] == EncodeHeader(a);
  }

  /** Reads the code point at `i`; `j` is where the next one starts. */
  method ReadCodePoint(s: seq<Byte>, i: nat) returns (cp: Word16, j: nat)
    requires Terminated(s) && i < |s| - 1
    ensures var n := NextCodePoint(Text(s)[i..]); cp == n.cp && j == i + n.used
  {
    ghost var rest := Text(s)[i..];
    var c := s[i];
    j := i + 1;
    assert rest[0] == c && rest[1..] == s[j..|s| - 1];
    var extra: nat;
    var value: nat;
    if c < 0x80 {
      return c, j;
    } else if 0xC0 <= c < 0xE0 {
      extra, value := 1, c - 0xC0;
    } else if 0xE0 <= c < 0xF0 {
      extra, value := 2, c - 0xE0;
    } else if 0xF0 <= c < 0xF8 {
      extra, value := 3, c - 0xF0;
    } else {
      return QUESTION, j;
    }
    for k := 0 to extra
      invariant j == i + 1 + k <= |s| - 1
      invariant var whole, left := Continue(rest[1..], extra, LeadBits(c)), Continue(s[j..|s| - 1], extra - k, value);
                whole == Read(left.cp, left.used + k)
    {
      if !Continuation(s[j]) {
        return QUESTION, j;
      }
      assert s[j..|s| - 1][1..] == s[j + 1..|s| - 1];
      value := value * 64 + (s[j] - 0x80);
      j := j + 1;
    }
    cp := if value > 0xFFFF then QUESTION else value;
  }

  method IsAscii(s: seq<Byte>) returns (ascii: bool)
    requires Terminated(s)
    ensures ascii <==> Ascii(Text(s))
  {
    ascii := true;
    var p := 0;
    while s[p] != 0
      invariant p < |s| && Ascii(s[..p])
      decreases |s| - p
    {
      if s[p] >= 0x80 {
        assert Text(s)[p] >= 0x80;
        return false;
      }
      p := p + 1;
    }
  }

  /** Writes characters from the start of the string, two bytes each, while two more fit. */
  method PutUnits(s: seq<Byte>, out: array<Byte>, at: nat, room: nat) returns (n: nat)
    requires Terminated(s) && 2 <= room && at + room <= out.Length
    modifies out
    ensures var all := CodePoints(Text(s));
            var fit := Min(|all|, (room - 2) / 2);
            n == 2 + 2 * fit && out[..] == Written(old(out[..]), at + 2, Units(all[..fit]))
  {
    hide NextCodePoint, Written, CodePoints, Units;
    ghost var was, text, all := out[..], Text(s), CodePoints(Text(s));
    ghost var done: seq<Word16> := [];
    n := 2;
    var i := 0;
    WrittenNothing(was, at + 2);
    assert Units([]) == [];
    assert text[0..] == text;
    while s[i] != 0 && n + 2 <= room
      invariant i <= |text| && n == 2 + 2 * |done| <= room
      invariant all == done + CodePoints(text[i..])
      invariant out[..] == Written(was, at + 2, Units(done))
      decreases |s| - i
    {
      var cp, j := ReadCodePoint(s, i);
      CodePointsStep(text, i);
      PutPair(out, at + n, cp % 256, cp / 256);
      UnitsAppend(done, cp);
      WrittenTwice(was, at + 2, Units(done), Units([cp]));
      done := done + [cp];
      n, i := n + 2, j;
    }
    if i == |text| {
      assert text[i..] == [];
      CodePointsEnd();
    }
    assert done == all[..|done|];
  }

  lemma CodePointsEnd()
    ensures CodePoints([]) == []
  {
  }

  lemma CodePointsStep(text: seq<Byte>, i: nat)
    requires i < |text|
    ensures var n := NextCodePoint(text[i..]);
            i + n.used <= |text| && CodePoints(text[i..]) == [n.cp] + CodePoints(text[i + n.used..])
  {
    var n := NextCodePoint(text[i..]);
    assert text[i..][n.used..] == text[i + n.used..];
  }

  lemma {:induction false} UnitsAppend(cs: seq<Word16>, c: Word16)
    ensures Units(cs + [c]) == Units(cs) + Units([c])
    ensures Units([c]) == [c % 256, c / 256]
  {
    if cs == [] {
      assert cs + [c] == [c];
    } else {
      UnitsAppend(cs[1..], c);
      assert (cs + [c])[1..] == cs[1..] + [c];
    }
  }

  /** Writes a variable-length string at `at`, in at most `room` bytes. */
  method PutString(s: seq<Byte>, out: array<Byte>, at: nat, room: nat) returns (n: nat)
    requires Terminated(s) && 2 <= room && at + room <= out.Length
    modifies out
    ensures n == |Lau(Text(s), room)|
    ensures out[..] == Written(old(out[..]), at, Lau(Text(s), room))
  {
    hide CodePoints, Units, Ascii, Written;
    ghost var was := out[..];
    var space := if room > 255 then 255 else room;
    var ascii := IsAscii(s);
    ghost var body;
    if ascii {
      AsciiCodePoints(Text(s));
      var fit := if |s| - 1 < space - 2 then |s| - 1 else space - 2;
      CopyText(s, fit, out, at + 2);
      n := 2 + fit;
      body := Text(s)[..fit];
    } else {
      n := PutUnits(s, out, at, space);
      body := Units(CodePoints(Text(s))[..(n - 2) / 2]);
    }
    PutPair(out, at, n, if ascii then 1 else 0);
    WrittenBefore(was, at, [n, if ascii then 1 else 0], body);
  }

  lemma WrittenBefore(was: seq<Byte>, at: nat, p: seq<Byte>, q: seq<Byte>)
    requires at + |p| + |q| <= |was|
    ensures Written(Written(was, at + |p|, q), at, p) == Written(was, at, p + q)
  {
  }

  method CopyText(s: seq<Byte>, n: nat, out: array<Byte>, at: nat)
    requires Terminated(s) && n <= |s| - 1 && at + n <= out.Length
    modifies out
    ensures out[..] == Written(old(out[..]), at, Text(s)[..n])
  {
    forall k | 0 <= k < n {
      out[at + k] := s[k];
    }
  }

  /** The identity and the language, English. */
  method PutFront(a: AlertId, out: array<Byte>)
    requires out.Length > HEADER_LEN
    modifies out
    ensures out[..] == Written(old(out[..]), 0, EncodeHeader(a) + [0])
  {
    hide Written, EncodeHeader;
    ghost var was := out[..];
    PutHeader(a, out);
    PutByte(out, HEADER_LEN, 0);
    WrittenTwice(was, 0, EncodeHeader(a), [0]);
  }

  /** An absent string is an empty one. */
  function OrEmpty(s: Option<seq<Byte>>): seq<Byte> {
    if s.Some? then s.value else [0]
  }

  /** Nothing at all is written to a buffer that is too small. */
  method PutText(a: AlertId, description: Option<seq<Byte>>, location: Option<seq<Byte>>, out: array<Byte>, size: nat)
    returns (n: nat)
    requires out.Length >= size && Terminated(OrEmpty(description)) && Terminated(OrEmpty(location))
    modifies out
    ensures var p := EncodeText(a, Text(OrEmpty(description)), Text(OrEmpty(location)), size);
            n == |p| <= size && out[..] == Written(old(out[..]), 0, p)
  {
    hide EncodeHeader, Lau, Written, Terminated, Text;
    ghost var was := out[..];
    WrittenNothing(was, 0);
    var cap := if size > TEXT_MAX_LEN then TEXT_MAX_LEN else size;
    if cap < HEADER_LEN + 1 + 4 {
      return 0;
    }
    PutFront(a, out);
    ghost var p := EncodeHeader(a) + [0];
    n := HEADER_LEN + 1;
    ghost var d := Lau(Text(OrEmpty(description)), cap - n - 2);
    var k := PutString(OrEmpty(description), out, n, cap - n - 2);
    WrittenTwice(was, 0, p, d);
    n := n + k;
    ghost var l := Lau(Text(OrEmpty(location)), cap - n);
    k := PutString(OrEmpty(location), out, n, cap - n);
    WrittenTwice(was, 0, p + d, l);
    n := n + k;
  }

  method GetLe(p: seq<Byte>, at: nat, n: nat) returns (v: nat)
    requires at + n <= |p|
    ensures v == FromLe(p[at..at + n])
  {
    v := 0;
    for i := n downto 0
      invariant v == FromLe(p[at + i..at + n])
    {
      v := v * 256 + p[at + i];
      assert p[at + i..at + n][1..] == p[at + i + 1..at + n];
    }
  }

  method ReadResponse(p: seq<Byte>) returns (r: Option<Response>)
    ensures r == DecodeResponse(p)
  {
    if |p| < RESPONSE_LEN {
      return None;
    }
    WordBounds(p[3..5], p[5..13]);
    WordBounds(p[3..5], p[16..24]);
    var id := GetLe(p, 3, 2);
    var source := GetLe(p, 5, 8);
    var name := GetLe(p, 16, 8);
    var a := AlertId(p[0] % 16, p[0] / 16, p[1], p[2], id, source, p[13], p[14], p[15]);
    r := Some(Response(a, name, p[24] % 4));
  }
}
