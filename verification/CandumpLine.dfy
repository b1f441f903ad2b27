/** Candump lines as the firmware prints and parses them: a caller's buffer filled, and a moving
    position over the text. `strtoll`, `strtoul` and `snprintf` are the C library's. */
module CandumpLine {
  import opened Bytes
  import opened Options
  import opened CanFrame
  import opened Candump

  /** Prints `s` with its NUL into a buffer, cutting it when the buffer is too small. */
  method Print(buf: array<char>, at: nat, s: string)
    requires at <= buf.Length
    modifies buf
    ensures buf[..at] == old(buf[..at])
    ensures at + |s| < buf.Length ==> buf[at..at + |s|] == s && buf[at + |s|] == NUL
    ensures forall k :: at + |s| < k < buf.Length ==> buf[k] == old(buf[k])
  {
    if at < buf.Length {
      var n := if at + |s| < buf.Length then |s| else buf.Length - at - 1;
      forall k | 0 <= k < n {
        buf[at + k] := s[k];
      }
      buf[at + n] := NUL;
    }
  }

  /** The data of a frame, never more than eight bytes whatever its length field says. */
  function Carried(s: Slot): seq<Byte>
    requires |s.data| == MAX_DATA
  {
    s.data[..if s.dlc > MAX_DATA then MAX_DATA else s.dlc]
  }

  lemma {:induction false} HexAppend(data: seq<Byte>, b: Byte)
    ensures HexData(data + [b]) == HexData(data) + Fixed(b, 16, 2)
  {
    if data == [] {
      assert data + [b] == [b];
    } else {
      HexAppend(data[1..], b);
      assert (data + [b])[1..] == data[1..] + [b];
    }
  }

  /** Two digits a byte into a buffer of sixteen and a NUL. */
  method HexText(s: Slot) returns (hex: array<char>, n: nat)
    requires |s.data| == MAX_DATA
    ensures fresh(hex) && n < hex.Length == 17 && hex[..n] == HexData(Carried(s)) && hex[n] == NUL
  {
    hide Fixed, HexData;
    hex := new char[17];
    var length := if s.dlc > MAX_DATA then MAX_DATA else s.dlc;
    NoData();
    for i := 0 to length
      invariant hex[..2 * i] == HexData(s.data[..i])
    {
      Print(hex, 2 * i, Fixed(s.data[i], 16, 2));
      HexAppend(s.data[..i], s.data[i]);
      assert s.data[..i + 1] == s.data[..i] + [s.data[i]];
      assert hex[..2 * i + 2] == hex[..2 * i] + hex[2 * i..2 * i + 2];
    }
    n := 2 * length;
    hex[n] := NUL;
  }

  lemma NoData()
    ensures HexData([]) == ""
  {
  }

  /** The length of the line, or -1 when it and its NUL do not fit. */
  method EncodeLine(s: Slot, uptimeUs: nat, wall: Instant, name: string, buf: array<char>) returns (n: int)
    requires |s.data| == MAX_DATA && 0 <= s.id < ID_LIMIT && 0 <= wall.micros < 1000000
    modifies buf
    ensures var line := Line(StampOf(wall, uptimeUs), name, Frame(s.id, s.extended, s.remote, Carried(s)));
            && n == (if |line| < buf.Length then |line| else -1)
            && (n >= 0 ==> buf[..n] == line && buf[n] == NUL)
  {
    hide Decimal, Fixed, HexData;
    var seconds, micros;
    if wall.seconds > EPOCH_2020 {
      seconds, micros := wall.seconds, wall.micros;
    } else {
      seconds, micros := uptimeUs / 1000000, uptimeUs % 1000000;
    }
    var hex, k := HexText(s);
    var line := "(" + Decimal(seconds) + "." + Fixed(micros, 10, 6) + ") " + name + " " + Fixed(s.id, 16, 8) + "#"
    + hex[..k] + "\n";
    Print(buf, 0, line);
    n := if |line| < buf.Length then |line| else -1;
  }

  // -------------------------------------------------------------- decoding

  /** `r` is what is left of `s` after some of it. */
  predicate IsTail(r: string, s: string) {
    |r| <= |s| && r == s[|s| - |r|..]
  }

  lemma {:induction false} DropAnyTail(s: string, cs: set<char>)
    ensures IsTail(DropAny(s, cs), s)
  {
    if s != "" && s[0] in cs {
      DropAnyTail(s[1..], cs);
    }
  }

  lemma {:induction false} DigitsTail(s: string, base: nat, value: nat)
    ensures IsTail(Digits(s, base, value).rest, s)
    decreases |s|
  {
    if s != "" && IsDigit(s[0], base) {
      DigitsTail(s[1..], base, value * base + HexNibble(s[0]));
    }
  }

  lemma TailOfTail(a: string, b: string, c: string)
    requires IsTail(a, b) && IsTail(b, c)
    ensures IsTail(a, c)
  {
  }

  lemma NumberTails(s: string)
    ensures IsTail(StrToLl(s).rest, s) && IsTail(StrToUl(s).rest, s)
  {
    hide Digits, DropAny, IsTail, HexNibble;
    var t := DropAny(s, WHITE);
    var u := AfterSign(t);
    var v := if HexPrefix(u) then u[2..] else u;
    DropAnyTail(s, WHITE);
    SliceTail(t, 1);
    SliceTail(u, 2);
    SliceTail(s, 0);
    SliceTail(t, 0);
    SliceTail(u, 0);
    TailOfTail(u, t, s);
    TailOfTail(v, u, s);
    DigitsTail(u, 10, 0);
    DigitsTail(v, 16, 0);
    TailOfTail(Digits(u, 10, 0).rest, u, s);
    TailOfTail(Digits(v, 16, 0).rest, v, s);
  }

  lemma SliceTail(s: string, n: nat)
    ensures n <= |s| ==> IsTail(s[n..], s)
  {
  }

  /** The character at `i`, the NUL at the end. */
  function At(line: string, i: nat): char
    requires i <= |line|
  {
    Peek(line[i..])
  }

  method Skip(line: string, from: nat, cs: set<char>) returns (i: nat)
    requires from <= |line| && NUL !in cs
    ensures from <= i <= |line| && line[i..] == DropAny(line[from..], cs)
  {
    i := from;
    while At(line, i) in cs
      invariant from <= i <= |line|
      invariant DropAny(line[i..], cs) == DropAny(line[from..], cs)
      decreases |line| - i
    {
      assert line[i..][1..] == line[i + 1..];
      i := i + 1;
    }
  }

  method PastWord(line: string, from: nat) returns (i: nat)
    requires from <= |line|
    ensures from <= i <= |line| && line[i..] == SkipWord(line[from..])
  {
    i := from;
    while At(line, i) != NUL && At(line, i) != ' '
      invariant from <= i <= |line|
      invariant SkipWord(line[i..]) == SkipWord(line[from..])
      decreases |line| - i
    {
      assert line[i..][1..] == line[i + 1..];
      i := i + 1;
    }
  }

  method Signed(line: string, from: nat) returns (v: int, i: nat)
    requires from <= |line|
    ensures i <= |line| && Number(v, line[i..]) == StrToLl(line[from..])
  {
    var n := StrToLl(line[from..]);
    NumberTails(line[from..]);
    v, i := n.value, |line| - |n.rest|;
  }

  method Unsigned(line: string, from: nat) returns (v: int, i: nat)
    requires from <= |line|
    ensures i <= |line| && Number(v, line[i..]) == StrToUl(line[from..])
  {
    var n := StrToUl(line[from..]);
    NumberTails(line[from..]);
    v, i := n.value, |line| - |n.rest|;
  }

  method Stamp(line: string, from: nat) returns (us: int, i: nat)
    requires from <= |line|
    ensures i <= |line| && Stamped(us, line[i..]) == ReadStamp(line[from..])
  {
    hide StrToLl;
    var seconds, micros := 0, 0;
    i := from;
    if At(line, i) == '(' {
      assert line[i..][1..] == line[i + 1..];
      seconds, i := Signed(line, i + 1);
      if At(line, i) == '.' {
        assert line[i..][1..] == line[i + 1..];
        micros, i := Signed(line, i + 1);
      }
      if At(line, i) == ')' {
        assert line[i..][1..] == line[i + 1..];
        i := i + 1;
      }
    }
    us := Clamp(seconds, 0, MAX_SECONDS) * 1000000 + Clamp(micros, 0, 999999);
  }

  /** Byte after byte into the frame's data; the rest of it stays. */
  method ReadBytes(line: string, from: nat, data: array<Byte>) returns (n: nat)
    requires from <= |line| && data.Length == MAX_DATA
    modifies data
    ensures n <= MAX_DATA && data[..n] == HexBytes(line[from..], MAX_DATA)
    ensures data[n..] == old(data[n..])
  {
    hide HexNibble, HexBytes;
    var i: nat := from;
    n := 0;
    NulIsNoDigit();
    while n < MAX_DATA
      invariant n <= MAX_DATA && i <= |line|
      invariant data[..n] + HexBytes(line[i..], MAX_DATA - n) == HexBytes(line[from..], MAX_DATA)
      invariant forall k :: n <= k < MAX_DATA ==> data[k] == old(data[k])
    {
      HexBytesStep(line[i..], MAX_DATA - n);
      var high := HexNibble(At(line, i));
      if high < 0 {
        break;
      }
      assert line[i..][1..] == line[i + 1..];
      var low := HexNibble(At(line, i + 1));
      if low < 0 {
        break;
      }
      assert line[i..][2..] == line[i + 2..];
      ghost var done := data[..n];
      data[n] := high * 16 + low;
      assert data[..n + 1] == done + [high * 16 + low];
      n := n + 1;
      i := i + 2;
    }
    if n == MAX_DATA {
      HexBytesStep(line[i..], 0);
    }
  }

  lemma HexBytesStep(s: string, n: nat)
    ensures HexBytes(s, n) ==
              if n == 0 || HexNibble(Peek(s)) < 0 || HexNibble(Peek(s[1..])) < 0 then []
              else [HexNibble(s[0]) * 16 + HexNibble(s[1])] + HexBytes(s[2..], n - 1)
  {
  }

  lemma NulIsNoDigit()
    ensures HexNibble(NUL) < 0
  {
  }

  /** What a line says; `data` is left alone when it says nothing. */
  method DecodeInto(line: string, data: array<Byte>) returns (ok: bool, us: int, id: int, dlc: nat)
    requires data.Length == MAX_DATA
    modifies data
    ensures dlc <= MAX_DATA && data[dlc..] == old(data[dlc..])
    ensures Decode(line) == if ok then Some(Message(us, Frame(id, true, false, data[..dlc]))) else None
    ensures !ok ==> dlc == 0
  {
    hide DropAny, ReadStamp, SkipWord, StrToUl, HexBytes;
    id, dlc := 0, 0;
    assert line[0..] == line;
    var i := Skip(line, 0, {' ', '\t'});
    us, i := Stamp(line, i);
    i := Skip(line, i, {' '});
    i := PastWord(line, i);
    i := Skip(line, i, {' '});
    id, i := Unsigned(line, i);
    if At(line, i) != '#' {
      return false, us, id, 0;
    }
    assert line[i..][1..] == line[i + 1..];
    dlc := ReadBytes(line, i + 1, data);
    ok := dlc > 0;
  }
}
