/** Candump lines: a CAN frame as text, "(seconds.microseconds) interface ID#DATA", and back. Text
    is a C string without its NUL; looking past its end sees the NUL. */
module Candump {
  import opened Bytes
  import opened Options
  import opened CanFrame

  const NUL: char := '\0'
  const MAX_SECONDS: int := 4000000000
  const EPOCH_2020: int := 1577836800
  const ID_LIMIT: int := 0x1_0000_0000
  const LL_MAX: int := 0x7FFF_FFFF_FFFF_FFFF

  datatype Message = Message(timestampUs: int, frame: Frame)

  function Peek(s: string): char {
    if s == "" then NUL else s[0]
  }

  function Clamp(v: int, low: int, high: int): int {
    if v < low then low else if v > high then high else v
  }

  // --------------------------------------------------------------- numbers

  function HexNibble(c: char): (v: int)
    ensures -1 <= v < 16
  {
    if '0' <= c <= '9' then (c - '0') as int
    else if 'a' <= c <= 'f' then (c - 'a') as int + 10
    else if 'A' <= c <= 'F' then (c - 'A') as int + 10
    else -1
  }

  function HexDigit(v: nat): char
    requires v < 16
  {
    if v < 10 then '0' + v as char else 'A' + (v - 10) as char
  }

  /** `n` digits of `v`, most significant first. */
  function Fixed(v: nat, base: nat, n: nat): (s: string)
    requires 2 <= base <= 16
    ensures |s| == n
  {
    if n == 0 then "" else Fixed(v / base, base, n - 1) + [HexDigit(v % base)]
  }

  /** As many decimal digits as `v` needs. */
  function Decimal(v: nat): string {
    if v < 10 then [HexDigit(v)] else Decimal(v / 10) + [HexDigit(v % 10)]
  }

  predicate IsDigit(c: char, base: nat) {
    0 <= HexNibble(c) < base
  }

  datatype Number = Number(value: int, rest: string)

  /** Takes digits as long as there are any. */
  function Digits(s: string, base: nat, value: nat): (n: Number)
    ensures n.value >= 0
    decreases |s|
  {
    if s != "" && IsDigit(s[0], base) then Digits(s[1..], base, value * base + HexNibble(s[0])) else Number(value, s)
  }

  function DropAny(s: string, cs: set<char>): (r: string)
    ensures |r| <= |s|
  {
    if s != "" && s[0] in cs then DropAny(s[1..], cs) else s
  }

  const WHITE: set<char> := {' ', '\t', '\n', '\r', 11 as char, 12 as char}

  function AfterSign(s: string): string {
    if Peek(s) in {'+', '-'} then s[1..] else s
  }

  /** C `strtoll`, base 10: with no digits it takes nothing. */
  function StrToLl(s: string): Number {
    var t := DropAny(s, WHITE);
    var u := AfterSign(t);
    if !IsDigit(Peek(u), 10) then Number(0, s)
    else var n := Digits(u, 10, 0);
         Number(Clamp(if Peek(t) == '-' then -n.value else n.value, -LL_MAX - 1, LL_MAX), n.rest)
  }

  predicate HexPrefix(s: string) {
    |s| >= 3 && s[0] == '0' && s[1] in {'x', 'X'} && IsDigit(s[2], 16)
  }

  /** C `strtoul`, base 16, with the chip's 32-bit `long`: too large reads as the largest, and a
      minus sign negates in 32 bits. */
  function StrToUl(s: string): Number {
    var t := DropAny(s, WHITE);
    var u := AfterSign(t);
    var v := if HexPrefix(u) then u[2..] else u;
    if !IsDigit(Peek(v), 16) then Number(0, s)
    else var n := Digits(v, 16, 0);
         Number(if n.value >= ID_LIMIT then ID_LIMIT - 1
                else if Peek(t) == '-' then -n.value % ID_LIMIT else n.value, n.rest)
  }

  // -------------------------------------------------------------- encoding

  datatype Instant = Instant(seconds: int, micros: int)

  /** The wall clock once it is set, else the time since start. */
  function StampOf(wall: Instant, uptimeUs: int): Instant {
    if wall.seconds > EPOCH_2020 then wall else Instant(uptimeUs / 1000000, uptimeUs % 1000000)
  }

  function HexData(data: seq<Byte>): (s: string)
    ensures |s| == 2 * |data|
  {
    if data == [] then "" else Fixed(data[0], 16, 2) + HexData(data[1..])
  }

  function Line(at: Instant, name: string, f: Frame): string
    requires 0 <= at.seconds && 0 <= at.micros && 0 <= f.id
  {
    "(" + Decimal(at.seconds) + "." + Fixed(at.micros, 10, 6) + ") " + name + " " + Fixed(f.id, 16, 8) + "#"
    + HexData(f.data) + "\n"
  }

  // -------------------------------------------------------------- decoding

  datatype Stamped = Stamped(us: int, rest: string)

  /** The time in parentheses. Parts out of range are clamped, missing ones read as zero. */
  function ReadStamp(s: string): Stamped {
    if Peek(s) != '(' then Stamped(0, s)
    else
      var a := StrToLl(s[1..]);
      var b := if Peek(a.rest) == '.' then StrToLl(a.rest[1..]) else Number(0, a.rest);
      Stamped(Clamp(a.value, 0, MAX_SECONDS) * 1000000 + Clamp(b.value, 0, 999999),
              if Peek(b.rest) == ')' then b.rest[1..] else b.rest)
  }

  function SkipWord(s: string): string {
    if Peek(s) == NUL || s[0] == ' ' then s else SkipWord(s[1..])
  }

  /** Bytes of two hex digits each, at most `n` of them. */
  function HexBytes(s: string, n: nat): (data: seq<Byte>)
    ensures |data| <= n
  {
    if n == 0 || HexNibble(Peek(s)) < 0 || HexNibble(Peek(s[1..])) < 0 then []
    else [HexNibble(s[0]) * 16 + HexNibble(s[1])] + HexBytes(s[2..], n - 1)
  }

  /** Whatever the text, what is decoded is a frame the bus can carry, at a time that fits. */
  function Decode(line: string): (m: Option<Message>)
    ensures m.Some? ==>
              && 0 <= m.value.timestampUs < (MAX_SECONDS + 1) * 1000000
              && 0 <= m.value.frame.id < ID_LIMIT && m.value.frame.extended && !m.value.frame.remote
              && 1 <= |m.value.frame.data| <= MAX_DATA
  {
    var stamp := ReadStamp(DropAny(line, {' ', '\t'}));
    var id := StrToUl(DropAny(SkipWord(DropAny(stamp.rest, {' '})), {' '}));
    if Peek(id.rest) != '#' then None
    else
      var data := HexBytes(id.rest[1..], MAX_DATA);
      if data == [] then None else Some(Message(stamp.us, Frame(id.value, true, false, data)))
  }

  // ------------------------------------------------------------ round trip

  function Power(base: nat, n: nat): nat {
    if n == 0 then 1 else base * Power(base, n - 1)
  }

  lemma DigitStep(v: nat, base: nat, value: nat, rest: string)
    requires v < base <= 16
    ensures Digits([HexDigit(v)] + rest, base, value) == Digits(rest, base, value * base + v)
    ensures IsDigit(HexDigit(v), base)
  {
    assert ([HexDigit(v)] + rest)[1..] == rest;
  }

  lemma DivBound(v: nat, base: nat, p: nat)
    requires 0 < base && v < base * p
    ensures v / base < p && v / base * base + v % base == v
  {
  }

  lemma {:induction false} FixedReadsBack(v: nat, base: nat, n: nat, rest: string)
    requires 2 <= base <= 16 && v < Power(base, n)
    ensures Digits(Fixed(v, base, n) + rest, base, 0) == Digits(rest, base, v)
  {
    hide Digits, HexDigit;
    if n == 0 {
      assert "" + rest == rest;
    } else {
      DivBound(v, base, Power(base, n - 1));
      var tail := [HexDigit(v % base)] + rest;
      FixedReadsBack(v / base, base, n - 1, tail);
      DigitStep(v % base, base, v / base, rest);
      assert Fixed(v, base, n) + rest == Fixed(v / base, base, n - 1) + tail;
    }
  }

  lemma {:induction false} FixedIsDigits(v: nat, base: nat, n: nat)
    requires 2 <= base <= 16
    ensures forall i | 0 <= i < n :: IsDigit(Fixed(v, base, n)[i], base)
  {
    hide HexDigit, IsDigit;
    if n > 0 {
      FixedIsDigits(v / base, base, n - 1);
      DigitStep(v % base, base, 0, "");
    }
  }

  lemma {:induction false} DecimalReadsBack(v: nat, rest: string)
    ensures Digits(Decimal(v) + rest, 10, 0) == Digits(rest, 10, v)
    ensures Decimal(v) != "" && IsDigit(Decimal(v)[0], 10)
  {
    hide Digits, HexDigit;
    if v < 10 {
      DigitStep(v, 10, 0, rest);
    } else {
      var tail := [HexDigit(v % 10)] + rest;
      DecimalReadsBack(v / 10, tail);
      DigitStep(v % 10, 10, v / 10, rest);
      assert Decimal(v) + rest == Decimal(v / 10) + tail;
    }
  }

  /** Digits up to something that is not one are the number. */
  lemma LlReads(digits: string, v: nat, rest: string)
    requires digits != "" && IsDigit(digits[0], 10) && !IsDigit(Peek(rest), 10)
    requires Digits(digits + rest, 10, 0) == Digits(rest, 10, v)
    ensures StrToLl(digits + rest) == Number(Clamp(v, -LL_MAX - 1, LL_MAX), rest)
  {
  }

  lemma UlReads(digits: string, v: nat, rest: string)
    requires |digits| >= 2 && IsDigit(digits[0], 16) && IsDigit(digits[1], 16) && !IsDigit(Peek(rest), 16)
    requires Digits(digits + rest, 16, 0) == Digits(rest, 16, v) && v < ID_LIMIT
    ensures StrToUl(digits + rest) == Number(v, rest)
  {
  }

  /** An identifier of at least two hex digits, with or without a sign and a 0x, is read as it is; past
      32 bits as the largest of them, and with a minus sign as its negative in 32 bits. */
  lemma AnyIdReads(sign: string, prefix: string, v: nat, n: nat, rest: string)
    requires sign in {"", "+", "-"} && prefix in {"", "0x", "0X"}
    requires n >= 2 && v < Power(16, n) && !IsDigit(Peek(rest), 16)
    ensures StrToUl(sign + (prefix + (Fixed(v, 16, n) + rest)))
         == Number(if v >= ID_LIMIT then ID_LIMIT - 1 else if sign == "-" then (ID_LIMIT - v) % ID_LIMIT else v, rest)
  {
    hide Digits, Fixed, Power;
    var digits := Fixed(v, 16, n);
    FixedIsDigits(v, 16, n);
    assert IsDigit(digits[0], 16) && IsDigit(digits[1], 16);
    FixedReadsBack(v, 16, n, rest);
    DigitsEnd(rest, v);
    var s, t := prefix + (digits + rest), sign + (prefix + (digits + rest));
    assert s[0] == if prefix == "" then digits[0] else '0';
    assert DropAny(t, WHITE) == t;
    assert AfterSign(t) == s by {
      assert sign != "" ==> t[1..] == s;
    }
    if prefix != "" {
      assert s[..2] == prefix && s[2..] == digits + rest;
      assert HexPrefix(s);
    } else {
      assert s == digits + rest && !HexPrefix(s);
    }
    NegativeWraps(v);
  }

  lemma DigitsEnd(rest: string, v: nat)
    requires !IsDigit(Peek(rest), 16)
    ensures Digits(rest, 16, v) == Number(v, rest)
  {
  }

  lemma NegativeWraps(v: int)
    ensures 0 <= v < ID_LIMIT ==> -v % ID_LIMIT == (ID_LIMIT - v) % ID_LIMIT
  {
    if 0 < v < ID_LIMIT {
      assert -v == -ID_LIMIT + (ID_LIMIT - v);
    }
  }

  lemma StampReads(at: Instant, rest: string)
    requires 0 <= at.seconds && 0 <= at.micros < 1000000
    ensures ReadStamp("(" + Decimal(at.seconds) + "." + Fixed(at.micros, 10, 6) + ")" + rest)
         == Stamped(Clamp(at.seconds, 0, MAX_SECONDS) * 1000000 + at.micros, rest)
  {
    hide StrToLl, Digits, Decimal, Fixed;
    var close := ")" + rest;
    var dot := "." + Fixed(at.micros, 10, 6) + close;
    var s := "(" + Decimal(at.seconds) + "." + Fixed(at.micros, 10, 6) + ")" + rest;
    assert s[1..] == Decimal(at.seconds) + dot;
    assert dot[1..] == Fixed(at.micros, 10, 6) + close;
    assert close[1..] == rest;
    DecimalReadsBack(at.seconds, dot);
    LlReads(Decimal(at.seconds), at.seconds, dot);
    SixDigits();
    FixedReadsBack(at.micros, 10, 6, close);
    FixedIsDigits(at.micros, 10, 6);
    LlReads(Fixed(at.micros, 10, 6), at.micros, close);
  }

  /** A time in whole numbers, however many digits and however large, is read with its seconds clamped to
      4000000000 and its microseconds to 999999. */
  lemma AnyStampReads(seconds: nat, micros: nat, rest: string)
    ensures ReadStamp("(" + Decimal(seconds) + "." + Decimal(micros) + ")" + rest)
         == Stamped((if seconds <= 4000000000 then seconds else 4000000000) * 1000000
                    + (if micros <= 999999 then micros else 999999), rest)
  {
    hide StrToLl, Digits, Decimal;
    var close := ")" + rest;
    var dot := "." + Decimal(micros) + close;
    var s := "(" + Decimal(seconds) + "." + Decimal(micros) + ")" + rest;
    assert s[1..] == Decimal(seconds) + dot;
    assert dot[1..] == Decimal(micros) + close;
    assert close[1..] == rest;
    DecimalReadsBack(seconds, dot);
    LlReads(Decimal(seconds), seconds, dot);
    DecimalReadsBack(micros, close);
    LlReads(Decimal(micros), micros, close);
  }

  /** What time a line carries: the wall clock once it is past 2020, else the time since start, exactly. */
  lemma StampIsClock(wall: Instant, uptimeUs: int)
    requires 0 <= uptimeUs && 0 <= wall.micros < 1000000
    ensures var at := StampOf(wall, uptimeUs);
            && 0 <= at.seconds && 0 <= at.micros < 1000000
            && at.seconds * 1000000 + at.micros
               == if wall.seconds > 1577836800 then wall.seconds * 1000000 + wall.micros else uptimeUs
  {
  }

  lemma SixDigits()
    ensures Power(10, 6) == 1000000 && Power(16, 8) == ID_LIMIT && Power(16, 2) == 256
  {
    assert Power(10, 3) == 1000;
    assert Power(16, 4) == 65536;
  }

  /** An interface name: not empty, no spaces. */
  predicate IsWord(name: string) {
    name != "" && ' ' !in name && NUL !in name
  }

  lemma {:induction false} WordSkipped(name: string, rest: string)
    requires ' ' !in name && NUL !in name && Peek(rest) == ' '
    ensures SkipWord(name + rest) == rest
  {
    if name == "" {
      assert name + rest == rest;
    } else {
      assert (name + rest)[1..] == name[1..] + rest;
      assert name[0] in name;
      WordSkipped(name[1..], rest);
    }
  }

  lemma {:induction false} BytesReadBack(data: seq<Byte>, n: nat)
    requires |data| <= n
    ensures HexBytes(HexData(data) + "\n", n) == data
  {
    hide HexNibble, Fixed;
    if data == [] {
      assert HexData(data) + "\n" == "\n";
      NewlineEnds();
    } else {
      var s := HexData(data) + "\n";
      PairReads(data[0]);
      assert s == Fixed(data[0], 16, 2) + (HexData(data[1..]) + "\n");
      assert s[2..] == HexData(data[1..]) + "\n";
      BytesReadBack(data[1..], n - 1);
    }
  }

  lemma NewlineEnds()
    ensures HexNibble('\n') < 0
  {
  }

  lemma PairReads(b: Byte)
    ensures var s := Fixed(b, 16, 2);
            HexNibble(s[0]) >= 0 && HexNibble(s[1]) >= 0 && HexNibble(s[0]) * 16 + HexNibble(s[1]) == b
  {
    assert Fixed(b / 16, 16, 1) == [HexDigit(b / 16 % 16)];
  }

  /** A line reads back as the frame and the time it was made from: every identifier of 32 bits,
      every frame of up to eight bytes and every interface name without spaces. Only a frame
      without data is refused, and only a time past 4000000000 s is clamped. */
  lemma LineReadsBack(at: Instant, name: string, f: Frame)
    requires 0 <= at.seconds && 0 <= at.micros < 1000000
    requires 0 <= f.id < ID_LIMIT && |f.data| <= MAX_DATA && IsWord(name)
    ensures Decode(Line(at, name, f))
         == if f.data == [] then None
            else Some(Message((if at.seconds <= 4000000000 then at.seconds else 4000000000) * 1000000 + at.micros,
                              Frame(f.id, true, false, f.data)))
  {
    hide ReadStamp, StrToUl, Digits, Decimal, Fixed, HexBytes, HexData, SkipWord;
    var tail := "#" + (HexData(f.data) + "\n");
    var id := Fixed(f.id, 16, 8) + tail;
    var rest := " " + name + " " + id;
    assert Line(at, name, f) == "(" + Decimal(at.seconds) + "." + Fixed(at.micros, 10, 6) + ")" + rest;
    StampReads(at, rest);
    assert rest[1..] == name + (" " + id);
    assert name[0] in name;
    assert DropAny(rest, {' '}) == DropAny(rest[1..], {' '}) == rest[1..];
    WordSkipped(name, " " + id);
    assert (" " + id)[1..] == id;
    FixedIsDigits(f.id, 16, 8);
    assert IsDigit(id[0], 16) && IsDigit(id[1], 16);
    assert DropAny(" " + id, {' '}) == DropAny(id, {' '}) == id;
    SixDigits();
    FixedReadsBack(f.id, 16, 8, tail);
    assert !IsDigit(Peek(tail), 16);
    DigitsEnd(tail, f.id);
    UlReads(Fixed(f.id, 16, 8), f.id, tail);
    assert tail[1..] == HexData(f.data) + "\n";
    BytesReadBack(f.data, MAX_DATA);
  }

  // -------------------------------------------------------- arbitrary text

  function UpperHex(c: char): char {
    if 'a' <= c <= 'f' then c - 'a' + 'A' else c
  }

  function UpperHexText(s: string): string {
    if s == "" then "" else [UpperHex(s[0])] + UpperHexText(s[1..])
  }

  lemma NibblePrints(c: char)
    requires HexNibble(c) >= 0
    ensures HexDigit(HexNibble(c)) == UpperHex(c)
  {
  }

  predicate PairAt(s: string) {
    HexNibble(Peek(s)) >= 0 && HexNibble(Peek(s[1..])) >= 0
  }

  /** The bytes taken are whole pairs of hex digits from the start of the text, as many as there
      are up to `n`: printed again they are that text, and what follows is no pair. */
  lemma {:induction false} BytesAreWholePairs(s: string, n: nat)
    ensures var data := HexBytes(s, n);
            && |data| <= n && 2 * |data| <= |s|
            && HexData(data) == UpperHexText(s[..2 * |data|])
            && (|data| == n || !PairAt(s[2 * |data|..]))
  {
    hide HexNibble, HexDigit, Fixed, UpperHex, UpperHexText;
    PairLength(s);
    if n == 0 || !PairAt(s) {
      NoText();
      assert s[0..] == s;
    } else {
      var data, rest := HexBytes(s, n), HexBytes(s[2..], n - 1);
      BytesAreWholePairs(s[2..], n - 1);
      assert data[1..] == rest;
      assert s[2 * |data|..] == s[2..][2 * |rest|..];
      PairPrints(s[0], s[1]);
      UpperPair(s, 2 * |data|);
      assert s[2..][..2 * |rest|] == s[2..2 * |data|];
    }
  }

  lemma PairLength(s: string)
    ensures PairAt(s) ==> |s| >= 2
  {
  }

  lemma NoText()
    ensures UpperHexText("") == ""
  {
  }

  lemma UpperPair(s: string, k: nat)
    requires 2 <= k <= |s|
    ensures UpperHexText(s[..k]) == [UpperHex(s[0]), UpperHex(s[1])] + UpperHexText(s[2..k])
  {
    assert s[..k][1..][1..] == s[2..k];
  }

  lemma PairPrints(high: char, low: char)
    requires HexNibble(high) >= 0 && HexNibble(low) >= 0
    ensures Fixed(HexNibble(high) * 16 + HexNibble(low), 16, 2) == [UpperHex(high), UpperHex(low)]
  {
    NibblePrints(high);
    NibblePrints(low);
    var b := HexNibble(high) * 16 + HexNibble(low);
    assert b / 16 == HexNibble(high) && b % 16 == HexNibble(low);
    assert Fixed(b / 16, 16, 1) == [HexDigit(b / 16)];
  }
}
