/** The PCF85063 clock chip: calendar fields in BCD registers, and unix time through them. */
module Rtc {
  import opened Bytes
  import opened Options
  import opened Calendar

  const BLOCK: int := 7

  type Registers = s: seq<Byte> | |s| == BLOCK witness seq(BLOCK, _ => 0)

  datatype DateTime = DateTime(date: Date, hour: int, minute: int, second: int, wday: int)

  datatype Error = Ok | InvalidState | InvalidArg | BusError

  // -------------------------------------------------------------- registers

  /** `(uint8_t)v`. */
  function ToByte(v: int): Byte {
    if 0 <= v < 256 then v else v % 256
  }

  /** The low bits of a register, `n` a power of two. */
  function Low(v: Byte, n: int): Byte
    requires n in {8, 32, 64, 128}
  {
    if v < n then v else v % n
  }

  function ToBcd(v: Byte): Byte {
    ToByte(v / 10 * 16 + v % 10)
  }

  function FromBcd(v: Byte): Byte {
    ToByte(v / 16 * 10 + v % 16)
  }

  function ClampYear(y: int): int {
    if y < 2000 then 2000 else if y > 2099 then 2099 else y
  }

  /** Seconds, minutes, hours, days, weekdays, months, years. Bit 7 of the seconds is the
      "oscillator stopped" flag; a write leaves it clear. */
  function Encode(t: DateTime): Registers {
    [ToBcd(ToByte(t.second)), ToBcd(ToByte(t.minute)), ToBcd(ToByte(t.hour)), ToBcd(ToByte(t.date.day)),
     Low(ToByte(t.wday), 8), ToBcd(ToByte(t.date.month)), ToBcd(ToByte(ClampYear(t.date.year) - 2000))]
  }

  /** None when the chip says its time cannot be trusted. */
  function Decode(r: Registers): Option<DateTime> {
    if r[0] >= 128 then None
    else Some(DateTime(Date(2000 + FromBcd(r[6]), FromBcd(Low(r[5], 32)), FromBcd(Low(r[3], 64))),
                       FromBcd(Low(r[2], 64)), FromBcd(Low(r[1], 128)), FromBcd(Low(r[0], 128)), Low(r[4], 8)))
  }

  /** BCD is exact up to 99. */
  lemma BcdRoundTrip(v: Byte)
    requires v <= 99
    ensures FromBcd(ToBcd(v)) == v && ToBcd(v) == v / 10 * 16 + v % 10
  {
    TwoDigits(v / 10, v % 10);
  }

  lemma TwoDigits(a: int, b: int)
    requires 0 <= a < 10 && 0 <= b < 10
    ensures FromBcd(a * 16 + b) == a * 10 + b
  {
    assert (a * 16 + b) / 16 == a && (a * 16 + b) % 16 == b;
  }

  /** Cutting a register to the bits of its field loses nothing. */
  lemma Sixties(v: int)
    requires 0 <= v <= 59
    ensures ToBcd(ToByte(v)) < 128 && FromBcd(Low(ToBcd(ToByte(v)), 128)) == v
  {
    BcdRoundTrip(v);
  }

  lemma HoursAndDays(v: int)
    requires 0 <= v <= 31
    ensures FromBcd(Low(ToBcd(ToByte(v)), 64)) == v
  {
    BcdRoundTrip(v);
  }

  lemma Months(v: int)
    requires 0 <= v <= 12
    ensures FromBcd(Low(ToBcd(ToByte(v)), 32)) == v
  {
    BcdRoundTrip(v);
  }

  lemma Years(v: int)
    requires 0 <= v <= 99
    ensures FromBcd(ToBcd(ToByte(v))) == v
  {
    BcdRoundTrip(v);
  }

  lemma Wday(v: int)
    requires 0 <= v < 7
    ensures Low(Low(ToByte(v), 8), 8) == v
  {
  }

  predicate InChipRange(t: DateTime) {
    && 1 <= t.date.month <= 12 && 1 <= t.date.day <= 31
    && 0 <= t.hour < 24 && 0 <= t.minute < 60 && 0 <= t.second < 60 && 0 <= t.wday < 7
  }

  /** What the registers give back: the same fields, the year clamped to the chip's century. */
  lemma RegistersRoundTrip(t: DateTime)
    requires InChipRange(t)
    ensures Decode(Encode(t)) == Some(t.(date := t.date.(year := ClampYear(t.date.year))))
  {
    var y := ClampYear(t.date.year) - 2000;
    hide ToBcd, FromBcd, Low, ToByte;
    assert 0 <= y <= 99;
    Sixties(t.second);
    Sixties(t.minute);
    HoursAndDays(t.hour);
    HoursAndDays(t.date.day);
    Months(t.date.month);
    Wday(t.wday);
    Years(y);
  }

  /** Registers whose "oscillator stopped" flag is set are never taken for a time, and those without
      it always are; no write sets it. */
  lemma StoppedIsNoTime(r: Registers, t: DateTime)
    requires InChipRange(t)
    ensures Decode(r) == None <==> r[0] / 128 == 1
    ensures Encode(t)[0] / 128 == 0
  {
    Sixties(t.second);
  }

  // -------------------------------------------------------------- unix time

  /** The calendar fields of a positive instant in milliseconds. */
  function FieldsOf(unixMs: int): DateTime {
    var secs := TruncDiv(unixMs, 1000);
    var q := TruncDiv(secs, 86400);
    var r := secs - 86400 * q;
    var days := if r < 0 then q - 1 else q;
    var sod := if r < 0 then r + 86400 else r;
    DateTime(CivilFromDays(days), sod / 3600, sod / 60 % 60, sod % 60, WdayOf(days))
  }

  function InstantOf(t: DateTime): int {
    (DaysFromCivil(t.date) * 86400 + t.hour * 3600 + t.minute * 60 + t.second) * 1000
  }

  /** The fields are in range and stand for the instant, cut to whole seconds. */
  lemma FieldsExact(unixMs: int)
    requires unixMs > 0
    ensures var t := FieldsOf(unixMs);
            && InChipRange(t) && ValidDate(t.date)
            && InstantOf(t) == unixMs / 1000 * 1000
            && DaysFromCivil(t.date) == unixMs / 1000 / 86400
  {
    hide CivilFromDays, WdayOf, DaysFromCivil;
    var secs := unixMs / 1000;
    var days, sod := secs / 86400, secs % 86400;
    assert secs == 86400 * days + sod;
    CivilThenDays(days);
    WeekdayAdvances(days);
    var t := FieldsOf(unixMs);
    assert t == DateTime(CivilFromDays(days), sod / 3600, sod / 60 % 60, sod % 60, WdayOf(days));
    ClockSplit(sod);
    assert MonthLength(t.date.year, t.date.month) <= 31;
  }

  lemma ClockSplit(sod: int)
    requires 0 <= sod < 86400
    ensures sod == sod / 3600 * 3600 + sod / 60 % 60 * 60 + sod % 60
    ensures 0 <= sod / 3600 < 24
  {
    var m := sod / 60;
    assert sod == 60 * m + sod % 60;
    assert m == 60 * (m / 60) + m % 60;
    DivUnique(sod, 3600, m / 60, m % 60 * 60 + sod % 60);
  }

  // -------------------------------------------------------- the chip's century

  lemma {:induction false} YearsAdvance(a: int, b: int)
    requires a <= b
    ensures DaysToYear(a) <= DaysToYear(b)
    decreases b - a
  {
    if a < b {
      YearsAdvance(a, b - 1);
      YearsExact(b - 1);
      YearsExact(b);
      MarchYearLength(b - 1);
    }
  }

  lemma DayInYear(t: Date)
    requires ValidDate(t)
    ensures DaysToYear(t.year) <= DaysFromCivil(t) < DaysToYear(t.year + 1)
  {
    DaysFromCivilExact(t);
    MonthsExact(t.year, t.month);
    YearsExact(t.year);
    YearsExact(t.year + 1);
    MarchYearLength(t.year);
  }

  lemma CenturyEnds()
    ensures DaysToYear(2000) == 10957 && DaysToYear(2100) == 47482
  {
    YearsExact(2000);
    YearsExact(2100);
  }

  /** Days 10957 to 47481 are exactly the dates 2000-01-01 to 2099-12-31. */
  lemma CenturyDays(t: Date)
    requires ValidDate(t)
    ensures 10957 <= DaysFromCivil(t) <= 47481 <==> 2000 <= t.year <= 2099
  {
    DayInYear(t);
    CenturyEnds();
    if t.year < 2000 {
      YearsAdvance(t.year + 1, 2000);
    } else if t.year > 2099 {
      YearsAdvance(2100, t.year);
    } else {
      YearsAdvance(2000, t.year);
      YearsAdvance(t.year + 1, 2100);
    }
  }

  /** Whatever month and day a clamped year is combined with, the day stays in the century. */
  lemma ClampedDays(m: int, d: int, y: int)
    requires 1 <= m <= 12 && 1 <= d <= 31 && y in {2000, 2099}
    ensures 10957 <= DaysFromCivil(Date(y, m, d)) <= 47481
  {
    if m <= 2 && y == 2000 {
      DaysShape(Date(y, m, d), 4, 399);
    } else {
      DaysShape(Date(y, m, d), 5, if m <= 2 then 98 else y - 2000);
    }
  }

  // ----------------------------------------------------------- set, then get

  /** What a get reads after a set of `unixMs` on a working bus. */
  function GetAfterSet(unixMs: int): Option<int> {
    var r := Decode(Encode(FieldsOf(unixMs)));
    if r == None then None else Some(InstantOf(r.value))
  }

  /** Through the registers, the clock returns the instant it was set to, cut to whole seconds,
      exactly for the instants of the years 2000 to 2099 (946684800 s to 4102444799 s, counted
      as in section 4.16 of POSIX.1-2017 Base Definitions). */
  lemma SetThenGetIff(unixMs: int)
    requires unixMs > 0
    ensures GetAfterSet(unixMs).Some?
    ensures GetAfterSet(unixMs).value == unixMs / 1000 * 1000 <==> 946684800000 <= unixMs <= 4102444799999
  {
    hide Encode, Decode, FieldsOf, DaysFromCivil;
    var t := FieldsOf(unixMs);
    FieldsExact(unixMs);
    RegistersRoundTrip(t);
    CenturyDays(t.date);
    var days := DaysFromCivil(t.date);
    assert 10957 <= days <= 47481 <==> 946684800000 <= unixMs <= 4102444799999;
    if !(2000 <= t.date.year <= 2099) {
      ClampedDays(t.date.month, t.date.day, ClampYear(t.date.year));
      var clamped := t.(date := t.date.(year := ClampYear(t.date.year)));
      assert InstantOf(clamped) - InstantOf(t) == (DaysFromCivil(clamped.date) - days) * 86400000;
    }
  }

  // ---------------------------------------------------------------- the driver

  /** The stored bus and chip, as rtc_pcf85063.c uses them. `ack` says whether the bus reports
      success, `landed` whether a write took effect. */
  class Clock {
    const block: array<Byte>
    var ctrl1: Byte
    var inited: bool

    ghost predicate Valid()
      reads this
    {
      block.Length == BLOCK
    }

    constructor (power: Registers)
      ensures Valid() && fresh(block) && block[..] == power && !inited
    {
      block := new Byte[BLOCK](i requires 0 <= i < BLOCK => power[i]);
      ctrl1, inited := 0, false;
      new;
      assert block[..] == power;
    }

    /** 24-hour mode; the stored time and its validity flag stay. */
    method Init(ack: bool, landed: bool) returns (err: Error)
      requires Valid()
      modifies this
      ensures Valid() && err == (if ack then Ok else BusError)
      ensures inited == (old(inited) || ack) && ctrl1 == (if landed then 0 else old(ctrl1))
    {
      if landed {
        ctrl1 := 0;
      }
      if !ack {
        return BusError;
      }
      inited := true;
      return Ok;
    }

    method SetTime(unixMs: int, ack: bool, landed: bool) returns (err: Error)
      requires Valid()
      modifies block
      ensures err == if !inited then InvalidState
                     else if unixMs <= 0 then InvalidArg
                     else if ack then Ok else BusError
      ensures block[..] == if inited && unixMs > 0 && landed then Encode(FieldsOf(unixMs)) else old(block[..])
    {
      hide Encode, FieldsOf;
      if !inited {
        return InvalidState;
      }
      if unixMs <= 0 {
        return InvalidArg;
      }
      if landed {
        var r := Encode(FieldsOf(unixMs));
        for i := 0 to BLOCK
          invariant block[..i] == r[..i]
        {
          block[i] := r[i];
        }
        assert block[..] == r;
      }
      return if ack then Ok else BusError;
    }

    method GetTime(ack: bool) returns (err: Error, unixMs: int)
      requires Valid()
      ensures err == if !inited then InvalidState
                     else if !ack then BusError
                     else if Decode(block[..]) == None then InvalidState else Ok
      ensures err == Ok ==> unixMs == InstantOf(Decode(block[..]).value)
    {
      unixMs := 0;
      if !inited {
        return InvalidState, 0;
      }
      if !ack {
        return BusError, 0;
      }
      var t := Decode(block[..]);
      if t == None {
        return InvalidState, 0;
      }
      return Ok, InstantOf(t.value);
    }

    /** A set that landed, then a get: the instant in whole seconds, within the century. */
    method SetThenGet(unixMs: int) returns (back: int)
      requires Valid() && inited && 946684800000 <= unixMs <= 4102444799999
      modifies block
      ensures back == unixMs / 1000 * 1000
    {
      hide Encode, Decode, FieldsOf, InstantOf;
      SetThenGetIff(unixMs);
      var err := SetTime(unixMs, true, true);
      err, back := GetTime(true);
    }
  }
}
