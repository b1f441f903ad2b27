/** What schedules do over whole days and whole runs. */
module ScheduleRuns {
  import opened Numbers
  import opened Options
  import opened Calendar
  import opened ScheduleSpec

  // -------------------------------------------------------- absolute windows

  /** Weekday of absolute day `d`, when day 0 is weekday `w0`. */
  function WeekdayOf(d: int, w0: int): int {
    (d + w0) % 7
  }

  /** Absolute minute `t` lies in the window that starts on day `d`. */
  predicate InWindowOf(d: int, t: int, on: int, off: int) {
    d * DAY + on <= t < (if on <= off then d else d + 1) * DAY + off
  }

  /** `t` lies in a window that started on some enabled day. */
  ghost predicate InSomeWindow(days: set<int>, w0: int, t: int, on: int, off: int) {
    exists d :: WeekdayOf(d, w0) in days && InWindowOf(d, t, on, off)
  }

  lemma WindowDays(d: int, day: int, now: int, on: int, off: int)
    requires 0 <= now < DAY && 0 <= on < DAY && 0 <= off < DAY
    ensures InWindowOf(d, day * DAY + now, on, off) <==>
              if on <= off then d == day && on <= now < off
              else (d == day && now >= on) || (d == day - 1 && now < off)
  {
    if d >= day + 1 {
      assert d * DAY >= (day + 1) * DAY;
    } else if d <= day - 2 {
      assert (d + 1) * DAY <= (day - 1) * DAY;
    } else if d == day - 1 {
      assert d * DAY == day * DAY - DAY;
    }
  }

  lemma PreviousWeekday(day: int, w0: int)
    ensures WeekdayOf(day - 1, w0) == (WeekdayOf(day, w0) + 6) % 7
  {
    var q, r := (day + w0) / 7, (day + w0) % 7;
    assert day + w0 == 7 * q + r;
    if r == 0 {
      DivUnique(day - 1 + w0, 7, q - 1, 6);
    } else {
      DivUnique(day - 1 + w0, 7, q, r - 1);
      DivUnique(r + 6, 7, 1, r - 1);
    }
  }

  /** Clock schedules are windows in absolute time: an entry is active exactly inside a window
      that started on an enabled day, plus, for a window across midnight, in the minutes before
      `off` of an enabled day that follows a disabled one. */
  lemma ClockActiveIsWindows(days: set<int>, w0: int, day: int, now: int, on: int, off: int)
    requires 0 <= now < DAY && 0 <= on < DAY && 0 <= off < DAY
    ensures var today, yesterday := WeekdayOf(day, w0), WeekdayOf(day - 1, w0);
            ClockActiveAt(days, today, now, on, off) <==>
              || InSomeWindow(days, w0, day * DAY + now, on, off)
              || (on > off && today in days && yesterday !in days && now < off)
  {
    var t := day * DAY + now;
    PreviousWeekday(day, w0);
    WindowDays(day, day, now, on, off);
    WindowDays(day - 1, day, now, on, off);
    if InSomeWindow(days, w0, t, on, off) {
      var d :| WeekdayOf(d, w0) in days && InWindowOf(d, t, on, off);
      WindowDays(d, day, now, on, off);
    }
  }

  /** A partial week leaves the extra stretch: concretely, a Monday-only 22:00 to 06:00 entry is
      active on Monday at 03:00, in no window at all. */
  lemma MaskedDayStartsEarly()
    ensures ClockActiveAt({1}, 1, 180, 1320, 360)
    ensures forall d :: WeekdayOf(d, 1) in {1} ==> !InWindowOf(d, 180, 1320, 360)
  {
    forall d | WeekdayOf(d, 1) in {1} ensures !InWindowOf(d, 180, 1320, 360) {
      WindowDays(d, 0, 180, 1320, 360);
    }
  }

  /** Every boundary resolves to a minute of the day, or to 1440 when the sun never gives it. */
  lemma ResolvedInDay(t: Time, local: Local, sun: Sun)
    requires t.kind == ClockTime ==> 0 <= t.minute < DAY
    ensures 0 <= ResolveMinute(t, local, sun) <= DAY
    ensures ResolveMinute(t, local, sun) == DAY ==> t.kind != ClockTime && sun.kind != Transition
  {
    var instant := if t.kind == Sunrise then sun.sunriseMs else sun.sunsetMs;
    WrapMinuteRange(TruncDiv(instant + local.utcOffsetS * 1000, 60000));
    WrapMinuteRange(WrapMinute(TruncDiv(instant + local.utcOffsetS * 1000, 60000)) + t.offset);
  }

  lemma WrapMinuteRange(m: int)
    ensures 0 <= WrapMinute(m) < DAY && WrapMinute(m) == m % DAY
  {
    if m < 0 {
      var k := (-m) / DAY;
      var r := m + DAY * k;
      DivUnique(m, DAY, if r < 0 then -k - 1 else -k, if r < 0 then r + DAY else r);
    }
  }

  /** An entry as it is set: in clock mode with boundaries within the day, given as clock times or by the
      sun, it demands its relay on exactly inside a window from its on to its off boundary that started
      on an enabled day, plus the stretch before `off` of an enabled day after a disabled one. */
  lemma ClockEntryIsWindows(sc: Entry, w0: int, day: int, local: Local, sun: Sun)
    requires sc.relay != 0 && sc.mode == Clock && local.wday == WeekdayOf(day, w0)
    requires 0 <= local.hour < 24 && 0 <= local.minute < 60
    requires var on, off := ResolveMinute(sc.on, local, sun), ResolveMinute(sc.off, local, sun);
             0 <= on < DAY && 0 <= off < DAY
    ensures var on, off := ResolveMinute(sc.on, local, sun), ResolveMinute(sc.off, local, sun);
            var now, d := local.hour * 60 + local.minute, Demand(sc, local, sun);
            && d.Some? && d.value.0 == sc.relay
            && (d.value.1 <==>
                  || InSomeWindow(sc.days, w0, day * DAY + now, on, off)
                  || (on > off && local.wday in sc.days && WeekdayOf(day - 1, w0) !in sc.days && now < off))
  {
    hide ResolveMinute, InSomeWindow, ClockActiveAt;
    ClockActiveIsWindows(sc.days, w0, day, NowMinute(local),
                         ResolveMinute(sc.on, local, sun), ResolveMinute(sc.off, local, sun));
  }

  /** The minute of the day a boundary stands for: a clock time as set; the local minute of sunrise or
      sunset plus the offset, around midnight if need be (a time before 1970 is rounded up to its minute,
      not down); on a day without them, midnight for a boundary that has passed and 1440 for one that never
      comes. */
  lemma BoundaryMinute(t: Time, local: Local, sun: Sun)
    ensures t.kind == ClockTime ==> ResolveMinute(t, local, sun) == t.minute
    ensures t.kind != ClockTime && sun.kind == Transition ==>
              var ms := (if t.kind == Sunrise then sun.sunriseMs else sun.sunsetMs) + local.utcOffsetS * 1000;
              && (ms >= 0 ==> ResolveMinute(t, local, sun) == (ms / 60000 + t.offset) % 1440)
              && (ms < 0 ==> ResolveMinute(t, local, sun) == (-((-ms) / 60000) + t.offset) % 1440)
    ensures sun.kind == AlwaysUp ==>
              && (t.kind == Sunrise ==> ResolveMinute(t, local, sun) == 0)
              && (t.kind == Sunset ==> ResolveMinute(t, local, sun) == 1440)
    ensures sun.kind == AlwaysDown ==>
              && (t.kind == Sunset ==> ResolveMinute(t, local, sun) == 0)
              && (t.kind == Sunrise ==> ResolveMinute(t, local, sun) == 1440)
  {
    var instant := if t.kind == Sunrise then sun.sunriseMs else sun.sunsetMs;
    var m := TruncDiv(instant + local.utcOffsetS * 1000, 60000);
    WrapMinuteRange(m);
    WrapMinuteRange(WrapMinute(m) + t.offset);
    AddThenWrap(m, t.offset);
  }

  lemma AddThenWrap(m: int, k: int)
    ensures (m % DAY + k) % DAY == (m + k) % DAY
  {
    var q, r := m / DAY, (m % DAY + k) / DAY;
    assert m + k == DAY * (q + r) + (m % DAY + k) % DAY;
    DivUnique(m + k, DAY, q + r, (m % DAY + k) % DAY);
  }

  /** Polar days: from sunrise to sunset is the whole of an enabled day when the sun stays up and none of
      it when it stays down; from sunset to sunrise the other way round. */
  lemma PolarDays(sc: Entry, local: Local, sun: Sun)
    requires sc.relay != 0 && sc.mode == Clock && sun.kind != Transition
    requires sc.on.kind != ClockTime && sc.off.kind != ClockTime && sc.on.kind != sc.off.kind
    requires 0 <= local.hour < 24 && 0 <= local.minute < 60
    ensures Demand(sc, local, sun)
         == Some((sc.relay, local.wday in sc.days && (sun.kind == AlwaysUp <==> sc.on.kind == Sunrise)))
  {
    BoundaryMinute(sc.on, local, sun);
    BoundaryMinute(sc.off, local, sun);
    hide ResolveMinute;
  }

  // ------------------------------------------------------------- duty cycles

  predicate Repeats(sc: Entry) {
    sc.relay != 0 && sc.mode == Repeat && 0 < sc.onMin < sc.periodMin
  }

  /** The entry demands its relay on at minute `m` of a day. */
  predicate ActiveAt(sc: Entry, wday: int, sun: Sun, m: nat)
    requires Repeats(sc)
  {
    Demand(sc, Local(m / 60, m % 60, wday, 0), sun) == Some((sc.relay, true))
  }

  /** Active minutes among the first `n` of a day. */
  function ActiveMinutes(sc: Entry, wday: int, sun: Sun, n: nat): nat
    requires Repeats(sc)
  {
    if n == 0 then 0 else ActiveMinutes(sc, wday, sun, n - 1) + if ActiveAt(sc, wday, sun, n - 1) then 1 else 0
  }

  lemma ActiveMinute(sc: Entry, wday: int, sun: Sun, m: nat)
    requires Repeats(sc)
    ensures ActiveAt(sc, wday, sun, m) <==> wday in sc.days && m % sc.periodMin < sc.onMin
  {
    assert NowMinute(Local(m / 60, m % 60, wday, 0)) == m;
  }

  lemma {:induction false} ActiveMinutesExact(sc: Entry, wday: int, sun: Sun, n: nat)
    requires Repeats(sc)
    ensures ActiveMinutes(sc, wday, sun, n)
         == if wday in sc.days then n / sc.periodMin * sc.onMin + Min(n % sc.periodMin, sc.onMin) else 0
  {
    var on, period := sc.onMin, sc.periodMin;
    if n == 0 {
      DivUnique(0, period, 0, 0);
    } else {
      hide ActiveAt;
      ActiveMinutesExact(sc, wday, sun, n - 1);
      ActiveMinute(sc, wday, sun, n - 1);
      var q, r := (n - 1) / period, (n - 1) % period;
      assert n - 1 == period * q + r;
      if r + 1 == period {
        assert period * (q + 1) == period * q + period;
        DivUnique(n, period, q + 1, 0);
        assert (q + 1) * on == q * on + on;
      } else {
        DivUnique(n, period, q, r + 1);
      }
    }
  }

  /** An enabled day of a duty cycle has a whole number of cycles and the start of one more; a
      disabled day has no active minute. */
  lemma DutyCycleOfDay(sc: Entry, wday: int, sun: Sun)
    requires Repeats(sc)
    ensures ActiveMinutes(sc, wday, sun, 1440)
         == if wday in sc.days then 1440 / sc.periodMin * sc.onMin + Min(1440 % sc.periodMin, sc.onMin) else 0
  {
    ActiveMinutesExact(sc, wday, sun, 1440);
  }

  // -------------------------------------------------------- commands of a run

  /** One entry over a run: its demand at each tick, None while the time is not valid or the
      entry is not in use. Settings may change from tick to tick. */
  function MemoryAt(ds: seq<Option<(int, bool)>>, k: nat): Memory
    requires k <= |ds|
  {
    if k == 0 then Memory(false, false, 0) else Tell(MemoryAt(ds, k - 1), ds[k - 1]).memory
  }

  function Commands(ds: seq<Option<(int, bool)>>, k: nat): seq<(int, bool)>
    requires k <= |ds|
  {
    if k == 0 then [] else Commands(ds, k - 1) + Tell(MemoryAt(ds, k - 1), ds[k - 1]).sent
  }

  /** The demands with repeats removed; a gap starts afresh. */
  function WithoutRepeats(ds: seq<Option<(int, bool)>>, k: nat): seq<(int, bool)>
    requires k <= |ds|
  {
    if k == 0 then []
    else WithoutRepeats(ds, k - 1)
         + if ds[k - 1].Some? && (k == 1 || ds[k - 2] != ds[k - 1]) then [ds[k - 1].value] else []
  }

  /** The commands an entry sends are its demands with repeats removed: each change of activity,
      each move to another relay, and a first command after the time becomes valid or the entry
      is put to use. */
  lemma {:induction false} CommandsAreChanges(ds: seq<Option<(int, bool)>>, k: nat)
    requires k <= |ds|
    ensures Commands(ds, k) == WithoutRepeats(ds, k)
    ensures k > 0 ==> var m := MemoryAt(ds, k);
              m.valid == ds[k - 1].Some? && (m.valid ==> ds[k - 1] == Some((m.relay, m.active)))
    ensures k == 0 ==> !MemoryAt(ds, k).valid
  {
    if k > 0 {
      CommandsAreChanges(ds, k - 1);
    }
  }
}
