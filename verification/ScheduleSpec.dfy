/** Schedules: when an entry is active, and what the evaluator sends. */
module ScheduleSpec {
  import opened Options
  import opened Calendar

  const DAY: int := 1440

  datatype TimeKind = ClockTime | Sunrise | Sunset
  datatype Time = Time(kind: TimeKind, minute: int, offset: int)
  datatype Mode = Clock | Repeat

  /** `relay` 0 is an unused entry; `days` are the weekdays it runs on, 0 = Sunday. */
  datatype Entry = Entry(relay: int, mode: Mode, on: Time, off: Time, onMin: int, periodMin: int, days: set<int>)

  datatype Local = Local(hour: int, minute: int, wday: int, utcOffsetS: int)

  datatype SunKind = Transition | AlwaysUp | AlwaysDown
  datatype Sun = Sun(kind: SunKind, sunriseMs: int, sunsetMs: int)

  /** C remainder: the sign of the dividend. */
  function TruncMod(a: int, b: int): int
    requires b > 0
  {
    a - b * TruncDiv(a, b)
  }

  function WrapMinute(m: int): int {
    var r := TruncMod(m, DAY);
    if r < 0 then r + DAY else r
  }

  /** Local minute of day a boundary names; 0 or 1440 for a boundary the sun does not give. */
  function ResolveMinute(t: Time, local: Local, sun: Sun): int {
    if t.kind == ClockTime then t.minute
    else if sun.kind != Transition then
      if (sun.kind == AlwaysDown && t.kind == Sunset) || (sun.kind == AlwaysUp && t.kind == Sunrise) then 0 else DAY
    else
      var instant := if t.kind == Sunrise then sun.sunriseMs else sun.sunsetMs;
      var localMs := instant + local.utcOffsetS * 1000;
      WrapMinute(WrapMinute(TruncDiv(localMs, 60000)) + t.offset)
  }

  function NowMinute(local: Local): int {
    local.hour * 60 + local.minute
  }

  function ClockActiveAt(days: set<int>, today: int, now: int, on: int, off: int): bool {
    var yesterday := (today + 6) % 7;
    var active := today in days && (if on <= off then on <= now < off else now >= on || now < off);
    if !active && on > off && yesterday in days then now < off else active
  }

  function ClockActive(sc: Entry, local: Local, sun: Sun): bool {
    ClockActiveAt(sc.days, local.wday, NowMinute(local),
                  ResolveMinute(sc.on, local, sun), ResolveMinute(sc.off, local, sun))
  }

  function RepeatActiveAt(days: set<int>, today: int, now: int, on: int, period: int): bool
    requires period > 0
  {
    today in days && now % period < on
  }

  predicate ValidEntry(sc: Entry) {
    sc.relay != 0 && sc.mode == Repeat ==> 1 <= sc.onMin < sc.periodMin
  }

  /** What the entry wants now: a relay at a state, or nothing. */
  function Demand(sc: Entry, local: Local, sun: Sun): Option<(int, bool)>
    requires ValidEntry(sc)
  {
    if sc.relay == 0 then None
    else Some((sc.relay, if sc.mode == Repeat then
                           RepeatActiveAt(sc.days, local.wday, NowMinute(local), sc.onMin, sc.periodMin)
                         else ClockActive(sc, local, sun)))
  }

  // -------------------------------------------------------------- one tick

  /** The evaluator's memory of an entry. */
  datatype Memory = Memory(valid: bool, active: bool, relay: int)

  datatype Told = Told(memory: Memory, sent: seq<(int, bool)>)

  /** An entry sends its demand unless it is what it sent last. */
  function Tell(m: Memory, demand: Option<(int, bool)>): Told {
    if demand == None then Told(m.(valid := false), [])
    else if !m.valid || demand.value.1 != m.active || demand.value.0 != m.relay then
      Told(Memory(true, demand.value.1, demand.value.0), [demand.value])
    else Told(m, [])
  }
}
