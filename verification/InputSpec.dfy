/** Debounced inputs: what each poll and each settings save does, as functions of the state and
    the sampled pins, with times in true time compared on the 32-bit clock. */
module InputSpec {
  import opened Board
  import opened Clock32
  import opened Timers

  datatype Link = Follow | Toggle
  datatype Action = ActOff | ActOn | ActToggle

  type Bools = s: seq<bool> | |s| == CHANNELS witness seq(CHANNELS, _ => false)
  type Numbers = s: seq<nat> | |s| == CHANNELS witness seq(CHANNELS, _ => 0)
  type Links = s: seq<Link> | |s| == CHANNELS witness seq(CHANNELS, _ => Follow)

  /** `overrideDi[r]` is the 1-based input that drives relay r, 0 for none. */
  datatype Config = Config(debounceMs: nat, invert: Bools, overrideDi: Numbers, link: Links)

  datatype State = State(cfg: Config, candidate: Bools, since: Times, stable: Mask, start: int, late: Mask, ready: bool)

  /** Calls out: a listener told of an input, or a relay switched for an override. */
  datatype Out = Report(channel: int, on: bool, mask: Mask) | Override(relay: int, action: Action)

  datatype Result = Result(s: State, outs: seq<Out>)

  const GRACE: int := 1000

  /** Pins are active low; `raw` holds the channels whose pin is high. */
  function Reading(c: Config, raw: Mask, i: Channel): bool {
    (i !in raw) != c.invert[i]
  }

  function Init(c: Config, raw: Mask, t: int): State {
    State(c, seq(CHANNELS, i requires 0 <= i < CHANNELS => Reading(c, raw, i)), seq(CHANNELS, _ => t), {}, t, {}, false)
  }

  // ------------------------------------------------------------- overrides

  predicate Drives(c: Config, i: Channel, r: Channel) {
    c.overrideDi[r] == i + 1
  }

  /** What input `i` asks of a relay linked to it, if anything. */
  function OverrideOf(c: Config, i: Channel, r: Channel, on: bool, boot: bool): seq<Out> {
    if !Drives(c, i, r) then []
    else if c.link[r] == Toggle then (if on && !boot then [Override(r + 1, ActToggle)] else [])
    else [Override(r + 1, if on then ActOn else ActOff)]
  }

  function OverridesFrom(c: Config, i: Channel, r: int, on: bool, boot: bool): seq<Out>
    requires 0 <= r <= CHANNELS
    decreases CHANNELS - r, c
  {
    if r == CHANNELS then [] else OverrideOf(c, i, r, on, boot) + OverridesFrom(c, i, r + 1, on, boot)
  }

  // ---------------------------------------------------------------- a poll

  function Sample(s: State, raw: Mask, t: int): State {
    s.(candidate := seq(CHANNELS, i requires 0 <= i < CHANNELS => Reading(s.cfg, raw, i)),
       since := seq(CHANNELS, i requires 0 <= i < CHANNELS =>
                if Reading(s.cfg, raw, i) != s.candidate[i] then t else s.since[i]))
  }

  predicate IsSettled(s: State, t: int, i: Channel) {
    Elapsed(Wrap(t), Wrap(s.since[i])) >= s.cfg.debounceMs
  }

  function Settled(s: State, t: int): Mask {
    set i: Channel | IsSettled(s, t, i)
  }

  function SettledOn(s: State, t: int): Mask {
    set i: Channel | IsSettled(s, t, i) && s.candidate[i]
  }

  function ReportsFrom(i: int, chans: Mask, mask: Mask): seq<Out>
    requires 0 <= i <= CHANNELS
    decreases CHANNELS - i, chans
  {
    if i == CHANNELS then []
    else (if i in chans then [Report(i + 1, i in mask, mask)] else []) + ReportsFrom(i + 1, chans, mask)
  }

  function BootOverridesFrom(c: Config, i: int, chans: Mask, mask: Mask): seq<Out>
    requires 0 <= i <= CHANNELS
    decreases CHANNELS - i, c
  {
    if i == CHANNELS then []
    else (if i in chans then OverridesFrom(c, i, 0, i in mask, true) else []) + BootOverridesFrom(c, i + 1, chans, mask)
  }

  /** Still waiting for the first stable readings. */
  predicate Waiting(s: State, t: int) {
    Settled(s, t) != ALL && Elapsed(Wrap(t), Wrap(s.start)) < s.cfg.debounceMs + GRACE
  }

  /** The first stable readings: report every input, then apply every settled one's overrides. */
  function BecomeReady(s: State, t: int): Result {
    var stable := SettledOn(s, t);
    Result(s.(stable := stable, late := ALL - Settled(s, t), ready := true),
           ReportsFrom(0, ALL, stable) + BootOverridesFrom(s.cfg, 0, Settled(s, t), stable))
  }

  function Changed(s: State, t: int): Mask {
    set i | i in Settled(s, t) && s.candidate[i] != (i in s.stable)
  }

  /** The calls for one input: nothing, or its report and then its overrides. */
  function ChangeOf(c: Config, i: Channel, changed: Mask, boot: Mask, mask: Mask): seq<Out> {
    if i in changed then [Report(i + 1, i in mask, mask)] + OverridesFrom(c, i, 0, i in mask, i in boot) else []
  }

  function ChangesFrom(c: Config, i: int, changed: Mask, boot: Mask, mask: Mask): seq<Out>
    requires 0 <= i <= CHANNELS
    decreases CHANNELS - i, c
  {
    if i == CHANNELS then []
    else ChangeOf(c, i, changed, boot, mask) + ChangesFrom(c, i + 1, changed, boot, mask)
  }

  function Update(s: State, t: int): Result {
    var settled := Settled(s, t);
    var changed := Changed(s, t);
    var stable := Xor(s.stable, changed);
    Result(s.(stable := stable, late := s.late - settled),
           ChangesFrom(s.cfg, 0, changed, settled * s.late, stable))
  }

  function Poll(s: State, raw: Mask, t: int): Result {
    var s1 := Sample(s, raw, t);
    if s1.ready then Update(s1, t)
    else if Waiting(s1, t) then Result(s1, [])
    else BecomeReady(s1, t)
  }

  // ---------------------------------------------------------- settings saves

  function Flipped(s: State, c: Config): Mask {
    set i: Channel | c.invert[i] != s.cfg.invert[i]
  }

  function Save(s: State, c: Config): Result {
    var flipped := Flipped(s, c);
    var s1 := s.(cfg := c, candidate := seq(CHANNELS, i requires 0 <= i < CHANNELS =>
                   if i in flipped then !s.candidate[i] else s.candidate[i]));
    if flipped == {} || !s.ready then Result(s1, [])
    else
      var stable := Xor(s.stable, flipped);
      Result(s1.(stable := stable), ReportsFrom(0, flipped, stable))
  }
}
