/** What each relay-control operation does, as a function of the state, the request and what
    the environment answers. Deadlines are kept in true time here; every comparison goes
    through the wrapping 32-bit clock exactly as the firmware's does. `mask` is the mask of the
    last confirmed write, and a coil is on or off here as it says; RelayPins is about the coils
    the expander drives, which a write that landed unconfirmed makes differ from it. */
module RelaySpec {
  import opened Options
  import opened Board
  import opened Clock32
  import opened RelayConfig
  import opened Expander
  import opened Timers

  datatype Source = SignalK | N2k | Input | PulseEnd | Failsafe | Web | MaxOn | Interlock | Schedule

  datatype Error = Ok | InvalidArg | BusError

  /** One listener call: 1-based channel, its new reported state, the cause, the full mask. */
  datatype Event = Event(channel: int, on: bool, src: Source, mask: Mask)

  type Sources = s: seq<Source> | |s| == CHANNELS witness seq(CHANNELS, _ => SignalK)

  datatype State = State(
    cfg: Config,
    mask: Mask,
    pulsing: Mask, pulseDue: Times,
    limited: Mask, limitDue: Times,
    pending: Mask, pendingDue: Times, pendingSrc: Sources,
    savePending: bool, lastSave: int,
    store: Option<Mask>,
    chip: Chip)

  /** A commit tries the write at most twice. */
  datatype Attempts = Attempts(first: WriteAnswer, second: WriteAnswer)

  /** What the environment does during one call: the successive clock readings, the bus
      answers to the call's successive commits, and whether the store takes a save. */
  datatype Env = Env(t0: int, t1: int, t2: int, w0: Attempts, w1: Attempts, w2: Attempts, saveOk: bool)

  datatype Committed = Committed(s: State, ok: bool)
  datatype Outcome = Outcome(s: State, err: Error, events: seq<Event>)

  const DELAY: int := 5000

  function TwoAttempts(chip: Chip, target: Mask, w: Attempts): WriteResult {
    var a := WriteOutput(chip, target, w.first);
    if a.ok then a else WriteOutput(a.chip, target, w.second)
  }

  function Commit(s: State, target: Mask, w: Attempts): Committed {
    if target == s.mask then
      Committed(s, true)
    else
      var r := TwoAttempts(s.chip, target, w);
      if !r.ok then
        Committed(s.(chip := r.chip), false)
      else
        var hold := HoldMask(s.cfg);
        Committed(s.(chip := r.chip, mask := target,
                     savePending := s.savePending || Xor(target, s.mask) * hold != {}), true)
  }

  /** Coils whose max on-time (re)starts at a change from `before` to `mask`: newly on, or
      restarted by `restart`. */
  predicate Restarts(c: Config, mask: Mask, before: Mask, restart: Mask, i: Channel) {
    i in mask && MaxOnMs(c, i) != 0 && (i !in before || i in restart)
  }

  function TrackedLimits(c: Config, mask: Mask, limited: Mask, before: Mask, restart: Mask): Mask {
    set i: Channel | i in mask && MaxOnMs(c, i) != 0 && (Restarts(c, mask, before, restart, i) || i in limited)
  }

  function TrackedDue(c: Config, mask: Mask, due: Times, before: Mask, restart: Mask, t: int): Times {
    seq(CHANNELS, i requires 0 <= i < CHANNELS =>
      if Restarts(c, mask, before, restart, i) then t + MaxOnMs(c, i) else due[i])
  }

  function TrackMaxOn(s: State, before: Mask, restart: Mask, t: int): State {
    s.(limited := TrackedLimits(s.cfg, s.mask, s.limited, before, restart),
       limitDue := TrackedDue(s.cfg, s.mask, s.limitDue, before, restart, t))
  }

  /** Listener calls for the channels in `changed`, from channel index `i` up. */
  function NotifyFrom(i: int, changed: Mask, after: Mask, src: Source): seq<Event>
    requires 0 <= i <= CHANNELS
    decreases CHANNELS - i, changed
  {
    if i == CHANNELS then []
    else (if i in changed then [Event(i + 1, i in after, src, after)] else [])
         + NotifyFrom(i + 1, changed, after, src)
  }

  function NotifyBits(changed: Mask, after: Mask, src: Source): seq<Event> {
    NotifyFrom(0, changed, after, src)
  }

  /** What the outside is told: coil states with NC-wired relays inverted. */
  function Reported(c: Config, mask: Mask): Mask {
    Xor(mask, WiredNcMask(c))
  }

  function Notify(c: Config, before: Mask, after: Mask, src: Source): seq<Event> {
    NotifyBits(Xor(Reported(c, before), Reported(c, after)), Reported(c, after), src)
  }

  // ---------------------------------------------------------------- commands

  datatype Request = On | Off | Toggle

  /** The coil level a request asks for. */
  predicate WantsOn(s: State, i: Channel, req: Request) {
    match req
    case Toggle => i !in s.mask
    case On => !s.cfg.relays[i].wiredNc
    case Off => s.cfg.relays[i].wiredNc
  }

  function SwitchOff(s: State, i: Channel, e: Env): Committed {
    var s1 := s.(pending := s.pending - {i});
    var c := Commit(s1, s1.mask - {i}, e.w0);
    if !c.ok then c
    else Committed(TrackMaxOn(c.s.(pulsing := c.s.pulsing - {i}), s.mask, {}, e.t0), true)
  }

  /** Once the partner `p` is off, relay `i` starts waiting out the dead time. */
  function StartWaiting(s: State, before: Mask, i: Channel, p: Channel, src: Source, e: Env): State {
    var s1 := TrackMaxOn(s.(pulsing := s.pulsing - {p}, pending := s.pending - {p}), before, {}, e.t0);
    s1.(pending := s1.pending + {i},
        pendingDue := s1.pendingDue[i := e.t1 + s.cfg.deadMs],
        pendingSrc := s1.pendingSrc[i := src])
  }

  /** On while the partner's coil is on: the partner goes off now, this one waits. */
  function Defer(s: State, i: Channel, p: Channel, src: Source, e: Env): Committed {
    var c := Commit(s, s.mask - {p}, e.w0);
    if !c.ok then c else Committed(StartWaiting(c.s, s.mask, i, p, src, e), true)
  }

  /** Once coil `i` is on: its pulse and max on-time start, its partner stops waiting. */
  function StartTimers(s: State, before: Mask, i: Channel, e: Env): State {
    var s1 := if IsMomentary(s.cfg, i)
              then s.(pulseDue := s.pulseDue[i := e.t0 + s.cfg.relays[i].pulseMs],
                      pulsing := s.pulsing + {i})
              else s;
    var s2 := TrackMaxOn(s1, before, {i}, e.t1);
    var p := Partner(s.cfg, i);
    if 0 <= p < CHANNELS then s2.(pending := s2.pending - {p}) else s2
  }

  function Energise(s: State, i: Channel, e: Env): Committed {
    var c := Commit(s, s.mask + {i}, e.w0);
    if !c.ok then c else Committed(StartTimers(c.s, s.mask, i, e), true)
  }

  function Switch(s: State, i: Channel, on: bool, src: Source, e: Env): Committed {
    if !on then SwitchOff(s, i, e)
    else if PartnerIn(s.cfg, i, s.mask) then Defer(s, i, Partner(s.cfg, i), src, e)
    else if i in s.pending then Committed(s, true)
    else Energise(s, i, e)
  }

  function Command(s: State, channel: int, req: Request, src: Source, e: Env): Outcome {
    if channel < 1 || channel > CHANNELS then
      Outcome(s, InvalidArg, [])
    else
      var c := Switch(s, channel - 1, WantsOn(s, channel - 1, req), src, e);
      Outcome(c.s, if c.ok then Ok else BusError, Notify(s.cfg, s.mask, c.s.mask, src))
  }

  // --------------------------------------------------------------- fail-safe

  function SkLost(s: State, e: Env): Outcome {
    var off := ALL - HoldMask(s.cfg);
    var c := Commit(s, s.mask - off, e.w0);
    var s1 := if c.ok then TrackMaxOn(c.s.(pulsing := c.s.pulsing - off), s.mask, {}, e.t0) else c.s;
    var s2 := s1.(pending := s1.pending - off);
    Outcome(s2, Ok, Notify(s.cfg, s.mask, s2.mask, Failsafe))
  }

  // -------------------------------------------------------------------- tick

  function EndedPulses(s: State, t: int): Mask {
    set i | i in s.pulsing && Passed(t, s.pulseDue[i])
  }

  function EndPulses(s: State, e: Env): State {
    var ended := EndedPulses(s, e.t0);
    if ended == {} then s
    else
      var c := Commit(s, s.mask - ended, e.w0);
      if c.ok then c.s.(pulsing := c.s.pulsing - ended) else c.s
  }

  function ExpiredLimits(s: State, t: int): Mask {
    set i | i in s.limited && Passed(t, s.limitDue[i])
  }

  function EndMaxOn(s: State, e: Env): State {
    var expired := ExpiredLimits(s, e.t0);
    if expired == {} then s
    else
      var c := Commit(s, s.mask - expired, e.w1);
      if c.ok then c.s.(limited := c.s.limited - expired) else c.s
  }

  function DuePending(s: State, t: int): Mask {
    set i | i in s.pending && Passed(t, s.pendingDue[i])
  }

  /** Due relays whose partner's coil is off right now. */
  function Fires(s: State, t: int): Mask {
    set i | i in DuePending(s, t) && !PartnerIn(s.cfg, i, s.mask)
  }

  datatype Fired = Fired(s: State, fired: Mask)

  function MomentaryIn(c: Config, m: Mask): Mask {
    set i | i in m && IsMomentary(c, i)
  }

  /** The pulse deadlines once the pulses of `starts` begin at `t`. */
  function PulsesStarted(c: Config, starts: Mask, due: Times, t: int): Times {
    seq(CHANNELS, i requires 0 <= i < CHANNELS => if i in starts then t + c.relays[i].pulseMs else due[i])
  }

  function StartFired(s: State, before: Mask, fires: Mask, e: Env): State {
    var starts := MomentaryIn(s.cfg, fires);
    TrackMaxOn(s.(pending := s.pending - fires, pulsing := s.pulsing + starts,
                  pulseDue := PulsesStarted(s.cfg, starts, s.pulseDue, e.t0)),
               before, fires, e.t1)
  }

  function FirePending(s: State, e: Env): Fired {
    var fires := Fires(s, e.t0);
    var s1 := s.(pending := s.pending - (DuePending(s, e.t0) - fires));
    if fires == {} then Fired(s1, {})
    else
      var c := Commit(s1, s1.mask + fires, e.w2);
      if !c.ok then Fired(c.s, {}) else Fired(StartFired(c.s, s.mask, fires, e), fires)
  }

  predicate SaveDue(s: State, t: int) {
    s.savePending && Elapsed(Wrap(t), Wrap(s.lastSave)) >= DELAY
  }

  function SaveHold(s: State, e: Env): State {
    if !SaveDue(s, e.t0) then s
    else if e.saveOk then
      s.(savePending := false, lastSave := e.t0, store := Some(s.mask * HoldMask(s.cfg)))
    else s.(lastSave := e.t0)
  }

  /** Fired relays report one by one, each with the source of its own "on" command. */
  function FiredEvents(i: int, fired: Mask, after: Mask, srcs: Sources): seq<Event>
    requires 0 <= i <= CHANNELS
    decreases CHANNELS - i, fired
  {
    if i == CHANNELS then []
    else (if i in fired then NotifyBits({i}, after, srcs[i]) else [])
         + FiredEvents(i + 1, fired, after, srcs)
  }

  function TickPulses(s: State, e: Env): State { EndPulses(s, e) }
  function TickMaxOn(s: State, e: Env): State { EndMaxOn(EndPulses(s, e), e) }
  function TickFire(s: State, e: Env): Fired { FirePending(TickMaxOn(s, e), e) }

  function Tick(s: State, e: Env): Outcome {
    var s1 := TickPulses(s, e);
    var s2 := TickMaxOn(s, e);
    var f := TickFire(s, e);
    Outcome(SaveHold(f.s, e), Ok,
            Notify(s.cfg, s.mask, s1.mask, PulseEnd)
            + Notify(s.cfg, s1.mask, s2.mask, MaxOn)
            + FiredEvents(0, f.fired, Reported(s.cfg, f.s.mask), s2.pendingSrc))
  }

  // ---------------------------------------------------------- settings saves

  /** Takes the new settings and starts or drops pulses to match them. */
  function AdoptModes(s: State, cfg: Config, t: int): State {
    var starts := MomentaryIn(cfg, s.mask) - s.pulsing;
    s.(cfg := cfg,
       pulsing := MomentaryIn(cfg, s.pulsing) + starts,
       pulseDue := PulsesStarted(cfg, starts, s.pulseDue, t),
       savePending := s.savePending || HoldMask(cfg) != HoldMask(s.cfg))
  }

  function ChangedLimits(prev: Config, cfg: Config): Mask {
    set i: Channel | MaxOnMs(cfg, i) != MaxOnMs(prev, i)
  }

  function Adopt(s: State, cfg: Config, e: Env): State {
    TrackMaxOn(AdoptModes(s, cfg, e.t0), s.mask, ChangedLimits(s.cfg, cfg), e.t1)
  }

  function ClearConflict(s: State, conflict: Mask, e: Env): State {
    var c := Commit(s, s.mask - conflict, e.w0);
    if !c.ok then c.s
    else TrackMaxOn(c.s.(pulsing := c.s.pulsing - conflict, pending := c.s.pending - conflict), s.mask, {}, e.t2)
  }

  function UpdateConfig(s: State, cfg: Config, e: Env): Outcome {
    var s1 := Adopt(s, cfg, e);
    var conflict := Conflicts(cfg, s1.mask);
    var s2 := if conflict == {} then s1 else ClearConflict(s1, conflict, e);
    Outcome(s2, Ok, Notify(cfg, s.mask, s2.mask, Interlock))
  }

  // -------------------------------------------------------------------- boot

  /** Bus and store answers during start-up. */
  datatype BootEnv = BootEnv(t0: int, t1: int, readDirection: ReadAnswer, readOutput: ReadAnswer,
                             loadOk: bool, write: WriteAnswer, direction: WriteAnswer)

  /** Relay control before start-up: nothing on, nothing running. */
  predicate Blank(s: State) {
    s.mask == {} && s.pulsing == {} && s.limited == {} && s.pending == {} && !s.savePending
  }

  datatype BootChoice = BootChoice(warm: bool, held: Mask)

  function ChooseHeld(s: State, b: BootEnv): Option<BootChoice> {
    var dir := ReadBack(s.chip.inputs, b.readDirection);
    if dir == None then None
    else if dir.value == {} then
      var reg := ReadBack(s.chip.output, b.readOutput);
      if reg == None then None else Some(BootChoice(true, reg.value))
    else if b.loadOk && s.store.Some? then Some(BootChoice(false, s.store.value))
    else Some(BootChoice(false, {}))
  }

  function Restore(s: State, choice: BootChoice, b: BootEnv): Committed {
    var wanted := choice.held * HoldMask(s.cfg);
    var conflict := Conflicts(s.cfg, wanted);
    var target := wanted - conflict;
    var w := if choice.warm then WriteOutput(s.chip, target, b.write)
             else InitOutputs(s.chip, target, b.write, b.direction);
    if !w.ok then Committed(s.(chip := w.chip), false)
    else
      var s1 := TrackMaxOn(s.(chip := w.chip, mask := target), {}, {}, b.t1);
      Committed(s1.(savePending := choice.warm || conflict != {}), true)
  }

  function Cleared(s: State, cfg: Config, t: int): State {
    s.(cfg := cfg, pulsing := {}, limited := {}, pending := {}, savePending := false, lastSave := t - DELAY)
  }

  /** relay_ctrl_init on a blank controller. A failure leaves it with nothing on. */
  function Boot(s: State, cfg: Config, b: BootEnv): Committed {
    var s0 := Cleared(s, cfg, b.t0);
    var choice := ChooseHeld(s, b);
    if choice == None then Committed(s0, false) else Restore(s0, choice.value, b)
  }
}
