/** How long a coil can stay on. The deadlines run on a wrapping 32-bit clock; in true time a
    momentary coil outlives its last "on" by at most its own pulse plus the tick spacing, and a
    limited coil by at most its own maximum on-time plus the tick spacing. */
module RelayTiming {
  import opened Board
  import opened Clock32
  import opened RelayConfig
  import opened Expander
  import opened Timers
  import opened RelaySpec
  import opened RelayInvariant
  import opened RelayRuns
  import opened RelayCause
  import opened RelayPins

  // -------------------------------------- timers match the coils in every run

  lemma StepKeepsTimers(s: State, op: Op)
    requires TimersMatch(s)
    ensures TimersMatch(Apply(s, op).s)
  {
    match op
    case DoCommand(channel, req, src, e) => CommandKeeps(s, channel, req, src, e);
    case DoSkLost(e) => SkLostKeeps(s, e);
    case DoTick(e) => TickKeeps(s, e);
    case DoSave(cfg, e) =>
      AdoptFacts(s, cfg, e);
      var s1 := Adopt(s, cfg, e);
      ClearConflictFacts(s1, Conflicts(cfg, s1.mask), e);
  }

  /** In every state of every run, bus failures and settings saves included, the running pulses
      are exactly the momentary relays on in the mask, and the running limits exactly the relays
      on in the mask that have a maximum on-time. */
  lemma {:induction false} TimersAlwaysMatch(s: State, ops: seq<Op>, k: nat)
    requires TimersMatch(s) && k <= |ops|
    ensures TimersMatch(StateAt(s, ops, k))
  {
    hide Apply, TimersMatch;
    if k > 0 {
      TimersAlwaysMatch(s, ops, k - 1);
      StepKeepsTimers(StateAt(s, ops, k - 1), ops[k - 1]);
    }
  }

  // --------------------------------------------------------- one step's deadlines

  /** Coil `i`'s running deadlines after a step: set at `e`'s clock readings from the settings then
      in force if the step renews the coil, else the ones that were running. */
  predicate Deadlines(s: State, r: State, i: Channel, e: Env, renewed: bool) {
    && (i in r.pulsing ==>
          if renewed then r.pulseDue[i] == e.t0 + r.cfg.relays[i].pulseMs
          else i in s.pulsing && r.pulseDue[i] == s.pulseDue[i])
    && (i in r.limited ==>
          if renewed then r.limitDue[i] == e.t1 + MaxOnMs(r.cfg, i)
          else i in s.limited && r.limitDue[i] == s.limitDue[i])
  }

  lemma OffDeadlines(s: State, c: Channel, e: Env, i: Channel)
    ensures Deadlines(s, SwitchOff(s, c, e).s, i, e, false)
  {
    var s1 := s.(pending := s.pending - {c});
    CommitFacts(s1, s1.mask - {c}, e.w0);
  }

  lemma DeferDeadlines(s: State, c: Channel, p: Channel, src: Source, e: Env, i: Channel)
    ensures Deadlines(s, Defer(s, c, p, src, e).s, i, e, false)
  {
    CommitFacts(s, s.mask - {p}, e.w0);
  }

  lemma EnergiseDeadlines(s: State, c: Channel, e: Env, i: Channel)
    requires TimersMatch(s) && Works(s, s.mask + {c}, e.w0)
    ensures Deadlines(s, Energise(s, c, e).s, i, e, i == c)
  {
    CommitFacts(s, s.mask + {c}, e.w0);
    WorkingCommit(s, s.mask + {c}, e.w0);
  }

  lemma CommandDeadlines(s: State, channel: int, req: Request, src: Source, e: Env, i: Channel)
    requires Interlocked(s) && TimersMatch(s) && Working(s, DoCommand(channel, req, src, e))
    ensures Deadlines(s, Command(s, channel, req, src, e).s, i, e, CommandsOn(s, DoCommand(channel, req, src, e), i))
  {
    hide SwitchOff, Defer, Energise;
    if 1 <= channel <= CHANNELS {
      var c: Channel := channel - 1;
      if !WantsOn(s, c, req) {
        OffDeadlines(s, c, e, i);
      } else if PartnerIn(s.cfg, c, s.mask) {
        DeferDeadlines(s, c, Partner(s.cfg, c), src, e, i);
      } else if c !in s.pending {
        EnergiseDeadlines(s, c, e, i);
      }
      WaitersHaveNoTimers(s, c);
    }
  }

  /** A relay whose partner is on, or that is waiting, has no timer running. */
  lemma WaitersHaveNoTimers(s: State, i: Channel)
    requires Interlocked(s) && TimersMatch(s)
    ensures PartnerIn(s.cfg, i, s.mask) || i in s.pending ==> i !in s.pulsing && i !in s.limited
  {
    if PartnerIn(s.cfg, i, s.mask) {
      assert Partner(s.cfg, Partner(s.cfg, i)) == i;
    }
  }

  lemma SkLostDeadlines(s: State, e: Env, i: Channel)
    ensures Deadlines(s, SkLost(s, e).s, i, e, false)
  {
    var off := ALL - HoldMask(s.cfg);
    CommitFacts(s, s.mask - off, e.w0);
  }

  predicate ChangesTiming(prev: Config, cfg: Config, i: Channel) {
    IsMomentary(cfg, i) != IsMomentary(prev, i) || MaxOnMs(cfg, i) != MaxOnMs(prev, i)
  }

  lemma SaveDeadlines(s: State, cfg: Config, e: Env, i: Channel)
    requires TimersMatch(s)
    ensures Deadlines(s, UpdateConfig(s, cfg, e).s, i, e, ChangesTiming(s.cfg, cfg, i))
  {
    AdoptFacts(s, cfg, e);
    var s1 := Adopt(s, cfg, e);
    assert Deadlines(s, s1, i, e, ChangesTiming(s.cfg, cfg, i));
    var conflict := Conflicts(cfg, s1.mask);
    CommitFacts(s1, s1.mask - conflict, e.w0);
    assert Deadlines(s1, ClearConflict(s1, conflict, e), i, e, false);
    ClearConflictFacts(s1, conflict, e);
  }

  // ---------------------------------------------------------------- a working bus

  lemma EndedDeadlines(s: State, e: Env, i: Channel)
    requires TimersMatch(s) && WorkingTick(s, e)
    ensures var r := TickMaxOn(s, e);
            && r.cfg == s.cfg && TimersMatch(r) && r.mask <= s.mask
            && Deadlines(s, r, i, e, false)
            && (i in r.pulsing ==> !Passed(e.t0, s.pulseDue[i]))
            && (i in r.limited ==> !Passed(e.t0, s.limitDue[i]))
  {
    var s1 := TickPulses(s, e);
    CommitFacts(s, s.mask - EndedPulses(s, e.t0), e.w0);
    CommitFacts(s1, s1.mask - ExpiredLimits(s1, e.t0), e.w1);
    WorkingCommit(s, s.mask - EndedPulses(s, e.t0), e.w0);
    WorkingCommit(s1, s1.mask - ExpiredLimits(s1, e.t0), e.w1);
    EndPulsesKeeps(s, e);
    EndMaxOnKeeps(s1, e);
  }

  lemma StartFiredDeadlines(s: State, before: Mask, fires: Mask, e: Env, i: Channel)
    requires s.mask == before + fires && fires !! before && s.pulsing <= before
    ensures Deadlines(s, StartFired(s, before, fires, e), i, e, i in fires)
  {
  }

  lemma FireDeadlines(s: State, e: Env, i: Channel)
    requires TimersMatch(s) && s.mask !! s.pending
    ensures var f := FirePending(s, e);
            && f.s.cfg == s.cfg && f.fired <= f.s.mask && f.fired <= s.pending
            && Deadlines(s, f.s, i, e, i in f.fired)
  {
    hide StartFired, Fires, DuePending, Commit;
    var fires, due := Fires(s, e.t0), DuePending(s, e.t0);
    var s1 := s.(pending := s.pending - (due - fires));
    CommitFacts(s1, s1.mask + fires, e.w2);
    FiresWait(s, e.t0);
    var c := Commit(s1, s1.mask + fires, e.w2);
    if fires != {} && c.ok {
      StartFiredDeadlines(c.s, s.mask, fires, e, i);
      StartFiredShape(c.s, s.mask, fires, e);
    }
  }

  lemma FiresWait(s: State, t: int)
    ensures Fires(s, t) <= s.pending
  {
  }

  lemma StartFiredShape(s: State, before: Mask, fires: Mask, e: Env)
    ensures var r := StartFired(s, before, fires, e); r.cfg == s.cfg && r.mask == s.mask
  {
  }

  /** A tick on a working bus leaves no pulse or limit running whose deadline has passed, apart
      from the ones it starts itself for relays that fire. */
  lemma TickDeadlines(s: State, e: Env, i: Channel)
    requires TimersMatch(s) && s.mask !! s.pending && WorkingTick(s, e)
    ensures var r := Tick(s, e).s; var renewed := i !in s.mask && i in r.mask;
            && r.cfg == s.cfg && Deadlines(s, r, i, e, renewed)
            && (i in r.pulsing && !renewed ==> !Passed(e.t0, s.pulseDue[i]))
            && (i in r.limited && !renewed ==> !Passed(e.t0, s.limitDue[i]))
  {
    var s2, f := TickMaxOn(s, e), TickFire(s, e);
    EndedDeadlines(s, e, i);
    EndingCause(s, e);
    FireDeadlines(s2, e, i);
    var r := Tick(s, e).s;
    assert r.pulsing == f.s.pulsing && r.pulseDue == f.s.pulseDue && r.limited == f.s.limited
           && r.limitDue == f.s.limitDue && r.mask == f.s.mask && r.cfg == f.s.cfg;
    if i in f.fired {
      assert i !in s.mask;
    }
  }

  // ------------------------------------------------------------------ timed runs

  /** True time once the first `k` operations are done. */
  function Clock(start: int, ops: seq<Op>, k: nat): int
    requires k <= |ops|
  {
    if k == 0 then start else ops[k - 1].e.t2
  }

  function LastTick(start: int, ops: seq<Op>, k: nat): int
    requires k <= |ops|
  {
    if k == 0 then start
    else if ops[k - 1].DoTick? then ops[k - 1].e.t0
    else LastTick(start, ops, k - 1)
  }

  /** When coil `i` was last renewed within the first `k` operations. */
  function LastOn(s: State, start: int, ops: seq<Op>, i: Channel, k: nat): int
    requires k <= |ops|
  {
    if k == 0 then start
    else if Renews(StateAt(s, ops, k - 1), ops[k - 1], i) then ops[k - 1].e.t2
    else LastOn(s, start, ops, i, k - 1)
  }

  /** The settings in force once coil `i` was last renewed. */
  function ConfigAtLastOn(s: State, ops: seq<Op>, i: Channel, k: nat): Config
    requires k <= |ops|
  {
    if k == 0 then s.cfg
    else if Renews(StateAt(s, ops, k - 1), ops[k - 1], i) then StateAt(s, ops, k).cfg
    else ConfigAtLastOn(s, ops, i, k - 1)
  }

  /** A fresh "on" of coil `i`: a command, its coming on, or a save that changes its timing. */
  predicate Renews(s: State, op: Op, i: Channel) {
    || CommandsOn(s, op, i)
    || (i !in s.mask && i in Apply(s, op).s.mask)
    || (op.DoSave? && ChangesTiming(s.cfg, op.cfg, i))
  }

  /** Coil `i`'s pulse and maximum on-time are within the range of the signed deadline test. */
  predicate InRange(c: Config, i: Channel) {
    c.relays[i].pulseMs < HALF && MaxOnMs(c, i) < HALF
  }

  /** Operation `k` follows the ones before in time and ends at most `d` after the tick before; the
      bus works; and a save offers loaded settings that pair up no two waiting relays. */
  predicate StepAllowed(s: State, start: int, ops: seq<Op>, i: Channel, k: nat, d: int)
    requires k < |ops|
  {
    var op := ops[k];
    && Clock(start, ops, k) <= op.e.t0 <= op.e.t1 <= op.e.t2 <= LastTick(start, ops, k) + d
    && Working(StateAt(s, ops, k), op)
    && (op.DoSave? ==>
          ValidPairs(op.cfg) && ConflictFree(op.cfg, StateAt(s, ops, k).pending) && InRange(op.cfg, i))
  }

  /** A run on a working bus, with ticks at most `d` apart. */
  predicate WorkingRun(s: State, start: int, ops: seq<Op>, i: Channel, d: int) {
    && InRange(s.cfg, i) && 0 <= d < HALF
    && forall k :: 0 <= k < |ops| ==> StepAllowed(s, start, ops, i, k, d)
  }

  /** On a working bus a save's clearing write gets through. */
  lemma WorkingSave(s: State, cfg: Config, e: Env)
    requires Working(s, DoSave(cfg, e)) && ConflictFree(cfg, s.pending)
    ensures SaveAllowed(s, cfg, e)
  {
  }

  /** Deadlines of coil `i` that lie between the last tick and its last "on" plus its length then. */
  predicate InTime(s: State, i: Channel, tick: int, on: int, c: Config) {
    && (i in s.pulsing ==> tick <= s.pulseDue[i] <= on + c.relays[i].pulseMs)
    && (i in s.limited ==> tick <= s.limitDue[i] <= on + MaxOnMs(c, i))
  }

  lemma StepDeadlines(s: State, op: Op, i: Channel)
    requires Interlocked(s) && TimersMatch(s) && Working(s, op)
    ensures var r := Apply(s, op).s;
            && Deadlines(s, r, i, op.e, Renews(s, op, i))
            && (op.DoTick? && !Renews(s, op, i) ==>
                  && (i in r.pulsing ==> !Passed(op.e.t0, s.pulseDue[i]))
                  && (i in r.limited ==> !Passed(op.e.t0, s.limitDue[i])))
  {
    hide Command, SkLost, Tick, UpdateConfig, Deadlines, Passed, Interlocked;
    match op
    case DoCommand(channel, req, src, e) =>
      CommandDeadlines(s, channel, req, src, e, i);
      CommandCause(s, channel, req, src, e, i);
    case DoSkLost(e) =>
      SkLostDeadlines(s, e, i);
      SkLostCause(s, e, i);
    case DoTick(e) =>
      NotBoth(s);
      TickDeadlines(s, e, i);
    case DoSave(cfg, e) =>
      SaveDeadlines(s, cfg, e, i);
      SaveCause(s, cfg, e);
  }

  lemma NotBoth(s: State)
    requires Interlocked(s)
    ensures s.mask !! s.pending
  {
  }

  /** Arithmetic of one step: `t0` is a tick that found the deadline not passed on the wrapped
      clock. */
  lemma NotPassed(t0: int, due: int, tick: int, on: int, length: int, d: int)
    requires tick <= due <= on + length && on <= t0 <= tick + d
    requires 0 <= length < HALF && 0 <= d < HALF
    ensures !Passed(t0, due) ==> t0 < due
  {
    DeadlineAgrees(t0, due);
  }

  lemma StepInTime(s: State, op: Op, i: Channel, now: int, tick: int, on: int, d: int, c: Config)
    requires Interlocked(s) && TimersMatch(s) && Working(s, op)
    requires InRange(c, i) && 0 <= d < HALF
    requires InTime(s, i, tick, on, c) && tick <= now && on <= now
    requires now <= op.e.t0 <= op.e.t1 <= op.e.t2 <= tick + d
    ensures var r := Apply(s, op).s;
            InTime(r, i, if op.DoTick? then op.e.t0 else tick,
                   if Renews(s, op, i) then op.e.t2 else on, if Renews(s, op, i) then r.cfg else c)
  {
    hide Apply, Renews, Interlocked, Passed;
    StepDeadlines(s, op, i);
    if i in s.pulsing {
      NotPassed(op.e.t0, s.pulseDue[i], tick, on, c.relays[i].pulseMs, d);
    }
    if i in s.limited {
      NotPassed(op.e.t0, s.limitDue[i], tick, on, MaxOnMs(c, i), d);
    }
  }

  lemma {:induction false} RunInTime(s: State, start: int, ops: seq<Op>, i: Channel, k: nat, d: int)
    requires Interlocked(s) && TimersMatch(s) && WorkingRun(s, start, ops, i, d) && k <= |ops|
    requires InTime(s, i, start, start, s.cfg)
    ensures Interlocked(StateAt(s, ops, k)) && TimersMatch(StateAt(s, ops, k))
    ensures InTime(StateAt(s, ops, k), i, LastTick(start, ops, k), LastOn(s, start, ops, i, k),
                   ConfigAtLastOn(s, ops, i, k))
    ensures LastOn(s, start, ops, i, k) <= Clock(start, ops, k) && LastTick(start, ops, k) <= Clock(start, ops, k)
    ensures InRange(StateAt(s, ops, k).cfg, i) && InRange(ConfigAtLastOn(s, ops, i, k), i)
    ensures Physical(s) ==> Physical(StateAt(s, ops, k))
  {
    hide Apply, Interlocked, TimersMatch, SaveAllowed, InRange, InTime, Renews, Physical;
    if k > 0 {
      RunInTime(s, start, ops, i, k - 1, d);
      assert StepAllowed(s, start, ops, i, k - 1, d);
      var s0, op := StateAt(s, ops, k - 1), ops[k - 1];
      if op.DoSave? {
        WorkingSave(s0, op.cfg, op.e);
      }
      StepKeeps(s0, op);
      StepInTime(s0, op, i, Clock(start, ops, k - 1), LastTick(start, ops, k - 1), LastOn(s, start, ops, i, k - 1),
                 d, ConfigAtLastOn(s, ops, i, k - 1));
      if Physical(s) {
        StepPhysical(s0, op);
      }
    }
  }

  lemma BootInTime(blank: State, cfg: Config, b: BootEnv, i: Channel)
    requires Blank(blank) && ValidPairs(cfg)
    requires Boot(blank, cfg, b).ok && b.readDirection == Honest && b.write == GOOD && b.direction == GOOD
    ensures var s := Boot(blank, cfg, b).s;
            Interlocked(s) && TimersMatch(s) && InTime(s, i, b.t1, b.t1, cfg) && Physical(s) && s.cfg == cfg
  {
    BootEstablishes(blank, cfg, b);
  }

  /** Bounded on-time. From a successful start-up, on a working bus with ticks at most `d` apart:
      the coils are as the mask says; and at no time before the next tick is due has momentary coil
      `i` been on for more than its pulse plus `d` since its last "on", or limited coil `i` for more
      than its maximum on-time plus `d`, in the settings in force at that "on". */
  lemma OnTimeBounded(blank: State, cfg: Config, b: BootEnv, ops: seq<Op>, i: Channel, k: nat, now: int, d: int)
    requires Blank(blank) && ValidPairs(cfg)
    requires Boot(blank, cfg, b).ok && b.readDirection == Honest && b.write == GOOD && b.direction == GOOD
    requires WorkingRun(Boot(blank, cfg, b).s, b.t1, ops, i, d) && k <= |ops|
    requires now <= LastTick(b.t1, ops, k) + d
    ensures var s0 := Boot(blank, cfg, b).s;
            var s, on, c := StateAt(s0, ops, k), LastOn(s0, b.t1, ops, i, k), ConfigAtLastOn(s0, ops, i, k);
            && Driven(s.chip) == s.mask
            && (i in Driven(s.chip) && IsMomentary(s.cfg, i) ==> now <= on + c.relays[i].pulseMs + d)
            && (i in Driven(s.chip) && MaxOnMs(s.cfg, i) != 0 ==> now <= on + MaxOnMs(c, i) + d)
  {
    hide Boot, StateAt, LastTick, LastOn, ConfigAtLastOn, Interlocked, WorkingRun;
    BootInTime(blank, cfg, b, i);
    RunInTime(Boot(blank, cfg, b).s, b.t1, ops, i, k, d);
  }

  lemma {:induction false} FixedConfig(s: State, ops: seq<Op>, i: Channel, k: nat)
    requires k <= |ops| && forall j :: 0 <= j < |ops| ==> !ops[j].DoSave?
    ensures StateAt(s, ops, k).cfg == s.cfg && ConfigAtLastOn(s, ops, i, k) == s.cfg
  {
    hide Apply, Renews;
    if k > 0 {
      FixedConfig(s, ops, i, k - 1);
      StepConfig(StateAt(s, ops, k - 1), ops[k - 1]);
    }
  }

  /** With settings left alone: no momentary coil is driven for more than its pulse plus `d` since
      its last "on", no limited coil for more than its maximum on-time plus `d`. */
  lemma OnTimeBoundedFixedSettings(blank: State, cfg: Config, b: BootEnv, ops: seq<Op>, i: Channel, k: nat, now: int,
                                   d: int)
    requires Blank(blank) && ValidPairs(cfg)
    requires Boot(blank, cfg, b).ok && b.readDirection == Honest && b.write == GOOD && b.direction == GOOD
    requires WorkingRun(Boot(blank, cfg, b).s, b.t1, ops, i, d) && k <= |ops|
    requires now <= LastTick(b.t1, ops, k) + d
    requires forall j :: 0 <= j < |ops| ==> !ops[j].DoSave?
    ensures var s0 := Boot(blank, cfg, b).s;
            var driven, on := Driven(StateAt(s0, ops, k).chip), LastOn(s0, b.t1, ops, i, k);
            && (i in driven && cfg.relays[i].mode == Momentary ==> now <= on + cfg.relays[i].pulseMs + d)
            && (i in driven && cfg.relays[i].mode == Latching && 0 < cfg.relays[i].maxOnS * 1000 < WORD ==>
                  now <= on + cfg.relays[i].maxOnS * 1000 + d)
  {
    hide Boot, StateAt, LastTick, LastOn, ConfigAtLastOn, WorkingRun, Driven;
    BootInTime(blank, cfg, b, i);
    FixedConfig(Boot(blank, cfg, b).s, ops, i, k);
    OnTimeBounded(blank, cfg, b, ops, i, k, now, d);
  }
}
