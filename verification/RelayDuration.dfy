/** How long a coil stays on, and how long a relay waits, at the least. Apart from its own off, an
    "on" for a relay it stands in the way of, fail-safe and a save that finds it in conflict, only a
    deadline that has passed takes a coil off; and a deadline is never less than the coil's full length
    after its last start. */
module RelayDuration {
  import opened Board
  import opened Clock32
  import opened RelayConfig
  import opened Timers
  import opened RelaySpec
  import opened RelayInvariant
  import opened RelayRuns
  import opened RelayCause
  import opened RelayService
  import opened RelayPins
  import opened RelayTiming

  predicate PulseOver(s: State, t: int, i: Channel) {
    i in s.pulsing && Passed(t, s.pulseDue[i])
  }

  predicate LimitOver(s: State, t: int, i: Channel) {
    i in s.limited && Passed(t, s.limitDue[i])
  }

  // ------------------------------------------------------- what takes a coil off

  lemma EndingTurnsOff(s: State, e: Env, i: Channel)
    ensures i in s.mask && i !in TickMaxOn(s, e).mask ==> PulseOver(s, e.t0, i) || LimitOver(s, e.t0, i)
  {
    var s1 := TickPulses(s, e);
    CommitFacts(s, s.mask - EndedPulses(s, e.t0), e.w0);
    CommitFacts(s1, s1.mask - ExpiredLimits(s1, e.t0), e.w1);
  }

  lemma FiringTurnsNothingOff(s: State, e: Env)
    ensures s.mask <= FirePending(s, e).s.mask
  {
    CommitFacts(s.(pending := s.pending - (DuePending(s, e.t0) - Fires(s, e.t0))), s.mask + Fires(s, e.t0), e.w2);
  }

  /** In any state and on any bus, a tick takes a coil off only if its pulse or its maximum on-time is
      over. */
  lemma TickTurnsOff(s: State, e: Env, i: Channel)
    requires i in s.mask && i !in Tick(s, e).s.mask
    ensures PulseOver(s, e.t0, i) || LimitOver(s, e.t0, i)
  {
    hide FirePending, EndMaxOn, EndPulses;
    EndingTurnsOff(s, e, i);
    FiringTurnsNothingOff(TickMaxOn(s, e), e);
  }

  /** The operation asks for coil `i` off: its own off, an "on" for a relay whose partner it is,
      fail-safe if it is default-safe, a save whose settings pair it with a relay that is on. */
  predicate TakesOff(s: State, op: Op, i: Channel) {
    match op
    case DoCommand(channel, req, _, _) =>
      1 <= channel <= CHANNELS
      && if CoilAsked(s, channel - 1, req) then Partner(s.cfg, channel - 1) == i else channel == i + 1
    case DoSkLost(_) => !IsHold(s.cfg, i)
    case DoTick(_) => false
    case DoSave(cfg, _) => PartnerIn(cfg, i, s.mask)
  }

  /** Nothing else does, in any state and on any bus. */
  lemma StepTurnsOff(s: State, op: Op, i: Channel)
    requires i in s.mask && i !in Apply(s, op).s.mask
    ensures TakesOff(s, op, i) || (op.DoTick? && (PulseOver(s, op.e.t0, i) || LimitOver(s, op.e.t0, i)))
  {
    match op
    case DoCommand(channel, req, src, e) => CommandTurnsOff(s, channel, req, src, e, i);
    case DoSkLost(e) =>
      CommitFacts(s, FailSafeTarget(s), e.w0);
    case DoTick(e) => TickTurnsOff(s, e, i);
    case DoSave(cfg, e) => SaveTouchesOnlyConflicts(s, cfg, e);
  }

  lemma CommandTurnsOff(s: State, channel: int, req: Request, src: Source, e: Env, i: Channel)
    requires i in s.mask && i !in Command(s, channel, req, src, e).s.mask
    ensures TakesOff(s, DoCommand(channel, req, src, e), i)
  {
    hide Command, Commit, WantsOn, CoilAsked;
    if 1 <= channel <= CHANNELS {
      CommandCommits(s, channel, req, src, e);
      CommitFacts(s, CommandTarget(s, channel - 1, WantsOn(s, channel - 1, req)), e.w0);
      WantsAsAsked(s, channel - 1, req);
    } else {
      NoChannel(s, channel, req, src, e);
    }
  }

  // ------------------------------------------------------ how deadlines move

  /** Coil `i`'s deadlines after a step: as they were, or its full length from now. */
  predicate FullOrKept(s: State, r: State, i: Channel, e: Env) {
    && (i in r.pulsing ==>
          (i in s.pulsing && r.pulseDue[i] == s.pulseDue[i]) || r.pulseDue[i] == e.t0 + r.cfg.relays[i].pulseMs)
    && (i in r.limited ==>
          (i in s.limited && r.limitDue[i] == s.limitDue[i]) || r.limitDue[i] == e.t1 + MaxOnMs(r.cfg, i))
  }

  lemma EnergiseFullOrKept(s: State, c: Channel, e: Env, i: Channel)
    ensures FullOrKept(s, Energise(s, c, e).s, i, e)
  {
    CommitFacts(s, s.mask + {c}, e.w0);
  }

  lemma CommandFullOrKept(s: State, channel: int, req: Request, src: Source, e: Env, i: Channel)
    ensures FullOrKept(s, Command(s, channel, req, src, e).s, i, e)
  {
    hide SwitchOff, Defer, Energise;
    if 1 <= channel <= CHANNELS {
      var c: Channel := channel - 1;
      if !WantsOn(s, c, req) {
        OffDeadlines(s, c, e, i);
      } else if PartnerIn(s.cfg, c, s.mask) {
        DeferDeadlines(s, c, Partner(s.cfg, c), src, e, i);
      } else if c !in s.pending {
        EnergiseFullOrKept(s, c, e, i);
      }
    }
  }

  lemma EndingKeepsDeadlines(s: State, e: Env, i: Channel)
    ensures var r := TickMaxOn(s, e); r.cfg == s.cfg && FullOrKept(s, r, i, e)
  {
    var s1 := TickPulses(s, e);
    CommitFacts(s, s.mask - EndedPulses(s, e.t0), e.w0);
    CommitFacts(s1, s1.mask - ExpiredLimits(s1, e.t0), e.w1);
  }

  lemma FiringFullOrKept(s: State, e: Env, i: Channel)
    ensures var r := FirePending(s, e).s; r.cfg == s.cfg && FullOrKept(s, r, i, e)
  {
    hide Commit;
    var fires := Fires(s, e.t0);
    var s1 := s.(pending := s.pending - (DuePending(s, e.t0) - fires));
    CommitFacts(s1, s1.mask + fires, e.w2);
  }

  lemma TickFullOrKept(s: State, e: Env, i: Channel)
    ensures FullOrKept(s, Tick(s, e).s, i, e)
  {
    hide EndPulses, EndMaxOn, FirePending;
    EndingKeepsDeadlines(s, e, i);
    FiringFullOrKept(TickMaxOn(s, e), e, i);
  }

  lemma StepFullOrKept(s: State, op: Op, i: Channel)
    requires TimersMatch(s)
    ensures FullOrKept(s, Apply(s, op).s, i, op.e)
  {
    hide Command, SkLost, Tick, UpdateConfig;
    match op
    case DoCommand(channel, req, src, e) => CommandFullOrKept(s, channel, req, src, e, i);
    case DoSkLost(e) => SkLostDeadlines(s, e, i);
    case DoTick(e) => TickFullOrKept(s, e, i);
    case DoSave(cfg, e) => SaveDeadlines(s, cfg, e, i);
  }

  // ------------------------------------------------------------------ whole runs

  /** Coil `i` is on, and its running deadlines are `until` or later, within the range of the signed
      deadline test. */
  predicate OnUntil(s: State, i: Channel, until: int, now: int) {
    && i in s.mask
    && (i in s.pulsing ==> until <= s.pulseDue[i] < now + HALF)
    && (i in s.limited ==> until <= s.limitDue[i] < now + HALF)
  }

  /** Settings that leave coil `i` on for at least `length` once it is on. */
  predicate AtLeast(c: Config, i: Channel, length: int) {
    && (c.relays[i].mode == Momentary ==> length <= c.relays[i].pulseMs < HALF)
    && (c.relays[i].mode == Latching && c.relays[i].maxOnS != 0 ==> length <= c.relays[i].maxOnS * 1000 < HALF)
  }

  /** Operation `k` follows the ones before in time, takes coil `i` off in no other way than by a
      deadline, and leaves settings in force that keep it on for `length`. */
  predicate Leaves(s: State, ops: seq<Op>, i: Channel, j: nat, k: nat, length: int)
    requires j < k < |ops|
  {
    && ops[k - 1].e.t2 <= ops[k].e.t0 <= ops[k].e.t1 <= ops[k].e.t2
    && !TakesOff(StateAt(s, ops, k), ops[k], i)
    && AtLeast(StateAt(s, ops, k + 1).cfg, i, length)
  }

  /** Coil `i` starts afresh: it comes on, or it is on and a command that asks for it on succeeds. */
  predicate Starts(s: State, op: Op, i: Channel) {
    && i in Apply(s, op).s.mask
    && (i !in s.mask
        || (op.DoCommand? && op.channel == i + 1 && CoilAsked(s, i, op.req) && Apply(s, op).err == Ok
            && !PartnerIn(s.cfg, i, s.mask) && i !in s.pending))
  }

  lemma StartIsFull(s: State, op: Op, i: Channel)
    requires TimersMatch(s) && Starts(s, op, i)
    ensures var r := Apply(s, op).s;
            && (i in r.pulsing ==> r.pulseDue[i] == op.e.t0 + r.cfg.relays[i].pulseMs)
            && (i in r.limited ==> r.limitDue[i] == op.e.t1 + MaxOnMs(r.cfg, i))
  {
    if i !in s.mask {
      StepFullOrKept(s, op, i);
    } else {
      RestartIsFull(s, op.channel, op.req, op.src, op.e);
    }
  }

  lemma RestartIsFull(s: State, channel: int, req: Request, src: Source, e: Env)
    requires 1 <= channel <= CHANNELS && channel - 1 !in s.pending && !PartnerIn(s.cfg, channel - 1, s.mask)
    requires CoilAsked(s, channel - 1, req) && Command(s, channel, req, src, e).err == Ok
    requires TimersMatch(s)
    ensures var i := channel - 1; var r := Command(s, channel, req, src, e).s;
            && (i in r.pulsing ==> r.pulseDue[i] == e.t0 + r.cfg.relays[i].pulseMs)
            && (i in r.limited ==> r.limitDue[i] == e.t1 + MaxOnMs(r.cfg, i))
  {
    hide CoilAsked, Commit;
    WantsAsAsked(s, channel - 1, req);
    CommitFacts(s, s.mask + {channel - 1}, e.w0);
  }

  lemma NotPassedYet(t: int, due: int)
    requires t < due <= t + HALF
    ensures !Passed(t, due)
  {
    DeadlineAgrees(t, due);
  }

  lemma StepStaysOn(s: State, op: Op, i: Channel, from: int, length: int, now: int)
    requires TimersMatch(s) && OnUntil(s, i, from + length, now) && !TakesOff(s, op, i)
    requires from <= op.e.t0 < from + length && now <= op.e.t0 <= op.e.t1 <= op.e.t2
    requires AtLeast(Apply(s, op).s.cfg, i, length)
    ensures OnUntil(Apply(s, op).s, i, from + length, op.e.t2)
  {
    hide Apply, TimersMatch, TakesOff, Passed;
    var r := Apply(s, op).s;
    StepKeepsTimers(s, op);
    StepFullOrKept(s, op, i);
    DeadlinesRun(r, i);
    if i in s.pulsing {
      NotPassedYet(op.e.t0, s.pulseDue[i]);
    }
    if i in s.limited {
      NotPassedYet(op.e.t0, s.limitDue[i]);
    }
    if i !in r.mask {
      StepTurnsOff(s, op, i);
    }
  }

  lemma DeadlinesRun(s: State, i: Channel)
    requires TimersMatch(s)
    ensures i in s.pulsing ==> IsMomentary(s.cfg, i)
    ensures i in s.limited ==> MaxOnMs(s.cfg, i) != 0
  {
  }

  lemma StartsUntil(s: State, op: Op, i: Channel, length: int)
    requires TimersMatch(s) && Starts(s, op, i) && op.e.t0 <= op.e.t1 <= op.e.t2
    requires AtLeast(Apply(s, op).s.cfg, i, length)
    ensures OnUntil(Apply(s, op).s, i, op.e.t0 + length, op.e.t2)
  {
    hide Apply, TimersMatch;
    StepKeepsTimers(s, op);
    StartIsFull(s, op, i);
    DeadlinesRun(Apply(s, op).s, i);
  }

  lemma {:induction false} RunStaysOn(s: State, ops: seq<Op>, i: Channel, j: nat, k: nat, length: int)
    requires TimersMatch(s) && j <= k < |ops| && ops[j].e.t0 <= ops[j].e.t1 <= ops[j].e.t2
    requires Starts(StateAt(s, ops, j), ops[j], i) && AtLeast(StateAt(s, ops, j + 1).cfg, i, length)
    requires forall m :: j < m <= k ==> Leaves(s, ops, i, j, m, length)
    requires ops[k].e.t0 < ops[j].e.t0 + length
    ensures OnUntil(StateAt(s, ops, k + 1), i, ops[j].e.t0 + length, ops[k].e.t2) && ops[j].e.t0 <= ops[k].e.t0
  {
    hide Apply, TimersMatch, OnUntil, Starts, AtLeast, TakesOff;
    TimersAlwaysMatch(s, ops, k);
    StateAfter(s, ops, k);
    if k == j {
      StartsUntil(StateAt(s, ops, j), ops[j], i, length);
    } else {
      assert Leaves(s, ops, i, j, k, length);
      assert k - 1 > j ==> Leaves(s, ops, i, j, k - 1, length);
      RunStaysOn(s, ops, i, j, k - 1, length);
      StepStaysOn(StateAt(s, ops, k), ops[k], i, ops[j].e.t0, length, ops[k - 1].e.t2);
    }
  }

  /** A coil stays on for its time: in any run from start-up, on any bus, a coil that starts afresh is
      still on after every operation, ticks among them, that begins before its start plus `length`, as
      long as the settings give its pulse or maximum on-time at least `length` and none of the operations
      takes it off. */
  lemma StaysOnItsTime(blank: State, cfg: Config, b: BootEnv, ops: seq<Op>, i: Channel, j: nat, k: nat, length: int)
    requires Blank(blank) && ValidPairs(cfg) && j <= k < |ops| && ops[j].e.t0 <= ops[j].e.t1 <= ops[j].e.t2
    requires var s := Boot(blank, cfg, b).s;
             && Starts(StateAt(s, ops, j), ops[j], i) && AtLeast(StateAt(s, ops, j + 1).cfg, i, length)
             && forall m :: j < m <= k ==> Leaves(s, ops, i, j, m, length)
    requires ops[k].e.t0 < ops[j].e.t0 + length
    ensures i in StateAt(Boot(blank, cfg, b).s, ops, k + 1).mask
  {
    hide Boot, Starts, Leaves, AtLeast, StateAt;
    BootEstablishes(blank, cfg, b);
    RunStaysOn(Boot(blank, cfg, b).s, ops, i, j, k, length);
  }

  // ------------------------------------------------------- exactly when a tick does

  lemma EndsWhenOver(s: State, e: Env, i: Channel)
    requires TimersMatch(s) && WorkingTick(s, e) && i in s.mask
    ensures i !in TickMaxOn(s, e).mask <==> PulseOver(s, e.t0, i) || LimitOver(s, e.t0, i)
  {
    hide Passed, EndMaxOn;
    EndedDeadlines(s, e, i);
    EndingTurnsOff(s, e, i);
  }

  /** On a working bus a tick takes a coil that is on, and not waiting, off exactly when its pulse or its
      maximum on-time is over. */
  lemma TickOffIff(s: State, e: Env, i: Channel)
    requires TimersMatch(s) && WorkingTick(s, e) && i in s.mask && i !in s.pending
    ensures i !in Tick(s, e).s.mask <==> PulseOver(s, e.t0, i) || LimitOver(s, e.t0, i)
  {
    hide TimersMatch, WorkingTick, Passed, FirePending, EndPulses, EndMaxOn;
    EndsWhenOver(s, e, i);
    EndingCause(s, e);
    FiringTurnsNothingOff(TickMaxOn(s, e), e);
    FireCause(TickMaxOn(s, e), e, i);
    NotDue(TickMaxOn(s, e), e.t0, i);
  }

  lemma NotDue(s: State, t: int, i: Channel)
    requires i !in s.pending
    ensures i !in DuePending(s, t)
  {
  }

  // -------------------------------------------------------- what ends a wait

  /** A due relay's wait ends at a tick when its partner is on, or when it fires with a confirmed write;
      a write that fails leaves it waiting for the next tick. */
  lemma TickWaitIff(s: State, e: Env, i: Channel)
    requires i in s.pending
    ensures var s2, r := TickMaxOn(s, e), Tick(s, e).s;
            && r.pendingDue == s.pendingDue
            && (i !in r.pending <==>
                  Passed(e.t0, s.pendingDue[i])
                  && (PartnerIn(s.cfg, i, s2.mask) || Takes(s2, s2.mask + Fires(s2, e.t0), e.w2)))
            && (i !in r.pending ==> PartnerIn(s.cfg, i, s2.mask) || i in r.mask)
  {
    hide EndPulses, EndMaxOn, FirePending, Passed;
    EndingCause(s, e);
    FireWaitIff(TickMaxOn(s, e), e, i);
  }

  lemma FireWaitIff(s: State, e: Env, i: Channel)
    requires i in s.pending
    ensures var r := FirePending(s, e).s;
            && r.pendingDue == s.pendingDue
            && (i !in r.pending <==>
                  Passed(e.t0, s.pendingDue[i])
                  && (PartnerIn(s.cfg, i, s.mask) || Takes(s, s.mask + Fires(s, e.t0), e.w2)))
            && (i !in r.pending ==> PartnerIn(s.cfg, i, s.mask) || i in r.mask)
  {
    hide TrackedLimits, TrackedDue;
    var fires := Fires(s, e.t0);
    var s1 := s.(pending := s.pending - (DuePending(s, e.t0) - fires));
    CommitFacts(s1, s1.mask + fires, e.w2);
  }

  /** The operation calls off relay `i`'s wait: its own off, an "on" for a relay whose partner it is,
      fail-safe if it is default-safe, a save that finds it on together with its partner. */
  predicate CallsOff(s: State, op: Op, i: Channel) {
    if op.DoSave? then i in Conflicts(op.cfg, s.mask) else TakesOff(s, op, i)
  }

  /** In any state and on any bus, a wait ends only when it is called off or at a tick that finds it due. */
  lemma WaitEndsOnlyBy(s: State, op: Op, i: Channel)
    requires i in s.pending && i !in Apply(s, op).s.pending
    ensures CallsOff(s, op, i) || (op.DoTick? && Passed(op.e.t0, s.pendingDue[i]))
  {
    match op
    case DoCommand(channel, req, src, e) => CommandEndsWait(s, channel, req, src, e, i);
    case DoSkLost(e) =>
      CommitFacts(s, FailSafeTarget(s), e.w0);
    case DoTick(e) => TickWaitIff(s, e, i);
    case DoSave(cfg, e) =>
      AdoptFacts(s, cfg, e);
      ClearConflictFacts(Adopt(s, cfg, e), Conflicts(cfg, s.mask), e);
  }

  lemma CommandEndsWait(s: State, channel: int, req: Request, src: Source, e: Env, i: Channel)
    requires i in s.pending && i !in Command(s, channel, req, src, e).s.pending
    ensures CallsOff(s, DoCommand(channel, req, src, e), i)
  {
    hide SwitchOff, Defer, Energise, CoilAsked;
    if 1 <= channel <= CHANNELS {
      var c: Channel := channel - 1;
      WantsAsAsked(s, c, req);
      if !WantsOn(s, c, req) {
        OffCause(s, c, e);
      } else if PartnerIn(s.cfg, c, s.mask) {
        DeferEndsWait(s, c, Partner(s.cfg, c), src, e);
      } else if c !in s.pending {
        EnergiseEndsWait(s, c, e);
      }
    }
  }

  lemma DeferEndsWait(s: State, c: Channel, p: Channel, src: Source, e: Env)
    ensures s.pending - {p} <= Defer(s, c, p, src, e).s.pending
  {
    CommitFacts(s, s.mask - {p}, e.w0);
  }

  lemma EnergiseEndsWait(s: State, c: Channel, e: Env)
    ensures forall j :: j in s.pending && j != Partner(s.cfg, c) ==> j in Energise(s, c, e).s.pending
  {
    CommitFacts(s, s.mask + {c}, e.w0);
  }
}
