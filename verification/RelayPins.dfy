/** What the expander drives. Relay control knows the mask of the last confirmed write; a write that
    landed but was reported as failed makes the coils differ from it, and a later commit of the
    mask as it already is writes nothing. */
module RelayPins {
  import opened Board
  import opened RelayConfig
  import opened Expander
  import opened Timers
  import opened RelaySpec
  import opened RelayInvariant
  import opened RelayRuns
  import opened RelayCause

  // ------------------------------------------------------------ one commit

  /** Two attempts that get `target` through: there is nothing to write, the first is good, or the
      second is and the first did not confirm a write that never landed. */
  predicate Works(s: State, target: Mask, w: Attempts) {
    target == s.mask || w.first == GOOD || (w.second == GOOD && !FalselyConfirmed(s.chip, target, w.first))
  }

  lemma WorkingCommit(s: State, target: Mask, w: Attempts)
    requires Works(s, target, w)
    ensures var c := Commit(s, target, w);
            && c.ok && c.s.mask == target && c.s.chip.inputs == s.chip.inputs
            && c.s.chip.output == (if target == s.mask then s.chip.output else target)
  {
  }

  /** Whatever the bus does, a commit leaves the register as it was or at the target. */
  lemma CommitPins(s: State, target: Mask, w: Attempts)
    ensures var c := Commit(s, target, w);
            && c.s.chip.inputs == s.chip.inputs
            && c.s.chip.output in {s.chip.output, target}
            && (c.s.chip.output != s.chip.output ==> target != s.mask)
  {
  }

  /** The mask that a command for `i` commits: its own coil switched, or the partner's that is in
      the way. */
  function CommandTarget(s: State, i: Channel, on: bool): Mask {
    if !on then s.mask - {i}
    else if PartnerIn(s.cfg, i, s.mask) then s.mask - {Partner(s.cfg, i)}
    else if i in s.pending then s.mask
    else s.mask + {i}
  }

  function FailSafeTarget(s: State): Mask {
    s.mask - (ALL - HoldMask(s.cfg))
  }

  /** The three commits of a tick get through. */
  predicate WorkingTick(s: State, e: Env) {
    var s1, s2 := TickPulses(s, e), TickMaxOn(s, e);
    && Works(s, s.mask - EndedPulses(s, e.t0), e.w0)
    && Works(s1, s1.mask - ExpiredLimits(s1, e.t0), e.w1)
    && Works(s2, s2.mask + Fires(s2, e.t0), e.w2)
  }

  /** Every commit of the operation gets through. */
  predicate Working(s: State, op: Op) {
    match op
    case DoCommand(channel, req, _, e) =>
      1 <= channel <= CHANNELS ==> Works(s, CommandTarget(s, channel - 1, WantsOn(s, channel - 1, req)), e.w0)
    case DoSkLost(e) => Works(s, FailSafeTarget(s), e.w0)
    case DoTick(e) => WorkingTick(s, e)
    case DoSave(cfg, e) => Works(s, s.mask - Conflicts(cfg, s.mask), e.w0)
  }

  /** A command commits that mask and writes nothing else. */
  lemma CommandCommits(s: State, channel: int, req: Request, src: Source, e: Env)
    requires 1 <= channel <= CHANNELS
    ensures var i := channel - 1;
            var o, c := Command(s, channel, req, src, e), Commit(s, CommandTarget(s, i, WantsOn(s, i, req)), e.w0);
            && o.s.chip == c.s.chip && o.s.mask == c.s.mask && o.s.cfg == s.cfg
            && o.err == if c.ok then Ok else BusError
  {
    hide SwitchOff, Defer, Energise, Commit, Interlocked;
    var i: Channel := channel - 1;
    if !WantsOn(s, i, req) {
      SwitchOffCommits(s, i, e);
    } else if PartnerIn(s.cfg, i, s.mask) {
      DeferCommits(s, i, Partner(s.cfg, i), src, e);
    } else if i in s.pending {
      NothingToCommit(s, e.w0);
    } else {
      EnergiseCommits(s, i, e);
    }
  }

  lemma NoChannel(s: State, channel: int, req: Request, src: Source, e: Env)
    requires !(1 <= channel <= CHANNELS)
    ensures Command(s, channel, req, src, e) == Outcome(s, InvalidArg, [])
  {
  }

  lemma SwitchOffCommits(s: State, i: Channel, e: Env)
    ensures var r, c := SwitchOff(s, i, e), Commit(s, s.mask - {i}, e.w0);
            r.ok == c.ok && r.s.chip == c.s.chip && r.s.mask == c.s.mask && r.s.cfg == s.cfg
  {
  }

  lemma NothingToCommit(s: State, w: Attempts)
    ensures Commit(s, s.mask, w) == Committed(s, true)
  {
  }

  lemma DeferCommits(s: State, i: Channel, p: Channel, src: Source, e: Env)
    ensures var r, c := Defer(s, i, p, src, e), Commit(s, s.mask - {p}, e.w0);
            r.ok == c.ok && r.s.chip == c.s.chip && r.s.mask == c.s.mask && r.s.cfg == s.cfg
  {
  }

  lemma EnergiseCommits(s: State, i: Channel, e: Env)
    ensures var r, c := Energise(s, i, e), Commit(s, s.mask + {i}, e.w0);
            r.ok == c.ok && r.s.chip == c.s.chip && r.s.mask == c.s.mask && r.s.cfg == s.cfg
  {
  }

  // -------------------------------------------------------- dark until commanded

  /** Relay `i` is off in the mask, not waiting, and off in the register. */
  predicate Dark(s: State, i: Channel) {
    i !in s.mask && i !in s.pending && i !in s.chip.output
  }

  lemma EndingPins(s: State, e: Env, i: Channel)
    ensures var r := TickMaxOn(s, e);
            r.chip.inputs == s.chip.inputs && (i in r.chip.output ==> i in s.chip.output + s.mask)
  {
    var s1 := TickPulses(s, e);
    CommitPins(s, s.mask - EndedPulses(s, e.t0), e.w0);
    CommitPins(s1, s1.mask - ExpiredLimits(s1, e.t0), e.w1);
    CommitFacts(s, s.mask - EndedPulses(s, e.t0), e.w0);
  }

  lemma FirePins(s: State, e: Env, i: Channel)
    ensures var r := FirePending(s, e).s;
            && r.chip.inputs == s.chip.inputs
            && (i in r.chip.output ==> i in s.chip.output + s.mask + DuePending(s, e.t0))
  {
    var fires := Fires(s, e.t0);
    CommitPins(s.(pending := s.pending - (DuePending(s, e.t0) - fires)), s.mask + fires, e.w2);
  }

  lemma TickPins(s: State, e: Env, i: Channel)
    ensures var r := Tick(s, e).s;
            && r.chip.inputs == s.chip.inputs
            && (i in r.chip.output ==> i in s.chip.output + s.mask + DuePending(s, e.t0))
  {
    EndingCause(s, e);
    EndingPins(s, e, i);
    FirePins(TickMaxOn(s, e), e, i);
    assert DuePending(TickMaxOn(s, e), e.t0) == DuePending(s, e.t0);
  }

  lemma SavePins(s: State, cfg: Config, e: Env, i: Channel)
    ensures var r := UpdateConfig(s, cfg, e).s;
            r.chip.inputs == s.chip.inputs && (i in r.chip.output ==> i in s.chip.output + s.mask)
  {
    AdoptFacts(s, cfg, e);
    var s1 := Adopt(s, cfg, e);
    CommitPins(s1, s1.mask - Conflicts(cfg, s1.mask), e.w0);
    ClearConflictFacts(s1, Conflicts(cfg, s1.mask), e);
  }

  /** One step, whatever the bus does: the register has a coil on only if it had, if the mask has
      it on, if it is commanded on now, or if the step is a tick that finds it waiting and due. */
  lemma StepPins(s: State, op: Op, i: Channel)
    ensures var r := Apply(s, op).s;
            && r.chip.inputs == s.chip.inputs
            && (i in r.chip.output ==>
                  || i in s.chip.output || i in s.mask || CommandsOn(s, op, i)
                  || (op.DoTick? && i in s.pending && Passed(op.e.t0, s.pendingDue[i])))
  {
    match op
    case DoCommand(channel, req, src, e) => CommandPins(s, channel, req, src, e, i);
    case DoSkLost(e) => CommitPins(s, FailSafeTarget(s), e.w0);
    case DoTick(e) => TickPins(s, e, i);
    case DoSave(cfg, e) => SavePins(s, cfg, e, i);
  }

  lemma CommandPins(s: State, channel: int, req: Request, src: Source, e: Env, i: Channel)
    ensures var r := Command(s, channel, req, src, e).s;
            && r.chip.inputs == s.chip.inputs
            && (i in r.chip.output ==>
                  i in s.chip.output || i in s.mask || CommandsOn(s, DoCommand(channel, req, src, e), i))
  {
    hide Command, Commit;
    if 1 <= channel <= CHANNELS {
      CommandCommits(s, channel, req, src, e);
      CommitPins(s, CommandTarget(s, channel - 1, WantsOn(s, channel - 1, req)), e.w0);
    } else {
      NoChannel(s, channel, req, src, e);
    }
  }

  /** A relay that is dark stays dark through any run, whatever the bus does, until commanded on. */
  lemma {:induction false} DarkUntilCommanded(s: State, ops: seq<Op>, i: Channel, n: nat)
    requires n <= |ops| && Dark(s, i) && NotCommanded(s, ops, i, n)
    ensures Dark(StateAt(s, ops, n), i) && i !in Driven(StateAt(s, ops, n).chip)
  {
    hide Apply, CommandsOn;
    if n > 0 {
      DarkUntilCommanded(s, ops, i, n - 1);
      StepCause(StateAt(s, ops, n - 1), ops[n - 1], i);
      StepPins(StateAt(s, ops, n - 1), ops[n - 1], i);
    }
  }

  // ------------------------------------------------------------------ fail-safe

  /** Fail-safe on a working bus de-energises every default-safe relay exactly when it has
      something to write, or the register has none of them on anyway. */
  lemma FailSafeDrivesIff(s: State, e: Env)
    requires Working(s, DoSkLost(e)) && s.chip.inputs == {}
    ensures Driven(SkLost(s, e).s.chip) <= HoldMask(s.cfg)
       <==> !(s.mask <= HoldMask(s.cfg)) || s.chip.output <= HoldMask(s.cfg)
  {
    WorkingCommit(s, FailSafeTarget(s), e.w0);
    OffMask(s);
  }

  lemma OffMask(s: State)
    ensures s.mask - (ALL - HoldMask(s.cfg)) == s.mask * HoldMask(s.cfg)
    ensures s.mask * HoldMask(s.cfg) == s.mask <==> s.mask <= HoldMask(s.cfg)
  {
    forall i | i in s.mask ensures i in ALL {
    }
  }

  /** Under that condition, every default-safe relay is de-energised by a fail-safe on a working
      bus, and stays so through any run on any bus for as long as nobody commands it on. */
  lemma FailSafeDarkens(s: State, e: Env, ops: seq<Op>, i: Channel, n: nat)
    requires Working(s, DoSkLost(e)) && s.chip.inputs == {}
    requires s.cfg.relays[i].mode == Momentary || s.cfg.relays[i].failsafe == DefaultSafe
    requires !(s.mask <= HoldMask(s.cfg)) || s.chip.output <= HoldMask(s.cfg)
    requires n <= |ops| && NotCommanded(SkLost(s, e).s, ops, i, n)
    ensures i !in Driven(StateAt(SkLost(s, e).s, ops, n).chip)
  {
    WorkingCommit(s, FailSafeTarget(s), e.w0);
    OffMask(s);
    FailSafeDrivesIff(s, e);
    SkLostCause(s, e, i);
    assert i !in HoldMask(s.cfg);
    DarkUntilCommanded(SkLost(s, e).s, ops, i, n);
  }

  /** In particular where the coils are as the mask says. */
  lemma FailSafeDarkensPhysical(s: State, e: Env, ops: seq<Op>, i: Channel, n: nat)
    requires Working(s, DoSkLost(e)) && Physical(s)
    requires s.cfg.relays[i].mode == Momentary || s.cfg.relays[i].failsafe == DefaultSafe
    requires n <= |ops| && NotCommanded(SkLost(s, e).s, ops, i, n)
    ensures i !in Driven(StateAt(SkLost(s, e).s, ops, n).chip)
  {
    FailSafeDarkens(s, e, ops, i, n);
  }

  // --------------------------------------------------------- why a coil comes on

  /** In any state of the invariant and on any bus, a coil that an operation energises has a cause, its
      own "on" or a tick that finds it waiting and due, exactly when the mask did not have it: an "on"
      of a relay in the mask writes nothing. */
  lemma EnergisedByCauseIff(s: State, op: Op, i: Channel)
    requires Interlocked(s) && i !in Driven(s.chip) && i in Driven(Apply(s, op).s.chip)
    ensures CommandsOn(s, op, i) || (op.DoTick? && i in s.pending && Passed(op.e.t0, s.pendingDue[i]))
       <==> i !in s.mask
  {
    hide Apply;
    StepPins(s, op, i);
    if i in s.mask {
      if CommandsOn(s, op, i) {
        OnOfOnWritesNothing(s, op, i);
      }
      assert i !in s.pending;
    }
  }

  lemma OnOfOnWritesNothing(s: State, op: Op, i: Channel)
    requires Interlocked(s) && i in s.mask && CommandsOn(s, op, i)
    ensures Apply(s, op).s.chip == s.chip
  {
    hide Command;
    CommandCommits(s, i + 1, op.req, op.src, op.e);
    assert s.mask + {i} == s.mask;
    NothingToCommit(s, op.e.w0);
  }

  /** Live cause at the coil: in any run on any bus, a coil that an operation energises was
      commanded on by it, or is what a tick carries out for a command not cancelled since, unless
      the mask had it on all along (`OffOfAnotherEnergises` is such a case). */
  lemma EnergisedHasLiveCause(s: State, ops: seq<Op>, i: Channel, n: nat) returns (k: nat)
    requires ValidPairs(s.cfg) && SavesLoaded(ops) && i !in s.pending
    requires n < |ops| && i !in StateAt(s, ops, n).mask
    requires i !in Driven(StateAt(s, ops, n).chip) && i in Driven(StateAt(s, ops, n + 1).chip)
    ensures k <= n && CommandsOn(StateAt(s, ops, k), ops[k], i)
    ensures k < n ==> ops[n].DoTick? && LiveSince(s, ops, i, k, n)
  {
    hide Apply, CommandsOn, Cancels, ValidPairs, SavesLoaded;
    StepPins(StateAt(s, ops, n), ops[n], i);
    if CommandsOn(StateAt(s, ops, n), ops[n], i) {
      k := n;
    } else {
      k := WaitingHasCause(s, ops, i, n);
    }
  }

  // ------------------------------------------------------------ coils as the mask

  /** The coils are as the mask says. */
  predicate Physical(s: State) {
    s.chip.inputs == {} && s.chip.output == s.mask
  }

  /** On a working bus every operation keeps the coils as the mask says. */
  lemma StepPhysical(s: State, op: Op)
    requires Physical(s) && Working(s, op)
    ensures Physical(Apply(s, op).s) && Driven(Apply(s, op).s.chip) == Apply(s, op).s.mask
  {
    var e := op.e;
    match op
    case DoCommand(channel, req, src, _) => CommandPhysical(s, channel, req, src, e);
    case DoSkLost(_) =>
      WorkingCommit(s, FailSafeTarget(s), e.w0);
    case DoTick(_) =>
      TickPhysical(s, e);
    case DoSave(cfg, _) =>
      AdoptFacts(s, cfg, e);
      var s1 := Adopt(s, cfg, e);
      ClearConflictFacts(s1, Conflicts(cfg, s1.mask), e);
      WorkingCommit(s1, s1.mask - Conflicts(cfg, s1.mask), e.w0);
  }

  lemma CommandPhysical(s: State, channel: int, req: Request, src: Source, e: Env)
    requires Physical(s) && Working(s, DoCommand(channel, req, src, e))
    ensures Physical(Command(s, channel, req, src, e).s)
  {
    hide Command, Commit;
    if 1 <= channel <= CHANNELS {
      CommandCommits(s, channel, req, src, e);
      WorkingCommit(s, CommandTarget(s, channel - 1, WantsOn(s, channel - 1, req)), e.w0);
    } else {
      NoChannel(s, channel, req, src, e);
    }
  }

  lemma TickPhysical(s: State, e: Env)
    requires Physical(s) && WorkingTick(s, e)
    ensures Physical(Tick(s, e).s)
  {
    var s1, s2 := TickPulses(s, e), TickMaxOn(s, e);
    WorkingCommit(s, s.mask - EndedPulses(s, e.t0), e.w0);
    WorkingCommit(s1, s1.mask - ExpiredLimits(s1, e.t0), e.w1);
    assert Physical(s2);
    var fires := Fires(s2, e.t0);
    var s3 := s2.(pending := s2.pending - (DuePending(s2, e.t0) - fires));
    WorkingCommit(s3, s3.mask + fires, e.w2);
  }

  // ---------------------------------------------------------- commands at the coil

  /** After a command on a working bus the coils are as the mask says exactly when it had something
      to write, or they were so before. */
  lemma CommandDrivesMaskIff(s: State, channel: int, req: Request, src: Source, e: Env)
    requires 1 <= channel <= CHANNELS && s.chip.inputs == {}
    requires Working(s, DoCommand(channel, req, src, e))
    ensures var r := Command(s, channel, req, src, e).s;
            var target := CommandTarget(s, channel - 1, WantsOn(s, channel - 1, req));
            Driven(r.chip) == r.mask <==> target != s.mask || s.chip.output == s.mask
  {
    hide Command, Commit;
    CommandCommits(s, channel, req, src, e);
    WorkingCommit(s, CommandTarget(s, channel - 1, WantsOn(s, channel - 1, req)), e.w0);
  }

  /** An off on a working bus de-energises its relay exactly when the mask had it on, or the
      register had it off. */
  lemma OffDrivesIff(s: State, i: Channel, req: Request, src: Source, e: Env)
    requires !WantsOn(s, i, req) && Works(s, s.mask - {i}, e.w0) && s.chip.inputs == {}
    ensures i !in Driven(Command(s, i + 1, req, src, e).s.chip) <==> i in s.mask || i !in s.chip.output
  {
    hide Command, Commit;
    CommandCommits(s, i + 1, req, src, e);
    WorkingCommit(s, s.mask - {i}, e.w0);
  }

  /** A failed command leaves the register as it was when neither write landed, and at the mask it
      tried for when one did. */
  lemma FailedCommandPins(s: State, channel: int, req: Request, src: Source, e: Env)
    requires Command(s, channel, req, src, e).err != Ok
    ensures var o := Command(s, channel, req, src, e);
            && o.s.mask == s.mask && o.s.chip.inputs == s.chip.inputs
            && o.s.chip.output == (if o.err == BusError && (e.w0.first.landed || e.w0.second.landed)
                                   then CommandTarget(s, channel - 1, WantsOn(s, channel - 1, req))
                                   else s.chip.output)
  {
    hide Command, Commit;
    if 1 <= channel <= CHANNELS {
      CommandCommits(s, channel, req, src, e);
      FailedCommit(s, CommandTarget(s, channel - 1, WantsOn(s, channel - 1, req)), e.w0);
    } else {
      NoChannel(s, channel, req, src, e);
    }
  }

  lemma FailedCommit(s: State, target: Mask, w: Attempts)
    requires !Commit(s, target, w).ok
    ensures var c := Commit(s, target, w);
            && c.s.mask == s.mask && c.s.chip.inputs == s.chip.inputs
            && c.s.chip.output == if w.first.landed || w.second.landed then target else s.chip.output
  {
  }

  // -------------------------------------- writes that landed and were not confirmed

  /** A call whose writes land but cannot be read back. */
  function Unconfirmed(t: int): Env {
    var lost := WriteAnswer(true, true, ReadFailed);
    var w := Attempts(lost, lost);
    Env(t, t, t, w, w, w, true)
  }

  /** Fail-safe may leave a default-safe coil on although the bus works: an "on" that landed
      unconfirmed is in no mask, and fail-safe then has nothing to write. */
  lemma FailSafeLeavesCoilOn(s: State, i: Channel)
    requires Physical(s) && Interlocked(s) && s.mask == {} && i !in s.pending
    requires !IsHold(s.cfg, i) && !s.cfg.relays[i].wiredNc
    ensures var o := Command(s, i + 1, On, Web, Unconfirmed(0));
            && o.err == BusError && o.s.mask == {} && Interlocked(o.s)
            && i in Driven(SkLost(o.s, GoodBus(0)).s.chip)
  {
    hide Command;
    var r := Command(s, i + 1, On, Web, Unconfirmed(0)).s;
    CommandCommits(s, i + 1, On, Web, Unconfirmed(0));
    CommandKeeps(s, i + 1, On, Web, Unconfirmed(0));
    NothingLit(r, GoodBus(0));
  }

  lemma NothingLit(s: State, e: Env)
    requires s.mask == {}
    ensures SkLost(s, e).s.chip == s.chip
  {
    assert s.mask - (ALL - HoldMask(s.cfg)) == s.mask;
  }

  /** So may an off: it succeeds, with nothing to write. */
  lemma OffLeavesCoilOn(s: State, i: Channel)
    requires Physical(s) && Interlocked(s) && s.mask == {} && i !in s.pending && !s.cfg.relays[i].wiredNc
    ensures var r := Command(s, i + 1, On, Web, Unconfirmed(0)).s;
            var o := Command(r, i + 1, Off, Web, GoodBus(0));
            o.err == Ok && o.s.mask == {} && i in Driven(o.s.chip)
  {
    hide Command;
    var r := Command(s, i + 1, On, Web, Unconfirmed(0)).s;
    CommandCommits(s, i + 1, On, Web, Unconfirmed(0));
    CommandCommits(r, i + 1, Off, Web, GoodBus(0));
  }

  /** And a coil may come on for nobody's "on": after an off of `i` that landed unconfirmed, the off
      of another relay writes the mask that still has `i`. */
  lemma OffOfAnotherEnergises(s: State, i: Channel, j: Channel)
    requires Physical(s) && {i, j} <= s.mask && i != j
    requires !s.cfg.relays[i].wiredNc && !s.cfg.relays[j].wiredNc
    ensures var r := Command(s, i + 1, Off, Web, Unconfirmed(0)).s;
            var o := Command(r, j + 1, Off, Web, GoodBus(0));
            i !in Driven(r.chip) && o.err == Ok && i in Driven(o.s.chip)
  {
    hide Command;
    var r := Command(s, i + 1, Off, Web, Unconfirmed(0)).s;
    CommandCommits(s, i + 1, Off, Web, Unconfirmed(0));
    CommandCommits(r, j + 1, Off, Web, GoodBus(0));
    assert s.mask - {i} != s.mask && s.mask - {j} != s.mask;
  }
}
