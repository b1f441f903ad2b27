/** Why a coil comes on, as relay control sees it: by the mask of the last confirmed write. Apart
    from start-up, only an "on" for that relay puts it there: at once, or at the tick that ends its
    dead time, and only if nothing cancelled it meanwhile. RelayPins carries this over to what the
    expander drives. */
module RelayCause {
  import opened Board
  import opened RelayConfig
  import opened Timers
  import opened RelaySpec
  import opened RelayInvariant
  import opened RelayRuns

  /** `op` asks for coil `i` on. */
  predicate CommandsOn(s: State, op: Op, i: Channel) {
    op.DoCommand? && op.channel == i + 1 && WantsOn(s, i, op.req)
  }

  /** `op` takes back a waiting "on" of relay `i`: its own off, its partner put on while neither
      `i`'s coil nor a wait of the partner stands in the way, or fail-safe for a default-safe
      relay. */
  predicate Cancels(s: State, op: Op, i: Channel) {
    match op
    case DoCommand(channel, req, src, e) =>
      || (channel == i + 1 && !WantsOn(s, i, req))
      || (channel == Partner(s.cfg, i) + 1 && 1 <= channel <= CHANNELS && WantsOn(s, channel - 1, req)
          && i !in s.mask && channel - 1 !in s.pending
          && PartnerIn(s.cfg, i, Command(s, channel, req, src, e).s.mask))
    case DoSkLost(e) => !IsHold(s.cfg, i)
    case _ => false
  }

  /** The commit of `target` succeeds: there is nothing to write, or one of the two attempts is
      confirmed. */
  predicate Takes(s: State, target: Mask, w: Attempts) {
    target == s.mask || TwoAttempts(s.chip, target, w).ok
  }

  // ----------------------------------------------------- one step at a time

  lemma OffCause(s: State, c: Channel, e: Env)
    ensures var r := SwitchOff(s, c, e).s; r.mask <= s.mask && r.pending == s.pending - {c}
  {
    var s1 := s.(pending := s.pending - {c});
    CommitFacts(s1, s1.mask - {c}, e.w0);
  }

  lemma DeferCause(s: State, c: Channel, p: Channel, src: Source, e: Env)
    ensures var r := Defer(s, c, p, src, e).s;
            if r.mask == s.mask then r.pending <= s.pending + {c}
            else r.mask == s.mask - {p} && r.pending == s.pending - {p} + {c}
  {
    CommitFacts(s, s.mask - {p}, e.w0);
  }

  lemma EnergiseCause(s: State, c: Channel, e: Env)
    ensures var r := Energise(s, c, e).s;
            && s.mask <= r.mask <= s.mask + {c} && r.pending <= s.pending
            && (c in r.mask && r.mask != s.mask ==> !PartnerIn(s.cfg, c, r.pending))
            && (c in s.mask ==> !PartnerIn(s.cfg, c, r.pending))
  {
    CommitFacts(s, s.mask + {c}, e.w0);
    if c in s.mask {
      assert s.mask + {c} == s.mask;
    }
  }

  /** What a command may add to the coils and to the waiting relays. */
  lemma CommandCause(s: State, channel: int, req: Request, src: Source, e: Env, i: Channel)
    ensures var op := DoCommand(channel, req, src, e);
            var r := Apply(s, op).s;
            && (i in r.mask && i !in s.mask ==> CommandsOn(s, op, i))
            && (i in r.pending && i !in s.pending ==> CommandsOn(s, op, i))
  {
    hide SwitchOff, Defer, Energise;
    if 1 <= channel <= CHANNELS {
      var c: Channel := channel - 1;
      if !WantsOn(s, c, req) {
        OffCause(s, c, e);
      } else if PartnerIn(s.cfg, c, s.mask) {
        DeferCause(s, c, Partner(s.cfg, c), src, e);
      } else if c !in s.pending {
        EnergiseCause(s, c, e);
      }
    }
  }

  /** What a command takes back. */
  lemma CommandCancels(s: State, channel: int, req: Request, src: Source, e: Env, i: Channel)
    requires ValidPairs(s.cfg) && Cancels(s, DoCommand(channel, req, src, e), i)
    ensures i !in Command(s, channel, req, src, e).s.pending
  {
    hide SwitchOff, Energise;
    var c: Channel := channel - 1;
    if c == i {
      OffCause(s, c, e);
    } else {
      assert Partner(s.cfg, c) == i;
      EnergiseCause(s, c, e);
    }
  }

  lemma SkLostCause(s: State, e: Env, i: Channel)
    ensures var r := SkLost(s, e).s;
            && r.cfg == s.cfg && r.mask <= s.mask && r.pending <= s.pending
            && (!IsHold(s.cfg, i) ==> i !in r.pending)
            && (!IsHold(s.cfg, i) && Takes(s, s.mask * HoldMask(s.cfg), e.w0) ==> i !in r.mask)
  {
    var off := ALL - HoldMask(s.cfg);
    CommitFacts(s, s.mask - off, e.w0);
    assert i in ALL;
    assert s.mask - off == s.mask * HoldMask(s.cfg);
  }

  lemma EndingCause(s: State, e: Env)
    ensures var r := EndMaxOn(EndPulses(s, e), e);
            r.cfg == s.cfg && r.mask <= s.mask && r.pending == s.pending && r.pendingDue == s.pendingDue
  {
    var s1 := EndPulses(s, e);
    CommitFacts(s, s.mask - EndedPulses(s, e.t0), e.w0);
    CommitFacts(s1, s1.mask - ExpiredLimits(s1, e.t0), e.w1);
  }

  lemma FireCause(s: State, e: Env, i: Channel)
    ensures var r := FirePending(s, e).s;
            && r.cfg == s.cfg && r.pending <= s.pending
            && (i in r.mask && i !in s.mask ==> i in DuePending(s, e.t0))
  {
    var fires := Fires(s, e.t0);
    var s1 := s.(pending := s.pending - (DuePending(s, e.t0) - fires));
    CommitFacts(s1, s1.mask + fires, e.w2);
  }

  lemma TickCause(s: State, e: Env, i: Channel)
    ensures var r := Tick(s, e).s;
            && r.cfg == s.cfg && r.pending <= s.pending
            && (i in r.mask && i !in s.mask ==> i in s.pending && Passed(e.t0, s.pendingDue[i]))
  {
    EndingCause(s, e);
    FireCause(TickMaxOn(s, e), e, i);
  }

  lemma SaveCause(s: State, cfg: Config, e: Env)
    ensures var r := UpdateConfig(s, cfg, e).s;
            r.cfg == cfg && r.mask <= s.mask && r.pending <= s.pending
  {
    AdoptFacts(s, cfg, e);
    var s1 := Adopt(s, cfg, e);
    var conflict := Conflicts(cfg, s1.mask);
    CommitFacts(s1, s1.mask - conflict, e.w0);
    ClearConflictFacts(s1, conflict, e);
  }

  /** One step, every case, in any state: a coil that comes on was commanded on now, or fires at a
      tick after waiting; a relay starts waiting only for its own "on". */
  lemma StepCause(s: State, op: Op, i: Channel)
    ensures var r := Apply(s, op).s;
            && (i in r.mask && i !in s.mask ==>
                  || CommandsOn(s, op, i)
                  || (op.DoTick? && i in s.pending && Passed(op.e.t0, s.pendingDue[i])))
            && (i in r.pending && i !in s.pending ==> CommandsOn(s, op, i))
  {
    match op
    case DoCommand(channel, req, src, e) => CommandCause(s, channel, req, src, e, i);
    case DoSkLost(e) => SkLostCause(s, e, i);
    case DoTick(e) => TickCause(s, e, i);
    case DoSave(cfg, e) => SaveCause(s, cfg, e);
  }

  /** A relay that waits carries the source of its own "on": the one now, or the one it waited with. */
  predicate SourceKept(s: State, r: State, i: Channel) {
    i in s.pending && r.pendingSrc[i] == s.pendingSrc[i]
  }

  lemma CommandSource(s: State, channel: int, req: Request, src: Source, e: Env, i: Channel)
    ensures var op := DoCommand(channel, req, src, e); var r := Apply(s, op).s;
            i in r.pending ==> SourceKept(s, r, i) || (CommandsOn(s, op, i) && r.pendingSrc[i] == src)
  {
    hide SwitchOff, Defer, Energise;
    if 1 <= channel <= CHANNELS {
      var c: Channel := channel - 1;
      if !WantsOn(s, c, req) {
        OffSource(s, c, e);
      } else if PartnerIn(s.cfg, c, s.mask) {
        DeferSource(s, c, Partner(s.cfg, c), src, e);
      } else if c !in s.pending {
        EnergiseSource(s, c, e);
      }
    }
  }

  lemma OffSource(s: State, c: Channel, e: Env)
    ensures var r := SwitchOff(s, c, e).s; r.pending <= s.pending && r.pendingSrc == s.pendingSrc
  {
    var s1 := s.(pending := s.pending - {c});
    CommitFacts(s1, s1.mask - {c}, e.w0);
  }

  lemma DeferSource(s: State, c: Channel, p: Channel, src: Source, e: Env)
    ensures var r := Defer(s, c, p, src, e).s;
            || (r.pending <= s.pending + {c} && r.pendingSrc == s.pendingSrc[c := src])
            || (r.pending == s.pending && r.pendingSrc == s.pendingSrc)
  {
    CommitFacts(s, s.mask - {p}, e.w0);
  }

  lemma EnergiseSource(s: State, c: Channel, e: Env)
    ensures var r := Energise(s, c, e).s; r.pending <= s.pending && r.pendingSrc == s.pendingSrc
  {
    CommitFacts(s, s.mask + {c}, e.w0);
  }

  lemma TickSource(s: State, e: Env)
    ensures Tick(s, e).s.pending <= s.pending && Tick(s, e).s.pendingSrc == s.pendingSrc
  {
    var s1, s2 := TickPulses(s, e), TickMaxOn(s, e);
    CommitFacts(s, s.mask - EndedPulses(s, e.t0), e.w0);
    CommitFacts(s1, s1.mask - ExpiredLimits(s1, e.t0), e.w1);
    FireSource(s2, e);
  }

  lemma FireSource(s: State, e: Env)
    ensures FirePending(s, e).s.pending <= s.pending && FirePending(s, e).s.pendingSrc == s.pendingSrc
  {
    var fires := Fires(s, e.t0);
    CommitFacts(s.(pending := s.pending - (DuePending(s, e.t0) - fires)), s.mask + fires, e.w2);
  }

  lemma StepSource(s: State, op: Op, i: Channel)
    ensures var r := Apply(s, op).s;
            i in r.pending ==> SourceKept(s, r, i) || (CommandsOn(s, op, i) && r.pendingSrc[i] == op.src)
  {
    match op
    case DoCommand(channel, req, src, e) => CommandSource(s, channel, req, src, e, i);
    case DoSkLost(e) =>
      CommitFacts(s, s.mask - (ALL - HoldMask(s.cfg)), e.w0);
    case DoTick(e) => TickSource(s, e);
    case DoSave(cfg, e) => SaveSource(s, cfg, e);
  }

  lemma SaveSource(s: State, cfg: Config, e: Env)
    ensures UpdateConfig(s, cfg, e).s.pending <= s.pending && UpdateConfig(s, cfg, e).s.pendingSrc == s.pendingSrc
  {
    AdoptFacts(s, cfg, e);
    var s1 := Adopt(s, cfg, e);
    CommitFacts(s1, s1.mask - Conflicts(cfg, s1.mask), e.w0);
  }

  /** And a cancelled relay waits no more, under any loaded settings. */
  lemma StepCancels(s: State, op: Op, i: Channel)
    requires ValidPairs(s.cfg) && Cancels(s, op, i)
    ensures i !in Apply(s, op).s.pending
  {
    match op
    case DoCommand(channel, req, src, e) => CommandCancels(s, channel, req, src, e, i);
    case DoSkLost(e) => SkLostCause(s, e, i);
  }

  // -------------------------------------------------------------- whole runs

  /** Operation `k` commanded relay `i` on, and no later operation before `n` cancelled it. */
  predicate LiveSince(s: State, ops: seq<Op>, i: Channel, k: nat, n: nat)
    requires n <= |ops|
  {
    && k < n
    && CommandsOn(StateAt(s, ops, k), ops[k], i)
    && forall j :: k < j < n ==> !Cancels(StateAt(s, ops, j), ops[j], i)
  }

  /** Every settings save offers loaded settings; nothing is asked of when it happens or of
      whether its write gets through. */
  predicate SavesLoaded(ops: seq<Op>) {
    forall k :: 0 <= k < |ops| && ops[k].DoSave? ==> ValidPairs(ops[k].cfg)
  }

  lemma StepConfig(s: State, op: Op)
    ensures Apply(s, op).s.cfg == if op.DoSave? then op.cfg else s.cfg
  {
    match op
    case DoCommand(channel, req, src, e) => CommandKeeps(s, channel, req, src, e);
    case DoSkLost(e) => SkLostKeeps(s, e);
    case DoTick(e) => TickKeeps(s, e);
    case DoSave(cfg, e) => SaveCause(s, cfg, e);
  }

  lemma {:induction false} PairsStayValid(s: State, ops: seq<Op>, k: nat)
    requires ValidPairs(s.cfg) && SavesLoaded(ops) && k <= |ops|
    ensures ValidPairs(StateAt(s, ops, k).cfg)
  {
    hide Apply, ValidPairs;
    if k > 0 {
      PairsStayValid(s, ops, k - 1);
      StepConfig(StateAt(s, ops, k - 1), ops[k - 1]);
    }
  }

  /** A waiting relay has a live cause in the run, and carries its source. */
  lemma {:induction false} WaitingHasCause(s: State, ops: seq<Op>, i: Channel, n: nat) returns (k: nat)
    requires ValidPairs(s.cfg) && SavesLoaded(ops)
    requires n <= |ops| && i !in s.pending && i in StateAt(s, ops, n).pending
    ensures LiveSince(s, ops, i, k, n) && ops[k].DoCommand? && StateAt(s, ops, n).pendingSrc[i] == ops[k].src
  {
    hide Apply, Cancels, ValidPairs, SavesLoaded;
    var before, op := StateAt(s, ops, n - 1), ops[n - 1];
    PairsStayValid(s, ops, n - 1);
    StepSource(before, op, i);
    if SourceKept(before, StateAt(s, ops, n), i) {
      k := WaitingHasCause(s, ops, i, n - 1);
      if Cancels(before, op, i) {
        StepCancels(before, op, i);
      }
    } else {
      k := n - 1;
    }
  }

  /** Live cause: in any run, a coil that an operation puts on in the confirmed mask was commanded
      on by that very operation, or the operation is a tick and a command for that same relay, not
      cancelled since, is what it carries out. Fail-safe and settings saves never put one on. */
  lemma TurnOnHasLiveCause(s: State, ops: seq<Op>, i: Channel, n: nat) returns (k: nat)
    requires ValidPairs(s.cfg) && SavesLoaded(ops) && i !in s.pending
    requires n < |ops| && i !in StateAt(s, ops, n).mask && i in StateAt(s, ops, n + 1).mask
    ensures k <= n && CommandsOn(StateAt(s, ops, k), ops[k], i)
    ensures k < n ==> ops[n].DoTick? && LiveSince(s, ops, i, k, n)
  {
    hide Apply, CommandsOn, Cancels, ValidPairs, SavesLoaded;
    StepCause(StateAt(s, ops, n), ops[n], i);
    if CommandsOn(StateAt(s, ops, n), ops[n], i) {
      k := n;
    } else {
      k := WaitingHasCause(s, ops, i, n);
    }
  }

  /** No operation before `n` commands relay `i` on. */
  predicate NotCommanded(s: State, ops: seq<Op>, i: Channel, n: nat)
    requires n <= |ops|
  {
    forall k :: 0 <= k < n ==> !CommandsOn(StateAt(s, ops, k), ops[k], i)
  }

  lemma {:induction false} StaysOffUntilCommanded(s: State, ops: seq<Op>, i: Channel, n: nat)
    requires n <= |ops| && i !in s.mask && i !in s.pending && NotCommanded(s, ops, i, n)
    ensures i !in StateAt(s, ops, n).mask && i !in StateAt(s, ops, n).pending
  {
    hide Apply, CommandsOn;
    if n > 0 {
      StaysOffUntilCommanded(s, ops, i, n - 1);
      StepCause(StateAt(s, ops, n - 1), ops[n - 1], i);
    }
  }

  /** Fail-safe: once SignalK is lost and the expander confirms the write, every default-safe relay
      is off in the mask, none is waiting, and each stays off through any run, for as long as
      nobody commands it on. */
  lemma FailSafeHolds(s: State, e: Env, ops: seq<Op>, i: Channel, n: nat)
    requires s.cfg.relays[i].mode == Momentary || s.cfg.relays[i].failsafe == DefaultSafe
    requires n <= |ops| && NotCommanded(SkLost(s, e).s, ops, i, n)
    requires Takes(s, s.mask * HoldMask(s.cfg), e.w0)
    ensures i !in StateAt(SkLost(s, e).s, ops, n).mask
  {
    SkLostCause(s, e, i);
    StaysOffUntilCommanded(SkLost(s, e).s, ops, i, n);
  }
}
