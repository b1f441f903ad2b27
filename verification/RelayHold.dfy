/** The stored state of `hold` relays: it survives a power cut, and it is not written too often. */
module RelayHold {
  import opened Options
  import opened Board
  import opened Clock32
  import opened RelayConfig
  import opened Expander
  import opened RelaySpec
  import opened RelayInvariant
  import opened RelayRuns

  /** The stored mask; nothing stored reads as all off. */
  function Stored(s: State): Mask {
    if s.store.Some? then s.store.value else {}
  }

  /** Whenever no save is pending, the store agrees with the mask on every hold relay. */
  predicate StoreAgrees(s: State) {
    !s.savePending ==> Stored(s) * HoldMask(s.cfg) == s.mask * HoldMask(s.cfg)
  }

  /** What start-up found: a warm expander, or a store it could read (or did not need to). */
  predicate BootReadStore(s: State, cfg: Config, b: BootEnv)
    requires ChooseHeld(s, b).Some?
  {
    || ChooseHeld(s, b).value.warm
    || b.loadOk
    || Stored(s) * HoldMask(cfg) == {}
  }

  /** A successful start-up makes the store agree exactly when it was warm, could read the
      store, or the store had no hold relay on. A failed read of a store that has one leaves
      the relay off, the store saying on, and no save pending. */
  lemma BootAgreesIff(s: State, cfg: Config, b: BootEnv)
    requires Blank(s) && ValidPairs(cfg) && Boot(s, cfg, b).ok
    ensures ChooseHeld(s, b).Some?
    ensures StoreAgrees(Boot(s, cfg, b).s) <==> BootReadStore(s, cfg, b)
  {
    var choice := ChooseHeld(s, b).value;
    var hold := HoldMask(cfg);
    var wanted := choice.held * hold;
    var conflict := Conflicts(cfg, wanted);
    var r := Boot(s, cfg, b).s;
    assert r.mask == wanted - conflict && r.store == s.store && r.cfg == cfg;
    assert r.savePending <==> choice.warm || conflict != {};
    if !choice.warm {
      if b.loadOk {
        assert choice.held == Stored(s);
        assert conflict == {} ==> r.mask * hold == Stored(s) * hold;
      } else {
        assert wanted == {} && conflict == {};
      }
    }
  }

  lemma OffAgrees(s: State, c: Channel, e: Env)
    requires StoreAgrees(s)
    ensures StoreAgrees(SwitchOff(s, c, e).s)
  {
    var s1 := s.(pending := s.pending - {c});
    CommitFacts(s1, s1.mask - {c}, e.w0);
  }

  lemma DeferAgrees(s: State, c: Channel, p: Channel, src: Source, e: Env)
    requires StoreAgrees(s)
    ensures StoreAgrees(Defer(s, c, p, src, e).s)
  {
    CommitFacts(s, s.mask - {p}, e.w0);
  }

  lemma EnergiseAgrees(s: State, c: Channel, e: Env)
    requires StoreAgrees(s)
    ensures StoreAgrees(Energise(s, c, e).s)
  {
    CommitFacts(s, s.mask + {c}, e.w0);
  }

  lemma CommandAgrees(s: State, channel: int, req: Request, src: Source, e: Env)
    requires StoreAgrees(s)
    ensures StoreAgrees(Command(s, channel, req, src, e).s)
  {
    if 1 <= channel <= CHANNELS {
      var c: Channel := channel - 1;
      if !WantsOn(s, c, req) {
        OffAgrees(s, c, e);
      } else if PartnerIn(s.cfg, c, s.mask) {
        DeferAgrees(s, c, Partner(s.cfg, c), src, e);
      } else if c !in s.pending {
        EnergiseAgrees(s, c, e);
      }
    }
  }

  lemma SkLostAgrees(s: State, e: Env)
    requires StoreAgrees(s)
    ensures StoreAgrees(SkLost(s, e).s)
  {
    CommitFacts(s, s.mask - (ALL - HoldMask(s.cfg)), e.w0);
  }

  lemma EndingAgrees(s: State, e: Env)
    requires StoreAgrees(s)
    ensures StoreAgrees(TickMaxOn(s, e)) && TickMaxOn(s, e).lastSave == s.lastSave
  {
    var s1 := TickPulses(s, e);
    CommitFacts(s, s.mask - EndedPulses(s, e.t0), e.w0);
    CommitFacts(s1, s1.mask - ExpiredLimits(s1, e.t0), e.w1);
  }

  lemma FireAgrees(s: State, e: Env)
    requires StoreAgrees(s)
    ensures StoreAgrees(FirePending(s, e).s) && FirePending(s, e).s.lastSave == s.lastSave
  {
    var fires := Fires(s, e.t0);
    var s1 := s.(pending := s.pending - (DuePending(s, e.t0) - fires));
    CommitFacts(s1, s1.mask + fires, e.w2);
  }

  lemma TickAgrees(s: State, e: Env)
    requires StoreAgrees(s)
    ensures StoreAgrees(Tick(s, e).s)
  {
    EndingAgrees(s, e);
    FireAgrees(TickMaxOn(s, e), e);
    var s1 := TickFire(s, e).s;
    var hold := HoldMask(s1.cfg);
    assert s1.mask * hold * hold == s1.mask * hold;
  }

  lemma SaveAgrees(s: State, cfg: Config, e: Env)
    requires StoreAgrees(s)
    ensures StoreAgrees(UpdateConfig(s, cfg, e).s)
  {
    AdoptFacts(s, cfg, e);
    var s1 := Adopt(s, cfg, e);
    var conflict := Conflicts(cfg, s1.mask);
    ClearConflictFacts(s1, conflict, e);
    CommitFacts(s1, s1.mask - conflict, e.w0);
  }

  lemma StepAgrees(s: State, op: Op)
    requires StoreAgrees(s)
    ensures StoreAgrees(Apply(s, op).s)
  {
    hide StoreAgrees;
    match op
    case DoCommand(channel, req, src, e) => CommandAgrees(s, channel, req, src, e);
    case DoSkLost(e) => SkLostAgrees(s, e);
    case DoTick(e) => TickAgrees(s, e);
    case DoSave(cfg, e) => SaveAgrees(s, cfg, e);
  }

  /** The agreement holds in every state of every run from one where it holds, whatever the
      bus, the store and the settings saves do. */
  lemma {:induction false} StoreAlwaysAgrees(s: State, ops: seq<Op>, k: nat)
    requires StoreAgrees(s) && k <= |ops|
    ensures StoreAgrees(StateAt(s, ops, k))
  {
    hide Apply, StoreAgrees;
    if k > 0 {
      StoreAlwaysAgrees(s, ops, k - 1);
      StepAgrees(StateAt(s, ops, k - 1), ops[k - 1]);
    }
  }

  /** Relay control restarted after a power cut: a fresh expander, the same store. */
  predicate ColdStart(s: State, blank: State) {
    Blank(blank) && blank.store == s.store && blank.chip.inputs == ALL
  }

  /** Power cut: in any state of any run with no save pending, whatever bus, store and saves did,
      cutting the power and starting up again with the same settings restores the hold relays that
      were on, apart from interlocked pairs of them: exactly those that were on when there was no
      such pair. */
  lemma HoldSurvivesPowerCut(s: State, ops: seq<Op>, k: nat, blank: State, b: BootEnv)
    requires StoreAgrees(s) && k <= |ops| && ValidPairs(StateAt(s, ops, k).cfg)
    requires var r := StateAt(s, ops, k); !r.savePending && ColdStart(r, blank)
    requires b.readDirection == Honest && b.loadOk
    requires Boot(blank, StateAt(s, ops, k).cfg, b).ok
    ensures var r := StateAt(s, ops, k);
            var held, restored := r.mask * HoldMask(r.cfg), Boot(blank, r.cfg, b).s.mask;
            && restored == held - Conflicts(r.cfg, held)
            && (restored == held <==> ConflictFree(r.cfg, held))
  {
    StoreAlwaysAgrees(s, ops, k);
    var r := StateAt(s, ops, k);
    var held := r.mask * HoldMask(r.cfg);
    assert 0 in ALL;
    assert ChooseHeld(blank, b) == Some(BootChoice(false, Stored(r)));
    ClearedIsConflictFree(r.cfg, held);
  }

  /** Warm start: found with its directions set, the chip keeps driving exactly the hold relays it drove,
      apart from interlocked pairs of them, which go off together with all others; and the store is due to
      be brought up to date. */
  lemma WarmStartKeepsHeld(s: State, cfg: Config, b: BootEnv)
    requires Blank(s) && ValidPairs(cfg) && s.chip.inputs == {}
    requires b.readDirection == Honest && b.readOutput == Honest
    requires Boot(s, cfg, b).ok
    ensures var r := Boot(s, cfg, b).s; var held := s.chip.output * HoldMask(cfg);
            && r.mask == held - Conflicts(cfg, held) && (r.mask == held <==> ConflictFree(cfg, held))
            && r.savePending && (b.write.back == Honest ==> Driven(r.chip) == r.mask)
  {
    ClearedIsConflictFree(cfg, s.chip.output * HoldMask(cfg));
    assert ChooseHeld(s, b) == Some(BootChoice(true, s.chip.output));
  }

  /** Start-up succeeds exactly when the directions, the outputs of a warm chip, and the write that
      follows could be had; a store that cannot be read does not stop it. */
  lemma BootSucceedsIff(s: State, cfg: Config, b: BootEnv)
    requires Blank(s) && b.readDirection == Honest && b.readOutput in {Honest, ReadFailed}
    requires b.write == GOOD || !b.write.acked
    ensures Boot(s, cfg, b).ok
       <==> b.write == GOOD && if s.chip.inputs == {} then b.readOutput == Honest else b.direction.acked
  {
  }

  // A store that cannot be read forgets: relay 1, a hold relay, is switched on and stored, and the
  // start-up after the power cut fails to read the store.

  const HELD: Config := BEFORE.(relays := seq(CHANNELS, i => if i == 0 then PLAIN.(failsafe := Hold) else PLAIN))

  /** A start-up at `t` on a working bus. */
  function GoodStart(t: int, loadOk: bool): BootEnv {
    BootEnv(t, t, Honest, Honest, loadOk, GOOD, GOOD)
  }

  function HoldRun(): seq<Op> {
    [DoCommand(1, On, Web, GoodBus(0)), DoTick(GoodBus(0))]
  }

  lemma HeldPairs()
    ensures ValidPairs(HELD) && HoldMask(HELD) == {0}
  {
    forall i: Channel ensures Partner(HELD, i) == -1 && MaxOnMs(HELD, i) == 0 && !IsMomentary(HELD, i) {
    }
  }

  lemma NothingStored(blank: State)
    requires Blank(blank) && blank.store == None && blank.chip.inputs == ALL
    ensures var s := Boot(blank, HELD, GoodStart(0, true)).s;
            && s.cfg == HELD && s.mask == {} && s.pulsing == {} && s.limited == {} && s.pending == {}
            && s.lastSave == -DELAY
  {
    assert 0 in ALL;
  }

  lemma HoldOn(s: State)
    requires s.cfg == HELD && s.mask == {} && s.pulsing == {} && s.limited == {} && s.pending == {}
    ensures var r := Command(s, 1, On, Web, GoodBus(0)).s;
            && r.cfg == HELD && r.mask == {0} && r.pulsing == {} && r.limited == {} && r.pending == {}
            && r.lastSave == s.lastSave && r.savePending
  {
    HeldPairs();
    assert 0 in Xor({0}, {}) * HoldMask(HELD);
  }

  lemma HoldStored(s: State)
    requires s.cfg == HELD && s.mask == {0} && s.pulsing == {} && s.limited == {} && s.pending == {}
    requires s.lastSave == -DELAY && s.savePending
    ensures var r := Tick(s, GoodBus(0)).s;
            r.cfg == HELD && r.mask == {0} && r.store == Some({0}) && !r.savePending
  {
    HeldPairs();
    ElapsedOfTrue(0, -DELAY);
    assert TickMaxOn(s, GoodBus(0)) == s;
    assert TickFire(s, GoodBus(0)).s == s;
    assert SaveDue(s, 0);
    assert s.mask * HoldMask(HELD) == {0};
  }

  lemma ForgottenStart(cold: State, t: int)
    requires Blank(cold) && cold.chip.inputs == ALL
    ensures var o := Boot(cold, HELD, GoodStart(t, false));
            && o.ok && o.s.mask == {} && o.s.store == cold.store && !o.s.savePending
            && ChooseHeld(cold, GoodStart(t, false)) == Some(BootChoice(false, {}))
  {
    assert 0 in ALL;
  }

  /** From power-on with an empty store: relay 1 comes up off although the store has it on, and
      nothing is going to put that right. */
  lemma FailedLoadForgets(blank: State, cold: State, t: int)
    requires Blank(blank) && blank.store == None && blank.chip.inputs == ALL
    requires ColdStart(StateAt(Boot(blank, HELD, GoodStart(0, true)).s, HoldRun(), 2), cold)
    ensures var r, o := StateAt(Boot(blank, HELD, GoodStart(0, true)).s, HoldRun(), 2),
                        Boot(cold, HELD, GoodStart(t, false));
            && r.mask == {0} && r.store == Some({0}) && !r.savePending
            && o.ok && o.s.mask == {} && o.s.store == Some({0}) && !o.s.savePending && !StoreAgrees(o.s)
  {
    hide Boot, Command, Tick, StateAt, StoreAgrees;
    var s, ops := Boot(blank, HELD, GoodStart(0, true)).s, HoldRun();
    HeldPairs();
    NothingStored(blank);
    StateAtStart(s, ops);
    StateAfter(s, ops, 0);
    HoldOn(s);
    StateAfter(s, ops, 1);
    HoldStored(StateAt(s, ops, 1));
    ForgottenStart(cold, t);
    BootAgreesIff(cold, HELD, GoodStart(t, false));
    assert 0 in Stored(cold) * HoldMask(HELD);
  }

  // ------------------------------------------------------------- save spacing

  /** This tick writes the store (successfully or not). */
  predicate WritesStore(s: State, op: Op) {
    op.DoTick? && SaveDue(TickFire(s, op.e).s, op.e.t0)
  }

  predicate InOrder(ops: seq<Op>) {
    forall j, k :: 0 <= j < k < |ops| ==> ops[j].e.t0 <= ops[k].e.t0
  }

  lemma LastSaveStep(s: State, op: Op)
    ensures Apply(s, op).s.lastSave == if WritesStore(s, op) then op.e.t0 else s.lastSave
  {
    match op
    case DoCommand(channel, req, src, e) =>
    case DoSkLost(e) =>
    case DoTick(e) =>
      LastSaveTick(s, e);
    case DoSave(cfg, e) =>
  }

  lemma LastSaveTick(s: State, e: Env)
    ensures TickFire(s, e).s.lastSave == s.lastSave
    ensures Tick(s, e).s.lastSave == if SaveDue(TickFire(s, e).s, e.t0) then e.t0 else s.lastSave
  {
    var s1, s2 := TickPulses(s, e), TickMaxOn(s, e);
    assert s1.lastSave == s.lastSave;
    assert s2.lastSave == s1.lastSave;
  }

  lemma {:induction false} LastSaveGrows(s: State, ops: seq<Op>, j: nat, k: nat)
    requires InOrder(ops) && j < k <= |ops| && WritesStore(StateAt(s, ops, j), ops[j])
    ensures ops[j].e.t0 <= StateAt(s, ops, k).lastSave <= ops[k - 1].e.t0
  {
    hide Apply, WritesStore;
    LastSaveStep(StateAt(s, ops, k - 1), ops[k - 1]);
    if j < k - 1 {
      LastSaveGrows(s, ops, j, k - 1);
    }
  }

  /** What is stored is the hold relays that are on, and nothing else; and only ticks store it. */
  lemma StoredIsHeld(s: State, op: Op)
    ensures var r := Apply(s, op).s;
            r.store == (if WritesStore(s, op) && op.e.saveOk then Some(r.mask * HoldMask(r.cfg)) else s.store)
  {
    match op
    case DoCommand(channel, req, src, e) =>
    case DoSkLost(e) =>
    case DoTick(e) => TickStores(s, e);
    case DoSave(cfg, e) =>
  }

  lemma TickStores(s: State, e: Env)
    ensures var f, r := TickFire(s, e).s, Tick(s, e).s;
            && f.store == s.store && r.mask == f.mask && r.cfg == f.cfg
            && r.store == if SaveDue(f, e.t0) && e.saveOk then Some(r.mask * HoldMask(r.cfg)) else s.store
  {
    var s1, s2 := TickPulses(s, e), TickMaxOn(s, e);
    CommitFacts(s, s.mask - EndedPulses(s, e.t0), e.w0);
    CommitFacts(s1, s1.mask - ExpiredLimits(s1, e.t0), e.w1);
    FireStores(s2, e);
  }

  lemma FireStores(s: State, e: Env)
    ensures FirePending(s, e).s.store == s.store
  {
    var fires := Fires(s, e.t0);
    CommitFacts(s.(pending := s.pending - (DuePending(s, e.t0) - fires)), s.mask + fires, e.w2);
  }

  /** A hold relay was switched, or which relays are hold relays has changed. */
  predicate HeldChanged(s: State, r: State) {
    HoldMask(r.cfg) != HoldMask(s.cfg) || r.mask * HoldMask(s.cfg) != s.mask * HoldMask(s.cfg)
  }

  lemma CommitPending(s: State, target: Mask, w: Attempts)
    ensures var c := Commit(s, target, w);
            c.s.savePending <==> s.savePending || c.s.mask * HoldMask(s.cfg) != s.mask * HoldMask(s.cfg)
  {
    var hold := HoldMask(s.cfg);
    assert Xor(target, s.mask) * hold == Xor(target * hold, s.mask * hold);
    assert Xor(target * hold, s.mask * hold) == {} <==> target * hold == s.mask * hold by {
      XorEmptyIff(target * hold, s.mask * hold);
    }
  }

  lemma XorEmptyIff(a: Mask, b: Mask)
    ensures Xor(a, b) == {} <==> a == b
  {
    if Xor(a, b) == {} {
      forall i: Channel ensures i in a <==> i in b {
        assert i !in Xor(a, b);
      }
    }
  }

  /** The store is not worn for nothing: unless a tick writes it, a save is pending after an operation
      exactly when one was before, or a hold relay was switched, or which relays are hold relays has
      changed. */
  lemma PendingIffHeldChanged(s: State, op: Op)
    requires s.mask !! s.pending && !WritesStore(s, op)
    ensures var r := Apply(s, op).s; r.savePending <==> s.savePending || HeldChanged(s, r)
  {
    match op
    case DoCommand(channel, req, src, e) => CommandPending(s, channel, req, src, e);
    case DoSkLost(e) =>
      CommitFacts(s, s.mask - (ALL - HoldMask(s.cfg)), e.w0);
      CommitPending(s, s.mask - (ALL - HoldMask(s.cfg)), e.w0);
    case DoTick(e) => TickPending(s, e);
    case DoSave(cfg, e) => SavePendingIff(s, cfg, e);
  }

  lemma TickPending(s: State, e: Env)
    requires s.mask !! s.pending
    ensures var f := TickFire(s, e).s;
            && f.cfg == s.cfg && (f.savePending <==> s.savePending || HeldChanged(s, f))
  {
    hide Commit, HeldChanged;
    var s1, s2, f := TickPulses(s, e), TickMaxOn(s, e), TickFire(s, e);
    var t, u := s.mask - EndedPulses(s, e.t0), s1.mask - ExpiredLimits(s1, e.t0);
    CommitFacts(s, t, e.w0);
    CommitPending(s, t, e.w0);
    CommitFacts(s1, u, e.w1);
    CommitPending(s1, u, e.w1);
    FirePendingHeld(s2, e);
    NetChange(s.mask, s1.mask, s2.mask, f.s.mask, HoldMask(s.cfg), s.pending);
    HeldMeans(s, f.s);
  }

  lemma HeldMeans(s: State, r: State)
    requires r.cfg == s.cfg
    ensures HeldChanged(s, r) <==> r.mask * HoldMask(s.cfg) != s.mask * HoldMask(s.cfg)
  {
  }

  lemma FirePendingHeld(s: State, e: Env)
    ensures var f := FirePending(s, e);
            && f.s.cfg == s.cfg && s.mask <= f.s.mask <= s.mask + s.pending
            && (f.s.savePending <==> s.savePending || f.s.mask * HoldMask(s.cfg) != s.mask * HoldMask(s.cfg))
  {
    hide Commit, TrackMaxOn;
    var fires := Fires(s, e.t0);
    var s1 := s.(pending := s.pending - (DuePending(s, e.t0) - fires));
    CommitFacts(s1, s1.mask + fires, e.w2);
    CommitPending(s1, s1.mask + fires, e.w2);
    var c := Commit(s1, s1.mask + fires, e.w2);
    if c.ok {
      var starts := MomentaryIn(s.cfg, fires);
      TrackFacts(c.s.(pending := c.s.pending - fires, pulsing := c.s.pulsing + starts,
                      pulseDue := PulsesStarted(s.cfg, starts, c.s.pulseDue, e.t0)), s.mask, fires, e.t1);
    }
  }

  /** Coils that go off and others that come on do not cancel out. */
  lemma NetChange(m0: Mask, m1: Mask, m2: Mask, m3: Mask, hold: Mask, pending: Mask)
    requires m2 <= m1 <= m0 && m2 <= m3 <= m2 + pending && m0 !! pending
    ensures m3 * hold != m0 * hold
       <==> m1 * hold != m0 * hold || m2 * hold != m1 * hold || m3 * hold != m2 * hold
  {
    if m3 * hold == m0 * hold {
      forall i: Channel
        ensures i in m1 * hold <==> i in m0 * hold
        ensures i in m2 * hold <==> i in m1 * hold
        ensures i in m3 * hold <==> i in m2 * hold
      {
        assert i in m3 * hold <==> i in m0 * hold;
      }
    }
  }

  lemma CommandPending(s: State, channel: int, req: Request, src: Source, e: Env)
    ensures var r := Command(s, channel, req, src, e).s;
            r.savePending <==> s.savePending || HeldChanged(s, r)
  {
    hide SwitchOff, Defer, Energise, Commit;
    if 1 <= channel <= CHANNELS {
      var c: Channel := channel - 1;
      if !WantsOn(s, c, req) {
        OffPending(s, c, e);
      } else if PartnerIn(s.cfg, c, s.mask) {
        DeferPending(s, c, Partner(s.cfg, c), src, e);
      } else if c !in s.pending {
        EnergisePending(s, c, e);
      }
    }
  }

  lemma OffPending(s: State, c: Channel, e: Env)
    ensures var r := SwitchOff(s, c, e).s; r.savePending <==> s.savePending || HeldChanged(s, r)
  {
    hide Commit;
    var s1 := s.(pending := s.pending - {c});
    CommitFacts(s1, s1.mask - {c}, e.w0);
    CommitPending(s1, s1.mask - {c}, e.w0);
  }

  lemma DeferPending(s: State, c: Channel, p: Channel, src: Source, e: Env)
    ensures var r := Defer(s, c, p, src, e).s; r.savePending <==> s.savePending || HeldChanged(s, r)
  {
    hide Commit;
    CommitFacts(s, s.mask - {p}, e.w0);
    CommitPending(s, s.mask - {p}, e.w0);
  }

  lemma EnergisePending(s: State, c: Channel, e: Env)
    ensures var r := Energise(s, c, e).s; r.savePending <==> s.savePending || HeldChanged(s, r)
  {
    hide Commit;
    CommitFacts(s, s.mask + {c}, e.w0);
    CommitPending(s, s.mask + {c}, e.w0);
  }

  lemma SavePendingIff(s: State, cfg: Config, e: Env)
    ensures var r := UpdateConfig(s, cfg, e).s;
            r.savePending <==> s.savePending || HeldChanged(s, r)
  {
    hide Commit, TrackMaxOn;
    var s1 := Adopt(s, cfg, e);
    AdoptPending(s, cfg, e);
    var conflict := Conflicts(cfg, s1.mask);
    ClearConflictFacts(s1, conflict, e);
    CommitFacts(s1, s1.mask - conflict, e.w0);
    CommitPending(s1, s1.mask - conflict, e.w0);
  }

  lemma AdoptPending(s: State, cfg: Config, e: Env)
    ensures var r := Adopt(s, cfg, e);
            r.cfg == cfg && r.mask == s.mask
            && (r.savePending <==> s.savePending || HoldMask(cfg) != HoldMask(s.cfg))
  {
  }

  /** A change is stored: a tick at least 5 s after the last attempt (and less than 2^32 ms) with the store
      taking the save leaves the stored hold relays exactly as in the mask, in any run in which they agree
      whenever no save is pending. */
  lemma TickStoresHold(s: State, ops: seq<Op>, k: nat)
    requires StoreAgrees(s) && k < |ops| && ops[k].DoTick? && ops[k].e.saveOk
    requires 5000 <= ops[k].e.t0 - StateAt(s, ops, k).lastSave < WORD
    ensures var r := StateAt(s, ops, k + 1);
            !r.savePending && Stored(r) * HoldMask(r.cfg) == r.mask * HoldMask(r.cfg)
  {
    StoreAlwaysAgrees(s, ops, k + 1);
    StateAfter(s, ops, k);
    var b, e := StateAt(s, ops, k), ops[k].e;
    LastSaveTick(b, e);
    ElapsedBound(e.t0, b.lastSave);
    hide StateAt, TickFire, StoreAgrees;
    var f := TickFire(b, e).s;
    assert Tick(b, e).s == SaveHold(f, e);
    AgreesNow(StateAt(s, ops, k + 1));
  }

  lemma AgreesNow(s: State)
    requires StoreAgrees(s) && !s.savePending
    ensures Stored(s) * HoldMask(s.cfg) == s.mask * HoldMask(s.cfg)
  {
  }

  /** Flash wear: two store writes made by ticks are never less than 5 s apart in true time,
      however often the 32-bit clock wraps between or within them. */
  lemma SavesFiveSecondsApart(s: State, ops: seq<Op>, j: nat, k: nat)
    requires InOrder(ops) && j < k < |ops|
    requires WritesStore(StateAt(s, ops, j), ops[j]) && WritesStore(StateAt(s, ops, k), ops[k])
    ensures ops[k].e.t0 - ops[j].e.t0 >= 5000
  {
    LastSaveGrows(s, ops, j, k);
    LastSaveTick(StateAt(s, ops, k), ops[k].e);
    ElapsedBound(ops[k].e.t0, StateAt(s, ops, k).lastSave);
  }
}
