/** Runs of relay control: any sequence of commands, fail-safes, ticks and settings saves, from
    any source, under any bus, clock and store behaviour. */
module RelayRuns {
  import opened Board
  import opened RelayConfig
  import opened Expander
  import opened Timers
  import opened RelaySpec
  import opened RelayInvariant

  datatype Op =
    | DoCommand(channel: int, req: Request, src: Source, e: Env)
    | DoSkLost(e: Env)
    | DoTick(e: Env)
    | DoSave(cfg: Config, e: Env)

  function Apply(s: State, op: Op): Outcome {
    match op
    case DoCommand(channel, req, src, e) => Command(s, channel, req, src, e)
    case DoSkLost(e) => SkLost(s, e)
    case DoTick(e) => Tick(s, e)
    case DoSave(cfg, e) => UpdateConfig(s, cfg, e)
  }

  /** The state after the first `k` operations. */
  function StateAt(s: State, ops: seq<Op>, k: nat): State
    requires k <= |ops|
  {
    if k == 0 then s else Apply(StateAt(s, ops, k - 1), ops[k - 1]).s
  }

  /** Every settings save offers loaded settings and meets its guard when it happens. */
  predicate SavesAllowed(s: State, ops: seq<Op>) {
    forall k :: 0 <= k < |ops| && ops[k].DoSave? ==>
      && ValidPairs(ops[k].cfg)
      && SaveAllowed(StateAt(s, ops, k), ops[k].cfg, ops[k].e)
  }

  lemma StepKeeps(s: State, op: Op)
    requires Interlocked(s) && TimersMatch(s)
    requires op.DoSave? ==> ValidPairs(op.cfg) && SaveAllowed(s, op.cfg, op.e)
    ensures var r := Apply(s, op).s;
            && Interlocked(r) && TimersMatch(r)
            && SafeWrites(r.cfg, s.chip.log, r.chip.log)
            && r.cfg == (if op.DoSave? then op.cfg else s.cfg)
  {
    match op
    case DoCommand(channel, req, src, e) => CommandKeeps(s, channel, req, src, e);
    case DoSkLost(e) => SkLostKeeps(s, e);
    case DoTick(e) => TickKeeps(s, e);
    case DoSave(cfg, e) => SaveKeepsIffAllowed(s, cfg, e);
  }

  lemma {:induction false} RunKeeps(s: State, ops: seq<Op>, k: nat)
    requires Interlocked(s) && TimersMatch(s) && SavesAllowed(s, ops)
    requires k <= |ops|
    ensures Interlocked(StateAt(s, ops, k)) && TimersMatch(StateAt(s, ops, k))
    ensures k > 0 ==> SafeWrites(StateAt(s, ops, k).cfg, StateAt(s, ops, k - 1).chip.log, StateAt(s, ops, k).chip.log)
  {
    hide Apply, Interlocked, TimersMatch, SafeWrites;
    if k > 0 {
      RunKeeps(s, ops, k - 1);
      StepKeeps(StateAt(s, ops, k - 1), ops[k - 1]);
    }
  }

  /** Interlock safety: from power-on, through start-up (successful or not) and any run, under
      any expander failures, no value ever sent to the output register has both coils of a
      pair of the settings in force on. */
  lemma InterlockSafety(blank: State, cfg: Config, b: BootEnv, ops: seq<Op>, k: nat)
    requires Blank(blank) && ValidPairs(cfg)
    requires SavesAllowed(Boot(blank, cfg, b).s, ops)
    requires k <= |ops|
    ensures var s := Boot(blank, cfg, b).s;
            && SafeWrites(cfg, blank.chip.log, s.chip.log)
            && Interlocked(StateAt(s, ops, k)) && TimersMatch(StateAt(s, ops, k))
            && (k > 0 ==> SafeWrites(StateAt(s, ops, k).cfg, StateAt(s, ops, k - 1).chip.log,
                                     StateAt(s, ops, k).chip.log))
  {
    BootEstablishes(blank, cfg, b);
    RunKeeps(Boot(blank, cfg, b).s, ops, k);
  }

  lemma {:induction false} UnsavedRun(s: State, ops: seq<Op>, k: nat)
    requires Interlocked(s) && TimersMatch(s) && k <= |ops|
    requires forall j :: 0 <= j < |ops| ==> !ops[j].DoSave?
    ensures StateAt(s, ops, k).cfg == s.cfg
    ensures Interlocked(StateAt(s, ops, k)) && TimersMatch(StateAt(s, ops, k))
    ensures SafeWrites(s.cfg, s.chip.log, StateAt(s, ops, k).chip.log)
  {
    hide Apply, Interlocked, TimersMatch;
    if k > 0 {
      UnsavedRun(s, ops, k - 1);
      StepKeeps(StateAt(s, ops, k - 1), ops[k - 1]);
      SafeWritesChain(s.cfg, s.chip.log, StateAt(s, ops, k - 1).chip.log, StateAt(s, ops, k).chip.log);
    }
  }

  /** No relay is on together with the one its settings name. */
  predicate NotTogether(c: Config, m: Mask) {
    forall i: Channel, j: Channel :: c.relays[i].interlock == j + 1 ==> !({i, j} <= m)
  }

  predicate PairsApart(c: Config, log0: seq<BusWrite>, log: seq<BusWrite>) {
    forall k :: |log0| <= k < |log| && log[k].WroteOutput? ==> NotTogether(c, log[k].value)
  }

  /** With settings left alone, the whole register log since power-on is safe. */
  lemma InterlockSafetyFixedSettings(blank: State, cfg: Config, b: BootEnv, ops: seq<Op>)
    requires Blank(blank) && ValidPairs(cfg)
    requires forall j :: 0 <= j < |ops| ==> !ops[j].DoSave?
    ensures var log := StateAt(Boot(blank, cfg, b).s, ops, |ops|).chip.log;
            SafeWrites(cfg, blank.chip.log, log) && PairsApart(cfg, blank.chip.log, log)
  {
    hide SafeWrites;
    var s := Boot(blank, cfg, b).s;
    BootEstablishes(blank, cfg, b);
    UnsavedRun(s, ops, |ops|);
    SafeWritesChain(cfg, blank.chip.log, s.chip.log, StateAt(s, ops, |ops|).chip.log);
    SafeMeansApart(cfg, blank.chip.log, StateAt(s, ops, |ops|).chip.log);
  }

  lemma SafeMeansApart(c: Config, log0: seq<BusWrite>, log: seq<BusWrite>)
    requires SafeWrites(c, log0, log)
    ensures PairsApart(c, log0, log)
  {
    forall k | |log0| <= k < |log| && log[k].WroteOutput? ensures NotTogether(c, log[k].value) {
      assert ConflictFree(c, log[k].value);
      forall i: Channel, j: Channel | c.relays[i].interlock == j + 1 ensures !({i, j} <= log[k].value) {
        assert i in log[k].value ==> !PartnerIn(c, i, log[k].value);
      }
    }
  }

  // ------------------------------------------------- the saves that break it

  /** Two waiting relays that a save pairs up: once their dead times are over, one tick on a
      working bus writes both on. This is why a save needs its guard. */
  lemma PairedWaitersFireTogether(s: State, cfg: Config, e: Env, e2: Env, i: Channel)
    requires Interlocked(s) && TimersMatch(s) && ValidPairs(cfg)
    requires s.mask == {} && i in s.pending && PartnerIn(cfg, i, s.pending)
    requires Passed(e2.t0, s.pendingDue[i]) && Passed(e2.t0, s.pendingDue[Partner(cfg, i)])
    requires e2.w2.first == GOOD
    ensures var r := Tick(UpdateConfig(s, cfg, e).s, e2).s;
            && {i, Partner(cfg, i)} <= r.mask && !ConflictFree(cfg, r.mask)
            && !SafeWrites(cfg, s.chip.log, r.chip.log)
  {
    var p := Partner(cfg, i);
    AdoptFacts(s, cfg, e);
    var s1 := UpdateConfig(s, cfg, e).s;
    assert s1 == Adopt(s, cfg, e) by {
      ClearedIsConflictFree(cfg, s.mask);
    }
    assert s1.pulsing == {} && s1.limited == {};
    assert EndPulses(s1, e2) == s1;
    assert EndMaxOn(s1, e2) == s1;
    var fires := Fires(s1, e2.t0);
    assert {i, p} <= fires;
    var log := Tick(s1, e2).s.chip.log;
    assert log[|s.chip.log|] == WroteOutput(s1.mask + fires);
  }

  // A run that gets there: relays 1 and 2 and relays 3 and 4 are interlocked, then 1 and 3 are.

  const PLAIN: RelayCfg := RelayCfg(Latching, 0, DefaultSafe, false, 0, 0)

  function Paired(partner: nat): RelayCfg {
    PLAIN.(interlock := partner)
  }

  const BEFORE: Config :=
    Config([Paired(2), Paired(1), Paired(4), Paired(3), PLAIN, PLAIN, PLAIN, PLAIN], 500)
  const AFTER: Config :=
    Config([Paired(3), PLAIN, Paired(1), PLAIN, PLAIN, PLAIN, PLAIN, PLAIN], 500)

  /** A call at time `t` on a working bus. */
  function GoodBus(t: int): Env {
    var w := Attempts(GOOD, GOOD);
    Env(t, t, t, w, w, w, true)
  }

  lemma PlainOn(s: State, i: Channel, t: int)
    requires s.cfg == BEFORE && !PartnerIn(s.cfg, i, s.mask) && s.pending == {}
    ensures var r := Command(s, i + 1, On, Web, GoodBus(t)).s;
            r.cfg == s.cfg && r.mask == s.mask + {i} && r.pending == {}
  {
    hide TrackMaxOn, PartnerIn;
    var c := Commit(s, s.mask + {i}, GoodBus(t).w0);
    TrackFacts(c.s, s.mask, {i}, t);
  }

  lemma PlainDefer(s: State, i: Channel, t: int)
    requires s.cfg == BEFORE && PartnerIn(s.cfg, i, s.mask)
    ensures var r, p := Command(s, i + 1, On, Web, GoodBus(t)).s, Partner(s.cfg, i);
            && r.cfg == s.cfg && r.mask == s.mask - {p} && r.pending == s.pending - {p} + {i}
            && r.pendingDue == s.pendingDue[i := t + 500]
  {
  }

  /** The run that sets two unrelated relays waiting, pairs them, and ticks. */
  function BreakingRun(): seq<Op> {
    [DoCommand(2, On, Web, GoodBus(0)), DoCommand(4, On, Web, GoodBus(0)),
     DoCommand(1, On, Web, GoodBus(0)), DoCommand(3, On, Web, GoodBus(0)),
     DoSave(AFTER, GoodBus(0)), DoTick(GoodBus(500))]
  }

  lemma StateAfter(s: State, ops: seq<Op>, k: nat)
    requires k < |ops|
    ensures StateAt(s, ops, k + 1) == Apply(StateAt(s, ops, k), ops[k]).s
  {
  }

  /** From any start-up on, on a bus that never fails: the save is not allowed by its guard, and
      the tick after it writes both coils of the new pair on. */
  lemma UnguardedSaveBreaksInterlock(blank: State, b: BootEnv)
    requires Blank(blank)
    ensures ValidPairs(BEFORE) && ValidPairs(AFTER)
    ensures var s, ops := Boot(blank, BEFORE, b).s, BreakingRun();
            && !SavesAllowed(s, ops)
            && !SafeWrites(AFTER, StateAt(s, ops, 4).chip.log, StateAt(s, ops, 6).chip.log)
            && {0, 2} <= StateAt(s, ops, 6).mask
  {
    hide Command, Tick, UpdateConfig, StateAt, Boot, SaveAllowed;
    var s, ops := Boot(blank, BEFORE, b).s, BreakingRun();
    PairsOfBoth();
    BootEstablishes(blank, BEFORE, b);
    BootWaitsForNothing(blank, BEFORE, b);
    StateAtStart(s, ops);
    StateAfter(s, ops, 0);
    PlainOn(s, 1, 0);
    StateAfter(s, ops, 1);
    PlainOn(StateAt(s, ops, 1), 3, 0);
    StateAfter(s, ops, 2);
    PlainDefer(StateAt(s, ops, 2), 0, 0);
    StateAfter(s, ops, 3);
    PlainDefer(StateAt(s, ops, 3), 2, 0);
    var s4 := StateAt(s, ops, 4);
    assert s4.mask == {} && s4.pending == {0, 2};
    RunOfCommands(s, ops, 4);
    PairedWaitersFireTogether(s4, AFTER, GoodBus(0), GoodBus(500), 0);
    StateAfter(s, ops, 4);
    StateAfter(s, ops, 5);
    assert !SaveAllowed(s4, AFTER, GoodBus(0)) by {
      WaitingPairIsNotAllowed(s4, AFTER, GoodBus(0), 0);
    }
    assert ops[4].DoSave?;
  }

  /** A call at time `t` whose writes never land. */
  function DeadBus(t: int): Env {
    var lost := WriteAnswer(false, false, ReadFailed);
    var w := Attempts(lost, lost);
    Env(t, t, t, w, w, w, true)
  }

  /** Relays 1 and 3 are switched on, and paired while the bus is down. */
  function FailedClear(): seq<Op> {
    [DoCommand(1, On, Web, GoodBus(0)), DoCommand(3, On, Web, GoodBus(0)), DoSave(AFTER, DeadBus(0))]
  }

  /** The run that then switches relay 5 on. */
  function FailedClearRun(): seq<Op> {
    FailedClear() + [DoCommand(5, On, Web, GoodBus(0))]
  }

  lemma DeadSave(s: State)
    requires s.cfg == BEFORE && s.mask == {0, 2} && s.pending == {}
    ensures var r := UpdateConfig(s, AFTER, DeadBus(0)).s; r.cfg == AFTER && r.mask == {0, 2} && r.pending == {}
    ensures !SaveAllowed(s, AFTER, DeadBus(0))
  {
    var e := DeadBus(0);
    var s1 := Adopt(s, AFTER, e);
    AdoptFacts(s, AFTER, e);
    assert PartnerIn(AFTER, 0, s.mask) && PartnerIn(AFTER, 2, s.mask);
    assert Conflicts(AFTER, s.mask) == {0, 2};
    ClearConflictFacts(s1, {0, 2}, e);
  }

  lemma FifthOn(s: State)
    requires s.cfg == AFTER && s.mask == {0, 2} && s.pending == {}
    ensures var r := Command(s, 5, On, Web, GoodBus(0)).s;
            && r.mask == {0, 2, 4} && r.chip.log == s.chip.log + [WroteOutput({0, 2, 4})]
  {
    assert s.mask + {4} == {0, 2, 4};
  }

  lemma BothOn(s: State, ops: seq<Op>)
    requires FailedClear() <= ops && s.cfg == BEFORE && s.mask == {} && s.pending == {}
    ensures var r := StateAt(s, ops, 2); r.cfg == BEFORE && r.mask == {0, 2} && r.pending == {}
  {
    hide Command, StateAt;
    StateAtStart(s, ops);
    StateAfter(s, ops, 0);
    PlainOn(s, 0, 0);
    StateAfter(s, ops, 1);
    PlainOn(StateAt(s, ops, 1), 2, 0);
  }

  /** The state after the failed save, in any run that begins so. */
  lemma FailedClearStates(blank: State, b: BootEnv, ops: seq<Op>)
    requires Blank(blank) && FailedClear() <= ops
    ensures var s := Boot(blank, BEFORE, b).s; var r := StateAt(s, ops, 3);
            && !SavesAllowed(s, ops)
            && r.cfg == AFTER && r.mask == {0, 2} && r.pending == {}
  {
    hide UpdateConfig, StateAt, Boot, SaveAllowed;
    var s := Boot(blank, BEFORE, b).s;
    PairsOfBoth();
    BootEstablishes(blank, BEFORE, b);
    BootWaitsForNothing(blank, BEFORE, b);
    BothOn(s, ops);
    StateAfter(s, ops, 2);
    DeadSave(StateAt(s, ops, 2));
    assert ops[2].DoSave?;
  }

  /** From any start-up on: a save whose clearing write fails is not allowed by its guard, and a
      later command of a third relay writes both coils of the new pair on. */
  lemma FailedClearBreaksInterlock(blank: State, b: BootEnv)
    requires Blank(blank)
    ensures var s, ops := Boot(blank, BEFORE, b).s, FailedClearRun();
            && !SavesAllowed(s, ops)
            && !SafeWrites(AFTER, StateAt(s, ops, 3).chip.log, StateAt(s, ops, 4).chip.log)
  {
    hide Command, StateAt, Boot, SavesAllowed;
    var s, ops := Boot(blank, BEFORE, b).s, FailedClearRun();
    FailedClearStates(blank, b, ops);
    var s3, s4 := StateAt(s, ops, 3), StateAt(s, ops, 4);
    StateAfter(s, ops, 3);
    FifthOn(s3);
    assert s4.chip.log[|s3.chip.log|] == WroteOutput({0, 2, 4});
    assert PartnerIn(AFTER, 0, {0, 2, 4});
  }

  predicate PairOk(c: Config, i: Channel) {
    var p := Partner(c, i);
    p != -1 ==> 0 <= p < CHANNELS && p != i && Partner(c, p) == i
  }

  lemma ValidByPair(c: Config)
    requires forall i: Channel :: PairOk(c, i)
    ensures ValidPairs(c)
  {
    forall i: Channel | Partner(c, i) != -1
      ensures var p := Partner(c, i); 0 <= p < CHANNELS && p != i && Partner(c, p) == i
    {
      assert PairOk(c, i);
    }
  }

  lemma PairsOf(c: Config)
    requires c == BEFORE || c == AFTER
    ensures ValidPairs(c)
  {
    hide ValidPairs;
    forall i: Channel ensures PairOk(c, i) {
      assert Partner(c, i) != -1 ==> i in {0, 1, 2, 3};
    }
    ValidByPair(c);
  }

  lemma PairsOfBoth()
    ensures ValidPairs(BEFORE) && ValidPairs(AFTER) && HoldMask(BEFORE) == {}
  {
    PairsOf(BEFORE);
    PairsOf(AFTER);
  }

  lemma StateAtStart(s: State, ops: seq<Op>)
    ensures StateAt(s, ops, 0) == s
  {
  }

  lemma BootWaitsForNothing(blank: State, cfg: Config, b: BootEnv)
    ensures Boot(blank, cfg, b).s.pending == {}
  {
  }

  lemma WaitingPairIsNotAllowed(s: State, cfg: Config, e: Env, i: Channel)
    requires i in s.pending && PartnerIn(cfg, i, s.pending)
    ensures !SaveAllowed(s, cfg, e)
  {
  }

  lemma {:induction false} RunOfCommands(s: State, ops: seq<Op>, k: nat)
    requires Interlocked(s) && TimersMatch(s) && k <= |ops|
    requires forall j :: 0 <= j < k ==> !ops[j].DoSave?
    ensures Interlocked(StateAt(s, ops, k)) && TimersMatch(StateAt(s, ops, k))
  {
    hide Apply, Interlocked, TimersMatch, SafeWrites;
    if k > 0 {
      RunOfCommands(s, ops, k - 1);
      StepKeeps(StateAt(s, ops, k - 1), ops[k - 1]);
    }
  }
}
