/** What relay control does for its callers: requests are carried out, nothing else is touched, and
    a failed write changes no relay. On and off are meant as in the confirmed mask; RelayPins says
    what follows for the coils. */
module RelayService {
  import opened Board
  import opened Clock32
  import opened RelayConfig
  import opened Expander
  import opened Timers
  import opened RelaySpec
  import opened RelayInvariant
  import opened RelayCause
  import opened RelayPins

  /** A request is refused exactly for a channel that does not exist, and fails exactly when the
      expander confirmed neither attempt; then the mask stays and nobody is told anything. */
  lemma CommandErrors(s: State, channel: int, req: Request, src: Source, e: Env)
    ensures var o := Command(s, channel, req, src, e);
            && (o.err == InvalidArg <==> !(1 <= channel <= CHANNELS))
            && (o.err == BusError <==>
                  1 <= channel <= CHANNELS
                  && !Takes(s, CommandTarget(s, channel - 1, WantsOn(s, channel - 1, req)), e.w0))
            && (o.err != Ok ==> o.s.mask == s.mask && o.events == [])
  {
    if 1 <= channel <= CHANNELS {
      CommandCommits(s, channel, req, src, e);
      SameMaskSilent(s.cfg, s.mask, src);
      hide CommandTarget, SwitchOff, Defer, Energise;
    }
  }

  lemma SameMaskSilent(c: Config, mask: Mask, src: Source)
    ensures Notify(c, mask, mask, src) == []
  {
    var r := Reported(c, mask);
    assert Xor(r, r) == {};
    NothingChanged(0, r, src);
  }

  lemma {:induction false} NothingChanged(i: int, after: Mask, src: Source)
    requires 0 <= i <= CHANNELS
    ensures NotifyFrom(i, {}, after, src) == []
    decreases CHANNELS - i
  {
    if i < CHANNELS {
      NothingChanged(i + 1, after, src);
    }
  }

  /** The state a request asks relay `i` to report: on, off, or the opposite of now. */
  predicate Asked(s: State, i: Channel, req: Request) {
    match req
    case On => true
    case Off => false
    case Toggle => i !in Reported(s.cfg, s.mask)
  }

  /** The coil level that reports it: energised for on, unless the load is wired to the NC contact. */
  predicate CoilAsked(s: State, i: Channel, req: Request) {
    Asked(s, i, req) != s.cfg.relays[i].wiredNc
  }

  lemma WantsAsAsked(s: State, i: Channel, req: Request)
    ensures WantsOn(s, i, req) <==> CoilAsked(s, i, req)
  {
  }

  /** The relay asked for is off and not waiting, or on, or waiting for its partner's dead time;
      the partner of a relay asked on is off and not waiting; nothing else is touched. */
  predicate Carried(s: State, i: Channel, on: bool, src: Source, e: Env, r: State) {
    && (if on then i in r.mask + r.pending else i !in r.mask + r.pending)
    && (on ==> !PartnerIn(s.cfg, i, r.mask) && !PartnerIn(s.cfg, i, r.pending))
    && (on && PartnerIn(s.cfg, i, s.mask) ==>
          i in r.pending && r.pendingDue[i] == e.t1 + s.cfg.deadMs && r.pendingSrc[i] == src)
    && (on && i !in s.pending && !PartnerIn(s.cfg, i, s.mask) ==> i in r.mask)
    && forall j: Channel :: j != i && j != Partner(s.cfg, i) ==>
         (j in r.mask <==> j in s.mask) && (j in r.pending <==> j in s.pending)
  }

  lemma OffCarried(s: State, i: Channel, src: Source, e: Env)
    requires SwitchOff(s, i, e).ok
    ensures Carried(s, i, false, src, e, SwitchOff(s, i, e).s)
  {
    OffCause(s, i, e);
    var s1 := s.(pending := s.pending - {i});
    CommitFacts(s1, s1.mask - {i}, e.w0);
  }

  lemma DeferCarried(s: State, i: Channel, src: Source, e: Env)
    requires Interlocked(s) && PartnerIn(s.cfg, i, s.mask) && Defer(s, i, Partner(s.cfg, i), src, e).ok
    ensures Carried(s, i, true, src, e, Defer(s, i, Partner(s.cfg, i), src, e).s)
  {
    var p := Partner(s.cfg, i);
    DeferCause(s, i, p, src, e);
    CommitFacts(s, s.mask - {p}, e.w0);
  }

  lemma EnergiseCarried(s: State, i: Channel, src: Source, e: Env)
    requires Interlocked(s) && !PartnerIn(s.cfg, i, s.mask) && Energise(s, i, e).ok
    ensures Carried(s, i, true, src, e, Energise(s, i, e).s)
  {
    CommitFacts(s, s.mask + {i}, e.w0);
  }

  /** Every command that succeeds is carried out. */
  lemma CommandTakesEffect(s: State, channel: int, req: Request, src: Source, e: Env)
    requires Interlocked(s) && 1 <= channel <= CHANNELS
    requires Command(s, channel, req, src, e).err == Ok
    ensures Carried(s, channel - 1, CoilAsked(s, channel - 1, req), src, e, Command(s, channel, req, src, e).s)
  {
    hide SwitchOff, Defer, Energise, CoilAsked;
    var i: Channel := channel - 1;
    WantsAsAsked(s, i, req);
    if !WantsOn(s, i, req) {
      OffCarried(s, i, src, e);
    } else if PartnerIn(s.cfg, i, s.mask) {
      DeferCarried(s, i, src, e);
    } else if i !in s.pending {
      EnergiseCarried(s, i, src, e);
    }
  }

  /** What callers see, whatever the wiring: after a command that succeeds, a relay that is not waiting
      reports what was asked: on, off, or the opposite of before. It waits exactly when that takes its
      coil on while its partner's is, or while it waits already. */
  lemma ReportsWhatWasAsked(s: State, channel: int, req: Request, src: Source, e: Env)
    requires Interlocked(s) && 1 <= channel <= CHANNELS && Command(s, channel, req, src, e).err == Ok
    ensures var i := channel - 1; var r := Command(s, channel, req, src, e).s;
            && (i !in r.pending ==> (i in Reported(r.cfg, r.mask) <==> Asked(s, i, req)))
            && (i in r.pending <==>
                  CoilAsked(s, i, req) && (PartnerIn(s.cfg, i, s.mask) || i in s.pending))
  {
    hide Command, Interlocked;
    var i: Channel := channel - 1;
    CommandTakesEffect(s, channel, req, src, e);
    CommandKeeps(s, channel, req, src, e);
    WaitsAfter(s, channel, req, src, e);
    if i in Command(s, channel, req, src, e).s.pending {
      WaitingIsOff(Command(s, channel, req, src, e).s, i);
    }
  }

  lemma WaitsAfter(s: State, channel: int, req: Request, src: Source, e: Env)
    requires 1 <= channel <= CHANNELS
    ensures var i, r := channel - 1, Command(s, channel, req, src, e).s;
            && (i in r.pending && i !in s.pending ==> PartnerIn(s.cfg, i, s.mask))
            && (CoilAsked(s, i, req) && i in s.pending && !PartnerIn(s.cfg, i, s.mask) ==> i in r.pending)
  {
    hide SwitchOff, Defer, Energise, CoilAsked;
    var i: Channel := channel - 1;
    WantsAsAsked(s, i, req);
    if !WantsOn(s, i, req) {
      OffCause(s, i, e);
    } else if !PartnerIn(s.cfg, i, s.mask) {
      EnergiseCause(s, i, e);
    }
  }

  /** A waiting relay whose dead time is over comes on at the next tick whose write succeeds,
      unless its partner is on; and the tick starts no wait. */
  lemma WaitingFires(s: State, e: Env, i: Channel)
    requires Interlocked(s) && i in s.pending && Passed(e.t0, s.pendingDue[i])
    requires !PartnerIn(s.cfg, i, s.mask) && e.w2.first == GOOD
    ensures var r := Tick(s, e).s; i in r.mask && i !in r.pending && r.pending <= s.pending
  {
    EndingCause(s, e);
    var s2 := TickMaxOn(s, e);
    assert s2.mask <= s.mask;
    assert i in Fires(s2, e.t0);
    FireCause(s2, e, i);
    assert i !in s2.mask;
    FiredComesOn(s2, e, i);
  }

  lemma FiredComesOn(s: State, e: Env, i: Channel)
    requires i in Fires(s, e.t0) && i !in s.mask && e.w2.first == GOOD
    ensures var r := FirePending(s, e).s; i in r.mask && i !in r.pending
  {
    var fires := Fires(s, e.t0);
    assert s.mask + fires != s.mask;
  }

  /** Break before make: asking for a relay whose partner is on switches the partner off at once
      and this one on at the first tick after the dead time, on a bus that works. */
  lemma BreakBeforeMake(s: State, i: Channel, src: Source, e: Env, e2: Env)
    requires Interlocked(s) && PartnerIn(s.cfg, i, s.mask) && !s.cfg.relays[i].wiredNc
    requires e.w0.first == GOOD && e2.w2.first == GOOD
    requires e.t1 + s.cfg.deadMs <= e2.t0 < e.t1 + s.cfg.deadMs + HALF
    ensures var p, r := Partner(s.cfg, i), Command(s, i + 1, On, src, e).s;
            && p !in r.mask && i !in r.mask
            && i in Tick(r, e2).s.mask && p !in Tick(r, e2).s.mask
  {
    hide Tick, Command, Interlocked;
    var p, r := Partner(s.cfg, i), Command(s, i + 1, On, src, e).s;
    GoodDefers(s, i, src, e);
    CommandTakesEffect(s, i + 1, On, src, e);
    CommandKeeps(s, i + 1, On, src, e);
    WaitingIsOff(r, i);
    DeadlineAgrees(e2.t0, e.t1 + s.cfg.deadMs);
    WaitingFires(r, e2, i);
    TickKeeps(r, e2);
    OnlyOneOn(Tick(r, e2).s, i);
  }

  lemma WaitingIsOff(s: State, i: Channel)
    requires Interlocked(s) && i in s.pending
    ensures i !in s.mask
  {
  }

  lemma OnlyOneOn(s: State, i: Channel)
    requires Interlocked(s) && i in s.mask
    ensures !PartnerIn(s.cfg, i, s.mask)
  {
  }

  lemma GoodDefers(s: State, i: Channel, src: Source, e: Env)
    requires PartnerIn(s.cfg, i, s.mask) && e.w0.first == GOOD && !s.cfg.relays[i].wiredNc
    ensures Command(s, i + 1, On, src, e).err == Ok
  {
  }

  /** Fail-safe leaves every hold relay as it is, on or off, waiting or not. */
  lemma FailSafeSparesHold(s: State, e: Env, i: Channel)
    requires s.cfg.relays[i].mode == Latching && s.cfg.relays[i].failsafe == Hold
    ensures var r := SkLost(s, e).s; (i in r.mask <==> i in s.mask) && (i in r.pending <==> i in s.pending)
  {
    CommitFacts(s, s.mask - (ALL - HoldMask(s.cfg)), e.w0);
  }

  /** A settings save switches off exactly the relays the new settings put in conflict, when its
      write succeeds, and none when it does not. */
  lemma SaveTouchesOnlyConflicts(s: State, cfg: Config, e: Env)
    ensures var r, clear := UpdateConfig(s, cfg, e).s, s.mask - Conflicts(cfg, s.mask);
            r.mask == (if Takes(s, clear, e.w0) then clear else s.mask)
  {
    AdoptFacts(s, cfg, e);
    var s1 := Adopt(s, cfg, e);
    var conflict := Conflicts(cfg, s.mask);
    ClearConflictFacts(s1, conflict, e);
    CommitFacts(s1, s1.mask - conflict, e.w0);
  }
}
