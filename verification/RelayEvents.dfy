/** What listeners hear. Replaying the events of an operation over the old reported mask gives the
    new one, one event for each flipped bit, with two exceptions, each with its exact condition: a
    tick reports again a relay that fires while on, which takes a settings save outside its guard;
    and a save that rewires a relay without switching its coil tells nobody. */
module RelayEvents {
  import opened Board
  import opened RelayConfig
  import opened Timers
  import opened RelaySpec
  import opened RelayInvariant
  import opened RelayRuns
  import opened RelayCause
  import opened RelayService

  /** A listener's view after one event. */
  function Hear(m: Mask, ev: Event): Mask
    requires 1 <= ev.channel <= CHANNELS
  {
    if ev.on then m + {ev.channel - 1} else m - {ev.channel - 1}
  }

  predicate InRange(evs: seq<Event>) {
    forall k :: 0 <= k < |evs| ==> 1 <= evs[k].channel <= CHANNELS
  }

  function Replay(m: Mask, evs: seq<Event>): Mask
    requires InRange(evs)
    decreases |evs|
  {
    if evs == [] then m else Replay(Hear(m, evs[0]), evs[1..])
  }

  predicate Distinct(evs: seq<Event>) {
    forall j, k :: 0 <= j < k < |evs| ==> evs[j].channel != evs[k].channel
  }

  /** `evs` reports exactly the change from `before` to `after`: every flipped channel once,
      with its new state, nothing else. */
  predicate Exact(evs: seq<Event>, before: Mask, after: Mask) {
    && InRange(evs)
    && Replay(before, evs) == after
    && Distinct(evs)
    && forall k :: 0 <= k < |evs| ==> evs[k].channel - 1 in Xor(before, after)
  }

  lemma {:induction false} ReplayConcat(m: Mask, a: seq<Event>, b: seq<Event>)
    requires InRange(a) && InRange(b)
    ensures InRange(a + b) && Replay(m, a + b) == Replay(Replay(m, a), b)
    decreases |a|
  {
    if a == [] {
      assert a + b == b;
    } else {
      assert (a + b)[1..] == a[1..] + b;
      ReplayConcat(Hear(m, a[0]), a[1..], b);
    }
  }

  /** Events whose channels are `chans` from `lo` up, in channel order, telling `after`. */
  ghost predicate Tells(evs: seq<Event>, chans: Mask, after: Mask, lo: int) {
    && InRange(evs)
    && (forall k :: 0 <= k < |evs| ==> evs[k].channel > lo && evs[k].channel - 1 in chans)
    && (forall k :: 0 <= k < |evs| ==> (evs[k].on <==> evs[k].channel - 1 in after))
    && (forall j, k :: 0 <= j < k < |evs| ==> evs[j].channel < evs[k].channel)
    && (forall m: Mask {:trigger Replay(m, evs)} ::
          Replay(m, evs) == (m - (chans - Below(lo))) + after * (chans - Below(lo)))
  }

  lemma BelowNext(lo: Channel)
    ensures Below(lo + 1) == Below(lo) + {lo}
  {
    forall c: Channel ensures c in Below(lo + 1) <==> c in Below(lo) + {lo} {
      assert c in ALL;
    }
  }

  lemma HearFirst(m: Mask, ev: Event, rest: Mask, after: Mask, lo: Channel)
    requires ev.channel == lo + 1 && (ev.on <==> lo in after) && lo !in rest
    ensures (Hear(m, ev) - rest) + after * rest == (m - (rest + {lo})) + after * (rest + {lo})
  {
  }

  lemma TellsCons(ev: Event, evs: seq<Event>, chans: Mask, after: Mask, lo: int)
    requires 0 <= lo < CHANNELS && lo in chans && Tells(evs, chans, after, lo + 1)
    requires ev.channel == lo + 1 && (ev.on <==> lo in after)
    ensures Tells([ev] + evs, chans, after, lo)
  {
    hide Hear, Below;
    BelowNext(lo);
    var all, rest := [ev] + evs, chans - Below(lo + 1);
    assert all[1..] == evs;
    BelowSkips(lo);
    assert chans - Below(lo) == rest + {lo};
    forall m: Mask ensures Replay(m, all) == (m - (chans - Below(lo))) + after * (chans - Below(lo)) {
      assert Replay(m, all) == Replay(Hear(m, ev), evs);
      HearFirst(m, ev, rest, after, lo);
    }
  }

  lemma BelowSkips(lo: Channel)
    ensures lo !in Below(lo)
  {
  }

  lemma TellsSkip(evs: seq<Event>, chans: Mask, after: Mask, lo: int)
    requires 0 <= lo < CHANNELS && lo !in chans && Tells(evs, chans, after, lo + 1)
    ensures Tells(evs, chans, after, lo)
  {
    BelowNext(lo);
    assert chans - Below(lo) == chans - Below(lo + 1);
  }

  lemma TellsNone(chans: Mask, after: Mask)
    ensures Tells([], chans, after, CHANNELS)
  {
    assert Below(CHANNELS) == ALL;
    assert chans - Below(CHANNELS) == {};
  }

  lemma {:induction false} NotifyTells(i: int, changed: Mask, after: Mask, src: Source)
    requires 0 <= i <= CHANNELS
    ensures Tells(NotifyFrom(i, changed, after, src), changed, after, i)
    decreases CHANNELS - i
  {
    if i == CHANNELS {
      TellsNone(changed, after);
    } else {
      var rest := NotifyFrom(i + 1, changed, after, src);
      NotifyTells(i + 1, changed, after, src);
      var ev := Event(i + 1, i in after, src, after);
      assert NotifyFrom(i, changed, after, src) == if i in changed then [ev] + rest else rest;
      if i in changed {
        TellsCons(ev, rest, changed, after, i);
      } else {
        TellsSkip(rest, changed, after, i);
      }
    }
  }

  lemma {:induction false} NotifyOne(i: int, c: Channel, after: Mask, src: Source)
    requires 0 <= i <= CHANNELS
    ensures NotifyFrom(i, {c}, after, src) == if i <= c then [Event(c + 1, c in after, src, after)] else []
    decreases CHANNELS - i
  {
    if i < CHANNELS {
      NotifyOne(i + 1, c, after, src);
    }
  }

  lemma {:induction false} FiredTells(i: int, fired: Mask, after: Mask, srcs: Sources)
    requires 0 <= i <= CHANNELS
    ensures Tells(FiredEvents(i, fired, after, srcs), fired, after, i)
    decreases CHANNELS - i
  {
    if i == CHANNELS {
      TellsNone(fired, after);
    } else {
      var rest := FiredEvents(i + 1, fired, after, srcs);
      FiredTells(i + 1, fired, after, srcs);
      NotifyOne(0, i, after, srcs[i]);
      var ev := Event(i + 1, i in after, srcs[i], after);
      assert FiredEvents(i, fired, after, srcs) == if i in fired then [ev] + rest else rest;
      if i in fired {
        TellsCons(ev, rest, fired, after, i);
      } else {
        TellsSkip(rest, fired, after, i);
      }
    }
  }

  lemma TellsExact(evs: seq<Event>, chans: Mask, before: Mask, after: Mask)
    requires Tells(evs, chans, after, 0) && chans == Xor(before, after)
    ensures Exact(evs, before, after)
  {
    assert Below(0) == {};
  }

  lemma NotifyExact(c: Config, before: Mask, after: Mask, src: Source)
    ensures Exact(Notify(c, before, after, src), Reported(c, before), Reported(c, after))
  {
    var b, a := Reported(c, before), Reported(c, after);
    NotifyTells(0, Xor(b, a), a, src);
    TellsExact(NotifyBits(Xor(b, a), a, src), Xor(b, a), b, a);
  }

  /** Replaying events leaves every channel they do not name alone. */
  lemma {:induction false} UnnamedUnchanged(m: Mask, evs: seq<Event>, c: Channel)
    requires InRange(evs) && forall k :: 0 <= k < |evs| ==> evs[k].channel != c + 1
    ensures c in Replay(m, evs) <==> c in m
    decreases |evs|
  {
    if evs != [] {
      UnnamedUnchanged(Hear(m, evs[0]), evs[1..], c);
    }
  }

  lemma TellsSettles(evs: seq<Event>, chans: Mask, after: Mask, c: Channel)
    requires Tells(evs, chans, after, 0) && c in chans
    ensures c in Replay({}, evs) <==> c in Replay(ALL, evs)
  {
    assert Below(0) == {};
    assert Replay({}, evs) == ({} - (chans - Below(0))) + after * (chans - Below(0));
    assert Replay(ALL, evs) == (ALL - (chans - Below(0))) + after * (chans - Below(0));
  }

  /** Events that tell of `chans` name each of them. */
  lemma TellsNames(evs: seq<Event>, chans: Mask, after: Mask, c: Channel) returns (k: nat)
    requires Tells(evs, chans, after, 0) && c in chans
    ensures k < |evs| && evs[k].channel == c + 1
  {
    TellsSettles(evs, chans, after, c);
    if j :| 0 <= j < |evs| && evs[j].channel == c + 1 {
      k := j;
    } else {
      UnnamedUnchanged({}, evs, c);
      UnnamedUnchanged(ALL, evs, c);
      assert false;
    }
  }

  /** Two exact reports of disjoint changes make one. */
  lemma ExactChain(a: seq<Event>, b: seq<Event>, m0: Mask, m1: Mask, m2: Mask)
    requires Exact(a, m0, m1) && Exact(b, m1, m2) && Xor(m0, m1) !! Xor(m1, m2)
    ensures Exact(a + b, m0, m2)
  {
    hide Replay, Xor;
    ReplayConcat(m0, a, b);
    XorChain(m0, m1, m2);
    forall j, k | 0 <= j < k < |a + b| ensures (a + b)[j].channel != (a + b)[k].channel {
      if j < |a| <= k {
        assert a[j].channel - 1 in Xor(m0, m1) && b[k - |a|].channel - 1 in Xor(m1, m2);
      }
    }
  }

  lemma XorChain(m0: Mask, m1: Mask, m2: Mask)
    requires Xor(m0, m1) !! Xor(m1, m2)
    ensures Xor(m0, m2) == Xor(m0, m1) + Xor(m1, m2)
  {
  }

  lemma ReportedFlips(c: Config, m0: Mask, m1: Mask)
    ensures Xor(Reported(c, m0), Reported(c, m1)) == Xor(m0, m1)
  {
  }

  lemma FirePhase(s: State, e: Env)
    ensures var f := FirePending(s, e);
            && f.s.cfg == s.cfg && f.s.mask == s.mask + f.fired && f.fired <= s.pending
  {
    var fires := Fires(s, e.t0);
    var s1 := s.(pending := s.pending - (DuePending(s, e.t0) - fires));
    CommitFacts(s1, s1.mask + fires, e.w2);
  }

  lemma TickPhases(s: State, e: Env)
    ensures var s1, s2, f := TickPulses(s, e), TickMaxOn(s, e), TickFire(s, e);
            && s1.cfg == s.cfg && s2.cfg == s.cfg && f.s.cfg == s.cfg
            && Tick(s, e).s.mask == f.s.mask && Tick(s, e).s.cfg == s.cfg
            && s2.mask <= s1.mask <= s.mask && f.s.mask == s2.mask + f.fired && f.fired <= s.pending
  {
    var s1 := TickPulses(s, e);
    EndingCause(s, e);
    CommitFacts(s, s.mask - EndedPulses(s, e.t0), e.w0);
    CommitFacts(s1, s1.mask - ExpiredLimits(s1, e.t0), e.w1);
    FirePhase(TickMaxOn(s, e), e);
  }

  /** `evs` lead a listener from `before` to `after`, each naming a channel. */
  predicate Leads(evs: seq<Event>, before: Mask, after: Mask) {
    InRange(evs) && Replay(before, evs) == after
  }

  /** Coils going off in two phases, then others coming on: the three reports together. */
  lemma PhasesExact(c: Config, k0: Mask, k1: Mask, k2: Mask, k3: Mask, srcs: Sources)
    requires k2 <= k1 <= k0 && k2 <= k3 && k3 - k2 !! k0
    ensures Exact(Notify(c, k0, k1, PulseEnd) + Notify(c, k1, k2, MaxOn)
                  + FiredEvents(0, k3 - k2, Reported(c, k3), srcs), Reported(c, k0), Reported(c, k3))
  {
    var m0, m1, m2, m3 := Reported(c, k0), Reported(c, k1), Reported(c, k2), Reported(c, k3);
    var a, b, d := Notify(c, k0, k1, PulseEnd), Notify(c, k1, k2, MaxOn), FiredEvents(0, k3 - k2, m3, srcs);
    NotifyExact(c, k0, k1, PulseEnd);
    NotifyExact(c, k1, k2, MaxOn);
    ReportedFlips(c, k0, k1);
    ReportedFlips(c, k1, k2);
    ReportedFlips(c, k0, k2);
    ReportedFlips(c, k2, k3);
    FiredTells(0, k3 - k2, m3, srcs);
    TellsExact(d, k3 - k2, m2, m3);
    ExactChain(a, b, m0, m1, m2);
    ExactChain(a + b, d, m0, m2, m3);
  }

  lemma FiredLead(c: Config, k: Mask, fired: Mask, srcs: Sources)
    ensures Leads(FiredEvents(0, fired, Reported(c, k + fired), srcs), Reported(c, k), Reported(c, k + fired))
  {
    hide FiredEvents;
    var before, after := Reported(c, k), Reported(c, k + fired);
    FiredTells(0, fired, after, srcs);
    assert Below(0) == {};
    assert (before - fired) + after * fired == after;
    assert Replay(before, FiredEvents(0, fired, after, srcs))
           == (before - (fired - Below(0))) + after * (fired - Below(0));
  }

  lemma LeadsChain(a: seq<Event>, b: seq<Event>, m0: Mask, m1: Mask, m2: Mask)
    requires Leads(a, m0, m1) && Leads(b, m1, m2)
    ensures Leads(a + b, m0, m2)
  {
    hide Replay;
    ReplayConcat(m0, a, b);
  }

  /** The same phases when relays that were on may fire too. */
  lemma PhasesLead(c: Config, k0: Mask, k1: Mask, k2: Mask, fired: Mask, srcs: Sources)
    ensures Leads(Notify(c, k0, k1, PulseEnd) + Notify(c, k1, k2, MaxOn)
                  + FiredEvents(0, fired, Reported(c, k2 + fired), srcs), Reported(c, k0), Reported(c, k2 + fired))
  {
    hide Replay, Notify, Reported, FiredEvents, Distinct, InRange;
    var m0, m1, m2, m3 := Reported(c, k0), Reported(c, k1), Reported(c, k2), Reported(c, k2 + fired);
    var a, b, d := Notify(c, k0, k1, PulseEnd), Notify(c, k1, k2, MaxOn), FiredEvents(0, fired, m3, srcs);
    NotifyExact(c, k0, k1, PulseEnd);
    NotifyExact(c, k1, k2, MaxOn);
    FiredLead(c, k2, fired, srcs);
    LeadsChain(a, b, m0, m1, m2);
    LeadsChain(a + b, d, m0, m2, m3);
  }

  // ------------------------------------------------ when a tick's events are exact

  /** Relay `i` is on, yet waits, is due and fires: its partner is off when the tick comes to it, and
      the tick's write is confirmed. */
  predicate FiresAgain(s: State, e: Env, i: Channel) {
    var s2 := TickMaxOn(s, e);
    && i in s.mask && i in s.pending && Passed(e.t0, s.pendingDue[i])
    && !PartnerIn(s.cfg, i, s2.mask) && Takes(s2, s2.mask + Fires(s2, e.t0), e.w2)
  }

  lemma FiredAgain(s: State, e: Env, i: Channel)
    ensures i in TickFire(s, e).fired && i in s.mask <==> FiresAgain(s, e, i)
  {
    hide EndPulses, EndMaxOn, PartnerIn, TwoAttempts, FirePending;
    EndingCause(s, e);
    FiredAre(TickMaxOn(s, e), e);
  }

  lemma FiredAre(s: State, e: Env)
    ensures FirePending(s, e).fired
         == if Takes(s, s.mask + Fires(s, e.t0), e.w2) then Fires(s, e.t0) else {}
  {
    var fires := Fires(s, e.t0);
    assert fires == {} ==> s.mask + fires == s.mask;
  }

  /** In any state, a tick's events are one for each flipped bit exactly when no relay fires that was
      on already. */
  lemma TickExactIff(s: State, e: Env)
    ensures Exact(Tick(s, e).events, Reported(s.cfg, s.mask), Reported(s.cfg, Tick(s, e).s.mask))
       <==> forall i: Channel :: !FiresAgain(s, e, i)
  {
    hide Tick, Exact, FiresAgain, TickFire;
    forall i: Channel ensures i in TickFire(s, e).fired && i in s.mask <==> FiresAgain(s, e, i) {
      FiredAgain(s, e, i);
    }
    if i: Channel :| i in TickFire(s, e).fired && i in s.mask {
      FiredTwice(s, e, i);
    } else {
      NoneFiredTwice(s, e);
    }
  }

  lemma NoneFiredTwice(s: State, e: Env)
    requires TickFire(s, e).fired !! s.mask
    ensures Exact(Tick(s, e).events, Reported(s.cfg, s.mask), Reported(s.cfg, Tick(s, e).s.mask))
  {
    hide TickPulses, TickMaxOn, TickFire, Notify, Reported, FiredEvents, Exact;
    TickPhases(s, e);
    var s2, f := TickMaxOn(s, e), TickFire(s, e);
    assert f.fired == f.s.mask - s2.mask;
    PhasesExact(s.cfg, s.mask, TickPulses(s, e).mask, s2.mask, f.s.mask, s2.pendingSrc);
  }

  /** A relay that fires while on is reported, although it did not flip. */
  lemma FiredTwice(s: State, e: Env, i: Channel)
    requires i in TickFire(s, e).fired && i in s.mask
    ensures !Exact(Tick(s, e).events, Reported(s.cfg, s.mask), Reported(s.cfg, Tick(s, e).s.mask))
  {
    hide TickPulses, TickMaxOn, TickFire, Notify, Reported, FiredEvents, Replay;
    TickPhases(s, e);
    var f, evs := TickFire(s, e), Tick(s, e).events;
    var after, srcs := Reported(s.cfg, f.s.mask), TickMaxOn(s, e).pendingSrc;
    var fired := FiredEvents(0, f.fired, after, srcs);
    FiredTells(0, f.fired, after, srcs);
    var k := TellsNames(fired, f.fired, after, i);
    assert evs[|evs| - |fired| + k] == fired[k];
    ReportedFlips(s.cfg, s.mask, f.s.mask);
  }

  lemma TickEventsLead(s: State, e: Env)
    ensures var r := Tick(s, e);
            r.s.cfg == s.cfg && Leads(r.events, Reported(s.cfg, s.mask), Reported(s.cfg, r.s.mask))
  {
    hide TickPulses, TickMaxOn, TickFire, Notify, Reported, FiredEvents, Leads;
    TickPhases(s, e);
    var s2, f := TickMaxOn(s, e), TickFire(s, e);
    PhasesLead(s.cfg, s.mask, TickPulses(s, e).mask, s2.mask, f.fired, s2.pendingSrc);
  }

  // ---------------------------------------------------- saves that rewire a relay

  /** The relays a save rewires: those that change between NC and NO. */
  function Rewired(s: State, cfg: Config): Mask {
    Xor(WiredNcMask(s.cfg), WiredNcMask(cfg))
  }

  /** The coils a save switches: those newly in conflict, if its write takes. */
  function Switched(s: State, cfg: Config, e: Env): Mask {
    var conflict := Conflicts(cfg, s.mask);
    if Takes(s, s.mask - conflict, e.w0) then conflict else {}
  }

  lemma SaveSwitches(s: State, cfg: Config, e: Env)
    ensures Xor(s.mask, UpdateConfig(s, cfg, e).s.mask) == Switched(s, cfg, e)
  {
    hide UpdateConfig, TwoAttempts;
    SaveTouchesOnlyConflicts(s, cfg, e);
  }

  lemma SaveTells(s: State, cfg: Config, e: Env)
    ensures var r := UpdateConfig(s, cfg, e);
            Tells(r.events, Switched(s, cfg, e), Reported(cfg, r.s.mask), 0)
  {
    hide Tells;
    var after := UpdateConfig(s, cfg, e).s.mask;
    SaveSwitches(s, cfg, e);
    ReportedFlips(cfg, s.mask, after);
    NotifyTells(0, Switched(s, cfg, e), Reported(cfg, after), Interlock);
  }

  /** A save's events lead a listener from what it was told before to what is reported now exactly
      when the save switches the coil of every relay that it rewires. */
  lemma SaveLeadsIff(s: State, cfg: Config, e: Env)
    ensures var r := UpdateConfig(s, cfg, e);
            Leads(r.events, Reported(s.cfg, s.mask), Reported(cfg, r.s.mask))
            <==> Rewired(s, cfg) <= Switched(s, cfg, e)
  {
    hide UpdateConfig, Switched, Replay;
    var r, changed := UpdateConfig(s, cfg, e), Switched(s, cfg, e);
    SaveSwitches(s, cfg, e);
    SaveTells(s, cfg, e);
    var before, after := Reported(s.cfg, s.mask), Reported(cfg, r.s.mask);
    assert Below(0) == {};
    assert Replay(before, r.events) == (before - (changed - Below(0))) + after * (changed - Below(0));
    ChangesCover(before, after, changed);
    FlipsOf(s.mask, r.s.mask, WiredNcMask(s.cfg), WiredNcMask(cfg));
  }

  lemma ChangesCover(before: Mask, after: Mask, changed: Mask)
    ensures (before - changed) + after * changed == after <==> Xor(before, after) <= changed
  {
    if Xor(before, after) <= changed {
      forall i: Channel ensures i in (before - changed) + after * changed <==> i in after {
      }
    } else {
      var i :| i in Xor(before, after) && i !in changed;
    }
  }

  lemma FlipsOf(m: Mask, m1: Mask, w: Mask, w1: Mask)
    ensures Xor(Xor(m, w), Xor(m1, w1)) == Xor(Xor(m, m1), Xor(w, w1))
    ensures Xor(Xor(m, m1), Xor(w, w1)) <= Xor(m, m1) <==> Xor(w, w1) <= Xor(m, m1)
  {
    var flips, rewired := Xor(m, m1), Xor(w, w1);
    if !(rewired <= flips) {
      var i :| i in rewired && i !in flips;
      assert i in Xor(flips, rewired);
    }
  }

  /** They are one for each flipped reported bit exactly when the save rewires nothing: a relay both
      rewired and switched is reported, although it reads as before. */
  lemma SaveExactIff(s: State, cfg: Config, e: Env)
    ensures var r := UpdateConfig(s, cfg, e);
            Exact(r.events, Reported(s.cfg, s.mask), Reported(cfg, r.s.mask)) <==> Rewired(s, cfg) == {}
  {
    hide UpdateConfig, Switched, Replay, WiredNcMask;
    var r, changed := UpdateConfig(s, cfg, e), Switched(s, cfg, e);
    SaveSwitches(s, cfg, e);
    SaveTells(s, cfg, e);
    SaveLeadsIff(s, cfg, e);
    FlipsOf(s.mask, r.s.mask, WiredNcMask(s.cfg), WiredNcMask(cfg));
    if i :| i in Rewired(s, cfg) && i in changed {
      var k := TellsNames(r.events, changed, Reported(cfg, r.s.mask), i);
    }
  }

  // ------------------------------------------------------------- all operations

  /** In any state, what an operation's events must avoid to be one for each flipped bit: a relay that
      fires while on, or is rewired. */
  predicate ReportsCleanly(s: State, op: Op) {
    match op
    case DoTick(e) => forall i: Channel :: !FiresAgain(s, e, i)
    case DoSave(cfg, _) => Rewired(s, cfg) == {}
    case _ => true
  }

  /** The events of an operation are one for each flipped reported bit, and replay the old reported
      mask to the new one, exactly when it is no tick that fires a relay already on and no save that
      rewires a relay. */
  lemma EventsExactIff(s: State, op: Op)
    ensures var r := Apply(s, op);
            Exact(r.events, Reported(s.cfg, s.mask), Reported(r.s.cfg, r.s.mask)) <==> ReportsCleanly(s, op)
  {
    hide Exact, Command, SkLost, Tick, UpdateConfig, Reported, FiresAgain, Rewired;
    StepConfig(s, op);
    match op
    case DoCommand(_, _, _, _) => EventsOfOne(s, op);
    case DoSkLost(_) => EventsOfOne(s, op);
    case DoTick(e) => TickExactIff(s, e);
    case DoSave(cfg, e) => SaveExactIff(s, cfg, e);
  }

  /** Under the wiring in force afterwards, a save's events are such too: only a tick that fires a
      relay already on breaks it. */
  lemma EventsReplay(s: State, op: Op)
    ensures var r := Apply(s, op);
            Exact(r.events, Reported(r.s.cfg, s.mask), Reported(r.s.cfg, r.s.mask))
            <==> (op.DoTick? ==> ReportsCleanly(s, op))
  {
    hide Exact, Command, SkLost, Tick, Notify, Reported, FiresAgain;
    StepConfig(s, op);
    match op
    case DoCommand(_, _, _, _) => EventsOfOne(s, op);
    case DoSkLost(_) => EventsOfOne(s, op);
    case DoTick(e) => TickExactIff(s, e);
    case DoSave(cfg, e) => NotifyExact(cfg, s.mask, UpdateConfig(s, cfg, e).s.mask, Interlock);
  }

  lemma EventsOfOne(s: State, op: Op)
    requires op.DoCommand? || op.DoSkLost?
    ensures var r := Apply(s, op); Exact(r.events, Reported(r.s.cfg, s.mask), Reported(r.s.cfg, r.s.mask))
  {
    hide Exact, Reported, Notify;
    var r := Apply(s, op);
    StepConfig(s, op);
    match op
    case DoCommand(channel, req, src, e) =>
      if 1 <= channel <= CHANNELS {
        NotifyExact(s.cfg, s.mask, r.s.mask, src);
      } else {
        NothingTold(Reported(s.cfg, s.mask));
      }
    case DoSkLost(e) => NotifyExact(s.cfg, s.mask, r.s.mask, Failsafe);
  }

  lemma NothingTold(m: Mask)
    ensures Exact([], m, m)
  {
  }

  /** They lead every listener right exactly when the operation is no save that rewires a relay without
      switching its coil. */
  lemma EventsLeadIff(s: State, op: Op)
    ensures var r := Apply(s, op);
            Leads(r.events, Reported(s.cfg, s.mask), Reported(r.s.cfg, r.s.mask))
            <==> (op.DoSave? ==> Rewired(s, op.cfg) <= Switched(s, op.cfg, op.e))
  {
    hide Command, SkLost, Tick, UpdateConfig, Reported, Rewired, Switched, Replay, Distinct;
    StepConfig(s, op);
    match op
    case DoCommand(_, _, _, _) => EventsOfOne(s, op);
    case DoSkLost(_) => EventsOfOne(s, op);
    case DoTick(e) => TickEventsLead(s, e);
    case DoSave(cfg, e) => SaveLeadsIff(s, cfg, e);
  }

  /** Under the wiring in force afterwards they always do. */
  lemma EventsLead(s: State, op: Op)
    ensures var r := Apply(s, op);
            Leads(r.events, Reported(r.s.cfg, s.mask), Reported(r.s.cfg, r.s.mask))
  {
    hide Tick, Reported, Replay, FiresAgain, Distinct;
    StepConfig(s, op);
    EventsReplay(s, op);
    if op.DoTick? {
      TickEventsLead(s, op.e);
    }
  }

  // ---------------------------------------------------------- what an event says

  lemma {:induction false} NotifySays(i: int, changed: Mask, after: Mask, src: Source)
    requires 0 <= i <= CHANNELS
    ensures forall ev :: ev in NotifyFrom(i, changed, after, src) ==>
              1 <= ev.channel <= CHANNELS && ev == Event(ev.channel, ev.channel - 1 in after, src, after)
              && ev.channel - 1 in changed
    decreases CHANNELS - i
  {
    if i < CHANNELS {
      NotifySays(i + 1, changed, after, src);
    }
  }

  lemma {:induction false} FiredSay(i: int, fired: Mask, after: Mask, srcs: Sources)
    requires 0 <= i <= CHANNELS
    ensures forall ev :: ev in FiredEvents(i, fired, after, srcs) ==>
              1 <= ev.channel <= CHANNELS
              && ev == Event(ev.channel, ev.channel - 1 in after, srcs[ev.channel - 1], after)
              && ev.channel - 1 in fired
    decreases CHANNELS - i
  {
    if i < CHANNELS {
      FiredSay(i + 1, fired, after, srcs);
      NotifySays(0, {i}, after, srcs[i]);
    }
  }

  /** At a tick that is, for a coil that comes on, the source of its waiting "on", for one that goes off
      the end of its pulse or of its maximum on-time. */
  predicate TickNames(s: State, e: Env, ev: Event)
    requires 1 <= ev.channel <= CHANNELS
  {
    var i := ev.channel - 1;
    if ev.on != s.cfg.relays[i].wiredNc then
      ev.src == s.pendingSrc[i] && i in s.pending && Passed(e.t0, s.pendingDue[i])
    else
      || (ev.src == PulseEnd && i in s.pulsing && Passed(e.t0, s.pulseDue[i]))
      || (ev.src == MaxOn && i in s.limited && Passed(e.t0, s.limitDue[i]))
  }

  /** The event names what caused it, and its mask has the state that it reports. */
  predicate NamesCause(s: State, op: Op, ev: Event) {
    && 1 <= ev.channel <= CHANNELS && (ev.on <==> ev.channel - 1 in ev.mask)
    && match op
       case DoCommand(_, _, src, _) => ev.src == src
       case DoSkLost(_) => ev.src == Failsafe
       case DoSave(_, _) => ev.src == Interlock
       case DoTick(e) => TickNames(s, e, ev)
  }

  lemma EndingCauses(s: State, e: Env, i: Channel)
    ensures var s1, s2 := TickPulses(s, e), TickMaxOn(s, e);
            && (i in s.mask && i !in s1.mask ==> i in s.pulsing && Passed(e.t0, s.pulseDue[i]))
            && (i in s1.mask && i !in s2.mask ==> i in s.limited && Passed(e.t0, s.limitDue[i]))
            && s2.pendingSrc == s.pendingSrc
  {
    var s1 := TickPulses(s, e);
    CommitFacts(s, s.mask - EndedPulses(s, e.t0), e.w0);
    CommitFacts(s1, s1.mask - ExpiredLimits(s1, e.t0), e.w1);
  }

  lemma OffNamed(s: State, e: Env, before: Mask, after: Mask, src: Source)
    requires after <= before && src in {PulseEnd, MaxOn}
    requires forall i: Channel :: i in before && i !in after ==>
               if src == PulseEnd then i in s.pulsing && Passed(e.t0, s.pulseDue[i])
               else i in s.limited && Passed(e.t0, s.limitDue[i])
    ensures forall ev :: ev in Notify(s.cfg, before, after, src) ==>
              NamesCause(s, DoTick(e), ev) && ev.mask == Reported(s.cfg, after)
  {
    hide NotifyFrom, Passed;
    ReportedFlips(s.cfg, before, after);
    NotifySays(0, Xor(before, after), Reported(s.cfg, after), src);
  }

  lemma FiredNamed(s: State, e: Env)
    ensures var after := Reported(s.cfg, TickFire(s, e).s.mask);
            forall ev :: ev in FiredEvents(0, TickFire(s, e).fired, after, s.pendingSrc) ==>
              NamesCause(s, DoTick(e), ev) && ev.mask == after
  {
    hide EndPulses, EndMaxOn, FirePending, FiredEvents, Passed;
    var f := TickFire(s, e);
    TickPhases(s, e);
    EndingCause(s, e);
    FiredSay(0, f.fired, Reported(s.cfg, f.s.mask), s.pendingSrc);
    forall i: Channel | i in f.fired ensures i in s.pending && Passed(e.t0, s.pendingDue[i]) && i in f.s.mask {
      FiredWereDue(TickMaxOn(s, e), e, i);
    }
  }

  lemma FiredWereDue(s: State, e: Env, i: Channel)
    requires i in FirePending(s, e).fired
    ensures i in s.pending && Passed(e.t0, s.pendingDue[i])
  {
    FiredAre(s, e);
  }

  lemma LastOfThree(x: seq<Event>, y: seq<Event>, z: seq<Event>, l: Mask, m: Mask, n: Mask)
    requires (forall ev :: ev in x ==> ev.mask == l) && (forall ev :: ev in y ==> ev.mask == m)
    requires (forall ev :: ev in z ==> ev.mask == n) && (y == [] ==> l == m) && (z == [] ==> m == n)
    ensures var all := x + y + z; all != [] ==> all[|all| - 1].mask == n
  {
    var all := x + y + z;
    if all != [] {
      var last := all[|all| - 1];
      if z != [] {
        assert last == z[|z| - 1];
      } else if y != [] {
        assert last == y[|y| - 1];
      } else {
        assert last == x[|x| - 1];
      }
    }
  }

  lemma OneEventsNameCause(s: State, op: Op)
    requires !op.DoTick?
    ensures var r := Apply(s, op);
            forall ev :: ev in r.events ==> NamesCause(s, op, ev) && ev.mask == Reported(r.s.cfg, r.s.mask)
  {
    hide NotifyFrom, Switch, Adopt, ClearConflict, Commit;
    var r := Apply(s, op);
    StepConfig(s, op);
    var c := r.s.cfg;
    var b, a := Reported(c, s.mask), Reported(c, r.s.mask);
    match op
    case DoCommand(_, _, src, _) => NotifySays(0, Xor(b, a), a, src);
    case DoSkLost(_) => NotifySays(0, Xor(b, a), a, Failsafe);
    case DoSave(_, _) => NotifySays(0, Xor(b, a), a, Interlock);
  }

  lemma TickEventsNameCause(s: State, e: Env)
    ensures var r := Tick(s, e);
            && (forall ev :: ev in r.events ==> NamesCause(s, DoTick(e), ev))
            && (r.events != [] ==> r.events[|r.events| - 1].mask == Reported(r.s.cfg, r.s.mask))
  {
    hide TickPulses, TickMaxOn, TickFire, FiredEvents, Notify, Reported, NamesCause, Passed;
    TickPhases(s, e);
    var c, s1, s2, f := s.cfg, TickPulses(s, e), TickMaxOn(s, e), TickFire(s, e);
    forall i: Channel
      ensures i in s.mask && i !in s1.mask ==> i in s.pulsing && Passed(e.t0, s.pulseDue[i])
      ensures i in s1.mask && i !in s2.mask ==> i in s.limited && Passed(e.t0, s.limitDue[i])
      ensures s2.pendingSrc == s.pendingSrc
    {
      EndingCauses(s, e, i);
    }
    EndingCauses(s, e, 0);
    OffNamed(s, e, s.mask, s1.mask, PulseEnd);
    OffNamed(s, e, s1.mask, s2.mask, MaxOn);
    FiredNamed(s, e);
    var x, y := Notify(c, s.mask, s1.mask, PulseEnd), Notify(c, s1.mask, s2.mask, MaxOn);
    var z := FiredEvents(0, f.fired, Reported(c, f.s.mask), s.pendingSrc);
    SilentIfSame(c, s1.mask, s2.mask, MaxOn);
    assert f.fired == {} ==> f.s.mask == s2.mask;
    NoneFiredIfSilent(f.fired, Reported(c, f.s.mask), s.pendingSrc);
    LastOfThree(x, y, z, Reported(c, s1.mask), Reported(c, s2.mask), Reported(c, f.s.mask));
  }

  lemma NoneFiredIfSilent(fired: Mask, after: Mask, srcs: Sources)
    ensures FiredEvents(0, fired, after, srcs) == [] ==> fired == {}
  {
    hide FiredEvents, Tells;
    if i: Channel :| i in fired {
      FiredTells(0, fired, after, srcs);
      var k := TellsNames(FiredEvents(0, fired, after, srcs), fired, after, i);
    }
  }

  lemma SilentIfSame(c: Config, before: Mask, after: Mask, src: Source)
    ensures Notify(c, before, after, src) == [] ==> before == after
  {
    if i: Channel :| i in Xor(before, after) {
      ReportedFlips(c, before, after);
      NotifyTells(0, Xor(before, after), Reported(c, after), src);
      var k := TellsNames(Notify(c, before, after, src), Xor(before, after), Reported(c, after), i);
    }
  }

  /** In any state, every event names its channel, its new state within the mask it carries, and what
      caused it: the source of the command, SignalK lost, the interlock of a save, or what ended or started
      it at a tick. The last event carries the mask reported from then on. */
  lemma EventsNameCause(s: State, op: Op)
    ensures var r := Apply(s, op);
            && (forall ev :: ev in r.events ==> NamesCause(s, op, ev))
            && (r.events != [] ==> r.events[|r.events| - 1].mask == Reported(r.s.cfg, r.s.mask))
  {
    hide Command, SkLost, Tick, UpdateConfig, NamesCause, Reported;
    if op.DoTick? {
      assert op == DoTick(op.e);
      TickEventsNameCause(s, op.e);
    } else {
      OneEventsNameCause(s, op);
    }
  }

  // ------------------------------------------------------------ the exceptions

  /** The run of a failed clearing write, and then: relay 1 of the new pair is asked for again, which
      takes relay 3 off and sets relay 1 waiting while on; its dead time ends. */
  function DoubleReportRun(): seq<Op> {
    FailedClear() + [DoCommand(1, On, Web, GoodBus(0)), DoTick(GoodBus(500))]
  }

  /** From any start-up on: a tick tells of relay 1 coming on, although it was on. */
  lemma RelayReportedAgain(blank: State, b: BootEnv)
    requires Blank(blank)
    ensures var s, ops := Boot(blank, BEFORE, b).s, DoubleReportRun();
            var before, after := StateAt(s, ops, 4), StateAt(s, ops, 5);
            && 0 in before.mask && 0 in after.mask
            && !Exact(Apply(before, ops[4]).events, Reported(AFTER, before.mask), Reported(AFTER, after.mask))
  {
    hide StateAt, Boot, Command, Tick, Exact, Reported, FiresAgain;
    var s, ops := Boot(blank, BEFORE, b).s, DoubleReportRun();
    FailedClearStates(blank, b, ops);
    StateAfter(s, ops, 3);
    WaitsWhileOn(StateAt(s, ops, 3));
    StateAfter(s, ops, 4);
    var s4, e := StateAt(s, ops, 4), GoodBus(500);
    FiresWhileOn(s4);
    FiredAgain(s4, e, 0);
    TickPhases(s4, e);
    TickExactIff(s4, e);
  }

  lemma WaitsWhileOn(s: State)
    requires s.cfg == AFTER && s.mask == {0, 2} && s.pending == {}
    ensures var r := Command(s, 1, On, Web, GoodBus(0)).s;
            r.cfg == AFTER && r.mask == {0} && r.pending == {0} && r.pendingDue[0] == 500
  {
    assert s.mask - {2} == {0};
  }

  lemma FiresWhileOn(s: State)
    requires s.cfg == AFTER && s.mask == {0} && s.pending == {0} && s.pendingDue[0] == 500
    ensures FiresAgain(s, GoodBus(500), 0)
  {
    hide EndPulses, EndMaxOn;
    EndingCause(s, GoodBus(500));
  }

  const REWIRED: Config := BEFORE.(relays := BEFORE.relays[4 := PLAIN.(wiredNc := true)])

  /** From any start-up on: a save that rewires relay 5 to NC flips what is reported of it and tells
      nobody. */
  lemma RewiringIsSilent(blank: State, b: BootEnv)
    requires Blank(blank)
    ensures ValidPairs(BEFORE) && ValidPairs(REWIRED)
    ensures var s := Boot(blank, BEFORE, b).s; var r := UpdateConfig(s, REWIRED, GoodBus(0));
            && r.events == [] && Xor(Reported(BEFORE, s.mask), Reported(REWIRED, r.s.mask)) == {4}
            && !Leads(r.events, Reported(BEFORE, s.mask), Reported(REWIRED, r.s.mask))
  {
    hide Boot, UpdateConfig, Leads, Switched, Replay, Tells;
    var s, e := Boot(blank, BEFORE, b).s, GoodBus(0);
    var r := UpdateConfig(s, REWIRED, e);
    PairsOfBoth();
    RewiredPairs();
    BootEstablishes(blank, BEFORE, b);
    NothingSwitched(s, REWIRED, e);
    SaveTells(s, REWIRED, e);
    TellsNothing(r.events, Reported(REWIRED, r.s.mask));
    SaveLeadsIff(s, REWIRED, e);
    assert Reported(BEFORE, {}) == {} && Reported(REWIRED, {}) == {4};
    assert Rewired(s, REWIRED) == {4};
  }

  lemma TellsNothing(evs: seq<Event>, after: Mask)
    ensures Tells(evs, {}, after, 0) ==> evs == []
  {
    if evs != [] {
      var first := evs[0];
    }
  }

  lemma NothingSwitched(s: State, cfg: Config, e: Env)
    requires s.mask == {}
    ensures Switched(s, cfg, e) == {} && UpdateConfig(s, cfg, e).s.mask == {}
  {
    hide UpdateConfig, TwoAttempts;
    SaveSwitches(s, cfg, e);
  }

  lemma RewiredPairs()
    ensures ValidPairs(REWIRED) && WiredNcMask(BEFORE) == {} && WiredNcMask(REWIRED) == {4}
  {
    hide ValidPairs;
    forall i: Channel ensures PairOk(REWIRED, i) {
      assert Partner(REWIRED, i) != -1 ==> i in {0, 1, 2, 3};
    }
    ValidByPair(REWIRED);
  }
}
