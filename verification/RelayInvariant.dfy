/** What every relay-control operation keeps: the interlock, and timers that match the confirmed
    mask. */
module RelayInvariant {
  import opened Options
  import opened Board
  import opened RelayConfig
  import opened Expander
  import opened RelaySpec

  /** Interlock invariant: no interlocked pair is on, no relay is both on and waiting, and no
      interlocked pair is waiting. */
  predicate Interlocked(s: State) {
    && ValidPairs(s.cfg)
    && ConflictFree(s.cfg, s.mask)
    && s.mask !! s.pending
    && ConflictFree(s.cfg, s.pending)
  }

  function LimitedRelays(c: Config): Mask {
    set i: Channel | MaxOnMs(c, i) != 0
  }

  /** Timer invariant: exactly the momentary relays that are on have a running pulse, exactly
      the relays that are on with a maximum on-time have a running limit. */
  predicate TimersMatch(s: State) {
    && s.pulsing == MomentaryIn(s.cfg, s.mask)
    && s.limited == s.mask * LimitedRelays(s.cfg)
  }

  /** Every value sent to the output register after `log0` leaves no interlocked pair on. */
  predicate SafeWrites(c: Config, log0: seq<BusWrite>, log: seq<BusWrite>) {
    && log0 <= log
    && forall k :: |log0| <= k < |log| && log[k].WroteOutput? ==> ConflictFree(c, log[k].value)
  }

  lemma SafeWritesChain(c: Config, l0: seq<BusWrite>, l1: seq<BusWrite>, l2: seq<BusWrite>)
    requires SafeWrites(c, l0, l1) && SafeWrites(c, l1, l2)
    ensures SafeWrites(c, l0, l2)
  {
  }

  // ------------------------------------------------------------ one commit

  /** A commit of a conflict-free target writes nothing unsafe, whatever the bus answers, and
      either reaches the target or leaves the confirmed mask alone. */
  lemma CommitFacts(s: State, target: Mask, w: Attempts)
    ensures var c := Commit(s, target, w);
            && c.s == s.(chip := c.s.chip, mask := c.s.mask, savePending := c.s.savePending)
            && c.s.mask == (if c.ok then target else s.mask)
            && (!c.ok ==> c.s.savePending == s.savePending)
            && (s.savePending ==> c.s.savePending)
            && (!c.s.savePending ==> c.s.mask * HoldMask(s.cfg) == s.mask * HoldMask(s.cfg))
            && (ConflictFree(s.cfg, target) ==> SafeWrites(s.cfg, s.chip.log, c.s.chip.log))
  {
    var c := Commit(s, target, w);
    if c.ok && !c.s.savePending && target != s.mask {
      var hold := HoldMask(s.cfg);
      forall i | i in hold ensures i in target <==> i in s.mask {
        assert i !in Xor(target, s.mask) * hold;
      }
    }
  }

  /** Starting and dropping limits touches nothing else and restores the limit invariant when
      only coils that went off or came on since `before` were out of step. */
  lemma TrackFacts(s: State, before: Mask, restart: Mask, t: int)
    ensures var r := TrackMaxOn(s, before, restart, t);
            && r == s.(limited := r.limited, limitDue := r.limitDue)
            && ((forall i: Channel :: i in s.mask && i in before && MaxOnMs(s.cfg, i) != 0 && i !in restart
                   ==> i in s.limited)
                ==> r.limited == s.mask * LimitedRelays(s.cfg))
  {
  }

  // ---------------------------------------------------------- each operation

  /** A step under unchanged settings that keeps everything. */
  predicate Keeps(s: State, r: State) {
    && r.cfg == s.cfg
    && (Interlocked(s) ==> Interlocked(r) && SafeWrites(s.cfg, s.chip.log, r.chip.log))
    && (TimersMatch(s) ==> TimersMatch(r))
  }

  lemma SwitchOffKeeps(s: State, i: Channel, e: Env)
    ensures Keeps(s, SwitchOff(s, i, e).s)
  {
    var s1 := s.(pending := s.pending - {i});
    CommitFacts(s1, s1.mask - {i}, e.w0);
    var c := Commit(s1, s1.mask - {i}, e.w0);
    if c.ok {
      TrackFacts(c.s.(pulsing := c.s.pulsing - {i}), s.mask, {}, e.t0);
    }
  }

  lemma DeferKeeps(s: State, i: Channel, src: Source, e: Env)
    requires PartnerIn(s.cfg, i, s.mask)
    ensures Keeps(s, Defer(s, i, Partner(s.cfg, i), src, e).s)
  {
    hide Commit, TrackMaxOn, SafeWrites;
    var p := Partner(s.cfg, i);
    CommitFacts(s, s.mask - {p}, e.w0);
    var c := Commit(s, s.mask - {p}, e.w0);
    if c.ok {
      TrackFacts(c.s.(pulsing := c.s.pulsing - {p}, pending := c.s.pending - {p}), s.mask, {}, e.t0);
      if Interlocked(s) {
        assert i !in s.mask;
      }
    }
  }

  lemma EnergiseKeeps(s: State, i: Channel, e: Env)
    requires !PartnerIn(s.cfg, i, s.mask) && i !in s.pending
    ensures Keeps(s, Energise(s, i, e).s)
  {
    hide Commit, TrackMaxOn, SafeWrites;
    CommitFacts(s, s.mask + {i}, e.w0);
    var c := Commit(s, s.mask + {i}, e.w0);
    if c.ok {
      var s1 := if IsMomentary(s.cfg, i)
                then c.s.(pulseDue := c.s.pulseDue[i := e.t0 + s.cfg.relays[i].pulseMs],
                          pulsing := c.s.pulsing + {i})
                else c.s;
      TrackFacts(s1, s.mask, {i}, e.t1);
    }
  }

  lemma CommandKeeps(s: State, channel: int, req: Request, src: Source, e: Env)
    ensures Keeps(s, Command(s, channel, req, src, e).s)
  {
    hide SwitchOff, Defer, Energise;
    if 1 <= channel <= CHANNELS {
      var i: Channel := channel - 1;
      if !WantsOn(s, i, req) {
        SwitchOffKeeps(s, i, e);
      } else if PartnerIn(s.cfg, i, s.mask) {
        DeferKeeps(s, i, src, e);
      } else if i !in s.pending {
        EnergiseKeeps(s, i, e);
      }
    }
  }

  lemma SkLostKeeps(s: State, e: Env)
    ensures Keeps(s, SkLost(s, e).s)
  {
    var off := ALL - HoldMask(s.cfg);
    CommitFacts(s, s.mask - off, e.w0);
    var c := Commit(s, s.mask - off, e.w0);
    if c.ok {
      TrackFacts(c.s.(pulsing := c.s.pulsing - off), s.mask, {}, e.t0);
    }
  }

  lemma EndPulsesKeeps(s: State, e: Env)
    ensures Keeps(s, EndPulses(s, e))
  {
    var ended := EndedPulses(s, e.t0);
    CommitFacts(s, s.mask - ended, e.w0);
  }

  lemma EndMaxOnKeeps(s: State, e: Env)
    ensures Keeps(s, EndMaxOn(s, e))
  {
    var expired := ExpiredLimits(s, e.t0);
    CommitFacts(s, s.mask - expired, e.w1);
    if TimersMatch(s) {
      forall i | i in expired ensures !IsMomentary(s.cfg, i) {
        assert i in LimitedRelays(s.cfg);
      }
    }
  }

  lemma FirePendingKeeps(s: State, e: Env)
    ensures Keeps(s, FirePending(s, e).s)
  {
    var fires := Fires(s, e.t0);
    var s1 := s.(pending := s.pending - (DuePending(s, e.t0) - fires));
    if fires != {} {
      if Interlocked(s) {
        FiringIsSafe(s, e.t0);
      }
      CommitFacts(s1, s1.mask + fires, e.w2);
      var c := Commit(s1, s1.mask + fires, e.w2);
      if c.ok {
        var starts := MomentaryIn(s.cfg, fires);
        TrackFacts(c.s.(pending := c.s.pending - fires, pulsing := c.s.pulsing + starts,
                        pulseDue := PulsesStarted(s.cfg, starts, c.s.pulseDue, e.t0)), s.mask, fires, e.t1);
      }
    }
  }

  lemma FiringIsSafe(s: State, t: int)
    requires Interlocked(s)
    ensures ConflictFree(s.cfg, s.mask + Fires(s, t))
  {
    var fires := Fires(s, t);
    forall i | i in s.mask + fires ensures !PartnerIn(s.cfg, i, s.mask + fires) {
      var p := Partner(s.cfg, i);
      assert 0 <= p < CHANNELS ==> Partner(s.cfg, p) == i;
    }
  }

  lemma SaveHoldKeeps(s: State, e: Env)
    ensures Keeps(s, SaveHold(s, e))
  {
  }

  lemma TickKeeps(s: State, e: Env)
    ensures Keeps(s, Tick(s, e).s)
  {
    var s1 := EndPulses(s, e);
    var s2 := EndMaxOn(s1, e);
    var f := FirePending(s2, e);
    EndPulsesKeeps(s, e);
    EndMaxOnKeeps(s1, e);
    FirePendingKeeps(s2, e);
    SaveHoldKeeps(f.s, e);
  }

  // ------------------------------------------------------------------ saves

  /** The guard a settings save needs: the write that clears newly paired relays gets through
      within its two attempts (or is not needed), and no two waiting relays become a pair. */
  predicate SaveAllowed(s: State, cfg: Config, e: Env) {
    && (ConflictFree(cfg, s.mask) || TwoAttempts(s.chip, s.mask - Conflicts(cfg, s.mask), e.w0).ok)
    && ConflictFree(cfg, s.pending)
  }

  lemma AdoptFacts(s: State, cfg: Config, e: Env)
    ensures var r := Adopt(s, cfg, e);
            && r == s.(cfg := cfg, pulsing := r.pulsing, pulseDue := r.pulseDue, limited := r.limited,
                       limitDue := r.limitDue, savePending := r.savePending)
            && (TimersMatch(s) ==> TimersMatch(r))
            && (!r.savePending ==> !s.savePending && HoldMask(cfg) == HoldMask(s.cfg))
  {
    var s1 := AdoptModes(s, cfg, e.t0);
    var changed := ChangedLimits(s.cfg, cfg);
    TrackFacts(s1, s.mask, changed, e.t1);
    if TimersMatch(s) {
      forall i: Channel | i in s.mask && MaxOnMs(cfg, i) != 0 && i !in changed ensures i in s1.limited {
        assert i in LimitedRelays(s.cfg);
      }
    }
  }

  lemma ClearConflictFacts(s: State, conflict: Mask, e: Env)
    ensures var r := ClearConflict(s, conflict, e);
            var c := Commit(s, s.mask - conflict, e.w0);
            && r.cfg == s.cfg && r.mask == c.s.mask && r.chip == c.s.chip && r.savePending == c.s.savePending
            && r.store == s.store
            && r.pending == (if c.ok then s.pending - conflict else s.pending)
            && (TimersMatch(s) ==> TimersMatch(r))
  {
    CommitFacts(s, s.mask - conflict, e.w0);
    var c := Commit(s, s.mask - conflict, e.w0);
    if c.ok {
      TrackFacts(c.s.(pulsing := c.s.pulsing - conflict, pending := c.s.pending - conflict), s.mask, {}, e.t2);
    }
  }

  /** A settings save never writes an unsafe value and keeps the timers; it keeps the interlock
      exactly when it is allowed. */
  lemma SaveKeepsIffAllowed(s: State, cfg: Config, e: Env)
    requires Interlocked(s) && ValidPairs(cfg)
    ensures var r := UpdateConfig(s, cfg, e).s;
            && r.cfg == cfg
            && SafeWrites(cfg, s.chip.log, r.chip.log)
            && (TimersMatch(s) ==> TimersMatch(r))
            && (Interlocked(r) <==> SaveAllowed(s, cfg, e))
  {
    var s1 := Adopt(s, cfg, e);
    var conflict := Conflicts(cfg, s.mask);
    AdoptFacts(s, cfg, e);
    ClearedIsConflictFree(cfg, s.mask);
    if conflict != {} {
      ClearConflictFacts(s1, conflict, e);
      CommitFacts(s1, s.mask - conflict, e.w0);
      assert s.pending - conflict == s.pending;
    }
  }

  // ------------------------------------------------------------------- boot

  /** Start-up establishes both invariants, whether or not it succeeds, and writes only safe
      values; a relay that was not held before does not come on. */
  lemma BootEstablishes(s: State, cfg: Config, b: BootEnv)
    requires Blank(s) && ValidPairs(cfg)
    ensures var r := Boot(s, cfg, b);
            && Interlocked(r.s) && TimersMatch(r.s) && r.s.cfg == cfg
            && SafeWrites(cfg, s.chip.log, r.s.chip.log)
            && r.s.mask <= HoldMask(cfg)
  {
    var s0 := Cleared(s, cfg, b.t0);
    var choice := ChooseHeld(s, b);
    if choice != None {
      var wanted := choice.value.held * HoldMask(cfg);
      ClearedIsConflictFree(cfg, wanted);
      var target := wanted - Conflicts(cfg, wanted);
      var w := if choice.value.warm then WriteOutput(s.chip, target, b.write)
               else InitOutputs(s.chip, target, b.write, b.direction);
      if w.ok {
        TrackFacts(s0.(chip := w.chip, mask := target), {}, {}, b.t1);
      }
    }
  }
}
