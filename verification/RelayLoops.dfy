/** The loops over channels of relay control. They compute a mask or a list of listener calls,
    and update at most one deadline array in place. */
module RelayLoops {
  import opened Board
  import opened RelayConfig
  import opened RelaySpec
  import opened Timers
  import opened Clock32

  method ComputeHoldMask(cfg: Config) returns (m: Mask)
    ensures m == HoldMask(cfg)
  {
    m := {};
    for i := 0 to CHANNELS
      invariant m == HoldMask(cfg) * Below(i)
    {
      if EffectiveFailsafe(cfg.relays[i]) == Hold {
        m := m + {i};
      }
    }
    assert HoldMask(cfg) * Below(CHANNELS) == HoldMask(cfg);
  }

  method ComputeWiredNcMask(cfg: Config) returns (m: Mask)
    ensures m == WiredNcMask(cfg)
  {
    m := {};
    for i := 0 to CHANNELS
      invariant m == WiredNcMask(cfg) * Below(i)
    {
      if cfg.relays[i].wiredNc {
        m := m + {i};
      }
    }
    assert WiredNcMask(cfg) * Below(CHANNELS) == WiredNcMask(cfg);
  }

  /** clear_interlock_conflicts: `out` keeps what is not in conflict. */
  method ClearInterlockConflicts(cfg: Config, m: Mask) returns (out: Mask, conflict: Mask)
    ensures conflict == Conflicts(cfg, m) && out == m - conflict
  {
    out, conflict := m, {};
    for i := 0 to CHANNELS
      invariant conflict == Conflicts(cfg, m) * Below(i)
      invariant out == m - conflict
    {
      var p := Partner(cfg, i);
      if 0 <= p < CHANNELS && i in m && p in m {
        out := out - {i};
        conflict := conflict + {i};
      }
    }
    assert Conflicts(cfg, m) * Below(CHANNELS) == Conflicts(cfg, m);
  }

  lemma NotifyStep(i: Channel, changed: Mask, after: Mask, src: Source)
    ensures NotifyFrom(i, changed, after, src)
         == (if i in changed then [Event(i + 1, i in after, src, after)] else [])
            + NotifyFrom(i + 1, changed, after, src)
    ensures NotifyFrom(CHANNELS, changed, after, src) == []
  {
  }

  method CollectNotify(changed: Mask, after: Mask, src: Source) returns (events: seq<Event>)
    ensures events == NotifyBits(changed, after, src)
  {
    hide NotifyFrom;
    NotifyStep(0, changed, after, src);
    events := [];
    for i := 0 to CHANNELS
      invariant NotifyFrom(0, changed, after, src) == events + NotifyFrom(i, changed, after, src)
    {
      ghost var rest := NotifyFrom(i + 1, changed, after, src);
      NotifyStep(i, changed, after, src);
      if i in changed {
        var event := Event(i + 1, i in after, src, after);
        assert events + ([event] + rest) == (events + [event]) + rest;
        events := events + [event];
      } else {
        assert [] + rest == rest;
      }
    }
  }

  method ReportFired(fired: Mask, after: Mask, srcs: Sources) returns (events: seq<Event>)
    ensures events == FiredEvents(0, fired, after, srcs)
  {
    events := [];
    for i := 0 to CHANNELS
      invariant FiredEvents(0, fired, after, srcs) == events + FiredEvents(i, fired, after, srcs)
    {
      ghost var rest := FiredEvents(i + 1, fired, after, srcs);
      var more := [];
      if i in fired {
        more := CollectNotify({i}, after, srcs[i]);
      }
      assert events + (more + rest) == (events + more) + rest;
      events := events + more;
    }
  }

  method ChangedLimitLoop(cfg: Config, oldCfg: Config) returns (changed: Mask)
    ensures changed == ChangedLimits(oldCfg, cfg)
  {
    changed := {};
    for i := 0 to CHANNELS
      invariant changed == ChangedLimits(oldCfg, cfg) * Below(i)
    {
      if MaxOnMs(cfg, i) != MaxOnMs(oldCfg, i) {
        changed := changed + {i};
      }
    }
    assert changed == ChangedLimits(oldCfg, cfg);
  }

  /** track_max_on: `running` are the limits running before, `r` those running after. */
  method TrackLoop(cfg: Config, mask: Mask, running: Mask, limits: WrappedTimes, before: Mask, restart: Mask, t: int)
    returns (r: Mask)
    requires limits.Valid()
    modifies limits, limits.ends
    ensures limits.Valid()
    ensures r == TrackedLimits(cfg, mask, running, before, restart)
    ensures limits.due == TrackedDue(cfg, mask, old(limits.due), before, restart, t)
  {
    hide WrappedTimes.Valid;
    ghost var all := TrackedLimits(cfg, mask, running, before, restart);
    ghost var due := TrackedDue(cfg, mask, limits.due, before, restart, t);
    r := running;
    for i := 0 to CHANNELS
      invariant limits.Valid()
      invariant r == all * Below(i) + (running - Below(i))
      invariant forall j: Channel :: j < i ==> limits.due[j] == due[j]
      invariant forall j: Channel :: i <= j ==> limits.due[j] == old(limits.due)[j]
    {
      if i !in mask || MaxOnMs(cfg, i) == 0 {
        r := r - {i};
      } else if i !in before || i in restart {
        limits.Start(i, t, MaxOnMs(cfg, i));
        r := r + {i};
      }
    }
    assert r == all && limits.due == due;
  }

  /** The channels of `running` whose deadline has passed. */
  method PassedLoop(running: Mask, timers: WrappedTimes, t: int) returns (ended: Mask)
    requires timers.Valid()
    ensures ended == set i | i in running && Passed(t, timers.due[i])
  {
    ghost var all := set i | i in running && Passed(t, timers.due[i]);
    ended := {};
    for i := 0 to CHANNELS
      invariant ended == all * Below(i)
    {
      var passed := timers.HasPassed(i, Wrap(t), t);
      if i in running && passed {
        ended := ended + {i};
      }
    }
    assert ended == all;
  }

  /** Splits the due pending relays into those that may fire and those dropped because their
      partner's coil is on. */
  method FireLoop(cfg: Config, mask: Mask, pending: Mask, timers: WrappedTimes, t: int)
    returns (fires: Mask, left: Mask)
    requires timers.Valid()
    ensures var ended := set i | i in pending && Passed(t, timers.due[i]);
            && fires == (set i | i in ended && !PartnerIn(cfg, i, mask))
            && left == pending - (ended - fires)
  {
    ghost var ended := set i | i in pending && Passed(t, timers.due[i]);
    ghost var all := set i | i in ended && !PartnerIn(cfg, i, mask);
    fires, left := {}, pending;
    for i := 0 to CHANNELS
      invariant fires == all * Below(i)
      invariant left == pending - (ended - all) * Below(i)
    {
      var passed := timers.HasPassed(i, Wrap(t), t);
      if i in pending && passed {
        var p := Partner(cfg, i);
        if 0 <= p < CHANNELS && p in mask {
          left := left - {i};
        } else {
          fires := fires + {i};
        }
      }
    }
    assert fires == all && left == pending - (ended - all);
  }

  /** Starts the pulses of the momentary relays that just fired. */
  method FiredLoop(cfg: Config, fired: Mask, running: Mask, pulses: WrappedTimes, t: int) returns (r: Mask)
    requires pulses.Valid()
    modifies pulses, pulses.ends
    ensures pulses.Valid()
    ensures var starts := MomentaryIn(cfg, fired);
            r == running + starts && pulses.due == PulsesStarted(cfg, starts, old(pulses.due), t)
  {
    hide WrappedTimes.Valid;
    ghost var starts := MomentaryIn(cfg, fired);
    ghost var due := PulsesStarted(cfg, starts, pulses.due, t);
    r := running;
    for i := 0 to CHANNELS
      invariant pulses.Valid()
      invariant forall j: Channel :: j in r <==> j in running || (j < i && j in starts)
      invariant forall j: Channel :: j < i ==> pulses.due[j] == due[j]
      invariant forall j: Channel :: i <= j ==> pulses.due[j] == old(pulses.due)[j]
    {
      if i in fired && IsMomentary(cfg, i) {
        pulses.Start(i, t, cfg.relays[i].pulseMs);
        r := r + {i};
      }
    }
    assert r == running + starts && pulses.due == due;
  }

  /** Drops the pulses of relays no longer momentary, starts those of relays newly momentary
      while on. */
  method ModeLoop(cfg: Config, mask: Mask, running: Mask, pulses: WrappedTimes, t: int) returns (r: Mask)
    requires pulses.Valid()
    modifies pulses, pulses.ends
    ensures pulses.Valid()
    ensures var starts := MomentaryIn(cfg, mask) - running;
            && r == MomentaryIn(cfg, running) + starts
            && pulses.due == PulsesStarted(cfg, starts, old(pulses.due), t)
  {
    hide WrappedTimes.Valid;
    ghost var starts := MomentaryIn(cfg, mask) - running;
    ghost var all := MomentaryIn(cfg, running) + starts;
    ghost var due := PulsesStarted(cfg, starts, pulses.due, t);
    r := running;
    for i := 0 to CHANNELS
      invariant pulses.Valid()
      invariant forall j: Channel :: j in r <==> if j < i then j in all else j in running
      invariant forall j: Channel :: j < i ==> pulses.due[j] == due[j]
      invariant forall j: Channel :: i <= j ==> pulses.due[j] == old(pulses.due)[j]
    {
      if !IsMomentary(cfg, i) {
        r := r - {i};
      } else if i in mask && i !in r {
        pulses.Start(i, t, cfg.relays[i].pulseMs);
        r := r + {i};
      }
    }
    assert r == all && pulses.due == due;
  }
}
