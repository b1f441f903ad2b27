/** Relay control as the firmware runs it: one record updated in place, 8-entry deadline
    arrays in wrapped milliseconds, loops over the channels. Every operation is proved to do
    exactly what its function in RelaySpec says. Ghost fields keep the true-time deadlines. */
module RelayCtrl {
  import opened Options
  import opened Board
  import opened Clock32
  import opened RelayConfig
  import opened Expander
  import opened Timers
  import opened RelaySpec
  import opened RelayLoops

  class Controller {
    const chip: Tca9554
    var store: Option<Mask>
    var cfg: Config
    var mask: Mask
    var pulsing: Mask
    const pulses: WrappedTimes
    var limited: Mask
    const limits: WrappedTimes
    var pendingOn: Mask
    const deadTimes: WrappedTimes
    const pendingOnSrc: array<Source>
    var savePending: bool
    var lastSaveMs: Word

    ghost var pendingSrc: Sources
    ghost var lastSave: int

    ghost const Repr: set<object> :=
      {this, chip, pulses, pulses.ends, limits, limits.ends, deadTimes, deadTimes.ends, pendingOnSrc}

    ghost predicate Valid()
      reads Repr
    {
      && pulses.Valid() && limits.Valid() && deadTimes.Valid()
      && pulses != limits && pulses != deadTimes && limits != deadTimes
      && pulses.ends != limits.ends && pulses.ends != deadTimes.ends && limits.ends != deadTimes.ends
      && pendingOnSrc.Length == CHANNELS && pendingOnSrc[..] == pendingSrc
      && lastSaveMs == Wrap(lastSave)
    }

    ghost function View(): State
      reads Repr
    {
      State(cfg, mask, pulsing, pulses.due, limited, limits.due, pendingOn, deadTimes.due, pendingSrc,
            savePending, lastSave, store, chip.View())
    }

    /** The statically zeroed record, on a given chip and store. */
    constructor (chip: Tca9554, stored: Option<Mask>, cfg: Config)
      ensures Valid() && Blank(View()) && fresh(Repr - {chip})
      ensures this.chip == chip && View().chip == chip.View() && View().store == stored
    {
      this.chip, store, this.cfg := chip, stored, cfg;
      mask, pulsing, limited, pendingOn := {}, {}, {}, {};
      savePending, lastSaveMs, lastSave := false, 0, 0;
      pulses := new WrappedTimes();
      limits := new WrappedTimes();
      deadTimes := new WrappedTimes();
      pendingOnSrc := new Source[CHANNELS](_ => SignalK);
      pendingSrc := seq(CHANNELS, _ => SignalK);
    }

    // ------------------------------------------------------------ locked core

    method CommitLocked(target: Mask, w: Attempts) returns (ok: bool)
      requires Valid()
      modifies this`mask, this`savePending, chip
      ensures Valid()
      ensures var c := Commit(old(View()), target, w); View() == c.s && ok == c.ok
    {
      if target == mask {
        return true;
      }
      ok := chip.WriteOutputs(target, w.first);
      if !ok {
        ok := chip.WriteOutputs(target, w.second);
      }
      if ok {
        var hold := ComputeHoldMask(cfg);
        if Xor(target, mask) * hold != {} {
          savePending := true;
        }
        mask := target;
      }
    }

    method TrackMaxOnLocked(before: Mask, restart: Mask, t: int)
      requires Valid()
      modifies this`limited, limits, limits.ends
      ensures Valid()
      ensures View() == TrackMaxOn(old(View()), before, restart, t)
    {
      limited := TrackLoop(cfg, mask, limited, limits, before, restart, t);
    }

    // ----------------------------------------------------------- listener calls

    method Report(before: Mask, after: Mask, src: Source) returns (events: seq<Event>)
      ensures events == Notify(cfg, before, after, src)
    {
      var wnc := ComputeWiredNcMask(cfg);
      events := CollectNotify(Xor(Xor(before, wnc), Xor(after, wnc)), Xor(after, wnc), src);
    }

    // ----------------------------------------------------------------- commands

    method SetOrToggle(channel: int, req: Request, src: Source, e: Env)
      returns (err: Error, events: seq<Event>)
      requires Valid()
      modifies Repr
      ensures Valid()
      ensures Outcome(View(), err, events) == Command(old(View()), channel, req, src, e)
    {
      if channel < 1 || channel > CHANNELS {
        return InvalidArg, [];
      }
      var i := channel - 1;
      var before := mask;
      var on := match req case Toggle => i !in mask case On => !cfg.relays[i].wiredNc case Off => cfg.relays[i].wiredNc;
      var ok := SwitchCoil(i, on, src, e);
      events := Report(before, mask, src);
      err := if ok then Ok else BusError;
    }

    method SwitchCoil(i: Channel, on: bool, src: Source, e: Env) returns (ok: bool)
      requires Valid()
      modifies Repr
      ensures Valid()
      ensures Committed(View(), ok) == Switch(old(View()), i, on, src, e)
      ensures cfg == old(cfg)
    {
      ok := true;
      if !on {
        ok := Release(i, e);
      } else {
        var p := Partner(cfg, i);
        if 0 <= p < CHANNELS && p in mask {
          ok := ReleasePartner(i, p, src, e);
        } else if i !in pendingOn {
          ok := SwitchOn(i, e);
        }
      }
    }

    method Release(i: Channel, e: Env) returns (ok: bool)
      requires Valid()
      modifies Repr
      ensures Valid()
      ensures Committed(View(), ok) == SwitchOff(old(View()), i, e)
      ensures cfg == old(cfg)
    {
      var before := mask;
      pendingOn := pendingOn - {i};
      ok := CommitLocked(mask - {i}, e.w0);
      if ok {
        pulsing := pulsing - {i};
        TrackMaxOnLocked(before, {}, e.t0);
      }
    }

    method ReleasePartner(i: Channel, p: Channel, src: Source, e: Env) returns (ok: bool)
      requires Valid()
      modifies Repr
      ensures Valid()
      ensures Committed(View(), ok) == Defer(old(View()), i, p, src, e)
      ensures cfg == old(cfg)
    {
      var before := mask;
      ok := CommitLocked(mask - {p}, e.w0);
      if ok {
        StartWaiting(before, i, p, src, e);
      }
    }

    method StartWaiting(before: Mask, i: Channel, p: Channel, src: Source, e: Env)
      requires Valid()
      modifies this`pulsing, this`pendingOn, this`pendingSrc, this`limited, limits, limits.ends,
               deadTimes, deadTimes.ends, pendingOnSrc
      ensures Valid() && View() == RelaySpec.StartWaiting(old(View()), before, i, p, src, e)
    {
      pulsing := pulsing - {p};
      pendingOn := pendingOn - {p};
      TrackMaxOnLocked(before, {}, e.t0);
      StartDeadTime(i, e.t1, src);
    }

    method StartDeadTime(i: Channel, t: int, src: Source)
      requires Valid()
      modifies this`pendingOn, this`pendingSrc, deadTimes, deadTimes.ends, pendingOnSrc
      ensures Valid()
      ensures View() == old(View()).(pending := old(pendingOn) + {i},
                                     pendingDue := old(deadTimes.due)[i := t + cfg.deadMs],
                                     pendingSrc := old(pendingSrc)[i := src])
    {
      deadTimes.Start(i, t, cfg.deadMs);
      pendingOnSrc[i] := src;
      pendingSrc := pendingSrc[i := src];
      pendingOn := pendingOn + {i};
    }

    method SwitchOn(i: Channel, e: Env) returns (ok: bool)
      requires Valid()
      modifies Repr
      ensures Valid()
      ensures Committed(View(), ok) == Energise(old(View()), i, e)
      ensures cfg == old(cfg)
    {
      var before := mask;
      ok := CommitLocked(mask + {i}, e.w0);
      if ok {
        StartTimers(before, i, e);
      }
    }

    method StartTimers(before: Mask, i: Channel, e: Env)
      requires Valid()
      modifies this`pulsing, this`pendingOn, this`limited, pulses, pulses.ends, limits, limits.ends
      ensures Valid() && View() == RelaySpec.StartTimers(old(View()), before, i, e)
    {
      if IsMomentary(cfg, i) {
        pulses.Start(i, e.t0, cfg.relays[i].pulseMs);
        pulsing := pulsing + {i};
      }
      TrackMaxOnLocked(before, {i}, e.t1);
      var p := Partner(cfg, i);
      if 0 <= p < CHANNELS {
        pendingOn := pendingOn - {p};
      }
    }

    // ---------------------------------------------------------------- fail-safe

    method SkLost(e: Env) returns (events: seq<Event>)
      requires Valid()
      modifies Repr
      ensures Valid()
      ensures Outcome(View(), Ok, events) == RelaySpec.SkLost(old(View()), e)
    {
      hide WrappedTimes.Valid, TrackMaxOn, Commit, HoldMask, Notify;
      var before := mask;
      var hold := ComputeHoldMask(cfg);
      var off := ALL - hold;
      var ok := CommitLocked(mask - off, e.w0);
      if ok {
        pulsing := pulsing - off;
        TrackMaxOnLocked(before, {}, e.t0);
      }
      pendingOn := pendingOn - off;
      events := Report(before, mask, Failsafe);
    }

    // --------------------------------------------------------------------- tick

    method EndPulses(e: Env)
      requires Valid()
      modifies this`mask, this`savePending, this`pulsing, chip
      ensures Valid() && View() == RelaySpec.EndPulses(old(View()), e)
    {
      var ended := PassedLoop(pulsing, pulses, e.t0);
      if ended != {} {
        var ok := CommitLocked(mask - ended, e.w0);
        if ok {
          pulsing := pulsing - ended;
        }
      }
    }

    method EndMaxOn(e: Env)
      requires Valid()
      modifies this`mask, this`savePending, this`limited, chip
      ensures Valid() && View() == RelaySpec.EndMaxOn(old(View()), e)
    {
      var expired := PassedLoop(limited, limits, e.t0);
      if expired != {} {
        var ok := CommitLocked(mask - expired, e.w1);
        if ok {
          limited := limited - expired;
        }
      }
    }

    method FirePending(e: Env) returns (fired: Mask)
      requires Valid()
      modifies Repr
      ensures Valid() && Fired(View(), fired) == RelaySpec.FirePending(old(View()), e)
      ensures cfg == old(cfg)
    {
      var before := mask;
      fired, pendingOn := FireLoop(cfg, mask, pendingOn, deadTimes, e.t0);
      if fired != {} {
        var ok := CommitLocked(mask + fired, e.w2);
        if ok {
          StartFired(before, fired, e);
        } else {
          fired := {};
        }
      }
    }

    method StartFired(before: Mask, fired: Mask, e: Env)
      requires Valid()
      modifies this`pulsing, this`pendingOn, this`limited, pulses, pulses.ends, limits, limits.ends
      ensures Valid() && View() == RelaySpec.StartFired(old(View()), before, fired, e)
    {
      pendingOn := pendingOn - fired;
      pulsing := FiredLoop(cfg, fired, pulsing, pulses, e.t0);
      TrackMaxOnLocked(before, fired, e.t1);
    }

    method SaveHold(e: Env)
      requires Valid()
      modifies this`savePending, this`lastSaveMs, this`lastSave, this`store
      ensures Valid() && View() == RelaySpec.SaveHold(old(View()), e)
    {
      var now := Wrap(e.t0);
      if savePending && Elapsed(now, lastSaveMs) >= DELAY {
        if e.saveOk {
          var hold := ComputeHoldMask(cfg);
          store := Some(mask * hold);
          savePending := false;
        }
        lastSaveMs, lastSave := now, e.t0;
      }
    }

    method Tick(e: Env) returns (events: seq<Event>)
      requires Valid()
      modifies Repr
      ensures Valid()
      ensures Outcome(View(), Ok, events) == RelaySpec.Tick(old(View()), e)
    {
      var before := mask;
      EndPulses(e);
      var afterPulses := mask;
      EndMaxOn(e);
      var afterMaxOn := mask;
      var srcs := pendingOnSrc[..];
      assert srcs == pendingSrc;
      var fired := FirePending(e);
      var afterFired := mask;
      SaveHold(e);
      var ended := Report(before, afterPulses, PulseEnd);
      var expired := Report(afterPulses, afterMaxOn, MaxOn);
      var wnc := ComputeWiredNcMask(cfg);
      var started := ReportFired(fired, Xor(afterFired, wnc), srcs);
      events := ended + expired + started;
    }

    // ---------------------------------------------------------- settings saves

    method AdoptModes(newCfg: Config, t: int)
      requires Valid()
      modifies this`cfg, this`pulsing, this`savePending, pulses, pulses.ends
      ensures Valid() && View() == RelaySpec.AdoptModes(old(View()), newCfg, t)
    {
      var oldHold := ComputeHoldMask(cfg);
      cfg := newCfg;
      pulsing := ModeLoop(cfg, mask, pulsing, pulses, t);
      var hold := ComputeHoldMask(cfg);
      if hold != oldHold {
        savePending := true;
      }
    }

    method AdoptSettings(newCfg: Config, e: Env)
      requires Valid()
      modifies this`cfg, this`pulsing, this`savePending, this`limited, pulses, pulses.ends, limits, limits.ends
      ensures Valid() && View() == Adopt(old(View()), newCfg, e)
    {
      var oldCfg := cfg;
      AdoptModes(newCfg, e.t0);
      var changed := ChangedLimitLoop(cfg, oldCfg);
      TrackMaxOnLocked(mask, changed, e.t1);
    }

    method ForceOff(conflict: Mask, e: Env)
      requires Valid()
      modifies this`mask, this`savePending, this`pulsing, this`pendingOn, this`limited, limits, limits.ends, chip
      ensures Valid() && View() == ClearConflict(old(View()), conflict, e)
    {
      var before := mask;
      var ok := CommitLocked(mask - conflict, e.w0);
      if ok {
        pulsing := pulsing - conflict;
        pendingOn := pendingOn - conflict;
        TrackMaxOnLocked(before, {}, e.t2);
      }
    }

    method UpdateConfig(newCfg: Config, e: Env) returns (events: seq<Event>)
      requires Valid()
      modifies Repr
      ensures Valid()
      ensures Outcome(View(), Ok, events) == RelaySpec.UpdateConfig(old(View()), newCfg, e)
    {
      var before := mask;
      AdoptSettings(newCfg, e);
      var kept, conflict := ClearInterlockConflicts(cfg, mask);
      if conflict != {} {
        ForceOff(conflict, e);
      }
      events := Report(before, mask, Interlock);
    }

    // --------------------------------------------------------------------- boot

    /** Which relays were on: the register after a warm start, the store after a cold one. */
    method FindHeld(b: BootEnv) returns (choice: Option<BootChoice>)
      requires Valid()
      ensures choice == ChooseHeld(View(), b)
    {
      var direction := chip.ReadDirection(b.readDirection);
      if direction == None {
        return None;
      }
      if direction.value == {} {
        var reg := chip.ReadOutputRegister(b.readOutput);
        return if reg == None then None else Some(BootChoice(true, reg.value));
      }
      return Some(BootChoice(false, if b.loadOk && store.Some? then store.value else {}));
    }

    method Init(newCfg: Config, b: BootEnv) returns (ok: bool)
      requires Valid() && Blank(View())
      modifies Repr
      ensures Valid()
      ensures Committed(View(), ok) == Boot(old(View()), newCfg, b)
    {
      Clear(newCfg, b.t0);
      var choice := FindHeld(b);
      if choice == None {
        return false;
      }
      ok := Restore(choice.value, b);
    }

    method Clear(newCfg: Config, t: int)
      requires Valid()
      modifies this
      ensures Valid() && View() == Cleared(old(View()), newCfg, t)
    {
      cfg := newCfg;
      pulsing, limited, pendingOn, savePending := {}, {}, {}, false;
      AddOfTrue(t, -DELAY);
      lastSaveMs, lastSave := Add(Wrap(t), -DELAY), t - DELAY;
    }

    method Restore(choice: BootChoice, b: BootEnv) returns (ok: bool)
      requires Valid()
      modifies this`mask, this`savePending, this`limited, limits, limits.ends, chip
      ensures Valid()
      ensures Committed(View(), ok) == RelaySpec.Restore(old(View()), choice, b)
    {
      var hold := ComputeHoldMask(cfg);
      var target, conflict := ClearInterlockConflicts(cfg, choice.held * hold);
      if choice.warm {
        ok := chip.WriteOutputs(target, b.write);
      } else {
        ok := chip.InitialiseOutputs(target, b.write, b.direction);
      }
      if ok {
        mask := target;
        TrackMaxOnLocked({}, {}, b.t1);
        savePending := choice.warm || conflict != {};
      }
    }
  }
}
