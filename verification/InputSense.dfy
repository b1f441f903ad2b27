/** Debounced inputs as the firmware runs them: one record and two per-channel arrays updated in
    place, loops over the channels. `outs` are the calls made to listeners and to the override
    function, in order. */
module InputSense {
  import opened Board
  import opened Clock32
  import opened Timers
  import opened InputSpec

  // ------------------------------------------------------------------ loops

  method ApplyOverride(c: Config, i: Channel, on: bool, boot: bool) returns (outs: seq<Out>)
    ensures outs == OverridesFrom(c, i, 0, on, boot)
  {
    outs := [];
    for r := 0 to CHANNELS
      invariant OverridesFrom(c, i, 0, on, boot) == outs + OverridesFrom(c, i, r, on, boot)
    {
      ghost var rest := OverridesFrom(c, i, r + 1, on, boot);
      var here := [];
      if c.overrideDi[r] == i + 1 {
        if c.link[r] == Toggle {
          if on && !boot {
            here := [Override(r + 1, ActToggle)];
          }
        } else {
          here := [Override(r + 1, if on then ActOn else ActOff)];
        }
      }
      assert outs + (here + rest) == (outs + here) + rest;
      outs := outs + here;
    }
  }

  method ReportAll(chans: Mask, mask: Mask) returns (outs: seq<Out>)
    ensures outs == ReportsFrom(0, chans, mask)
  {
    outs := [];
    for i := 0 to CHANNELS
      invariant ReportsFrom(0, chans, mask) == outs + ReportsFrom(i, chans, mask)
    {
      ghost var rest := ReportsFrom(i + 1, chans, mask);
      var here := if i in chans then [Report(i + 1, i in mask, mask)] else [];
      assert outs + (here + rest) == (outs + here) + rest;
      outs := outs + here;
    }
  }

  method BootOverrides(c: Config, chans: Mask, mask: Mask) returns (outs: seq<Out>)
    ensures outs == BootOverridesFrom(c, 0, chans, mask)
  {
    outs := [];
    for i := 0 to CHANNELS
      invariant BootOverridesFrom(c, 0, chans, mask) == outs + BootOverridesFrom(c, i, chans, mask)
    {
      ghost var rest := BootOverridesFrom(c, i + 1, chans, mask);
      var here := [];
      if i in chans {
        here := ApplyOverride(c, i, i in mask, true);
      }
      assert outs + (here + rest) == (outs + here) + rest;
      outs := outs + here;
    }
  }

  method ReportChange(c: Config, i: Channel, changed: Mask, boot: Mask, mask: Mask) returns (outs: seq<Out>)
    ensures outs == ChangeOf(c, i, changed, boot, mask)
  {
    outs := [];
    if i in changed {
      var over := ApplyOverride(c, i, i in mask, i in boot);
      outs := [Report(i + 1, i in mask, mask)] + over;
    }
  }

  method ReportChanges(c: Config, changed: Mask, boot: Mask, mask: Mask) returns (outs: seq<Out>)
    ensures outs == ChangesFrom(c, 0, changed, boot, mask)
  {
    hide ChangeOf;
    outs := [];
    for i := 0 to CHANNELS
      invariant ChangesFrom(c, 0, changed, boot, mask) == outs + ChangesFrom(c, i, changed, boot, mask)
    {
      ghost var rest := ChangesFrom(c, i + 1, changed, boot, mask);
      var here := ReportChange(c, i, changed, boot, mask);
      assert outs + (here + rest) == (outs + here) + rest;
      outs := outs + here;
    }
  }

  /** Samples every pin: candidates and their times follow, settled pins are collected. */
  method SampleLoop(c: Config, raw: Mask, t: int, candidate: array<bool>, since: WrappedTimes)
    returns (settled: Mask, value: Mask)
    requires candidate.Length == CHANNELS && since.Valid()
    modifies candidate, since, since.ends
    ensures since.Valid()
    ensures candidate[..] == seq(CHANNELS, i requires 0 <= i < CHANNELS => Reading(c, raw, i))
    ensures since.due == seq(CHANNELS, i requires 0 <= i < CHANNELS =>
              if Reading(c, raw, i) != old(candidate[i]) then t else old(since.due)[i])
    ensures settled == set i: Channel | Elapsed(Wrap(t), Wrap(since.due[i])) >= c.debounceMs
    ensures value == set i | i in settled && candidate[i]
  {
    var now := Wrap(t);
    ghost var was := candidate[..];
    ghost var sinceWas := since.due;
    settled, value := {}, {};
    for i := 0 to CHANNELS
      invariant since.Valid()
      invariant forall j: Channel :: candidate[j] == if j < i then Reading(c, raw, j) else was[j]
      invariant forall j: Channel :: since.due[j] == if j < i && Reading(c, raw, j) != was[j] then t else sinceWas[j]
      invariant forall j: Channel :: j in settled <==> j < i && Elapsed(now, Wrap(since.due[j])) >= c.debounceMs
      invariant forall j: Channel :: j in value <==> j in settled && candidate[j]
    {
      var v := Reading(c, raw, i);
      if v != candidate[i] {
        candidate[i] := v;
        since.Start(i, t, 0);
      }
      var age := since.Age(i, now, t);
      if age >= c.debounceMs {
        settled := settled + {i};
        if v {
          value := value + {i};
        }
      }
    }
  }

  method CompareLoop(candidate: array<bool>, settled: Mask, stable: Mask) returns (changed: Mask)
    requires candidate.Length == CHANNELS
    ensures changed == set i | i in settled && candidate[i] != (i in stable)
  {
    changed := {};
    for i := 0 to CHANNELS
      invariant forall j: Channel :: j in changed <==> j < i && j in settled && candidate[j] != (j in stable)
    {
      if i in settled && candidate[i] != (i in stable) {
        changed := changed + {i};
      }
    }
  }

  method FlipLoop(was: Config, c: Config, candidate: array<bool>) returns (flipped: Mask)
    requires candidate.Length == CHANNELS
    modifies candidate
    ensures flipped == set i: Channel | c.invert[i] != was.invert[i]
    ensures candidate[..] == seq(CHANNELS, i requires 0 <= i < CHANNELS =>
              if i in flipped then !old(candidate[i]) else old(candidate[i]))
  {
    ghost var before := candidate[..];
    flipped := {};
    for i := 0 to CHANNELS
      invariant forall j: Channel :: j in flipped <==> j < i && c.invert[j] != was.invert[j]
      invariant forall j: Channel :: candidate[j] == if j in flipped then !before[j] else before[j]
    {
      if c.invert[i] != was.invert[i] {
        candidate[i] := !candidate[i];
        flipped := flipped + {i};
      }
    }
  }

  // -------------------------------------------------------------- the record

  class Inputs {
    var cfg: Config
    const candidate: array<bool>
    const since: WrappedTimes
    var stable: Mask
    var startMs: Word
    var late: Mask
    var published: Mask
    var ready: bool

    ghost var start: int

    ghost const Repr: set<object> := {this, candidate, since, since.ends}

    ghost predicate Valid()
      reads Repr
    {
      candidate.Length == CHANNELS && since.Valid() && startMs == Wrap(start)
      && published == (if ready then stable else {})
    }

    ghost function View(): State
      requires candidate.Length == CHANNELS
      reads Repr
    {
      State(cfg, candidate[..], since.due, stable, start, late, ready)
    }

    constructor (c: Config, raw: Mask, t: int)
      ensures Valid() && View() == InputSpec.Init(c, raw, t) && fresh(Repr)
    {
      cfg := c;
      candidate := new bool[CHANNELS](i requires 0 <= i < CHANNELS => Reading(c, raw, i));
      since := new WrappedTimes();
      stable, late, published, ready := {}, {}, {}, false;
      startMs, start := Wrap(t), t;
      new;
      for i := 0 to CHANNELS
        invariant since.Valid() && fresh(Repr)
        invariant forall j: Channel :: j < i ==> since.due[j] == t
        invariant cfg == c && stable == {} && late == {} && published == {} && !ready
        invariant start == t && startMs == Wrap(t)
        invariant forall j: Channel :: candidate[j] == Reading(c, raw, j)
      {
        since.Start(i, t, 0);
      }
      assert since.due == seq(CHANNELS, _ => t);
      assert candidate[..] == InputSpec.Init(c, raw, t).candidate;
    }

    method Poll(raw: Mask, t: int) returns (outs: seq<Out>)
      requires Valid()
      modifies Repr
      ensures Valid()
      ensures Result(View(), outs) == InputSpec.Poll(old(View()), raw, t)
    {
      ghost var s := View();
      var settled, value := SampleLoop(cfg, raw, t, candidate, since);
      ghost var s1 := Sample(s, raw, t);
      assert View() == s1;
      assert settled == Settled(s1, t) && value == SettledOn(s1, t);
      if !ready {
        if settled != ALL && Elapsed(Wrap(t), startMs) < cfg.debounceMs + GRACE {
          return [];
        }
        outs := FirstReadings(settled, value);
      } else {
        outs := LaterReadings(settled, t);
      }
    }

    method FirstReadings(settled: Mask, value: Mask) returns (outs: seq<Out>)
      requires Valid() && !ready
      modifies this`stable, this`late, this`published, this`ready
      ensures Valid()
      ensures View() == old(View()).(stable := value, late := ALL - settled, ready := true)
      ensures outs == ReportsFrom(0, ALL, value) + BootOverridesFrom(cfg, 0, settled, value)
    {
      stable := value;
      late := ALL - settled;
      published := stable;
      ready := true;
      var reports := ReportAll(ALL, stable);
      var overrides := BootOverrides(cfg, settled, stable);
      outs := reports + overrides;
    }

    method LaterReadings(settled: Mask, ghost t: int) returns (outs: seq<Out>)
      requires Valid() && ready && settled == Settled(View(), t)
      modifies this`stable, this`late, this`published
      ensures Valid()
      ensures Result(View(), outs) == Update(old(View()), t)
    {
      var changed := CompareLoop(candidate, settled, stable);
      assert changed == Changed(View(), t);
      var boot := settled * late;
      late := late - settled;
      stable := Xor(stable, changed);
      published := stable;
      outs := ReportChanges(cfg, changed, boot, stable);
    }

    method UpdateConfig(c: Config) returns (outs: seq<Out>)
      requires Valid()
      modifies Repr
      ensures Valid()
      ensures Result(View(), outs) == Save(old(View()), c)
    {
      var flipped := FlipLoop(cfg, c, candidate);
      cfg := c;
      if flipped == {} || !ready {
        return [];
      }
      stable := Xor(stable, flipped);
      published := stable;
      outs := ReportAll(flipped, stable);
    }
  }
}
