/** Properties of debouncing over whole runs. */
module InputRuns {
  import opened Board
  import opened Clock32
  import opened InputSpec

  datatype Event = Polled(raw: Mask, t: int) | Saved(cfg: Config)
  datatype Sampled = Sampled(raw: Mask, t: int)

  function Apply(s: State, e: Event): Result {
    match e
    case Polled(raw, t) => Poll(s, raw, t)
    case Saved(c) => Save(s, c)
  }

  function At(s: State, es: seq<Event>, k: nat): State
    requires k <= |es|
  {
    if k == 0 then s else Apply(At(s, es, k - 1), es[k - 1]).s
  }

  /** Every pin sample so far, the one taken at start-up first. */
  function Samples(first: Sampled, es: seq<Event>, k: nat): (h: seq<Sampled>)
    requires k <= |es|
    ensures |h| > 0
  {
    if k == 0 then [first]
    else
      var h := Samples(first, es, k - 1);
      if es[k - 1].Polled? then h + [Sampled(es[k - 1].raw, es[k - 1].t)] else h
  }

  function Last(h: seq<Sampled>): Sampled
    requires |h| > 0
  {
    h[|h| - 1]
  }

  /** Index of the first sample of the longest suffix on which pin `i` did not change. */
  function SuffixStart(h: seq<Sampled>, i: Channel): nat
    requires |h| > 0
    ensures SuffixStart(h, i) < |h|
  {
    var n := |h| - 1;
    if n == 0 then 0
    else if (i in h[n].raw) != (i in h[n - 1].raw) then n
    else SuffixStart(h[..n], i)
  }

  lemma {:induction false} SuffixIsLongestConstant(h: seq<Sampled>, i: Channel)
    requires |h| > 0
    ensures var k := SuffixStart(h, i);
            && (forall j :: k <= j < |h| ==> (i in h[j].raw <==> i in Last(h).raw))
            && (k > 0 ==> (i in h[k - 1].raw) != (i in Last(h).raw))
  {
    var n := |h| - 1;
    if n > 0 && (i in h[n].raw) == (i in h[n - 1].raw) {
      SuffixIsLongestConstant(h[..n], i);
      var k := SuffixStart(h[..n], i);
      forall j | k <= j < |h| ensures i in h[j].raw <==> i in Last(h).raw {
        if j < n {
          assert h[..n][j] == h[j];
        }
      }
    }
  }

  /** Since when pin `i` has been at its present level. */
  function SteadySince(h: seq<Sampled>, i: Channel): int
    requires |h| > 0
  {
    h[SuffixStart(h, i)].t
  }

  lemma SteadySinceStep(h: seq<Sampled>, raw: Mask, t: int, i: Channel)
    requires |h| > 0
    ensures SteadySince(h + [Sampled(raw, t)], i) ==
            if (i in raw) != (i in Last(h).raw) then t else SteadySince(h, i)
  {
    var g := h + [Sampled(raw, t)];
    assert g[..|h|] == h;
  }

  /** The candidate is the last sample's reading under the present settings, and its time is the
      start of the longest constant suffix of that pin's samples. */
  predicate Describes(s: State, h: seq<Sampled>, i: Channel)
    requires |h| > 0
  {
    s.candidate[i] == Reading(s.cfg, Last(h).raw, i) && s.since[i] == SteadySince(h, i)
  }

  lemma PollDescribes(s: State, h: seq<Sampled>, raw: Mask, t: int, i: Channel)
    requires |h| > 0 && Describes(s, h, i)
    ensures Describes(Poll(s, raw, t).s, h + [Sampled(raw, t)], i)
  {
    SteadySinceStep(h, raw, t, i);
    hide SteadySince;
  }

  lemma SaveDescribes(s: State, h: seq<Sampled>, c: Config, i: Channel)
    requires |h| > 0 && Describes(s, h, i)
    ensures Describes(Save(s, c).s, h, i)
  {
    hide SteadySince;
  }

  lemma {:induction false} DebounceDescribesHistory(c: Config, first: Sampled, es: seq<Event>, k: nat, i: Channel)
    requires k <= |es|
    ensures Describes(At(Init(c, first.raw, first.t), es, k), Samples(first, es, k), i)
  {
    if k > 0 {
      DebounceDescribesHistory(c, first, es, k - 1, i);
      var s, h := At(Init(c, first.raw, first.t), es, k - 1), Samples(first, es, k - 1);
      match es[k - 1]
      case Polled(raw, t) => PollDescribes(s, h, raw, t, i);
      case Saved(cfg) => SaveDescribes(s, h, cfg, i);
    } else {
      assert Last([first]) == first;
    }
  }

  predicate InOrder(first: Sampled, es: seq<Event>) {
    && (forall k :: 0 <= k < |es| && es[k].Polled? ==> first.t <= es[k].t)
    && (forall j, k :: 0 <= j < k < |es| && es[j].Polled? && es[k].Polled? ==> es[j].t <= es[k].t)
  }

  lemma {:induction false} SamplesInPast(first: Sampled, es: seq<Event>, k: nat, j: nat, t: int)
    requires k <= |es| && j < |Samples(first, es, k)| && first.t <= t
    requires forall m :: 0 <= m < k && es[m].Polled? ==> es[m].t <= t
    ensures Samples(first, es, k)[j].t <= t
  {
    if k > 0 && j < |Samples(first, es, k - 1)| {
      SamplesInPast(first, es, k - 1, j, t);
    }
  }

  lemma SteadySincePast(first: Sampled, es: seq<Event>, k: nat, i: Channel)
    requires InOrder(first, es) && k < |es| && es[k].Polled?
    ensures SteadySince(Samples(first, es, k + 1), i) <= es[k].t
  {
    SamplesInPast(first, es, k + 1, SuffixStart(Samples(first, es, k + 1), i), es[k].t);
  }

  // ------------------------------------------------------------- when it flips

  /** The pin level the reported state stands for, seen through invert. */
  predicate ReportedLow(s: State, i: Channel) {
    (i in s.stable) != s.cfg.invert[i]
  }

  lemma FlipStep(s: State, e: Event, i: Channel)
    requires s.ready && ReportedLow(Apply(s, e).s, i) != ReportedLow(s, i)
    ensures e.Polled? && IsSettled(Sample(s, e.raw, e.t), e.t, i) && Apply(s, e).s.since == Sample(s, e.raw, e.t).since
    ensures Apply(s, e).s.cfg == s.cfg && (ReportedLow(Apply(s, e).s, i) <==> i !in e.raw)
  {
    if e.Saved? {
      SaveFlipsNothing(s, e.cfg, i);
    }
  }

  lemma SaveFlipsNothing(s: State, c: Config, i: Channel)
    requires s.ready
    ensures ReportedLow(Save(s, c).s, i) == ReportedLow(s, i)
  {
    assert i in Flipped(s, c) <==> c.invert[i] != s.cfg.invert[i];
  }

  /** After start-up the reported level of a pin changes only at a poll at which the pin has been
      steady, in true time, for at least the debounce time, and then to the pin's level; a
      settings save never changes it. */
  lemma FlipsOnlyWhenSteady(c: Config, first: Sampled, es: seq<Event>, k: nat, i: Channel)
    requires InOrder(first, es) && k < |es|
    requires var s := At(Init(c, first.raw, first.t), es, k);
             s.ready && ReportedLow(Apply(s, es[k]).s, i) != ReportedLow(s, i)
    ensures es[k].Polled?
    ensures var s := At(Init(c, first.raw, first.t), es, k); var h := Samples(first, es, k + 1);
            && es[k].t - SteadySince(h, i) >= s.cfg.debounceMs
            && (ReportedLow(Apply(s, es[k]).s, i) <==> i !in es[k].raw)
  {
    var s := At(Init(c, first.raw, first.t), es, k);
    FlipStep(s, es[k], i);
    assert At(Init(c, first.raw, first.t), es, k + 1) == Apply(s, es[k]).s;
    SteadySincePast(first, es, k, i);
    hide Apply, ReportedLow, Sample, At, Samples, SteadySince, InOrder;
    DebounceDescribesHistory(c, first, es, k + 1, i);
    ElapsedBound(es[k].t, SteadySince(Samples(first, es, k + 1), i));
  }

  /** And it does follow: at a poll after start-up, a pin steady for the debounce time (and for
      less than 2^32 ms) is reported at its level. */
  lemma SteadyIsReported(c: Config, first: Sampled, es: seq<Event>, k: nat, i: Channel)
    requires InOrder(first, es) && k < |es| && es[k].Polled?
    requires var s := At(Init(c, first.raw, first.t), es, k);
             s.ready && s.cfg.debounceMs <= es[k].t - SteadySince(Samples(first, es, k + 1), i) < WORD
    ensures ReportedLow(At(Init(c, first.raw, first.t), es, k + 1), i) <==> i !in es[k].raw
  {
    var s := At(Init(c, first.raw, first.t), es, k);
    DebounceDescribesHistory(c, first, es, k + 1, i);
    var t := es[k].t;
    var s1 := Sample(s, es[k].raw, t);
    assert At(Init(c, first.raw, first.t), es, k + 1).since == s1.since;
    SteadySincePast(first, es, k, i);
    ElapsedBound(t, s1.since[i]);
    assert IsSettled(s1, t, i) && i in Settled(s1, t);
  }

  // ------------------------------------------------------------ the first readings

  lemma {:induction false} StartStays(c: Config, first: Sampled, es: seq<Event>, k: nat)
    requires k <= |es|
    ensures At(Init(c, first.raw, first.t), es, k).start == first.t
  {
    hide Settled, SettledOn, Changed, Waiting;
    if k > 0 {
      StartStays(c, first, es, k - 1);
    }
  }

  /** Pin `i` has been steady for the debounce time, on the 32-bit clock. */
  predicate LongSteady(h: seq<Sampled>, i: Channel, t: int, debounceMs: int)
    requires |h| > 0
  {
    Elapsed(Wrap(t), Wrap(SteadySince(h, i))) >= debounceMs
  }

  predicate AllLongSteady(h: seq<Sampled>, t: int, debounceMs: int)
    requires |h| > 0
  {
    forall j: Channel :: LongSteady(h, j, t, debounceMs)
  }

  /** The inputs become ready at the first poll that finds every pin steady for the debounce time, or at
      the first one a second and the debounce time after start-up; a settings save changes nothing about
      it. Then every steady pin is reported at its level, and the others as off until they settle. */
  lemma ReadyIff(c: Config, first: Sampled, es: seq<Event>, k: nat, i: Channel)
    requires k < |es|
    ensures var s, r := At(Init(c, first.raw, first.t), es, k), At(Init(c, first.raw, first.t), es, k + 1);
            var e, h := es[k], Samples(first, es, k + 1);
            && (r.ready <==>
                  || s.ready
                  || (e.Polled? && AllLongSteady(h, e.t, s.cfg.debounceMs))
                  || (e.Polled? && Elapsed(Wrap(e.t), Wrap(first.t)) >= s.cfg.debounceMs + 1000))
            && (!s.ready && r.ready ==>
                  && (i in r.stable <==> LongSteady(h, i, e.t, s.cfg.debounceMs) && Reading(s.cfg, e.raw, i))
                  && (i in r.late <==> !LongSteady(h, i, e.t, s.cfg.debounceMs)))
  {
    hide Apply, LongSteady, Reading;
    var s0 := Init(c, first.raw, first.t);
    var s, e := At(s0, es, k), es[k];
    assert At(s0, es, k + 1) == Apply(s, e).s;
    StartStays(c, first, es, k);
    hide At, Samples, SteadySince, Init;
    var h := Samples(first, es, k + 1);
    match e
    case Saved(cfg) => SaveReadiesNothing(s, cfg);
    case Polled(raw, t) =>
      forall j: Channel ensures IsSettled(Sample(s, raw, t), t, j) <==> LongSteady(h, j, t, s.cfg.debounceMs) {
        DebounceDescribesHistory(c, first, es, k + 1, j);
        SettledMeans(s, raw, t, h, j);
      }
      PollReadies(s, raw, t, i);
  }

  lemma SaveReadiesNothing(s: State, c: Config)
    ensures Apply(s, Saved(c)).s.ready == s.ready
  {
  }

  lemma SettledMeans(s: State, raw: Mask, t: int, h: seq<Sampled>, j: Channel)
    requires |h| > 0 && Describes(Apply(s, Polled(raw, t)).s, h, j)
    ensures IsSettled(Sample(s, raw, t), t, j) <==> LongSteady(h, j, t, s.cfg.debounceMs)
  {
    hide SteadySince, Settled, SettledOn, Changed;
    assert Poll(s, raw, t).s.since == Sample(s, raw, t).since;
  }

  lemma PollReadies(s: State, raw: Mask, t: int, i: Channel)
    ensures var s1, r := Sample(s, raw, t), Apply(s, Polled(raw, t)).s;
            && (r.ready <==>
                  || s.ready || (forall j: Channel :: IsSettled(s1, t, j))
                  || Elapsed(Wrap(t), Wrap(s.start)) >= s.cfg.debounceMs + 1000)
            && (!s.ready && r.ready ==>
                  && (i in r.stable <==> IsSettled(s1, t, i) && Reading(s.cfg, raw, i))
                  && (i in r.late <==> !IsSettled(s1, t, i)))
  {
    hide IsSettled, Reading;
    SettledAll(Sample(s, raw, t), t);
    assert i in ALL;
  }

  lemma SettledAll(s: State, t: int)
    ensures Settled(s, t) == ALL <==> forall j: Channel :: IsSettled(s, t, j)
  {
    hide IsSettled;
    forall j: Channel ensures j in ALL && (j in Settled(s, t) <==> IsSettled(s, t, j)) {
    }
    if Settled(s, t) == ALL {
      forall j: Channel ensures IsSettled(s, t, j) {
        assert j in Settled(s, t);
      }
    }
  }

  // -------------------------------------------- saving a setting switches nothing

  /** Ready, with every reported level equal to the sampled one. */
  predicate Quiet(s: State) {
    s.ready && forall i: Channel :: s.candidate[i] == (i in s.stable)
  }

  predicate NoOverride(outs: seq<Out>) {
    forall k :: 0 <= k < |outs| ==> !outs[k].Override?
  }

  lemma {:induction false} ReportsAreNoOverrides(i: int, chans: Mask, mask: Mask)
    requires 0 <= i <= CHANNELS
    ensures NoOverride(ReportsFrom(i, chans, mask))
    decreases CHANNELS - i
  {
    if i < CHANNELS {
      ReportsAreNoOverrides(i + 1, chans, mask);
    }
  }

  lemma {:induction false} NoChangesNoOuts(c: Config, i: int, boot: Mask, mask: Mask)
    requires 0 <= i <= CHANNELS
    ensures ChangesFrom(c, i, {}, boot, mask) == []
    decreases CHANNELS - i
  {
    if i < CHANNELS {
      NoChangesNoOuts(c, i + 1, boot, mask);
    }
  }

  /** One event over quiet inputs: a save, or a poll of pins that read as they last did. */
  predicate Steady(s: State, e: Event) {
    e.Polled? ==> forall i: Channel :: Reading(s.cfg, e.raw, i) == s.candidate[i]
  }

  lemma SteadyStepIsSilent(s: State, e: Event)
    requires Quiet(s) && Steady(s, e)
    ensures Quiet(Apply(s, e).s) && NoOverride(Apply(s, e).outs)
  {
    match e
    case Saved(c) =>
      ReportsAreNoOverrides(0, Flipped(s, c), Xor(s.stable, Flipped(s, c)));
    case Polled(raw, t) =>
      var s1 := Sample(s, raw, t);
      assert s1.candidate == s.candidate;
      assert Changed(s1, t) == {};
      NoChangesNoOuts(s.cfg, 0, Settled(s1, t) * s1.late, Xor(s1.stable, {}));
  }

  /** Saving settings never switches a relay: over steady, settled pins no sequence of polls and
      of invert, debounce or override saves ever fires an override. */
  lemma {:induction false} SavesFireNothing(s: State, es: seq<Event>, k: nat)
    requires Quiet(s) && k <= |es|
    requires forall j :: 0 <= j < |es| ==> Steady(At(s, es, j), es[j])
    ensures Quiet(At(s, es, k))
    ensures k > 0 ==> NoOverride(Apply(At(s, es, k - 1), es[k - 1]).outs)
  {
    if k > 0 {
      SavesFireNothing(s, es, k - 1);
      SteadyStepIsSilent(At(s, es, k - 1), es[k - 1]);
    }
  }

  // ------------------------------------------------- exactly which overrides fire

  /** How often `outs` switches relay `r` with action `a`. */
  function Count(outs: seq<Out>, r: Channel, a: Action): nat {
    if outs == [] then 0
    else (if outs[0] == Override(r + 1, a) then 1 else 0) + Count(outs[1..], r, a)
  }

  lemma {:induction false} CountConcat(x: seq<Out>, y: seq<Out>, r: Channel, a: Action)
    ensures Count(x + y, r, a) == Count(x, r, a) + Count(y, r, a)
  {
    if x == [] {
      assert x + y == y;
    } else {
      assert (x + y)[1..] == x[1..] + y;
      CountConcat(x[1..], y, r, a);
    }
  }

  lemma CountNone(r: Channel, a: Action)
    ensures Count([], r, a) == 0
  {
  }

  /** What relay `r`'s link makes of its input reading `on`. A toggle link ignores releases and
      boot readings. */
  predicate Asks(c: Config, r: Channel, on: bool, boot: bool, a: Action) {
    if c.link[r] == Toggle then a == ActToggle && on && !boot
    else a == if on then ActOn else ActOff
  }

  lemma {:induction false} OverrideCount(c: Config, i: Channel, q: int, on: bool, boot: bool, r: Channel, a: Action)
    requires 0 <= q <= CHANNELS
    ensures Count(OverridesFrom(c, i, q, on, boot), r, a) ==
            if q <= r && Drives(c, i, r) && Asks(c, r, on, boot, a) then 1 else 0
    decreases CHANNELS - q
  {
    if q < CHANNELS {
      OverrideCount(c, i, q + 1, on, boot, r, a);
      CountConcat(OverrideOf(c, i, q, on, boot), OverridesFrom(c, i, q + 1, on, boot), r, a);
    }
  }

  /** The 0-based input that drives relay `r`, -1 for none. */
  function Driver(c: Config, r: Channel): int {
    c.overrideDi[r] as int - 1
  }

  lemma ReportCount(i: int, mask: Mask, outs: seq<Out>, r: Channel, a: Action)
    ensures Count([Report(i + 1, i in mask, mask)] + outs, r, a) == Count(outs, r, a)
  {
    var here := [Report(i + 1, i in mask, mask)];
    assert (here + outs)[1..] == outs;
  }

  lemma ChangeOfCount(c: Config, i: Channel, changed: Mask, boot: Mask, mask: Mask, r: Channel, a: Action)
    ensures Count(ChangeOf(c, i, changed, boot, mask), r, a) ==
            if Driver(c, r) == i && i in changed && Asks(c, r, i in mask, i in boot, a) then 1 else 0
  {
    OverrideCount(c, i, 0, i in mask, i in boot, r, a);
    ReportCount(i, mask, OverridesFrom(c, i, 0, i in mask, i in boot), r, a);
  }

  lemma {:induction false} ChangeCount(c: Config, i: int, changed: Mask, boot: Mask, mask: Mask, r: Channel, a: Action)
    requires 0 <= i <= CHANNELS
    ensures Count(ChangesFrom(c, i, changed, boot, mask), r, a) ==
            (var d := Driver(c, r);
             if i <= d < CHANNELS && d in changed && Asks(c, r, d in mask, d in boot, a) then 1 else 0)
    decreases CHANNELS - i
  {
    hide ChangeOf;
    if i < CHANNELS {
      ChangeCount(c, i + 1, changed, boot, mask, r, a);
      ChangeOfCount(c, i, changed, boot, mask, r, a);
      CountConcat(ChangeOf(c, i, changed, boot, mask), ChangesFrom(c, i + 1, changed, boot, mask), r, a);
    }
  }

  lemma {:induction false} BootCount(c: Config, i: int, chans: Mask, mask: Mask, r: Channel, a: Action)
    requires 0 <= i <= CHANNELS
    ensures Count(BootOverridesFrom(c, i, chans, mask), r, a) ==
            (var d := Driver(c, r);
             if i <= d < CHANNELS && d in chans && Asks(c, r, d in mask, true, a) then 1 else 0)
    decreases CHANNELS - i
  {
    hide Count, OverridesFrom, Asks;
    CountNone(r, a);
    if i < CHANNELS {
      BootCount(c, i + 1, chans, mask, r, a);
      OverrideCount(c, i, 0, i in mask, true, r, a);
      var here := if i in chans then OverridesFrom(c, i, 0, i in mask, true) else [];
      CountConcat(here, BootOverridesFrom(c, i + 1, chans, mask), r, a);
    }
  }

  lemma {:induction false} ReportsCountNothing(i: int, chans: Mask, mask: Mask, r: Channel, a: Action)
    requires 0 <= i <= CHANNELS
    ensures Count(ReportsFrom(i, chans, mask), r, a) == 0
    decreases CHANNELS - i
  {
    hide Count;
    CountNone(r, a);
    if i < CHANNELS {
      ReportsCountNothing(i + 1, chans, mask, r, a);
      var rest := ReportsFrom(i + 1, chans, mask);
      ReportCount(i, mask, rest, r, a);
      assert [] + rest == rest;
    }
  }

  /** Relay `r` is to be switched with `a`: its input is first read settled when the inputs
      become ready, or a later poll changes what it reports. An input that was late then counts
      as read for the first time. */
  predicate Demands(s: State, e: Event, r: Channel, a: Action) {
    var d := Driver(s.cfg, r);
    var s1 := Apply(s, e).s;
    && e.Polled? && s1.ready && 0 <= d < CHANNELS
    && (if s.ready then (d in s.stable) != (d in s1.stable) && Asks(s.cfg, r, d in s1.stable, d in s.late, a)
        else IsSettled(Sample(s, e.raw, e.t), e.t, d) && Asks(s.cfg, r, d in s1.stable, true, a))
  }

  /** Every event fires exactly the overrides its inputs demand, each once, and no others. */
  lemma OverridesExactlyAsDemanded(s: State, e: Event, r: Channel, a: Action)
    ensures Count(Apply(s, e).outs, r, a) == if Demands(s, e, r, a) then 1 else 0
  {
    match e
    case Saved(c) =>
      ReportsCountNothing(0, Flipped(s, c), Xor(s.stable, Flipped(s, c)), r, a);
    case Polled(raw, t) =>
      var s1 := Sample(s, raw, t);
      if s1.ready {
        var settled, changed := Settled(s1, t), Changed(s1, t);
        ChangeCount(s.cfg, 0, changed, settled * s1.late, Xor(s1.stable, changed), r, a);
      } else if !Waiting(s1, t) {
        var stable := SettledOn(s1, t);
        ReportsCountNothing(0, ALL, stable, r, a);
        BootCount(s.cfg, 0, Settled(s1, t), stable, r, a);
        CountConcat(ReportsFrom(0, ALL, stable), BootOverridesFrom(s.cfg, 0, Settled(s1, t), stable), r, a);
      }
  }

  /** A press of the input that relay `r` is linked to: a poll turns it from off to on, and it is
      not the input's first settled reading. */
  predicate Press(s: State, e: Event, r: Channel) {
    var d := Driver(s.cfg, r);
    && e.Polled? && s.ready && 0 <= d < CHANNELS
    && d !in s.stable && d in Apply(s, e).s.stable && d !in s.late
  }

  /** A toggle link fires exactly once for every press, and never otherwise: not on a release,
      not for a first reading, not at start-up, not for a settings save. */
  lemma ToggleOncePerPress(s: State, e: Event, r: Channel)
    requires s.cfg.link[r] == Toggle
    ensures Count(Apply(s, e).outs, r, ActToggle) == if Press(s, e, r) then 1 else 0
  {
    OverridesExactlyAsDemanded(s, e, r, ActToggle);
  }

  /** An input that was late and now settles drives its follow-linked relay at this poll exactly
      when its level differs from the one reported for it meanwhile; if it settles at that
      level, the relay never gets a start-up override. */
  lemma LateOverrideIff(s: State, raw: Mask, t: int, r: Channel)
    requires s.ready && s.cfg.link[r] == Follow && 0 <= Driver(s.cfg, r) < CHANNELS
    requires Driver(s.cfg, r) in s.late && Driver(s.cfg, r) in Settled(Sample(s, raw, t), t)
    ensures var d: Channel := Driver(s.cfg, r); var p := Poll(s, raw, t); var on := Reading(s.cfg, raw, d);
            && d !in p.s.late
            && Count(p.outs, r, if on then ActOn else ActOff) == (if on != (d in s.stable) then 1 else 0)
  {
    OverridesExactlyAsDemanded(s, Polled(raw, t), r, if Reading(s.cfg, raw, Driver(s.cfg, r)) then ActOn else ActOff);
  }

  // ------------------------------------------------- exactly which reports go out

  predicate IsReport(x: Out, i: Channel) {
    x.Report? && x.channel == i + 1
  }

  predicate IsOverride(c: Config, x: Out, i: Channel) {
    x.Override? && 1 <= x.relay <= CHANNELS && Driver(c, x.relay - 1) == i
  }

  predicate NoneReported(outs: seq<Out>, i: Channel) {
    forall p :: 0 <= p < |outs| ==> !IsReport(outs[p], i)
  }

  predicate NoneDriven(c: Config, outs: seq<Out>, i: Channel) {
    forall p :: 0 <= p < |outs| ==> !IsOverride(c, outs[p], i)
  }

  lemma {:induction false} OverridesDrive(c: Config, j: Channel, q: int, on: bool, boot: bool, i: Channel)
    requires 0 <= q <= CHANNELS
    ensures NoneReported(OverridesFrom(c, j, q, on, boot), i)
    ensures i != j ==> NoneDriven(c, OverridesFrom(c, j, q, on, boot), i)
    decreases CHANNELS - q
  {
    if q < CHANNELS {
      OverridesDrive(c, j, q + 1, on, boot, i);
    }
  }

  lemma {:induction false} BootOverridesReportNothing(c: Config, j: int, chans: Mask, mask: Mask, i: Channel)
    requires 0 <= j <= CHANNELS
    ensures NoneReported(BootOverridesFrom(c, j, chans, mask), i)
    decreases CHANNELS - j
  {
    if j < CHANNELS {
      BootOverridesReportNothing(c, j + 1, chans, mask, i);
      OverridesDrive(c, j, 0, j in mask, true, i);
    }
  }

  lemma NotAmong(outs: seq<Out>, i: Channel, x: Out)
    requires NoneReported(outs, i) && IsReport(x, i)
    ensures multiset(outs)[x] == 0
  {
    assert x !in outs;
  }

  /** The report of channel `i` among `chans`, if it is one of them from `lo` up. */
  predicate Reports(x: Out, lo: int, chans: Mask, mask: Mask) {
    x.Report? && lo < x.channel <= CHANNELS && x.channel - 1 in chans
    && x.on == (x.channel - 1 in mask) && x.mask == mask
  }

  function ReportOf(i: Channel, chans: Mask, mask: Mask): seq<Out> {
    if i in chans then [Report(i + 1, i in mask, mask)] else []
  }

  lemma ReportsStep(i: int, chans: Mask, mask: Mask, x: Out)
    requires 0 <= i <= CHANNELS && x.Report?
    ensures ReportsFrom(i, chans, mask)
         == if i == CHANNELS then [] else ReportOf(i, chans, mask) + ReportsFrom(i + 1, chans, mask)
    ensures i == CHANNELS ==> !Reports(x, i, chans, mask)
  {
  }

  lemma {:induction false} ReportsOf(i: int, chans: Mask, mask: Mask, x: Out)
    requires 0 <= i <= CHANNELS && x.Report?
    ensures multiset(ReportsFrom(i, chans, mask))[x] == if Reports(x, i, chans, mask) then 1 else 0
    decreases CHANNELS - i
  {
    hide ReportsFrom, Reports;
    ReportsStep(i, chans, mask, x);
    if i < CHANNELS {
      ReportsOf(i + 1, chans, mask, x);
      OneOf(ReportOf(i, chans, mask), x);
      ReportsNext(i, chans, mask, x);
    }
  }

  lemma OneOf(outs: seq<Out>, x: Out)
    requires |outs| <= 1
    ensures multiset(outs)[x] == if outs == [x] then 1 else 0
  {
    if |outs| == 1 {
      assert outs == [outs[0]];
    }
  }

  lemma ReportsNext(i: Channel, chans: Mask, mask: Mask, x: Out)
    ensures Reports(x, i, chans, mask)
       <==> Reports(x, i + 1, chans, mask) || (i in chans && x == Report(i + 1, i in mask, mask))
    ensures !Reports(Report(i + 1, i in mask, mask), i + 1, chans, mask)
  {
  }

  lemma ChangeReports(c: Config, i: Channel, changed: Mask, boot: Mask, mask: Mask, x: Out)
    requires x.Report? && 1 <= x.channel <= CHANNELS
    ensures multiset(ChangeOf(c, i, changed, boot, mask))[x]
         == if i in changed && x == Report(i + 1, i in mask, mask) then 1 else 0
  {
    hide OverridesFrom, NoneReported, NoneDriven;
    OverridesDrive(c, i, 0, i in mask, i in boot, x.channel - 1);
    NotAmong(OverridesFrom(c, i, 0, i in mask, i in boot), x.channel - 1, x);
  }

  lemma {:induction false} ChangesReport(c: Config, i: int, changed: Mask, boot: Mask, mask: Mask, x: Out)
    requires 0 <= i <= CHANNELS && x.Report? && 1 <= x.channel <= CHANNELS
    ensures multiset(ChangesFrom(c, i, changed, boot, mask))[x] == if Reports(x, i, changed, mask) then 1 else 0
    decreases CHANNELS - i
  {
    hide ChangeOf;
    if i < CHANNELS {
      ChangesReport(c, i + 1, changed, boot, mask, x);
      ChangeReports(c, i, changed, boot, mask, x);
    }
  }

  /** Channel `i` is to be reported: the inputs become ready, or are and its reported state flips. */
  predicate ToReport(s: State, e: Event, i: Channel) {
    var s1 := Apply(s, e).s;
    s1.ready && (s.ready ==> (i in s.stable) != (i in s1.stable))
  }

  /** Every event tells the listeners of exactly the channels to be reported, each once, with its new
      state and the new mask: the polls that find a change, the one at which the inputs become ready,
      and the saves that turn an input round. */
  lemma ReportsExactlyAsChanged(s: State, e: Event, i: Channel, on: bool, mask: Mask)
    ensures var r := Apply(s, e);
            multiset(r.outs)[Report(i + 1, on, mask)]
            == if ToReport(s, e, i) && on == (i in r.s.stable) && mask == r.s.stable then 1 else 0
  {
    hide ReportsFrom, BootOverridesFrom, ChangesFrom;
    var x := Report(i + 1, on, mask);
    match e
    case Saved(c) =>
      ReportsOf(0, Flipped(s, c), Xor(s.stable, Flipped(s, c)), x);
    case Polled(raw, t) =>
      var s1 := Sample(s, raw, t);
      if s1.ready {
        var changed := Changed(s1, t);
        ChangesReport(s.cfg, 0, changed, Settled(s1, t) * s1.late, Xor(s1.stable, changed), x);
      } else if !Waiting(s1, t) {
        var stable := SettledOn(s1, t);
        ReportsOf(0, ALL, stable, x);
        BootOverridesReportNothing(s.cfg, 0, Settled(s1, t), stable, i);
        NotAmong(BootOverridesFrom(s.cfg, 0, Settled(s1, t), stable), i, x);
        assert i in ALL;
      }
  }

  /** No override of a relay that input `i` drives comes before a report of that input. */
  predicate ReportFirst(c: Config, outs: seq<Out>, i: Channel) {
    forall p, q :: 0 <= p < q < |outs| && IsReport(outs[q], i) ==> !IsOverride(c, outs[p], i)
  }

  lemma ReportFirstConcat(c: Config, x: seq<Out>, y: seq<Out>, i: Channel)
    requires ReportFirst(c, x, i) && ReportFirst(c, y, i) && (NoneReported(y, i) || NoneDriven(c, x, i))
    ensures ReportFirst(c, x + y, i)
  {
    hide IsReport, IsOverride;
    var z := x + y;
    forall p, q | 0 <= p < q < |z| && IsReport(z[q], i) ensures !IsOverride(c, z[p], i) {
      if q < |x| {
        assert !IsOverride(c, x[p], i);
      } else if p >= |x| {
        assert !IsOverride(c, y[p - |x|], i);
      }
    }
  }

  lemma ChangeReportsFirst(c: Config, j: Channel, changed: Mask, boot: Mask, mask: Mask, i: Channel)
    ensures var x := ChangeOf(c, j, changed, boot, mask);
            ReportFirst(c, x, i) && (j != i ==> NoneReported(x, i) && NoneDriven(c, x, i))
  {
    hide OverridesFrom;
    OverridesDrive(c, j, 0, j in mask, j in boot, i);
  }

  /** From channel `j` up, and nothing of channel `i` before its turn. */
  lemma {:induction false} ChangesReportFirst(c: Config, j: int, changed: Mask, boot: Mask, mask: Mask, i: Channel)
    requires 0 <= j <= CHANNELS
    ensures var x := ChangesFrom(c, j, changed, boot, mask);
            ReportFirst(c, x, i) && (i < j ==> NoneReported(x, i) && NoneDriven(c, x, i))
    decreases CHANNELS - j
  {
    hide ChangeOf, ReportFirst;
    if j < CHANNELS {
      ChangesReportFirst(c, j + 1, changed, boot, mask, i);
      ChangeReportsFirst(c, j, changed, boot, mask, i);
      ReportFirstConcat(c, ChangeOf(c, j, changed, boot, mask), ChangesFrom(c, j + 1, changed, boot, mask), i);
    } else {
      NothingFirst(c, i);
    }
  }

  lemma NothingFirst(c: Config, i: Channel)
    ensures ReportFirst(c, [], i)
  {
  }

  lemma {:induction false} ReportsAreFirst(c: Config, j: int, chans: Mask, mask: Mask, i: Channel)
    requires 0 <= j <= CHANNELS
    ensures ReportFirst(c, ReportsFrom(j, chans, mask), i) && NoneDriven(c, ReportsFrom(j, chans, mask), i)
  {
    ReportsAreNoOverrides(j, chans, mask);
  }

  /** Listeners hear of an input before it switches a relay. */
  lemma ReportsComeFirst(s: State, e: Event, i: Channel)
    ensures ReportFirst(s.cfg, Apply(s, e).outs, i)
  {
    hide ReportsFrom, BootOverridesFrom, ChangesFrom, ReportFirst, NoneReported, NoneDriven;
    NothingFirst(s.cfg, i);
    match e
    case Saved(c) =>
      ReportsAreFirst(s.cfg, 0, Flipped(s, c), Xor(s.stable, Flipped(s, c)), i);
    case Polled(raw, t) =>
      var s1 := Sample(s, raw, t);
      if s1.ready {
        var changed := Changed(s1, t);
        ChangesReportFirst(s.cfg, 0, changed, Settled(s1, t) * s1.late, Xor(s1.stable, changed), i);
      } else if !Waiting(s1, t) {
        var stable := SettledOn(s1, t);
        var reports, overrides := ReportsFrom(0, ALL, stable), BootOverridesFrom(s.cfg, 0, Settled(s1, t), stable);
        ReportsAreFirst(s.cfg, 0, ALL, stable, i);
        BootOverridesReportNothing(s.cfg, 0, Settled(s1, t), stable, i);
        OverridesAreFirst(s.cfg, overrides, i);
        ReportFirstConcat(s.cfg, reports, overrides, i);
      }
  }

  lemma OverridesAreFirst(c: Config, x: seq<Out>, i: Channel)
    ensures NoneReported(x, i) ==> ReportFirst(c, x, i)
  {
  }

  // A run in which that happens: relay 1 follows input 1, whose pin bounces as the inputs start up.

  const FOLLOWS: Config :=
    Config(50, seq(CHANNELS, _ => false), [1, 0, 0, 0, 0, 0, 0, 0], seq(CHANNELS, _ => Follow))

  /** The pin goes on for a moment, is off again when the inputs become ready, and stays off. */
  const BOUNCE: seq<Event> := [Polled(ALL - {0}, 1020), Polled(ALL, 1060), Polled(ALL, 1120)]

  lemma BouncingStates(k: nat)
    requires k <= 3
    ensures var s := At(Init(FOLLOWS, ALL, 0), BOUNCE, k);
            && s.cfg == FOLLOWS && s.start == 0 && s.stable == {} && s.ready == (k >= 2)
            && s.late == (if k == 2 then {0} else {})
            && (forall i: Channel :: s.candidate[i] == (k == 1 && i == 0))
            && (forall i: Channel :: s.since[i] == if i != 0 || k == 0 then 0 else if k == 1 then 1020 else 1060)
  {
    hide ReportsFrom, BootOverridesFrom, ChangesFrom;
    if k > 0 {
      BouncingStates(k - 1);
      assert 0 in ALL;
    }
  }

  /** From start-up on: the late input settles as off, as it was reported, and its relay has been
      told nothing, nor will be while the pins stay as they are. */
  lemma LateInputDrivesNothing(k: nat, a: Action)
    requires k < 3
    ensures var s := Init(FOLLOWS, ALL, 0);
            && Count(Apply(At(s, BOUNCE, k), BOUNCE[k]).outs, 0, a) == 0
            && 0 in At(s, BOUNCE, 2).late && 0 !in At(s, BOUNCE, 3).late && Quiet(At(s, BOUNCE, 3))
  {
    hide Apply;
    BouncingStates(2);
    BouncingStates(3);
    BouncingStates(k);
    BouncingStates(k + 1);
    var s := At(Init(FOLLOWS, ALL, 0), BOUNCE, k);
    OverridesExactlyAsDemanded(s, BOUNCE[k], 0, a);
    assert At(Init(FOLLOWS, ALL, 0), BOUNCE, k + 1) == Apply(s, BOUNCE[k]).s;
  }
}
