/** Whether folding can be seen from outside: what the counters report is a function of the
    on-periods alone, however ticks, flushes and reads are placed among them, exactly as long as
    off-reports and reads find the running period folded within one round of the 32-bit clock. */
module CounterRuns {
  import opened Options
  import opened Board
  import opened Clock32
  import opened CounterSpec

  // ------------------------------------------------- the plain account of a channel

  /** `base` is the run time the account started from, `closed` the lengths in ms of the
      on-periods ended since, `since` the start of the running one. */
  datatype Account = Account(seen: bool, on: bool, since: int, base: int, closed: seq<int>, cycles: int)

  function Seconds(closed: seq<int>): int {
    if closed == [] then 0 else Seconds(closed[..|closed| - 1]) + closed[|closed| - 1] / 1000
  }

  /** Base, plus the whole seconds of every closed period, plus those of the running one. */
  function Runtime(a: Account, t: int): int {
    a.base + Seconds(a.closed) + if a.on then (t - a.since) / 1000 else 0
  }

  datatype Event =
    | Changed(kind: Kind, channel: int, on: bool, t: int)
    | Zeroed(kind: Kind, channel: int, t: int, saveOk: bool)
    | Ticked(t: int, saveOk: bool)
    | Flushed(t: int, saveOk: bool)

  function Apply(s: State, e: Event): State {
    match e
    case Changed(kind, channel, on, t) => OnChange(s, kind, channel, on, t)
    case Zeroed(kind, channel, t, saveOk) => Reset(s, kind, channel, t, saveOk)
    case Ticked(t, saveOk) => Tick(s, t, saveOk)
    case Flushed(t, saveOk) => FlushNow(s, t, saveOk)
  }

  /** The account sees changes and resets of its own channel, and nothing else. */
  function Note(a: Account, kind: Kind, i: Channel, e: Event): Account {
    match e
    case Changed(k, channel, on, t) =>
      if k != kind || channel != i + 1 then a
      else if !a.seen then a.(seen := true, on := on, since := t)
      else if on == a.on then a
      else if on then a.(on := true, since := t, cycles := a.cycles + 1)
      else a.(on := false, closed := a.closed + [t - a.since])
    case Zeroed(k, channel, t, _) =>
      if k != kind || channel != i + 1 then a
      else a.(base := 0, closed := [], cycles := 0, since := if a.on then t else a.since)
    case _ => a
  }

  function At(s: State, es: seq<Event>, k: nat): State
    requires k <= |es|
  {
    if k == 0 then s else Apply(At(s, es, k - 1), es[k - 1])
  }

  function AccountAt(a: Account, kind: Kind, i: Channel, es: seq<Event>, k: nat): Account
    requires k <= |es|
  {
    if k == 0 then a else Note(AccountAt(a, kind, i, es, k - 1), kind, i, es[k - 1])
  }

  // ---------------------------------------------------------------- simulation

  /** Whole seconds of the slot's running period that its 32-bit age leaves out. */
  function Missed(x: Slot, t: int): int {
    if x.on then (t - x.onSince) / 1000 - WholeSeconds(x, t) else 0
  }

  /** The event is channel `i`'s off-report. */
  predicate OwnOff(e: Event, kind: Kind, i: Channel) {
    e.Changed? && e.kind == kind && e.channel == i + 1 && !e.on
  }

  predicate OwnReset(e: Event, kind: Kind, i: Channel) {
    e.Zeroed? && e.kind == kind && e.channel == i + 1
  }

  /** Seconds left out for good: an off-report closes the period by its 32-bit age. A reset starts
      afresh. */
  function LostAt(s: State, kind: Kind, i: Channel, es: seq<Event>, k: nat): int
    requires k <= |es|
  {
    if k == 0 || OwnReset(es[k - 1], kind, i) then 0
    else
      LostAt(s, kind, i, es, k - 1)
      + if OwnOff(es[k - 1], kind, i) then Missed(SlotAt(At(s, es, k - 1), kind, i), es[k - 1].t) else 0
  }

  /** The slot agrees with the account, up to `lost` seconds: same periods, the part already folded
      moved from the running period into the snapshot in whole seconds. */
  predicate Tracks(x: Slot, a: Account, lost: int) {
    && x.seen == a.seen && x.on == a.on && (x.on ==> x.seen)
    && x.cycles == Wrap(a.cycles)
    && (x.on ==> a.since <= x.onSince && (x.onSince - a.since) % 1000 == 0)
    && x.runtime == Wrap(a.base + Seconds(a.closed) - lost + if x.on then (x.onSince - a.since) / 1000 else 0)
  }

  /** Seconds taken off the front of a period leave the rest's whole seconds. */
  lemma SplitSeconds(since: int, mid: int, t: int)
    requires (mid - since) % 1000 == 0
    ensures (t - since) / 1000 == (mid - since) / 1000 + (t - mid) / 1000
  {
    var k := (mid - since) / 1000;
    assert mid - since == 1000 * k;
  }

  /** A fold, however late, loses nothing: what its age leaves out stays in the running period. */
  lemma FoldTracks(x: Slot, a: Account, lost: int, t: int)
    requires Tracks(x, a, lost)
    ensures Tracks(Fold(x, t), a, lost)
  {
    var w := WholeSeconds(x, t);
    if x.on && w != 0 {
      SplitSeconds(a.since, x.onSince, x.onSince + 1000 * w);
      AddOfTrue(a.base + Seconds(a.closed) - lost + (x.onSince - a.since) / 1000, w);
    }
  }

  lemma FoldedRuntime(x: Slot, t: int)
    ensures Fold(x, t).runtime == Add(x.runtime, WholeSeconds(x, t))
  {
    AddOfTrue(x.runtime, 0);
  }

  lemma OffTracks(x: Slot, a: Account, lost: int, kind: Kind, i: Channel, t: int)
    requires Tracks(x, a, lost) && x.on
    ensures Tracks(Change(x, false, t), Note(a, kind, i, Changed(kind, i + 1, false, t)), lost + Missed(x, t))
  {
    FoldedRuntime(x, t);
    SplitSeconds(a.since, x.onSince, t);
    AddOfTrue(a.base + Seconds(a.closed) - lost + (x.onSince - a.since) / 1000, WholeSeconds(x, t));
    var closed := a.closed + [t - a.since];
    assert closed[..|a.closed|] == a.closed;
  }

  lemma ChangeTracks(x: Slot, a: Account, lost: int, kind: Kind, i: Channel, on: bool, t: int)
    requires Tracks(x, a, lost)
    ensures Tracks(Change(x, on, t), Note(a, kind, i, Changed(kind, i + 1, on, t)),
                   lost + if on then 0 else Missed(x, t))
  {
    hide Fold, WholeSeconds, Seconds;
    if on {
      AddOfTrue(a.cycles, 1);
    } else if x.on {
      OffTracks(x, a, lost, kind, i, t);
    } else {
      OffMissesNothing(x, t);
      hide Missed;
    }
  }

  lemma EventTracks(s: State, a: Account, lost: int, kind: Kind, i: Channel, e: Event)
    requires Tracks(SlotAt(s, kind, i), a, lost)
    ensures Tracks(SlotAt(Apply(s, e), kind, i), Note(a, kind, i, e),
                   if OwnReset(e, kind, i) then 0
                   else lost + if OwnOff(e, kind, i) then Missed(SlotAt(s, kind, i), e.t) else 0)
  {
    hide Fold, Change, Missed;
    var x := SlotAt(s, kind, i);
    match e
    case Changed(k, channel, on, t) =>
      if k == kind && channel == i + 1 {
        ChangeTracks(x, a, lost, kind, i, on, t);
      }
    case Zeroed(k, channel, t, saveOk) =>
    case Ticked(t, saveOk) =>
      FoldTracks(x, a, lost, t);
    case Flushed(t, saveOk) =>
      FoldTracks(x, a, lost, t);
  }

  lemma {:induction false} RunTracks(s: State, a: Account, kind: Kind, i: Channel, es: seq<Event>, k: nat)
    requires Tracks(SlotAt(s, kind, i), a, 0) && k <= |es|
    ensures Tracks(SlotAt(At(s, es, k), kind, i), AccountAt(a, kind, i, es, k), LostAt(s, kind, i, es, k))
  {
    hide Apply, Note, Tracks, Missed;
    if k > 0 {
      RunTracks(s, a, kind, i, es, k - 1);
      var lost := LostAt(s, kind, i, es, k - 1);
      EventTracks(At(s, es, k - 1), AccountAt(a, kind, i, es, k - 1), lost, kind, i, es[k - 1]);
    }
  }

  /** The account of a channel right after start-up. */
  function Opening(s: State, kind: Kind, i: Channel): Account {
    var x := SlotAt(s, kind, i);
    Account(false, false, 0, x.runtime, [], x.cycles)
  }

  lemma OpeningTracks(store: Option<Data>, loadOk: bool, t0: int, kind: Kind, i: Channel)
    ensures var s0 := Init(store, loadOk, t0); Tracks(SlotAt(s0, kind, i), Opening(s0, kind, i), 0)
  {
  }

  lemma ReportTracks(x: Slot, a: Account, lost: int, t: int)
    requires Tracks(x, a, lost)
    ensures Add(x.runtime, WholeSeconds(x, t)) == Wrap(Runtime(a, t) - lost - Missed(x, t))
    ensures x.cycles == Wrap(a.cycles)
  {
    if x.on {
      SplitSeconds(a.since, x.onSince, t);
      AddOfTrue(a.base + Seconds(a.closed) - lost + (x.onSince - a.since) / 1000, WholeSeconds(x, t));
    } else {
      AddOfTrue(a.base + Seconds(a.closed) - lost, 0);
    }
  }

  /** What is reported, always: in any run from start-up, with any placing and any times of ticks,
      flushes and reads, the stored base plus the whole seconds of each closed on-period and of the
      running one, less the seconds that late off-reports and a late read leave out; the cycles are
      the stored ones plus the off-to-on edges after the first report. All counts are 32-bit. */
  lemma ReportsExactly(store: Option<Data>, loadOk: bool, t0: int, es: seq<Event>, k: nat,
                       kind: Kind, i: Channel, t: int)
    requires k <= |es|
    ensures var s0 := Init(store, loadOk, t0);
            var a := AccountAt(Opening(s0, kind, i), kind, i, es, k);
            var missed := LostAt(s0, kind, i, es, k) + Missed(SlotAt(At(s0, es, k), kind, i), t);
            Get(At(s0, es, k), kind, i + 1, t) == Saved(Wrap(a.cycles), Wrap(Runtime(a, t) - missed))
  {
    hide Init, Opening, Apply, Note, Runtime, WholeSeconds, Missed, LostAt, AccountAt, At, Tracks;
    var s0 := Init(store, loadOk, t0);
    OpeningTracks(store, loadOk, t0, kind, i);
    RunTracks(s0, Opening(s0, kind, i), kind, i, es, k);
    ReportTracks(SlotAt(At(s0, es, k), kind, i), AccountAt(Opening(s0, kind, i), kind, i, es, k),
                 LostAt(s0, kind, i, es, k), t);
  }

  // ------------------------------------------------------ when a report is right

  /** The slot was folded less than 2^32 ms before `t`. */
  predicate InTime(x: Slot, t: int) {
    x.on ==> x.onSince <= t && t - x.onSince < WORD
  }

  lemma WholeSecondsOfTrue(x: Slot, t: int)
    requires InTime(x, t)
    ensures WholeSeconds(x, t) == if x.on then (t - x.onSince) / 1000 else 0
  {
    if x.on {
      ElapsedBound(t, x.onSince);
    }
  }

  /** Nothing is left out exactly in time; what is left out is never more than what there was. */
  lemma MissedIff(x: Slot, t: int)
    requires x.on ==> x.onSince <= t
    ensures 0 <= Missed(x, t) && (Missed(x, t) == 0 <==> InTime(x, t))
    ensures x.on ==> 1000 * Missed(x, t) <= t - x.onSince
  {
    if x.on {
      var elapsed, age := t - x.onSince, Elapsed(Wrap(t), Wrap(x.onSince));
      ElapsedOfTrue(t, x.onSince);
      var q := elapsed / WORD;
      assert elapsed == WORD * q + age;
      if q >= 1 {
        assert WORD * q >= WORD;
        assert elapsed >= age + WORD;
      }
    }
  }

  /** Every off-report of the channel since its last reset came in time. */
  predicate OffsInTime(s: State, kind: Kind, i: Channel, es: seq<Event>, k: nat)
    requires k <= |es|
  {
    k == 0 || OwnReset(es[k - 1], kind, i)
    || (OffsInTime(s, kind, i, es, k - 1)
        && (OwnOff(es[k - 1], kind, i) ==> InTime(SlotAt(At(s, es, k - 1), kind, i), es[k - 1].t)))
  }

  /** The time of the last of the first `k` events. */
  function TimeAt(t0: int, es: seq<Event>, k: nat): int
    requires k <= |es|
  {
    if k == 0 then t0 else es[k - 1].t
  }

  predicate Ordered(t0: int, es: seq<Event>) {
    forall k :: 0 <= k < |es| ==> TimeAt(t0, es, k) <= es[k].t
  }

  lemma SlotTimes(s: State, kind: Kind, i: Channel, e: Event, now: int)
    requires now <= e.t && (SlotAt(s, kind, i).on ==> SlotAt(s, kind, i).onSince <= now)
    ensures var x, y := SlotAt(s, kind, i), SlotAt(Apply(s, e), kind, i);
            && (y.on ==> (x.on && x.onSince <= y.onSince <= e.t) || y.onSince == e.t)
            && (OwnReset(e, kind, i) && y.on ==> y.onSince == e.t)
            && (!y.on && x.on ==> OwnOff(e, kind, i))
  {
    var x := SlotAt(s, kind, i);
    if x.on {
      ElapsedBound(e.t, x.onSince);
      assert WholeSeconds(x, e.t) * 1000 <= Elapsed(Wrap(e.t), Wrap(x.onSince));
    }
  }

  /** The seconds lost fit into the time gone by, and there are none exactly if every off-report was
      in time. */
  lemma {:induction false} LostBounds(s: State, t0: int, kind: Kind, i: Channel, es: seq<Event>, k: nat)
    requires Ordered(t0, es) && k <= |es| && !SlotAt(s, kind, i).on
    ensures var x, lost := SlotAt(At(s, es, k), kind, i), LostAt(s, kind, i, es, k);
            && 0 <= lost && (lost == 0 <==> OffsInTime(s, kind, i, es, k))
            && (x.on ==> x.onSince <= TimeAt(t0, es, k))
            && 1000 * lost <= (if x.on then x.onSince else TimeAt(t0, es, k)) - t0
  {
    hide Apply, InTime, Missed;
    if k > 0 {
      LostBounds(s, t0, kind, i, es, k - 1);
      var s1, e := At(s, es, k - 1), es[k - 1];
      assert TimeAt(t0, es, k - 1) <= e.t;
      SlotTimes(s1, kind, i, e, TimeAt(t0, es, k - 1));
      MissedIff(SlotAt(s1, kind, i), e.t);
      OffMissesNothing(SlotAt(s1, kind, i), e.t);
      OwnOffEnds(s1, kind, i, e);
    }
  }

  lemma OffMissesNothing(x: Slot, t: int)
    ensures !x.on ==> Missed(x, t) == 0
  {
  }

  lemma OwnOffEnds(s: State, kind: Kind, i: Channel, e: Event)
    ensures OwnOff(e, kind, i) ==> !SlotAt(Apply(s, e), kind, i).on
  {
  }

  /** Folding is invisible exactly when it should be: with events in order and within 136 years of
      start-up, what is reported is the plain account of the on-periods if and only if every
      off-report of the channel since its last reset, and the read, found it folded less than 2^32
      ms before. How late ticks, flushes and other channels' events are does not matter. */
  lemma ReportRightIff(store: Option<Data>, loadOk: bool, t0: int, es: seq<Event>, k: nat,
                       kind: Kind, i: Channel, t: int)
    requires Ordered(t0, es) && k <= |es| && TimeAt(t0, es, k) <= t && t - t0 < 1000 * WORD
    ensures var s0 := Init(store, loadOk, t0);
            var a := AccountAt(Opening(s0, kind, i), kind, i, es, k);
            Get(At(s0, es, k), kind, i + 1, t) == Saved(Wrap(a.cycles), Wrap(Runtime(a, t)))
            <==> OffsInTime(s0, kind, i, es, k) && InTime(SlotAt(At(s0, es, k), kind, i), t)
  {
    hide Opening, Apply, Note, Runtime, Missed, LostAt, AccountAt, At, Get, OffsInTime, Ordered;
    var s0 := Init(store, loadOk, t0);
    var x, lost := SlotAt(At(s0, es, k), kind, i), LostAt(s0, kind, i, es, k);
    var runtime := Runtime(AccountAt(Opening(s0, kind, i), kind, i, es, k), t);
    hide Init;
    ReportsExactly(store, loadOk, t0, es, k, kind, i, t);
    LostBounds(s0, t0, kind, i, es, k);
    MissedIff(x, t);
    OffMissesNothing(x, t);
    SameWordIff(runtime, lost + Missed(x, t));
  }

  lemma SameWordIff(t: int, missed: int)
    requires 0 <= missed < WORD
    ensures Wrap(t - missed) == Wrap(t) <==> missed == 0
  {
    var q, r := t / WORD, (t - missed) / WORD;
    assert missed == WORD * (q - r) + Wrap(t) - Wrap(t - missed);
  }

  /** Every off-report of the channel finds its running period folded less than 2^32 ms ago. */
  predicate FoldedInTime(s: State, es: seq<Event>, kind: Kind, i: Channel) {
    forall k :: 0 <= k < |es| && OwnOff(es[k], kind, i) ==> InTime(SlotAt(At(s, es, k), kind, i), es[k].t)
  }

  lemma {:induction false} NothingLost(s: State, es: seq<Event>, kind: Kind, i: Channel, k: nat)
    requires FoldedInTime(s, es, kind, i) && k <= |es|
    ensures LostAt(s, kind, i, es, k) == 0
  {
    hide InTime, Missed;
    if k > 0 {
      NothingLost(s, es, kind, i, k - 1);
      if OwnOff(es[k - 1], kind, i) {
        NothingMissed(SlotAt(At(s, es, k - 1), kind, i), es[k - 1].t);
      }
    }
  }

  lemma NothingMissed(x: Slot, t: int)
    requires InTime(x, t)
    ensures Missed(x, t) == 0
  {
    WholeSecondsOfTrue(x, t);
  }

  /** Folding is invisible where off-reports and the read are in time, however the rest is placed. */
  lemma FoldingIsInvisible(store: Option<Data>, loadOk: bool, t0: int, es: seq<Event>, k: nat,
                           kind: Kind, i: Channel, t: int)
    requires FoldedInTime(Init(store, loadOk, t0), es, kind, i) && k <= |es|
    requires InTime(SlotAt(At(Init(store, loadOk, t0), es, k), kind, i), t)
    ensures var s0 := Init(store, loadOk, t0);
            var a := AccountAt(Opening(s0, kind, i), kind, i, es, k);
            Get(At(s0, es, k), kind, i + 1, t) == Saved(Wrap(a.cycles), Wrap(Runtime(a, t)))
  {
    hide Init, Opening, At, AccountAt, Runtime, LostAt, Missed, InTime, FoldedInTime, Get;
    var s0 := Init(store, loadOk, t0);
    ReportsExactly(store, loadOk, t0, es, k, kind, i, t);
    NothingLost(s0, es, kind, i, k);
    NothingMissed(SlotAt(At(s0, es, k), kind, i), t);
  }

  /** A clean restart loses nothing: after a flush that was stored, starting up again reports for
      every channel what was reported when flushing, in time or not. */
  lemma FlushSurvivesRestart(s: State, t: int, t1: int, t2: int, kind: Kind, channel: int)
    ensures Get(Init(FlushNow(s, t, true).store, true, t1), kind, channel, t2) == Get(s, kind, channel, t)
  {
    if ValidChannel(channel) {
      var x := SlotAt(s, kind, channel - 1);
      FoldedRuntime(x, t);
      AddOfTrue(Fold(x, t).runtime, 0);
    }
  }

  /** A tick that changes what is stored comes an interval of true time after the last save. */
  lemma TickWritesRarely(s: State, t: int, saveOk: bool)
    requires s.lastSave <= t && Tick(s, t, saveOk).store != s.store
    ensures t - s.lastSave >= 600000 && Tick(s, t, saveOk).lastSave == t
  {
    ElapsedBound(t, s.lastSave);
  }
}
