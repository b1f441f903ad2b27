/** How often counters fold and save. A tick folds every channel once the interval since the last
    save is over, which keeps the 32-bit ages short; a reset that was saved starts the interval
    anew without folding, so folding is in time as long as resets are rare. */
module CounterPacing {
  import opened Options
  import opened Board
  import opened Clock32
  import opened CounterSpec
  import opened CounterRuns

  // ------------------------------------------------------------------ paced runs

  function LastTick(t0: int, es: seq<Event>, k: nat): int
    requires k <= |es|
  {
    if k == 0 then t0 else if es[k - 1].Ticked? then es[k - 1].t else LastTick(t0, es, k - 1)
  }

  /** Time `t` follows the first `k` events, and the last tick by at most `d`. */
  predicate Follows(t0: int, es: seq<Event>, k: nat, t: int, d: int)
    requires k <= |es|
  {
    TimeAt(t0, es, k) <= t <= LastTick(t0, es, k) + d
  }

  predicate Paced(t0: int, es: seq<Event>, d: int) {
    forall k :: 0 <= k < |es| ==> Follows(t0, es, k, es[k].t, d)
  }

  predicate IsReset(e: Event) {
    e.Zeroed? && ValidChannel(e.channel) && e.saveOk
  }

  /** Saved resets among the first `k` events, later than `t`. */
  function ResetsAfter(es: seq<Event>, k: nat, t: int): nat
    requires k <= |es|
  {
    if k == 0 then 0 else ResetsAfter(es, k - 1, t) + if IsReset(es[k - 1]) && es[k - 1].t > t then 1 else 0
  }

  /** At no time have there been more than `r` saved resets within the last 2^32 ms. */
  predicate RareResets(t0: int, es: seq<Event>, r: nat) {
    forall k :: 0 <= k <= |es| ==> ResetsAfter(es, k, TimeAt(t0, es, k) - WORD) <= r
  }

  /** The longest time without a fold, when `n` resets fall into it. */
  function Span(n: nat, d: int): int {
    n * (INTERVAL + d)
  }

  lemma SpanStep(n: nat, d: int)
    ensures Span(n + 1, d) == Span(n, d) + INTERVAL + d
  {
  }

  lemma {:induction false} SpanGrows(n: nat, m: nat, d: int)
    requires n <= m && d >= 0
    ensures Span(n, d) <= Span(m, d)
  {
    if n < m {
      SpanGrows(n, m - 1, d);
      SpanStep(m - 1, d);
    }
  }

  // -------------------------------------------------------------------- folds

  /** The event folds every channel. */
  predicate Folds(s: State, e: Event) {
    e.Flushed? || (e.Ticked? && Elapsed(Wrap(e.t), Wrap(s.lastSave)) >= INTERVAL)
  }

  function FoldTime(s: State, t0: int, es: seq<Event>, k: nat): int
    requires k <= |es|
  {
    if k == 0 then t0
    else if Folds(At(s, es, k - 1), es[k - 1]) then es[k - 1].t
    else FoldTime(s, t0, es, k - 1)
  }

  function ResetsSinceFold(s: State, es: seq<Event>, k: nat): nat
    requires k <= |es|
  {
    if k == 0 || Folds(At(s, es, k - 1), es[k - 1]) then 0
    else ResetsSinceFold(s, es, k - 1) + if IsReset(es[k - 1]) then 1 else 0
  }

  /** How the times in state `s` relate: the last fold, the saved resets since, the last tick, the
      present. */
  predicate Pace(s: State, fold: int, resets: nat, tick: int, now: int, d: int) {
    && fold <= now && tick <= now && s.lastSave <= now
    && tick - s.lastSave < INTERVAL
    && s.lastSave - fold <= Span(resets, d)
  }

  /** The channel's running period started, or was folded, at the last fold or later. */
  predicate Recent(x: Slot, fold: int, now: int) {
    x.on ==> fold - 1000 < x.onSince <= now
  }

  lemma LastSaveAfter(s: State, e: Event)
    ensures Apply(s, e).lastSave
         == if (e.Ticked? && Folds(s, e)) || (e.Flushed? && e.saveOk) || IsReset(e) then e.t else s.lastSave
  {
  }

  lemma PaceStep(s: State, e: Event, fold: int, resets: nat, tick: int, now: int, d: int)
    requires Pace(s, fold, resets, tick, now, d) && now <= e.t <= tick + d && 0 <= d < WORD - INTERVAL
    ensures var n := if Folds(s, e) then 0 else resets + if IsReset(e) then 1 else 0;
            Pace(Apply(s, e), if Folds(s, e) then e.t else fold, n, if e.Ticked? then e.t else tick, e.t, d)
    ensures e.t - fold < Span(resets + 1, d)
  {
    hide Apply, Span;
    LastSaveAfter(s, e);
    SpanStep(resets, d);
    NoSpan(d);
    if e.Ticked? {
      ElapsedBound(e.t, s.lastSave);
    }
  }

  lemma NoSpan(d: int)
    ensures Span(0, d) == 0
  {
  }

  lemma FoldIsRecent(x: Slot, t: int)
    requires InTime(x, t)
    ensures Recent(Fold(x, t), t, t)
  {
    WholeSecondsOfTrue(x, t);
  }

  lemma RecentStep(s: State, e: Event, kind: Kind, i: Channel, fold: int, now: int)
    requires Recent(SlotAt(s, kind, i), fold, now) && InTime(SlotAt(s, kind, i), e.t) && fold <= now <= e.t
    ensures Recent(SlotAt(Apply(s, e), kind, i), if Folds(s, e) then e.t else fold, e.t)
  {
    var x := SlotAt(s, kind, i);
    FoldIsRecent(x, e.t);
    hide Fold, Elapsed, Wrap;
  }

  /** Resets since the last fold are among those later than any time before it. */
  lemma {:induction false} ResetsCounted(s: State, t0: int, es: seq<Event>, k: nat, d: int, t: int)
    requires Paced(t0, es, d) && k <= |es| && t < FoldTime(s, t0, es, k)
    ensures ResetsSinceFold(s, es, k) <= ResetsAfter(es, k, t)
    ensures FoldTime(s, t0, es, k) <= TimeAt(t0, es, k)
  {
    hide Folds;
    if k > 0 {
      assert Follows(t0, es, k - 1, es[k - 1].t, d);
      if !Folds(At(s, es, k - 1), es[k - 1]) {
        ResetsCounted(s, t0, es, k - 1, d, t);
      }
    }
  }

  /** Everything that holds along a paced run with rare resets. */
  predicate InPace(s: State, t0: int, es: seq<Event>, kind: Kind, i: Channel, k: nat, d: int, r: nat)
    requires k <= |es|
  {
    var fold, now := FoldTime(s, t0, es, k), TimeAt(t0, es, k);
    && Pace(At(s, es, k), fold, ResetsSinceFold(s, es, k), LastTick(t0, es, k), now, d)
    && Recent(SlotAt(At(s, es, k), kind, i), fold, now)
    && now - fold <= Span(r + 1, d)
  }

  /** Whatever comes next in time finds the channel folded less than 2^32 ms ago. */
  lemma NextInTime(s: State, t0: int, es: seq<Event>, kind: Kind, i: Channel, k: nat, t: int, d: int, r: nat)
    requires k <= |es| && InPace(s, t0, es, kind, i, k, d, r) && Follows(t0, es, k, t, d)
    requires Paced(t0, es, d) && RareResets(t0, es, r) && 0 <= d && Span(r + 1, d) + 1000 <= WORD
    ensures InTime(SlotAt(At(s, es, k), kind, i), t)
    ensures t - FoldTime(s, t0, es, k) < Span(ResetsSinceFold(s, es, k) + 1, d) <= Span(r + 1, d)
  {
    hide Span, Recent, FoldTime, LastTick, ResetsAfter;
    var fold, now, resets := FoldTime(s, t0, es, k), TimeAt(t0, es, k), ResetsSinceFold(s, es, k);
    ResetsCounted(s, t0, es, k, d, now - WORD);
    assert resets <= ResetsAfter(es, k, now - WORD) <= r;
    SpanGrows(resets + 1, r + 1, d);
    SpanStep(resets, d);
    RecentIsInTime(SlotAt(At(s, es, k), kind, i), fold, now, t);
  }

  lemma RecentIsInTime(x: Slot, fold: int, now: int, t: int)
    requires Recent(x, fold, now) && now <= t && t - fold + 1000 <= WORD
    ensures InTime(x, t)
  {
  }

  lemma {:induction false} StaysInPace(store: Option<Data>, loadOk: bool, t0: int, es: seq<Event>, kind: Kind,
                                       i: Channel, k: nat, d: int, r: nat)
    requires k <= |es| && Paced(t0, es, d) && RareResets(t0, es, r) && 0 <= d && Span(r + 1, d) + 1000 <= WORD
    ensures InPace(Init(store, loadOk, t0), t0, es, kind, i, k, d, r)
  {
    hide Span, Recent, Apply, Init, Folds, IsReset, RareResets, Pace, InTime;
    var s0 := Init(store, loadOk, t0);
    if k == 0 {
      StartsInPace(store, loadOk, t0, es, kind, i, d, r);
    } else {
      StaysInPace(store, loadOk, t0, es, kind, i, k - 1, d, r);
      var s, e := At(s0, es, k - 1), es[k - 1];
      var fold, now := FoldTime(s0, t0, es, k - 1), TimeAt(t0, es, k - 1);
      assert Follows(t0, es, k - 1, e.t, d);
      NextInTime(s0, t0, es, kind, i, k - 1, e.t, d, r);
      IntervalFits(r, d);
      PaceBounds(s, fold, ResetsSinceFold(s0, es, k - 1), LastTick(t0, es, k - 1), now, d);
      PaceStep(s, e, fold, ResetsSinceFold(s0, es, k - 1), LastTick(t0, es, k - 1), now, d);
      RecentStep(s, e, kind, i, fold, now);
    }
  }

  lemma IntervalFits(r: nat, d: int)
    requires 0 <= d && Span(r + 1, d) + 1000 <= WORD
    ensures d < WORD - INTERVAL && 0 <= Span(r + 1, d)
  {
    SpanGrows(1, r + 1, d);
  }

  lemma PaceBounds(s: State, fold: int, resets: nat, tick: int, now: int, d: int)
    requires Pace(s, fold, resets, tick, now, d)
    ensures fold <= now
  {
  }

  lemma StartsInPace(store: Option<Data>, loadOk: bool, t0: int, es: seq<Event>, kind: Kind, i: Channel, d: int, r: nat)
    requires 0 <= d
    ensures InPace(Init(store, loadOk, t0), t0, es, kind, i, 0, d, r)
  {
    SpanGrows(0, r + 1, d);
  }

  /** Folding is in time: with events in order, ticks at most `d` apart and at most `r` saved resets
      in any 2^32 ms, every event finds every channel folded less than 2^32 ms before, as long as
      (r + 1) intervals and tick spacings fit. Ten-second ticks leave room for over 7000 resets. */
  lemma FoldedInTimeWhenPaced(store: Option<Data>, loadOk: bool, t0: int, es: seq<Event>, kind: Kind, i: Channel,
                              d: int, r: nat)
    requires Paced(t0, es, d) && RareResets(t0, es, r) && 0 <= d && Span(r + 1, d) + 1000 <= WORD
    ensures forall k :: 0 <= k < |es| ==> InTime(SlotAt(At(Init(store, loadOk, t0), es, k), kind, i), es[k].t)
    ensures FoldedInTime(Init(store, loadOk, t0), es, kind, i)
  {
    hide Init, InTime, Span, RareResets, InPace;
    var s0 := Init(store, loadOk, t0);
    forall k | 0 <= k < |es| ensures InTime(SlotAt(At(s0, es, k), kind, i), es[k].t) {
      StaysInPace(store, loadOk, t0, es, kind, i, k, d, r);
      assert Follows(t0, es, k, es[k].t, d);
      NextInTime(s0, t0, es, kind, i, k, es[k].t, d, r);
    }
  }

  /** So in a paced run whatever is reported is the plain account of the on-periods. */
  lemma PacedFoldingIsInvisible(store: Option<Data>, loadOk: bool, t0: int, es: seq<Event>, k: nat, kind: Kind,
                                i: Channel, t: int, d: int, r: nat)
    requires Paced(t0, es, d) && RareResets(t0, es, r) && 0 <= d && Span(r + 1, d) + 1000 <= WORD
    requires k <= |es| && Follows(t0, es, k, t, d)
    ensures var s0 := Init(store, loadOk, t0);
            var a := AccountAt(Opening(s0, kind, i), kind, i, es, k);
            Get(At(s0, es, k), kind, i + 1, t) == Saved(Wrap(a.cycles), Wrap(Runtime(a, t)))
  {
    hide Init, InTime, Span, RareResets, InPace, FoldedInTime, Paced, Follows;
    FoldedInTimeWhenPaced(store, loadOk, t0, es, kind, i, d, r);
    StaysInPace(store, loadOk, t0, es, kind, i, k, d, r);
    NextInTime(Init(store, loadOk, t0), t0, es, kind, i, k, t, d, r);
    FoldingIsInvisible(store, loadOk, t0, es, k, kind, i, t);
  }

  // --------------------------------------------------- exactly when a time is in time

  /** The event brings the channel's running period up to date: a fold, a reset of the channel, its
      first report or its going on. */
  predicate Refreshes(s: State, e: Event, kind: Kind, i: Channel) {
    var x := SlotAt(s, kind, i);
    || Folds(s, e) || OwnReset(e, kind, i)
    || (e.Changed? && e.kind == kind && e.channel == i + 1 && (!x.seen || (e.on && !x.on)))
  }

  /** When that last happened. */
  function RefreshedAt(s: State, t0: int, kind: Kind, i: Channel, es: seq<Event>, k: nat): int
    requires k <= |es|
  {
    if k == 0 then t0
    else if Refreshes(At(s, es, k - 1), es[k - 1], kind, i) then es[k - 1].t
    else RefreshedAt(s, t0, kind, i, es, k - 1)
  }

  predicate FoldsInTime(s: State, kind: Kind, i: Channel, es: seq<Event>, k: nat)
    requires k <= |es|
  {
    forall j :: 0 <= j < k && Folds(At(s, es, j), es[j]) ==> InTime(SlotAt(At(s, es, j), kind, i), es[j].t)
  }

  /** The running period is folded up to whole seconds before `refreshed`, counted from its start. */
  predicate FoldedTo(x: Slot, a: Account, refreshed: int) {
    && x.seen == a.seen && x.on == a.on && (x.on ==> x.seen)
    && (x.on ==> a.since <= refreshed && x.onSince == refreshed - (refreshed - a.since) % 1000)
  }

  lemma FoldReaches(x: Slot, a: Account, refreshed: int, t: int)
    requires FoldedTo(x, a, refreshed) && InTime(x, t) && refreshed <= t
    ensures FoldedTo(Fold(x, t), a, t)
  {
    hide Elapsed, Wrap;
    WholeSecondsOfTrue(x, t);
    if x.on {
      var k := (refreshed - a.since) / 1000;
      assert x.onSince - a.since == 1000 * k;
      SameRest(a.since, x.onSince, t);
    }
  }

  lemma SameRest(since: int, mid: int, t: int)
    requires (mid - since) % 1000 == 0
    ensures (t - since) % 1000 == (t - mid) % 1000
  {
    var k, w := (mid - since) / 1000, (t - mid) / 1000;
    assert t - since == 1000 * (k + w) + (t - mid) % 1000;
  }

  lemma RefreshStep(s: State, a: Account, kind: Kind, i: Channel, e: Event, refreshed: int)
    requires FoldedTo(SlotAt(s, kind, i), a, refreshed) && refreshed <= e.t
    requires Folds(s, e) ==> InTime(SlotAt(s, kind, i), e.t)
    ensures FoldedTo(SlotAt(Apply(s, e), kind, i), Note(a, kind, i, e),
                     if Refreshes(s, e, kind, i) then e.t else refreshed)
  {
    if Folds(s, e) {
      FoldReaches(SlotAt(s, kind, i), a, refreshed, e.t);
    }
    hide Fold, Elapsed, Wrap;
  }

  lemma {:induction false} RefreshedAlong(store: Option<Data>, loadOk: bool, t0: int, es: seq<Event>, kind: Kind,
                                          i: Channel, k: nat)
    requires Ordered(t0, es) && k <= |es| && FoldsInTime(Init(store, loadOk, t0), kind, i, es, k)
    ensures var s0 := Init(store, loadOk, t0);
            var refreshed := RefreshedAt(s0, t0, kind, i, es, k);
            && FoldedTo(SlotAt(At(s0, es, k), kind, i), AccountAt(Opening(s0, kind, i), kind, i, es, k), refreshed)
            && refreshed <= TimeAt(t0, es, k)
  {
    hide Apply, Note, Folds, Refreshes, FoldedTo, InTime, Init, Opening;
    var s0 := Init(store, loadOk, t0);
    if k == 0 {
      OpeningIsFolded(store, loadOk, t0, kind, i);
    } else {
      RefreshedAlong(store, loadOk, t0, es, kind, i, k - 1);
      assert TimeAt(t0, es, k - 1) <= es[k - 1].t;
      RefreshStep(At(s0, es, k - 1), AccountAt(Opening(s0, kind, i), kind, i, es, k - 1), kind, i, es[k - 1],
                  RefreshedAt(s0, t0, kind, i, es, k - 1));
    }
  }

  lemma OpeningIsFolded(store: Option<Data>, loadOk: bool, t0: int, kind: Kind, i: Channel)
    ensures var s0 := Init(store, loadOk, t0); FoldedTo(SlotAt(s0, kind, i), Opening(s0, kind, i), t0)
  {
  }

  /** Exactly when a time is in time: as long as the folds so far were, a running period is within
      the 32-bit clock at `t` if and only if the last fold, reset or switching on, less the part of
      a second it left over, is less than 2^32 ms ago. */
  lemma InTimeIffRefreshed(store: Option<Data>, loadOk: bool, t0: int, es: seq<Event>, kind: Kind, i: Channel, k: nat,
                           t: int)
    requires Ordered(t0, es) && k <= |es| && FoldsInTime(Init(store, loadOk, t0), kind, i, es, k)
    requires TimeAt(t0, es, k) <= t && SlotAt(At(Init(store, loadOk, t0), es, k), kind, i).on
    ensures var s0 := Init(store, loadOk, t0);
            var a, refreshed := AccountAt(Opening(s0, kind, i), kind, i, es, k), RefreshedAt(s0, t0, kind, i, es, k);
            InTime(SlotAt(At(s0, es, k), kind, i), t) <==> t - refreshed + (refreshed - a.since) % 1000 < WORD
  {
    hide Init, Opening, At, AccountAt, RefreshedAt, FoldsInTime, Ordered;
    RefreshedAlong(store, loadOk, t0, es, kind, i, k);
  }

  // ------------------------------------------- resets that put folding off too long

  const FIVE_MINUTES: int := 300000

  /** Relay 1 is switched on at the start; then every five minutes there is a tick, and relay 2's
      counters are reset. */
  function ResetRun(n: nat): (es: seq<Event>)
    ensures |es| == 2 * n + 2
  {
    if n == 0 then [Changed(Relay, 1, false, 0), Changed(Relay, 1, true, 0)]
    else ResetRun(n - 1) + [Ticked(FIVE_MINUTES * n, true), Zeroed(Relay, 2, FIVE_MINUTES * n, true)]
  }

  predicate NeverFolded(s: State, now: int) {
    s.lastSave == now && s.relays[0] == Slot(true, true, 0, 1, 0)
  }

  lemma {:induction false} AtConcat(s: State, a: seq<Event>, b: seq<Event>, k: nat)
    requires k <= |b|
    ensures At(s, a + b, |a| + k) == At(At(s, a, |a|), b, k)
  {
    hide Apply;
    if k == 0 {
      AtPrefix(s, a, b, |a|);
    } else {
      AtConcat(s, a, b, k - 1);
    }
  }

  lemma {:induction false} AtPrefix(s: State, a: seq<Event>, b: seq<Event>, k: nat)
    requires k <= |a|
    ensures At(s, a + b, k) == At(s, a, k)
  {
    hide Apply;
    if k > 0 {
      AtPrefix(s, a, b, k - 1);
    }
  }

  lemma ResetRound(s: State, t: int)
    requires NeverFolded(s, t)
    ensures NeverFolded(At(s, [Ticked(t + FIVE_MINUTES, true), Zeroed(Relay, 2, t + FIVE_MINUTES, true)], 2),
                        t + FIVE_MINUTES)
  {
    var es := [Ticked(t + FIVE_MINUTES, true), Zeroed(Relay, 2, t + FIVE_MINUTES, true)];
    ElapsedBound(t + FIVE_MINUTES, t);
    assert Apply(s, es[0]) == s;
    assert At(s, es, 0) == s && At(s, es, 1) == s;
    assert At(s, es, 2) == Apply(s, es[1]);
  }

  lemma ResetStart()
    ensures NeverFolded(At(Init(None, true, 0), ResetRun(0), 2), 0)
  {
    var s, es := Init(None, true, 0), ResetRun(0);
    assert At(s, es, 0) == s;
    assert At(s, es, 1) == Apply(s, es[0]);
    assert At(s, es, 2) == Apply(At(s, es, 1), es[1]);
  }

  lemma {:induction false} ResetsPutOffFolding(n: nat)
    ensures NeverFolded(At(Init(None, true, 0), ResetRun(n), 2 * n + 2), FIVE_MINUTES * n)
  {
    hide Init, NeverFolded, At;
    if n == 0 {
      ResetStart();
    } else {
      ResetsPutOffFolding(n - 1);
      var t := FIVE_MINUTES * (n - 1);
      var round := [Ticked(t + FIVE_MINUTES, true), Zeroed(Relay, 2, t + FIVE_MINUTES, true)];
      ResetRound(At(Init(None, true, 0), ResetRun(n - 1), 2 * n), t);
      AtConcat(Init(None, true, 0), ResetRun(n - 1), round, 2);
    }
  }

  /** The condition on resets is needed: with one every five minutes no tick ever folds, and after
      14317 of them a relay on for 4295100 s, ticked all along, reports 132. */
  lemma FrequentResetsHideRuntime()
    ensures Get(At(Init(None, true, 0), ResetRun(14317), 28636), Relay, 1, FIVE_MINUTES * 14317) == Saved(1, 132)
  {
    hide Init, At, ResetRun;
    ResetsPutOffFolding(14317);
  }

  // ------------------------------------------------------------------ store writes

  /** A tick that hands a snapshot to the store, whether or not the store takes it. */
  predicate WritesStore(s: State, e: Event) {
    e.Ticked? && Folds(s, e) && FoldAll(s, e.t).dirty
  }

  predicate InOrder(es: seq<Event>) {
    forall j, k :: 0 <= j < k < |es| ==> es[j].t <= es[k].t
  }

  lemma {:induction false} LastSaveGrows(s: State, es: seq<Event>, j: nat, k: nat)
    requires InOrder(es) && j < k <= |es| && WritesStore(At(s, es, j), es[j])
    ensures es[j].t <= At(s, es, k).lastSave <= es[k - 1].t
  {
    hide Apply, Folds;
    LastSaveAfter(At(s, es, k - 1), es[k - 1]);
    if j < k - 1 {
      LastSaveGrows(s, es, j, k - 1);
    }
  }

  /** Flash wear: two store writes made by ticks, successful or not, are never less than the
      interval apart in true time, however often the clock wraps. */
  lemma TickWritesTenMinutesApart(s: State, es: seq<Event>, j: nat, k: nat)
    requires InOrder(es) && j < k < |es|
    requires WritesStore(At(s, es, j), es[j]) && WritesStore(At(s, es, k), es[k])
    ensures es[k].t - es[j].t >= 600000
  {
    LastSaveGrows(s, es, j, k);
    ElapsedBound(es[k].t, At(s, es, k).lastSave);
  }
}
