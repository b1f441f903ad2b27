/** What the counters' store has, and what a restart brings back of it. */
module CounterStore {
  import opened Options
  import opened Board
  import opened Clock32
  import opened CounterSpec
  import opened CounterRuns

  /** The stored numbers; nothing stored reads as all zero. */
  function Stored(store: Option<Data>): Data {
    if store.Some? then store.value else Data(Zero(), Zero())
  }

  /** Whenever nothing is marked unsaved, the store has every channel's numbers as last folded. */
  predicate StoreCurrent(s: State) {
    !s.dirty ==> Snapshot(s) == Stored(s.store)
  }

  /** A start-up makes it so exactly when it could read the store, or nothing was counted in it. */
  lemma StartIsCurrentIff(store: Option<Data>, loadOk: bool, t: int)
    ensures StoreCurrent(Init(store, loadOk, t)) <==> loadOk || Stored(store) == Data(Zero(), Zero())
  {
    var s := Init(store, loadOk, t);
    var data := if loadOk && store.Some? then store.value else Data(Zero(), Zero());
    assert SavedOf(Fresh(data.relays)) == data.relays;
    assert SavedOf(Fresh(data.inputs)) == data.inputs;
  }

  lemma SameBank(b: Slots, c: Slots)
    requires forall i: Channel :: b[i].cycles == c[i].cycles && b[i].runtime == c[i].runtime
    ensures SavedOf(b) == SavedOf(c)
  {
  }

  lemma ChangeKeeps(s: State, kind: Kind, channel: int, on: bool, t: int)
    requires StoreCurrent(s)
    ensures StoreCurrent(OnChange(s, kind, channel, on, t))
  {
    hide SavedOf, Fold;
    if ValidChannel(channel) {
      var r := OnChange(s, kind, channel, on, t);
      if !r.dirty {
        SameBank(r.relays, s.relays);
        SameBank(r.inputs, s.inputs);
      }
    }
  }

  lemma FoldKeeps(s: State, t: int)
    requires StoreCurrent(s)
    ensures StoreCurrent(FoldAll(s, t))
  {
    hide SavedOf, WholeSeconds;
    var r := FoldAll(s, t);
    if !r.dirty {
      forall i: Channel ensures Fold(s.relays[i], t) == s.relays[i] && Fold(s.inputs[i], t) == s.inputs[i] {
      }
      SameBank(r.relays, s.relays);
      SameBank(r.inputs, s.inputs);
    }
  }

  lemma StepKeeps(s: State, e: Event)
    requires StoreCurrent(s)
    ensures StoreCurrent(Apply(s, e))
  {
    hide FoldAll, SavedOf, OnChange, WithSlot;
    match e
    case Changed(kind, channel, on, t) => ChangeKeeps(s, kind, channel, on, t);
    case Zeroed(_, _, _, _) =>
    case Ticked(t, saveOk) => FoldKeeps(s, t);
    case Flushed(t, saveOk) => FoldKeeps(s, t);
  }

  lemma {:induction false} StoreStaysCurrent(s: State, es: seq<Event>, k: nat)
    requires StoreCurrent(s) && k <= |es|
    ensures StoreCurrent(At(s, es, k))
  {
    hide Apply, StoreCurrent;
    if k > 0 {
      StoreStaysCurrent(s, es, k - 1);
      StepKeeps(At(s, es, k - 1), es[k - 1]);
    }
  }

  lemma RestartReads(s: State, t1: int, t2: int, kind: Kind, channel: int)
    requires ValidChannel(channel) && Stored(s.store) == Snapshot(s)
    ensures var x := SlotAt(s, kind, channel - 1);
            Get(Init(s.store, true, t1), kind, channel, t2) == Saved(x.cycles, x.runtime)
  {
    AddOfTrue(SlotAt(s, kind, channel - 1).runtime, 0);
  }

  /** A tick that ends an interval of ten minutes and whose save is taken loses nothing: after it, a restart
      reports of every channel what was reported at the tick. So in every run from a start-up that could
      read the store. */
  lemma TickSurvivesRestart(store: Option<Data>, loadOk: bool, t0: int, es: seq<Event>, k: nat,
                            kind: Kind, channel: int, t1: int, t2: int)
    requires (loadOk || Stored(store) == Data(Zero(), Zero())) && k < |es| && es[k].Ticked? && es[k].saveOk
    requires 600000 <= es[k].t - At(Init(store, loadOk, t0), es, k).lastSave < WORD
    ensures var s := At(Init(store, loadOk, t0), es, k);
            Get(Init(Apply(s, es[k]).store, true, t1), kind, channel, t2) == Get(s, kind, channel, es[k].t)
  {
    var s, r := At(Init(store, loadOk, t0), es, k), At(Init(store, loadOk, t0), es, k + 1);
    assert r == Apply(s, es[k]);
    StartIsCurrentIff(store, loadOk, t0);
    StoreStaysCurrent(Init(store, loadOk, t0), es, k + 1);
    ElapsedBound(es[k].t, s.lastSave);
    hide At, Init, StoreCurrent, Snapshot, Fold;
    SavesAll(s, es[k].t);
    if ValidChannel(channel) {
      RestartReads(r, t1, t2, kind, channel);
      FoldedRuntime(SlotAt(s, kind, channel - 1), es[k].t);
      FoldedCycles(SlotAt(s, kind, channel - 1), es[k].t);
    }
  }

  lemma FoldedCycles(x: Slot, t: int)
    ensures Fold(x, t).cycles == x.cycles
  {
  }

  lemma SavesAll(s: State, t: int)
    requires Elapsed(Wrap(t), Wrap(s.lastSave)) >= 600000
    ensures var r := Tick(s, t, true); !r.dirty && (StoreCurrent(r) ==> Snapshot(r) == Stored(r.store))
    ensures forall kind, i: Channel :: SlotAt(Tick(s, t, true), kind, i) == Fold(SlotAt(s, kind, i), t)
  {
  }

  /** A saved reset: after a restart the channel reads zero, and every other one what it read at the reset
      without the seconds not yet folded. */
  lemma ResetSurvivesRestart(s: State, kind: Kind, channel: int, t: int, kind2: Kind, other: int, t1: int, t2: int)
    requires ValidChannel(channel) && ValidChannel(other)
    ensures var back := Get(Init(Reset(s, kind, channel, t, true).store, true, t1), kind2, other, t2);
            var now := Get(s, kind2, other, t);
            if kind == kind2 && channel == other then back == Saved(0, 0)
            else back.cycles == now.cycles
                 && now.runtime == Add(back.runtime, WholeSeconds(SlotAt(s, kind2, other - 1), t))
  {
    var r := Reset(s, kind, channel, t, true);
    assert Stored(r.store) == Snapshot(r);
    RestartReads(r, t1, t2, kind2, other);
    hide Init, Snapshot, Add, WholeSeconds;
  }

  /** An event that saves: a flush, a reset of a channel, or a tick that ends an interval. */
  predicate Saves(s: State, e: Event) {
    && !e.Changed? && e.saveOk
    && (e.Zeroed? ==> ValidChannel(e.channel))
    && (e.Ticked? ==> Elapsed(Wrap(e.t), Wrap(s.lastSave)) >= 600000)
  }

  /** After it nothing is unsaved. */
  lemma SavedIsClean(s: State, e: Event)
    requires Saves(s, e)
    ensures !Apply(s, e).dirty
  {
  }

  /** The event counts nothing: no channel is on, and it is a tick, or a report of what is known or of a
      channel not heard of before. */
  predicate CountsNothing(s: State, e: Event) {
    && (forall kind, i: Channel :: !SlotAt(s, kind, i).on)
    && (e.Ticked? || (e.Changed? && ValidChannel(e.channel)
                      && (!SlotAt(s, e.kind, e.channel - 1).seen || !e.on)))
  }

  /** Nothing counted, nothing written: the store is left as it is, empty included, and nothing is
      marked unsaved. */
  lemma NothingCountedNothingWritten(s: State, e: Event)
    requires !s.dirty && CountsNothing(s, e)
    ensures Apply(s, e).store == s.store && !Apply(s, e).dirty
  {
    if e.Ticked? {
      forall kind, i: Channel ensures WholeSeconds(SlotAt(s, kind, i), e.t) == 0 {
      }
      assert forall i: Channel :: s.relays[i] == SlotAt(s, Relay, i) && s.inputs[i] == SlotAt(s, Input, i);
    }
  }
}
