/** The counters as the firmware keeps them: a bank of slot records per kind, updated in place
    with 32-bit times. Ghost slots keep the true times. */
module Counters {
  import opened Options
  import opened Board
  import opened Clock32
  import opened CounterSpec

  datatype RawSlot = RawSlot(seen: bool, on: bool, onSinceMs: Word, cycles: Word, runtime: Word)

  function Raw(x: Slot): RawSlot {
    RawSlot(x.seen, x.on, Wrap(x.onSince), x.cycles, x.runtime)
  }

  /** `slot_t relays[8]` or `slot_t inputs[8]`. */
  class Bank {
    const slots: array<RawSlot>
    ghost var view: Slots

    ghost predicate Valid()
      reads this, slots
    {
      slots.Length == CHANNELS && forall i: Channel :: slots[i] == Raw(view[i])
    }

    constructor (b: SavedBank)
      ensures Valid() && view == CounterSpec.Fresh(b) && fresh(slots)
    {
      slots := new RawSlot[CHANNELS](i requires 0 <= i < CHANNELS =>
        RawSlot(false, false, 0, b[i].cycles, b[i].runtime));
      view := CounterSpec.Fresh(b);
    }

    method Put(i: Channel, raw: RawSlot, ghost x: Slot)
      requires Valid() && raw == Raw(x)
      modifies this, slots
      ensures Valid() && view == old(view)[i := x]
    {
      slots[i] := raw;
      view := view[i := x];
    }

    /** fold_running for one slot: whether anything was folded. */
    method FoldOne(i: Channel, t: int) returns (folded: bool)
      requires Valid()
      modifies this, slots
      ensures Valid() && view == old(view)[i := Fold(old(view)[i], t)]
      ensures folded == (WholeSeconds(old(view)[i], t) != 0)
    {
      var x := slots[i];
      folded := false;
      if x.on {
        var whole := Elapsed(Wrap(t), x.onSinceMs) / 1000;
        if whole != 0 {
          AddOfTrue(view[i].onSince, whole * 1000);
          Put(i, x.(runtime := Add(x.runtime, whole), onSinceMs := Add(x.onSinceMs, whole * 1000)), Fold(view[i], t));
          folded := true;
        }
      }
    }

    method FoldEvery(t: int) returns (folded: bool)
      requires Valid()
      modifies this, slots
      ensures Valid() && view == FoldBank(old(view), t)
      ensures folded == AnyFolds(old(view), t)
    {
      ghost var was := view;
      folded := false;
      for i := 0 to CHANNELS
        invariant Valid()
        invariant forall j: Channel :: view[j] == if j < i then Fold(was[j], t) else was[j]
        invariant folded == exists j: Channel :: j < i && WholeSeconds(was[j], t) != 0
      {
        var one := FoldOne(i, t);
        if one {
          folded := true;
        }
      }
      assert view == FoldBank(was, t);
    }

    method Save() returns (b: SavedBank)
      requires Valid()
      ensures b == SavedOf(view)
    {
      b := seq(CHANNELS, i requires 0 <= i < slots.Length reads slots => Saved(slots[i].cycles, slots[i].runtime));
    }
  }

  class Store {
    const relays: Bank
    const inputs: Bank
    var dirty: bool
    var lastSaveMs: Word
    var stored: Option<Data>

    ghost var lastSave: int

    ghost const Repr: set<object> := {this, relays, relays.slots, inputs, inputs.slots}

    ghost predicate Valid()
      reads Repr
    {
      && relays.Valid() && inputs.Valid() && relays != inputs && relays.slots != inputs.slots
      && lastSaveMs == Wrap(lastSave)
    }

    ghost function View(): State
      reads Repr
    {
      State(relays.view, inputs.view, dirty, lastSave, stored)
    }

    constructor (stored: Option<Data>, loadOk: bool, t: int)
      ensures Valid() && View() == CounterSpec.Init(stored, loadOk, t) && fresh(Repr)
    {
      var data := if loadOk && stored.Some? then stored.value else Data(Zero(), Zero());
      relays := new Bank(data.relays);
      inputs := new Bank(data.inputs);
      dirty, lastSaveMs, lastSave := false, Wrap(t), t;
      this.stored := stored;
    }

    method OnChange(kind: Kind, channel: int, on: bool, t: int)
      requires Valid()
      modifies Repr
      ensures Valid() && View() == CounterSpec.OnChange(old(View()), kind, channel, on, t)
    {
      if ValidChannel(channel) {
        var changed := ChangeSlot(if kind == Relay then relays else inputs, channel - 1, on, t);
        if changed {
          dirty := true;
        }
      }
    }

    static method ChangeSlot(bank: Bank, i: Channel, on: bool, t: int) returns (changed: bool)
      requires bank.Valid()
      modifies bank, bank.slots
      ensures bank.Valid() && bank.view == old(bank.view)[i := Change(old(bank.view)[i], on, t)]
      ensures var x := old(bank.view)[i]; changed == (x.seen && on != x.on)
    {
      var x := bank.slots[i];
      ghost var v := bank.view[i];
      changed := false;
      if !x.seen {
        bank.Put(i, x.(seen := true, on := on, onSinceMs := Wrap(t)), Change(v, on, t));
      } else if on != x.on {
        if on {
          bank.Put(i, x.(cycles := Add(x.cycles, 1), on := true, onSinceMs := Wrap(t)), Change(v, on, t));
        } else {
          var folded := bank.FoldOne(i, t);
          bank.Put(i, bank.slots[i].(on := false), bank.view[i].(on := false));
        }
        changed := true;
      } else {
        assert bank.view == bank.view[i := v];
      }
    }

    method Get(kind: Kind, channel: int, t: int) returns (r: Saved)
      requires Valid()
      ensures r == CounterSpec.Get(View(), kind, channel, t)
    {
      if !ValidChannel(channel) {
        return Saved(0, 0);
      }
      var bank := if kind == Relay then relays else inputs;
      var x := bank.slots[channel - 1];
      var extra := if x.on then Elapsed(Wrap(t), x.onSinceMs) / 1000 else 0;
      r := Saved(x.cycles, Add(x.runtime, extra));
    }

    method FoldAll(t: int)
      requires Valid()
      modifies this`dirty, relays, relays.slots, inputs, inputs.slots
      ensures Valid() && View() == CounterSpec.FoldAll(old(View()), t)
    {
      var a := relays.FoldEvery(t);
      var b := inputs.FoldEvery(t);
      if a || b {
        dirty := true;
      }
    }

    /** Writes the snapshot to the store; `saveOk` is the store's answer. */
    method SaveNow(saveOk: bool)
      requires Valid()
      modifies this`stored, this`dirty
      ensures Valid()
      ensures View() == if saveOk then old(View()).(store := Some(Snapshot(old(View()))), dirty := false)
                        else old(View())
    {
      var r := relays.Save();
      var i := inputs.Save();
      if saveOk {
        stored := Some(Data(r, i));
        dirty := false;
      }
    }

    method Reset(kind: Kind, channel: int, t: int, saveOk: bool)
      requires Valid()
      modifies Repr
      ensures Valid() && View() == CounterSpec.Reset(old(View()), kind, channel, t, saveOk)
    {
      if ValidChannel(channel) {
        ZeroSlot(if kind == Relay then relays else inputs, channel - 1, t);
        dirty := true;
        SaveNow(saveOk);
        if saveOk {
          lastSaveMs, lastSave := Wrap(t), t;
        }
      }
    }

    static method ZeroSlot(bank: Bank, i: Channel, t: int)
      requires bank.Valid()
      modifies bank, bank.slots
      ensures bank.Valid() && bank.view == old(bank.view)[i := ResetSlot(old(bank.view)[i], t)]
    {
      var x := bank.slots[i];
      bank.Put(i, x.(cycles := 0, runtime := 0, onSinceMs := if x.on then Wrap(t) else x.onSinceMs),
               ResetSlot(bank.view[i], t));
    }

    method Tick(t: int, saveOk: bool)
      requires Valid()
      modifies Repr
      ensures Valid() && View() == CounterSpec.Tick(old(View()), t, saveOk)
    {
      if Elapsed(Wrap(t), lastSaveMs) >= INTERVAL {
        FoldAll(t);
        if dirty {
          SaveNow(saveOk);
        }
        lastSaveMs, lastSave := Wrap(t), t;
      }
    }

    method FlushNow(t: int, saveOk: bool)
      requires Valid()
      modifies Repr
      ensures Valid() && View() == CounterSpec.FlushNow(old(View()), t, saveOk)
    {
      FoldAll(t);
      SaveNow(saveOk);
      if saveOk {
        lastSaveMs, lastSave := Wrap(t), t;
      }
    }
  }
}
