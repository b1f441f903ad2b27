/** Cycle and run-time counters: what each call does, in true time on the 32-bit clock. */
module CounterSpec {
  import opened Options
  import opened Board
  import opened Clock32

  datatype Kind = Relay | Input

  /** `onSince` is when the running on-period started, or was last folded into `runtime`. */
  datatype Slot = Slot(seen: bool, on: bool, onSince: int, cycles: Word, runtime: Word)
  datatype Saved = Saved(cycles: Word, runtime: Word)

  type Slots = s: seq<Slot> | |s| == CHANNELS witness seq(CHANNELS, _ => Slot(false, false, 0, 0, 0))
  type SavedBank = s: seq<Saved> | |s| == CHANNELS witness seq(CHANNELS, _ => Saved(0, 0))

  /** The one blob stored for all channels. */
  datatype Data = Data(relays: SavedBank, inputs: SavedBank)

  datatype State = State(relays: Slots, inputs: Slots, dirty: bool, lastSave: int, store: Option<Data>)

  const INTERVAL: int := 600000

  function SlotAt(s: State, kind: Kind, i: Channel): Slot {
    if kind == Relay then s.relays[i] else s.inputs[i]
  }

  function WithSlot(s: State, kind: Kind, i: Channel, x: Slot): State {
    if kind == Relay then s.(relays := s.relays[i := x]) else s.(inputs := s.inputs[i := x])
  }

  // --------------------------------------------------------------- folding

  function WholeSeconds(x: Slot, t: int): int {
    if x.on then Elapsed(Wrap(t), Wrap(x.onSince)) / 1000 else 0
  }

  /** Moves the whole seconds of the running period into the snapshot. */
  function Fold(x: Slot, t: int): Slot {
    var w := WholeSeconds(x, t);
    if w == 0 then x else x.(runtime := Add(x.runtime, w), onSince := x.onSince + w * 1000)
  }

  function FoldBank(b: Slots, t: int): Slots {
    seq(CHANNELS, i requires 0 <= i < CHANNELS => Fold(b[i], t))
  }

  predicate AnyFolds(b: Slots, t: int) {
    exists i: Channel :: WholeSeconds(b[i], t) != 0
  }

  function FoldAll(s: State, t: int): State {
    s.(relays := FoldBank(s.relays, t), inputs := FoldBank(s.inputs, t),
       dirty := s.dirty || AnyFolds(s.relays, t) || AnyFolds(s.inputs, t))
  }

  function SavedOf(b: Slots): SavedBank {
    seq(CHANNELS, i requires 0 <= i < CHANNELS => Saved(b[i].cycles, b[i].runtime))
  }

  function Snapshot(s: State): Data {
    Data(SavedOf(s.relays), SavedOf(s.inputs))
  }

  // ------------------------------------------------------------------ calls

  function Fresh(b: SavedBank): Slots {
    seq(CHANNELS, i requires 0 <= i < CHANNELS => Slot(false, false, 0, b[i].cycles, b[i].runtime))
  }

  function Zero(): SavedBank {
    seq(CHANNELS, _ => Saved(0, 0))
  }

  /** Start-up from the store; nothing stored, or a failed load, starts at zero. */
  function Init(store: Option<Data>, loadOk: bool, t: int): State {
    var data := if loadOk && store.Some? then store.value else Data(Zero(), Zero());
    State(Fresh(data.relays), Fresh(data.inputs), false, t, store)
  }

  function Change(x: Slot, on: bool, t: int): Slot {
    if !x.seen then x.(seen := true, on := on, onSince := t)
    else if on == x.on then x
    else if on then x.(cycles := Add(x.cycles, 1), on := true, onSince := t)
    else Fold(x, t).(on := false)
  }

  predicate ValidChannel(channel: int) {
    1 <= channel <= CHANNELS
  }

  function OnChange(s: State, kind: Kind, channel: int, on: bool, t: int): State {
    if !ValidChannel(channel) then s
    else
      var x := SlotAt(s, kind, channel - 1);
      WithSlot(s, kind, channel - 1, Change(x, on, t)).(dirty := s.dirty || (x.seen && on != x.on))
  }

  function Get(s: State, kind: Kind, channel: int, t: int): Saved {
    if !ValidChannel(channel) then Saved(0, 0)
    else
      var x := SlotAt(s, kind, channel - 1);
      Saved(x.cycles, Add(x.runtime, WholeSeconds(x, t)))
  }

  function ResetSlot(x: Slot, t: int): Slot {
    x.(cycles := 0, runtime := 0, onSince := if x.on then t else x.onSince)
  }

  function Reset(s: State, kind: Kind, channel: int, t: int, saveOk: bool): State {
    if !ValidChannel(channel) then s
    else
      var s1 := WithSlot(s, kind, channel - 1, ResetSlot(SlotAt(s, kind, channel - 1), t)).(dirty := true);
      if saveOk then s1.(store := Some(Snapshot(s1)), dirty := false, lastSave := t) else s1
  }

  function Tick(s: State, t: int, saveOk: bool): State {
    if Elapsed(Wrap(t), Wrap(s.lastSave)) < INTERVAL then s
    else
      var s1 := FoldAll(s, t);
      if s1.dirty && saveOk then s1.(store := Some(Snapshot(s1)), dirty := false, lastSave := t)
      else s1.(lastSave := t)
  }

  function FlushNow(s: State, t: int, saveOk: bool): State {
    var s1 := FoldAll(s, t);
    if saveOk then s1.(store := Some(Snapshot(s1)), dirty := false, lastSave := t) else s1
  }
}
