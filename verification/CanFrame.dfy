/** Classic CAN frames, as values and as the firmware's fixed-size struct. */
module CanFrame {
  import opened Bytes

  const MAX_DATA: int := 8

  datatype Frame = Frame(id: int, extended: bool, remote: bool, data: seq<Byte>)

  /** A frame in memory. A frame fills only its own bytes of `data`; the rest stays. */
  datatype Slot = Slot(id: int, extended: bool, remote: bool, dlc: nat, data: seq<Byte>)

  predicate SlotOk(s: Slot) {
    |s.data| == MAX_DATA && s.dlc <= MAX_DATA
  }

  function Fill(s: Slot, f: Frame): Slot
    requires SlotOk(s) && |f.data| <= MAX_DATA
  {
    Slot(f.id, f.extended, f.remote, |f.data|, f.data + s.data[|f.data|..])
  }

  /** The frame a slot holds. */
  function ReadOut(s: Slot): Frame
    requires SlotOk(s)
  {
    Frame(s.id, s.extended, s.remote, s.data[..s.dlc])
  }

  lemma FillReadsBack(s: Slot, f: Frame)
    requires SlotOk(s) && |f.data| <= MAX_DATA
    ensures SlotOk(Fill(s, f)) && ReadOut(Fill(s, f)) == f
  {
  }
}
