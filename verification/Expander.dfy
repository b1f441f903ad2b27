/** The TCA9554 output expander on an unreliable bus: the chip's registers, the answers the
    bus may give, and the write-then-verify operations the firmware builds on it. */
module Expander {
  import opened Options
  import opened Board

  /** What one register read brings back: an error, a wrong byte, or the register. */
  datatype ReadAnswer = ReadFailed | Garbled(value: Mask) | Honest

  /** One write-then-verify: whether the write took effect, whether the bus reported success,
      and how the read-back went. All eight-way combinations can happen. */
  datatype WriteAnswer = WriteAnswer(landed: bool, acked: bool, back: ReadAnswer)

  const GOOD: WriteAnswer := WriteAnswer(true, true, Honest)

  datatype BusWrite = WroteOutput(value: Mask) | WroteDirection(inputs: Mask)

  /** `inputs` is the direction register (bit set = pin is an input); `log` records every
      register write that was sent, landed or not. */
  datatype Chip = Chip(output: Mask, inputs: Mask, log: seq<BusWrite>)

  /** The relays the chip energises: outputs drive, inputs do not. */
  function Driven(c: Chip): Mask {
    c.output - c.inputs
  }

  function ReadBack(reg: Mask, a: ReadAnswer): Option<Mask> {
    match a
    case ReadFailed => None
    case Garbled(v) => Some(v)
    case Honest => Some(reg)
  }

  datatype WriteResult = WriteResult(chip: Chip, ok: bool)

  function WriteOutput(c: Chip, v: Mask, a: WriteAnswer): WriteResult {
    var c1 := c.(output := if a.landed then v else c.output, log := c.log + [WroteOutput(v)]);
    WriteResult(c1, a.acked && ReadBack(c1.output, a.back) == Some(v))
  }

  function WriteDirection(c: Chip, inputs: Mask, a: WriteAnswer): WriteResult {
    WriteResult(c.(inputs := if a.landed then inputs else c.inputs, log := c.log + [WroteDirection(inputs)]),
                a.acked)
  }

  function InitOutputs(c: Chip, v: Mask, a: WriteAnswer, dir: WriteAnswer): WriteResult {
    var w := WriteOutput(c, v, a);
    if !w.ok then w else WriteDirection(w.chip, {}, dir)
  }

  /** A verified write on an honest bus is in the register; a write reported as failed may
      still have landed, so only the log, never the register, bounds what the pins can show. */
  lemma VerifiedWrite(c: Chip, v: Mask, a: WriteAnswer)
    ensures var w := WriteOutput(c, v, a);
            && (w.ok && a.back == Honest ==> w.chip.output == v)
            && w.chip.output in {c.output, v}
            && (a == GOOD ==> w.ok)
  {
  }

  /** The read-back confirmed a write that never landed and that the register did not have. */
  predicate FalselyConfirmed(c: Chip, v: Mask, a: WriteAnswer) {
    WriteOutput(c, v, a).ok && WriteOutput(c, v, a).chip.output != v
  }

  /** Outputs before direction: on a chip fresh from power-on (all pins inputs) initialisation
      energises nothing before the directions are set, and at its end nothing or exactly the
      requested relays, unless a wrong read-back confirmed a write that never landed: then, and
      only then, the pins may show what the register had before. */
  lemma InitDrivesOnlyTarget(c: Chip, v: Mask, a: WriteAnswer, dir: WriteAnswer)
    requires c.inputs == ALL
    ensures var w := InitOutputs(c, v, a, dir);
            && Driven(WriteOutput(c, v, a).chip) == {}
            && (w.ok && dir.landed && !FalselyConfirmed(c, v, a) ==> Driven(w.chip) == v)
            && (Driven(w.chip) in {{}, v} <==> !FalselyConfirmed(c, v, a) || !dir.landed || c.output == {})
  {
    var w := WriteOutput(c, v, a);
    assert w.chip.output <= ALL;
    assert Driven(w.chip) == {};
    var d := InitOutputs(c, v, a, dir);
    if w.ok && dir.landed {
      assert Driven(d.chip) == w.chip.output;
    } else {
      assert Driven(d.chip) == {};
    }
  }

  /** The chip as the firmware handles it: registers changed in place, one bus answer per
      transaction. `View` is the abstract chip. */
  class Tca9554 {
    var output: Mask
    var inputs: Mask
    ghost var log: seq<BusWrite>

    ghost function View(): Chip
      reads this
    {
      Chip(output, inputs, log)
    }

    /** Power-on defaults: output register all ones, every pin an input. */
    constructor PowerOn()
      ensures View() == Chip(ALL, ALL, [])
    {
      output, inputs := ALL, ALL;
      log := [];
    }

    method WriteOutputRegister(v: Mask, a: WriteAnswer) returns (acked: bool)
      modifies this
      ensures View() == WriteOutput(old(View()), v, a).chip
      ensures acked == a.acked
    {
      log := log + [WroteOutput(v)];
      if a.landed {
        output := v;
      }
      acked := a.acked;
    }

    method ReadOutputRegister(a: ReadAnswer) returns (v: Option<Mask>)
      ensures v == ReadBack(output, a)
    {
      v := match a case ReadFailed => None case Garbled(g) => Some(g) case Honest => Some(output);
    }

    method ReadDirection(a: ReadAnswer) returns (v: Option<Mask>)
      ensures v == ReadBack(inputs, a)
    {
      v := match a case ReadFailed => None case Garbled(g) => Some(g) case Honest => Some(inputs);
    }

    /** tca9554_write_outputs: write, then read back and compare. */
    method WriteOutputs(v: Mask, a: WriteAnswer) returns (ok: bool)
      modifies this
      ensures var w := WriteOutput(old(View()), v, a); View() == w.chip && ok == w.ok
    {
      ok := WriteOutputRegister(v, a);
      if ok {
        var back := ReadOutputRegister(a.back);
        ok := back == Some(v);
      }
    }

    /** tca9554_init_outputs: the output register is written before the direction register. */
    method InitialiseOutputs(v: Mask, a: WriteAnswer, dir: WriteAnswer) returns (ok: bool)
      modifies this
      ensures var w := InitOutputs(old(View()), v, a, dir); View() == w.chip && ok == w.ok
    {
      ok := WriteOutputs(v, a);
      if ok {
        if dir.landed {
          inputs := {};
        }
        log := log + [WroteDirection({})];
        ok := dir.acked;
      }
    }
  }
}
