/** A per-channel time array of the firmware: eight wrapped 32-bit times. The ghost field keeps
    the true times they stand for. */
module Timers {
  import opened Board
  import opened Clock32

  type Times = s: seq<int> | |s| == CHANNELS witness seq(CHANNELS, _ => 0)

  /** The wrapped deadline test on true times. */
  predicate Passed(t: int, due: int) {
    DeadlinePassed(Wrap(t), Wrap(due))
  }

  class WrappedTimes {
    const ends: array<Word>
    ghost var due: Times

    ghost predicate Valid()
      reads this, ends
    {
      ends.Length == CHANNELS && forall i: Channel :: ends[i] == Wrap(due[i])
    }

    constructor ()
      ensures Valid() && fresh(ends)
    {
      ends := new Word[CHANNELS](_ => 0);
      due := seq(CHANNELS, _ => 0);
    }

    /** `end[i] = now + length` in 32 bits. */
    method Start(i: Channel, t: int, length: Word)
      requires Valid()
      modifies this, ends
      ensures Valid() && due == old(due)[i := t + length]
    {
      AddOfTrue(t, length);
      ends[i] := Add(Wrap(t), length);
      due := due[i := t + length];
    }

    /** `now - time[i]` in 32 bits. */
    method Age(i: Channel, now: Word, ghost t: int) returns (age: Word)
      requires Valid() && now == Wrap(t)
      ensures age == Elapsed(Wrap(t), Wrap(due[i]))
    {
      age := Elapsed(now, ends[i]);
    }

    method HasPassed(i: Channel, now: Word, ghost t: int) returns (passed: bool)
      requires Valid() && now == Wrap(t)
      ensures passed == Passed(t, due[i])
    {
      passed := DeadlinePassed(now, ends[i]);
    }
  }
}
