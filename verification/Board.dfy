/** The board's channels. A `uint8_t` mask of the firmware, bit n-1 for channel n, is the set
    of the 0-based channels whose bit is set; the eight-bit complement is taken within ALL. */
module Board {
  const CHANNELS: int := 8

  type Channel = i: int | 0 <= i < CHANNELS witness 0
  type Mask = set<Channel>

  const ALL: Mask := set i: Channel | 0 <= i < CHANNELS

  function Xor(a: Mask, b: Mask): Mask {
    (a - b) + (b - a)
  }

  /** The channels below `n`, for loops over channels. */
  function Below(n: int): Mask {
    set i | i in ALL && i < n
  }
}

/** The wrapping 32-bit millisecond clock. True time is an unbounded `int`. */
module Clock32 {
  const WORD: int := 0x1_0000_0000
  const HALF: int := 0x8000_0000

  type Word = x: int | 0 <= x < WORD

  function Wrap(t: int): Word {
    t % WORD
  }

  /** Unsigned 32-bit `now - since`. */
  function Elapsed(now: Word, since: Word): Word {
    (now - since) % WORD
  }

  /** `(int32_t)x`. */
  function Signed(x: Word): int {
    if x < HALF then x else x - WORD
  }

  predicate DeadlinePassed(now: Word, deadline: Word) {
    Signed(Elapsed(now, deadline)) >= 0
  }

  /** 32-bit addition of a signed amount. */
  function Add(x: Word, k: int): Word {
    (x + k) % WORD
  }

  lemma AddOfTrue(t: int, k: int)
    ensures Add(Wrap(t), k) == Wrap(t + k)
  {
    ModShift(Wrap(t) + k, t / WORD);
    assert t + k == Wrap(t) + k + (t / WORD) * WORD;
  }

  lemma ElapsedOfTrue(t: int, since: int)
    ensures Elapsed(Wrap(t), Wrap(since)) == (t - since) % WORD
  {
    var a, b := t / WORD, since / WORD;
    assert t == a * WORD + Wrap(t) && since == b * WORD + Wrap(since);
    ModShift(Wrap(t) - Wrap(since), a - b);
  }

  lemma ModShift(x: int, k: int)
    ensures (x + k * WORD) % WORD == x % WORD
  {
    var q := (x + k * WORD) / WORD;
    assert x == (q - k) * WORD + (x + k * WORD) % WORD;
  }

  /** The signed 32-bit deadline test is the true-time test as long as true time is within
      2^31 ms of the deadline; no further. */
  lemma DeadlineAgrees(t: int, due: int)
    ensures -HALF <= t - due < HALF ==> (DeadlinePassed(Wrap(t), Wrap(due)) <==> t >= due)
    ensures DeadlinePassed(Wrap(t), Wrap(due)) <==> (t - due) % WORD < HALF
  {
    ElapsedOfTrue(t, due);
    if -HALF <= t - due < 0 {
      ModShift(t - due, 1);
      assert (t - due) % WORD == t - due + WORD;
    }
  }

  /** Unsigned elapsed time never exceeds the true elapsed time, and equals it below 2^32. */
  lemma ElapsedBound(t: int, since: int)
    requires since <= t
    ensures Elapsed(Wrap(t), Wrap(since)) <= t - since
    ensures t - since < WORD ==> Elapsed(Wrap(t), Wrap(since)) == t - since
  {
    ElapsedOfTrue(t, since);
  }
}
