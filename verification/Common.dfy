/** An optional value. */
module Options {
  datatype Option<+T> = None | Some(value: T)
}

module Numbers {
  function Min(a: int, b: int): int {
    if a < b then a else b
  }
}

/** Bytes, and numbers laid out in them least significant byte first. */
module Bytes {
  type Byte = x: int | 0 <= x < 256

  /** The low `n` bytes of `v`. */
  function Le(v: nat, n: nat): (s: seq<Byte>)
    ensures |s| == n
  {
    if n == 0 then [] else [v % 256] + Le(v / 256, n - 1)
  }

  function FromLe(s: seq<Byte>): nat {
    if s == [] then 0 else s[0] + 256 * FromLe(s[1..])
  }

  function Pow256(n: nat): nat {
    if n == 0 then 1 else 256 * Pow256(n - 1)
  }

  /** A number that fits is read back. */
  lemma {:induction false} LeThenFrom(v: nat, n: nat)
    requires v < Pow256(n)
    ensures FromLe(Le(v, n)) == v
  {
    if n > 0 {
      LeThenFrom(v / 256, n - 1);
      assert Le(v, n)[1..] == Le(v / 256, n - 1);
    }
  }

  lemma {:induction false} FromLeBound(s: seq<Byte>)
    ensures FromLe(s) < Pow256(|s|)
  {
    if s != [] {
      FromLeBound(s[1..]);
    }
  }

  /** Every layout is the layout of the number read from it. */
  lemma {:induction false} FromThenLe(s: seq<Byte>)
    ensures Le(FromLe(s), |s|) == s
  {
    if s != [] {
      FromThenLe(s[1..]);
      LowByte(s[0], FromLe(s[1..]));
    }
  }

  lemma LowByte(b: Byte, v: nat)
    ensures (b + 256 * v) % 256 == b && (b + 256 * v) / 256 == v
  {
  }
}
