/** NMEA 2000 switch-bank payloads: an instance byte, then 28 two-bit fields, one per channel, the
    least significant first. Masks are the sets of the channels whose bits are set, from 0. */
module SwitchBank {
  import opened Options

  const LEN: int := 8
  const FIELDS: int := 28

  function Below(n: nat): (s: set<nat>)
    ensures forall i: nat :: i in s <==> i < n
  {
    if n == 0 then {} else Below(n - 1) + {n - 1}
  }

  /** Channels a bank of `channels` has fields for. */
  function Served(channels: nat): nat {
    if channels < FIELDS then channels else FIELDS
  }

  function InByte(b: bv8, k: nat): bv8
    requires k < 4
  {
    (if k == 0 then b else if k == 1 then b >> 2 else if k == 2 then b >> 4 else b >> 6) & 3
  }

  function Shifted(v: bv8, k: nat): bv8
    requires k < 4
  {
    if k == 0 then v else if k == 1 then v << 2 else if k == 2 then v << 4 else v << 6
  }

  /** The two bits of channel `i`. */
  function Field(data: seq<bv8>, i: nat): bv8
    requires |data| >= LEN && i < FIELDS
  {
    InByte(data[1 + i / 4], i % 4)
  }

  /** What a status says of a channel: its state, or 3 when the bank does not have it. */
  function Status(mask: set<nat>, channels: nat, i: nat): bv8 {
    if i >= channels then 3 else if i in mask then 1 else 0
  }

  /** A payload that says exactly what a status should. */
  predicate IsStatus(data: seq<bv8>, instance: bv8, mask: set<nat>, channels: nat) {
    |data| == LEN && data[0] == instance && forall i | 0 <= i < FIELDS :: Field(data, i) == Status(mask, channels, i)
  }

  datatype Command = Command(on: set<nat>, off: set<nat>)

  /** The switch-on and switch-off channels of a control payload; None when it is short or for
      another instance. */
  function DecodeControl(data: seq<bv8>, instance: bv8, channels: nat): Option<Command> {
    if |data| < LEN || data[0] != instance then None
    else Some(Command(set i | i in Below(Served(channels)) && Field(data, i) == 1,
                      set i | i in Below(Served(channels)) && Field(data, i) == 0))
  }

  lemma FieldWrite(b: bv8, v: bv8, k: nat, j: nat)
    requires k < 4 && j < 4 && v <= 3
    ensures InByte(b | Shifted(v, k), j) == if j == k then InByte(b, k) | v else InByte(b, j)
  {
    if k == 0 {
    } else if k == 1 {
    } else if k == 2 {
    } else {
    }
  }

  lemma ByteIsItsFields(b: bv8, c: bv8)
    requires forall k | 0 <= k < 4 :: InByte(b, k) == InByte(c, k)
    ensures b == c
  {
    assert InByte(b, 0) == InByte(c, 0) && InByte(b, 1) == InByte(c, 1);
    assert InByte(b, 2) == InByte(c, 2) && InByte(b, 3) == InByte(c, 3);
  }

  /** A status is one payload only. */
  lemma StatusIsUnique(a: seq<bv8>, b: seq<bv8>, instance: bv8, mask: set<nat>, channels: nat)
    requires IsStatus(a, instance, mask, channels) && IsStatus(b, instance, mask, channels)
    ensures a == b
  {
    hide InByte, Status;
    forall n | 1 <= n < LEN ensures a[n] == b[n] {
      forall k | 0 <= k < 4 ensures InByte(a[n], k) == InByte(b[n], k) {
        var i := 4 * (n - 1) + k;
        assert Field(a, i) == Field(b, i);
      }
      ByteIsItsFields(a[n], b[n]);
    }
  }

  /** A status read as a control switches its own channels to the states they are in, and no
      other channel. */
  lemma StatusRoundTrip(data: seq<bv8>, instance: bv8, mask: set<nat>, channels: nat)
    requires IsStatus(data, instance, mask, channels)
    ensures var mine := Below(Served(channels));
            DecodeControl(data, instance, channels) == Some(Command(mask * mine, mine - mask))
  {
    hide Field;
    var mine, c := Below(Served(channels)), DecodeControl(data, instance, channels).value;
    forall i | i in mine ensures (i in c.on <==> i in mask) && (i in c.off <==> i !in mask) {
      assert Field(data, i) == Status(mask, channels, i);
    }
    assert c.on == mask * mine && c.off == mine - mask;
  }

  /** Whatever the payload, a command never asks for both states of a channel, nor for a channel
      the bank does not have; it leaves out exactly the fields that are neither 0 nor 1. */
  lemma CommandIsConsistent(data: seq<bv8>, instance: bv8, channels: nat)
    ensures var c := DecodeControl(data, instance, channels);
            && (c == None <==> |data| < LEN || data[0] != instance)
            && (c.Some? ==>
                  && c.value.on !! c.value.off
                  && c.value.on + c.value.off <= Below(Served(channels))
                  && forall i | i in Below(Served(channels)) ::
                       i !in c.value.on + c.value.off <==> Field(data, i) in {2, 3})
  {
    hide InByte;
    forall i | |data| >= LEN && i in Below(Served(channels)) ensures Field(data, i) in {0, 1, 2, 3} {
      TwoBits(data[1 + i / 4], i % 4);
    }
  }

  lemma TwoBits(b: bv8, k: nat)
    requires k < 4
    ensures InByte(b, k) in {0, 1, 2, 3}
  {
  }

  // -------------------------------------------------------------- firmware

  /** Ors a value into the field of channel `i`. */
  method OrField(out: array<bv8>, i: nat, v: bv8)
    requires out.Length == LEN && i < FIELDS && v <= 3
    modifies out
    ensures out[0] == old(out[0])
    ensures forall j | 0 <= j < FIELDS ::
              Field(out[..], j) == if j == i then old(Field(out[..], i)) | v else old(Field(out[..], j))
  {
    hide Field, Shifted;
    ghost var was := out[..];
    out[1 + i / 4] := out[1 + i / 4] | Shifted(v, i % 4);
    assert out[..] == FieldOred(was, i, v);
    forall j | 0 <= j < FIELDS
      ensures Field(out[..], j) == if j == i then Field(was, i) | v else Field(was, j)
    {
      FieldOfOred(was, i, v, j);
    }
  }

  function FieldOred(data: seq<bv8>, i: nat, v: bv8): seq<bv8>
    requires |data| == LEN && i < FIELDS
  {
    data[1 + i / 4 := data[1 + i / 4] | Shifted(v, i % 4)]
  }

  lemma FieldOfOred(data: seq<bv8>, i: nat, v: bv8, j: nat)
    requires |data| == LEN && i < FIELDS && j < FIELDS && v <= 3
    ensures Field(FieldOred(data, i, v), j) == if j == i then Field(data, i) | v else Field(data, j)
  {
    hide InByte, Shifted;
    if j / 4 == i / 4 {
      FieldWrite(data[1 + i / 4], v, i % 4, j % 4);
    }
  }

  method EncodeStatus(instance: bv8, mask: set<nat>, channels: nat, out: array<bv8>)
    requires out.Length == LEN
    modifies out
    ensures IsStatus(out[..], instance, mask, channels)
  {
    hide InByte;
    for k := 0 to LEN
      invariant forall j :: 0 <= j < k ==> out[j] == 0
    {
      out[k] := 0;
    }
    out[0] := instance;
    NoFields(out[..]);
    hide Field;
    for i := 0 to FIELDS
      invariant out[0] == instance
      invariant forall j | 0 <= j < FIELDS :: Field(out[..], j) == if j < i then Status(mask, channels, j) else 0
    {
      OrField(out, i, if i >= channels then 3 else if i in mask then 1 else 0);
    }
  }

  lemma NoFields(data: seq<bv8>)
    requires |data| == LEN && forall k | 1 <= k < LEN :: data[k] == 0
    ensures forall j | 0 <= j < FIELDS :: Field(data, j) == 0
  {
    hide InByte;
    ZeroFields();
  }

  lemma ZeroFields()
    ensures forall k | 0 <= k < 4 :: InByte(0, k) == 0
  {
  }

  method ReadControl(data: seq<bv8>, instance: bv8, channels: nat) returns (r: Option<Command>)
    ensures r == DecodeControl(data, instance, channels)
  {
    hide InByte;
    if |data| < LEN || data[0] != instance {
      return None;
    }
    var on: set<nat>, off: set<nat> := {}, {};
    for i := 0 to Served(channels)
      invariant on == set j | j in Below(i) && Field(data, j) == 1
      invariant off == set j | j in Below(i) && Field(data, j) == 0
    {
      var v := Field(data, i);
      if v == 1 {
        on := on + {i};
      } else if v == 0 {
        off := off + {i};
      }
    }
    r := Some(Command(on, off));
  }
}
