/** The part of the settings that relay control reads, and the derived facts it uses. */
module RelayConfig {
  import opened Board
  import opened Clock32

  datatype Mode = Latching | Momentary
  datatype Policy = DefaultSafe | Hold

  /** `interlock` is the effective partner, 1-8, or 0 for none. */
  datatype RelayCfg = RelayCfg(mode: Mode, pulseMs: Word, failsafe: Policy, wiredNc: bool, maxOnS: Word,
                               interlock: nat)

  type Relays = s: seq<RelayCfg> | |s| == CHANNELS
    witness seq(CHANNELS, _ => RelayCfg(Latching, 0, DefaultSafe, false, 0, 0))

  datatype Config = Config(relays: Relays, deadMs: Word)

  predicate IsMomentary(c: Config, i: Channel) {
    c.relays[i].mode == Momentary
  }

  /** Momentary relays are always default-safe, whatever is stored. */
  function EffectiveFailsafe(r: RelayCfg): Policy {
    if r.mode == Momentary then DefaultSafe else r.failsafe
  }

  predicate IsHold(c: Config, i: Channel) {
    EffectiveFailsafe(c.relays[i]) == Hold
  }

  function HoldMask(c: Config): Mask {
    set i: Channel | IsHold(c, i)
  }

  function WiredNcMask(c: Config): Mask {
    set i: Channel | c.relays[i].wiredNc
  }

  /** Maximum on-time in ms, 0 = none; the product is taken in 32 bits. */
  function MaxOnMs(c: Config, i: Channel): Word {
    if IsMomentary(c, i) then 0 else Wrap(c.relays[i].maxOnS * 1000)
  }

  /** The interlock partner as a 0-based channel, or -1. */
  function Partner(c: Config, i: Channel): int {
    c.relays[i].interlock - 1
  }

  predicate PartnerIn(c: Config, i: Channel, m: Mask) {
    var p := Partner(c, i);
    0 <= p < CHANNELS && p in m
  }

  /** What settings loading guarantees: interlocking is mutual and never names itself. */
  predicate ValidPairs(c: Config) {
    forall i: Channel :: Partner(c, i) != -1 ==>
      var p := Partner(c, i);
      0 <= p < CHANNELS && p != i && Partner(c, p) == i
  }

  /** The channels of `m` whose partner is in `m` too. */
  function Conflicts(c: Config, m: Mask): Mask {
    set i | i in m && PartnerIn(c, i, m)
  }

  /** No interlocked pair has both its channels in `m`. */
  predicate ConflictFree(c: Config, m: Mask) {
    forall i :: i in m ==> !PartnerIn(c, i, m)
  }

  /** Dropping every conflicting channel leaves no conflict, and nothing less drops out. */
  lemma ClearedIsConflictFree(c: Config, m: Mask)
    requires ValidPairs(c)
    ensures ConflictFree(c, m - Conflicts(c, m))
    ensures Conflicts(c, m) == {} <==> ConflictFree(c, m)
  {
    assert Conflicts(c, m) == {} ==> ConflictFree(c, m) by {
      if Conflicts(c, m) == {} {
        forall i | i in m ensures !PartnerIn(c, i, m) {
          assert i !in Conflicts(c, m);
        }
      }
    }
  }
}
