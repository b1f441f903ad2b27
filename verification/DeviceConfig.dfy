/** The settings that loading derives across keys: effective interlock pairs, and schedules
    that fight over a relay. Both loops rewrite the loaded record in place from a snapshot. */
module DeviceConfig {
  import opened Board
  import opened RelayConfig

  // -------------------------------------------------------------- interlock pairs

  /** Relay `i`'s setting names another relay that names it back. Relay numbers are 1-based. */
  predicate Mutual(raw: seq<nat>, i: nat)
    requires i < |raw|
  {
    var p := raw[i];
    1 <= p <= |raw| && p != i + 1 && raw[p - 1] == i + 1
  }

  function Effective(raw: seq<nat>): seq<nat> {
    seq(|raw|, i requires 0 <= i < |raw| => if Mutual(raw, i) then raw[i] else 0)
  }

  /** Settings that are ignored: nonzero, but not mutual. */
  function Ignored(raw: seq<nat>): set<nat> {
    set i: nat | i < |raw| && raw[i] != 0 && !Mutual(raw, i)
  }

  /** The interlock loop of device_config_load, over any number of relays. */
  method DerivePairs(interlock: array<nat>) returns (invalid: set<nat>)
    modifies interlock
    ensures interlock[..] == Effective(old(interlock[..]))
    ensures invalid == Ignored(old(interlock[..]))
  {
    ghost var raw := interlock[..];
    var snapshot := interlock[..];
    invalid := {};
    for i := 0 to interlock.Length
      invariant invalid == set k: nat | k < i && raw[k] != 0 && !Mutual(raw, k)
      invariant forall k :: 0 <= k < i ==> interlock[k] == Effective(raw)[k]
      invariant forall k :: i <= k < interlock.Length ==> interlock[k] == raw[k]
    {
      var n := i + 1;
      var partner := snapshot[i];
      if partner == 0 {
        interlock[i] := 0;
      } else {
        var selfRef := partner == n;
        var outOfRange := partner < 1 || partner > interlock.Length;
        if !selfRef && !outOfRange && snapshot[partner - 1] == n {
          interlock[i] := partner;
        } else {
          interlock[i] := 0;
          invalid := invalid + {i};
        }
      }
    }
  }

  /** The effective map is a fixed-point-free involution on its support. */
  lemma EffectiveIsInvolution(raw: seq<nat>, i: nat)
    requires i < |raw| && Effective(raw)[i] != 0
    ensures var p := Effective(raw)[i];
            && 1 <= p <= |raw| && p != i + 1
            && Effective(raw)[p - 1] == i + 1
  {
    assert Mutual(raw, raw[i] - 1);
  }

  /** Exactly the mutual pairs are kept, exactly the other nonzero settings are flagged, and a
      derived map derives to itself with nothing flagged. */
  lemma KeepsExactlyMutual(raw: seq<nat>)
    ensures forall i: nat :: i < |raw| ==> (Effective(raw)[i] != 0 <==> Mutual(raw, i))
    ensures forall i: nat :: i < |raw| ==> (i in Ignored(raw) <==> raw[i] != Effective(raw)[i])
    ensures Effective(Effective(raw)) == Effective(raw) && Ignored(Effective(raw)) == {}
  {
    var eff := Effective(raw);
    forall i: nat | i < |raw| ensures eff[i] != 0 ==> Mutual(eff, i) {
      if eff[i] != 0 {
        EffectiveIsInvolution(raw, i);
      }
    }
    assert Effective(eff) == eff;
  }

  /** Loaded settings are what relay control requires of its pairs, whatever was stored. */
  lemma LoadedPairsAreValid(c: Config, raw: seq<nat>)
    requires |raw| == CHANNELS
    requires forall i: Channel :: c.relays[i].interlock == Effective(raw)[i]
    ensures ValidPairs(c)
  {
    forall i: Channel, p: int | p == Partner(c, i) && p != -1
      ensures 0 <= p < CHANNELS && p != i && Partner(c, p) == i
    {
      EffectiveIsInvolution(raw, i);
      assert c.relays[p].interlock == Effective(raw)[p];
    }
  }

  // --------------------------------------------------- schedules on the same relay

  /** Entry `i` is enabled and another entry names its relay too. */
  predicate Shared(raw: seq<nat>, i: nat)
    requires i < |raw|
  {
    raw[i] != 0 && exists j :: 0 <= j < |raw| && j != i && raw[j] == raw[i]
  }

  function Count(raw: seq<nat>, r: nat): nat {
    if raw == [] then 0 else Count(raw[..|raw| - 1], r) + if raw[|raw| - 1] == r then 1 else 0
  }

  lemma {:induction false} CountZero(raw: seq<nat>, r: nat)
    ensures Count(raw, r) == 0 <==> r !in raw
  {
    if raw != [] {
      var n := |raw| - 1;
      CountZero(raw[..n], r);
      assert raw == raw[..n] + [raw[n]];
    }
  }

  lemma {:induction false} CountOne(raw: seq<nat>, r: nat, i: nat)
    requires i < |raw| && raw[i] == r
    ensures Count(raw, r) < 2 <==> forall j :: 0 <= j < |raw| && j != i ==> raw[j] != r
  {
    var n := |raw| - 1;
    CountZero(raw[..n], r);
    assert forall j :: 0 <= j < n ==> raw[..n][j] == raw[j];
    if i < n {
      CountOne(raw[..n], r, i);
      assert raw[n] == r ==> Count(raw, r) >= 2;
    }
  }

  function WithoutConflicts(raw: seq<nat>): seq<nat> {
    seq(|raw|, i requires 0 <= i < |raw| => if Shared(raw, i) then 0 else raw[i])
  }

  /** The overlap loop of device_config_load: `relay[i]` is entry i's relay, 1-8, or 0. */
  method RemoveConflicts(relay: array<nat>) returns (conflict: set<nat>)
    requires forall i :: 0 <= i < relay.Length ==> relay[i] <= CHANNELS
    modifies relay
    ensures relay[..] == WithoutConflicts(old(relay[..]))
    ensures conflict == set i: nat | i < |old(relay[..])| && Shared(old(relay[..]), i) :: old(relay[..])[i]
  {
    ghost var raw := relay[..];
    var snapshot := relay[..];
    conflict := {};
    for r := 1 to CHANNELS + 1
      invariant forall i :: 0 <= i < relay.Length ==>
                  relay[i] == if raw[i] < r && Shared(raw, i) then 0 else raw[i]
      invariant forall c :: c in conflict <==> c < r && exists i: nat :: i < |raw| && Shared(raw, i) && raw[i] == c
    {
      var count := CountEntries(snapshot, r);
      if count >= 2 {
        conflict := conflict + {r};
        ClearEntries(relay, snapshot, r);
      }
      SharedIffCounted(raw, r);
    }
    assert relay[..] == WithoutConflicts(raw);
  }

  method CountEntries(snapshot: seq<nat>, r: nat) returns (count: nat)
    ensures count == Count(snapshot, r)
  {
    count := 0;
    for i := 0 to |snapshot|
      invariant count == Count(snapshot[..i], r)
    {
      assert snapshot[..i + 1][..i] == snapshot[..i];
      if snapshot[i] == r {
        count := count + 1;
      }
    }
    assert snapshot[..|snapshot|] == snapshot;
  }

  method ClearEntries(relay: array<nat>, snapshot: seq<nat>, r: nat)
    requires |snapshot| == relay.Length
    modifies relay
    ensures forall i :: 0 <= i < relay.Length ==> relay[i] == if snapshot[i] == r then 0 else old(relay[i])
  {
    for i := 0 to relay.Length
      invariant forall k :: 0 <= k < relay.Length ==>
                  relay[k] == if k < i && snapshot[k] == r then 0 else old(relay[k])
    {
      if snapshot[i] == r {
        relay[i] := 0;
      }
    }
  }

  lemma SharedIffCounted(raw: seq<nat>, r: nat)
    requires r != 0
    ensures forall i: nat :: i < |raw| && raw[i] == r ==> (Shared(raw, i) <==> Count(raw, r) >= 2)
    ensures Count(raw, r) >= 2 <==> exists i: nat :: i < |raw| && Shared(raw, i) && raw[i] == r
  {
    forall i: nat | i < |raw| && raw[i] == r ensures Shared(raw, i) <==> Count(raw, r) >= 2 {
      CountOne(raw, r, i);
    }
    CountZero(raw, r);
    if Count(raw, r) >= 2 {
      var i :| 0 <= i < |raw| && raw[i] == r;
      assert Shared(raw, i);
    }
  }

  /** Afterwards no two enabled entries name the same relay, and an entry was disabled exactly
      when it shared its relay; the survivors are untouched. */
  lemma SchedulesDoNotFight(raw: seq<nat>)
    ensures var out := WithoutConflicts(raw);
            && (forall i, j :: 0 <= i < j < |raw| && out[i] != 0 ==> out[i] != out[j])
            && (forall i: nat :: i < |raw| && raw[i] != 0 ==> (out[i] == 0 <==> Shared(raw, i)))
            && (forall i: nat :: i < |raw| && out[i] != 0 ==> out[i] == raw[i])
            && WithoutConflicts(out) == out
  {
    var out := WithoutConflicts(raw);
    forall i, j | 0 <= i < j < |raw| && out[i] != 0 ensures out[i] != out[j] {
      assert !Shared(raw, i);
    }
  }
}
