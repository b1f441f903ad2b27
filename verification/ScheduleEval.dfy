/** The evaluator as the firmware runs it. */
module ScheduleEval {
  import opened Options
  import opened Calendar
  import opened ScheduleSpec

  class Evaluator {
    const entries: array<Memory>
    var wasTimeValid: bool

    constructor (count: nat)
      ensures fresh(entries) && entries.Length == count && !wasTimeValid
      ensures forall i :: 0 <= i < count ==> entries[i] == Memory(false, false, 0)
    {
      entries := new Memory[count](_ => Memory(false, false, 0));
      wasTimeValid := false;
    }

    /** The demand entry `sc` has at this tick. */
    static function DemandNow(sc: Entry, timeValid: bool, local: Local, sun: Sun): Option<(int, bool)>
      requires ValidEntry(sc)
    {
      if timeValid then Demand(sc, local, sun) else None
    }

    /** The sends of entries `i` and up, in order. */
    static function SendsFrom(i: nat, ms: seq<Memory>, cfg: seq<Entry>, local: Local, sun: Sun): seq<(int, bool)>
      requires |ms| == |cfg| && i <= |ms| && forall k :: 0 <= k < |cfg| ==> ValidEntry(cfg[k])
      decreases |ms| - i
    {
      if i == |ms| then [] else Tell(ms[i], Demand(cfg[i], local, sun)).sent + SendsFrom(i + 1, ms, cfg, local, sun)
    }

    /** An entry in use with a boundary at sunrise or sunset. */
    static predicate UsesSun(sc: Entry) {
      sc.relay != 0 && sc.mode == Clock && (sc.on.kind != ClockTime || sc.off.kind != ClockTime)
    }

    /** Sun times are looked up only when an entry in use refers to them. */
    static method NeedsSun(cfg: seq<Entry>) returns (need: bool)
      ensures need <==> exists i :: 0 <= i < |cfg| && UsesSun(cfg[i])
    {
      need := false;
      for i := 0 to |cfg|
        invariant !need
        invariant forall k :: 0 <= k < i ==> !UsesSun(cfg[k])
      {
        if UsesSun(cfg[i]) {
          return true;
        }
      }
    }

    /** Nothing is remembered as sent while the time is not known. */
    method Forget()
      modifies entries
      ensures forall i :: 0 <= i < entries.Length ==> entries[i] == old(entries[i]).(valid := false)
    {
      for i := 0 to entries.Length
        invariant forall k :: 0 <= k < i ==> entries[k] == old(entries[k]).(valid := false)
        invariant forall k :: i <= k < entries.Length ==> entries[k] == old(entries[k])
      {
        entries[i] := entries[i].(valid := false);
      }
    }

    static lemma TellNothing()
      ensures forall m :: Tell(m, None) == Told(m.(valid := false), [])
    {
    }

    /** One entry's turn; `today` holds the sun times when the entry refers to them. */
    method Serve(i: nat, sc: Entry, local: Local, ghost sun: Sun, today: Sun) returns (sent: seq<(int, bool)>)
      requires i < entries.Length && ValidEntry(sc)
      requires UsesSun(sc) ==> today == sun
      modifies entries
      ensures var told := Tell(old(entries[i]), Demand(sc, local, sun));
              entries[i] == told.memory && sent == told.sent
      ensures forall k :: 0 <= k < entries.Length && k != i ==> entries[k] == old(entries[k])
    {
      hide WrapMinute, TruncDiv;
      sent := [];
      if sc.relay == 0 {
        entries[i] := entries[i].(valid := false);
        return;
      }
      var active := if sc.mode == Repeat then
                      RepeatActiveAt(sc.days, local.wday, NowMinute(local), sc.onMin, sc.periodMin)
                    else ClockActive(sc, local, today);
      if !entries[i].valid || active != entries[i].active || sc.relay != entries[i].relay {
        sent := [(sc.relay, active)];
        entries[i] := Memory(true, active, sc.relay);
      }
    }

    /** `sun` is what looking up today's sun times would give. */
    method Tick(cfg: seq<Entry>, timeValid: bool, local: Local, sun: Sun) returns (sent: seq<(int, bool)>)
      requires |cfg| == entries.Length && forall k :: 0 <= k < |cfg| ==> ValidEntry(cfg[k])
      modifies this, entries
      ensures wasTimeValid == timeValid
      ensures forall i :: 0 <= i < entries.Length ==>
                entries[i] == Tell(old(entries[i]), DemandNow(cfg[i], timeValid, local, sun)).memory
      ensures sent == if timeValid then SendsFrom(0, old(entries[..]), cfg, local, sun) else []
    {
      hide Demand, ValidEntry, Tell, UsesSun;
      sent := [];
      ghost var was := entries[..];
      if !timeValid {
        TellNothing();
        Forget();
        wasTimeValid := false;
        return;
      }
      wasTimeValid := true;
      var need := NeedsSun(cfg);
      var today := if need then sun else Sun(Transition, 0, 0);
      for i := 0 to entries.Length
        modifies entries
        invariant forall k :: 0 <= k < i ==> entries[k] == Tell(was[k], Demand(cfg[k], local, sun)).memory
        invariant forall k :: i <= k < entries.Length ==> entries[k] == was[k]
        invariant SendsFrom(0, was, cfg, local, sun) == sent + SendsFrom(i, was, cfg, local, sun)
      {
        ghost var rest := SendsFrom(i + 1, was, cfg, local, sun);
        var here := Serve(i, cfg[i], local, sun, today);
        assert sent + (here + rest) == (sent + here) + rest;
        sent := sent + here;
      }
    }
  }
}
