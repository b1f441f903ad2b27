/** The alert tracker as the firmware keeps it: one record, an array of channel records, and
    32-bit times, updated in place. `sent` lists the messages handed to the bus, in order. */
module AlertTracker {
  import opened Board
  import opened Clock32
  import opened AlertSpec

  class N2kAlerts {
    var cfg: Config
    const instance: int
    const sourceName: int
    var statusAtMs: Word
    var textAtMs: Word
    const ch: array<Chan>

    ghost var statusAt: int
    ghost var textAt: int

    ghost predicate Valid()
      reads this
    {
      ch.Length == CHANNELS && statusAtMs == Wrap(statusAt) && textAtMs == Wrap(textAt)
    }

    ghost function View(): Alerts
      requires ch.Length == CHANNELS
      reads this, ch
    {
      Alerts(cfg, instance, sourceName, statusAt, textAt, ch[..])
    }

    constructor (cfg: Config, instance: int, sourceName: int, t: int)
      ensures Valid() && View() == AlertSpec.Init(cfg, instance, sourceName, t) && fresh(ch)
    {
      this.cfg, this.instance, this.sourceName := cfg, instance, sourceName;
      statusAtMs, textAtMs, statusAt, textAt := Wrap(t), Wrap(t), t, t;
      ch := new Chan[CHANNELS](_ => IDLE);
    }

    method SetConfig(c: Config)
      requires Valid()
      modifies this`cfg, ch
      ensures Valid() && View() == AlertSpec.SetConfig(old(View()), c)
    {
      ghost var was := ch[..];
      for i := 0 to CHANNELS
        modifies ch
        invariant forall j: Channel :: ch[j] ==
                    if j < i && was[j].active && cfg.message[j] != c.message[j] then was[j].(textDue := true)
                    else was[j]
      {
        if ch[i].active && cfg.message[i] != c.message[i] {
          ch[i] := ch[i].(textDue := true);
        }
      }
      cfg := c;
      assert ch[..] == AlertSpec.SetConfig(old(View()), c).ch;
    }

    method UpdateChannel(i: Channel, want: bool, level: Level, statusPeriod: bool, textPeriod: bool)
      requires ch.Length == CHANNELS
      modifies ch
      ensures ch[i] == UpdateChan(old(ch[i]), want, level, statusPeriod, textPeriod)
      ensures forall j: Channel :: j != i ==> ch[j] == old(ch[j])
    {
      if ch[i].active && (!want || ch[i].level != level) {
        ch[i] := BeginClear(ch[i]);
      }
      if !ch[i].active && want {
        ch[i] := Raise(ch[i], level);
      }
      if statusPeriod && (ch[i].active || ch[i].clearLeft != 0) {
        ch[i] := ch[i].(statusDue := true);
      }
      if textPeriod && ch[i].active {
        ch[i] := ch[i].(textDue := true);
      }
    }

    method UpdateEvery(ready: bool, inputs: Mask, t: int)
      requires Valid()
      modifies this`statusAtMs, this`statusAt, this`textAtMs, this`textAt, ch
      ensures Valid() && View() == Update(old(View()), ready, inputs, t)
    {
      var on := cfg.enabled && cfg.inputsOn && ready;
      var statusPeriod := Elapsed(Wrap(t), statusAtMs) >= STATUS_PERIOD;
      var textPeriod := Elapsed(Wrap(t), textAtMs) >= TEXT_PERIOD;
      ghost var was := ch[..];
      if statusPeriod {
        statusAtMs, statusAt := Wrap(t), t;
      }
      if textPeriod {
        textAtMs, textAt := Wrap(t), t;
      }
      for i := 0 to CHANNELS
        modifies ch
        invariant forall j: Channel :: i <= j ==> ch[j] == was[j]
        invariant forall j: Channel :: j < i ==>
                    ch[j] == UpdateChan(was[j], Wants(cfg, ready, inputs, j), cfg.level[j], statusPeriod, textPeriod)
      {
        var level := cfg.level[i];
        UpdateChannel(i, on && level != NoAlarm && i in inputs, level, statusPeriod, textPeriod);
      }
      assert ch[..] == Update(old(View()), ready, inputs, t).ch;
    }

    method Send(i: Channel) returns (sent: seq<Message>)
      requires Valid()
      modifies ch
      ensures sent == SendOf(old(View()), i)
      ensures ch[..] == old(ch[..])[i := AfterSend(old(ch[i]))]
    {
      ghost var a := View();
      sent := [];
      if ch[i].textDue {
        sent := sent + [Text(Id(TypeOf(ch[i].level), i + 1, sourceName, instance, ch[i].occurrence), cfg.message[i])];
      }
      var due := ch[i].statusDue;
      if due {
        if ch[i].clearLeft != 0 {
          sent := sent + [StatusAt(i, true)];
        }
        if ch[i].active {
          sent := sent + [StatusAt(i, false)];
        }
      }
      ch[i] := ch[i].(textDue := false, statusDue := false,
                      clearLeft := if due && ch[i].clearLeft != 0 then ch[i].clearLeft - 1 else ch[i].clearLeft);
    }

    /** n2k_alerts_status_of */
    function StatusAt(i: Channel, clearing: bool): (m: Message)
      requires Valid()
      reads this, ch
      ensures m == StatusOf(View(), i, clearing)
    {
      var c := ch[i];
      if clearing then
        Status(Id(TypeOf(c.clearLevel), i + 1, sourceName, instance, c.clearOccurrence), Normal, NO_NAME)
      else
        Status(Id(TypeOf(c.level), i + 1, sourceName, instance, c.occurrence),
               if c.acked then Acknowledged else Active, if c.acked then c.ackName else NO_NAME)
    }

    method OnTick(ready: bool, inputs: Mask, t: int) returns (sent: seq<Message>)
      requires Valid()
      modifies this, ch
      ensures Valid() && Result(View(), sent) == Tick(old(View()), ready, inputs, t)
    {
      UpdateEvery(ready, inputs, t);
      ghost var b := View();
      var i := 0;
      while i < CHANNELS && !Due(ch[i])
        invariant 0 <= i <= CHANNELS
        invariant View() == b
        invariant forall k: Channel :: k < i ==> !Due(b.ch[k])
      {
        i := i + 1;
      }
      FirstDueIs(b, i);
      sent := [];
      if i < CHANNELS {
        sent := Send(i);
      }
    }

    method OnResponse(r: Response) returns (acknowledged: bool)
      requires Valid()
      modifies ch
      ensures Valid() && View() == AlertSpec.OnResponse(old(View()), r)
      ensures acknowledged == Matches(old(View()), r)
    {
      if r.id.sourceName != sourceName || r.id.instance != instance || r.id.id < 1 || r.id.id > CHANNELS {
        return false;
      }
      var i := r.id.id - 1;
      if !ch[i].active || r.id.kind != TypeOf(ch[i].level) || r.id.occurrence != ch[i].occurrence {
        return false;
      }
      if r.command != ACKNOWLEDGE || ch[i].acked {
        return false;
      }
      ch[i] := ch[i].(acked := true, ackName := r.ackName, statusDue := true);
      return true;
    }
  }

  lemma FirstDueIs(a: Alerts, i: int)
    requires 0 <= i <= CHANNELS && (i < CHANNELS ==> Due(a.ch[i]))
    requires forall k: Channel :: k < i ==> !Due(a.ch[k])
    ensures FirstDue(a, 0) == i
  {
    var j := FirstDue(a, 0);
    assert j < CHANNELS ==> Due(a.ch[j]);
  }
}
