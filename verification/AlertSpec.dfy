/** Input alarms as NMEA 2000 alerts: the life of each channel's alert, and what each call does. */
module AlertSpec {
  import opened Board
  import opened Clock32

  datatype Level = NoAlarm | Warn | Alarm | Emergency

  /** Alert type codes of the bus. */
  function TypeOf(l: Level): int {
    match l
    case Emergency => 1
    case Alarm => 2
    case _ => 5
  }

  type Levels = s: seq<Level> | |s| == CHANNELS witness seq(CHANNELS, _ => NoAlarm)
  type Messages = s: seq<string> | |s| == CHANNELS witness seq(CHANNELS, _ => "")

  datatype Config = Config(enabled: bool, inputsOn: bool, level: Levels, message: Messages)

  datatype Chan = Chan(
    active: bool, level: Level, occurrence: int, acked: bool, ackName: int, textDue: bool, statusDue: bool,
    clearLeft: int, clearLevel: Level, clearOccurrence: int)

  const IDLE: Chan := Chan(false, NoAlarm, 0, false, 0, false, false, 0, NoAlarm, 0)

  type Chans = s: seq<Chan> | |s| == CHANNELS witness seq(CHANNELS, _ => IDLE)

  datatype Alerts = Alerts(cfg: Config, instance: int, sourceName: int, statusAt: int, textAt: int, ch: Chans)

  /** The identity an alert carries on the bus; `id` is the 1-based channel. */
  datatype Id = Id(kind: int, id: int, sourceName: int, instance: int, occurrence: int)

  datatype Condition = Normal | Active | Acknowledged

  datatype Message =
    | Text(id: Id, description: string)
    | Status(id: Id, condition: Condition, ackName: int)

  datatype Result = Result(a: Alerts, sent: seq<Message>)

  const STATUS_PERIOD: int := 1000
  const TEXT_PERIOD: int := 10000
  const CLEAR_REPEATS: int := 3
  const NO_NAME: int := 0xFFFF_FFFF_FFFF_FFFF

  function Init(cfg: Config, instance: int, sourceName: int, t: int): Alerts {
    Alerts(cfg, instance, sourceName, t, t, seq(CHANNELS, _ => IDLE))
  }

  function SetConfig(a: Alerts, cfg: Config): Alerts {
    a.(cfg := cfg, ch := seq(CHANNELS, i requires 0 <= i < CHANNELS =>
         if a.ch[i].active && a.cfg.message[i] != cfg.message[i] then a.ch[i].(textDue := true) else a.ch[i]))
  }

  // ----------------------------------------------------------------- a tick

  function BeginClear(c: Chan): Chan {
    c.(clearLevel := c.level, clearOccurrence := c.occurrence, clearLeft := CLEAR_REPEATS,
       active := false, acked := false, textDue := false, statusDue := true)
  }

  function NextOccurrence(n: int): int {
    if n == 255 then 1 else n + 1
  }

  function Raise(c: Chan, level: Level): Chan {
    c.(active := true, level := level, occurrence := NextOccurrence(c.occurrence), acked := false, ackName := NO_NAME,
       textDue := true, statusDue := true)
  }

  predicate Wants(cfg: Config, ready: bool, inputs: Mask, i: Channel) {
    cfg.enabled && cfg.inputsOn && ready && cfg.level[i] != NoAlarm && i in inputs
  }

  predicate MustClear(c: Chan, want: bool, level: Level) {
    c.active && (!want || c.level != level)
  }

  predicate MustRaise(c: Chan, want: bool, level: Level) {
    want && (!c.active || c.level != level)
  }

  /** One channel's part of a tick: clear, raise, and what falls due. */
  function UpdateChan(c: Chan, want: bool, level: Level, statusPeriod: bool, textPeriod: bool): Chan {
    var c1 := if c.active && (!want || c.level != level) then BeginClear(c) else c;
    var c2 := if !c1.active && want then Raise(c1, level) else c1;
    var c3 := if statusPeriod && (c2.active || c2.clearLeft != 0) then c2.(statusDue := true) else c2;
    if textPeriod && c3.active then c3.(textDue := true) else c3
  }

  predicate PeriodOver(t: int, since: int, period: int) {
    Elapsed(Wrap(t), Wrap(since)) >= period
  }

  function Update(a: Alerts, ready: bool, inputs: Mask, t: int): Alerts {
    var s, x := PeriodOver(t, a.statusAt, STATUS_PERIOD), PeriodOver(t, a.textAt, TEXT_PERIOD);
    a.(statusAt := if s then t else a.statusAt, textAt := if x then t else a.textAt,
       ch := seq(CHANNELS, i requires 0 <= i < CHANNELS =>
         UpdateChan(a.ch[i], Wants(a.cfg, ready, inputs, i), a.cfg.level[i], s, x)))
  }

  function IdOf(a: Alerts, i: Channel, level: Level, occurrence: int): Id {
    Id(TypeOf(level), i + 1, a.sourceName, a.instance, occurrence)
  }

  /** n2k_alerts_status_of */
  function StatusOf(a: Alerts, i: Channel, clearing: bool): Message {
    var c := a.ch[i];
    if clearing then Status(IdOf(a, i, c.clearLevel, c.clearOccurrence), Normal, NO_NAME)
    else Status(IdOf(a, i, c.level, c.occurrence), if c.acked then Acknowledged else Active,
                if c.acked then c.ackName else NO_NAME)
  }

  predicate Due(c: Chan) {
    c.textDue || c.statusDue
  }

  function SendOf(a: Alerts, i: Channel): seq<Message> {
    var c := a.ch[i];
    (if c.textDue then [Text(IdOf(a, i, c.level, c.occurrence), a.cfg.message[i])] else [])
    + (if c.statusDue && c.clearLeft != 0 then [StatusOf(a, i, true)] else [])
    + (if c.statusDue && c.active then [StatusOf(a, i, false)] else [])
  }

  function AfterSend(c: Chan): Chan {
    c.(textDue := false, statusDue := false,
       clearLeft := if c.statusDue && c.clearLeft != 0 then c.clearLeft - 1 else c.clearLeft)
  }

  /** The first channel from `i` up with something due, CHANNELS if none. */
  function FirstDue(a: Alerts, i: int): (r: int)
    requires 0 <= i <= CHANNELS
    ensures i <= r <= CHANNELS
    ensures forall k :: i <= k < r ==> !Due(a.ch[k])
    ensures r < CHANNELS ==> Due(a.ch[r])
    decreases CHANNELS - i, a
  {
    if i == CHANNELS || Due(a.ch[i]) then i else FirstDue(a, i + 1)
  }

  function SendFirst(a: Alerts): Result {
    var i := FirstDue(a, 0);
    if i == CHANNELS then Result(a, [])
    else Result(a.(ch := a.ch[i := AfterSend(a.ch[i])]), SendOf(a, i))
  }

  function Tick(a: Alerts, ready: bool, inputs: Mask, t: int): Result {
    SendFirst(Update(a, ready, inputs, t))
  }

  // ------------------------------------------------------------- responses

  datatype Response = Response(id: Id, ackName: int, command: int)

  const ACKNOWLEDGE: int := 0

  /** The response acknowledges the alert now raised on its channel. */
  predicate Matches(a: Alerts, r: Response) {
    && r.id.sourceName == a.sourceName && r.id.instance == a.instance && 1 <= r.id.id <= CHANNELS
    && var c := a.ch[r.id.id - 1];
    && c.active && r.id.kind == TypeOf(c.level) && r.id.occurrence == c.occurrence
    && r.command == ACKNOWLEDGE && !c.acked
  }

  function OnResponse(a: Alerts, r: Response): Alerts {
    if !Matches(a, r) then a
    else
      var i := r.id.id - 1;
      a.(ch := a.ch[i := a.ch[i].(acked := true, ackName := r.ackName, statusDue := true)])
  }
}
