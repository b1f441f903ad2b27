/** Alerts over whole runs of ticks, responses and settings saves. */
module AlertRuns {
  import opened Board
  import opened AlertSpec

  datatype Event =
    | Ticked(ready: bool, inputs: Mask, t: int)
    | Responded(r: Response)
    | Configured(cfg: Config)

  function Apply(a: Alerts, e: Event): Result {
    match e
    case Ticked(ready, inputs, t) => Tick(a, ready, inputs, t)
    case Responded(r) => Result(OnResponse(a, r), [])
    case Configured(cfg) => Result(SetConfig(a, cfg), [])
  }

  function At(a: Alerts, es: seq<Event>, k: nat): Alerts
    requires k <= |es|
  {
    if k == 0 then a else Apply(At(a, es, k - 1), es[k - 1]).a
  }

  // ------------------------------------------------------------ a single tick

  /** Channel `i` of a tick's update. */
  function Updated(a: Alerts, ready: bool, inputs: Mask, t: int, i: Channel): Chan {
    UpdateChan(a.ch[i], Wants(a.cfg, ready, inputs, i), a.cfg.level[i],
               PeriodOver(t, a.statusAt, STATUS_PERIOD), PeriodOver(t, a.textAt, TEXT_PERIOD))
  }

  /** A tick, channel by channel: updated, and sent if it is the first with something due. */
  lemma TickChannel(a: Alerts, ready: bool, inputs: Mask, t: int, i: Channel)
    ensures var u, b := Updated(a, ready, inputs, t, i), Update(a, ready, inputs, t);
            var r := Tick(a, ready, inputs, t);
            && b.ch[i] == u
            && r.a.ch[i] == (if FirstDue(b, 0) == i then AfterSend(u) else u)
            && r.a.cfg == a.cfg && r.a.sourceName == a.sourceName && r.a.instance == a.instance
            && r.sent == (if FirstDue(b, 0) == CHANNELS then [] else SendOf(b, FirstDue(b, 0)))
  {
  }

  /** After a tick, a channel's alert is active exactly when its input and the settings want it,
      at the level the settings say. */
  lemma ActiveIffWanted(a: Alerts, ready: bool, inputs: Mask, t: int, i: Channel)
    ensures var c := Tick(a, ready, inputs, t).a.ch[i];
            && (c.active <==> a.cfg.enabled && a.cfg.inputsOn && ready && a.cfg.level[i] != NoAlarm && i in inputs)
            && (c.active ==> c.level == a.cfg.level[i])
  {
  }

  function ChannelOf(m: Message): int {
    m.id.id
  }

  /** Text before status, the old alert's Normal before the new one's state. */
  function Rank(m: Message): int {
    if m.Text? then 0 else if m.condition == Normal then 1 else 2
  }

  /** A tick sends for at most one channel, the lowest with something due, at most one message
      of each kind, in order. */
  lemma OneChannelPerTick(a: Alerts, ready: bool, inputs: Mask, t: int)
    ensures var sent := Tick(a, ready, inputs, t).sent;
            && |sent| <= 3
            && (forall j :: 0 <= j < |sent| ==> ChannelOf(sent[j]) == FirstDue(Update(a, ready, inputs, t), 0) + 1)
            && (forall j, k :: 0 <= j < k < |sent| ==>
                  ChannelOf(sent[j]) == ChannelOf(sent[k]) && Rank(sent[j]) < Rank(sent[k]))
  {
  }

  // ---------------------------------------------------------------- invariant

  /** A channel with something due has something to say. */
  predicate Sound(c: Chan) {
    && 0 <= c.clearLeft <= CLEAR_REPEATS
    && (c.textDue ==> c.active)
    && (c.statusDue ==> c.active || c.clearLeft > 0)
    && (c.acked ==> c.active)
  }

  predicate AllSound(a: Alerts) {
    forall i: Channel :: Sound(a.ch[i])
  }

  lemma UpdateSound(c: Chan, want: bool, level: Level, statusPeriod: bool, textPeriod: bool)
    requires Sound(c)
    ensures Sound(UpdateChan(c, want, level, statusPeriod, textPeriod))
    ensures Sound(AfterSend(UpdateChan(c, want, level, statusPeriod, textPeriod)))
  {
  }

  lemma StepSound(a: Alerts, e: Event)
    requires AllSound(a)
    ensures AllSound(Apply(a, e).a)
  {
    forall i: Channel ensures Sound(Apply(a, e).a.ch[i]) {
      assert Sound(a.ch[i]);
      if e.Ticked? {
        TickChannel(a, e.ready, e.inputs, e.t, i);
        UpdateSound(a.ch[i], Wants(a.cfg, e.ready, e.inputs, i), a.cfg.level[i],
                    PeriodOver(e.t, a.statusAt, STATUS_PERIOD), PeriodOver(e.t, a.textAt, TEXT_PERIOD));
        hide Tick, UpdateChan, Sound, AfterSend, Update, Wants, PeriodOver, FirstDue, SendOf;
      }
    }
  }

  lemma {:induction false} RunSound(a: Alerts, es: seq<Event>, k: nat)
    requires AllSound(a) && k <= |es|
    ensures AllSound(At(a, es, k))
  {
    if k > 0 {
      RunSound(a, es, k - 1);
      StepSound(At(a, es, k - 1), es[k - 1]);
    }
  }

  // ------------------------------------------------- three Normals, then silence

  /** The event clears (or raises) channel `i`'s alert. */
  predicate Clears(a: Alerts, e: Event, i: Channel) {
    e.Ticked? && MustClear(a.ch[i], Wants(a.cfg, e.ready, e.inputs, i), a.cfg.level[i])
  }

  predicate Raises(a: Alerts, e: Event, i: Channel) {
    e.Ticked? && MustRaise(a.ch[i], Wants(a.cfg, e.ready, e.inputs, i), a.cfg.level[i])
  }

  /** The Normal report of an alert of channel `i` that was cleared at that level and occurrence. */
  function NormalOf(a: Alerts, i: Channel, level: Level, occurrence: int): Message {
    Status(IdOf(a, i, level, occurrence), Normal, NO_NAME)
  }

  predicate IsNormal(m: Message, i: Channel) {
    m.Status? && m.condition == Normal && m.id.id == i + 1
  }

  /** What an observer keeps about channel `i`: raises, clears, the alert last cleared, and its
      Normal reports since then, by their full identity. */
  datatype Tally = Tally(raises: nat, clears: nat, level: Level, occurrence: int, normals: nat)

  function NoteClear(y: Tally, a: Alerts, e: Event, i: Channel): Tally {
    if Clears(a, e, i) then Tally(y.raises, y.clears + 1, a.ch[i].level, a.ch[i].occurrence, 0) else y
  }

  function Count(y: Tally, a: Alerts, e: Event, i: Channel): Tally {
    var y1 := NoteClear(y, a, e, i);
    var y2 := y1.(normals := y1.normals + multiset(Apply(a, e).sent)[NormalOf(a, i, y1.level, y1.occurrence)]);
    if Raises(a, e, i) then y2.(raises := y2.raises + 1) else y2
  }

  function TallyAt(a: Alerts, es: seq<Event>, i: Channel, k: nat): Tally
    requires k <= |es|
  {
    if k == 0 then Tally(0, 0, NoAlarm, 0, 0) else Count(TallyAt(a, es, i, k - 1), At(a, es, k - 1), es[k - 1], i)
  }

  /** The occurrence number of the `n`-th raise. */
  function OccurrenceOf(n: nat): int {
    if n == 0 then 0 else (n - 1) % 255 + 1
  }

  /** Bookkeeping of channel `i` against the tally. */
  predicate Agrees(c: Chan, y: Tally) {
    && c.occurrence == OccurrenceOf(y.raises)
    && (if y.clears == 0 then c.clearLeft == 0 && y.normals == 0
        else y.normals + c.clearLeft == CLEAR_REPEATS && c.clearLevel == y.level && c.clearOccurrence == y.occurrence)
  }

  /** A channel's turn sends the Normal it owes, once, and no other Normal. */
  lemma NormalsOfSend(a: Alerts, j: Channel, i: Channel)
    ensures var m, sent := NormalOf(a, i, a.ch[i].clearLevel, a.ch[i].clearOccurrence), SendOf(a, j);
            && multiset(sent)[m] == (if i == j && a.ch[j].statusDue && a.ch[j].clearLeft != 0 then 1 else 0)
            && forall x :: x in sent && IsNormal(x, i) ==> x == m
  {
    if i == j {
      OwnNormal(a, i);
    } else {
      SentByChannel(a, j);
      hide SendOf, IdOf;
      NormalShape(a, i, a.ch[i].clearLevel, a.ch[i].clearOccurrence);
      assert NormalOf(a, i, a.ch[i].clearLevel, a.ch[i].clearOccurrence) !in SendOf(a, j);
    }
  }

  lemma SentByChannel(a: Alerts, j: Channel)
    ensures forall x :: x in SendOf(a, j) ==> x.id.id == j + 1
  {
  }

  lemma NormalShape(a: Alerts, i: Channel, level: Level, occurrence: int)
    ensures IsNormal(NormalOf(a, i, level, occurrence), i)
  {
  }

  lemma OwnNormal(a: Alerts, i: Channel)
    ensures var m, sent := NormalOf(a, i, a.ch[i].clearLevel, a.ch[i].clearOccurrence), SendOf(a, i);
            && multiset(sent)[m] == (if a.ch[i].statusDue && a.ch[i].clearLeft != 0 then 1 else 0)
            && forall x :: x in sent && IsNormal(x, i) ==> x == m
  {
    var c, m := a.ch[i], NormalOf(a, i, a.ch[i].clearLevel, a.ch[i].clearOccurrence);
    var text := if c.textDue then [Text(IdOf(a, i, c.level, c.occurrence), a.cfg.message[i])] else [];
    var normal := if c.statusDue && c.clearLeft != 0 then [m] else [];
    var state := if c.statusDue && c.active then [StatusOf(a, i, false)] else [];
    assert m == StatusOf(a, i, true);
    NotNormal(a, i);
    NormalShape(a, i, c.clearLevel, c.clearOccurrence);
    hide IdOf, StatusOf, NormalOf, IsNormal;
    OneNormal(text, normal, state, m, i);
  }

  lemma NotNormal(a: Alerts, i: Channel)
    ensures var c := a.ch[i];
            && !IsNormal(Text(IdOf(a, i, c.level, c.occurrence), a.cfg.message[i]), i)
            && !IsNormal(StatusOf(a, i, false), i)
  {
  }

  lemma OneNormal(text: seq<Message>, normal: seq<Message>, state: seq<Message>, m: Message, i: Channel)
    requires IsNormal(m, i)
    requires forall x :: x in text || x in state ==> !IsNormal(x, i)
    requires forall x :: x in normal && IsNormal(x, i) ==> x == m
    ensures multiset(text + normal + state)[m] == multiset(normal)[m]
    ensures forall x :: x in text + normal + state && IsNormal(x, i) ==> x == m
  {
    hide IsNormal;
    assert m !in text && m !in state;
    assert text + normal + state == (text + normal) + state;
  }

  lemma NextIsNth(n: nat)
    ensures NextOccurrence(OccurrenceOf(n)) == OccurrenceOf(n + 1)
  {
    if n > 0 {
      var q, r := (n - 1) / 255, (n - 1) % 255;
      if r == 254 {
        assert n == 255 * (q + 1);
      } else {
        assert n == 255 * q + (r + 1);
      }
    }
  }

  lemma UpdateAgrees(c: Chan, want: bool, level: Level, statusPeriod: bool, textPeriod: bool, y: Tally)
    requires Sound(c) && Agrees(c, y)
    ensures var c1 := UpdateChan(c, want, level, statusPeriod, textPeriod);
            var y1 := if MustClear(c, want, level) then Tally(y.raises, y.clears + 1, c.level, c.occurrence, 0) else y;
            Sound(c1) && Agrees(c1, if MustRaise(c, want, level) then y1.(raises := y1.raises + 1) else y1)
  {
    NextIsNth(y.raises);
  }

  lemma SendAgrees(c: Chan, y: Tally)
    requires Sound(c) && Agrees(c, y)
    ensures Agrees(AfterSend(c), y.(normals := y.normals + if c.statusDue && c.clearLeft != 0 then 1 else 0))
  {
  }

  /** The Normal reports of one tick: the one owed to the alert last cleared, if any. */
  predicate NormalsNamed(sent: seq<Message>, a: Alerts, i: Channel, y: Tally) {
    forall x :: x in sent && IsNormal(x, i) ==> y.clears > 0 && x == NormalOf(a, i, y.level, y.occurrence)
  }

  lemma SentNormals(b: Alerts, i: Channel, y: Tally)
    requires Sound(b.ch[i]) && Agrees(b.ch[i], y)
    ensures var sent, j := SendFirst(b).sent, FirstDue(b, 0);
            && multiset(sent)[NormalOf(b, i, y.level, y.occurrence)]
               == (if j == i && b.ch[i].statusDue && b.ch[i].clearLeft != 0 then 1 else 0)
            && NormalsNamed(sent, b, i, y)
  {
    hide SendOf, FirstDue, NormalOf;
    var sent, j := SendFirst(b).sent, FirstDue(b, 0);
    var m := NormalOf(b, i, b.ch[i].clearLevel, b.ch[i].clearOccurrence);
    var n := NormalOf(b, i, y.level, y.occurrence);
    NormalShape(b, i, y.level, y.occurrence);
    if j < CHANNELS {
      NormalsOfSend(b, j, i);
      if n !in sent {
        assert multiset(sent)[n] == 0;
      }
    }
  }

  lemma SameNormals(a: Alerts, ready: bool, inputs: Mask, t: int, i: Channel, y: Tally)
    ensures var b := Update(a, ready, inputs, t);
            && NormalOf(b, i, y.level, y.occurrence) == NormalOf(a, i, y.level, y.occurrence)
            && forall sent, n :: NormalsNamed(sent, b, i, y.(raises := n)) == NormalsNamed(sent, a, i, y)
  {
  }

  /** The update of a tick, noted; what is sent then is counted on top of it. */
  lemma UpdateNoted(a: Alerts, ready: bool, inputs: Mask, t: int, i: Channel, y: Tally)
    requires AllSound(a) && Agrees(a.ch[i], y)
    ensures var e, u := Ticked(ready, inputs, t), Updated(a, ready, inputs, t, i);
            var y1 := NoteClear(y, a, e, i);
            Sound(u) && Agrees(u, if Raises(a, e, i) then y1.(raises := y1.raises + 1) else y1)
  {
    hide UpdateChan, Agrees, Sound, Wants, PeriodOver, MustClear, MustRaise;
    assert Sound(a.ch[i]);
    UpdateAgrees(a.ch[i], Wants(a.cfg, ready, inputs, i), a.cfg.level[i], PeriodOver(t, a.statusAt, STATUS_PERIOD),
                 PeriodOver(t, a.textAt, TEXT_PERIOD), y);
  }

  lemma TickAgrees(a: Alerts, ready: bool, inputs: Mask, t: int, i: Channel, y: Tally)
    requires AllSound(a) && Agrees(a.ch[i], y)
    ensures var e := Ticked(ready, inputs, t);
            && Agrees(Tick(a, ready, inputs, t).a.ch[i], Count(y, a, e, i))
            && NormalsNamed(Tick(a, ready, inputs, t).sent, a, i, NoteClear(y, a, e, i))
  {
    hide Updated, AfterSend, Agrees, Sound, AllSound, FirstDue, SendOf, SendFirst, Update, NormalsNamed, NormalOf;
    hide NoteClear, Raises;
    var e, b, u := Ticked(ready, inputs, t), Update(a, ready, inputs, t), Updated(a, ready, inputs, t, i);
    TickChannel(a, ready, inputs, t, i);
    UpdateNoted(a, ready, inputs, t, i, y);
    var y1 := NoteClear(y, a, e, i);
    var y2 := if Raises(a, e, i) then y1.(raises := y1.raises + 1) else y1;
    SendAgrees(u, y2);
    SentNormals(b, i, y2);
    SameNormals(a, ready, inputs, t, i, y1);
  }

  lemma StepAgrees(a: Alerts, e: Event, i: Channel, y: Tally)
    requires AllSound(a) && Agrees(a.ch[i], y)
    ensures Agrees(Apply(a, e).a.ch[i], Count(y, a, e, i))
    ensures NormalsNamed(Apply(a, e).sent, a, i, NoteClear(y, a, e, i))
  {
    match e
    case Ticked(ready, inputs, t) => TickAgrees(a, ready, inputs, t, i, y);
    case Responded(r) =>
    case Configured(cfg) =>
  }

  /** Over any run from start-up: once a channel has been cleared, the Normal reports sent since
      for the alert that was cleared and those still owed make exactly three; the occurrence number
      counts the raises from 1 to 255 and around. */
  lemma {:induction false} NormalsAddUp(cfg: Config, instance: int, sourceName: int, t: int,
                                        es: seq<Event>, i: Channel, k: nat)
    requires k <= |es|
    ensures var a := Init(cfg, instance, sourceName, t);
            AllSound(At(a, es, k)) && Agrees(At(a, es, k).ch[i], TallyAt(a, es, i, k))
  {
    hide Count, Apply, Agrees, AllSound, Init;
    var a := Init(cfg, instance, sourceName, t);
    FreshAgrees(cfg, instance, sourceName, t, i);
    RunSound(a, es, k);
    if k > 0 {
      NormalsAddUp(cfg, instance, sourceName, t, es, i, k - 1);
      StepAgrees(At(a, es, k - 1), es[k - 1], i, TallyAt(a, es, i, k - 1));
    }
  }

  lemma FreshAgrees(cfg: Config, instance: int, sourceName: int, t: int, i: Channel)
    ensures var a := Init(cfg, instance, sourceName, t);
            AllSound(a) && Agrees(a.ch[i], Tally(0, 0, NoAlarm, 0, 0))
  {
  }

  /** And no other Normal ever goes out: each names the alert of its channel last cleared. */
  lemma NormalsNameTheCleared(cfg: Config, instance: int, sourceName: int, t: int, es: seq<Event>, i: Channel, k: nat)
    requires k < |es|
    ensures var a := Init(cfg, instance, sourceName, t);
            var b := At(a, es, k);
            NormalsNamed(Apply(b, es[k]).sent, b, i, NoteClear(TallyAt(a, es, i, k), b, es[k], i))
  {
    hide Apply, NormalsNamed, NoteClear;
    var a := Init(cfg, instance, sourceName, t);
    NormalsAddUp(cfg, instance, sourceName, t, es, i, k);
    StepAgrees(At(a, es, k), es[k], i, TallyAt(a, es, i, k));
  }

  /** Then silence: a channel that is neither active nor still owes a Normal sends nothing at a
      tick that does not raise it. */
  lemma SilentWhenDone(a: Alerts, e: Event, i: Channel)
    requires AllSound(a) && !a.ch[i].active && a.ch[i].clearLeft == 0 && !Raises(a, e, i)
    ensures var r := Apply(a, e);
            && (forall k :: 0 <= k < |r.sent| ==> ChannelOf(r.sent[k]) != i + 1)
            && !r.a.ch[i].active && r.a.ch[i].clearLeft == 0
  {
    assert Sound(a.ch[i]);
  }

  // ----------------------------------------------------------------- backlog

  function Backlog(a: Alerts): set<Channel> {
    set i: Channel | Due(a.ch[i])
  }

  /** A tick takes exactly one channel, the lowest, off what is due after its update. */
  lemma TickShrinksBacklog(a: Alerts, ready: bool, inputs: Mask, t: int)
    ensures var b := Update(a, ready, inputs, t); var r := Tick(a, ready, inputs, t).a; var j := FirstDue(b, 0);
            if Backlog(b) == {} then r == b
            else j in Backlog(b) && Backlog(r) == Backlog(b) - {j}
  {
    var b := Update(a, ready, inputs, t);
    if FirstDue(b, 0) == CHANNELS {
      assert Backlog(b) == {};
    } else {
      assert FirstDue(b, 0) in Backlog(b);
    }
  }

  /** A tick at which nothing new falls due. */
  predicate NothingNew(a: Alerts, e: Event) {
    e.Ticked? && Backlog(Update(a, e.ready, e.inputs, e.t)) <= Backlog(a)
  }

  lemma BacklogStep(a: Alerts, e: Event, n: int)
    requires NothingNew(a, e) && |Backlog(a)| <= n + 1 && n >= 0
    ensures |Backlog(Apply(a, e).a)| <= n
  {
    hide Update, Tick, FirstDue, Due, Backlog;
    var u := Update(a, e.ready, e.inputs, e.t);
    TickShrinksBacklog(a, e.ready, e.inputs, e.t);
    SubsetSize(Backlog(u), Backlog(a));
    if Backlog(u) != {} {
      var j: Channel := FirstDue(u, 0);
      assert |Backlog(u) - {j}| == |Backlog(u)| - 1;
    }
  }

  /** With nothing new falling due, `n` ticks bring the backlog down to at most `8 - n`. */
  lemma {:induction false} BacklogEmpties(a: Alerts, es: seq<Event>, n: nat)
    requires n <= |es| && n <= CHANNELS
    requires forall k :: 0 <= k < n ==> NothingNew(At(a, es, k), es[k])
    ensures |Backlog(At(a, es, n))| <= CHANNELS - n
  {
    hide Apply, NothingNew, Backlog;
    if n == 0 {
      BacklogSize(a);
    } else {
      BacklogEmpties(a, es, n - 1);
      BacklogStep(At(a, es, n - 1), es[n - 1], CHANNELS - n);
    }
  }

  lemma SubsetSize(x: set<Channel>, y: set<Channel>)
    requires x <= y
    ensures |x| <= |y|
  {
    if x != {} {
      var i :| i in x;
      SubsetSize(x - {i}, y - {i});
    }
  }

  lemma BacklogSize(a: Alerts)
    ensures |Backlog(a)| <= CHANNELS
  {
    assert |ALL| == CHANNELS by {
      assert ALL == {0, 1, 2, 3, 4, 5, 6, 7};
    }
    assert Backlog(a) <= ALL by {
      forall i | i in Backlog(a) ensures i in ALL {
      }
    }
    SubsetSize(Backlog(a), ALL);
  }

  // --------------------------------------------------------- acknowledgement

  /** The response at `j` acknowledged the alert that channel `i` has at `k`, and the alert has
      not been cleared or raised in between. */
  predicate AckedBy(a: Alerts, es: seq<Event>, i: Channel, j: nat, k: nat)
    requires k <= |es|
  {
    && j < k && es[j].Responded? && es[j].r.id.id == i + 1 && es[j].r.command == ACKNOWLEDGE
    && es[j].r.id.kind == TypeOf(At(a, es, k).ch[i].level)
    && es[j].r.id.occurrence == At(a, es, k).ch[i].occurrence
    && es[j].r.id.sourceName == a.sourceName && es[j].r.id.instance == a.instance
    && es[j].r.ackName == At(a, es, k).ch[i].ackName
    && forall m :: j < m < k ==> !Clears(At(a, es, m), es[m], i) && !Raises(At(a, es, m), es[m], i)
  }

  lemma {:induction false} SameIdentity(a: Alerts, es: seq<Event>, k: nat)
    requires k <= |es|
    ensures At(a, es, k).sourceName == a.sourceName && At(a, es, k).instance == a.instance
  {
    if k > 0 {
      SameIdentity(a, es, k - 1);
    }
  }

  /** What an acknowledged alert's channel looked like one event before. */
  predicate AckKept(a: Alerts, e: Event, i: Channel, c: Chan) {
    && a.ch[i].acked && !Clears(a, e, i) && !Raises(a, e, i)
    && c.level == a.ch[i].level && c.occurrence == a.ch[i].occurrence && c.ackName == a.ch[i].ackName
  }

  predicate AckGiven(a: Alerts, e: Event, i: Channel, c: Chan) {
    && e.Responded? && Matches(a, e.r) && e.r.id.id == i + 1
    && c.level == a.ch[i].level && c.occurrence == a.ch[i].occurrence && c.ackName == e.r.ackName
  }

  lemma AckStep(a: Alerts, e: Event, i: Channel)
    requires AllSound(a) && Apply(a, e).a.ch[i].acked
    ensures var c := Apply(a, e).a.ch[i]; if a.ch[i].acked then AckKept(a, e, i, c) else AckGiven(a, e, i, c)
  {
    hide Tick, Update, FirstDue, SendOf, PeriodOver;
    assert Sound(a.ch[i]);
    match e
    case Ticked(ready, inputs, t) => TickChannel(a, ready, inputs, t, i);
    case Responded(r) =>
    case Configured(cfg) =>
  }

  /** An alert reads acknowledged only since a response with its own type and occurrence. */
  lemma {:induction false} AcknowledgedByMatchingResponse(a: Alerts, es: seq<Event>, i: Channel, k: nat)
    returns (j: nat)
    requires AllSound(a) && !a.ch[i].acked && k <= |es| && At(a, es, k).ch[i].acked
    ensures AckedBy(a, es, i, j, k)
  {
    hide Apply, Clears, Raises, AllSound;
    RunSound(a, es, k - 1);
    SameIdentity(a, es, k - 1);
    AckStep(At(a, es, k - 1), es[k - 1], i);
    if At(a, es, k - 1).ch[i].acked {
      j := AcknowledgedByMatchingResponse(a, es, i, k - 1);
    } else {
      j := k - 1;
    }
  }

  lemma SentAcknowledged(a: Alerts, ready: bool, inputs: Mask, t: int, m: Message)
    requires m in Tick(a, ready, inputs, t).sent && m.Status? && m.condition == Acknowledged
    ensures var r := Tick(a, ready, inputs, t); var j := FirstDue(Update(a, ready, inputs, t), 0);
            && j < CHANNELS && r.a.ch[j].acked
            && m == Status(IdOf(a, j, r.a.ch[j].level, r.a.ch[j].occurrence), Acknowledged, r.a.ch[j].ackName)
  {
    var b := Update(a, ready, inputs, t);
    var j := FirstDue(b, 0);
    assert j < CHANNELS;
    TickChannel(a, ready, inputs, t, j);
  }

  /** Acknowledged goes out on the bus only for an alert that a matching response acknowledged,
      with that alert's type and occurrence and the responder's name. */
  lemma AcknowledgedReportIsAnswered(a: Alerts, es: seq<Event>, k: nat, m: Message) returns (i: Channel, j: nat)
    requires AllSound(a) && (forall c: Channel :: !a.ch[c].acked) && k < |es| && es[k].Ticked?
    requires m in Apply(At(a, es, k), es[k]).sent && m.Status? && m.condition == Acknowledged
    ensures AckedBy(a, es, i, j, k + 1) && es[j].r.id == m.id && es[j].r.ackName == m.ackName
  {
    var b := At(a, es, k);
    SentAcknowledged(b, es[k].ready, es[k].inputs, es[k].t, m);
    i := FirstDue(Update(b, es[k].ready, es[k].inputs, es[k].t), 0);
    assert At(a, es, k + 1) == Tick(b, es[k].ready, es[k].inputs, es[k].t).a;
    SameIdentity(a, es, k);
    hide Apply, At, Tick, Update, FirstDue, AllSound;
    j := AcknowledgedByMatchingResponse(a, es, i, k + 1);
  }

  lemma OccurrenceRepeats(m: nat, n: nat)
    requires 0 < m <= n
    ensures OccurrenceOf(m) == OccurrenceOf(n) <==> (n - m) % 255 == 0
  {
    var a, b := m - 1, n - 1;
    var qa, qb := a / 255, b / 255;
    assert a == 255 * qa + a % 255 && b == 255 * qb + b % 255;
    var d := (n - m) / 255;
    assert n - m == 255 * d + (n - m) % 255;
  }

  /** A late answer to an earlier trip: an acknowledgement of ours carrying the occurrence of the
      channel's `m`-th raise is taken at its `n`-th exactly when the alert is active, not yet
      acknowledged and of the response's type, and a multiple of 255 raises lie between. */
  lemma EarlierTripIff(cfg: Config, instance: int, sourceName: int, t: int, es: seq<Event>, k: nat,
                       r: Response, i: Channel, m: nat)
    requires k <= |es| && r.id.id == i + 1 && r.id.sourceName == sourceName && r.id.instance == instance
    requires r.command == ACKNOWLEDGE && r.id.occurrence == OccurrenceOf(m)
    requires 0 < m <= TallyAt(Init(cfg, instance, sourceName, t), es, i, k).raises
    ensures var n := TallyAt(Init(cfg, instance, sourceName, t), es, i, k).raises;
            var a := At(Init(cfg, instance, sourceName, t), es, k);
            var c := a.ch[i];
            && (Matches(a, r) <==> c.active && !c.acked && r.id.kind == TypeOf(c.level) && (n - m) % 255 == 0)
            && (!Matches(a, r) ==> OnResponse(a, r) == a)
            && (Matches(a, r) ==> OnResponse(a, r).ch[i].acked)
  {
    hide TallyAt, At;
    NormalsAddUp(cfg, instance, sourceName, t, es, i, k);
    SameIdentity(Init(cfg, instance, sourceName, t), es, k);
    OccurrenceRepeats(m, TallyAt(Init(cfg, instance, sourceName, t), es, i, k).raises);
  }

  /** Whatever else it says, a response carrying the occurrence of the channel's `m`-th raise is
      rejected at its `n`-th, unless a multiple of 255 raises lie between. */
  lemma EarlierTripRejected(cfg: Config, instance: int, sourceName: int, t: int, es: seq<Event>, k: nat,
                            r: Response, i: Channel, m: nat)
    requires k <= |es| && r.id.id == i + 1
    requires var n := TallyAt(Init(cfg, instance, sourceName, t), es, i, k).raises;
             0 < m <= n && r.id.occurrence == OccurrenceOf(m) && (n - m) % 255 != 0
    ensures var a := At(Init(cfg, instance, sourceName, t), es, k);
            !Matches(a, r) && OnResponse(a, r) == a
  {
    hide TallyAt, At;
    NormalsAddUp(cfg, instance, sourceName, t, es, i, k);
    OccurrenceRepeats(m, TallyAt(Init(cfg, instance, sourceName, t), es, i, k).raises);
  }
}
