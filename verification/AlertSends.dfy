/** What goes out for a live alert: its status and its text, at once, at every period, and after every
    acknowledgement and change of message; and neither without such a cause. */
module AlertSends {
  import opened Board
  import opened Clock32
  import opened AlertSpec
  import opened AlertRuns
  import opened AlertClears

  // --------------------------------------------------- what a channel's turn sends

  /** The identity of a live alert: an emergency alarm is type 1, an alarm 2 and a warning 5. */
  function LiveId(a: Alerts, i: Channel, c: Chan): Id {
    Id(if c.level == Emergency then 1 else if c.level == Alarm then 2 else 5,
       i + 1, a.sourceName, a.instance, c.occurrence)
  }

  /** The report of an alert raised at that level: its own identity, and who acknowledged it. */
  function LiveStatus(a: Alerts, i: Channel, c: Chan): Message {
    Status(LiveId(a, i, c), if c.acked then Acknowledged else Active,
           if c.acked then c.ackName else NO_NAME)
  }

  function LiveText(a: Alerts, i: Channel, c: Chan): Message {
    Text(LiveId(a, i, c), a.cfg.message[i])
  }

  predicate IsLive(m: Message, i: Channel) {
    m.Status? && m.condition != Normal && m.id.id == i + 1
  }

  predicate IsText(m: Message, i: Channel) {
    m.Text? && m.id.id == i + 1
  }

  /** A channel's turn sends its status exactly when that is due and the alert live, its text exactly when
      that is due; nothing of another channel. */
  lemma TurnSends(a: Alerts, j: Channel, i: Channel)
    ensures var c, sent := a.ch[j], SendOf(a, j);
            && (forall m :: m in sent && IsLive(m, i) ==> i == j && m == LiveStatus(a, i, c))
            && (forall m :: m in sent && IsText(m, i) ==> i == j && m == LiveText(a, i, c))
            && multiset(sent)[LiveStatus(a, j, c)] == (if c.statusDue && c.active then 1 else 0)
            && multiset(sent)[LiveText(a, j, c)] == (if c.textDue then 1 else 0)
  {
  }

  /** What an update leaves due for a live alert, its text or its status. */
  datatype Part = TheText | TheStatus

  predicate Owes(c: Chan, part: Part) {
    c.active && if part == TheText then c.textDue else c.statusDue
  }

  function PartOf(a: Alerts, i: Channel, c: Chan, part: Part): Message {
    if part == TheText then LiveText(a, i, c) else LiveStatus(a, i, c)
  }

  predicate IsPart(m: Message, i: Channel, part: Part) {
    if part == TheText then IsText(m, i) else IsLive(m, i)
  }

  /** Event `e` sends that part of channel `i`'s alert as it stands in `c`. */
  predicate Sends(a: Alerts, e: Event, i: Channel, c: Chan, part: Part) {
    multiset(Apply(a, e).sent)[PartOf(a, i, c, part)] == 1
  }

  lemma UpdateStaysSound(a: Alerts, e: Event, i: Channel)
    requires AllSound(a) && e.Ticked?
    ensures var u := UpdatedAt(a, e, i); Sound(u) && (u.textDue ==> u.active)
    ensures Update(a, e.ready, e.inputs, e.t).ch[i] == UpdatedAt(a, e, i)
  {
    hide UpdateChan;
    assert Sound(a.ch[i]);
    UpdateSound(a.ch[i], Wants(a.cfg, e.ready, e.inputs, i), a.cfg.level[i],
                PeriodOver(e.t, a.statusAt, STATUS_PERIOD), PeriodOver(e.t, a.textAt, TEXT_PERIOD));
  }

  lemma UpdateKeepsNames(a: Alerts, e: Event, i: Channel)
    requires e.Ticked?
    ensures var b, u := Update(a, e.ready, e.inputs, e.t), UpdatedAt(a, e, i);
            && LiveStatus(b, i, u) == LiveStatus(a, i, u) && LiveText(b, i, u) == LiveText(a, i, u)
    ensures Apply(a, e) == SendFirst(Update(a, e.ready, e.inputs, e.t))
  {
  }

  /** A tick sends for channel `i` what its update leaves due, if it is the first with something due,
      and nothing for it otherwise. */
  lemma TickSends(a: Alerts, e: Event, i: Channel, part: Part)
    requires AllSound(a) && e.Ticked?
    ensures var u, first := UpdatedAt(a, e, i), FirstDue(Update(a, e.ready, e.inputs, e.t), 0) == i;
            && (first && Owes(u, part) ==> Sends(a, e, i, u, part))
            && (forall m :: m in Apply(a, e).sent && IsPart(m, i, part) ==>
                  first && Owes(u, part) && m == PartOf(a, i, u, part))
  {
    hide Tick, Update, UpdatedAt, FirstDue, SendOf, AfterSend, Sound, LiveStatus, LiveText, IsLive, IsText;
    var b := Update(a, e.ready, e.inputs, e.t);
    UpdateStaysSound(a, e, i);
    UpdateKeepsNames(a, e, i);
    if FirstDue(b, 0) < CHANNELS {
      TurnSends(b, FirstDue(b, 0), i);
    }
  }

  /** The lowest channel with something due sends at once: its status exactly once, Active until it is
      acknowledged and Acknowledged from then on, with its own identity; likewise its text. */
  lemma LowestDueIsSent(a: Alerts, e: Event, i: Channel)
    requires AllSound(a) && e.Ticked?
    requires var b := Update(a, e.ready, e.inputs, e.t);
             Due(b.ch[i]) && b.ch[i].active && forall j: Channel :: j < i ==> !Due(b.ch[j])
    ensures var c, sent := UpdatedAt(a, e, i), Apply(a, e).sent;
            && (c.statusDue ==> multiset(sent)[LiveStatus(a, i, c)] == 1)
            && (c.textDue ==> multiset(sent)[LiveText(a, i, c)] == 1)
            && (forall m :: m in sent && IsLive(m, i) ==> c.statusDue && m == LiveStatus(a, i, c))
            && (forall m :: m in sent && IsText(m, i) ==> c.textDue && m == LiveText(a, i, c))
  {
    TickSends(a, e, i, TheStatus);
    TickSends(a, e, i, TheText);
    TickChannel(a, e.ready, e.inputs, e.t, i);
    hide Tick, Update, SendOf, PeriodOver, LiveStatus, LiveText;
  }

  // ------------------------------------------------------ it goes out within a round

  /** Channel `i`'s alert in `c` is still the one in `u`, with the same acknowledgement. */
  predicate SameAlert(c: Chan, u: Chan) {
    c.level == u.level && c.occurrence == u.occurrence && c.acked == u.acked && c.ackName == u.ackName
  }

  /** A tick that does not clear the channel sends the part it owes, or still owes it. */
  lemma OwingStep(a: Alerts, e: Event, i: Channel, part: Part)
    requires AllSound(a) && e.Ticked? && !Clears(a, e, i) && Owes(a.ch[i], part)
    ensures var c, d := a.ch[i], Apply(a, e).a.ch[i];
            Sends(a, e, i, c, part) || (Owes(d, part) && SameAlert(d, c))
  {
    TickSends(a, e, i, part);
    TickChannel(a, e.ready, e.inputs, e.t, i);
    hide Tick, Update, FirstDue, SendOf, PeriodOver, Sends;
    SameSends(a, e, i, a.ch[i], UpdatedAt(a, e, i), part);
  }

  lemma SameSends(a: Alerts, e: Event, i: Channel, c: Chan, d: Chan, part: Part)
    ensures SameAlert(c, d) ==> Sends(a, e, i, c, part) == Sends(a, e, i, d, part)
  {
    hide Apply, PartOf, SameAlert;
    if SameAlert(c, d) {
      SamePart(a, i, c, d, part);
    }
  }

  lemma SamePart(a: Alerts, i: Channel, c: Chan, d: Chan, part: Part)
    requires SameAlert(c, d)
    ensures PartOf(a, i, c, part) == PartOf(a, i, d, part)
  {
  }

  lemma FirstOwingStep(a: Alerts, e: Event, i: Channel, part: Part)
    requires AllSound(a) && e.Ticked? && Owes(UpdatedAt(a, e, i), part)
    ensures var u, d := UpdatedAt(a, e, i), Apply(a, e).a.ch[i];
            Sends(a, e, i, u, part) || (Owes(d, part) && SameAlert(d, u))
  {
    TickSends(a, e, i, part);
    TickChannel(a, e.ready, e.inputs, e.t, i);
    hide Tick, Update, FirstDue, SendOf, PeriodOver, Sends, Wants, UpdateChan;
  }

  lemma {:induction false} TicksKeepSettings(a: Alerts, es: seq<Event>, p: nat, n: nat)
    requires p <= n <= |es| && forall k :: p <= k < n ==> es[k].Ticked?
    ensures var b, c := At(a, es, p), At(a, es, n);
            c.cfg == b.cfg && c.sourceName == b.sourceName && c.instance == b.instance
  {
    hide Tick, Update, UpdateChan, SendOf, FirstDue;
    if p < n {
      TicksKeepSettings(a, es, p, n - 1);
      TickChannel(At(a, es, n - 1), es[n - 1].ready, es[n - 1].inputs, es[n - 1].t, 0);
    }
  }

  lemma SameSettings(a: Alerts, b: Alerts, i: Channel, c: Chan, part: Part)
    requires a.cfg == b.cfg && a.sourceName == b.sourceName && a.instance == b.instance
    ensures PartOf(a, i, c, part) == PartOf(b, i, c, part)
  {
  }

  /** The part goes out at one of the first `n` ticks of the round from `p`, as it stands in `u`. */
  ghost predicate SentWithin(a: Alerts, es: seq<Event>, i: Channel, u: Chan, part: Part, p: nat, n: nat)
    requires p + n <= |es|
  {
    exists k :: p <= k < p + n && multiset(Apply(At(a, es, k), es[k]).sent)[PartOf(At(a, es, p), i, u, part)] == 1
  }

  lemma SentNow(a: Alerts, es: seq<Event>, i: Channel, c: Chan, u: Chan, part: Part, p: nat, n: nat)
    requires p + n < |es| && (forall k :: p <= k < p + n ==> es[k].Ticked?)
    requires SameAlert(c, u) && Sends(At(a, es, p + n), es[p + n], i, c, part)
    ensures SentWithin(a, es, i, u, part, p, n + 1)
  {
    TicksKeepSettings(a, es, p, p + n);
    hide At, Apply, SameAlert, PartOf;
    SamePart(At(a, es, p), i, c, u, part);
    SameSettings(At(a, es, p), At(a, es, p + n), i, c, part);
  }

  lemma {:induction false} RoundSends(a: Alerts, es: seq<Event>, i: Channel, p: nat, n: nat, part: Part)
    requires AllSound(a) && QuietRound(a, es, p) && 1 <= n <= CHANNELS
    requires NotCleared(a, es, i, p + 1, p + CHANNELS) && Owes(UpdatedAt(At(a, es, p), es[p], i), part)
    ensures var u, d := UpdatedAt(At(a, es, p), es[p], i), At(a, es, p + n).ch[i];
            SentWithin(a, es, i, u, part, p, n) || (Owes(d, part) && SameAlert(d, u))
  {
    hide Apply, NothingNew, Clears, AllSound, UpdatedAt, Owes, Sends, SentWithin;
    RunSound(a, es, p + n - 1);
    var u := UpdatedAt(At(a, es, p), es[p], i);
    if n == 1 {
      FirstOwingStep(At(a, es, p), es[p], i, part);
      if Sends(At(a, es, p), es[p], i, u, part) {
        SentNow(a, es, i, u, u, part, p, 0);
      }
    } else {
      RoundSends(a, es, i, p, n - 1, part);
      var b, e := At(a, es, p + n - 1), es[p + n - 1];
      if SentWithin(a, es, i, u, part, p, n - 1) {
        SentEarlier(a, es, i, u, part, p, n - 1);
      } else {
        OwingStep(b, e, i, part);
        if Sends(b, e, i, b.ch[i], part) {
          SentNow(a, es, i, b.ch[i], u, part, p, n - 1);
        }
      }
    }
  }

  lemma SentEarlier(a: Alerts, es: seq<Event>, i: Channel, u: Chan, part: Part, p: nat, n: nat)
    requires p + n < |es| && SentWithin(a, es, i, u, part, p, n)
    ensures SentWithin(a, es, i, u, part, p, n + 1)
  {
    hide Apply, At;
  }

  /** What a live alert owes goes out: due at the start of a round in which the channel is not cleared,
      its text or status is sent by the end of the round, once at that tick, with the alert's own identity,
      its condition and its message. */
  lemma OwedPartGoesOut(a: Alerts, es: seq<Event>, i: Channel, p: nat, part: Part)
    requires AllSound(a) && QuietRound(a, es, p) && NotCleared(a, es, i, p + 1, p + CHANNELS)
    requires Owes(UpdatedAt(At(a, es, p), es[p], i), part)
    ensures SentWithin(a, es, i, UpdatedAt(At(a, es, p), es[p], i), part, p, CHANNELS)
  {
    hide UpdatedAt, At, SentWithin, SameAlert, Apply;
    RoundSends(a, es, i, p, CHANNELS, part);
    RoundProgress(a, es, i, p, CHANNELS);
    NothingOwed(At(a, es, p + CHANNELS), i, part);
  }

  lemma NothingOwed(a: Alerts, i: Channel, part: Part)
    requires |Backlog(a)| <= 0
    ensures !Owes(a.ch[i], part)
  {
    assert Backlog(a) == {};
    assert Due(a.ch[i]) ==> i in Backlog(a);
  }

  // ---------------------------------------------------------- what makes it due

  /** A status is repeated every second, a text every ten. */
  function RepeatMs(part: Part): int {
    if part == TheText then 10000 else 1000
  }

  /** When the last period for that part ended. */
  function Since(a: Alerts, part: Part): int {
    if part == TheText then a.textAt else a.statusAt
  }

  predicate EndsPeriod(a: Alerts, e: Event, part: Part) {
    e.Ticked? && PeriodOver(e.t, Since(a, part), RepeatMs(part))
  }

  /** The event calls for that part of channel `i`'s alert: it raises the alert, or ends a period while it
      is live; a status also when it acknowledges it, a text also when it changes the message. */
  predicate CallsFor(a: Alerts, e: Event, i: Channel, part: Part) {
    match e
    case Ticked(ready, inputs, t) => Wants(a.cfg, ready, inputs, i) && (Raises(a, e, i) || EndsPeriod(a, e, part))
    case Responded(r) => part == TheStatus && Matches(a, r) && r.id.id == i + 1
    case Configured(cfg) => part == TheText && a.ch[i].active && cfg.message[i] != a.cfg.message[i]
  }

  /** An event leaves a part owed exactly when it calls for it, or it was owed and the alert is still
      wanted; a tick may then send it. */
  lemma OwedIff(a: Alerts, e: Event, i: Channel, part: Part)
    ensures e.Ticked? ==>
              (Owes(UpdatedAt(a, e, i), part)
               <==> CallsFor(a, e, i, part) || (Owes(a.ch[i], part) && Wants(a.cfg, e.ready, e.inputs, i)))
    ensures !e.Ticked? ==> (Owes(Apply(a, e).a.ch[i], part) <==> CallsFor(a, e, i, part) || Owes(a.ch[i], part))
  {
    hide Tick, PeriodOver;
  }

  /** Raised, repeated, acknowledged, renamed: whatever calls for a part at the start of a round in which
      the channel is not cleared, the part goes out by its end. */
  lemma CalledForGoesOut(a: Alerts, es: seq<Event>, i: Channel, p: nat, part: Part)
    requires AllSound(a) && QuietRound(a, es, p) && NotCleared(a, es, i, p + 1, p + CHANNELS)
    requires CallsFor(At(a, es, p), es[p], i, part)
    ensures SentWithin(a, es, i, UpdatedAt(At(a, es, p), es[p], i), part, p, CHANNELS)
  {
    hide UpdatedAt, At, SentWithin, CallsFor, NothingNew, Clears;
    OwedIff(At(a, es, p), es[p], i, part);
    OwedPartGoesOut(a, es, i, p, part);
  }

  /** An acknowledgement is told to the bus: in a round right after a response that is taken, Acknowledged
      goes out with the responder's name. */
  lemma AcknowledgementGoesOut(a: Alerts, es: seq<Event>, i: Channel, p: nat) returns (k: nat)
    requires AllSound(a) && QuietRound(a, es, p + 1) && NotCleared(a, es, i, p + 1, p + 1 + CHANNELS)
    requires es[p].Responded? && Matches(At(a, es, p), es[p].r) && es[p].r.id.id == i + 1
    ensures p < k <= p + CHANNELS
    ensures multiset(Apply(At(a, es, k), es[k]).sent)[Status(es[p].r.id, Acknowledged, es[p].r.ackName)] == 1
  {
    hide UpdatedAt, At, Apply, Owes, Matches, LiveStatus, Clears, NothingNew, SentWithin, QuietRound, NotCleared;
    RoundBegins(a, es, i, p + 1);
    AtNext(a, es, p);
    var u := UpdatedAt(At(a, es, p + 1), es[p + 1], i);
    AckedStays(At(a, es, p), es[p], es[p + 1], i);
    OwedPartGoesOut(a, es, i, p + 1, TheStatus);
    k := FindSent(a, es, i, u, TheStatus, p + 1, CHANNELS);
  }

  lemma FindSent(a: Alerts, es: seq<Event>, i: Channel, u: Chan, part: Part, p: nat, n: nat) returns (k: nat)
    requires p + n <= |es| && SentWithin(a, es, i, u, part, p, n)
    ensures p <= k < p + n && multiset(Apply(At(a, es, k), es[k]).sent)[PartOf(At(a, es, p), i, u, part)] == 1
  {
    hide Apply, At;
    k :| p <= k < p + n && multiset(Apply(At(a, es, k), es[k]).sent)[PartOf(At(a, es, p), i, u, part)] == 1;
  }

  lemma AtNext(a: Alerts, es: seq<Event>, p: nat)
    requires p < |es|
    ensures At(a, es, p + 1) == Apply(At(a, es, p), es[p]).a
  {
  }

  lemma RoundBegins(a: Alerts, es: seq<Event>, i: Channel, p: nat)
    requires QuietRound(a, es, p) && NotCleared(a, es, i, p, p + CHANNELS)
    ensures p + CHANNELS <= |es| && es[p].Ticked?
    ensures !Clears(At(a, es, p), es[p], i) && NotCleared(a, es, i, p + 1, p + CHANNELS)
  {
    hide Clears, At, NothingNew;
  }

  lemma AckedStays(b: Alerts, e: Event, f: Event, i: Channel)
    requires e.Responded? && Matches(b, e.r) && e.r.id.id == i + 1 && f.Ticked?
    requires !Clears(Apply(b, e).a, f, i)
    ensures var a1 := Apply(b, e).a; var u := UpdatedAt(a1, f, i);
            && Owes(u, TheStatus) && LiveStatus(a1, i, u) == Status(e.r.id, Acknowledged, e.r.ackName)
  {
    hide PeriodOver, Update;
  }

  // ------------------------------------------------------- and nothing else does

  /** Event `k` sends no such message of channel `i`. */
  predicate NotSent(a: Alerts, es: seq<Event>, i: Channel, part: Part, k: nat)
    requires k < |es|
  {
    forall m :: m in Apply(At(a, es, k), es[k]).sent ==> !IsPart(m, i, part)
  }

  /** After an event a part is owed only if it was not sent, and was owed before or is called for. */
  lemma OwedBefore(a: Alerts, e: Event, i: Channel, part: Part)
    requires AllSound(a) && Owes(Apply(a, e).a.ch[i], part)
    ensures forall m :: m in Apply(a, e).sent ==> !IsPart(m, i, part)
    ensures CallsFor(a, e, i, part) || Owes(a.ch[i], part)
  {
    hide IsPart, CallsFor, Tick, Matches;
    OwedIff(a, e, i, part);
    if e.Ticked? {
      TickSends(a, e, i, part);
      TickChannel(a, e.ready, e.inputs, e.t, i);
    }
  }

  /** A part that is owed was called for, and has not been sent since. */
  lemma {:induction false} OwedHasCause(a: Alerts, es: seq<Event>, i: Channel, part: Part, n: nat) returns (j: nat)
    requires AllSound(a) && !Owes(a.ch[i], part) && n <= |es| && Owes(At(a, es, n).ch[i], part)
    ensures j < n && CallsFor(At(a, es, j), es[j], i, part)
    ensures forall k :: j <= k < n ==> NotSent(a, es, i, part, k)
  {
    hide Apply, CallsFor, Owes, AllSound;
    RunSound(a, es, n - 1);
    OwedBefore(At(a, es, n - 1), es[n - 1], i, part);
    if CallsFor(At(a, es, n - 1), es[n - 1], i, part) {
      j := n - 1;
    } else {
      j := OwedHasCause(a, es, i, part, n - 1);
    }
  }

  /** Nothing goes out uncalled for: from start-up, every text and every live status was called for by an
      event since the last one of its channel. */
  lemma SentHasCause(cfg: Config, instance: int, sourceName: int, t: int, es: seq<Event>, i: Channel, part: Part,
                     k: nat, m: Message) returns (j: nat)
    requires k < |es| && m in Apply(At(Init(cfg, instance, sourceName, t), es, k), es[k]).sent && IsPart(m, i, part)
    ensures var a := Init(cfg, instance, sourceName, t);
            && j <= k && CallsFor(At(a, es, j), es[j], i, part)
            && forall n :: j <= n < k ==> NotSent(a, es, i, part, n)
  {
    hide Apply, CallsFor, AllSound, IsPart;
    var a := Init(cfg, instance, sourceName, t);
    FreshAgrees(cfg, instance, sourceName, t, i);
    RunSound(a, es, k);
    OnlyTicksSend(At(a, es, k), es[k]);
    TickSends(At(a, es, k), es[k], i, part);
    OwedIff(At(a, es, k), es[k], i, part);
    if CallsFor(At(a, es, k), es[k], i, part) {
      j := k;
    } else {
      j := OwedHasCause(a, es, i, part, k);
    }
  }

  lemma OnlyTicksSend(a: Alerts, e: Event)
    ensures Apply(a, e).sent != [] ==> e.Ticked?
  {
  }

  // ------------------------------------------------------------------ the periods

  /** Ticks carry non-decreasing times, none before start-up. */
  predicate InOrder(t: int, es: seq<Event>) {
    && (forall k :: 0 <= k < |es| && es[k].Ticked? ==> t <= es[k].t)
    && (forall j, k :: 0 <= j < k < |es| && es[j].Ticked? && es[k].Ticked? ==> es[j].t <= es[k].t)
  }

  lemma SinceStep(a: Alerts, e: Event, part: Part)
    ensures Since(Apply(a, e).a, part) == if EndsPeriod(a, e, part) then e.t else Since(a, part)
  {
  }

  lemma {:induction false} SinceGrows(a: Alerts, es: seq<Event>, part: Part, j: nat, k: nat)
    requires j < k <= |es| && EndsPeriod(At(a, es, j), es[j], part)
    requires forall m, n :: 0 <= m < n < |es| && es[m].Ticked? && es[n].Ticked? ==> es[m].t <= es[n].t
    ensures es[j].t <= Since(At(a, es, k), part)
    ensures (forall m :: j < m < k ==> !EndsPeriod(At(a, es, m), es[m], part)) ==> Since(At(a, es, k), part) == es[j].t
    ensures forall n :: k <= n < |es| && es[n].Ticked? ==> Since(At(a, es, k), part) <= es[n].t
  {
    hide Apply, EndsPeriod;
    SinceStep(At(a, es, k - 1), es[k - 1], part);
    OnlyTicksEnd(At(a, es, k - 1), es[k - 1], part);
    OnlyTicksEnd(At(a, es, j), es[j], part);
    if j < k - 1 {
      SinceGrows(a, es, part, j, k - 1);
    }
  }

  lemma OnlyTicksEnd(a: Alerts, e: Event, part: Part)
    ensures EndsPeriod(a, e, part) ==> e.Ticked?
  {
  }

  /** Statuses are repeated no faster than once a second and texts than every ten: two ends of periods
      are that far apart in true time. And no slower: a tick that far (and less than 2^32 ms) from the
      last end is one itself. */
  lemma PeriodsApart(a: Alerts, es: seq<Event>, part: Part, j: nat, k: nat)
    requires InOrder(Since(a, part), es) && j < k < |es| && EndsPeriod(At(a, es, j), es[j], part) && es[k].Ticked?
    ensures EndsPeriod(At(a, es, k), es[k], part) ==> es[k].t - es[j].t >= RepeatMs(part)
    ensures RepeatMs(part) <= es[k].t - es[j].t < WORD ==>
              exists m :: j < m <= k && EndsPeriod(At(a, es, m), es[m], part)
  {
    hide Apply, At;
    SinceGrows(a, es, part, j, k);
    ElapsedBound(es[k].t, Since(At(a, es, k), part));
  }
}
