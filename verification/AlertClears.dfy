/** What comes of a clear, and of a late response: three Normal reports that do go out, and trips
    told apart by an occurrence number that comes round. */
module AlertClears {
  import opened Board
  import opened Clock32
  import opened AlertSpec
  import opened AlertRuns

  // ------------------------------------------------------- an owed Normal goes out

  /** Eight ticks from `p` on, after whose first nothing new falls due. */
  predicate QuietRound(a: Alerts, es: seq<Event>, p: nat) {
    && p + CHANNELS <= |es|
    && (forall k :: p <= k < p + CHANNELS ==> es[k].Ticked?)
    && (forall k :: p < k < p + CHANNELS ==> NothingNew(At(a, es, k), es[k]))
  }

  /** Channel `i` is not cleared by any event from `p` up to `n`. */
  predicate NotCleared(a: Alerts, es: seq<Event>, i: Channel, p: nat, n: nat)
    requires n <= |es|
  {
    forall k :: p <= k < n ==> !Clears(At(a, es, k), es[k], i)
  }

  /** What a tick's update leaves channel `i` with. */
  function UpdatedAt(a: Alerts, e: Event, i: Channel): Chan
    requires e.Ticked?
  {
    Updated(a, e.ready, e.inputs, e.t, i)
  }

  /** An event that does not clear the channel owes no more Normals than before; a tick at which it
      stays due without being served leaves it as it is, one that serves it pays one off. */
  lemma OwedStep(a: Alerts, e: Event, i: Channel)
    requires AllSound(a) && !Clears(a, e, i)
    ensures var c, d := a.ch[i], Apply(a, e).a.ch[i];
            && d.clearLeft <= c.clearLeft
            && (e.Ticked? && c.statusDue && c.clearLeft > 0 && d.clearLeft == c.clearLeft ==> d.statusDue)
  {
    hide Tick, Update, FirstDue, SendOf, PeriodOver;
    assert Sound(a.ch[i]);
    match e
    case Ticked(ready, inputs, t) => TickChannel(a, ready, inputs, t, i);
    case Responded(r) =>
    case Configured(cfg) =>
  }

  /** The first tick of a round: whatever its update made due is served or stays due. */
  lemma FirstStep(a: Alerts, e: Event, i: Channel)
    requires AllSound(a) && e.Ticked?
    ensures var u, d := UpdatedAt(a, e, i), Apply(a, e).a.ch[i];
            && d.clearLeft <= u.clearLeft
            && (u.statusDue && u.clearLeft > 0 && d.clearLeft == u.clearLeft ==> d.statusDue)
  {
    TickChannel(a, e.ready, e.inputs, e.t, i);
    hide Tick, Update, FirstDue, SendOf, PeriodOver, Wants, UpdateChan;
  }

  lemma FirstBacklog(a: Alerts, e: Event)
    requires e.Ticked?
    ensures |Backlog(Apply(a, e).a)| <= CHANNELS - 1
  {
    hide Update, Tick, FirstDue, Due, Backlog;
    var u := Update(a, e.ready, e.inputs, e.t);
    TickShrinksBacklog(a, e.ready, e.inputs, e.t);
    BacklogSize(u);
    if Backlog(u) != {} {
      var j: Channel := FirstDue(u, 0);
      assert |Backlog(u) - {j}| == |Backlog(u)| - 1;
    }
  }

  /** Within a round, `n` ticks in: the backlog is short, and the channel still waits or was served. */
  lemma {:induction false} RoundProgress(a: Alerts, es: seq<Event>, i: Channel, p: nat, n: nat)
    requires AllSound(a) && QuietRound(a, es, p) && 1 <= n <= CHANNELS
    requires NotCleared(a, es, i, p + 1, p + CHANNELS)
    ensures |Backlog(At(a, es, p + n))| <= CHANNELS - n
    ensures var u, d := UpdatedAt(At(a, es, p), es[p], i), At(a, es, p + n).ch[i];
            && d.clearLeft <= u.clearLeft
            && (u.statusDue && u.clearLeft > 0 && d.clearLeft == u.clearLeft ==> d.statusDue)
  {
    hide Apply, NothingNew, Clears, Backlog, AllSound, UpdatedAt;
    RunSound(a, es, p + n - 1);
    if n == 1 {
      FirstStep(At(a, es, p), es[p], i);
      FirstBacklog(At(a, es, p), es[p]);
    } else {
      RoundProgress(a, es, i, p, n - 1);
      BacklogStep(At(a, es, p + n - 1), es[p + n - 1], CHANNELS - n);
      OwedStep(At(a, es, p + n - 1), es[p + n - 1], i);
    }
  }

  /** An owed Normal goes out: due at the start of a round in which the channel is not cleared
      again, one is sent by its end. */
  lemma OwedNormalGoesOut(a: Alerts, es: seq<Event>, i: Channel, p: nat)
    requires AllSound(a) && QuietRound(a, es, p) && NotCleared(a, es, i, p + 1, p + CHANNELS)
    requires var u := UpdatedAt(At(a, es, p), es[p], i); u.statusDue && u.clearLeft > 0
    ensures At(a, es, p + CHANNELS).ch[i].clearLeft < UpdatedAt(At(a, es, p), es[p], i).clearLeft
  {
    hide UpdatedAt, At;
    RoundProgress(a, es, i, p, CHANNELS);
    NothingLeft(At(a, es, p + CHANNELS), i);
  }

  lemma NothingLeft(a: Alerts, i: Channel)
    requires |Backlog(a)| <= 0
    ensures !a.ch[i].statusDue
  {
    assert Backlog(a) == {};
    assert a.ch[i].statusDue ==> i in Backlog(a);
  }

  /** A clear owes three Normals, the first due at once. */
  lemma ClearOwesThree(a: Alerts, e: Event, i: Channel)
    requires Clears(a, e, i)
    ensures UpdatedAt(a, e, i).statusDue && UpdatedAt(a, e, i).clearLeft == CLEAR_REPEATS
  {
  }

  /** Every status period makes an owed Normal due again. */
  lemma PeriodMakesDue(a: Alerts, e: Event, i: Channel)
    requires e.Ticked? && !Clears(a, e, i) && PeriodOver(e.t, a.statusAt, STATUS_PERIOD)
    ensures UpdatedAt(a, e, i).clearLeft == a.ch[i].clearLeft
    ensures a.ch[i].clearLeft != 0 ==> UpdatedAt(a, e, i).statusDue
  {
  }

  // ------------------------------------------------------------ three of them

  lemma {:induction false} OwedOnlyShrinks(a: Alerts, es: seq<Event>, i: Channel, p: nat, n: nat)
    requires AllSound(a) && p <= n <= |es| && NotCleared(a, es, i, p, n)
    ensures At(a, es, n).ch[i].clearLeft <= At(a, es, p).ch[i].clearLeft
  {
    hide Apply, Clears, AllSound;
    if p < n {
      OwedOnlyShrinks(a, es, i, p, n - 1);
      RunSound(a, es, n - 1);
      OwedStep(At(a, es, n - 1), es[n - 1], i);
    }
  }

  lemma {:induction false} ClearedStays(a: Alerts, es: seq<Event>, i: Channel, p: nat, n: nat)
    requires p <= n <= |es| && NotCleared(a, es, i, p, n)
    ensures var y, z := TallyAt(a, es, i, p), TallyAt(a, es, i, n);
            z.clears == y.clears && z.level == y.level && z.occurrence == y.occurrence
  {
    hide Apply, Clears;
    if p < n {
      ClearedStays(a, es, i, p, n - 1);
    }
  }

  /** A round whose first tick ends a status period pays off a Normal if one is owed. */
  lemma PeriodPaysOne(a: Alerts, es: seq<Event>, i: Channel, p: nat)
    requires AllSound(a) && QuietRound(a, es, p) && NotCleared(a, es, i, p, p + CHANNELS)
    requires PeriodOver(es[p].t, At(a, es, p).statusAt, STATUS_PERIOD)
    ensures var c, d := At(a, es, p).ch[i].clearLeft, At(a, es, p + CHANNELS).ch[i].clearLeft;
            if c > 0 then d < c else d <= c
  {
    hide UpdatedAt, Clears, At, PeriodOver;
    PeriodMakesDue(At(a, es, p), es[p], i);
    if At(a, es, p).ch[i].clearLeft > 0 {
      OwedNormalGoesOut(a, es, i, p);
    } else {
      OwedOnlyShrinks(a, es, i, p, p + CHANNELS);
      RunSound(a, es, p);
      OwedIsNat(At(a, es, p), i);
    }
  }

  lemma OwedIsNat(a: Alerts, i: Channel)
    requires AllSound(a)
    ensures 0 <= a.ch[i].clearLeft
  {
    assert Sound(a.ch[i]);
  }

  lemma Within(a: Alerts, es: seq<Event>, i: Channel, p: nat, n: nat, u: nat, v: nat)
    requires v <= n <= |es| && p <= u && NotCleared(a, es, i, p, n)
    ensures NotCleared(a, es, i, u, v)
  {
  }

  /** After the clear's round and two more, nothing is owed. */
  lemma ThreeRoundsPay(a: Alerts, es: seq<Event>, i: Channel, c: nat, p: nat, q: nat, n: nat)
    requires AllSound(a) && c + CHANNELS <= p && p + CHANNELS <= q && q + CHANNELS <= n <= |es|
    requires QuietRound(a, es, c) && QuietRound(a, es, p) && QuietRound(a, es, q)
    requires Clears(At(a, es, c), es[c], i) && NotCleared(a, es, i, c + 1, n)
    requires PeriodOver(es[p].t, At(a, es, p).statusAt, STATUS_PERIOD)
    requires PeriodOver(es[q].t, At(a, es, q).statusAt, STATUS_PERIOD)
    ensures At(a, es, n).ch[i].clearLeft == 0
  {
    hide At, Clears, AllSound, PeriodOver, UpdatedAt, NotCleared, QuietRound;
    Within(a, es, i, c + 1, n, c + 1, c + CHANNELS);
    ClearOwesThree(At(a, es, c), es[c], i);
    OwedNormalGoesOut(a, es, i, c);
    Within(a, es, i, c + 1, n, c + CHANNELS, p);
    OwedOnlyShrinks(a, es, i, c + CHANNELS, p);
    Within(a, es, i, c + 1, n, p, q);
    PeriodThenWait(a, es, i, p, q);
    Within(a, es, i, c + 1, n, q, n);
    PeriodThenWait(a, es, i, q, n);
    RunSound(a, es, n);
    OwedIsNat(At(a, es, n), i);
  }

  /** A period's round and the time after it. */
  lemma PeriodThenWait(a: Alerts, es: seq<Event>, i: Channel, p: nat, q: nat)
    requires AllSound(a) && QuietRound(a, es, p) && p + CHANNELS <= q <= |es| && NotCleared(a, es, i, p, q)
    requires PeriodOver(es[p].t, At(a, es, p).statusAt, STATUS_PERIOD)
    ensures var c, d := At(a, es, p).ch[i].clearLeft, At(a, es, q).ch[i].clearLeft;
            if c > 0 then d < c else d <= c
  {
    hide At, Clears, AllSound, PeriodOver, NotCleared, QuietRound;
    Within(a, es, i, p, q, p, p + CHANNELS);
    PeriodPaysOne(a, es, i, p);
    Within(a, es, i, p, q, p + CHANNELS, q);
    OwedOnlyShrinks(a, es, i, p + CHANNELS, q);
  }

  /** A clear is followed by exactly three Normal reports and then silence: with the clear and the
      ends of two later status periods each followed by a quiet round, and the channel not cleared
      again, from then on exactly three have gone out, each naming the alert that was cleared, and
      none is owed. */
  lemma ThreeNormals(cfg: Config, instance: int, sourceName: int, t: int, es: seq<Event>, i: Channel,
                     c: nat, p: nat, q: nat, n: nat)
    requires c + CHANNELS <= p && p + CHANNELS <= q && q + CHANNELS <= n <= |es|
    requires var a := Init(cfg, instance, sourceName, t);
             && Clears(At(a, es, c), es[c], i) && NotCleared(a, es, i, c + 1, n)
             && QuietRound(a, es, c) && QuietRound(a, es, p) && QuietRound(a, es, q)
             && PeriodOver(es[p].t, At(a, es, p).statusAt, STATUS_PERIOD)
             && PeriodOver(es[q].t, At(a, es, q).statusAt, STATUS_PERIOD)
    ensures var a := Init(cfg, instance, sourceName, t);
            var was, y := At(a, es, c).ch[i], TallyAt(a, es, i, n);
            && y.normals == 3 && y.level == was.level && y.occurrence == was.occurrence
            && At(a, es, n).ch[i].clearLeft == 0
  {
    hide At, Clears, AllSound, Init, PeriodOver, Agrees, TallyAt, NotCleared, NothingNew;
    var a := Init(cfg, instance, sourceName, t);
    FreshAgrees(cfg, instance, sourceName, t, i);
    ThreeRoundsPay(a, es, i, c, p, q, n);
    ClearIsNoted(a, es, i, c);
    ClearedStays(a, es, i, c + 1, n);
    NormalsAddUp(cfg, instance, sourceName, t, es, i, n);
    AllPaid(At(a, es, n).ch[i], TallyAt(a, es, i, n));
  }

  lemma ClearIsNoted(a: Alerts, es: seq<Event>, i: Channel, c: nat)
    requires c < |es| && Clears(At(a, es, c), es[c], i)
    ensures var y, was := TallyAt(a, es, i, c + 1), At(a, es, c).ch[i];
            y.clears > 0 && y.level == was.level && y.occurrence == was.occurrence && es[c].Ticked?
  {
    hide Apply;
  }

  lemma AllPaid(c: Chan, y: Tally)
    requires Agrees(c, y) && y.clears > 0 && c.clearLeft == 0
    ensures y.normals == 3
  {
  }

  // --------------------------------------------------- a response 255 raises late

  const TRIPPED: Config :=
    Config(true, true, [Alarm, Alarm, Alarm, Alarm, Alarm, Alarm, Alarm, Alarm], ["", "", "", "", "", "", "", ""])

  function Trip(k: nat): Event {
    Ticked(true, if k % 2 == 0 then {0} else {}, 0)
  }

  /** Input 1 going on and off, `n` ticks in all. */
  function Trips(n: nat): (es: seq<Event>)
    ensures |es| == n && forall k :: 0 <= k < n ==> es[k] == Trip(k)
  {
    if n == 0 then [] else Trips(n - 1) + [Trip(n - 1)]
  }

  /** After `k` of them it has been raised at every other tick, and is active after an odd number. */
  lemma {:induction false} TripsCount(n: nat, k: nat)
    requires k <= n
    ensures var a := Init(TRIPPED, 0, 0, 0);
            && Tripped(At(a, Trips(n), k), k % 2 == 1)
            && TallyAt(a, Trips(n), 0, k).raises == (k + 1) / 2
  {
    hide Tripped, Init, Apply, Raises;
    var a := Init(TRIPPED, 0, 0, 0);
    if k == 0 {
      FreshIsQuiet();
    } else {
      TripsCount(n, k - 1);
      TripStep(At(a, Trips(n), k - 1), Trips(n)[k - 1], k % 2 == 1);
    }
  }

  predicate Tripped(b: Alerts, on: bool) {
    && b.cfg == TRIPPED && (b.ch[0].active <==> on) && !b.ch[0].acked
    && (b.ch[0].active ==> b.ch[0].level == Alarm)
  }

  lemma FreshIsQuiet()
    ensures Tripped(Init(TRIPPED, 0, 0, 0), false)
  {
  }

  lemma TripStep(b: Alerts, e: Event, on: bool)
    requires Tripped(b, !on) && e == Ticked(true, if on then {0} else {}, 0)
    ensures Tripped(Apply(b, e).a, on) && (Raises(b, e, 0) <==> on)
  {
    TickChannel(b, true, e.inputs, 0, 0);
    hide Tick, Update, FirstDue, SendOf, PeriodOver;
  }

  /** A concrete case: the answer to the first trip is taken for the 256th. */
  lemma StaleResponseTaken()
    ensures var a, es := Init(TRIPPED, 0, 0, 0), Trips(511);
            var r := Response(Id(TypeOf(Alarm), 1, 0, 0, OccurrenceOf(1)), 7, ACKNOWLEDGE);
            && TallyAt(a, es, 0, 511).raises == 256
            && OnResponse(At(a, es, 511), r).ch[0].acked && OnResponse(At(a, es, 511), r).ch[0].ackName == 7
  {
    hide TallyAt, At, Trips, Init;
    TripsCount(511, 511);
    var r := Response(Id(TypeOf(Alarm), 1, 0, 0, OccurrenceOf(1)), 7, ACKNOWLEDGE);
    EarlierTripIff(TRIPPED, 0, 0, 0, Trips(511), 511, r, 0, 1);
  }

  // ----------------------------------------------------- three Normals, concretely

  /** Input 1 goes on and off; quiet ticks follow, in three bursts a second apart. */
  function ClearTick(k: nat): Event {
    if k == 0 then Ticked(true, {0}, 0)
    else Ticked(true, {}, if k < 9 then 0 else if k < 17 then 1000 else 2000)
  }

  function ClearRun(n: nat): (es: seq<Event>)
    ensures |es| == n && forall k :: 0 <= k < n ==> es[k] == ClearTick(k)
  {
    if n == 0 then [] else ClearRun(n - 1) + [ClearTick(n - 1)]
  }

  /** Nothing is active, and the last status period ended at `at`. */
  predicate Resting(b: Alerts, at: int) {
    b.cfg == TRIPPED && b.statusAt == at && forall i: Channel :: !b.ch[i].active
  }

  lemma RestingTick(b: Alerts, at: int, e: Event, i: Channel)
    requires Resting(b, at) && e.Ticked? && e.ready && e.inputs == {}
    requires e.t in {at, at + STATUS_PERIOD} && 0 <= at <= 2000
    ensures Resting(Apply(b, e).a, e.t) && !Clears(b, e, i)
    ensures PeriodOver(e.t, b.statusAt, STATUS_PERIOD) <==> e.t != at
    ensures e.t == at ==> NothingNew(b, e)
  {
    var r := Apply(b, e).a;
    ElapsedBound(e.t, at);
    forall j: Channel ensures !r.ch[j].active {
      ActiveIffWanted(b, true, {}, e.t, j);
    }
    if e.t == at {
      forall j: Channel ensures Due(Update(b, true, {}, e.t).ch[j]) ==> Due(b.ch[j]) {
      }
    }
  }

  lemma FirstTicks()
    ensures var a, es := Init(TRIPPED, 0, 0, 0), ClearRun(25);
            && Clears(At(a, es, 1), es[1], 0) && Resting(At(a, es, 2), 0)
  {
    hide FirstDue, SendOf;
    var a, es := Init(TRIPPED, 0, 0, 0), ClearRun(25);
    assert es[0] == ClearTick(0) && es[1] == ClearTick(1);
    var b := Apply(a, es[0]).a;
    assert At(a, es, 0) == a;
    assert At(a, es, 1) == b;
    assert At(a, es, 2) == Apply(b, es[1]).a;
    ActiveIffWanted(a, true, {0}, 0, 0);
    assert b.cfg == TRIPPED && b.statusAt == 0;
    forall i: Channel ensures !Apply(b, es[1]).a.ch[i].active {
      ActiveIffWanted(b, true, {}, 0, i);
    }
  }

  lemma {:induction false} RestAlong(k: nat)
    requires 2 <= k <= 25
    ensures var a, es := Init(TRIPPED, 0, 0, 0), ClearRun(25);
            && Resting(At(a, es, k), ClearTick(k - 1).t)
            && (k < 25 ==> !Clears(At(a, es, k), es[k], 0))
            && (k < 25 && k !in {9, 17} ==> NothingNew(At(a, es, k), es[k]))
            && (k in {9, 17} ==> PeriodOver(es[k].t, At(a, es, k).statusAt, STATUS_PERIOD))
  {
    hide Resting, Clears, NothingNew, PeriodOver, Apply, Init;
    var a, es := Init(TRIPPED, 0, 0, 0), ClearRun(25);
    if k == 2 {
      FirstTicks();
    } else {
      RestAlong(k - 1);
      assert es[k - 1] == ClearTick(k - 1);
      RestingTick(At(a, es, k - 1), ClearTick(k - 2).t, es[k - 1], 0);
    }
    if k < 25 {
      assert es[k] == ClearTick(k);
      RestingTick(At(a, es, k), ClearTick(k - 1).t, es[k], 0);
      RestsAt(At(a, es, k), ClearTick(k - 1).t);
    }
  }

  lemma RestsAt(b: Alerts, at: int)
    requires Resting(b, at)
    ensures b.statusAt == at
  {
  }

  /** A concrete run that does it: cleared by its second tick, three Normals by its 25th. */
  lemma ThreeNormalsHappen()
    ensures var a, es := Init(TRIPPED, 0, 0, 0), ClearRun(25);
            && Clears(At(a, es, 1), es[1], 0)
            && TallyAt(a, es, 0, 25).normals == 3 && At(a, es, 25).ch[0].clearLeft == 0
  {
    hide Clears, NothingNew, PeriodOver, Init, At, TallyAt, Resting;
    var a, es := Init(TRIPPED, 0, 0, 0), ClearRun(25);
    FirstTicks();
    forall k | 2 <= k < 25
      ensures !Clears(At(a, es, k), es[k], 0) && (k !in {9, 17} ==> NothingNew(At(a, es, k), es[k]))
    {
      RestAlong(k);
    }
    RestAlong(9);
    RestAlong(17);
    ThreeNormals(TRIPPED, 0, 0, 0, es, 0, 1, 9, 17, 25);
  }
}
