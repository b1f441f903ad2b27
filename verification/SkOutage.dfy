/** How the bridge watches the SignalK stream: when it reports SignalK lost, and when it
    republishes. */
module SkOutage {
  import opened Clock32

  /** The settings the tick reads; both trees' switches are fixed at start-up. */
  datatype Settings = Settings(published: bool, graceS: int, republishS: int)

  /** The stream record, in true time. */
  datatype Link = Link(cfg: Settings, started: bool, connectedOnce: bool, down: bool, lostFired: bool,
                       downSince: int, republishedAt: int)

  datatype Event =
    | Stream(connected: bool, t: int)
    | Tick(t0: int, t1: int, t2: int)
    | Save(graceS: int, republishS: int)
    | Start(t: int)

  /** `republish` tells of publishing everything again; the first time, at start, is not counted. */
  datatype Effect = Effect(link: Link, lost: bool, republish: bool)

  function PowerOn(cfg: Settings): Link {
    Link(cfg, false, false, false, false, 0, 0)
  }

  predicate LostDue(l: Link, t: int) {
    l.down && !l.lostFired && l.cfg.published && Elapsed(Wrap(t), Wrap(l.downSince)) >= l.cfg.graceS * 1000
  }

  predicate RepublishDue(l: Link, t: int) {
    && l.started && l.connectedOnce && !l.down && l.cfg.republishS * 1000 != 0
    && Elapsed(Wrap(t), Wrap(l.republishedAt)) >= l.cfg.republishS * 1000
  }

  function Handle(l: Link, e: Event): Effect {
    match e
    case Stream(connected, t) =>
      if connected then
        Effect(l.(connectedOnce := true, down := false, republishedAt := if l.started then t else l.republishedAt),
               false, l.started)
      else if l.connectedOnce && !l.down then
        Effect(l.(down := true, lostFired := false, downSince := t), false, false)
      else Effect(l, false, false)
    case Tick(t0, t1, t2) =>
      var lost := LostDue(l, t0);
      var again := RepublishDue(l, t1);
      Effect(l.(lostFired := l.lostFired || lost, republishedAt := if again then t2 else l.republishedAt),
             lost, again)
    case Save(graceS, republishS) =>
      Effect(l.(cfg := l.cfg.(graceS := graceS, republishS := republishS)), false, false)
    case Start(t) => Effect(l.(started := true, republishedAt := t), false, false)
  }

  /** The bridge's stream handling as written: one record, 32-bit times. `lost` and `republish`
      stand for the calls out: sk_lost() after the lock is released, publishing within it. */
  class Bridge {
    var cfg: Settings
    var started: bool
    var connectedOnce: bool
    var down: bool
    var lostFired: bool
    var downSinceMs: Word
    var republishedAtMs: Word
    ghost var downSince: int
    ghost var republishedAt: int

    ghost predicate Valid()
      reads this
    {
      downSinceMs == Wrap(downSince) && republishedAtMs == Wrap(republishedAt)
    }

    ghost function View(): Link
      reads this
    {
      Link(cfg, started, connectedOnce, down, lostFired, downSince, republishedAt)
    }

    constructor (cfg: Settings)
      ensures Valid() && View() == PowerOn(cfg)
    {
      this.cfg := cfg;
      started, connectedOnce, down, lostFired := false, false, false, false;
      downSinceMs, republishedAtMs, downSince, republishedAt := 0, 0, 0, 0;
    }

    /** sk_bridge_start publishes everything, then marks the bridge started. */
    method Start(t: int)
      requires Valid()
      modifies this
      ensures Valid() && Effect(View(), false, false) == Handle(old(View()), Event.Start(t))
    {
      republishedAtMs, republishedAt := Wrap(t), t;
      started := true;
    }

    method StreamChanged(connected: bool, t: int) returns (republish: bool)
      requires Valid()
      modifies this
      ensures Valid() && Effect(View(), false, republish) == Handle(old(View()), Stream(connected, t))
    {
      republish := false;
      if connected {
        connectedOnce := true;
        down := false;
        if started {
          republish := true;
          republishedAtMs, republishedAt := Wrap(t), t;
        }
      } else if connectedOnce && !down {
        down := true;
        lostFired := false;
        downSinceMs, downSince := Wrap(t), t;
      }
    }

    method OnTick(t0: int, t1: int, t2: int) returns (lost: bool, republish: bool)
      requires Valid()
      modifies this
      ensures Valid() && Effect(View(), lost, republish) == Handle(old(View()), Tick(t0, t1, t2))
    {
      lost := down && !lostFired && cfg.published && Elapsed(Wrap(t0), downSinceMs) >= cfg.graceS * 1000;
      if lost {
        lostFired := true;
      }
      var everyMs := cfg.republishS * 1000;
      republish := false;
      if started && connectedOnce && !down && everyMs != 0 && Elapsed(Wrap(t1), republishedAtMs) >= everyMs {
        republish := true;
        republishedAtMs, republishedAt := Wrap(t2), t2;
      }
    }
  }

  // --------------------------------------------------------------------- runs

  function At(l: Link, es: seq<Event>, k: nat): Link
    requires k <= |es|
  {
    if k == 0 then l else Handle(At(l, es, k - 1), es[k - 1]).link
  }

  function EndOf(e: Event): int {
    match e
    case Stream(_, t) => t
    case Tick(_, _, t2) => t2
    case Save(_, _) => 0
    case Start(t) => t
  }

  function StartOf(e: Event): int {
    match e
    case Stream(_, t) => t
    case Tick(t0, _, _) => t0
    case Save(_, _) => 0
    case Start(t) => t
  }

  /** Stream events and ticks carry non-decreasing times. */
  predicate InOrder(es: seq<Event>) {
    && (forall k :: 0 <= k < |es| && es[k].Tick? ==> es[k].t0 <= es[k].t1 <= es[k].t2)
    && (forall j, k :: 0 <= j < k < |es| && !es[j].Save? && !es[k].Save? ==> EndOf(es[j]) <= StartOf(es[k]))
  }

  predicate Fires(l: Link, es: seq<Event>, k: nat)
    requires k < |es|
  {
    Handle(At(l, es, k), es[k]).lost
  }

  /** Event `j` is the loss of the stream that began the outage still lasting at `k`, and
      SignalK has not been reported lost since. */
  predicate OutageSince(l: Link, es: seq<Event>, j: nat, k: nat)
    requires k <= |es|
  {
    && j < k && es[j].Stream? && !es[j].connected
    && At(l, es, j).connectedOnce && !At(l, es, j).down
    && At(l, es, k).downSince == es[j].t
    && (forall i :: j < i < k ==> !(es[i].Stream? && es[i].connected))
  }

  /** A stream that is down went down at some event of the run. */
  lemma {:induction false} DownHasOutage(l: Link, es: seq<Event>, k: nat) returns (j: nat)
    requires k <= |es| && !l.down && At(l, es, k).down
    ensures OutageSince(l, es, j, k)
    ensures !At(l, es, k).lostFired ==> forall i :: j < i < k ==> !Fires(l, es, i)
  {
    var before := At(l, es, k - 1);
    if before.down {
      j := DownHasOutage(l, es, k - 1);
    } else {
      j := k - 1;
    }
  }

  /** SignalK is reported lost only after a connection was lost, once per outage, and only when
      it has been down for the whole grace period in true time. */
  lemma LostOncePerOutage(l: Link, es: seq<Event>, k: nat) returns (j: nat)
    requires !l.down && InOrder(es) && k < |es| && Fires(l, es, k)
    ensures OutageSince(l, es, j, k)
    ensures forall i :: j < i < k ==> !Fires(l, es, i)
    ensures es[k].t0 - es[j].t >= At(l, es, k).cfg.graceS * 1000
  {
    j := DownHasOutage(l, es, k);
    ElapsedBound(es[k].t0, es[j].t);
  }

  // ------------------------------------------------ what the events say of the stream

  predicate Connects(e: Event) {
    e.Stream? && e.connected
  }

  predicate Disconnects(e: Event) {
    e.Stream? && !e.connected
  }

  /** The stream has been up before event `k`. */
  predicate EverUp(es: seq<Event>, k: nat)
    requires k <= |es|
  {
    k > 0 && (Connects(es[k - 1]) || EverUp(es, k - 1))
  }

  /** The last news of the stream before event `k` was that it is up. */
  predicate Up(es: seq<Event>, k: nat)
    requires k <= |es|
  {
    k > 0 && (Connects(es[k - 1]) || (!Disconnects(es[k - 1]) && Up(es, k - 1)))
  }

  predicate HasStarted(es: seq<Event>, k: nat)
    requires k <= |es|
  {
    exists m :: 0 <= m < k && es[m].Start?
  }

  /** The settings in force at event `k`. */
  function SettingsAt(cfg: Settings, es: seq<Event>, k: nat): Settings
    requires k <= |es|
  {
    if k == 0 then cfg
    else if es[k - 1].Save? then
      SettingsAt(cfg, es, k - 1).(graceS := es[k - 1].graceS, republishS := es[k - 1].republishS)
    else SettingsAt(cfg, es, k - 1)
  }

  /** The record is what the events say: from power-on it is down exactly when the stream has been up
      and the last news of it is that it is not. */
  lemma {:induction false} RecordFollowsEvents(cfg: Settings, es: seq<Event>, k: nat)
    requires k <= |es|
    ensures var l := At(PowerOn(cfg), es, k);
            && l.connectedOnce == EverUp(es, k) && l.down == (EverUp(es, k) && !Up(es, k))
            && l.started == HasStarted(es, k) && l.cfg == SettingsAt(cfg, es, k)
  {
    if k > 0 {
      RecordFollowsEvents(cfg, es, k - 1);
      assert es[k - 1].Start? ==> HasStarted(es, k);
      assert HasStarted(es, k - 1) ==> HasStarted(es, k);
    }
  }

  // ------------------------------------------------------- every outage is reported

  /** How often SignalK is reported lost by the events from `j` up to `k`. */
  function Reports(l: Link, es: seq<Event>, j: nat, k: nat): nat
    requires j <= k <= |es|
    decreases k - j
  {
    if j == k then 0 else Reports(l, es, j, k - 1) + if Fires(l, es, k - 1) then 1 else 0
  }

  /** While the outage that began at `j` lasts, it is on record, and one report of it at most is out. */
  lemma {:induction false} OutageOnRecord(cfg: Settings, es: seq<Event>, j: nat, k: nat)
    requires j < k <= |es| && Disconnects(es[j]) && Up(es, j)
    requires forall m :: j < m < k ==> !Connects(es[m])
    ensures var l := At(PowerOn(cfg), es, k);
            && l.down && l.downSince == es[j].t
            && Reports(PowerOn(cfg), es, j + 1, k) == if l.lostFired then 1 else 0
  {
    if k == j + 1 {
      RecordFollowsEvents(cfg, es, j);
      UpWasUp(es, j);
    } else {
      OutageOnRecord(cfg, es, j, k - 1);
    }
  }

  lemma {:induction false} UpWasUp(es: seq<Event>, k: nat)
    requires k <= |es| && Up(es, k)
    ensures EverUp(es, k)
  {
    if !Connects(es[k - 1]) {
      UpWasUp(es, k - 1);
    }
  }

  /** Every outage is reported, and once: from power-on, a stream that was up and is lost at `j`, and
      not back by `k`, has been reported lost exactly once by the end of a tick `k` between the grace
      period and 2^32 ms later, with a tree published. */
  lemma OutageIsReported(cfg: Settings, es: seq<Event>, j: nat, k: nat)
    requires InOrder(es) && j < k < |es| && Disconnects(es[j]) && Up(es, j) && es[k].Tick?
    requires forall m :: j < m < k ==> !Connects(es[m])
    requires cfg.published && 0 <= SettingsAt(cfg, es, k).graceS
    requires SettingsAt(cfg, es, k).graceS * 1000 <= es[k].t0 - es[j].t < WORD
    ensures Reports(PowerOn(cfg), es, j + 1, k + 1) == 1
  {
    hide Handle;
    OutageOnRecord(cfg, es, j, k);
    OutageOnRecord(cfg, es, j, k + 1);
    RecordFollowsEvents(cfg, es, k);
    PublishedStays(cfg, es, k);
    LostIsReported(At(PowerOn(cfg), es, k), es[k].t0, es[k].t1, es[k].t2);
    assert At(PowerOn(cfg), es, k + 1) == Handle(At(PowerOn(cfg), es, k), es[k]).link;
  }

  lemma {:induction false} PublishedStays(cfg: Settings, es: seq<Event>, k: nat)
    requires k <= |es|
    ensures SettingsAt(cfg, es, k).published == cfg.published
  {
    if k > 0 {
      PublishedStays(cfg, es, k - 1);
    }
  }

  /** And it is reported: at any tick of an outage between the grace period and 2^32 ms, with a
      tree published, SignalK has been reported lost by the end of the tick. */
  lemma LostIsReported(l: Link, t0: int, t1: int, t2: int)
    requires l.down && l.cfg.published && l.cfg.graceS * 1000 <= t0 - l.downSince < WORD && 0 <= l.cfg.graceS
    ensures Handle(l, Tick(t0, t1, t2)).link.lostFired
    ensures Handle(l, Tick(t0, t1, t2)).lost <==> !l.lostFired
  {
    ElapsedBound(t0, l.downSince);
  }

  // ------------------------------------------------------------- republishing

  /** When everything was last published before event `k`: at start, or again since. */
  function PublishedAt(cfg: Settings, es: seq<Event>, k: nat): int
    requires k <= |es|
  {
    if k == 0 then 0
    else if es[k - 1].Start? || Handle(At(PowerOn(cfg), es, k - 1), es[k - 1]).republish then EndOf(es[k - 1])
    else PublishedAt(cfg, es, k - 1)
  }

  lemma {:induction false} PublishedOnRecord(cfg: Settings, es: seq<Event>, k: nat)
    requires k <= |es|
    ensures At(PowerOn(cfg), es, k).republishedAt == PublishedAt(cfg, es, k)
  {
    if k > 0 {
      PublishedOnRecord(cfg, es, k - 1);
    }
  }

  /** When everything is published again: once started, at every connection, and at every tick that
      finds the stream up and the interval over, on the 32-bit clock, since it last was. */
  lemma RepublishIff(cfg: Settings, es: seq<Event>, k: nat)
    requires k < |es|
    ensures var every := SettingsAt(cfg, es, k).republishS * 1000;
            Handle(At(PowerOn(cfg), es, k), es[k]).republish
            <==> HasStarted(es, k)
                 && (Connects(es[k])
                     || (es[k].Tick? && Up(es, k) && every != 0
                         && Elapsed(Wrap(es[k].t1), Wrap(PublishedAt(cfg, es, k))) >= every))
  {
    RecordFollowsEvents(cfg, es, k);
    PublishedOnRecord(cfg, es, k);
    if Up(es, k) {
      UpWasUp(es, k);
    }
  }

  lemma {:induction false} PublishedInPast(cfg: Settings, es: seq<Event>, k: nat)
    requires InOrder(es) && k < |es| && !es[k].Save? && HasStarted(es, k)
    ensures PublishedAt(cfg, es, k) <= StartOf(es[k])
  {
    hide Handle;
    var m :| 0 <= m < k && es[m].Start?;
    PublishedBy(cfg, es, k, m, StartOf(es[k]));
  }

  lemma {:induction false} PublishedBy(cfg: Settings, es: seq<Event>, k: nat, m: nat, t: int)
    requires m < k <= |es| && es[m].Start?
    requires forall n :: 0 <= n < k && !es[n].Save? ==> EndOf(es[n]) <= t
    ensures PublishedAt(cfg, es, k) <= t
  {
    SaveRepublishesNothing(At(PowerOn(cfg), es, k - 1), es[k - 1]);
    hide Handle;
    if m < k - 1 {
      PublishedBy(cfg, es, k - 1, m, t);
    }
  }

  lemma SaveRepublishesNothing(l: Link, e: Event)
    ensures e.Save? ==> !Handle(l, e).republish
  {
  }

  /** In true time: with the stream up, a tick publishes everything again only a whole interval after it
      last was published, and does so if that is less than 2^32 ms ago. */
  lemma RepublishEveryInterval(cfg: Settings, es: seq<Event>, k: nat)
    requires InOrder(es) && k < |es| && es[k].Tick? && HasStarted(es, k) && Up(es, k)
    requires SettingsAt(cfg, es, k).republishS > 0
    ensures var every, age := SettingsAt(cfg, es, k).republishS * 1000, es[k].t1 - PublishedAt(cfg, es, k);
            var again := Handle(At(PowerOn(cfg), es, k), es[k]).republish;
            && (again ==> age >= every)
            && (every <= age < WORD ==> again)
  {
    hide Handle;
    RepublishIff(cfg, es, k);
    PublishedInPast(cfg, es, k);
    ElapsedBound(es[k].t1, PublishedAt(cfg, es, k));
  }

  /** Nothing is ever republished to a server that is not there. */
  lemma RepublishOnlyWhileUp(l: Link, e: Event)
    requires Handle(l, e).republish
    ensures Handle(l, e).link.started && Handle(l, e).link.connectedOnce && !Handle(l, e).link.down
  {
  }
}
