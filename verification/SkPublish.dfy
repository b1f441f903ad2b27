/** Publishing relay states to SignalK. Relays change under relay control's lock; listeners run
    after it is released, on any task, and publish under the bridge's own lock. Every
    interleaving of commits, notifications and full republishes is a run of the steps below. */
module SkPublish {
  import opened Board
  import opened RelaySpec
  import opened RelayRuns
  import opened RelayEvents

  const TREES: int := 2

  type Tree = t: int | 0 <= t < TREES witness 0

  /** Who holds the bridge's lock. `Locked` has not read the relays yet; the publishing holders
      carry what they read and how far they got. */
  datatype Holder =
    | Free
    | Locked(channel: Channel)
    | Notifying(channel: Channel, on: bool, tree: nat)
    | LockedAll(starting: bool)
    | Republishing(snap: Mask, tree: nat, next: nat, starting: bool)

  /** `reported` is relay control's reported mask, `outstanding` the listener calls owed and not
      yet holding the lock, `published` the last value sent on each path. */
  datatype Bridge = Bridge(
    trees: set<Tree>, started: bool, reported: Mask, outstanding: multiset<Channel>,
    published: map<(Tree, Channel), bool>, holder: Holder)

  datatype Step =
    | Commit(mask: Mask, events: seq<Event>)
    | TakeLock(channel: Channel)
    | BeginAll(starting: bool)
    | Proceed

  function Channels(evs: seq<Event>): multiset<Channel>
    requires InRange(evs)
  {
    if evs == [] then multiset{} else Channels(evs[..|evs| - 1]) + multiset{evs[|evs| - 1].channel - 1}
  }

  predicate Enabled(b: Bridge, step: Step) {
    match step
    case Commit(mask, events) => Leads(events, b.reported, mask)
    case TakeLock(c) => b.holder == Free && c in b.outstanding
    case BeginAll(starting) => b.holder == Free && starting == !b.started
    case Proceed => b.holder != Free
  }

  /** Publishes channel `c` on tree `t` if that tree is on. */
  function Put(b: Bridge, t: int, c: Channel, on: bool): Bridge
    requires 0 <= t < TREES
  {
    if t in b.trees then b.(published := b.published[(t, c) := on]) else b
  }

  /** The lock holder's next move. */
  function Advance(b: Bridge): Bridge {
    match b.holder
    case Free => b
    case Locked(c) =>
      b.(holder := if b.started then Notifying(c, c in b.reported, 0) else Free)
    case Notifying(c, on, t) =>
      if t < TREES then Put(b, t, c, on).(holder := Notifying(c, on, t + 1)) else b.(holder := Free)
    case LockedAll(starting) =>
      b.(holder := Republishing(b.reported, 0, 0, starting))
    case Republishing(snap, t, c, starting) =>
      if t >= TREES then b.(holder := Free, started := true)
      else if c >= CHANNELS then b.(holder := Republishing(snap, t + 1, 0, starting))
      else Put(b, t, c, c in snap).(holder := Republishing(snap, t, c + 1, starting))
  }

  function Take(b: Bridge, step: Step): Bridge
    requires Enabled(b, step)
  {
    match step
    case Commit(mask, events) => b.(reported := mask, outstanding := b.outstanding + Channels(events))
    case TakeLock(c) => b.(outstanding := b.outstanding - multiset{c}, holder := Locked(c))
    case BeginAll(starting) => b.(holder := LockedAll(starting))
    case Proceed => Advance(b)
  }

  // -------------------------------------------------------------- invariant

  /** A value read for channel `c` is current, or a notification for `c` is still owed. */
  predicate Fresh(b: Bridge, c: Channel, on: bool) {
    on == (c in b.reported) || c in b.outstanding
  }

  /** The lock holder will still publish channel `c` on tree `t`. */
  predicate Coming(b: Bridge, t: Tree, c: Channel) {
    match b.holder
    case Locked(x) => x == c
    case Notifying(x, _, k) => x == c && k <= t
    case _ => false
  }

  /** Channel `c` on tree `t`: up to date, or somebody is still going to publish it. */
  predicate Settled(b: Bridge, t: Tree, c: Channel) {
    || ((t, c) in b.published && Fresh(b, c, b.published[(t, c)]))
    || Coming(b, t, c)
  }

  predicate HolderOk(b: Bridge) {
    match b.holder
    case Free => true
    case Locked(_) => true
    case Notifying(c, on, k) => b.started && Fresh(b, c, on)
    case LockedAll(starting) => starting == !b.started
    case Republishing(snap, t, c, starting) =>
      && starting == !b.started && c <= CHANNELS
      && (forall x: Channel :: Fresh(b, x, x in snap))
      && (forall k: Tree, x: Channel :: k in b.trees && (k < t || (k == t && x < c)) ==>
            (k, x) in b.published && b.published[(k, x)] == (x in snap))
  }

  predicate Inv(b: Bridge) {
    && HolderOk(b)
    && (forall t: Tree, c: Channel :: (t, c) in b.published ==> t in b.trees)
    && (b.started ==> forall t: Tree, c: Channel :: t in b.trees ==> Settled(b, t, c))
  }

  // ------------------------------------------------------------- preservation

  lemma {:induction false} ChannelsOf(evs: seq<Event>, c: Channel)
    requires InRange(evs)
    ensures c in Channels(evs) <==> exists k :: 0 <= k < |evs| && evs[k].channel == c + 1
  {
    if evs != [] {
      var n := |evs| - 1;
      var init := evs[..n];
      ChannelsOf(init, c);
      assert c in Channels(evs) <==> c in Channels(init) || evs[n].channel == c + 1;
      if c in Channels(init) {
        var k :| 0 <= k < |init| && init[k].channel == c + 1;
        assert evs[k].channel == c + 1;
      }
      forall k | 0 <= k < n && evs[k].channel == c + 1 ensures c in Channels(init) {
        assert init[k] == evs[k];
      }
    }
  }

  /** Every flipped channel gets a notification. */
  lemma FlipsAreNotified(b: Bridge, mask: Mask, events: seq<Event>, c: Channel)
    requires Leads(events, b.reported, mask)
    ensures c in Channels(events) || (c in mask <==> c in b.reported)
  {
    ChannelsOf(events, c);
    if c !in Channels(events) {
      UnnamedUnchanged(b.reported, events, c);
    }
  }

  lemma CommitKeeps(b: Bridge, mask: Mask, events: seq<Event>)
    requires Inv(b) && Leads(events, b.reported, mask)
    ensures Inv(Take(b, Commit(mask, events)))
  {
    var r := Take(b, Commit(mask, events));
    forall c: Channel, on: bool | Fresh(b, c, on) ensures Fresh(r, c, on) {
      FlipsAreNotified(b, mask, events, c);
    }
    forall t: Tree, c: Channel | b.started && t in b.trees ensures Settled(r, t, c) {
      assert Settled(b, t, c);
    }
  }

  lemma TakeLockKeeps(b: Bridge, c: Channel)
    requires Inv(b) && b.holder == Free && c in b.outstanding
    ensures Inv(Take(b, TakeLock(c)))
  {
    var r := Take(b, TakeLock(c));
    forall t: Tree, x: Channel | b.started && t in b.trees ensures Settled(r, t, x) {
      assert Settled(b, t, x);
    }
  }

  lemma BeginAllKeeps(b: Bridge, starting: bool)
    requires Inv(b) && b.holder == Free && starting == !b.started
    ensures Inv(Take(b, BeginAll(starting)))
  {
    var r := Take(b, BeginAll(starting));
    forall t: Tree, x: Channel | b.started && t in b.trees ensures Settled(r, t, x) {
      assert Settled(b, t, x);
    }
  }

  lemma AdvanceKeeps(b: Bridge)
    requires Inv(b) && b.holder != Free
    ensures Inv(Advance(b))
  {
    var r := Advance(b);
    forall t: Tree, x: Channel | b.started && t in b.trees ensures Settled(r, t, x) {
      assert Settled(b, t, x);
    }
  }

  lemma StepKeeps(b: Bridge, step: Step)
    requires Inv(b) && Enabled(b, step)
    ensures Inv(Take(b, step)) && Take(b, step).trees == b.trees
  {
    match step
    case Commit(mask, events) => CommitKeeps(b, mask, events);
    case TakeLock(c) => TakeLockKeeps(b, c);
    case BeginAll(starting) => BeginAllKeeps(b, starting);
    case Proceed => AdvanceKeeps(b);
  }

  // --------------------------------------------------------------------- runs

  /** The bridge before it is started: nothing published, nobody in it. */
  predicate Initial(b: Bridge) {
    !b.started && b.holder == Free && b.published == map[]
  }

  predicate Run(states: seq<Bridge>, steps: seq<Step>) {
    && |states| == |steps| + 1
    && Initial(states[0])
    && forall k :: 0 <= k < |steps| ==> Enabled(states[k], steps[k]) && states[k + 1] == Take(states[k], steps[k])
  }

  lemma {:induction false} RunKeeps(states: seq<Bridge>, steps: seq<Step>, k: nat)
    requires Run(states, steps) && k <= |steps|
    ensures Inv(states[k]) && states[k].trees == states[0].trees
  {
    if k > 0 {
      RunKeeps(states, steps, k - 1);
      StepKeeps(states[k - 1], steps[k - 1]);
    }
  }

  /** Convergence: in every state of every interleaving, once started, each channel's last
      published value on each enabled tree is its current reported state, or a notification for
      it is owed or being handled. When nothing is owed and the bridge is idle, all agree. */
  lemma PublishingConverges(states: seq<Bridge>, steps: seq<Step>, k: nat, t: Tree, c: Channel)
    requires Run(states, steps) && k <= |steps| && states[k].started && t in states[0].trees
    ensures Settled(states[k], t, c)
    ensures states[k].outstanding == multiset{} && states[k].holder == Free ==>
              (t, c) in states[k].published && states[k].published[(t, c)] == (c in states[k].reported)
  {
    RunKeeps(states, steps, k);
    assert Settled(states[k], t, c);
  }

  // ------------------------------------------------------------------ progress

  /** Steps the lock holder still has to take. */
  function HolderWork(h: Holder): nat {
    match h
    case Free => 0
    case Locked(_) => TREES + 2
    case Notifying(_, _, t) => if t <= TREES then TREES - t + 1 else 1
    case LockedAll(_) => TREES * (CHANNELS + 1) + 2
    case Republishing(_, t, c, _) =>
      if t >= TREES then 1 else (TREES - t) * (CHANNELS + 1) + 1 - if c <= CHANNELS then c else CHANNELS
  }

  function Work(b: Bridge): nat {
    |b.outstanding| * (TREES + 3) + HolderWork(b.holder)
  }

  /** While no relay changes and no republish begins, every step uses up work, and as long as
      work is left some step is enabled: the owed notifications drain. */
  lemma Drains(b: Bridge)
    requires Inv(b)
    ensures forall c: Channel :: Enabled(b, TakeLock(c)) ==> Work(Take(b, TakeLock(c))) < Work(b)
    ensures Enabled(b, Proceed) ==> Work(Take(b, Proceed)) < Work(b)
    ensures Work(b) > 0 ==> Enabled(b, Proceed) || exists c: Channel :: Enabled(b, TakeLock(c))
    ensures Work(b) == 0 ==> b.outstanding == multiset{} && b.holder == Free
  {
    if b.holder == Free && |b.outstanding| > 0 {
      var c: Channel :| c in b.outstanding;
      assert Enabled(b, TakeLock(c));
    }
    forall c: Channel | Enabled(b, TakeLock(c)) ensures Work(Take(b, TakeLock(c))) < Work(b) {
      assert |b.outstanding - multiset{c}| == |b.outstanding| - 1;
    }
  }

  // ------------------------------------------------------------- what is published

  /** The lock holder's moves up to its letting go, nothing coming between. */
  function Finish(b: Bridge): Bridge
    decreases HolderWork(b.holder)
  {
    if b.holder == Free then b else Finish(Advance(b))
  }

  /** Channel `x` on tree `t` is on record as reported in `snap` where `done` says so, and as before
      elsewhere. */
  predicate RecordsAs(b: Bridge, r: Bridge, done: set<(int, int)>, snap: Mask) {
    && r.trees == b.trees && r.reported == b.reported && r.outstanding == b.outstanding
    && forall t: Tree, x: Channel ::
         if t in b.trees && (t, x) in done then (t, x) in r.published && r.published[(t, x)] == (x in snap)
         else ((t, x) in r.published <==> (t, x) in b.published)
              && ((t, x) in b.published ==> r.published[(t, x)] == b.published[(t, x)])
  }

  /** Paths from channel `c` of tree `t` on. */
  function From(t: nat, c: nat): set<(int, int)> {
    set k: Tree, x: Channel | k > t || (k == t && x >= c) :: (k, x)
  }

  lemma FinishStep(b: Bridge)
    ensures Finish(b) == if b.holder == Free then b else Finish(Advance(b))
  {
  }

  lemma Records(b: Bridge, m: Bridge, r: Bridge, now: set<(int, int)>, later: set<(int, int)>, snap: Mask)
    requires RecordsAs(b, m, now, snap) && RecordsAs(m, r, later, snap)
    ensures RecordsAs(b, r, now + later, snap)
  {
  }

  lemma RepublishStep(b: Bridge)
    requires b.holder.Republishing? && b.holder.tree < TREES && b.holder.next <= CHANNELS
    ensures var h := b.holder;
            RecordsAs(b, Advance(b), if h.next < CHANNELS then {(h.tree, h.next)} else {}, h.snap)
  {
  }

  lemma NotificationStep(b: Bridge)
    requires b.holder.Notifying? && b.holder.tree < TREES
    ensures var h := b.holder;
            RecordsAs(b, Advance(b), {(h.tree, h.channel)}, if h.on then {h.channel} else {})
  {
  }

  lemma {:induction false} RepublishPublishes(b: Bridge)
    requires b.holder.Republishing? && b.holder.next <= CHANNELS && b.holder.tree <= TREES
    ensures var r := Finish(b);
            && r.holder == Free && r.started
            && RecordsAs(b, r, From(b.holder.tree, b.holder.next), b.holder.snap)
    decreases HolderWork(b.holder)
  {
    var h, r := b.holder, Finish(b);
    FinishStep(b);
    if h.tree < TREES {
      var next := Advance(b);
      var here := if h.next < CHANNELS then {(h.tree, h.next)} else {};
      RepublishPublishes(next);
      RepublishStep(b);
      assert From(h.tree, h.next) == here + From(next.holder.tree, next.holder.next);
      hide Finish, Advance, From, RecordsAs;
      Records(b, next, r, here, From(next.holder.tree, next.holder.next), h.snap);
    }
  }

  /** A full publish, when it is done, has put every channel's reported state on every enabled tree, and
      the bridge is started. */
  lemma RepublishPublishesAll(b: Bridge)
    requires b.holder.LockedAll?
    ensures var r := Finish(b);
            && r.holder == Free && r.started
            && forall t: Tree, x: Channel :: t in b.trees ==>
                 (t, x) in r.published && r.published[(t, x)] == (x in b.reported)
  {
    RepublishPublishes(Advance(b));
  }

  lemma {:induction false} NotificationPublishes(b: Bridge)
    requires b.holder.Notifying? && b.holder.tree <= TREES
    ensures var r := Finish(b); var c := b.holder.channel;
            && r.holder == Free && r.started == b.started
            && RecordsAs(b, r, set k: Tree | k >= b.holder.tree :: (k, c), if b.holder.on then {c} else {})
    decreases HolderWork(b.holder)
  {
    var h, r, snap := b.holder, Finish(b), if b.holder.on then {b.holder.channel} else {};
    FinishStep(b);
    if h.tree < TREES {
      var next := Advance(b);
      NotificationPublishes(next);
      NotificationStep(b);
      var rest := set k: Tree | k >= h.tree + 1 :: (k, h.channel);
      assert (set k: Tree | k >= h.tree :: (k, h.channel)) == {(h.tree, h.channel)} + rest;
      hide Finish, Advance, RecordsAs;
      Records(b, next, r, {(h.tree, h.channel)}, rest, snap);
    }
  }

  /** A notification, when it is done, has put its channel's reported state on every enabled tree and
      nothing else anywhere; before the bridge is started it puts nothing. */
  lemma NotificationPublishesIts(b: Bridge)
    requires b.holder.Locked?
    ensures var r := Finish(b); var c := b.holder.channel;
            && r.holder == Free && r.started == b.started
            && RecordsAs(b, r, if b.started then set k: Tree | true :: (k, c) else {}, b.reported)
  {
    if b.started {
      NotificationPublishes(Advance(b));
    }
  }

  // ------------------------------------------- relay operations are commit steps

  /** A relay operation, in any state, is a commit of the reported mask exactly when it is no save
      that rewires a relay without switching its coil. */
  lemma RelayOpCommits(s: State, op: Op, b: Bridge)
    requires b.reported == Reported(s.cfg, s.mask)
    ensures var r := Apply(s, op);
            Enabled(b, Commit(Reported(r.s.cfg, r.s.mask), r.events))
            <==> (op.DoSave? ==> Rewired(s, op.cfg) <= Switched(s, op.cfg, op.e))
  {
    hide Apply, Reported, Leads, Rewired, Switched;
    EventsLeadIff(s, op);
  }
}
