/** CAN transmit slots. The driver keeps a pointer to every queued frame and reads it from its
    interrupt when the frame's turn comes, so each frame handed over lives in a slot until the
    driver is done with it. A transmit runs in several steps; interrupts fall between any two. */
module TxSlots {
  import opened Options
  import opened CanFrame

  /** A frame the driver holds: its slot, and which accepted frame it is. */
  datatype Held = Held(slot: int, serial: nat)
  datatype Sent = Sent(frame: Frame, serial: nat)

  /** Where a transmit is: not running, bits read, claiming a slot, filled, marked, refused. */
  datatype Progress =
    | Idle
    | Looked(frame: Frame, free: set<int>)
    | Reclaiming(frame: Frame)
    | Filled(frame: Frame, slot: int)
    | Marked(frame: Frame, slot: int)
    | Refused(slot: int)

  /** `line` is what the driver holds, oldest first; once `read` is some frame, its head is in
      the controller, which has read that frame. `held` are the slots it holds. `accepted` and
      `wire` are histories; `dropped` says a frame was ever lost silently. */
  datatype Node = Node(
    slots: seq<Slot>, inUse: set<int>, held: set<int>, line: seq<Held>, read: Option<Frame>,
    accepted: seq<Frame>, wire: seq<Sent>, task: Progress, dropped: bool)

  datatype Step =
    | Look(frame: Frame)      // transmit starts and reads the in-use bits
    | CheckIdle               // no free bit: ask whether the driver is idle
    | Reclaim                 // it is: take every slot back
    | FillSlot(slot: int)     // write the frame into the chosen slot
    | Mark                    // set its in-use bit
    | Hand(accept: bool)      // give it to the driver
    | Unmark                  // refused: clear the bit
    | Load                    // interrupt: the oldest frame enters the controller
    | TxDone(success: bool)   // interrupt: the controller is done, on_tx_done clears the bit
    | Drop(index: nat)        // bus-off: a frame is lost without on_tx_done

  predicate Enabled(n: Node, s: Step) {
    match s
    case Look(f) => n.task == Idle && |f.data| <= MAX_DATA
    case CheckIdle => n.task.Looked? && n.task.free == {}
    case Reclaim => n.task.Reclaiming?
    case FillSlot(i) => n.task.Looked? && i in n.task.free
    case Mark => n.task.Filled?
    case Hand(_) => n.task.Marked?
    case Unmark => n.task.Refused?
    case Load => n.line != [] && n.read == None
    case TxDone(_) => n.line != [] && n.read.Some?
    case Drop(k) => k < |n.line|
  }

  predicate IsSlot(count: int, i: int) {
    0 <= i < count
  }

  /** `(1u << count) - 1`: every slot's bit. */
  function All(count: int): set<int> {
    set i | 0 <= i < count && IsSlot(count, i)
  }

  /** The slot a running transmit has claimed, or -1. */
  function Claimed(n: Node): int {
    match n.task
    case Filled(_, i) => i
    case Marked(_, i) => i
    case Refused(i) => i
    case _ => -1
  }

  predicate WellFormed(n: Node) {
    && (forall i :: 0 <= i < |n.slots| ==> SlotOk(n.slots[i]))
    && (forall k :: 0 <= k < |n.line| ==> IsSlot(|n.slots|, n.line[k].slot))
    && (match n.task
        case Looked(f, free) => |f.data| <= MAX_DATA && free <= All(|n.slots|)
        case Reclaiming(f) => |f.data| <= MAX_DATA
        case Filled(_, i) => IsSlot(|n.slots|, i)
        case Marked(_, i) => IsSlot(|n.slots|, i)
        case Refused(i) => IsSlot(|n.slots|, i)
        case Idle => true)
  }

  /** The driver lets go of the frame at `k`. */
  function Release(n: Node, k: nat): Node
    requires k < |n.line|
  {
    n.(line := n.line[..k] + n.line[k + 1..], held := n.held - {n.line[k].slot},
       read := if k == 0 then None else n.read)
  }

  /** on_tx_done: the head's slot is free again. */
  function Done(n: Node): Node
    requires n.line != []
  {
    Release(n, 0).(inUse := n.inUse - {n.line[0].slot})
  }

  function Take(n: Node, s: Step): Node
    requires WellFormed(n) && Enabled(n, s)
  {
    match s
    case Look(f) => n.(task := Looked(f, All(|n.slots|) - n.inUse))
    case CheckIdle => n.(task := if n.line == [] then Reclaiming(n.task.frame) else Idle)
    case Reclaim => n.(inUse := {}, task := Looked(n.task.frame, All(|n.slots|)))
    case FillSlot(i) => n.(slots := n.slots[i := Fill(n.slots[i], n.task.frame)], task := Filled(n.task.frame, i))
    case Mark => n.(inUse := n.inUse + {n.task.slot}, task := Marked(n.task.frame, n.task.slot))
    case Hand(accept) =>
      if accept then
        n.(line := n.line + [Held(n.task.slot, |n.accepted|)], held := n.held + {n.task.slot},
           accepted := n.accepted + [n.task.frame], task := Idle)
      else n.(task := Refused(n.task.slot))
    case Unmark => n.(inUse := n.inUse - {n.task.slot}, task := Idle)
    case Load => n.(read := Some(ReadOut(n.slots[n.line[0].slot])))
    case TxDone(success) =>
      if success then Done(n).(wire := n.wire + [Sent(n.read.value, n.line[0].serial)]) else Done(n)
    case Drop(k) => Release(n, k).(dropped := true)
  }

  // ---------------------------------------------------------------- invariant

  /** The frame at `k`: its slot is in use, not claimed by a transmit, and holds the frame that
      was accepted. */
  predicate HeldSafely(n: Node, k: nat)
    requires WellFormed(n) && k < |n.line|
  {
    var h := n.line[k];
    && h.slot in n.held && h.slot in n.inUse && h.slot != Claimed(n)
    && h.serial < |n.accepted| && ReadOut(n.slots[h.slot]) == n.accepted[h.serial]
    && (k == 0 && n.read.Some? ==> n.read.value == n.accepted[h.serial])
  }

  /** Slots along the line are all different, serial numbers grow along wire and line. */
  predicate Ordered(n: Node) {
    && (forall j, k :: 0 <= j < k < |n.line| ==>
          n.line[j].slot != n.line[k].slot && n.line[j].serial < n.line[k].serial)
    && (forall j, k :: 0 <= j < k < |n.wire| ==> n.wire[j].serial < n.wire[k].serial)
    && (forall j, k :: 0 <= j < |n.wire| && 0 <= k < |n.line| ==> n.wire[j].serial < n.line[k].serial)
    && (forall k :: 0 <= k < |n.wire| ==>
          n.wire[k].serial < |n.accepted| && n.wire[k].frame == n.accepted[n.wire[k].serial])
  }

  predicate TaskSafe(n: Node)
    requires WellFormed(n)
  {
    match n.task
    case Looked(_, free) => free !! n.held
    case Reclaiming(_) => n.line == []
    case Filled(f, i) => i !in n.held && ReadOut(n.slots[i]) == f
    case Marked(f, i) => i !in n.held && i in n.inUse && ReadOut(n.slots[i]) == f
    case Refused(i) => i !in n.held
    case Idle => true
  }

  /** Until a frame is dropped, the bits in use are exactly the slots held or being handed over. */
  predicate NoLeak(n: Node) {
    !n.dropped ==>
      n.inUse == n.held + (if n.task.Marked? || n.task.Refused? then {n.task.slot} else {})
  }

  predicate Inv(n: Node) {
    && WellFormed(n)
    && (forall k :: 0 <= k < |n.line| ==> HeldSafely(n, k))
    && |n.held| == |n.line| && n.held <= n.inUse <= All(|n.slots|) && (n.read.Some? ==> n.line != [])
    && Ordered(n) && TaskSafe(n)
    && (n.task.Refused? ==> n.task.slot in n.inUse)
    && NoLeak(n)
  }

  // ------------------------------------------------------------- preservation

  lemma LookKeeps(n: Node, s: Step)
    requires Inv(n) && Enabled(n, s) && (s.Look? || s.CheckIdle? || s.Reclaim?)
    ensures Inv(Take(n, s))
  {
    var r := Take(n, s);
    if s.Reclaim? {
      assert n.held == {};
    }
    forall k | 0 <= k < |r.line| ensures HeldSafely(r, k) {
      assert HeldSafely(n, k);
    }
  }

  lemma MarkKeeps(n: Node)
    requires Inv(n) && Enabled(n, Mark)
    ensures Inv(Take(n, Mark))
  {
    var r := Take(n, Mark);
    assert IsSlot(|n.slots|, n.task.slot);
    forall k | 0 <= k < |r.line| ensures HeldSafely(r, k) {
      assert HeldSafely(n, k);
    }
  }

  lemma UnmarkKeeps(n: Node)
    requires Inv(n) && Enabled(n, Unmark)
    ensures Inv(Take(n, Unmark))
  {
    var r := Take(n, Unmark);
    forall k | 0 <= k < |r.line| ensures HeldSafely(r, k) {
      assert HeldSafely(n, k);
    }
  }

  lemma FillKeeps(n: Node, i: int)
    requires Inv(n) && Enabled(n, FillSlot(i))
    ensures Inv(Take(n, FillSlot(i)))
  {
    var r := Take(n, FillSlot(i));
    assert IsSlot(|n.slots|, i);
    FillReadsBack(n.slots[i], n.task.frame);
    forall k | 0 <= k < |r.line| ensures IsSlot(|r.slots|, r.line[k].slot) {
      assert IsSlot(|n.slots|, n.line[k].slot);
    }
    forall k | 0 <= k < |r.line| ensures HeldSafely(r, k) {
      assert HeldSafely(n, k);
    }
  }

  lemma RefuseKeeps(n: Node)
    requires Inv(n) && Enabled(n, Hand(false))
    ensures Inv(Take(n, Hand(false)))
  {
    var r := Take(n, Hand(false));
    forall k | 0 <= k < |r.line| ensures HeldSafely(r, k) {
      assert HeldSafely(n, k);
    }
  }

  lemma AcceptOrders(n: Node)
    requires Inv(n) && Enabled(n, Hand(true))
    ensures Ordered(Take(n, Hand(true)))
  {
    hide NoLeak, All, ReadOut;
    forall k | 0 <= k < |n.line| ensures n.line[k].slot != n.task.slot && n.line[k].serial < |n.accepted| {
      assert HeldSafely(n, k);
    }
  }

  lemma AcceptKeeps(n: Node)
    requires Inv(n) && Enabled(n, Hand(true))
    ensures Inv(Take(n, Hand(true)))
  {
    AcceptOrders(n);
    hide Ordered;
    var r := Take(n, Hand(true));
    var m := |n.line|;
    forall k | 0 <= k < |r.line| ensures IsSlot(|r.slots|, r.line[k].slot) {
      assert k < m ==> IsSlot(|n.slots|, n.line[k].slot);
    }
    forall k | 0 <= k < |r.line| ensures HeldSafely(r, k) {
      assert k < m ==> HeldSafely(n, k);
    }
  }

  lemma LoadKeeps(n: Node)
    requires Inv(n) && Enabled(n, Load)
    ensures Inv(Take(n, Load))
  {
    var r := Take(n, Load);
    forall k | 0 <= k < |r.line| ensures HeldSafely(r, k) {
      assert HeldSafely(n, k);
    }
  }

  /** Letting go of one frame keeps the order and the safety of the others. */
  lemma ReleaseKeeps(n: Node, k: nat)
    requires Inv(n) && k < |n.line|
    ensures var r := Release(n, k);
            && WellFormed(r) && Ordered(r) && TaskSafe(r)
            && |r.held| == |r.line| && r.held <= n.held && n.line[k].slot !in r.held
            && (r.read.Some? ==> r.line != [])
            && (forall j :: 0 <= j < |r.line| ==> HeldSafely(r, j) && r.line[j].slot != n.line[k].slot
                                                  && r.line[j] == n.line[if j < k then j else j + 1])
  {
    var r := Release(n, k);
    assert HeldSafely(n, k);
    forall j | 0 <= j < |r.line|
      ensures r.line[j] == n.line[if j < k then j else j + 1] && IsSlot(|r.slots|, r.line[j].slot)
    {
      assert IsSlot(|n.slots|, n.line[if j < k then j else j + 1].slot);
    }
    forall j | 0 <= j < |r.line| ensures HeldSafely(r, j) && r.line[j].slot != n.line[k].slot {
      assert HeldSafely(n, if j < k then j else j + 1);
    }
  }

  lemma SendKeepsOrder(n: Node, sent: Sent)
    requires Ordered(n) && sent.serial < |n.accepted| && sent.frame == n.accepted[sent.serial]
    requires forall k :: 0 <= k < |n.wire| ==> n.wire[k].serial < sent.serial
    requires forall k :: 0 <= k < |n.line| ==> sent.serial < n.line[k].serial
    ensures Ordered(n.(wire := n.wire + [sent]))
  {
  }

  lemma ClearBitKeeps(n: Node, i: int)
    requires WellFormed(n) && TaskSafe(n)
    requires forall k :: 0 <= k < |n.line| ==> HeldSafely(n, k) && n.line[k].slot != i
    requires Claimed(n) != i
    ensures var r := n.(inUse := n.inUse - {i});
            WellFormed(r) && TaskSafe(r) && forall k :: 0 <= k < |r.line| ==> HeldSafely(r, k)
  {
    var r := n.(inUse := n.inUse - {i});
    forall k | 0 <= k < |r.line| ensures HeldSafely(r, k) {
      assert HeldSafely(n, k);
    }
  }

  lemma HeadFacts(n: Node)
    requires Inv(n) && n.line != [] && n.read.Some?
    ensures var h := n.line[0];
            && h.slot in n.held && h.slot in n.inUse && h.slot != Claimed(n)
            && h.serial < |n.accepted| && n.read.value == n.accepted[h.serial]
            && (forall k :: 0 <= k < |n.wire| ==> n.wire[k].serial < h.serial)
            && (forall k :: 0 < k < |n.line| ==> h.serial < n.line[k].serial)
  {
    assert HeldSafely(n, 0);
  }

  lemma DoneLeaksNothing(n: Node)
    requires Inv(n) && n.line != [] && n.read.Some?
    ensures NoLeak(Done(n)) && Done(n).held <= Done(n).inUse <= All(|n.slots|)
    ensures Done(n).task.Refused? ==> Done(n).task.slot in Done(n).inUse
  {
    HeadFacts(n);
  }

  lemma DoneKeeps(n: Node)
    requires Inv(n) && n.line != [] && n.read.Some?
    ensures Inv(Done(n))
  {
    var q := Release(n, 0);
    var i := n.line[0].slot;
    HeadFacts(n);
    ReleaseKeeps(n, 0);
    DoneLeaksNothing(n);
    hide HeldSafely, Ordered, TaskSafe, WellFormed, NoLeak, All, Claimed;
    ClearBitKeeps(q, i);
    OrderIgnoresBits(q, q.inUse - {i});
    assert Done(n) == q.(inUse := q.inUse - {i});
  }

  lemma RestIsLater(n: Node)
    requires Inv(n) && n.line != []
    ensures forall j :: 0 <= j < |Done(n).line| ==> n.line[0].serial < Done(n).line[j].serial
  {
    forall j | 0 <= j < |Done(n).line| ensures n.line[0].serial < Done(n).line[j].serial {
      assert Done(n).line[j] == n.line[j + 1];
    }
  }

  lemma OrderIgnoresBits(n: Node, bits: set<int>)
    requires Ordered(n)
    ensures Ordered(n.(inUse := bits))
  {
  }

  lemma WireIsHistory(n: Node, wire: seq<Sent>)
    requires Inv(n) && Ordered(n.(wire := wire))
    ensures Inv(n.(wire := wire))
  {
    var r := n.(wire := wire);
    forall k | 0 <= k < |r.line| ensures HeldSafely(r, k) {
      assert HeldSafely(n, k);
    }
  }

  lemma TxDoneKeeps(n: Node, success: bool)
    requires Inv(n) && Enabled(n, TxDone(success))
    ensures Inv(Take(n, TxDone(success)))
  {
    hide HeldSafely, Ordered, TaskSafe, WellFormed, NoLeak;
    DoneKeeps(n);
    if success {
      HeadFacts(n);
      RestIsLater(n);
      var sent := Sent(n.read.value, n.line[0].serial);
      SendKeepsOrder(Done(n), sent);
      WireIsHistory(Done(n), n.wire + [sent]);
    }
  }

  lemma DropKeeps(n: Node, k: nat)
    requires Inv(n) && k < |n.line|
    ensures Inv(Take(n, Drop(k)))
  {
    var r := Take(n, Drop(k));
    var q := Release(n, k);
    ReleaseKeeps(n, k);
    forall j | 0 <= j < |r.line| ensures HeldSafely(r, j) {
      assert HeldSafely(q, j);
    }
  }

  lemma StepKeeps(n: Node, s: Step)
    requires Inv(n) && Enabled(n, s)
    ensures Inv(Take(n, s)) && |Take(n, s).slots| == |n.slots|
  {
    match s
    case Look(_) => LookKeeps(n, s);
    case CheckIdle => LookKeeps(n, s);
    case Reclaim => LookKeeps(n, s);
    case FillSlot(i) => FillKeeps(n, i);
    case Mark => MarkKeeps(n);
    case Hand(accept) =>
      if accept {
        AcceptKeeps(n);
      } else {
        RefuseKeeps(n);
      }
    case Unmark => UnmarkKeeps(n);
    case Load => LoadKeeps(n);
    case TxDone(success) => TxDoneKeeps(n, success);
    case Drop(k) => DropKeeps(n, k);
  }

  // --------------------------------------------------------------------- runs

  predicate Initial(n: Node) {
    && 0 < |n.slots| <= 32 && (forall i :: 0 <= i < |n.slots| ==> SlotOk(n.slots[i]))
    && n.inUse == {} && n.held == {} && n.line == [] && n.read == None
    && n.accepted == [] && n.wire == [] && n.task == Idle && !n.dropped
  }

  predicate Run(states: seq<Node>, steps: seq<Step>) {
    && |states| == |steps| + 1
    && Initial(states[0])
    && forall k :: 0 <= k < |steps| ==>
         WellFormed(states[k]) && Enabled(states[k], steps[k]) && states[k + 1] == Take(states[k], steps[k])
  }

  lemma {:induction false} RunKeeps(states: seq<Node>, steps: seq<Step>, k: nat)
    requires Run(states, steps) && k <= |steps|
    ensures Inv(states[k]) && |states[k].slots| == |states[0].slots|
  {
    if k > 0 {
      RunKeeps(states, steps, k - 1);
      StepKeeps(states[k - 1], steps[k - 1]);
    }
  }

  /** Under every interleaving: a slot the driver holds is marked in use and still contains the
      frame it was given, no two frames share a slot, and the frames on the wire are an in-order
      subsequence of the frames accepted, each as it was handed over. */
  lemma FramesUncorrupted(states: seq<Node>, steps: seq<Step>, k: nat)
    requires Run(states, steps) && k <= |steps|
    ensures var n := states[k];
            && WellFormed(n)
            && (forall q :: 0 <= q < |n.line| ==> HeldSafely(n, q))
            && (forall p, q :: 0 <= p < q < |n.line| ==> n.line[p].slot != n.line[q].slot)
            && (forall w :: 0 <= w < |n.wire| ==>
                  n.wire[w].serial < |n.accepted| && n.wire[w].frame == n.accepted[n.wire[w].serial])
            && (forall v, w :: 0 <= v < w < |n.wire| ==> n.wire[v].serial < n.wire[w].serial)
  {
    RunKeeps(states, steps, k);
  }

  /** The step ends a frame without it having been sent: the driver failed or dropped it. */
  predicate Loses(s: Step) {
    s.Drop? || s == TxDone(false)
  }

  function Lost(steps: seq<Step>, k: nat): nat
    requires k <= |steps|
  {
    if k == 0 then 0 else Lost(steps, k - 1) + if Loses(steps[k - 1]) then 1 else 0
  }

  function Seen(n: Node): nat {
    |n.wire| + |n.line|
  }

  predicate AllThere(n: Node) {
    && (forall w :: 0 <= w < |n.wire| ==> n.wire[w].serial == w)
    && (forall q :: 0 <= q < |n.line| ==> n.line[q].serial == |n.wire| + q)
  }

  lemma AccountStep(n: Node, s: Step)
    requires WellFormed(n) && Enabled(n, s)
    ensures var r := Take(n, s);
            && |r.accepted| - Seen(r) == |n.accepted| - Seen(n) + (if Loses(s) then 1 else 0)
            && (AllThere(n) && Seen(n) == |n.accepted| && !Loses(s) ==> AllThere(r))
  {
    hide WellFormed;
  }

  /** No frame vanishes or doubles: every one accepted is on the wire, with the driver, or was reported
      failed or dropped; and as long as none was, the wire has exactly the frames accepted first, in order,
      and the driver the others. */
  lemma {:induction false} FramesAccounted(states: seq<Node>, steps: seq<Step>, k: nat)
    requires Run(states, steps) && k <= |steps|
    ensures |states[k].wire| + |states[k].line| + Lost(steps, k) == |states[k].accepted|
    ensures Lost(steps, k) == 0 ==> AllThere(states[k])
  {
    hide WellFormed, Enabled, Take, Loses, AllThere;
    if k > 0 {
      FramesAccounted(states, steps, k - 1);
      AccountStep(states[k - 1], steps[k - 1]);
    } else {
      NothingYet(states[0]);
    }
  }

  lemma NothingYet(n: Node)
    requires Initial(n)
    ensures AllThere(n)
  {
  }

  /** A transmit gives up for want of a slot only while the driver holds a frame; and as long as
      no frame was ever dropped silently, only if every slot was held when it looked. */
  lemma NoSlotMeansBusy(states: seq<Node>, steps: seq<Step>, k: nat)
    requires Run(states, steps) && k < |steps|
    ensures steps[k] == CheckIdle && states[k + 1].task == Idle ==> states[k].line != []
    ensures steps[k].Look? && states[k + 1].task.free == {} && !states[k].dropped ==>
              |states[k].line| == |states[k].slots|
  {
    RunKeeps(states, steps, k);
    var n := states[k];
    if steps[k].Look? && states[k + 1].task.free == {} && !n.dropped {
      assert All(|n.slots|) == n.inUse == n.held;
      AllCount(n, |n.slots|);
    }
  }

  lemma {:induction false} AllCount(n: Node, m: nat)
    requires m <= |n.slots|
    ensures |set i | 0 <= i < m && IsSlot(|n.slots|, i)| == m
    ensures m == |n.slots| ==> |All(|n.slots|)| == m
  {
    var s := set i | 0 <= i < m && IsSlot(|n.slots|, i);
    if m > 0 {
      AllCount(n, m - 1);
      assert s == (set i | 0 <= i < m - 1 && IsSlot(|n.slots|, i)) + {m - 1};
    }
    if m == |n.slots| {
      assert All(|n.slots|) == s;
    }
  }

  /** Slots lost at a bus-off come back: with an idle driver a transmit always ends up with a
      slot to choose, if need be by reclaiming every one. */
  lemma IdleDriverHasSlots(n: Node, f: Frame)
    requires Inv(n) && n.task == Idle && n.line == [] && |f.data| <= MAX_DATA && |n.slots| > 0
    ensures var looked := Take(n, Look(f));
            looked.task.free == {} ==>
              && WellFormed(looked) && Enabled(looked, CheckIdle)
              && var checked := Take(looked, CheckIdle);
              && WellFormed(checked) && Enabled(checked, Reclaim)
              && Take(checked, Reclaim).task == Looked(f, All(|n.slots|)) && All(|n.slots|) != {}
  {
    assert IsSlot(|n.slots|, 0);
    assert 0 in All(|n.slots|);
    var looked := Take(n, Look(f));
    StepKeeps(n, Look(f));
    if looked.task.free == {} {
      StepKeeps(looked, CheckIdle);
      assert |Take(looked, CheckIdle).slots| == |n.slots|;
    }
  }

  // ------------------------------------------------------------ the code itself

  datatype Error = Ok | InvalidState | InvalidArg | NoMem | DriverRefused

  /** A transmit from its free slot to the end, no interrupt falling into it. */
  ghost function HandedOver(n: Node, idx: int, accept: bool): Node
    requires Inv(n) && n.task.Looked? && idx in n.task.free
  {
    StepKeeps(n, FillSlot(idx));
    var a := Take(n, FillSlot(idx));
    StepKeeps(a, Mark);
    var b := Take(a, Mark);
    StepKeeps(b, Hand(accept));
    var c := Take(b, Hand(accept));
    if accept then c else Take(c, Unmark)
  }

  lemma HandOverKeeps(n: Node, idx: int, accept: bool)
    requires Inv(n) && n.task.Looked? && idx in n.task.free
    ensures var r, f := HandedOver(n, idx, accept), n.task.frame;
            && Inv(r) && r.task == Idle && |f.data| <= MAX_DATA && 0 <= idx < |n.slots| && SlotOk(n.slots[idx])
            && r.slots == n.slots[idx := Fill(n.slots[idx], f)]
            && r.inUse == (if accept then n.inUse + {idx} else n.inUse + {idx} - {idx})
            && r.accepted == n.accepted + (if accept then [f] else [])
            && r.line == n.line + (if accept then [Held(idx, |n.accepted|)] else [])
  {
    hide HeldSafely, Ordered, NoLeak, TaskSafe, Fill;
    var a := Take(n, FillSlot(idx));
    StepKeeps(n, FillSlot(idx));
    var b := Take(a, Mark);
    StepKeeps(a, Mark);
    var c := Take(b, Hand(accept));
    StepKeeps(b, Hand(accept));
    if !accept {
      StepKeeps(c, Unmark);
    }
  }

  /** TwaiNode's slots and bits, changed in place; `node` follows the steps taken. `transmit` is
      shown here without interrupts falling into it; the runs above add them. */
  class TwaiNode {
    const slots: array<Slot>
    var inUse: set<int>
    var open: bool
    ghost var node: Node

    ghost predicate Valid()
      reads this, slots
    {
      Inv(node) && slots[..] == node.slots && inUse == node.inUse && node.task == Idle && slots.Length > 0
    }

    constructor (depth: nat)
      requires 0 < depth <= 32
      ensures Valid() && fresh(slots) && slots.Length == depth && Initial(node) && open
    {
      slots := new Slot[depth](_ => Slot(0, false, false, 0, seq(MAX_DATA, _ => 0)));
      inUse, open := {}, true;
      new;
      node := Node(slots[..], {}, {}, [], None, [], [], Idle, false);
    }

    /** The lowest clear bit, or -1. */
    method LowestFree() returns (idx: int)
      ensures idx == -1 ==> forall i :: 0 <= i < slots.Length ==> i in inUse
      ensures idx != -1 ==> 0 <= idx < slots.Length && idx !in inUse && forall i :: 0 <= i < idx ==> i in inUse
    {
      idx := 0;
      while idx < slots.Length && idx in inUse
        invariant 0 <= idx <= slots.Length
        invariant forall i :: 0 <= i < idx ==> i in inUse
      {
        idx := idx + 1;
      }
      if idx == slots.Length {
        idx := -1;
      }
    }

    method Transmit(f: Frame, driverIdle: bool, accept: bool) returns (err: Error, idx: int)
      requires Valid() && driverIdle == (node.line == [])
      modifies this, slots
      ensures Valid()
      ensures err == InvalidState <==> !open
      ensures err == InvalidArg <==> open && |f.data| > MAX_DATA
      ensures err in {InvalidState, InvalidArg, NoMem} ==> node == old(node)
      ensures open == old(open)
      ensures err == NoMem ==> node.line != [] && forall i :: 0 <= i < slots.Length ==> i in inUse
      ensures err in {Ok, DriverRefused} ==>
                && 0 <= idx < slots.Length && idx !in old(node.held)
                && ReadOut(slots[idx]) == f
                && forall i :: 0 <= i < slots.Length && i != idx ==> slots[i] == old(slots[i])
      ensures err == Ok ==> accept && node.accepted == old(node.accepted) + [f]
                            && node.line == old(node.line) + [Held(idx, |old(node.accepted)|)]
      ensures err == DriverRefused ==> !accept && node.accepted == old(node.accepted) && node.line == old(node.line)
    {
      if !open {
        return InvalidState, -1;
      }
      if |f.data| > MAX_DATA {
        return InvalidArg, -1;
      }
      idx := ChooseSlot(f, driverIdle);
      if idx == -1 {
        return NoMem, -1;
      }
      err := HandOver(f, idx, accept);
    }

    /** Finds a free slot, reclaiming all of them from an idle driver if need be; -1 if none. */
    method ChooseSlot(f: Frame, driverIdle: bool) returns (idx: int)
      requires Valid() && driverIdle == (node.line == []) && |f.data| <= MAX_DATA
      modifies this
      ensures Inv(node) && slots[..] == node.slots && inUse == node.inUse && open == old(open)
      ensures node == old(node).(inUse := node.inUse, task := node.task)
      ensures idx == -1 ==> node == old(node) && node.line != [] && forall i :: 0 <= i < slots.Length ==> i in inUse
      ensures idx != -1 ==> node.task.Looked? && node.task.frame == f && idx in node.task.free
      ensures idx != -1 ==> 0 <= idx < slots.Length && idx !in node.held
    {
      hide HeldSafely, Ordered, NoLeak;
      idx := LowestFree();
      StepKeeps(node, Look(f));
      node := Take(node, Look(f));
      if idx == -1 {
        assert node.task.free == {};
        StepKeeps(node, CheckIdle);
        node := Take(node, CheckIdle);
        if !driverIdle {
          return -1;
        }
        StepKeeps(node, Reclaim);
        node := Take(node, Reclaim);
        inUse := {};
        idx := LowestFree();
        assert 0 !in inUse;
      }
      assert IsSlot(|node.slots|, idx) && idx in node.task.free;
    }

    /** Fills the slot, marks it, hands it to the driver, and unmarks it if refused. */
    method HandOver(f: Frame, idx: int, accept: bool) returns (err: Error)
      requires Inv(node) && slots[..] == node.slots && inUse == node.inUse
      requires node.task.Looked? && node.task.frame == f && idx in node.task.free
      requires 0 <= idx < slots.Length && |f.data| <= MAX_DATA
      modifies this, slots
      ensures Valid() && open == old(open)
      ensures ReadOut(slots[idx]) == f
      ensures forall i :: 0 <= i < slots.Length && i != idx ==> slots[i] == old(slots[i])
      ensures err == if accept then Ok else DriverRefused
      ensures node.accepted == old(node.accepted) + (if accept then [f] else [])
      ensures node.line == old(node.line) + (if accept then [Held(idx, |old(node.accepted)|)] else [])
    {
      hide Inv, Take, Enabled, Fill;
      HandOverKeeps(node, idx, accept);
      FillReadsBack(slots[idx], f);
      node := HandedOver(node, idx, accept);
      slots[idx] := Fill(slots[idx], f);
      inUse := inUse + {idx};
      if !accept {
        inUse := inUse - {idx};
      }
      err := if accept then Ok else DriverRefused;
    }

    /** on_tx_done, for the frame the driver hands back. */
    method OnTxDone(idx: int, success: bool)
      requires Valid() && node.line != [] && node.read.Some? && idx == node.line[0].slot
      modifies this
      ensures Valid() && node == Take(old(node), TxDone(success)) && open == old(open)
    {
      StepKeeps(node, TxDone(success));
      node := Take(node, TxDone(success));
      if 0 <= idx < slots.Length {
        inUse := inUse - {idx};
      }
    }
  }
}
