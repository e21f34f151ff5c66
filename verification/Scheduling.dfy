/**
 The scheduler as it runs: one object whose fields every routine updates in place. Each
 routine is proved to do to the whole state what the function of the same name in `Kernel`
 does, and each assertion of the source is proved where it stands, from the invariants that
 hold in every reachable state.
 */
module Scheduling {
  import opened Sequences
  import opened Bitmap
  import opened Kernel
  import opened KernelInvariants
  import opened SchedulerSteps

  class Scheduler {
    const levels: nat
    const capacity: nat
    var tcbs: seq<Tcb>
    var cur: Cur
    var pending: bool
    var ticks: nat
    var lists: map<ListId, seq<TaskId>>
    var bitmap: bv32
    var curDelayed: ListId
    var nextDelayed: ListId
    ghost var clock: nat
    ghost var serial: nat
    ghost var aux: seq<Aux>

    ghost predicate Shape()
      reads this
    {
      1 <= levels <= 32 && IsTimedList(curDelayed) && IsTimedList(nextDelayed) && curDelayed != nextDelayed
    }

    ghost function View(): (k: Kern)
      reads this
    {
      Kern(levels, capacity, tcbs, cur, pending, ticks, lists, Bits(bitmap), curDelayed == DelayedA, clock, serial, aux)
    }

    ghost predicate Valid()
      reads this
    {
      Shape() && KernInv(View())
    }

    constructor (levels: nat, capacity: nat)
      requires 1 <= levels <= 32
      ensures Shape() && this.levels == levels && this.capacity == capacity
      ensures View() == Kern(levels, capacity, [], NoTask, false, 0, map[], {}, true, 0, 0, [])
    {
      this.levels, this.capacity := levels, capacity;
      tcbs, cur, pending, ticks, lists, bitmap := [], NoTask, false, 0, map[], 0;
      curDelayed, nextDelayed := DelayedA, DelayedB;
      clock, serial, aux := 0, 0, [];
      new;
      ZeroIsEmpty(0);
    }

    // ---------------------------------------------------------------- The items of a task

    method AppendState(t: TaskId, l: ListId)
      requires Shape() && t < |tcbs| && tcbs[t].place.None?
      modifies this`tcbs, this`lists
      ensures Shape() && View() == LinkState(old(View()), t, l, |L(old(View()), l)|)
    {
      var xs := Items(lists, l);
      assert InsertAt(xs, |xs|, t) == xs + [t];
      lists := PutItems(lists, l, xs + [t]);
      tcbs := tcbs[t := tcbs[t].(place := Some(l))];
    }

    method InsertStateSorted(t: TaskId, l: ListId)
      requires Shape() && t < |tcbs| && tcbs[t].place.None?
      modifies this`tcbs, this`lists
      ensures Shape()
      ensures var k := old(View());
              View() == LinkState(k, t, l, AscendingPosition(WakeValues(k, L(k, l)), T(k, t).wake))
    {
      var xs := Items(lists, l);
      var i := StatePosition(xs, tcbs[t].wake);
      lists := PutItems(lists, l, InsertAt(xs, i, t));
      tcbs := tcbs[t := tcbs[t].(place := Some(l))];
    }

    /** The ascending scan over the wake ticks of a delayed list. */
    method StatePosition(xs: seq<TaskId>, wake: nat) returns (i: nat)
      ensures i == AscendingPosition(WakeValues(View(), xs), wake)
    {
      hide WakeValues, AscendingPosition, Bits;
      ghost var vs := WakeValues(View(), xs);
      i := 0;
      while i < |xs| && (if xs[i] < |tcbs| then tcbs[xs[i]].wake else 0) <= wake
        invariant 0 <= i <= |xs| && forall j :: 0 <= j < i ==> vs[j] <= wake
      {
        i := i + 1;
      }
      AscendingPositionIs(vs, wake, i);
    }

    /** The descending scan over the event values of a wait list, from the back. */
    method EventPosition(xs: seq<TaskId>, v: nat) returns (i: nat)
      ensures i == DescendingPosition(EventValues(View(), xs), v)
    {
      hide EventValues, DescendingPosition, Bits;
      ghost var vs := EventValues(View(), xs);
      i := |xs|;
      while i > 0 && v > (if xs[i - 1] < |tcbs| then tcbs[xs[i - 1]].evtValue else 0)
        invariant 0 <= i <= |xs| && forall j :: i <= j < |xs| ==> vs[j] < v
        decreases i
      {
        i := i - 1;
      }
      DescendingPositionIs(vs, v, i);
    }

    /** The item is in the list that its container names, as the assertions of the list demand. */
    method RemoveState(t: TaskId)
      requires Shape() && t < |tcbs| && tcbs[t].place.Some? && t in Items(lists, tcbs[t].place.value)
      modifies this`tcbs, this`lists
      ensures Shape() && View() == UnlinkState(old(View()), t)
    {
      var l := tcbs[t].place.value;
      lists := PutItems(lists, l, Remove(Items(lists, l), t));
      tcbs := tcbs[t := tcbs[t].(place := None)];
    }

    /** Sets the event value to the effective priority and inserts the event item in descending order. */
    method InsertEvent(t: TaskId, l: ListId)
      requires Shape() && t < |tcbs| && tcbs[t].evt.None?
      modifies this`tcbs, this`lists, this`aux, this`serial
      ensures Shape() && View() == LinkEvent(old(View()), t, l)
    {
      var xs := Items(lists, l);
      var i := EventPosition(xs, tcbs[t].eff);
      lists := PutItems(lists, l, InsertAt(xs, i, t));
      tcbs := tcbs[t := tcbs[t].(evt := Some(l), evtValue := tcbs[t].eff)];
      if t < |aux| {
        aux := aux[t := aux[t].(queued := serial)];
      }
      serial := serial + 1;
    }

    method RemoveEvent(t: TaskId)
      requires Shape() && t < |tcbs| && tcbs[t].evt.Some? && t in Items(lists, tcbs[t].evt.value)
      modifies this`tcbs, this`lists
      ensures Shape() && View() == UnlinkEvent(old(View()), t)
    {
      var l := tcbs[t].evt.value;
      lists := PutItems(lists, l, Remove(Items(lists, l), t));
      tcbs := tcbs[t := tcbs[t].(evt := None)];
    }

    // ---------------------------------------------------------------- Ready lists

    method InsertReady(t: TaskId)
      requires Shape() && t < |tcbs|
      modifies this`tcbs, this`lists, this`bitmap
      ensures Shape() && View() == Kernel.InsertReady(old(View()), t)
    {
      var p := tcbs[t].eff;
      if p >= levels || tcbs[t].place.Some? {
        return;
      }
      AppendState(t, Ready(p));
      SetBitAdds(bitmap, p);
      bitmap := SetBit(bitmap, p);
    }

    method CheckRunnable(p: nat) returns (b: bool)
      requires p < 32
      ensures b == RunnableAt(View(), p)
    {
      ShiftSeesHigher(bitmap, p);
      b := ShiftRight(bitmap, p) != 0;
    }

    method CurrentPriority() returns (p: nat)
      ensures p == CurEff(View())
    {
      p := if cur.Task? && cur.id < |tcbs| then tcbs[cur.id].eff else 0;
    }

    method ClearLevelIfEmpty(p: nat)
      requires Shape() && p < 32
      modifies this`bitmap
      ensures Shape() && View() == ClearIfEmpty(old(View()), p)
    {
      if Items(lists, Ready(p)) == [] {
        ClearBitRemoves(bitmap, p);
        bitmap := ClearBit(bitmap, p);
      }
    }

    /** Takes the first task of the highest ready level; the invariants make its six assertions true. */
    method PopHighest() returns (t: TaskId)
      requires Valid() && bitmap != 0
      modifies this`tcbs, this`lists, this`bitmap
      ensures Shape() && (View(), Some(t)) == Kernel.PopHighest(old(View()))
    {
      hide KernInv, Bits, Kernel.PopHighest, UnlinkState, ClearIfEmpty, Linked, Placed;
      ZeroIsEmpty(bitmap);
      var p := FindMsb(bitmap);
      InvariantParts(View());
      BitsAreLevels(View(), p);
      assert p < levels && Items(lists, Ready(p)) != [];
      t := Items(lists, Ready(p))[0];
      assert t in Items(lists, Ready(p));
      assert t < |tcbs| && tcbs[t].eff == p && tcbs[t].place == Some(Ready(p));
      PopIs(View(), p);
      BitAfterPop(View(), t, p);
      RemoveState(t);
      ClearLevelIfEmpty(p);
      assert p in View().bitmap <==> L(View(), Ready(p)) != [];
    }

    // ---------------------------------------------------------------- Creation, start and switch

    method Create(argumentsOk: bool, words: nat, prio: nat) returns (status: Status)
      requires Valid()
      modifies this
      ensures Valid() && status == CreateStatus(old(View()), argumentsOk, words, prio)
      ensures View() == if status == Ok then CreateTask(old(View()), prio) else old(View())
      ensures status == Ok <==> argumentsOk && prio < levels && 64 <= words && |old(tcbs)| < capacity
      ensures status == InvalidArgument <==> !argumentsOk || prio >= levels
      ensures status == StackTooSmall <==> argumentsOk && prio < levels && words < 64
      ensures status == TaskLimit <==> argumentsOk && prio < levels && 64 <= words && |old(tcbs)| == capacity
      ensures tcbs == if status == Ok then old(tcbs) + [Tcb(prio, prio, 0, Some(Ready(prio)), 0, None, 0, NoReason)] else old(tcbs)
    {
      hide Linked, Timers, Queued, Placed, Kernel.InsertReady;
      CapacityBound(View());
      if !argumentsOk || prio >= levels {
        return InvalidArgument;
      }
      if words < MIN_STACK_WORDS {
        return StackTooSmall;
      }
      if |tcbs| == capacity {
        return TaskLimit;
      }
      CreateKeeps(View(), prio);
      var running := CurrentPriority();
      var t := |tcbs|;
      tcbs := tcbs + [BLANK_TCB.(base := prio, eff := prio)];
      aux := aux + [Aux(0, 0, 0)];
      InsertReady(t);
      if cur != NoTask && prio > running {
        pending := true;
      }
      return Ok;
    }

    /** Picks the first task to run; false when there is none, or when a task is already running. */
    method Start() returns (started: bool)
      requires Valid()
      modifies this`cur, this`tcbs, this`lists, this`bitmap
      ensures Valid() && View() == StartFirst(old(View()))
      ensures started <==> old(cur) == NoTask && old(View()).bitmap != {}
    {
      hide KernInv, StartFirst, Kernel.PopHighest;
      if cur != NoTask {
        StartElse(View());
        return false;
      }
      StartKeeps(View());
      StartIs(View());
      ZeroIsEmpty(bitmap);
      var runnable := CheckRunnableAny();
      if !runnable {
        return false;
      }
      var t := PopHighest();
      cur := Task(t);
      return true;
    }

    method CheckRunnableAny() returns (b: bool)
      ensures b == (View().bitmap != {}) == (bitmap != 0)
    {
      ZeroIsEmpty(bitmap);
      b := bitmap != 0;
    }

    method RequeueCurrent()
      requires Valid()
      modifies this`tcbs, this`lists, this`bitmap
      ensures Shape() && View() == Requeue(old(View()))
    {
      hide KernInv, Kernel.InsertReady;
      if cur.Task? {
        CurrentExists(View());
        if tcbs[cur.id].place.None? {
          InsertReady(cur.id);
        }
      }
    }

    /** The context switch: the running task goes to the back of its level unless it is linked elsewhere. */
    method SelectNext()
      requires Valid() && cur != NoTask
      modifies this`cur, this`pending, this`tcbs, this`lists, this`bitmap
      ensures Valid() && View() == Kernel.SelectNext(old(View()))
    {
      hide KernInv, Kernel.SelectNext, Kernel.PopHighest, Requeue;
      RequeueKeeps(View());
      SwitchKeeps(View());
      SelectIs(View());
      RequeueCurrent();
      pending := false;
      var runnable := CheckRunnableAny();
      if !runnable {
        cur := Idle;
      } else {
        var t := PopHighest();
        cur := Task(t);
      }
    }

    // ---------------------------------------------------------------- Blocking and unblocking

    /** A wake tick below the present one comes after the wrap, so it goes to the overflow list. */
    method DelayStateItem(t: TaskId)
      requires Shape() && t < |tcbs| == |aux| && tcbs[t].place.None?
      modifies this`tcbs, this`lists, this`aux, this`serial
      ensures Shape() && |tcbs| == |old(tcbs)| && tcbs[t].evt == old(tcbs[t].evt)
      ensures View() == Delayed(old(View()), t)
    {
      hide LinkState, AscendingPosition, WakeValues, Bits;
      var wake := tcbs[t].wake;
      var l := if wake < ticks then nextDelayed else curDelayed;
      assert l == if wake < View().ticks then NextList(View()) else CurList(View());
      InsertStateSorted(t, l);
      aux := aux[t := aux[t].(deadline := clock + Distance(View(), wake), order := serial)];
      serial := serial + 1;
    }

    /** Links the state item where the wake tick puts it: suspended, or delayed before or after the wrap. */
    method BlockStateItem(t: TaskId, wake: nat, infinite: bool)
      requires Shape() && t < |tcbs| == |aux| && tcbs[t].place.None?
      modifies this`tcbs, this`lists, this`aux, this`serial
      ensures Shape() && View() == BlockState(old(View()), t, wake, infinite)
      ensures |tcbs| == |old(tcbs)| && tcbs[t].evt == old(tcbs[t].evt)
    {
      hide LinkState, BlockState, Delayed, Bits;
      SuspendedIs(View(), t, wake);
      DelayedIs(View(), t, wake);
      tcbs := tcbs[t := tcbs[t].(wake := wake)];
      if infinite {
        AppendState(t, Suspended);
      } else {
        DelayStateItem(t);
      }
    }

    /** The caller is a running task that is linked nowhere, as the four assertions of the source demand. */
    method BlockCurrent(wake: nat, waitOn: Option<ListId>, infinite: bool)
      requires Valid() && cur.Task? && cur.id < |tcbs| && tcbs[cur.id].place.None?
      modifies this`tcbs, this`lists, this`aux, this`serial
      ensures Shape() && View() == Kernel.BlockCurrent(old(View()), wake, waitOn, infinite)
    {
      hide KernInv, BlockState, LinkEvent, Bits;
      var t := cur.id;
      InvariantParts(View());
      EventOfUnplaced(View(), t);
      AuxExists(View());
      assert tcbs[t].evt.None?;
      BlockStateItem(t, wake, infinite);
      if waitOn.Some? {
        InsertEvent(t, waitOn.value);
      }
    }

    /** The task is blocked, as the assertion of the source demands, and its items are where their containers say. */
    method Unblock(t: TaskId, reason: Reason)
      requires Shape() && Linked(View()) && t < |tcbs| && Blocked(tcbs[t])
      modifies this`tcbs, this`lists, this`bitmap
      ensures Shape() && View() == Kernel.Unblock(old(View()), t, reason)
    {
      hide UnlinkState, UnlinkEvent, Kernel.InsertReady, Bits, Linked;
      ItemsLinked(View(), t);
      LinkedUnlinkState(View(), t);
      RemoveState(t);
      UnlinkFacts(View(), t);
      ItemsLinked(View(), t);
      if tcbs[t].evt.Some? {
        RemoveEvent(t);
      }
      InsertReady(t);
      tcbs := tcbs[t := tcbs[t].(reason := reason)];
    }

    // ---------------------------------------------------------------- The tick

    /** The defensive loop at the wrap: empties the delayed list that is going out of use. */
    method DrainCurrent()
      requires Shape() && Linked(View())
      modifies this`tcbs, this`lists
      ensures Shape() && View() == Drain(old(View()), L(old(View()), CurList(old(View()))))
    {
      hide Linked, UnlinkState, Bits;
      while Items(lists, curDelayed) != []
        invariant Shape() && Linked(View())
        invariant Drain(View(), L(View(), CurList(View()))) == Drain(old(View()), L(old(View()), CurList(old(View()))))
        decreases |Items(lists, curDelayed)|
      {
        var t := Items(lists, curDelayed)[0];
        DrainStep(View());
        RemoveState(t);
      }
    }

    /** Wakes the tasks at the front of the current delayed list whose tick has come. */
    method WakeDue()
      requires Shape() && Linked(View()) && Placed(View())
      modifies this`tcbs, this`lists, this`bitmap
      ensures Shape() && View() == UnblockAll(old(View()), Due(old(View())), TimedOut)
    {
      hide Linked, Placed, Kernel.Unblock, Bits, Due;
      while Items(lists, curDelayed) != [] && WakeOf(Items(lists, curDelayed)[0]) <= ticks
        invariant Shape() && Linked(View()) && Placed(View())
        invariant UnblockAll(View(), Due(View()), TimedOut) == UnblockAll(old(View()), Due(old(View())), TimedOut)
        decreases |Items(lists, curDelayed)|
      {
        var t := Items(lists, curDelayed)[0];
        DueStep(View());
        Unblock(t, TimedOut);
      }
      DueDone(View());
    }

    function WakeOf(t: TaskId): nat
      reads this
    {
      if t < |tcbs| then tcbs[t].wake else 0
    }

    method Tick()
      requires Valid()
      modifies this
      ensures Valid() && View() == Kernel.Tick(old(View()))
    {
      hide Linked, Placed, TimersWithin, Queued, Due, Drain, UnblockAll, Bits;
      TickKeeps(View());
      AdvanceKeeps(View());
      AdvanceLinked(View());
      ticks := (ticks + 1) % WRAP;
      clock := clock + 1;
      if ticks == 0 {
        DrainCurrent();
        var temp := curDelayed;
        curDelayed := nextDelayed;
        nextDelayed := temp;
      }
      assert View() == Advance(old(View()));
      WakeDue();
      PriorityInRange(old(View()));
      var running := CurrentPriority();
      var runnable := CheckRunnable(running);
      if runnable {
        pending := true;
      }
    }

    // ---------------------------------------------------------------- Priorities

    method IncrementHeld(t: TaskId)
      requires Shape() && t < |tcbs|
      modifies this`tcbs
      ensures Shape() && View() == AddHeld(old(View()), t)
    {
      if tcbs[t].held != 0xFF {
        tcbs := tcbs[t := tcbs[t].(held := tcbs[t].held + 1)];
      }
    }

    method DecrementHeld(t: TaskId)
      requires Shape() && t < |tcbs|
      modifies this`tcbs
      ensures Shape() && View() == DropHeld(old(View()), t)
    {
      if tcbs[t].held != 0 {
        tcbs := tcbs[t := tcbs[t].(held := tcbs[t].held - 1)];
      }
    }

    method LeaveReadyList(t: TaskId)
      requires Shape() && Linked(View()) && t < |tcbs| && tcbs[t].eff < 32
      modifies this`tcbs, this`lists, this`bitmap
      ensures Shape() && Linked(View()) && View() == LeaveReady(old(View()), t)
      ensures |tcbs| == |old(tcbs)| && tcbs[t].evt == old(tcbs[t].evt) && tcbs[t].eff == old(tcbs[t].eff)
    {
      hide UnlinkState, ClearIfEmpty, Bits, Linked;
      var p := tcbs[t].eff;
      ItemsLinked(View(), t);
      LinkedLeaveReady(View(), t);
      if tcbs[t].place == Some(Ready(p)) {
        RemoveState(t);
        ClearLevelIfEmpty(p);
      }
    }

    /** Sets the priority and, for a waiting task, moves its event item to where the new priority belongs. */
    method RequalifyTask(t: TaskId, p: nat)
      requires Shape() && Linked(View()) && t < |tcbs|
      modifies this`tcbs, this`lists, this`aux, this`serial
      ensures Shape() && View() == Requalify(old(View()), t, p)
    {
      hide UnlinkEvent, LinkEvent, Bits, Linked;
      var l := tcbs[t].evt;
      ItemsLinked(View(), t);
      UnlinkFacts(View(), t);
      if l.Some? {
        RemoveEvent(t);
      }
      tcbs := tcbs[t := tcbs[t].(eff := p)];
      if l.Some? {
        InsertEvent(t, l.value);
      }
    }

    /** The assertions of the source are its precondition: a legal priority that is not below the base. */
    method SetEffective(t: TaskId, p: nat) returns (changed: bool)
      requires Valid() && t < |tcbs| && tcbs[t].base <= p < levels
      modifies this`tcbs, this`lists, this`aux, this`serial, this`bitmap
      ensures Valid() && View() == Kernel.SetEffective(old(View()), t, p)
      ensures changed <==> old(tcbs[t].eff) != p
    {
      hide KernInv, Requalify, LeaveReady, Kernel.InsertReady, Bits;
      InvariantParts(View());
      PlacedBounds(View(), t);
      SetEffectiveKeeps(View(), t, p);
      if tcbs[t].eff == p {
        return false;
      }
      var isReady := tcbs[t].place == Some(Ready(tcbs[t].eff));
      LeaveReadyList(t);
      RequalifyTask(t, p);
      if isReady {
        InsertReady(t);
      }
      return true;
    }

    method Inherit(t: TaskId, p: nat)
      requires Valid() && t < |tcbs| && p < levels
      modifies this`tcbs, this`lists, this`aux, this`serial, this`bitmap
      ensures Valid() && View() == Kernel.Inherit(old(View()), t, p)
    {
      hide KernInv, Kernel.SetEffective, Bits;
      InvariantParts(View());
      PlacedBounds(View(), t);
      if tcbs[t].eff < p {
        var _ := SetEffective(t, p);
      }
    }

    /** True when giving up the last mutex lowered the priority. */
    method Relinquish(t: TaskId) returns (changed: bool)
      requires Valid() && t < |tcbs|
      modifies this`tcbs, this`lists, this`aux, this`serial, this`bitmap
      ensures Valid() && View() == Kernel.Relinquish(old(View()), t)
      ensures changed <==> old(tcbs[t].held) == 0 && old(tcbs[t].eff != tcbs[t].base)
    {
      hide KernInv, Kernel.SetEffective, Bits;
      InvariantParts(View());
      PlacedBounds(View(), t);
      if tcbs[t].held != 0 {
        return false;
      }
      changed := SetEffective(t, tcbs[t].base);
    }

    method Disinherit(t: TaskId, required: nat)
      requires Valid() && t < |tcbs|
      modifies this`tcbs, this`lists, this`aux, this`serial, this`bitmap
      ensures Valid() && View() == Kernel.Disinherit(old(View()), t, required)
    {
      hide KernInv, Kernel.SetEffective, Bits;
      InvariantParts(View());
      PlacedBounds(View(), t);
      var p := if required > tcbs[t].base then required else tcbs[t].base;
      if tcbs[t].held == 1 && p < tcbs[t].eff {
        var _ := SetEffective(t, p);
      }
    }
  }

  /** The task in the delayed list that its wake tick selects, with its deadline on record. */
  ghost function Delayed(k: Kern, t: TaskId): Kern {
    var wake := T(k, t).wake;
    var l := if wake < k.ticks then NextList(k) else CurList(k);
    WithAux(LinkState(k, t, l, AscendingPosition(WakeValues(k, L(k, l)), wake)), t,
            A(k, t).(deadline := k.clock + Distance(k, wake), order := k.serial)).(serial := k.serial + 1)
  }

  lemma SuspendedIs(k: Kern, t: TaskId, wake: nat)
    requires t < |k.tcbs|
    ensures var k1 := k.(tcbs := k.tcbs[t := k.tcbs[t].(wake := wake)]);
            BlockState(k, t, wake, true) == LinkState(k1, t, Suspended, |L(k1, Suspended)|)
  {
    hide LinkState;
  }

  lemma DelayedIs(k: Kern, t: TaskId, wake: nat)
    requires t < |k.tcbs|
    ensures var k1 := k.(tcbs := k.tcbs[t := k.tcbs[t].(wake := wake)]);
            BlockState(k, t, wake, false) == Delayed(k1, t)
  {
    hide LinkState, AscendingPosition, WakeValues, WithAux, Items;
    var k1 := WithTask(k, t, T(k, t).(wake := wake));
    assert A(k1, t) == A(k, t) && T(k1, t).wake == wake && CurList(k1) == CurList(k) && NextList(k1) == NextList(k);
  }

  /** After the removal, the bit of the level is set exactly if its list is not empty. */
  lemma BitAfterPop(k: Kern, t: TaskId, p: nat)
    requires p in k.bitmap
    ensures var k1 := ClearIfEmpty(UnlinkState(k, t), p);
            p in k1.bitmap <==> L(k1, Ready(p)) != []
  {
    hide UnlinkState;
  }

  lemma PopIs(k: Kern, p: nat)
    requires p in k.bitmap && p < 32 && (forall b :: b in k.bitmap ==> b <= p) && L(k, Ready(p)) != []
    ensures var t := L(k, Ready(p))[0];
            PopHighest(k) == (ClearIfEmpty(UnlinkState(k, t), p), Some(t))
  {
    hide UnlinkState, ClearIfEmpty;
  }

  lemma InvariantParts(k: Kern)
    requires KernInv(k)
    ensures Linked(k) && Placed(k) && Timers(k) && Queued(k)
  {
  }

  lemma CapacityBound(k: Kern)
    requires KernInv(k)
    ensures |k.tcbs| <= k.capacity
  {
  }

  lemma CurrentExists(k: Kern)
    requires KernInv(k) && k.cur.Task?
    ensures k.cur.id < |k.tcbs|
  {
  }

  lemma AuxExists(k: Kern)
    requires Placed(k)
    ensures |k.aux| == |k.tcbs|
  {
  }

  lemma StartElse(k: Kern)
    requires k.cur != NoTask
    ensures StartFirst(k) == k
  {
  }

  lemma StartIs(k: Kern)
    requires k.cur == NoTask
    ensures k.bitmap == {} ==> StartFirst(k) == k
    ensures Kernel.PopHighest(k).1.Some? ==> StartFirst(k) == Kernel.PopHighest(k).0.(cur := Task(Kernel.PopHighest(k).1.value))
  {
  }

  lemma SelectIs(k: Kern)
    ensures var k1 := Requeue(k).(pending := false);
            && (k1.bitmap == {} ==> Kernel.SelectNext(k) == k1.(cur := Idle))
            && (k1.bitmap != {} && Kernel.PopHighest(k1).1.Some? ==>
                  Kernel.SelectNext(k) == Kernel.PopHighest(k1).0.(cur := Task(Kernel.PopHighest(k1).1.value)))
  {
    hide Requeue, Kernel.PopHighest;
  }

  /** Both items of a task are in the lists that their containers name. */
  lemma ItemsLinked(k: Kern, t: TaskId)
    requires Linked(k) && t < |k.tcbs|
    ensures k.tcbs[t].place.Some? ==> t in Items(k.lists, k.tcbs[t].place.value)
    ensures k.tcbs[t].evt.Some? ==> t in Items(k.lists, k.tcbs[t].evt.value)
  {
  }

  lemma UnlinkFacts(k: Kern, t: TaskId)
    requires t < |k.tcbs|
    ensures UnlinkEvent(k, t) == k || k.tcbs[t].evt.Some?
  {
  }

  lemma DrainStep(k: Kern)
    requires Linked(k) && L(k, CurList(k)) != []
    ensures var t := L(k, CurList(k))[0];
            var k1 := UnlinkState(k, t);
            && t < |k.tcbs| && k.tcbs[t].place.Some? && Linked(k1) && CurList(k1) == CurList(k)
            && L(k1, CurList(k1)) == L(k, CurList(k))[1..]
  {
    hide UnlinkState, NoDup, Remove;
    var xs := L(k, CurList(k));
    assert xs[0] in Items(k.lists, CurList(k));
    LinkedUnlinkState(k, xs[0]);
    RemoveHead(xs);
  }

  /** The wake-up of the first task of the current delayed list takes it off that list. */
  lemma WakeFirstDue(k: Kern)
    requires Linked(k) && Placed(k) && L(k, CurList(k)) != []
    ensures var t := L(k, CurList(k))[0];
            var k1 := Unblock(k, t, TimedOut);
            && t < |k.tcbs| && Blocked(k.tcbs[t]) && UnblockEffect(k, k1, t, TimedOut)
            && CurList(k1) == CurList(k) && L(k1, CurList(k1)) == L(k, CurList(k))[1..]
  {
    hide NoDup, Remove, Unblock, Placed;
    var xs := L(k, CurList(k));
    var t := xs[0];
    assert t in Items(k.lists, CurList(k));
    PlacedBounds(k, t);
    UnblockHasEffect(k, t, TimedOut);
    EventNotState(k, t);
    RemoveHead(xs);
  }

  /** One turn of the wake-up loop takes the first of the due tasks. */
  lemma DueStep(k: Kern)
    requires Linked(k) && Placed(k) && L(k, CurList(k)) != [] && T(k, L(k, CurList(k))[0]).wake <= k.ticks
    ensures var t := L(k, CurList(k))[0];
            var k1 := Unblock(k, t, TimedOut);
            && t < |k.tcbs| && Blocked(k.tcbs[t]) && Linked(k1) && Placed(k1)
            && |L(k1, CurList(k1))| < |L(k, CurList(k))|
            && Due(k) == [t] + Due(k1)
  {
    hide Linked, Unblock, AscendingPosition, Placed, Items, WakeValues, CurList;
    var xs := L(k, CurList(k));
    var t := xs[0];
    var k1 := Unblock(k, t, TimedOut);
    WakeFirstDue(k);
    LinkedUnblock(k, t, TimedOut);
    PlacedUnblock(k, k1, t, TimedOut);
    WakesSame(k, k1, t, xs[1..]);
    PositionStep(WakeValues(k, xs), k.ticks);
    WakesTail(k, xs);
    PrefixStep(xs, AscendingPosition(WakeValues(k, xs[1..]), k.ticks));
  }

  lemma PrefixStep(xs: seq<TaskId>, n: nat)
    requires xs != [] && n < |xs|
    ensures xs[..1 + n] == [xs[0]] + xs[1..][..n]
  {
  }

  lemma WakesTail(k: Kern, xs: seq<TaskId>)
    requires xs != []
    ensures WakeValues(k, xs)[1..] == WakeValues(k, xs[1..])
  {
  }

  lemma WakesSame(k: Kern, k1: Kern, t: TaskId, xs: seq<TaskId>)
    requires UnblockEffect(k, k1, t, TimedOut)
    ensures WakeValues(k1, xs) == WakeValues(k, xs)
  {
    hide Items, Remove;
  }

  lemma PositionStep(vs: seq<nat>, v: nat)
    requires vs != [] && vs[0] <= v
    ensures AscendingPosition(vs, v) == 1 + AscendingPosition(vs[1..], v)
  {
  }

  lemma DueDone(k: Kern)
    requires L(k, CurList(k)) == [] || T(k, L(k, CurList(k))[0]).wake > k.ticks
    ensures Due(k) == []
  {
  }

  lemma AdvanceLinked(k: Kern)
    requires KernInv(k)
    ensures var k1 := k.(ticks := (k.ticks + 1) % WRAP, clock := k.clock + 1);
            Linked(k1)
  {
    hide Placed, TimersWithin, Queued;
    LinkedSame(k, k.(ticks := (k.ticks + 1) % WRAP, clock := k.clock + 1));
  }

  lemma PriorityInRange(k: Kern)
    requires KernInv(k)
    ensures CurEff(Tick(k)) < 32
  {
    hide Linked, TimersWithin, Queued, Tick;
    TickKeeps(k);
  }
}
