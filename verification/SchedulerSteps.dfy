/**
 The steps that move the running task and the clock: creation, start, context switch
 and tick. Each keeps the scheduler invariants, and each says what it chose.
 */
module SchedulerSteps {
  import opened Sequences
  import opened Kernel
  import opened KernelInvariants

  // ---------------------------------------------------------------- Frames

  lemma TimersFrame(k: Kern, k': Kern, slack: nat)
    requires TimersWithin(k, slack)
    requires k'.aux == k.aux && k'.serial == k.serial && k'.clock == k.clock && k'.ticks == k.ticks && k'.curIsA == k.curIsA
    requires |k'.tcbs| == |k.tcbs|
    requires forall t :: 0 <= t < |k.tcbs| && Timed(k'.tcbs[t]) ==>
               k'.tcbs[t].place == k.tcbs[t].place && k'.tcbs[t].wake == k.tcbs[t].wake
    requires Items(k'.lists, DelayedA) == Items(k.lists, DelayedA) && Items(k'.lists, DelayedB) == Items(k.lists, DelayedB)
    ensures TimersWithin(k', slack)
  {
    hide Items, DeadlineOrder;
  }

  lemma QueuedFrame(k: Kern, k': Kern)
    requires Queued(k) && k'.aux == k.aux && k'.serial == k.serial && |k'.tcbs| == |k.tcbs|
    requires forall t :: 0 <= t < |k.tcbs| ==>
               k'.tcbs[t].evt == k.tcbs[t].evt && k'.tcbs[t].evtValue == k.tcbs[t].evtValue && k'.tcbs[t].eff == k.tcbs[t].eff
    requires forall l :: !IsStateList(l) ==> Items(k'.lists, l) == Items(k.lists, l)
    ensures Queued(k')
  {
    hide Items, PriorityOrder;
    forall l | !IsStateList(l) ensures PriorityOrder(k', Items(k'.lists, l)) {
      PriorityOrderSame(k, k', Items(k.lists, l));
    }
  }

  /** Mutex counts, wait reasons and the pending request are none of the scheduler's invariants' business. */
  ghost predicate SameButCounts(k: Kern, k': Kern) {
    && k' == k.(tcbs := k'.tcbs, pending := k'.pending)
    && |k'.tcbs| == |k.tcbs|
    && forall t :: 0 <= t < |k.tcbs| ==> k'.tcbs[t] == k.tcbs[t].(held := k'.tcbs[t].held, reason := k'.tcbs[t].reason)
  }

  lemma CountsKeep(k: Kern, k': Kern)
    requires KernInv(k) && SameButCounts(k, k')
    ensures KernInv(k')
  {
    hide Linked, TimersWithin, Queued, Items;
    LinkedSame(k, k');
    TimersFrame(k, k', 0);
    QueuedFrame(k, k');
  }

  // ---------------------------------------------------------------- Ready lists

  /** A bit of the bitmap is a level with a ready task, so it is below the number of levels. */
  lemma BitsAreLevels(k: Kern, p: nat)
    requires Linked(k) && Placed(k) && p in k.bitmap
    ensures p < k.levels && Items(k.lists, Ready(p)) != []
    ensures forall t :: t in Items(k.lists, Ready(p)) ==> t < |k.tcbs| && k.tcbs[t].eff == p && k.tcbs[t].place == Some(Ready(p))
  {
    var t := Items(k.lists, Ready(p))[0];
    assert t in Items(k.lists, Ready(p));
  }

  /** The task that the scheduler picks: the front of the highest non-empty ready list. */
  ghost predicate Chosen(k: Kern, t: TaskId, p: nat) {
    && p in k.bitmap && (forall q :: q in k.bitmap ==> q <= p)
    && Items(k.lists, Ready(p)) != [] && Items(k.lists, Ready(p))[0] == t
    && t < |k.tcbs| && k.tcbs[t].eff == p && k.tcbs[t].place == Some(Ready(p))
  }

  lemma PopChoosesHighest(k: Kern)
    requires Linked(k) && Placed(k) && k.bitmap != {}
    ensures var (k', t) := PopHighest(k);
            t.Some? && Chosen(k, t.value, T(k, t.value).eff) && k' == LeaveReady(k, t.value)
  {
    hide Linked, Placed, Items, HighestBit, UnlinkState;
    var b :| b in k.bitmap;
    forall q | q in k.bitmap ensures q < 32 {
      BitsAreLevels(k, q);
      LevelsBound(k);
    }
    var p := HighestBit(k.bitmap, 32);
    assert p in k.bitmap;
    BitsAreLevels(k, p);
    var t := Items(k.lists, Ready(p))[0];
    assert t in Items(k.lists, Ready(p));
    assert k.tcbs[t].place == Some(Ready(k.tcbs[t].eff));
  }

  lemma LevelsBound(k: Kern)
    requires Placed(k)
    ensures k.levels <= 32
  {
  }

  /** Running the chosen task: its state item leaves the ready list and it becomes current. */
  lemma RunChosenKeeps(k: Kern, t: TaskId, p: nat)
    requires KernInv(k) && Chosen(k, t, p)
    requires k.cur.Task? ==> T(k, k.cur.id).place.Some?
    ensures KernInv(LeaveReady(k, t).(cur := Task(t)))
    ensures Items(LeaveReady(k, t).lists, Ready(p)) == Items(k.lists, Ready(p))[1..]
  {
    hide Linked, TimersWithin, Queued, LeaveReady, Items, Remove;
    var k1 := LeaveReady(k, t);
    var k' := k1.(cur := Task(t));
    LinkedLeaveReady(k, t);
    LinkedSame(k1, k');
    TimersFrame(k, k', 0);
    QueuedFrame(k, k');
    RemoveHead(Items(k.lists, Ready(p)));
  }

  lemma RemoveHead<X>(xs: seq<X>)
    requires xs != []
    ensures Remove(xs, xs[0]) == xs[1..]
  {
  }

  lemma InsertReadyKeeps(k: Kern, t: TaskId)
    requires KernInv(k) && t < |k.tcbs| && T(k, t).place.None?
    ensures KernInv(InsertReady(k, t))
  {
    hide Linked, TimersWithin, Queued, InsertReady, Items;
    var k' := InsertReady(k, t);
    LinkedInsertReady(k, t);
    EventOfUnplaced(k, t);
    TimersFrame(k, k', 0);
    QueuedFrame(k, k');
  }

  lemma EventOfUnplaced(k: Kern, t: TaskId)
    requires Placed(k) && t < |k.tcbs| && T(k, t).place.None?
    ensures T(k, t).evt.None?
  {
  }

  // ---------------------------------------------------------------- Start and switch

  lemma StartKeeps(k: Kern)
    requires KernInv(k) && k.cur == NoTask
    ensures KernInv(StartFirst(k))
    ensures if k.bitmap == {} then StartFirst(k) == k
            else StartFirst(k).cur.Task? && Chosen(k, StartFirst(k).cur.id, T(k, StartFirst(k).cur.id).eff)
                 && StartFirst(k) == LeaveReady(k, StartFirst(k).cur.id).(cur := StartFirst(k).cur)
  {
    hide Linked, Timers, Queued, Placed, LeaveReady, Items, Chosen, UnlinkState;
    if k.bitmap != {} {
      PopChoosesHighest(k);
      var t := PopHighest(k).1.value;
      RunChosenKeeps(k, t, T(k, t).eff);
    }
  }

  lemma RequeueKeeps(k: Kern)
    requires KernInv(k) && k.cur != NoTask
    ensures var k1 := Requeue(k).(pending := false);
            KernInv(k1) && k1.cur == k.cur && (k.cur.Task? ==> T(k1, k.cur.id).place.Some?)
  {
    hide Linked, TimersWithin, Queued, InsertReady, Items;
    if k.cur.Task? && T(k, k.cur.id).place.None? {
      InsertReadyKeeps(k, k.cur.id);
      PlacedBounds(k, k.cur.id);
    }
    var k1 := Requeue(k);
    CountsKeep(k1, k1.(pending := false));
  }

  lemma PlacedBounds(k: Kern, t: TaskId)
    requires Placed(k) && t < |k.tcbs|
    ensures T(k, t).base <= T(k, t).eff < k.levels
  {
  }

  /** A switch keeps the invariants, and runs the front task of the highest ready level, or idle if there is none. */
  lemma SwitchKeeps(k: Kern)
    requires KernInv(k) && k.cur != NoTask
    ensures KernInv(SelectNext(k)) && !SelectNext(k).pending && SelectNext(k).cur != NoTask
    ensures var k1 := Requeue(k).(pending := false);
            if k1.bitmap == {} then SelectNext(k) == k1.(cur := Idle)
            else SelectNext(k).cur.Task? && var t := SelectNext(k).cur.id;
                 Chosen(k1, t, T(k1, t).eff) && SelectNext(k) == LeaveReady(k1, t).(cur := Task(t))
                 && T(SelectNext(k), t).place.None?
  {
    hide Linked, TimersWithin, Queued, LeaveReady, Items, Chosen, UnlinkState, Requeue, Placed;
    var k1 := Requeue(k).(pending := false);
    RequeueKeeps(k);
    if k1.bitmap == {} {
      IdleKeeps(k1);
    } else {
      PopChoosesHighest(k1);
      var t := PopHighest(k1).1.value;
      RunChosenKeeps(k1, t, T(k1, t).eff);
      ChosenLeaves(k1, t);
    }
  }

  lemma ChosenLeaves(k: Kern, t: TaskId)
    requires Chosen(k, t, T(k, t).eff)
    ensures T(LeaveReady(k, t), t).place.None?
  {
    hide LeaveReady, Items, Remove;
  }

  lemma IdleKeeps(k: Kern)
    requires KernInv(k) && (k.cur.Task? ==> T(k, k.cur.id).place.Some?)
    ensures KernInv(k.(cur := Idle))
  {
    hide Linked, TimersWithin, Queued, Items;
    LinkedSame(k, k.(cur := Idle));
    TimersFrame(k, k.(cur := Idle), 0);
    QueuedFrame(k, k.(cur := Idle));
  }

  // ---------------------------------------------------------------- Creation

  ghost function Grown(k: Kern, prio: nat): Kern {
    k.(tcbs := k.tcbs + [BLANK_TCB.(base := prio, eff := prio)], aux := k.aux + [Aux(0, 0, 0)])
  }

  lemma GrownLinked(k: Kern, prio: nat)
    requires Linked(k)
    ensures Linked(Grown(k, prio))
  {
    hide Items, NoDup;
  }

  lemma GrownTimers(k: Kern, prio: nat)
    requires Linked(k) && Timers(k) && |k.aux| == |k.tcbs|
    ensures Timers(Grown(k, prio))
  {
    hide Items, DeadlineOrder, NoDup;
    var k' := Grown(k, prio);
    forall l | l == DelayedA || l == DelayedB ensures DeadlineOrder(k'.aux, Items(k.lists, l)) {
      DeadlineOrderGrow(k.aux, k'.aux, Items(k.lists, l));
    }
    assert forall t :: 0 <= t < |k.tcbs| ==> k'.tcbs[t] == k.tcbs[t] && k'.aux[t] == k.aux[t];
  }

  lemma DeadlineOrderGrow(aux: seq<Aux>, aux': seq<Aux>, xs: seq<TaskId>)
    requires DeadlineOrder(aux, xs) && aux <= aux'
    ensures DeadlineOrder(aux', xs)
  {
    OrderedCongruent(xs, (t: TaskId, u: TaskId) => t < |aux| && u < |aux| && Sooner(aux, t, u),
                     (t: TaskId, u: TaskId) => t < |aux'| && u < |aux'| && Sooner(aux', t, u));
  }

  lemma GrownQueued(k: Kern, prio: nat)
    requires Linked(k) && Queued(k) && |k.aux| == |k.tcbs|
    ensures Queued(Grown(k, prio))
  {
    hide Items, PriorityOrder, NoDup;
    var k' := Grown(k, prio);
    forall l | !IsStateList(l) ensures PriorityOrder(k', Items(k'.lists, l)) {
      PriorityOrderSame(k, k', Items(k.lists, l));
    }
  }

  lemma CreateKeeps(k: Kern, prio: nat)
    requires KernInv(k) && prio < k.levels && |k.tcbs| < k.capacity
    ensures KernInv(CreateTask(k, prio))
  {
    hide Linked, Queued, TimersWithin, InsertReady, Items;
    var k1 := Grown(k, prio);
    GrownLinked(k, prio);
    GrownTimers(k, prio);
    GrownQueued(k, prio);
    var t := |k.tcbs|;
    var k2 := InsertReady(k1, t);
    var k' := CreateTask(k, prio);
    LinkedInsertReady(k1, t);
    LinkedSame(k2, k');
    TimersFrame(k1, k', 0);
    QueuedFrame(k1, k');
    assert forall u :: 0 <= u < |k.tcbs| ==> k1.tcbs[u] == k.tcbs[u];
  }

  // ---------------------------------------------------------------- Tick

  lemma NotYetWrapped(k: Kern, t: TaskId)
    requires Linked(k) && Timers(k) && t in Items(k.lists, CurList(k))
    ensures (k.ticks + 1) % WRAP != 0
  {
    hide NoDup, DeadlineOrder;
    assert TimedTask(k, t, 0);
  }

  /** The defensive drain at the wrap finds the current delayed list empty. */
  lemma NothingToDrain(k: Kern)
    requires Linked(k) && Timers(k) && (k.ticks + 1) % WRAP == 0
    ensures Items(k.lists, CurList(k)) == []
  {
    hide NoDup, DeadlineOrder;
    if Items(k.lists, CurList(k)) != [] {
      NotYetWrapped(k, Items(k.lists, CurList(k))[0]);
    }
  }

  lemma AdvanceKeeps(k: Kern)
    requires KernInv(k)
    ensures var k1 := Advance(k);
            && Linked(k1) && Placed(k1) && TimersWithin(k1, 1) && Queued(k1)
            && k1 == k.(ticks := (k.ticks + 1) % WRAP, clock := k.clock + 1,
                        curIsA := if (k.ticks + 1) % WRAP == 0 then !k.curIsA else k.curIsA)
  {
    hide Linked, Queued, Items, DeadlineOrder;
    var k0 := k.(ticks := (k.ticks + 1) % WRAP, clock := k.clock + 1);
    if k0.ticks == 0 {
      NothingToDrain(k);
    }
    var k1 := Advance(k);
    LinkedSame(k, k1);
    QueuedFrame(k, k1);
    forall t | 0 <= t < |k1.tcbs| && Timed(k1.tcbs[t]) ensures TimedTask(k1, t, 1) {
      AdvanceTimed(k, k1, t);
    }
  }

  lemma AdvanceTimed(k: Kern, k1: Kern, t: TaskId)
    requires Linked(k) && Timers(k) && t < |k.tcbs| && Timed(k.tcbs[t])
    requires k1 == k.(ticks := (k.ticks + 1) % WRAP, clock := k.clock + 1,
                      curIsA := if (k.ticks + 1) % WRAP == 0 then !k.curIsA else k.curIsA)
    ensures TimedTask(k1, t, 1)
  {
    hide DeadlineOrder, NoDup;
    assert TimedTask(k, t, 0);
    var e := k.clock / WRAP;
    assert k.clock == e * WRAP + k.ticks;
    if (k.ticks + 1) % WRAP == 0 {
      NothingToDrain(k);
      assert t in Items(k.lists, k.tcbs[t].place.value);
      assert k1.clock == (e + 1) * WRAP;
      var d := A(k, t).deadline;
      assert d == (e + 1) * WRAP + d % WRAP;
    } else {
      assert k1.clock == e * WRAP + (k.ticks + 1);
    }
  }

  /** Unblocks in order: what one pass of the wake-up loop does to tasks and lists. */
  ghost predicate AllUnblocked(k: Kern, k': Kern, ts: seq<TaskId>, reason: Reason) {
    && k' == k.(tcbs := k'.tcbs, lists := k'.lists, bitmap := k'.bitmap)
    && |k'.tcbs| == |k.tcbs|
    && (forall t :: 0 <= t < |k.tcbs| ==>
          k'.tcbs[t] == if t in ts then k.tcbs[t].(place := Some(Ready(k.tcbs[t].eff)), evt := None, reason := reason)
                        else k.tcbs[t])
    && (forall p :: Items(k'.lists, Ready(p)) == Items(k.lists, Ready(p)) + AtLevel(k, ts, p))
  }

  /** The tasks of `ts` whose effective priority is `p`, in order. */
  ghost function AtLevel(k: Kern, ts: seq<TaskId>, p: nat): seq<TaskId> {
    if ts == [] then []
    else if T(k, ts[0]).eff == p then [ts[0]] + AtLevel(k, ts[1..], p)
    else AtLevel(k, ts[1..], p)
  }

  lemma AtLevelSame(k: Kern, k': Kern, ts: seq<TaskId>, p: nat)
    requires forall t :: T(k', t).eff == T(k, t).eff
    ensures AtLevel(k', ts, p) == AtLevel(k, ts, p)
  {
  }

  lemma {:induction false} UnblockAllKeeps(k: Kern, ts: seq<TaskId>, reason: Reason, slack: nat)
    requires Linked(k) && Placed(k) && TimersWithin(k, slack) && Queued(k) && NoDup(ts)
    requires forall t :: t in ts ==> Blocked(T(k, t))
    ensures var k' := UnblockAll(k, ts, reason);
            Linked(k') && Placed(k') && TimersWithin(k', slack) && Queued(k') && AllUnblocked(k, k', ts, reason)
    decreases ts
  {
    hide Linked, Placed, TimersWithin, Queued, Unblock, AllUnblocked, UnblockEffect, NoDup;
    if ts == [] {
      NoneUnblocked(k, reason);
    } else {
      var t, rest := ts[0], ts[1..];
      TailApart(ts);
      var k1 := Unblock(k, t, reason);
      PlacedBounds(k, t);
      UnblockHasEffect(k, t, reason);
      UnblockKeepsWithin(k, t, reason, slack);
      forall u | u in rest ensures Blocked(T(k1, u)) {
        UnblockSame(k, k1, t, reason, u);
      }
      UnblockAllKeeps(k1, rest, reason, slack);
      ConsUnblocked(k, k1, UnblockAll(k1, rest, reason), ts, reason);
    }
  }

  lemma TailApart<X>(ts: seq<X>)
    requires NoDup(ts) && ts != []
    ensures NoDup(ts[1..]) && ts[0] in ts && forall u :: u in ts[1..] ==> u in ts && u != ts[0]
  {
  }

  lemma UnblockSame(k: Kern, k': Kern, t: TaskId, reason: Reason, u: TaskId)
    requires UnblockEffect(k, k', t, reason) && u != t
    ensures T(k', u) == T(k, u)
  {
    hide Items, Remove;
  }

  lemma NoneUnblocked(k: Kern, reason: Reason)
    ensures AllUnblocked(k, k, [], reason)
  {
  }

  lemma ConsUnblocked(k: Kern, k1: Kern, k': Kern, ts: seq<TaskId>, reason: Reason)
    requires Linked(k) && ts != [] && ts[0] !in ts[1..]
    requires UnblockEffect(k, k1, ts[0], reason) && AllUnblocked(k1, k', ts[1..], reason)
    ensures AllUnblocked(k, k', ts, reason)
  {
    hide Linked, Items, Remove;
    var t, rest := ts[0], ts[1..];
    assert forall u :: u in ts <==> u == t || u in rest;
    forall p ensures Items(k'.lists, Ready(p)) == Items(k.lists, Ready(p)) + AtLevel(k, ts, p) {
      AtLevelSame(k, k1, rest, p);
      UnblockReadyList(k, k1, t, reason, p);
    }
  }

  lemma UnblockReadyList(k: Kern, k': Kern, t: TaskId, reason: Reason, p: nat)
    requires Linked(k) && UnblockEffect(k, k', t, reason)
    ensures Items(k'.lists, Ready(p)) == if T(k, t).eff == p then Items(k.lists, Ready(p)) + [t] else Items(k.lists, Ready(p))
  {
    hide Linked, Items, Remove;
    EventNotState(k, t);
  }

  lemma DueAreBlocked(k: Kern)
    requires Linked(k)
    ensures NoDup(Due(k)) && forall t :: t in Due(k) ==> t in Items(k.lists, CurList(k)) && Blocked(T(k, t))
  {
    hide AscendingPosition, WakeValues;
    var xs := L(k, CurList(k));
    var ts := Due(k);
    forall i, j | 0 <= i < j < |ts| ensures ts[i] != ts[j] {
      assert ts[i] == xs[i] && ts[j] == xs[j];
    }
  }

  /** The due tasks are exactly the timed tasks whose absolute deadline is now. */
  lemma DueIsDeadline(k: Kern, t: TaskId)
    requires Linked(k) && TimersWithin(k, 1) && t < |k.tcbs| == |k.aux|
    ensures t in Due(k) <==> Timed(k.tcbs[t]) && A(k, t).deadline == k.clock
  {
    hide AscendingPosition, WakeValues, NoDup, DeadlineOrder;
    var xs := Items(k.lists, CurList(k));
    var n := AscendingPosition(WakeValues(k, xs), k.ticks);
    assert t in Due(k) ==> t in xs;
    if Timed(k.tcbs[t]) {
      assert TimedTask(k, t, 1);
      assert t in Items(k.lists, k.tcbs[t].place.value);
      if k.tcbs[t].place == Some(CurList(k)) {
        SameEpoch(A(k, t).deadline, k.clock);
        var i :| 0 <= i < |xs| && xs[i] == t;
        if n <= i {
          var u := xs[n];
          assert u in xs;
          assert TimedTask(k, u, 1);
          SameEpoch(A(k, u).deadline, k.clock);
          DeadlineOrderAt(k.aux, xs, n, i);
        } else {
          assert xs[..n][i] == t;
        }
      } else {
        assert t !in xs;
      }
    }
  }

  lemma DeadlineOrderAt(aux: seq<Aux>, xs: seq<TaskId>, i: nat, j: nat)
    requires DeadlineOrder(aux, xs) && i <= j < |xs| && xs[i] < |aux| && xs[j] < |aux|
    ensures aux[xs[i]].deadline <= aux[xs[j]].deadline
  {
    if i < j {
      OrderedAt(xs, (t: TaskId, u: TaskId) => t < |aux| && u < |aux| && Sooner(aux, t, u), i, j);
    }
  }

  /** What a tick does: exactly the tasks whose deadline is the new time wake, timed out, in deadline-list order. */
  lemma TickKeeps(k: Kern)
    requires KernInv(k)
    ensures KernInv(Tick(k))
    ensures var k1 := Advance(k);
            AllUnblocked(k1, Tick(k).(pending := k.pending), Due(k1), TimedOut)
    ensures forall t :: 0 <= t < |k.tcbs| ==>
              (t in Due(Advance(k)) <==> Timed(k.tcbs[t]) && A(k, t).deadline == k.clock + 1)
    ensures Tick(k).clock == k.clock + 1
    ensures Tick(k).pending <==> k.pending || RunnableAt(Tick(k), CurEff(Tick(k)))
  {
    hide Linked, TimersWithin, Queued, Items, Due, UnblockAll, Advance, AllUnblocked;
    AdvanceKeeps(k);
    var k1 := Advance(k);
    DueAreBlocked(k1);
    UnblockAllKeeps(k1, Due(k1), TimedOut, 1);
    forall t | 0 <= t < |k.tcbs| ensures t in Due(k1) <==> Timed(k.tcbs[t]) && A(k, t).deadline == k.clock + 1 {
      DueIsDeadline(k1, t);
    }
    var k2 := UnblockAll(k1, Due(k1), TimedOut);
    TickSettles(k1, k2);
    CountsKeep(k2, Tick(k));
    AllUnblockedPending(k1, k2, Tick(k), k.pending);
  }

  lemma AllUnblockedPending(k1: Kern, k2: Kern, k': Kern, b: bool)
    requires AllUnblocked(k1, k2, Due(k1), TimedOut) && k' == k2.(pending := k'.pending) && k1.pending == b
    ensures AllUnblocked(k1, k'.(pending := b), Due(k1), TimedOut)
    ensures k'.clock == k1.clock && k2.pending == k1.pending
    ensures RunnableAt(k2, CurEff(k2)) <==> RunnableAt(k', CurEff(k'))
  {
    hide Items, Due;
  }

  lemma TickSettles(k1: Kern, k2: Kern)
    requires Linked(k1) && Placed(k1) && TimersWithin(k1, 1) && TimersWithin(k2, 1) && AllUnblocked(k1, k2, Due(k1), TimedOut)
    ensures Timers(k2)
  {
    hide Linked, Items, DeadlineOrder, Due;
    forall t | 0 <= t < |k2.tcbs| && Timed(k2.tcbs[t]) ensures TimedTask(k2, t, 0) {
      DueIsDeadline(k1, t);
      assert TimedTask(k2, t, 1);
    }
  }
}
