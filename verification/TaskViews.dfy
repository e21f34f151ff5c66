/**
 What each scheduler routine means to the objects above it: which tasks stop or start
 waiting and whose priority changes. The object invariants are proved from these facts.
 */
module TaskViews {
  import opened Sequences
  import opened Kernel
  import opened KernelInvariants
  import opened SchedulerSteps

  ghost predicate SameRank(c: Tcb, c': Tcb) {
    c'.base == c.base && c'.eff == c.eff && c'.held == c.held
  }

  ghost predicate SameWait(c: Tcb, c': Tcb) {
    c'.evt == c.evt && c'.reason == c.reason && (Blocked(c') <==> Blocked(c))
  }

  /** Exactly the tasks in `ts` stop waiting, for reason `r`. */
  ghost predicate Woke(k: Kern, k': Kern, ts: set<TaskId>, r: Reason) {
    && |k'.tcbs| == |k.tcbs|
    && forall t :: 0 <= t < |k.tcbs| ==>
         && SameRank(k.tcbs[t], k'.tcbs[t])
         && if t in ts then Blocked(k.tcbs[t]) && !Blocked(k'.tcbs[t]) && k'.tcbs[t].evt.None? && k'.tcbs[t].reason == r
            else SameWait(k.tcbs[t], k'.tcbs[t])
  }

  /** Nobody starts or stops waiting and no priority changes. */
  ghost predicate Steady(k: Kern, k': Kern) {
    Woke(k, k', {}, NoReason)
  }

  /** Only `t` starts waiting, on the wait list `l` or on none. */
  ghost predicate Slept(k: Kern, k': Kern, t: TaskId, l: Option<ListId>) {
    && |k'.tcbs| == |k.tcbs| && t < |k.tcbs|
    && (forall u :: 0 <= u < |k.tcbs| ==> SameRank(k.tcbs[u], k'.tcbs[u]))
    && (forall u :: 0 <= u < |k.tcbs| && u != t ==> SameWait(k.tcbs[u], k'.tcbs[u]))
    && !Blocked(k.tcbs[t]) && Blocked(k'.tcbs[t]) && k'.tcbs[t].evt == l && k'.tcbs[t].reason == k.tcbs[t].reason
  }

  /** Only the effective priority of `t` changes, to `p`. */
  ghost predicate Releveled(k: Kern, k': Kern, t: TaskId, p: nat) {
    && |k'.tcbs| == |k.tcbs| && t < |k.tcbs|
    && (forall u :: 0 <= u < |k.tcbs| ==> SameWait(k.tcbs[u], k'.tcbs[u]))
    && (forall u :: 0 <= u < |k.tcbs| && u != t ==> SameRank(k.tcbs[u], k'.tcbs[u]))
    && k'.tcbs[t].base == k.tcbs[t].base && k'.tcbs[t].held == k.tcbs[t].held && k'.tcbs[t].eff == p
  }

  /** Only the number of mutexes that `t` holds changes, to `n`. */
  ghost predicate Recounted(k: Kern, k': Kern, t: TaskId, n: nat) {
    && SameButCounts(k, k') && t < |k.tcbs| && k'.pending == k.pending
    && (forall u :: 0 <= u < |k.tcbs| ==> SameWait(k.tcbs[u], k'.tcbs[u]))
    && (forall u :: 0 <= u < |k.tcbs| && u != t ==> SameRank(k.tcbs[u], k'.tcbs[u]))
    && k'.tcbs[t].base == k.tcbs[t].base && k'.tcbs[t].eff == k.tcbs[t].eff && k'.tcbs[t].held == n
  }

  /** The same task runs at the same time, and if its state item was free it still is. */
  ghost predicate SameContext(k: Kern, k': Kern) {
    && k'.cur == k.cur && k'.pending == k.pending && k'.levels == k.levels && k'.clock == k.clock && k'.ticks == k.ticks
    && (k.cur.Task? && T(k, k.cur.id).place.None? ==> T(k', k.cur.id).place.None?)
  }

  lemma UnblockWakes(k: Kern, t: TaskId, r: Reason)
    requires KernInv(k) && Blocked(T(k, t))
    ensures Woke(k, Unblock(k, t, r), {t}, r) && SameContext(k, Unblock(k, t, r))
  {
    hide Linked, TimersWithin, Queued, Unblock, Items, Remove;
    PlacedBounds(k, t);
    UnblockHasEffect(k, t, r);
  }

  lemma TickWakes(k: Kern)
    requires KernInv(k)
    ensures Woke(k, Tick(k), (set t | t in Due(Advance(k))), TimedOut)
    ensures Tick(k).cur == k.cur && (k.pending ==> Tick(k).pending)
  {
    hide Linked, TimersWithin, Queued, Items, Due, Advance, Placed, Tick;
    TickKeeps(k);
    AdvanceKeeps(k);
    TickFacts(k);
  }

  lemma TickFacts(k: Kern)
    requires KernInv(k)
    ensures k.pending ==> Tick(k).pending
    ensures forall t :: t in Due(Advance(k)) ==> t < |k.tcbs| && Blocked(k.tcbs[t])
    ensures Tick(k).pending == k.pending || RunnableAt(Tick(k), CurEff(Tick(k)))
  {
    hide Linked, TimersWithin, Queued, Items, Due, Advance, Placed, Tick;
    TickKeeps(k);
    AdvanceKeeps(k);
    DueAreBlocked(Advance(k));
  }

  lemma BlockSleeps(k: Kern, wake: nat, waitOn: Option<ListId>, infinite: bool)
    requires KernInv(k) && k.cur.Task? && T(k, k.cur.id).place.None?
    ensures Slept(k, BlockCurrent(k, wake, waitOn, infinite), k.cur.id, waitOn)
    ensures var k' := BlockCurrent(k, wake, waitOn, infinite);
            k'.cur == k.cur && k'.pending == k.pending && k'.levels == k.levels && k'.clock == k.clock && k'.ticks == k.ticks
  {
    hide Linked, TimersWithin, Queued, BlockState, LinkEvent, Items, BlockInserted, InsertAt;
    BlockHasEffect(k, k.cur.id, wake, infinite);
    EventOfUnplaced(k, k.cur.id);
  }

  lemma SetEffectiveRelevels(k: Kern, t: TaskId, p: nat)
    requires KernInv(k) && t < |k.tcbs|
    ensures var k' := SetEffective(k, t, p);
            Releveled(k, k', t, if T(k, t).base <= p < k.levels then p else T(k, t).eff) && SameContext(k, k')
  {
    hide Linked, TimersWithin, Queued, Relevel, Items, Reinserted;
    if !(T(k, t).eff == p || T(k, t).base > p || p >= k.levels) {
      RelevelHasEffect(k, t, p);
    }
  }

  lemma SteadyTransitive(k: Kern, k1: Kern, k2: Kern)
    requires Steady(k, k1) && Steady(k1, k2)
    ensures Steady(k, k2)
  {
  }

  lemma RequeueSteady(k: Kern)
    requires KernInv(k)
    ensures Steady(k, Requeue(k).(pending := false))
  {
    hide Linked, TimersWithin, Queued, Items, InsertReady;
    if k.cur.Task? {
      PlacedBounds(k, k.cur.id);
    }
  }

  lemma LeaveReadySteady(k: Kern, t: TaskId)
    requires t < |k.tcbs|
    ensures Steady(k, LeaveReady(k, t).(cur := Task(t)))
  {
    hide LeaveReady, Items, Remove;
  }

  lemma SwitchSteady(k: Kern)
    requires KernInv(k) && k.cur != NoTask
    ensures Steady(k, SelectNext(k))
  {
    hide Linked, Placed, TimersWithin, Queued, LeaveReady, Items, Requeue, SelectNext, PopHighest, Remove, Woke;
    SwitchKeeps(k);
    RequeueSteady(k);
    var k1 := Requeue(k).(pending := false);
    if k1.bitmap != {} {
      LeaveReadySteady(k1, SelectNext(k).cur.id);
      SteadyTransitive(k, k1, SelectNext(k));
    } else {
      IdleSteady(k1);
      SteadyTransitive(k, k1, SelectNext(k));
    }
  }

  lemma IdleSteady(k: Kern)
    ensures Steady(k, k.(cur := Idle))
  {
  }

  lemma StartSteady(k: Kern)
    requires KernInv(k) && k.cur == NoTask
    ensures Steady(k, StartFirst(k)) && StartFirst(k).pending == k.pending
    ensures StartFirst(k).cur.Task? ==> T(StartFirst(k), StartFirst(k).cur.id).place.None?
  {
    hide Linked, TimersWithin, Queued, LeaveReady, Items, StartFirst, PopHighest, Remove;
    StartKeeps(k);
  }

  /** The priority asked of an owner covers every waiter, and is the base or that of some waiter. */
  lemma RequiredCovers(k: Kern, o: TaskId, l: ListId)
    requires KernInv(k) && !IsStateList(l)
    ensures Required(k, o, l) >= T(k, o).base
    ensures forall t :: 0 <= t < |k.tcbs| && k.tcbs[t].evt == Some(l) ==> Required(k, o, l) >= k.tcbs[t].eff
    ensures Required(k, o, l) == T(k, o).base
            || exists t :: 0 <= t < |k.tcbs| && k.tcbs[t].evt == Some(l) && k.tcbs[t].eff == Required(k, o, l)
  {
    hide TimersWithin, NoDup;
    var xs := Items(k.lists, l);
    forall t | 0 <= t < |k.tcbs| && k.tcbs[t].evt == Some(l) ensures Required(k, o, l) >= k.tcbs[t].eff {
      assert t in xs;
      var i :| 0 <= i < |xs| && xs[i] == t;
      if i > 0 {
        OrderedAt(xs, (t: TaskId, u: TaskId) => Ahead(k, t, u), 0, i);
      }
    }
    if xs != [] {
      assert xs[0] in xs;
    }
  }

  /** Waiters are exactly the tasks whose event item says so; an empty wait list means no such task. */
  lemma FirstWaiter(k: Kern, l: ListId)
    requires KernInv(k) && !IsStateList(l)
    ensures L(k, l) == [] <==> forall t :: 0 <= t < |k.tcbs| ==> k.tcbs[t].evt != Some(l)
    ensures L(k, l) != [] ==> var t := L(k, l)[0];
              t < |k.tcbs| && k.tcbs[t].evt == Some(l) && Blocked(k.tcbs[t]) && k.tcbs[t].evtValue == k.tcbs[t].eff
  {
    hide TimersWithin, NoDup, PriorityOrder;
    var xs := Items(k.lists, l);
    if xs != [] {
      assert xs[0] in xs;
    } else {
      forall t | 0 <= t < |k.tcbs| ensures k.tcbs[t].evt != Some(l) {
        assert t !in xs;
      }
    }
  }

  lemma AddHeldRecounts(k: Kern, t: TaskId)
    requires t < |k.tcbs| && k.tcbs[t].held < 0xFF
    ensures Recounted(k, AddHeld(k, t), t, k.tcbs[t].held + 1) && SameContext(k, AddHeld(k, t))
  {
  }

  lemma DropHeldRecounts(k: Kern, t: TaskId)
    requires t < |k.tcbs| && k.tcbs[t].held > 0
    ensures Recounted(k, DropHeld(k, t), t, k.tcbs[t].held - 1) && SameContext(k, DropHeld(k, t))
  {
  }

  lemma InheritRaises(k: Kern, t: TaskId, p: nat)
    requires KernInv(k) && t < |k.tcbs| && p < k.levels
    ensures var k' := Inherit(k, t, p);
            && KernInv(k') && SameContext(k, k')
            && Releveled(k, k', t, if k.tcbs[t].eff >= p then k.tcbs[t].eff else p)
  {
    hide Linked, TimersWithin, Queued, SetEffective;
    PlacedBounds(k, t);
    SetEffectiveKeeps(k, t, p);
    SetEffectiveRelevels(k, t, p);
  }

  lemma RelinquishLowers(k: Kern, t: TaskId)
    requires KernInv(k) && t < |k.tcbs|
    ensures var k' := Relinquish(k, t);
            && KernInv(k') && SameContext(k, k')
            && Releveled(k, k', t, if k.tcbs[t].held == 0 then k.tcbs[t].base else k.tcbs[t].eff)
  {
    hide Linked, TimersWithin, Queued, SetEffective;
    PlacedBounds(k, t);
    SetEffectiveKeeps(k, t, k.tcbs[t].base);
    SetEffectiveRelevels(k, t, k.tcbs[t].base);
  }

  lemma DisinheritLowers(k: Kern, t: TaskId, required: nat)
    requires KernInv(k) && t < |k.tcbs|
    ensures var k' := Disinherit(k, t, required);
            var p := if required > k.tcbs[t].base then required else k.tcbs[t].base;
            && KernInv(k') && SameContext(k, k')
            && Releveled(k, k', t, if k.tcbs[t].held == 1 && p < k.tcbs[t].eff then p else k.tcbs[t].eff)
  {
    hide Linked, TimersWithin, Queued, SetEffective;
    PlacedBounds(k, t);
    var p := if required > k.tcbs[t].base then required else k.tcbs[t].base;
    SetEffectiveKeeps(k, t, p);
    SetEffectiveRelevels(k, t, p);
  }

  lemma RequiredBelowLevels(k: Kern, o: TaskId, l: ListId)
    requires KernInv(k) && !IsStateList(l) && o < |k.tcbs|
    ensures Required(k, o, l) < k.levels
  {
    hide Linked, TimersWithin, Queued, Required;
    RequiredCovers(k, o, l);
    PlacedBounds(k, o);
  }
}
