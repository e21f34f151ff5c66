/**
 The life of one wait. A blocked task stays exactly as it is until the one step that wakes
 it: the tick at its absolute deadline, or a signal for which it is the first waiter. The
 reason that this step records is the one the task reads when it resumes.
 */
module Lifecycle {
  import opened Sequences
  import opened Kernel
  import opened KernelInvariants
  import opened SchedulerSteps
  import opened TaskViews
  import opened System
  import opened Effects
  import opened SystemInvariants
  import opened MutexInvariants
  import opened SystemProof

  /** The wait of `u` goes on: same lists, same deadline, same place in the order of blocks. */
  ghost predicate KeepsWaiting(k: Kern, k': Kern, u: TaskId) {
    && |k.tcbs| <= |k'.tcbs| && |k.aux| <= |k'.aux|
    && T(k', u).place == T(k, u).place && T(k', u).evt == T(k, u).evt && T(k', u).reason == T(k, u).reason
    && A(k', u).deadline == A(k, u).deadline && A(k', u).order == A(k, u).order
  }

  ghost predicate BlockedIn(k: Kern, u: TaskId) {
    u < |k.tcbs| && Blocked(k.tcbs[u])
  }

  lemma UnblockOthers(k: Kern, t: TaskId, r: Reason, u: TaskId)
    requires KernInv(k) && BlockedIn(k, u) && u != t
    ensures KeepsWaiting(k, Unblock(k, t, r), u)
  {
    hide Linked, TimersWithin, Queued, Unblock, Items, Remove;
    if Blocked(T(k, t)) {
      PlacedBounds(k, t);
      UnblockHasEffect(k, t, r);
    } else {
      UnblockElse(k, t, r);
    }
  }

  lemma SetEffectiveOthers(k: Kern, t: TaskId, p: nat, u: TaskId)
    requires KernInv(k) && t < |k.tcbs| && BlockedIn(k, u)
    ensures KeepsWaiting(k, SetEffective(k, t, p), u)
  {
    hide Linked, TimersWithin, Queued, Relevel, Items, Reinserted;
    if !(T(k, t).eff == p || T(k, t).base > p || p >= k.levels) {
      RelevelHasEffect(k, t, p);
    }
  }

  lemma BlockOthers(k: Kern, wake: nat, waitOn: Option<ListId>, infinite: bool, u: TaskId)
    requires KernInv(k) && k.cur.Task? && T(k, k.cur.id).place.None? && BlockedIn(k, u)
    ensures KeepsWaiting(k, BlockCurrent(k, wake, waitOn, infinite), u)
  {
    hide Linked, TimersWithin, Queued, BlockState, LinkEvent, Items, BlockInserted, InsertAt;
    BlockHasEffect(k, k.cur.id, wake, infinite);
  }

  /** The wait that a block starts: its absolute deadline, and its place behind every earlier block. */
  lemma BlockStarts(k: Kern, wake: nat, waitOn: Option<ListId>, infinite: bool)
    requires KernInv(k) && k.cur.Task? && T(k, k.cur.id).place.None?
    ensures var k' := BlockCurrent(k, wake, waitOn, infinite);
            var t := k.cur.id;
            && BlockedIn(k', t) && (Timed(T(k', t)) <==> !infinite) && T(k', t).evt == waitOn
            && (!infinite ==> A(k', t).deadline == k.clock + Distance(k, wake) && A(k', t).order == k.serial)
  {
    hide Linked, TimersWithin, Queued, BlockState, LinkEvent, Items, BlockInserted, InsertAt;
    BlockHasEffect(k, k.cur.id, wake, infinite);
    EventOfUnplaced(k, k.cur.id);
  }

  lemma RequeueOthers(k: Kern, u: TaskId)
    requires KernInv(k) && BlockedIn(k, u)
    ensures KeepsWaiting(k, Requeue(k).(pending := false), u)
  {
    hide Linked, TimersWithin, Queued, Items, InsertReady;
    if k.cur.Task? {
      PlacedBounds(k, k.cur.id);
    }
  }

  lemma LeaveReadyOthers(k: Kern, t: TaskId, u: TaskId)
    requires t < |k.tcbs| && BlockedIn(k, u)
    ensures KeepsWaiting(k, LeaveReady(k, t).(cur := Task(t)), u)
  {
    hide LeaveReady, Items, Remove;
  }

  lemma SwitchOthers(k: Kern, u: TaskId)
    requires KernInv(k) && k.cur != NoTask && BlockedIn(k, u)
    ensures KeepsWaiting(k, SelectNext(k), u)
  {
    hide Linked, Placed, TimersWithin, Queued, LeaveReady, Items, Requeue, SelectNext, PopHighest, Remove;
    SwitchKeeps(k);
    RequeueOthers(k, u);
    var k1 := Requeue(k).(pending := false);
    if k1.bitmap != {} {
      LeaveReadyOthers(k1, SelectNext(k).cur.id, u);
    }
  }

  lemma StartOthers(k: Kern, u: TaskId)
    requires KernInv(k) && k.cur == NoTask && BlockedIn(k, u)
    ensures KeepsWaiting(k, StartFirst(k), u)
  {
    hide Linked, Placed, TimersWithin, Queued, LeaveReady, Items, StartFirst, PopHighest, Remove;
    StartKeeps(k);
    if k.bitmap != {} {
      LeaveReadyOthers(k, StartFirst(k).cur.id, u);
    }
  }

  lemma CreateOthers(k: Kern, prio: nat, u: TaskId)
    requires KernInv(k) && prio < k.levels && BlockedIn(k, u)
    ensures KeepsWaiting(k, CreateTask(k, prio), u)
  {
    hide Linked, TimersWithin, Queued, Items, InsertReady;
  }

  /** A tick ends exactly the waits whose deadline is the new time. */
  lemma TickOthers(k: Kern, u: TaskId)
    requires KernInv(k) && BlockedIn(k, u)
    ensures if Timed(k.tcbs[u]) && A(k, u).deadline == k.clock + 1
            then T(Kernel.Tick(k), u) == k.tcbs[u].(place := Some(Ready(k.tcbs[u].eff)), evt := None, reason := TimedOut)
            else KeepsWaiting(k, Kernel.Tick(k), u)
  {
    hide Linked, Placed, TimersWithin, Queued, Kernel.Tick, Due, Advance, Items;
    TickKeeps(k);
    AdvanceKeeps(k);
  }

  // ---------------------------------------------------------------- One step of a wait

  /** `u` was the first waiter of the list it waits on, and has been signalled and made ready. */
  ghost predicate SignalledFirst(k: Kern, k': Kern, u: TaskId) {
    && T(k, u).evt.Some? && L(k, T(k, u).evt.value) != [] && L(k, T(k, u).evt.value)[0] == u
    && T(k', u).place == Some(Ready(T(k', u).eff)) && T(k', u).evt.None? && T(k', u).reason == Signaled
  }

  lemma WakeFirstWait(k: Kern, l: ListId, u: TaskId)
    requires KernInv(k) && BlockedIn(k, u) && !IsStateList(l)
    ensures var k' := WakeFirst(k, l);
            KeepsWaiting(k, k', u) || (SignalledFirst(k, k', u) && T(k, u).evt == Some(l))
  {
    hide KernInv, Unblock, Items;
    FirstWaiter(k, l);
    if L(k, l) != [] {
      var h := L(k, l)[0];
      if h == u {
        UnblockReadies(k, u, Signaled);
      } else {
        UnblockOthers(k, h, Signaled, u);
      }
    }
  }

  lemma UnblockReadies(k: Kern, t: TaskId, r: Reason)
    requires KernInv(k) && BlockedIn(k, t)
    ensures T(Unblock(k, t, r), t) == k.tcbs[t].(place := Some(Ready(k.tcbs[t].eff)), evt := None, reason := r)
    ensures |Unblock(k, t, r).tcbs| == |k.tcbs|
  {
    hide Linked, TimersWithin, Queued, Unblock, Items, Remove;
    PlacedBounds(k, t);
    UnblockHasEffect(k, t, r);
  }

  /** The waiter first in line already has the highest priority, so taking over the mutex raises it no further. */
  lemma HandoffNeverRaises(k: Kern, m: nat)
    requires KernInv(k) && L(k, Lockers(m)) != [] && T(k, L(k, Lockers(m))[0]).held < 0xFF
    ensures var n := L(k, Lockers(m))[0];
            HandOver(k, n, Lockers(m)) == AddHeld(Unblock(k, n, Signaled), n)
  {
    hide KernInv, Unblock, AddHeld, Items;
    var l := Lockers(m);
    var n := L(k, l)[0];
    FirstWaiter(k, l);
    FirstIsHighest(k, l);
    UnblockKeeps(k, n, Signaled);
    UnblockWakes(k, n, Signaled);
    var k1 := Unblock(k, n, Signaled);
    AddHeldRecounts(k1, n);
    var k2 := AddHeld(k1, n);
    CountsKeep(k1, k2);
    RequiredCovers(k2, n, l);
    EffectiveCoversBase(k);
  }

  lemma FirstIsHighest(k: Kern, l: ListId)
    requires KernInv(k) && !IsStateList(l) && L(k, l) != []
    ensures forall t :: 0 <= t < |k.tcbs| && k.tcbs[t].evt == Some(l) ==> k.tcbs[t].eff <= T(k, L(k, l)[0]).eff
  {
    hide TimersWithin, NoDup;
    var xs := Items(k.lists, l);
    forall t | 0 <= t < |k.tcbs| && k.tcbs[t].evt == Some(l) ensures k.tcbs[t].eff <= T(k, xs[0]).eff {
      assert t in xs;
      var i :| 0 <= i < |xs| && xs[i] == t;
      if i > 0 {
        OrderedAt(xs, (t: TaskId, u: TaskId) => Ahead(k, t, u), 0, i);
      }
    }
  }

  /** Either the wait of `u` goes on, or it has been signalled as first waiter. */
  ghost predicate WaitOrSignal(k: Kern, k': Kern, u: TaskId) {
    KeepsWaiting(k, k', u) || SignalledFirst(k, k', u)
  }

  lemma LockWait(s: Sys, m: nat, timeout: nat, u: TaskId)
    requires SysInv(s) && s.k.cur.Task? && Caller(s, s.k.cur.id) && m in s.owners && timeout < WRAP && BlockedIn(s.k, u)
    ensures KeepsWaiting(s.k, Lock(s, m, timeout).0.k, u)
  {
    hide KernInv, SemInv, QueueInvBut, Continuations, MutexInv, BlockCurrent, SetEffective, Required;
    var t := s.k.cur.id;
    UnplacedCaller(s, t, 0, 0, 0);
    if T(s.k, t).held != 0xFF && s.owners[m].Some? && s.owners[m].value != t && timeout != 0 {
      var o, l := s.owners[m].value, Lockers(m);
      MutexBounds(s, m);
      if timeout != INFINITE {
        WakeTickOk(s.k, timeout);
      }
      var wake, infinite := WakeTick(s.k, timeout), timeout == INFINITE;
      BlockKeeps(s.k, wake, Some(l), infinite);
      BlockOthers(s.k, wake, Some(l), infinite, u);
      BlockSleeps(s.k, wake, Some(l), infinite);
      var k1 := BlockCurrent(s.k, wake, Some(l), infinite);
      SetEffectiveOthers(k1, o, Required(k1, o, l), u);
    }
  }

  lemma ResumeLockWait(s: Sys, t: TaskId, m: nat, u: TaskId)
    requires SysInv(s) && s.k.cur == Task(t) && !s.k.pending && t < |s.pcs| && s.pcs[t] == InLock(m) && BlockedIn(s.k, u)
    ensures KeepsWaiting(s.k, ResumeLock(s, t, m).0.k, u)
  {
    hide KernInv, SemInv, QueueInvBut, Continuations, MutexInv, SetEffective, Required;
    UnplacedCaller(s, t, 0, 0, 0);
    ResumedKern(s.k, t);
    var k1 := WithReason(s.k, t, NoReason);
    if m in s.owners && s.owners[m].Some? {
      MutexBounds(s, m);
      var o := s.owners[m].value;
      var req := Required(k1, o, Lockers(m));
      SetEffectiveOthers(k1, o, if req > T(k1, o).base then req else T(k1, o).base, u);
    }
  }

  lemma UnlockWait(s: Sys, m: nat, u: TaskId)
    requires SysInv(s) && s.k.cur.Task? && Caller(s, s.k.cur.id) && m in s.owners && BlockedIn(s.k, u)
    ensures WaitOrSignal(s.k, Unlock(s, m).0.k, u)
  {
    hide KernInv, SemInv, QueueInvBut, Continuations, MutexInv, Relinquish, DropHeld, Unblock, Inherit, Required, Items;
    var t := s.k.cur.id;
    if s.owners[m] == Some(t) {
      UnplacedCaller(s, t, 0, 0, 0);
      ReleaseTask(s, t, m);
      ReleaseWait(s, t, m, u);
      var k1 := Relinquish(DropHeld(s.k, t), t);
      if L(k1, Lockers(m)) != [] {
        var n := L(k1, Lockers(m))[0];
        FirstWaiter(k1, Lockers(m));
        WaiterBelowCap(s, n, m);
        HandoffNeverRaises(k1, m);
        if n == u {
          UnblockReadies(k1, u, Signaled);
        } else {
          UnblockOthers(k1, n, Signaled, u);
        }
      }
    }
  }

  lemma WaiterBelowCap(s: Sys, n: TaskId, m: nat)
    requires SysInv(s) && Waiting(s, n, Lockers(m))
    ensures s.k.tcbs[n].held < 0xFF
  {
    hide KernInv, SemInv, QueueInvBut, Continuations;
    assert WaiterOk(s, n, s.k.tcbs[n], m);
  }

  /** Releasing changes nothing about the wait lists, because the running task waits on none. */
  lemma ReleaseWait(s: Sys, t: TaskId, m: nat, u: TaskId)
    requires SysInv(s) && Caller(s, t) && m in s.owners && s.owners[m] == Some(t) && BlockedIn(s.k, u)
    ensures var k1 := Relinquish(DropHeld(s.k, t), t);
            KeepsWaiting(s.k, k1, u) && forall l :: !IsStateList(l) ==> L(k1, l) == L(s.k, l)
  {
    hide KernInv, SemInv, QueueInvBut, Continuations, MutexInv, SetEffective, Items;
    UnplacedCaller(s, t, 0, 0, 0);
    MutexBounds(s, m);
    DropHeldRecounts(s.k, t);
    var k0 := DropHeld(s.k, t);
    CountsKeep(s.k, k0);
    SetEffectiveOthers(k0, t, T(k0, t).base, u);
    SetEffectiveLists(k0, t, T(k0, t).base);
  }

  lemma SetEffectiveLists(k: Kern, t: TaskId, p: nat)
    requires KernInv(k) && t < |k.tcbs| && k.tcbs[t].evt.None? && k.tcbs[t].place.None?
    ensures forall l :: L(SetEffective(k, t, p), l) == L(k, l)
    ensures SetEffective(k, t, p).bitmap == k.bitmap
  {
    hide Linked, TimersWithin, Queued, Relevel, Items, Reinserted;
    if !(T(k, t).eff == p || T(k, t).base > p || p >= k.levels) {
      RelevelHasEffect(k, t, p);
    }
  }

  lemma RequestWait(k: Kern, k': Kern, wanted: bool, u: TaskId)
    requires WaitOrSignal(k, k', u)
    ensures WaitOrSignal(k, Request(k', wanted), u)
  {
  }

  lemma SignalWait(k: Kern, l: ListId, wanted: bool, u: TaskId)
    requires KernInv(k) && BlockedIn(k, u) && !IsStateList(l)
    ensures WaitOrSignal(k, WakeFirst(k, l), u) && WaitOrSignal(k, Request(WakeFirst(k, l), wanted), u)
  {
    hide KernInv, WakeFirst, KeepsWaiting, SignalledFirst;
    WakeFirstWait(k, l, u);
    RequestWait(k, WakeFirst(k, l), wanted, u);
  }

  lemma SleepWaits(k: Kern, wake: nat, waitOn: Option<ListId>, infinite: bool, u: TaskId)
    requires KernInv(k) && k.cur.Task? && T(k, k.cur.id).place.None? && BlockedIn(k, u)
    ensures WaitOrSignal(k, Request(BlockCurrent(k, wake, waitOn, infinite), true), u)
  {
    hide KernInv, BlockCurrent;
    BlockOthers(k, wake, waitOn, infinite, u);
  }

  lemma EffectWait(k: Kern, f: Effect, u: TaskId)
    requires KernInv(k) && BlockedIn(k, u) && Fits(k, f)
    ensures WaitOrSignal(k, Apply(k, f), u)
  {
    hide KernInv, BlockCurrent, WakeFirst, WaitOrSignal, Request;
    match f
    case Quiet(wanted) =>
      WaitNone(k, u);
      RequestWait(k, k, wanted, u);
    case Sleep(wake, waitOn, infinite) => SleepWaits(k, wake, waitOn, infinite, u);
    case Wake(l, wanted) => SignalWait(k, l, wanted, u);
  }

  lemma ResumeWait(s: Sys, t: TaskId, u: TaskId)
    requires SysInv(s) && s.k.cur == Task(t) && !s.k.pending && t < |s.pcs| && BlockedIn(s.k, u)
    ensures WaitOrSignal(s.k, ResumeStep(s, t).0.k, u)
  {
    hide KernInv, SemInv, QueueInvBut, Continuations, MutexInv, ResumeLock, WaitOrSignal, Apply;
    UnplacedCaller(s, t, 0, 0, 0);
    if s.pcs[t].InLock? {
      ResumeLockWait(s, t, s.pcs[t].mutex, u);
      WaitSame(s.k, ResumeLock(s, t, s.pcs[t].mutex).0.k, u);
    } else {
      ResumedKern(s.k, t);
      var k, f := ResumeEffect(s, t);
      EffectWait(k, f, u);
      WaitFrom(s.k, k, Apply(k, f), t, u);
    }
  }

  lemma WaitSame(k: Kern, k': Kern, u: TaskId)
    requires KeepsWaiting(k, k', u)
    ensures WaitOrSignal(k, k', u)
  {
  }

  lemma WaitFrom(k: Kern, k1: Kern, k': Kern, t: TaskId, u: TaskId)
    requires (k1 == k || k1 == WithReason(k, t, NoReason)) && u != t && u < |k.tcbs| && WaitOrSignal(k1, k', u)
    ensures WaitOrSignal(k, k', u)
  {
  }

  lemma CallWait(s: Sys, e: Event, u: TaskId)
    requires SysInv(s) && Enabled(s, e) && IsTaskCall(e) && BlockedIn(s.k, u)
    ensures WaitOrSignal(s.k, Step(s, e).k, u)
  {
    hide KernInv, SemInv, QueueInvBut, Continuations, MutexInv, Lock, Unlock, WaitOrSignal, Apply, Step;
    UnplacedCaller(s, s.k.cur.id, 0, 0, 0);
    MutexCallIs(s, if e.LockCall? || e.UnlockCall? then e.mutex else 0, if e.LockCall? then e.timeout else 0);
    if e.LockCall? {
      LockWait(s, e.mutex, e.timeout, u);
      WaitSame(s.k, Step(s, e).k, u);
    } else if e.UnlockCall? {
      UnlockWait(s, e.mutex, u);
    } else {
      var f := CallEffect(s, e);
      EffectWait(s.k, f, u);
    }
  }

  lemma WaitNone(k: Kern, u: TaskId)
    ensures WaitOrSignal(k, k, u)
  {
  }

  lemma IsrWait(s: Sys, e: Event, u: TaskId)
    requires SysInv(s) && Enabled(s, e) && BlockedIn(s.k, u)
    requires e.TakeFromIsr? || e.SignalFromIsr? || e.EnqueueFromIsr? || e.DequeueFromIsr?
    ensures WaitOrSignal(s.k, Step(s, e).k, u)
  {
    hide SysInvBut, WakeFirst, WaitOrSignal, Request, FirstIsHigher, SemOf, QueueOf, LogSignal, LogTake, WithCount;
    WaitNone(s.k, u);
    IsrKern(s, e);
    if !e.TakeFromIsr? {
      RequestWait(s.k, s.k, e.andYield && !s.k.cur.NoTask?, u);
      IsrSignal(s, IsrList(e), e.andYield, u);
    }
  }

  /** The wait list that an interrupt call may signal. */
  ghost function IsrList(e: Event): ListId {
    match e
    case SignalFromIsr(x, _) => Takers(x)
    case EnqueueFromIsr(q, _, _) => Readers(q)
    case DequeueFromIsr(q, _) => Writers(q)
    case _ => Suspended
  }

  /** To the scheduler, an interrupt call wakes the first waiter of its list or does nothing. */
  lemma IsrKern(s: Sys, e: Event)
    requires e.TakeFromIsr? || e.SignalFromIsr? || e.EnqueueFromIsr? || e.DequeueFromIsr?
    ensures e.TakeFromIsr? ==> Step(s, e).k == s.k
    ensures !e.TakeFromIsr? ==>
              var k1 := WakeFirst(s.k, IsrList(e));
              || Step(s, e).k == Request(s.k, e.andYield && !s.k.cur.NoTask?)
              || Step(s, e).k == Request(k1, e.andYield && !k1.cur.NoTask?)
  {
    hide WakeFirst, FirstIsHigher, Request;
  }

  lemma IsrSignal(s: Sys, l: ListId, y: bool, u: TaskId)
    requires SysInv(s) && BlockedIn(s.k, u) && !IsStateList(l)
    ensures var k' := WakeFirst(s.k, l);
            WaitOrSignal(s.k, Request(k', y && !k'.cur.NoTask?), u)
  {
    hide KernInv, SemInv, QueueInvBut, Continuations, MutexInv, Items, WakeFirst, WaitOrSignal, Request;
    var k' := WakeFirst(s.k, l);
    SignalWait(s.k, l, y && !k'.cur.NoTask?, u);
  }

  /**
   One step of a wait. The task goes on waiting with the same deadline, which is still ahead; or this is
   the tick at its deadline and it is ready, timed out; or it was first in line and is ready, signalled.
   */
  lemma WaitStep(s: Sys, e: Event, u: TaskId)
    requires SysInv(s) && Enabled(s, e) && BlockedIn(s.k, u)
    ensures var k, k' := s.k, Step(s, e).k;
            || (KeepsWaiting(k, k', u) && (Timed(T(k, u)) ==> k'.clock < A(k, u).deadline))
            || (e.Tick? && Timed(T(k, u)) && A(k, u).deadline == k'.clock
                && T(k', u).place == Some(Ready(T(k', u).eff)) && T(k', u).evt.None? && T(k', u).reason == TimedOut)
            || (!e.Tick? && SignalledFirst(k, k', u))
  {
    hide KernInv, SemInv, QueueInvBut, Continuations, MutexInv, Items, ResumeStep, CreateStep, SelectNext, StartFirst, Kernel.Tick,
      Wait, WaitUntil, Lock, Unlock, Take, Signal, Enqueue, Dequeue, GiveToken, EnqueueIsr, DequeueIsr, TakeIsr;
    WaitStepBody(s, e, u);
    StepKeeps(s, e);
    if KeepsWaiting(s.k, Step(s, e).k, u) {
      DeadlineAhead(Step(s, e).k, u);
    } else if e.Tick? {
      TickClock(s.k);
    }
  }

  lemma TickClock(k: Kern)
    requires KernInv(k)
    ensures Kernel.Tick(k).clock == k.clock + 1
  {
    hide Linked, Placed, TimersWithin, Queued, Kernel.Tick;
    TickKeeps(k);
  }

  lemma DeadlineAhead(k: Kern, u: TaskId)
    requires KernInv(k) && BlockedIn(k, u)
    ensures Timed(k.tcbs[u]) ==> k.clock < A(k, u).deadline
  {
    hide Linked, Placed, Queued, DeadlineOrder;
    if Timed(k.tcbs[u]) {
      assert TimedTask(k, u, 0);
    }
  }

  lemma WaitStepBody(s: Sys, e: Event, u: TaskId)
    requires SysInv(s) && Enabled(s, e) && BlockedIn(s.k, u)
    ensures !e.Tick? ==> WaitOrSignal(s.k, Step(s, e).k, u)
    ensures e.Tick? ==>
              if Timed(s.k.tcbs[u]) && A(s.k, u).deadline == s.k.clock + 1
              then T(Step(s, e).k, u) == s.k.tcbs[u].(place := Some(Ready(s.k.tcbs[u].eff)), evt := None, reason := TimedOut)
              else KeepsWaiting(s.k, Step(s, e).k, u)
  {
    hide SysInvBut, Items, ResumeStep, SelectNext, StartFirst, Kernel.Tick, CreateTask,
      Wait, WaitUntil, Lock, Unlock, Take, Signal, Enqueue, Dequeue, GiveToken, EnqueueIsr, DequeueIsr, TakeIsr;
    KernOf(s);
    if IsTaskCall(e) {
      CallWait(s, e, u);
    } else if e.TakeFromIsr? || e.SignalFromIsr? || e.EnqueueFromIsr? || e.DequeueFromIsr? {
      IsrWait(s, e, u);
    } else {
      match e
      case Create(ok, words, prio) =>
        if CreateStatus(s.k, ok, words, prio) == Ok {
          CreateOthers(s.k, prio, u);
        }
      case Start => StartOthers(s.k, u);
      case Switch => SwitchOthers(s.k, u);
      case Tick => TickOthers(s.k, u);
      case YieldIsr =>
      case Resume => ResumeWait(s, s.k.cur.id, u);
    }
  }

  lemma KernOf(s: Sys)
    requires SysInv(s)
    ensures KernInv(s.k)
  {
    hide KernInv, SemInv, QueueInvBut, Continuations, MutexInv;
  }
}
