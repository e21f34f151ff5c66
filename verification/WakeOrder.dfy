/**
 Equal deadlines. Two tasks that block one after the other with the same deadline, and are
 not signalled before it, become ready in the order in which they blocked, even when the
 32-bit counter wraps between the two blocks or after them.
 */
module WakeOrder {
  import opened Kernel
  import opened KernelInvariants
  import opened TaskViews
  import opened System
  import opened Effects
  import opened SystemInvariants
  import opened MutexInvariants
  import opened SystemProof
  import opened Lifecycle
  import opened Timing
  import opened Outcomes
  import opened Theorems

  /** If `u` waits for a time in `k'`, its place in the order of blocks is the one that was next in `k`. */
  ghost predicate NextInOrder(k: Kern, k': Kern, u: TaskId) {
    BlockedIn(k', u) && Timed(T(k', u)) ==> A(k', u).order == k.serial
  }

  lemma SleepOrder(k: Kern, wake: nat, waitOn: Option<ListId>, infinite: bool)
    requires KernInv(k) && k.cur.Task? && T(k, k.cur.id).place.None?
    ensures NextInOrder(k, Request(BlockCurrent(k, wake, waitOn, infinite), true), k.cur.id)
  {
    hide KernInv, BlockCurrent;
    BlockStarts(k, wake, waitOn, infinite);
  }

  lemma AwakeOrder(k: Kern, k': Kern, u: TaskId)
    requires KeepsReason(k, k', u)
    ensures NextInOrder(k, k', u)
  {
  }

  lemma SignalOrder(k: Kern, l: ListId, wanted: bool, u: TaskId)
    requires KernInv(k) && AwakeIn(k, u) && !IsStateList(l)
    ensures NextInOrder(k, Request(WakeFirst(k, l), wanted), u)
  {
    hide KernInv, WakeFirst, KeepsReason;
    SignalReason(k, l, wanted, u);
    AwakeOrder(k, Request(WakeFirst(k, l), wanted), u);
  }

  lemma QuietOrder(k: Kern, wanted: bool, u: TaskId)
    requires AwakeIn(k, u)
    ensures NextInOrder(k, k, u) && NextInOrder(k, Request(k, wanted), u)
  {
  }

  lemma EffectOrder(k: Kern, f: Effect, t: TaskId)
    requires KernInv(k) && k.cur == Task(t) && AwakeIn(k, t) && Fits(k, f)
    ensures NextInOrder(k, Apply(k, f), t)
  {
    hide KernInv, BlockCurrent, WakeFirst, Request, NextInOrder;
    match f
    case Quiet(wanted) => QuietOrder(k, wanted, t);
    case Sleep(wake, waitOn, infinite) => SleepOrder(k, wake, waitOn, infinite);
    case Wake(l, wanted) => SignalOrder(k, l, wanted, t);
  }

  lemma LockOrder(s: Sys, t: TaskId, m: nat, timeout: nat)
    requires SysInv(s) && Enabled(s, LockCall(m, timeout)) && s.k.cur == Task(t)
    ensures NextInOrder(s.k, Lock(s, m, timeout).0.k, t)
  {
    hide KernInv, SemInv, QueueInvBut, Continuations, MutexInv, BlockCurrent, SetEffective, Required, AddHeld;
    UnplacedCaller(s, t, 0, 0, 0);
    if Lock(s, m, timeout).1.Blocks? {
      var o, l := s.owners[m].value, Lockers(m);
      MutexBounds(s, m);
      if timeout != INFINITE {
        WakeTickOk(s.k, timeout);
      }
      var wake, infinite := WakeTick(s.k, timeout), timeout == INFINITE;
      BlockStarts(s.k, wake, Some(l), infinite);
      BlockKeeps(s.k, wake, Some(l), infinite);
      BlockSleeps(s.k, wake, Some(l), infinite);
      var k1 := BlockCurrent(s.k, wake, Some(l), infinite);
      SetEffectiveOthers(k1, o, Required(k1, o, l), t);
    } else {
      AddHeldAwake(s.k, t);
    }
  }

  lemma AddHeldAwake(k: Kern, t: TaskId)
    requires AwakeIn(k, t)
    ensures AwakeIn(AddHeld(k, t), t)
  {
  }

  lemma ResumeLockOrder(s: Sys, t: TaskId, m: nat)
    requires SysInv(s) && s.k.cur == Task(t) && !s.k.pending && t < |s.pcs| && s.pcs[t] == InLock(m)
    ensures NextInOrder(s.k, ResumeLock(s, t, m).0.k, t)
  {
    hide KernInv, SemInv, QueueInvBut, Continuations, MutexInv, SetEffective, Required;
    UnplacedCaller(s, t, 0, 0, 0);
    ResumedKern(s.k, t);
    var k1 := WithReason(s.k, t, NoReason);
    if m in s.owners && s.owners[m].Some? {
      MutexBounds(s, m);
      var o := s.owners[m].value;
      var req := Required(k1, o, Lockers(m));
      SetEffectiveReason(k1, o, if req > T(k1, o).base then req else T(k1, o).base, t);
    }
  }

  lemma CallOrder(s: Sys, e: Event, t: TaskId)
    requires SysInv(s) && Enabled(s, e) && IsTaskCall(e) && s.k.cur == Task(t)
    ensures NextInOrder(s.k, Step(s, e).k, t)
  {
    hide SysInvBut, Lock, Unlock, NextInOrder, KeepsReason, Apply, Step;
    KernOf(s);
    UnplacedCaller(s, t, 0, 0, 0);
    MutexCallIs(s, if e.LockCall? || e.UnlockCall? then e.mutex else 0, if e.LockCall? then e.timeout else 0);
    if e.LockCall? {
      LockOrder(s, t, e.mutex, e.timeout);
    } else if e.UnlockCall? {
      UnlockReason(s, e.mutex, t);
      AwakeOrder(s.k, Unlock(s, e.mutex).0.k, t);
    } else {
      var f := CallEffect(s, e);
      EffectOrder(s.k, f, t);
    }
  }

  lemma ResumeOrder(s: Sys, t: TaskId)
    requires SysInv(s) && s.k.cur == Task(t) && !s.k.pending && t < |s.pcs|
    ensures NextInOrder(s.k, ResumeStep(s, t).0.k, t)
  {
    hide KernInv, SemInv, QueueInvBut, Continuations, MutexInv, ResumeLock, Apply;
    UnplacedCaller(s, t, 0, 0, 0);
    if s.pcs[t].InLock? {
      ResumeLockOrder(s, t, s.pcs[t].mutex);
    } else {
      ResumedKern(s.k, t);
      var k, f := ResumeEffect(s, t);
      EffectOrder(k, f, t);
    }
  }

  /** The step that makes `u` wait for a time gives it the next place in the order of blocks. */
  lemma BlockTakesNext(s: Sys, e: Event, u: TaskId)
    requires SysInv(s) && Enabled(s, e) && AwakeIn(s.k, u) && BlockedIn(Step(s, e).k, u) && Timed(T(Step(s, e).k, u))
    ensures A(Step(s, e).k, u).order == s.k.serial
  {
    hide SysInvBut, Step, ResumeStep;
    if s.k.cur == Task(u) && IsTaskCall(e) {
      CallOrder(s, e, u);
    } else if s.k.cur == Task(u) && e.Resume? {
      ResumeIs(s);
      ResumeOrder(s, u);
    } else {
      AwakeStep(s, e, u);
    }
  }

  lemma OrderIsPast(k: Kern, t: TaskId)
    requires KernInv(k) && BlockedIn(k, t) && Timed(k.tcbs[t])
    ensures A(k, t).order < k.serial
  {
    hide Linked, Placed, Queued, DeadlineOrder;
    assert TimedTask(k, t, 0);
  }

  /** `u` starts to wait for a time at step `a`. */
  ghost predicate BlocksAt(ss: seq<Sys>, a: nat, u: TaskId)
    requires a + 1 < |ss|
  {
    AwakeIn(ss[a].k, u) && BlockedIn(ss[a + 1].k, u) && Timed(T(ss[a + 1].k, u))
  }

  /** The later of two blocks, with the earlier wait still on, has the later place. */
  lemma LaterBlockComesLater(ss: seq<Sys>, es: seq<Event>, a: nat, b: nat, t: TaskId, u: TaskId)
    requires Run(ss, es) && a < b < |es| && BlocksAt(ss, a, t) && BlocksAt(ss, b, u)
    requires NotSignalled(ss, t, a + 1, b) && ss[b].k.clock < A(ss[a + 1].k, t).deadline
    ensures A(ss[a + 1].k, t).order < A(ss[b + 1].k, u).order
  {
    hide Initial, Step, Enabled, SysInvBut, SignalledFirst;
    Always(ss, es, b);
    KernOf(ss[b]);
    WaitGoesOn(ss, es, a + 1, b, t);
    OrderIsPast(ss[b].k, t);
    BlockTakesNext(ss[b], es[b], u);
  }

  /** Tasks of one priority that wait for the same tick become ready in the order in which they blocked. */
  lemma SameDeadlineWakeOrder(ss: seq<Sys>, es: seq<Event>, a: nat, b: nat, n: nat, t: TaskId, u: TaskId)
    requires Run(ss, es) && a < b < n < |es| && BlocksAt(ss, a, t) && BlocksAt(ss, b, u)
    requires NotSignalled(ss, t, a + 1, n) && NotSignalled(ss, u, b + 1, n)
    requires es[n].Tick? && A(ss[a + 1].k, t).deadline == A(ss[b + 1].k, u).deadline == ss[n].k.clock + 1
    requires T(ss[n].k, t).eff == T(ss[n].k, u).eff
    ensures InFrontOf(L(ss[n + 1].k, Ready(T(ss[n].k, t).eff)), t, u)
  {
    hide Initial, Step, Enabled, SysInvBut, SignalledFirst, InFrontOf;
    ClockMonotone(ss, es, b, n);
    LaterBlockComesLater(ss, es, a, b, t, u);
    WaitGoesOn(ss, es, a + 1, n, t);
    WaitGoesOn(ss, es, b + 1, n, u);
    TickWakesInOrder(ss, es, n, t, u);
  }
}
