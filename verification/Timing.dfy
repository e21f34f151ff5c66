/**
 Timeouts over whole runs: a wait of `d` ticks ends by timeout exactly `d` ticks after it
 began, across any number of wraps of the 32-bit counter, and the reason it records is
 still there when the task resumes.
 */
module Timing {
  import opened Kernel
  import opened KernelInvariants
  import opened TaskViews
  import opened System
  import opened Effects
  import opened SystemInvariants
  import opened MutexInvariants
  import opened SystemProof
  import opened Lifecycle

  // ---------------------------------------------------------------- The clock

  lemma MutexClock(s: Sys, m: nat, timeout: nat, t: TaskId)
    ensures Lock(s, m, timeout).0.k.clock == s.k.clock
    ensures Unlock(s, m).0.k.clock == s.k.clock
    ensures ResumeLock(s, t, m).0.k.clock == s.k.clock
  {
    hide BlockCurrent, Inherit, Relinquish, Disinherit, Unblock, Required, Items;
  }

  lemma EffectClock(k: Kern, f: Effect)
    ensures Apply(k, f).clock == k.clock
  {
    hide BlockCurrent, WakeFirst;
  }

  lemma CallClock(s: Sys, e: Event)
    requires IsTaskCall(e)
    ensures Step(s, e).k.clock == s.k.clock
  {
    hide Lock, Unlock, Apply, Step;
    if e.LockCall? || e.UnlockCall? {
      MutexCallIs(s, e.mutex, if e.LockCall? then e.timeout else 0);
      MutexClock(s, e.mutex, if e.LockCall? then e.timeout else 0, 0);
    } else {
      var f := CallEffect(s, e);
      EffectClock(s.k, f);
    }
  }

  lemma ResumeClock(s: Sys, t: TaskId)
    ensures ResumeStep(s, t).0.k.clock == s.k.clock
  {
    hide ResumeLock, Apply;
    if PcOf(s, t).InLock? {
      MutexClock(s, PcOf(s, t).mutex, 0, t);
    } else {
      var k, f := ResumeEffect(s, t);
      EffectClock(k, f);
    }
  }

  /** Only a tick moves the clock, and by one. */
  lemma StepClock(s: Sys, e: Event)
    requires SysInv(s)
    ensures Step(s, e).k.clock == s.k.clock + if e.Tick? then 1 else 0
  {
    hide SysInvBut, ResumeStep, SelectNext, StartFirst, Kernel.Tick, WakeFirst, Items, InsertReady,
      Wait, WaitUntil, Lock, Unlock, Take, Signal, Enqueue, Dequeue;
    if IsTaskCall(e) {
      CallClock(s, e);
    } else if e.Tick? {
      KernOf(s);
      TickClock(s.k);
    } else if e.Resume? {
      ResumeClock(s, if s.k.cur.Task? then s.k.cur.id else 0);
    }
  }

  lemma {:induction false} ClockMonotone(ss: seq<Sys>, es: seq<Event>, i: nat, j: nat)
    requires Run(ss, es) && i <= j < |ss|
    ensures ss[i].k.clock <= ss[j].k.clock
  {
    hide Initial, Step, Enabled, SysInvBut;
    if i == j {
    } else {
      ClockMonotone(ss, es, i, j - 1);
      Always(ss, es, j - 1);
      StepClock(ss[j - 1], es[j - 1]);
    }
  }

  // ---------------------------------------------------------------- Whole waits

  ghost predicate NotSignalled(ss: seq<Sys>, u: TaskId, i: nat, j: nat) {
    forall x :: i <= x < j && x + 1 < |ss| ==> !SignalledFirst(ss[x].k, ss[x + 1].k, u)
  }

  /** An unsignalled wait goes on unchanged for as long as its deadline is ahead. */
  lemma {:induction false} WaitGoesOn(ss: seq<Sys>, es: seq<Event>, i: nat, j: nat, u: TaskId)
    requires Run(ss, es) && i <= j < |ss| && BlockedIn(ss[i].k, u) && Timed(T(ss[i].k, u)) && NotSignalled(ss, u, i, j)
    requires ss[j].k.clock < A(ss[i].k, u).deadline
    ensures BlockedIn(ss[j].k, u) && KeepsWaiting(ss[i].k, ss[j].k, u)
  {
    hide Initial, Step, Enabled, SysInvBut, SignalledFirst;
    if i == j {
    } else {
      ClockMonotone(ss, es, j - 1, j);
      WaitGoesOn(ss, es, i, j - 1, u);
      Always(ss, es, j - 1);
      WaitStep(ss[j - 1], es[j - 1], u);
    }
  }

  /** An unsignalled wait ends at the very tick that reaches its deadline, with the reason "timed out". */
  lemma TimeoutIsExact(ss: seq<Sys>, es: seq<Event>, i: nat, j: nat, u: TaskId)
    requires Run(ss, es) && i < j < |ss| && BlockedIn(ss[i].k, u) && Timed(T(ss[i].k, u)) && NotSignalled(ss, u, i, j)
    requires ss[j - 1].k.clock < A(ss[i].k, u).deadline <= ss[j].k.clock
    ensures es[j - 1].Tick? && ss[j].k.clock == A(ss[i].k, u).deadline
    ensures T(ss[j].k, u).place == Some(Ready(T(ss[j].k, u).eff)) && T(ss[j].k, u).reason == TimedOut && T(ss[j].k, u).evt.None?
  {
    hide Initial, Step, Enabled, SysInvBut, SignalledFirst;
    WaitGoesOn(ss, es, i, j - 1, u);
    Always(ss, es, j - 1);
    StepClock(ss[j - 1], es[j - 1]);
    WaitStep(ss[j - 1], es[j - 1], u);
  }

  /** `artos_wait(d)` blocks the caller with the absolute deadline `now + d`, and no signal can end it early. */
  lemma WaitStarts(s: Sys, d: nat)
    requires SysInv(s) && Enabled(s, WaitCall(d)) && 0 < d < INFINITE
    ensures var t, k' := s.k.cur.id, Step(s, WaitCall(d)).k;
            BlockedIn(k', t) && Timed(T(k', t)) && T(k', t).evt.None? && A(k', t).deadline == s.k.clock + d && k'.pending
  {
    hide KernInv, SemInv, QueueInvBut, Continuations, MutexInv, BlockCurrent;
    UnplacedCaller(s, s.k.cur.id, 0, 0, 0);
    WakeTickOk(s.k, d);
    BlockStarts(s.k, WakeTick(s.k, d), None, false);
  }

  /** `artos_wait_until(w)` blocks for the distance to `w` when it lies in 1..0x7fffffff, and else only yields. */
  lemma WaitUntilStarts(s: Sys, wake: nat)
    requires SysInv(s) && Enabled(s, WaitUntilCall(wake))
    ensures var t, k' := s.k.cur.id, Step(s, WaitUntilCall(wake)).k;
            var d := Distance(s.k, wake);
            if 0 < d < HALF
            then BlockedIn(k', t) && Timed(T(k', t)) && T(k', t).evt.None? && A(k', t).deadline == s.k.clock + d && k'.pending
            else k' == Request(s.k, true)
  {
    hide KernInv, SemInv, QueueInvBut, Continuations, MutexInv, BlockCurrent;
    UnplacedCaller(s, s.k.cur.id, 0, 0, 0);
    if 0 < Distance(s.k, wake) < HALF {
      BlockStarts(s.k, wake, None, false);
    }
  }

  /** A semaphore take that blocks with timeout `d` has the deadline `now + d`. */
  lemma TakeStarts(s: Sys, x: nat, d: nat)
    requires SysInv(s) && Enabled(s, TakeCall(x, d)) && 0 < d < INFINITE && s.sems[x].count == 0
    ensures var t, k' := s.k.cur.id, Step(s, TakeCall(x, d)).k;
            BlockedIn(k', t) && Timed(T(k', t)) && T(k', t).evt == Some(Takers(x)) && A(k', t).deadline == s.k.clock + d
  {
    hide KernInv, SemInv, QueueInvBut, Continuations, MutexInv, BlockCurrent;
    UnplacedCaller(s, s.k.cur.id, 0, 0, 0);
    WakeTickOk(s.k, d);
    BlockStarts(s.k, WakeTick(s.k, d), Some(Takers(x)), false);
  }

  /** So does a lock that blocks: inheritance does not disturb the caller's own wait. */
  lemma LockStarts(s: Sys, m: nat, d: nat)
    requires SysInv(s) && Enabled(s, LockCall(m, d)) && 0 < d < INFINITE && Lock(s, m, d).1.Blocks?
    ensures var t, k' := s.k.cur.id, Step(s, LockCall(m, d)).k;
            BlockedIn(k', t) && Timed(T(k', t)) && T(k', t).evt == Some(Lockers(m)) && A(k', t).deadline == s.k.clock + d
  {
    hide KernInv, SemInv, QueueInvBut, Continuations, MutexInv, BlockCurrent, SetEffective, Required;
    var t := s.k.cur.id;
    UnplacedCaller(s, t, 0, 0, 0);
    MutexBounds(s, m);
    WakeTickOk(s.k, d);
    var o, l := s.owners[m].value, Lockers(m);
    BlockStarts(s.k, WakeTick(s.k, d), Some(l), false);
    BlockKeeps(s.k, WakeTick(s.k, d), Some(l), false);
    BlockSleeps(s.k, WakeTick(s.k, d), Some(l), false);
    var k1 := BlockCurrent(s.k, WakeTick(s.k, d), Some(l), false);
    SetEffectiveOthers(k1, o, Required(k1, o, l), t);
  }

  /** A plain wait of `d` ticks: blocked at every state before `now + d`, ready at the tick that reaches it. */
  lemma WaitLasts(ss: seq<Sys>, es: seq<Event>, i: nat, j: nat, d: nat)
    requires Run(ss, es) && i < j < |ss| && es[i] == WaitCall(d) && 0 < d < INFINITE
    ensures ss[i].k.cur.Task?
    ensures var t, due := ss[i].k.cur.id, ss[i].k.clock + d;
            && (ss[j].k.clock < due ==> BlockedIn(ss[j].k, t))
            && (ss[j - 1].k.clock < due <= ss[j].k.clock ==>
                  ss[j].k.clock == due && T(ss[j].k, t).place == Some(Ready(T(ss[j].k, t).eff)))
  {
    hide Initial, Step, SysInvBut, SignalledFirst;
    assert Enabled(ss[i], es[i]);
    var t, due := ss[i].k.cur.id, ss[i].k.clock + d;
    Always(ss, es, i);
    WaitStarts(ss[i], d);
    if ss[j].k.clock < due {
      PlainWaitUnsignalled(ss, es, i + 1, j, t);
      WaitGoesOn(ss, es, i + 1, j, t);
    } else if ss[j - 1].k.clock < due {
      if j == i + 1 {
        StepClock(ss[i], es[i]);
      } else {
        PlainWaitUnsignalled(ss, es, i + 1, j - 1, t);
        WaitGoesOn(ss, es, i + 1, j - 1, t);
        PlainNeverSignalled(ss[j - 1].k, ss[j].k, t);
        TimeoutIsExact(ss, es, i + 1, j, t);
      }
    }
  }

  lemma PlainNeverSignalled(k: Kern, k': Kern, t: TaskId)
    requires T(k, t).evt.None?
    ensures !SignalledFirst(k, k', t)
  {
  }

  lemma {:induction false} PlainWaitUnsignalled(ss: seq<Sys>, es: seq<Event>, i: nat, j: nat, t: TaskId)
    requires Run(ss, es) && i <= j < |ss| && BlockedIn(ss[i].k, t) && Timed(T(ss[i].k, t)) && T(ss[i].k, t).evt.None?
    requires ss[j].k.clock < A(ss[i].k, t).deadline
    ensures NotSignalled(ss, t, i, j)
  {
    hide Initial, Step, Enabled, SysInvBut, SignalledFirst;
    if i == j {
    } else {
      ClockMonotone(ss, es, j - 1, j);
      PlainWaitUnsignalled(ss, es, i, j - 1, t);
      WaitGoesOn(ss, es, i, j - 1, t);
      PlainNeverSignalled(ss[j - 1].k, ss[j].k, t);
    }
  }
}
