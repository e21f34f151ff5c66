/**
 What a call does to the scheduler. Apart from the mutex operations, every call and every
 resumption comes to one of three things: at most a switch request, the caller going to
 sleep, or a wake-up of the first waiter of one list.
 */
module Effects {
  import opened Kernel
  import opened System

  datatype Effect =
    | Quiet(wanted: bool)
    | Sleep(wake: nat, waitOn: Option<ListId>, infinite: bool)
    | Wake(l: ListId, wanted: bool)

  function Apply(k: Kern, f: Effect): Kern {
    match f
    case Quiet(wanted) => Request(k, wanted)
    case Sleep(wake, waitOn, infinite) => Request(BlockCurrent(k, wake, waitOn, infinite), true)
    case Wake(l, wanted) => Request(WakeFirst(k, l), wanted)
  }

  /** Waits and wake-ups are on wait lists, and only a task that is linked nowhere goes to sleep. */
  ghost predicate Fits(k: Kern, f: Effect) {
    match f
    case Quiet(_) => true
    case Sleep(_, waitOn, _) => k.cur.Task? && T(k, k.cur.id).place.None? && (waitOn.Some? ==> !IsStateList(waitOn.value))
    case Wake(l, _) => !IsStateList(l)
  }

  /** A wake-up asks for a switch exactly when the first waiter outranks the running task. */
  ghost predicate Exact(k: Kern, f: Effect) {
    f.Wake? ==> f.wanted == FirstIsHigher(k, f.l)
  }

  /** A task that may make its next kernel step is linked nowhere. */
  ghost predicate Unlinked(k: Kern) {
    k.cur.Task? && T(k, k.cur.id).place.None?
  }

  lemma Unrequested(k: Kern)
    ensures Request(k, false) == k
  {
  }

  lemma EnqueueEffect(s: Sys, t: TaskId, q: nat, data: seq<Byte>, wake: nat, infinite: bool, due: nat) returns (f: Effect)
    ensures TryEnqueue(s, t, q, data, wake, infinite, due).0.k == Apply(s.k, f) && (Unlinked(s.k) ==> Fits(s.k, f)) && Exact(s.k, f)
  {
    hide BlockCurrent, WakeFirst, FirstIsHigher, Expired, Request, QueueOf, QueueLogOf;
    Unrequested(s.k);
    if QueueOf(s, q).count != QueueOf(s, q).capacity {
      f := Wake(Readers(q), FirstIsHigher(s.k, Readers(q)));
    } else if Expired(s.k, wake, infinite) {
      f := Quiet(false);
    } else {
      f := Sleep(wake, Some(Writers(q)), infinite);
    }
  }

  lemma DequeueEffect(s: Sys, t: TaskId, q: nat, wake: nat, infinite: bool, due: nat) returns (f: Effect)
    ensures TryDequeue(s, t, q, wake, infinite, due).0.k == Apply(s.k, f) && (Unlinked(s.k) ==> Fits(s.k, f)) && Exact(s.k, f)
  {
    hide BlockCurrent, WakeFirst, FirstIsHigher, Expired, Request, QueueOf, QueueLogOf;
    Unrequested(s.k);
    if QueueOf(s, q).count != 0 {
      f := Wake(Writers(q), FirstIsHigher(s.k, Writers(q)));
    } else if Expired(s.k, wake, infinite) {
      f := Quiet(false);
    } else {
      f := Sleep(wake, Some(Readers(q)), infinite);
    }
  }

  lemma WaitEffect(s: Sys, ticks: nat) returns (f: Effect)
    ensures Wait(s, ticks).k == Apply(s.k, f) && (Unlinked(s.k) ==> Fits(s.k, f)) && Exact(s.k, f)
  {
    hide BlockCurrent, Request, WakeTick;
    f := if ticks == 0 || !s.k.cur.Task? then Quiet(true) else Sleep(WakeTick(s.k, ticks), None, ticks == INFINITE);
  }

  lemma WaitUntilEffect(s: Sys, wake: nat) returns (f: Effect)
    ensures WaitUntil(s, wake).k == Apply(s.k, f) && (Unlinked(s.k) ==> Fits(s.k, f)) && Exact(s.k, f)
  {
    hide BlockCurrent, Request;
    var d := Distance(s.k, wake);
    f := if d == 0 || d >= HALF || !s.k.cur.Task? then Quiet(true) else Sleep(wake, None, false);
  }

  lemma TakeEffect(s: Sys, x: nat, timeout: nat) returns (f: Effect)
    ensures Take(s, x, timeout).0.k == Apply(s.k, f) && (Unlinked(s.k) ==> Fits(s.k, f)) && Exact(s.k, f)
  {
    hide BlockCurrent, WakeFirst, FirstIsHigher, Request, WakeTick, Items;
    Unrequested(s.k);
    f := if SemOf(s, x).count > 0 || timeout == 0 || !s.k.cur.Task? then Quiet(false)
         else Sleep(WakeTick(s.k, timeout), Some(Takers(x)), timeout == INFINITE);
  }

  lemma SignalEffect(s: Sys, x: nat) returns (f: Effect)
    ensures Signal(s, x).0.k == Apply(s.k, f) && (Unlinked(s.k) ==> Fits(s.k, f)) && Exact(s.k, f)
  {
    hide BlockCurrent, WakeFirst, FirstIsHigher, Request, WakeTick, Items;
    Unrequested(s.k);
    f := if SemOf(s, x).count != 0 || L(s.k, Takers(x)) == [] then Quiet(false)
         else Wake(Takers(x), FirstIsHigher(s.k, Takers(x)));
  }

  lemma CallEffect(s: Sys, e: Event) returns (f: Effect)
    requires IsTaskCall(e) && !e.LockCall? && !e.UnlockCall?
    ensures Step(s, e).k == Apply(s.k, f) && (Unlinked(s.k) ==> Fits(s.k, f)) && Exact(s.k, f)
  {
    hide Wait, WaitUntil, Take, Signal, TryEnqueue, TryDequeue, Request, WakeTick, FirstIsHigher, WakeFirst, BlockCurrent;
    Unrequested(s.k);
    match e
    case Yield => f := Quiet(true);
    case WaitCall(ticks) => f := WaitEffect(s, ticks);
    case WaitUntilCall(wake) => f := WaitUntilEffect(s, wake);
    case TakeCall(x, timeout) => f := TakeEffect(s, x, timeout);
    case SignalCall(x) => f := SignalEffect(s, x);
    case EnqueueCall(q, data, timeout) =>
      if s.k.cur.Task? {
        f := EnqueueEffect(s, s.k.cur.id, q, data, WakeTick(s.k, timeout), timeout == INFINITE, s.k.clock + timeout);
      } else {
        f := Quiet(false);
      }
    case DequeueCall(q, timeout) =>
      if s.k.cur.Task? {
        f := DequeueEffect(s, s.k.cur.id, q, WakeTick(s.k, timeout), timeout == INFINITE, s.k.clock + timeout);
      } else {
        f := Quiet(false);
      }
  }

  /** A resumption first reads and clears the reason, except that of a plain wait. */
  lemma ResumeEffect(s: Sys, t: TaskId) returns (k: Kern, f: Effect)
    requires !PcOf(s, t).InLock?
    ensures k == if PcOf(s, t).Free? || PcOf(s, t).InWait? then s.k else WithReason(s.k, t, NoReason)
    ensures ResumeStep(s, t).0.k == Apply(k, f) && (Unlinked(k) ==> Fits(k, f)) && Exact(k, f)
  {
    hide TryEnqueue, TryDequeue, Request, WithReason, FirstIsHigher, WakeFirst, BlockCurrent;
    var pc := PcOf(s, t);
    k := if pc.Free? || pc.InWait? then s.k else WithReason(s.k, t, NoReason);
    f := Quiet(false);
    Unrequested(k);
    if pc.InEnqueue? && T(s.k, t).reason != TimedOut {
      f := EnqueueEffect(s.(k := k), t, pc.queue, pc.data, pc.wake, pc.infinite, pc.due);
    } else if pc.InDequeue? && T(s.k, t).reason != TimedOut {
      f := DequeueEffect(s.(k := k), t, pc.queue, pc.wake, pc.infinite, pc.due);
    }
  }

  lemma MutexCallIs(s: Sys, m: nat, timeout: nat)
    ensures Step(s, LockCall(m, timeout)) == Lock(s, m, timeout).0
    ensures Step(s, UnlockCall(m)) == Unlock(s, m).0
  {
    hide Lock, Unlock;
  }

  lemma SwitchIs(s: Sys)
    ensures Step(s, Switch) == s.(k := SelectNext(s.k)) && Step(s, Start) == s.(k := StartFirst(s.k))
  {
    hide SelectNext, StartFirst;
  }

  lemma ResumeIs(s: Sys)
    requires s.k.cur.Task?
    ensures Step(s, Resume) == ResumeStep(s, s.k.cur.id).0
  {
    hide ResumeStep;
  }
}
