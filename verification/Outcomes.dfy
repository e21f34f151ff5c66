/**
 What a call returns. The reason recorded by the step that ended a wait is the reason the
 task reads when it resumes; and a lock that returns true makes the caller the owner until
 its own unlock.
 */
module Outcomes {
  import opened Kernel
  import opened KernelInvariants
  import opened SchedulerSteps
  import opened TaskViews
  import opened System
  import opened Effects
  import opened SystemInvariants
  import opened MutexInvariants
  import opened SystemProof
  import opened Lifecycle

  /** `t` is not blocked, before and after, and its recorded reason is untouched. */
  ghost predicate KeepsReason(k: Kern, k': Kern, t: TaskId) {
    && t < |k.tcbs| <= |k'.tcbs|
    && !Blocked(k'.tcbs[t]) && k'.tcbs[t].reason == k.tcbs[t].reason
  }

  ghost predicate AwakeIn(k: Kern, t: TaskId) {
    t < |k.tcbs| && !Blocked(k.tcbs[t])
  }

  lemma WakeFirstReason(k: Kern, l: ListId, t: TaskId)
    requires KernInv(k) && AwakeIn(k, t) && !IsStateList(l)
    ensures KeepsReason(k, WakeFirst(k, l), t)
  {
    hide KernInv, Unblock, Items;
    FirstWaiter(k, l);
    if L(k, l) != [] {
      UnblockWakes(k, L(k, l)[0], Signaled);
    }
  }

  lemma BlockReason(k: Kern, wake: nat, waitOn: Option<ListId>, infinite: bool, t: TaskId)
    requires KernInv(k) && k.cur.Task? && T(k, k.cur.id).place.None? && AwakeIn(k, t) && k.cur != Task(t)
    ensures KeepsReason(k, BlockCurrent(k, wake, waitOn, infinite), t)
  {
    hide KernInv, BlockCurrent;
    BlockSleeps(k, wake, waitOn, infinite);
  }

  lemma SetEffectiveReason(k: Kern, o: TaskId, p: nat, t: TaskId)
    requires KernInv(k) && o < |k.tcbs| && AwakeIn(k, t)
    ensures KeepsReason(k, SetEffective(k, o, p), t)
  {
    hide KernInv, SetEffective;
    SetEffectiveRelevels(k, o, p);
  }

  lemma LockReason(s: Sys, m: nat, timeout: nat, t: TaskId)
    requires SysInv(s) && Enabled(s, LockCall(m, timeout)) && AwakeIn(s.k, t) && s.k.cur != Task(t)
    ensures KeepsReason(s.k, Lock(s, m, timeout).0.k, t)
  {
    hide KernInv, SemInv, QueueInvBut, Continuations, MutexInv, BlockCurrent, SetEffective, Required;
    var c := s.k.cur.id;
    UnplacedCaller(s, c, 0, 0, 0);
    if Lock(s, m, timeout).1.Blocks? {
      var o, l := s.owners[m].value, Lockers(m);
      MutexBounds(s, m);
      if timeout != INFINITE {
        WakeTickOk(s.k, timeout);
      }
      var wake, infinite := WakeTick(s.k, timeout), timeout == INFINITE;
      BlockKeeps(s.k, wake, Some(l), infinite);
      BlockSleeps(s.k, wake, Some(l), infinite);
      var k1 := BlockCurrent(s.k, wake, Some(l), infinite);
      SetEffectiveReason(k1, o, Required(k1, o, l), t);
    }
  }

  lemma UnlockReason(s: Sys, m: nat, t: TaskId)
    requires SysInv(s) && Enabled(s, UnlockCall(m)) && AwakeIn(s.k, t)
    ensures KeepsReason(s.k, Unlock(s, m).0.k, t)
  {
    hide KernInv, SemInv, QueueInvBut, Continuations, MutexInv, Relinquish, DropHeld, Unblock, Inherit, Required, Items;
    var c := s.k.cur.id;
    if s.owners[m] == Some(c) {
      ReleaseTask(s, c, m);
      var k1 := Relinquish(DropHeld(s.k, c), c);
      FirstWaiter(k1, Lockers(m));
      if L(k1, Lockers(m)) != [] {
        var n := L(k1, Lockers(m))[0];
        WaiterBelowCap(s, n, m);
        HandOverTask(k1, n, m);
      }
    }
  }

  lemma ResumeLockReason(s: Sys, c: TaskId, m: nat, t: TaskId)
    requires SysInv(s) && s.k.cur == Task(c) && !s.k.pending && c < |s.pcs| && s.pcs[c] == InLock(m) && AwakeIn(s.k, t) && c != t
    ensures KeepsReason(s.k, ResumeLock(s, c, m).0.k, t)
  {
    hide KernInv, SemInv, QueueInvBut, Continuations, MutexInv, SetEffective, Required;
    UnplacedCaller(s, c, 0, 0, 0);
    ResumedKern(s.k, c);
    var k1 := WithReason(s.k, c, NoReason);
    if m in s.owners && s.owners[m].Some? {
      MutexBounds(s, m);
      var o := s.owners[m].value;
      var req := Required(k1, o, Lockers(m));
      SetEffectiveReason(k1, o, if req > T(k1, o).base then req else T(k1, o).base, t);
    }
  }

  lemma EffectReason(k: Kern, f: Effect, t: TaskId)
    requires KernInv(k) && AwakeIn(k, t) && Fits(k, f) && (f.Sleep? ==> k.cur != Task(t))
    ensures KeepsReason(k, Apply(k, f), t)
  {
    hide KernInv, BlockCurrent, WakeFirst, Request, KeepsReason;
    match f
    case Quiet(wanted) => RequestReason(k, wanted, t);
    case Sleep(wake, waitOn, infinite) => SleepReason(k, wake, waitOn, infinite, t);
    case Wake(l, wanted) => SignalReason(k, l, wanted, t);
  }

  lemma SleepReason(k: Kern, wake: nat, waitOn: Option<ListId>, infinite: bool, t: TaskId)
    requires KernInv(k) && k.cur.Task? && T(k, k.cur.id).place.None? && AwakeIn(k, t) && k.cur != Task(t)
    ensures KeepsReason(k, Request(BlockCurrent(k, wake, waitOn, infinite), true), t)
  {
    hide KernInv, BlockCurrent;
    BlockReason(k, wake, waitOn, infinite, t);
  }

  lemma SignalReason(k: Kern, l: ListId, wanted: bool, t: TaskId)
    requires KernInv(k) && AwakeIn(k, t) && !IsStateList(l)
    ensures KeepsReason(k, Request(WakeFirst(k, l), wanted), t)
  {
    hide KernInv, WakeFirst;
    WakeFirstReason(k, l, t);
  }

  lemma CallReason(s: Sys, e: Event, t: TaskId)
    requires SysInv(s) && Enabled(s, e) && IsTaskCall(e) && AwakeIn(s.k, t) && s.k.cur != Task(t)
    ensures KeepsReason(s.k, Step(s, e).k, t)
  {
    hide SysInvBut, Lock, Unlock, KeepsReason, Apply, Step;
    KernOf(s);
    UnplacedCaller(s, s.k.cur.id, 0, 0, 0);
    MutexCallIs(s, if e.LockCall? || e.UnlockCall? then e.mutex else 0, if e.LockCall? then e.timeout else 0);
    if e.LockCall? {
      LockReason(s, e.mutex, e.timeout, t);
    } else if e.UnlockCall? {
      UnlockReason(s, e.mutex, t);
    } else {
      var f := CallEffect(s, e);
      EffectReason(s.k, f, t);
    }
  }

  lemma ResumeReason(s: Sys, c: TaskId, t: TaskId)
    requires SysInv(s) && s.k.cur == Task(c) && !s.k.pending && c < |s.pcs| && AwakeIn(s.k, t) && c != t
    ensures KeepsReason(s.k, ResumeStep(s, c).0.k, t)
  {
    hide KernInv, SemInv, QueueInvBut, Continuations, MutexInv, ResumeLock, Apply;
    UnplacedCaller(s, c, 0, 0, 0);
    if s.pcs[c].InLock? {
      ResumeLockReason(s, c, s.pcs[c].mutex, t);
    } else {
      ResumedKern(s.k, c);
      var k, f := ResumeEffect(s, c);
      EffectReason(k, f, t);
    }
  }

  /** A woken task keeps its reason through every step but its own. */
  lemma ReasonStep(s: Sys, e: Event, t: TaskId)
    requires SysInv(s) && Enabled(s, e) && AwakeIn(s.k, t) && !PcOf(s, t).Free?
    requires !(e.Resume? && s.k.cur == Task(t))
    ensures KeepsReason(s.k, Step(s, e).k, t) && PcOf(Step(s, e), t) == PcOf(s, t)
  {
    hide SysInvBut, Step;
    PcStep(s, e, t);
    AwakeStep(s, e, t);
  }

  /** Only its own call can block a task. */
  lemma AwakeStep(s: Sys, e: Event, t: TaskId)
    requires SysInv(s) && Enabled(s, e) && AwakeIn(s.k, t) && (s.k.cur == Task(t) ==> !IsTaskCall(e) && !e.Resume?)
    ensures KeepsReason(s.k, Step(s, e).k, t)
  {
    hide SysInvBut, ResumeStep, SelectNext, StartFirst, Kernel.Tick, CreateTask, WakeFirst, Request, Due, Advance,
      Wait, WaitUntil, Lock, Unlock, Take, Signal, Enqueue, Dequeue, GiveToken, EnqueueIsr, DequeueIsr, TakeIsr;
    KernOf(s);
    if IsTaskCall(e) {
      CallReason(s, e, t);
    } else if e.TakeFromIsr? || e.SignalFromIsr? || e.EnqueueFromIsr? || e.DequeueFromIsr? {
      IsrReason(s, e, t);
    } else {
      match e
      case Create(ok, words, prio) =>
        if CreateStatus(s.k, ok, words, prio) == Ok {
          CreateGrows(s.k, prio);
        }
      case Start => StartSteady(s.k);
      case Switch => SwitchSteady(s.k);
      case Tick =>
        TickWakes(s.k);
        TickFacts(s.k);
      case YieldIsr => RequestReason(s.k, true, t);
      case Resume => ResumeReason(s, s.k.cur.id, t);
    }
  }

  lemma RequestReason(k: Kern, wanted: bool, t: TaskId)
    ensures AwakeIn(k, t) ==> KeepsReason(k, Request(k, wanted), t)
  {
  }

  lemma IsrReason(s: Sys, e: Event, t: TaskId)
    requires SysInv(s) && AwakeIn(s.k, t)
    requires e.TakeFromIsr? || e.SignalFromIsr? || e.EnqueueFromIsr? || e.DequeueFromIsr?
    ensures KeepsReason(s.k, Step(s, e).k, t)
  {
    hide SysInvBut, WakeFirst, Step, Request;
    KernOf(s);
    IsrKern(s, e);
    if !e.TakeFromIsr? {
      var k1 := WakeFirst(s.k, IsrList(e));
      WakeFirstReason(s.k, IsrList(e), t);
      RequestReason(s.k, e.andYield && !s.k.cur.NoTask?, t);
      RequestReason(k1, e.andYield && !k1.cur.NoTask?, t);
    }
  }

  // ---------------------------------------------------------------- Continuations and owners

  /** Owners are as before, and so are all continuations but that of `c`. */
  ghost predicate OwnBusiness(s: Sys, s': Sys, c: TaskId) {
    s'.owners == s.owners && OthersKeepPc(s, s', c)
  }

  ghost predicate OthersKeepPc(s: Sys, s': Sys, c: TaskId) {
    |s'.pcs| == |s.pcs| && forall u :: 0 <= u < |s.pcs| && u != c ==> s'.pcs[u] == s.pcs[u]
  }

  lemma PushPopPc(s: Sys, q: nat, data: seq<Byte>)
    ensures Push(s, q, data).owners == s.owners && Push(s, q, data).pcs == s.pcs
    ensures Pop(s, q).owners == s.owners && Pop(s, q).pcs == s.pcs
  {
    hide WakeFirst, QueueOf, QueueLogOf, Ring.Put, Ring.Take, Ring.Front;
  }

  lemma WithPcOthers(s: Sys, c: TaskId, pc: Pc, s': Sys)
    requires s'.owners == s.owners && s'.pcs == WithPc(s, c, pc).pcs
    ensures OwnBusiness(s, s', c) && WithPc(s, c, pc).owners == s.owners
  {
  }

  lemma TryOwnBusiness(s: Sys, c: TaskId, q: nat, data: seq<Byte>, wake: nat, infinite: bool, due: nat)
    ensures OwnBusiness(s, TryEnqueue(s, c, q, data, wake, infinite, due).0, c)
    ensures OwnBusiness(s, TryDequeue(s, c, q, wake, infinite, due).0, c)
  {
    hide BlockCurrent, FirstIsHigher, Expired, Request, QueueOf, Push, Pop, WithPc, OwnBusiness;
    var pcs := [Free, InEnqueue(q, data, wake, infinite, due), InDequeue(q, wake, infinite, due)];
    forall pc | pc in pcs ensures WithPc(s, c, pc).owners == s.owners {
      WithPcOthers(s, c, pc, WithPc(s, c, pc).(owners := s.owners));
    }
    PushPopPc(WithPc(s, c, Free), q, data);
    var s1, s2 := TryEnqueue(s, c, q, data, wake, infinite, due).0, TryDequeue(s, c, q, wake, infinite, due).0;
    WithPcOthers(s, c, if s1.pcs == WithPc(s, c, pcs[0]).pcs then pcs[0] else pcs[1], s1);
    WithPcOthers(s, c, if s2.pcs == WithPc(s, c, pcs[0]).pcs then pcs[0] else pcs[2], s2);
  }

  lemma LockOthers(s: Sys, c: TaskId, m: nat, timeout: nat)
    requires s.k.cur == Task(c)
    ensures OthersKeepPc(s, Lock(s, m, timeout).0, c) && OwnBusiness(s, ResumeLock(s, c, m).0, c)
    ensures OwnerOf(s, m).Some? ==> OwnBusiness(s, Lock(s, m, timeout).0, c)
  {
    hide BlockCurrent, AddHeld, Inherit, Disinherit, Required, WithReason, WakeTick, Request;
  }

  lemma UnlockOthers(s: Sys, c: TaskId, m: nat)
    requires s.k.cur == Task(c)
    ensures Unlock(s, m).0.pcs == s.pcs
    ensures OwnerOf(s, m) == Some(c) || Unlock(s, m).0 == s
  {
    hide Relinquish, DropHeld, Unblock, AddHeld, Inherit, Required, Items, Request;
  }

  lemma TakePc(s: Sys, c: TaskId, x: nat, timeout: nat)
    requires s.k.cur == Task(c)
    ensures OwnBusiness(s, Take(s, x, timeout).0, c)
  {
    hide BlockCurrent, Request, WakeTick;
  }

  lemma SemPc(s: Sys, x: nat)
    ensures GiveToken(s, x).0.pcs == s.pcs && GiveToken(s, x).0.owners == s.owners
    ensures TakeIsr(s, x).0.pcs == s.pcs && TakeIsr(s, x).0.owners == s.owners
  {
    hide WakeFirst, FirstIsHigher, Items;
  }

  /** Only owners and continuations matter to `OwnBusiness`. */
  lemma BusinessOf(s: Sys, s1: Sys, s2: Sys, s': Sys, c: TaskId)
    requires OwnBusiness(s1, s2, c) && s1.owners == s.owners && s1.pcs == s.pcs && s2.owners == s'.owners && s2.pcs == s'.pcs
    ensures OwnBusiness(s, s', c) && OthersKeepPc(s, s', c)
  {
  }

  lemma NoBusiness(s: Sys, s': Sys, c: TaskId)
    requires s'.owners == s.owners && s'.pcs == s.pcs
    ensures OwnBusiness(s, s', c)
  {
  }

  lemma WaitPc(s: Sys, ticks: nat, wake: nat, c: TaskId)
    requires s.k.cur == Task(c)
    ensures OwnBusiness(s, Wait(s, ticks), c) && OwnBusiness(s, WaitUntil(s, wake), c)
  {
    hide BlockCurrent, Request, WakeTick, WithPc, OwnBusiness, Distance;
    var waited := s.(pcs := WithPc(s, c, InWait).pcs);
    NoBusiness(s, s.(k := Request(s.k, true)), c);
    WithPcOthers(s, c, InWait, waited);
    if ticks != 0 {
      BusinessOf(s, s, waited, Wait(s, ticks), c);
    }
    var d := Distance(s.k, wake);
    if d != 0 && d < HALF {
      BusinessOf(s, s, waited, WaitUntil(s, wake), c);
    }
  }

  lemma CallPc(s: Sys, e: Event, c: TaskId)
    requires IsTaskCall(e) && s.k.cur == Task(c)
    ensures OthersKeepPc(s, Step(s, e), c)
    ensures !e.LockCall? && !e.UnlockCall? ==> OwnBusiness(s, Step(s, e), c)
  {
    hide TryEnqueue, TryDequeue, Lock, Unlock, Take, GiveToken, Wait, WaitUntil, Request, WakeTick, OwnBusiness;
    match e {
      case Yield => NoBusiness(s, Step(s, e), c);
      case WaitCall(ticks) => WaitPc(s, ticks, 0, c);
      case WaitUntilCall(wake) => WaitPc(s, 0, wake, c);
      case LockCall(m, timeout) => LockOthers(s, c, m, timeout);
      case UnlockCall(m) => UnlockOthers(s, c, m);
      case TakeCall(x, timeout) => TakePc(s, c, x, timeout);
      case SignalCall(x) =>
        SemPc(s, x);
        NoBusiness(s, Step(s, e), c);
      case EnqueueCall(q, data, timeout) =>
        TryOwnBusiness(s, c, q, data, WakeTick(s.k, timeout), timeout == INFINITE, s.k.clock + timeout);
      case DequeueCall(q, timeout) =>
        TryOwnBusiness(s, c, q, [], WakeTick(s.k, timeout), timeout == INFINITE, s.k.clock + timeout);
    }
    if !e.LockCall? && !e.UnlockCall? {
      BusinessOf(s, s, Step(s, e), Step(s, e), c);
    }
  }

  lemma ResumePc(s: Sys, c: TaskId)
    requires s.k.cur == Task(c)
    ensures OwnBusiness(s, ResumeStep(s, c).0, c)
  {
    hide TryEnqueue, TryDequeue, ResumeLock, WithReason, WithPc, OwnBusiness;
    var s', s1 := ResumeStep(s, c).0, s.(k := WithReason(s.k, c, NoReason));
    match PcOf(s, c)
    case Free => NoBusiness(s, s', c);
    case InWait =>
      WithPcOthers(s, c, Free, s.(pcs := s'.pcs));
      BusinessOf(s, s, s.(pcs := s'.pcs), s', c);
    case InLock(m) => LockOthers(s, c, m, 0);
    case InTake(x) =>
      WithPcOthers(s, c, Free, s.(pcs := s'.pcs));
      BusinessOf(s, s, s.(pcs := s'.pcs), s', c);
    case InEnqueue(q, data, wake, infinite, due) =>
      if T(s.k, c).reason == TimedOut {
        WithPcOthers(s1, c, Free, s1.(pcs := s'.pcs));
        BusinessOf(s, s1, s1.(pcs := s'.pcs), s', c);
      } else {
        TryOwnBusiness(s1, c, q, data, wake, infinite, due);
        BusinessOf(s, s1, s', s', c);
      }
    case InDequeue(q, wake, infinite, due) =>
      if T(s.k, c).reason == TimedOut {
        WithPcOthers(s1, c, Free, s1.(pcs := s'.pcs));
        BusinessOf(s, s1, s1.(pcs := s'.pcs), s', c);
      } else {
        TryOwnBusiness(s1, c, q, [], wake, infinite, due);
        BusinessOf(s, s1, s', s', c);
      }
  }

  lemma OtherPc(s: Sys, e: Event)
    requires !IsTaskCall(e) && !e.Resume?
    ensures Step(s, e).owners == s.owners && |s.pcs| <= |Step(s, e).pcs| && Step(s, e).pcs[..|s.pcs|] == s.pcs
    ensures forall u :: |s.pcs| <= u < |Step(s, e).pcs| ==> Step(s, e).pcs[u].Free?
  {
    hide Kernel.Tick, SelectNext, StartFirst, CreateTask, FirstIsHigher, Request, GiveToken, TakeIsr, Push, Pop;
    match e
    case TakeFromIsr(x) => SemPc(s, x);
    case SignalFromIsr(x, _) => SemPc(s, x);
    case EnqueueFromIsr(q, data, _) => PushPopPc(s, q, data);
    case DequeueFromIsr(q, _) => PushPopPc(s, q, []);
    case _ =>
  }

  /** Only the running task's own call or resumption changes its continuation. */
  lemma PcStep(s: Sys, e: Event, t: TaskId)
    requires Enabled(s, e) && t < |s.pcs| && (s.k.cur == Task(t) ==> !IsTaskCall(e) && !e.Resume?)
    ensures PcOf(Step(s, e), t) == PcOf(s, t) && t < |Step(s, e).pcs|
  {
    hide Step, ResumeStep;
    if IsTaskCall(e) {
      CallPc(s, e, s.k.cur.id);
    } else if e.Resume? {
      ResumeIs(s);
      ResumePc(s, s.k.cur.id);
    } else {
      OtherPc(s, e);
      assert Step(s, e).pcs[..|s.pcs|][t] == s.pcs[t];
    }
  }

  /** The reason read on resumption is the one recorded by the step that ended the wait: timed out if and only if that was a tick. */
  lemma {:induction false} ReasonAtResume(ss: seq<Sys>, es: seq<Event>, i: nat, j: nat, t: TaskId)
    requires Run(ss, es) && i < j < |ss| && BlockedIn(ss[i].k, t) && AwakeIn(ss[i + 1].k, t)
    requires forall x :: i < x < j ==> !(es[x].Resume? && ss[x].k.cur == Task(t))
    ensures AwakeIn(ss[j].k, t) && ss[j].k.tcbs[t].reason == (if es[i].Tick? then TimedOut else Signaled)
    ensures !PcOf(ss[j], t).Free?
  {
    hide Initial, Step, Enabled, SysInvBut, KeepsWaiting;
    Always(ss, es, j - 1);
    if j == i + 1 {
      WaitStep(ss[i], es[i], t);
      WokenBy(ss[i], ss[j], t);
      BlockedCall(ss[i], es[i], t);
      PcStep(ss[i], es[i], t);
    } else {
      ReasonAtResume(ss, es, i, j - 1, t);
      ReasonStep(ss[j - 1], es[j - 1], t);
    }
  }

  lemma WokenBy(s: Sys, s': Sys, t: TaskId)
    requires BlockedIn(s.k, t) && AwakeIn(s'.k, t)
    ensures !KeepsWaiting(s.k, s'.k, t)
  {
  }

  /** A blocked task is inside a call and makes no other. */
  lemma BlockedCall(s: Sys, e: Event, t: TaskId)
    requires SysInv(s) && BlockedIn(s.k, t) && Enabled(s, e)
    ensures t < |s.pcs| && !PcOf(s, t).Free? && (s.k.cur == Task(t) ==> !IsTaskCall(e) && !e.Resume?)
  {
    hide Linked, Placed, TimersWithin, Queued, SemInv, QueueInvBut, MutexInv;
  }

  // ---------------------------------------------------------------- Ownership

  /** A lock call that returns true, at once or after waiting, leaves the caller as owner. */
  lemma LockReturnsOwner(s: Sys, m: nat, timeout: nat)
    requires SysInv(s) && s.k.cur.Task?
    ensures Enabled(s, LockCall(m, timeout)) && Lock(s, m, timeout).1 == Returned(true) ==>
              OwnerOf(Lock(s, m, timeout).0, m) == Some(s.k.cur.id)
    ensures Enabled(s, Resume) && PcOf(s, s.k.cur.id) == InLock(m) ==>
              (ResumeLock(s, s.k.cur.id, m).1 == Returned(true) <==> OwnerOf(Step(s, Resume), m) == Some(s.k.cur.id))
  {
    hide KernInv, SemInv, QueueInvBut, BlockCurrent, Inherit, Disinherit, Required, WithReason;
    var t := s.k.cur.id;
    if Enabled(s, Resume) && PcOf(s, t) == InLock(m) {
      UnplacedCaller(s, t, 0, 0, 0);
      assert OutcomeOk(s, t, s.k.tcbs[t], s.pcs[t]);
    }
  }

  /** Ownership ends only by the owner's own unlock. */
  lemma OwnerStep(s: Sys, e: Event, m: nat, t: TaskId)
    requires Enabled(s, e) && OwnerOf(s, m) == Some(t)
    ensures OwnerOf(Step(s, e), m) == Some(t) || (e == UnlockCall(m) && s.k.cur == Task(t))
  {
    hide Step, ResumeStep, Lock, Unlock;
    if e.LockCall? {
      LockOwner(s, e.mutex, e.timeout, m, t);
      MutexCallIs(s, e.mutex, e.timeout);
    } else if e.UnlockCall? {
      UnlockOwner(s, e.mutex, m, t);
      MutexCallIs(s, e.mutex, 0);
    } else if IsTaskCall(e) {
      CallPc(s, e, s.k.cur.id);
    } else if e.Resume? {
      ResumeIs(s);
      ResumePc(s, s.k.cur.id);
    } else {
      OtherPc(s, e);
    }
  }

  lemma UnlockOwner(s: Sys, n: nat, m: nat, t: TaskId)
    requires s.k.cur.Task? && OwnerOf(s, m) == Some(t)
    ensures OwnerOf(Unlock(s, n).0, m) == Some(t) || (n == m && s.k.cur == Task(t))
  {
    hide AddHeld, Inherit, Required, Request, Relinquish, DropHeld, Unblock, Items;
  }

  lemma LockOwner(s: Sys, n: nat, timeout: nat, m: nat, t: TaskId)
    requires s.k.cur.Task? && OwnerOf(s, m) == Some(t)
    ensures OwnerOf(Lock(s, n, timeout).0, m) == Some(t)
  {
    hide BlockCurrent, AddHeld, Inherit, Required, WakeTick, Request;
  }

  lemma {:induction false} OwnsUntilUnlock(ss: seq<Sys>, es: seq<Event>, i: nat, j: nat, m: nat, t: TaskId)
    requires Run(ss, es) && i <= j < |ss| && OwnerOf(ss[i], m) == Some(t)
    requires forall x :: i <= x < j ==> !(es[x] == UnlockCall(m) && ss[x].k.cur == Task(t))
    ensures OwnerOf(ss[j], m) == Some(t)
  {
    hide Initial, Step, Enabled;
    if i == j {
    } else {
      OwnsUntilUnlock(ss, es, i, j - 1, m, t);
      OwnerStep(ss[j - 1], es[j - 1], m, t);
    }
  }

  // ---------------------------------------------------------------- Answers and logs

  /** The log of one take that answered `r`. */
  function AfterTake(log: SemLog, r: Result): SemLog {
    if r == Returned(true) then log.(takes := log.takes + 1) else log
  }

  function AfterSignal(log: SemLog, r: Result): SemLog {
    if r == Returned(true) then log.(signals := log.signals + 1) else log
  }

  function AfterEnqueue(log: QueueLog, r: Result, data: seq<Byte>): QueueLog {
    if r == Returned(true) then log.(sent := log.sent + [data]) else log
  }

  function AfterDequeue(log: QueueLog, r: Result, data: seq<Byte>): QueueLog {
    if r == Returned(true) then log.(received := log.received + [data]) else log
  }

  lemma TakeAnswers(s: Sys, x: nat, timeout: nat)
    ensures SemLogOf(Take(s, x, timeout).0, x) == AfterTake(SemLogOf(s, x), Take(s, x, timeout).1)
    ensures SemLogOf(TakeIsr(s, x).0, x) == AfterTake(SemLogOf(s, x), TakeIsr(s, x).1)
  {
    hide BlockCurrent, Request, WakeTick;
  }

  lemma GiveAnswers(s: Sys, x: nat)
    ensures SemLogOf(GiveToken(s, x).0, x) == AfterSignal(SemLogOf(s, x), Returned(GiveToken(s, x).1))
  {
    hide WakeFirst, FirstIsHigher, Items;
  }

  /** A caller is told "true" exactly when a token was taken from or added to the account of the semaphore. */
  lemma SemaphoreAnswers(s: Sys, e: Event, x: nat)
    ensures var (s', r) := Perform(s, e);
            && ((e.TakeCall? || e.TakeFromIsr?) && e.sem == x ==> SemLogOf(s', x) == AfterTake(SemLogOf(s, x), r))
            && ((e.SignalCall? || e.SignalFromIsr?) && e.sem == x ==> SemLogOf(s', x) == AfterSignal(SemLogOf(s, x), r))
  {
    hide Take, TakeIsr, GiveToken, Request, TryEnqueue, TryDequeue, ResumeStep, Lock, Unlock, Wait, WaitUntil,
      Kernel.Tick, SelectNext, StartFirst, CreateTask, Push, Pop;
    TakeAnswers(s, x, if e.TakeCall? then e.timeout else 0);
    GiveAnswers(s, x);
  }

  lemma SemaphoreResumeAnswers(s: Sys, x: nat)
    requires s.k.cur.Task? && PcOf(s, s.k.cur.id) == InTake(x)
    ensures var (s', r) := Perform(s, Resume);
            r.Returned? && SemLogOf(s', x) == AfterTake(SemLogOf(s, x), r)
  {
    hide WithReason;
  }

  lemma PushPopLogs(s: Sys, q: nat, data: seq<Byte>)
    ensures QueueLogOf(Push(s, q, data), q) == QueueLogOf(s, q).(sent := QueueLogOf(s, q).sent + [data])
    ensures QueueLogOf(Pop(s, q), q) == QueueLogOf(s, q).(received := QueueLogOf(s, q).received + [Ring.Front(QueueOf(s, q))])
  {
    hide WakeFirst, Ring.Put, Ring.Take, Ring.Front;
  }

  lemma WithPcLog(s: Sys, t: TaskId)
    ensures WithPc(s, t, Free).queueLogs == s.queueLogs && WithPc(s, t, Free).queues == s.queues
  {
  }

  lemma SameQueueLog(s: Sys, s': Sys, q: nat)
    requires s'.queueLogs == s.queueLogs && s'.queues == s.queues
    ensures QueueLogOf(s', q) == QueueLogOf(s, q) && QueueOf(s', q) == QueueOf(s, q)
  {
  }

  lemma EnqueueAnswers(s: Sys, t: TaskId, q: nat, data: seq<Byte>, wake: nat, infinite: bool, due: nat)
    ensures var (s', r) := TryEnqueue(s, t, q, data, wake, infinite, due);
            QueueLogOf(s', q) == AfterEnqueue(QueueLogOf(s, q), r, data)
  {
    hide BlockCurrent, FirstIsHigher, Request, Expired, Push, QueueOf, QueueLogOf;
    var s', s1 := TryEnqueue(s, t, q, data, wake, infinite, due).0, WithPc(s, t, Free);
    SameQueueLog(s, s1, q);
    PushPopLogs(s1, q, data);
    SameQueueLog(Push(s1, q, data), Push(s1, q, data).(k := s'.k), q);
    if QueueOf(s, q).count == QueueOf(s, q).capacity {
      SameQueueLog(s, s', q);
    }
  }

  lemma DequeueAnswers(s: Sys, t: TaskId, q: nat, wake: nat, infinite: bool, due: nat)
    ensures var (s', r) := TryDequeue(s, t, q, wake, infinite, due);
            QueueLogOf(s', q) == AfterDequeue(QueueLogOf(s, q), r, Ring.Front(QueueOf(s, q)))
  {
    hide BlockCurrent, FirstIsHigher, Request, Expired, Pop, QueueOf, QueueLogOf, Ring.Front;
    var s', s1 := TryDequeue(s, t, q, wake, infinite, due).0, WithPc(s, t, Free);
    SameQueueLog(s, s1, q);
    PushPopLogs(s1, q, []);
    SameQueueLog(Pop(s1, q), Pop(s1, q).(k := s'.k), q);
    if QueueOf(s, q).count == 0 {
      SameQueueLog(s, s', q);
    }
  }

  /** A queue call answers "true" exactly when its item has gone in, or the oldest item has come out, whether or not it had to wait. */
  lemma QueueAnswers(s: Sys, e: Event, q: nat)
    ensures var (s', r) := Perform(s, e);
            && (e.EnqueueCall? && e.queue == q ==> QueueLogOf(s', q) == AfterEnqueue(QueueLogOf(s, q), r, e.data))
            && (e.DequeueCall? && e.queue == q ==> QueueLogOf(s', q) == AfterDequeue(QueueLogOf(s, q), r, Ring.Front(QueueOf(s, q))))
            && (e.EnqueueFromIsr? && e.queue == q ==> QueueLogOf(s', q) == AfterEnqueue(QueueLogOf(s, q), r, e.data))
            && (e.DequeueFromIsr? && e.queue == q ==> QueueLogOf(s', q) == AfterDequeue(QueueLogOf(s, q), r, Ring.Front(QueueOf(s, q))))
  {
    hide TryEnqueue, TryDequeue, WakeFirst, FirstIsHigher, Request, WakeTick, ResumeStep, Lock, Unlock, Items, Ring.Put, Ring.Take, Ring.Front,
      Kernel.Tick, SelectNext, StartFirst, CreateTask, Wait, WaitUntil, Take, GiveToken, TakeIsr;
    if e.EnqueueCall? && s.k.cur.Task? {
      EnqueueAnswers(s, s.k.cur.id, q, e.data, WakeTick(s.k, e.timeout), e.timeout == INFINITE, s.k.clock + e.timeout);
    } else if e.DequeueCall? && s.k.cur.Task? {
      DequeueAnswers(s, s.k.cur.id, q, WakeTick(s.k, e.timeout), e.timeout == INFINITE, s.k.clock + e.timeout);
    }
  }

  lemma QueueResumeAnswers(s: Sys, t: TaskId)
    requires s.k.cur == Task(t)
    ensures var (s', r) := Perform(s, Resume);
            var pc := PcOf(s, t);
            && (pc.InEnqueue? ==> QueueLogOf(s', pc.queue) == AfterEnqueue(QueueLogOf(s, pc.queue), r, pc.data))
            && (pc.InDequeue? ==> QueueLogOf(s', pc.queue) == AfterDequeue(QueueLogOf(s, pc.queue), r, Ring.Front(QueueOf(s, pc.queue))))
  {
    hide TryEnqueue, TryDequeue, ResumeLock, ResumeTake, WithReason, WithPc, QueueOf, QueueLogOf, Ring.Front;
    var s', s1 := Perform(s, Resume).0, s.(k := WithReason(s.k, t, NoReason));
    if PcOf(s, t).InEnqueue? || PcOf(s, t).InDequeue? {
      SameQueueLog(s, s1, PcOf(s, t).queue);
      WithPcLog(s1, t);
      if T(s.k, t).reason == TimedOut {
        SameQueueLog(s, s', PcOf(s, t).queue);
      }
    }
    match PcOf(s, t)
    case InEnqueue(q, data, wake, infinite, due) => EnqueueAnswers(s1, t, q, data, wake, infinite, due);
    case InDequeue(q, wake, infinite, due) => DequeueAnswers(s1, t, q, wake, infinite, due);
    case _ =>
  }

  // ---------------------------------------------------------------- Steps inside a lock or unlock

  lemma JoinReady(s: Sys, m: nat, timeout: nat)
    requires SysInv(s) && Enabled(s, LockCall(m, timeout)) && s.owners[m].Some? && timeout != 0
    ensures var k1 := BlockCurrent(s.k, WakeTick(s.k, timeout), Some(Lockers(m)), timeout == INFINITE);
            var o := s.owners[m].value;
            KernInv(k1) && o < |k1.tcbs| && Required(k1, o, Lockers(m)) < k1.levels
  {
    hide KernInv, SemInv, QueueInvBut, Continuations, MutexInv, BlockCurrent, Required;
    var t := s.k.cur.id;
    UnplacedCaller(s, t, 0, 0, 0);
    MutexBounds(s, m);
    if timeout != INFINITE {
      WakeTickOk(s.k, timeout);
    }
    BlockKeeps(s.k, WakeTick(s.k, timeout), Some(Lockers(m)), timeout == INFINITE);
    BlockSleeps(s.k, WakeTick(s.k, timeout), Some(Lockers(m)), timeout == INFINITE);
    RequiredBelowLevels(BlockCurrent(s.k, WakeTick(s.k, timeout), Some(Lockers(m)), timeout == INFINITE), s.owners[m].value, Lockers(m));
  }

  lemma UnlockValid(s: Sys, m: nat)
    requires SysInv(s) && Enabled(s, UnlockCall(m))
    ensures SysInv(Unlock(s, m).0)
    ensures s.owners[m] != Some(s.k.cur.id) ==> Unlock(s, m) == (s, Returned(false))
  {
    hide SysInvBut, Relinquish, DropHeld, Unblock, AddHeld, Inherit, Required, Request;
    StepKeeps(s, UnlockCall(m));
  }

  /** What unlocking meets on the way, and what it comes to. */
  lemma UnlockReady(s: Sys, t: TaskId, m: nat)
    requires SysInv(s) && Enabled(s, UnlockCall(m)) && s.k.cur == Task(t) && s.owners[m] == Some(t)
    ensures t < |s.k.tcbs| && s.k.tcbs[t].held > 0 && KernInv(DropHeld(s.k, t))
    ensures var k0 := DropHeld(s.k, t);
            var k1 := Relinquish(k0, t);
            var l := Lockers(m);
            && t < |k0.tcbs| && t < |k1.tcbs| && KernInv(k1)
            && (T(k1, t).eff != T(s.k, t).eff <==> T(k0, t).held == 0 && T(k0, t).eff != T(k0, t).base)
            && if L(k1, l) == [] then
                 Unlock(s, m) == (s.(owners := s.owners[m := None], k := Request(k1, T(k1, t).eff != T(s.k, t).eff)), Returned(true))
               else
                 var n := L(k1, l)[0];
                 && n < |k1.tcbs| && k1.tcbs[n].held < 0xFF
                 && n < |HandOver(k1, n, l).tcbs|
                 && Unlock(s, m) ==
                    (s.(owners := s.owners[m := Some(n)], k := Request(HandOver(k1, n, l), T(HandOver(k1, n, l), n).eff > T(k1, t).eff)), Returned(true))
  {
    hide KernInv, SemInv, QueueInvBut, Continuations, MutexInv, Settled, Relinquish, DropHeld, Unblock, AddHeld, Inherit, Required, Request;
    MutexBounds(s, m);
    ReleaseTask(s, t, m);
    DropHeldRecounts(s.k, t);
    CountsKeep(s.k, DropHeld(s.k, t));
    RelinquishLowers(DropHeld(s.k, t), t);
    var k1 := Relinquish(DropHeld(s.k, t), t);
    FirstWaiter(k1, Lockers(m));
    if L(k1, Lockers(m)) != [] {
      var n := L(k1, Lockers(m))[0];
      WaiterBelowCap(s, n, m);
      HandOverTask(k1, n, m);
    }
  }
}
