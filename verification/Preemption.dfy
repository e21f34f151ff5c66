/**
 Preemption: with no switch outstanding, the running task outranks or equals every ready
 task. One call can break this, and it is characterised exactly; a tick always repairs it.
 */
module Preemption {
  import opened Sequences
  import opened Kernel
  import opened KernelInvariants
  import opened SchedulerSteps
  import opened TaskViews
  import opened System
  import opened Effects
  import opened SystemInvariants
  import opened MutexInvariants
  import opened SystemProof
  import opened Lifecycle

  ghost predicate ReadyIn(k: Kern, u: TaskId) {
    u < |k.tcbs| && k.tcbs[u].place.Some? && k.tcbs[u].place.value.Ready?
  }

  /** The running task (idle counts as 0) has at least the priority of every ready task. */
  ghost predicate Calm(k: Kern) {
    forall u: TaskId :: ReadyIn(k, u) ==> k.tcbs[u].eff <= CurEff(k)
  }

  ghost predicate Safe(k: Kern) {
    k.cur.NoTask? || k.pending || Calm(k)
  }

  // ---------------------------------------------------------------- Scheduler routines

  lemma CalmSame(k: Kern, k': Kern)
    requires Calm(k) && k'.cur == k.cur && |k'.tcbs| == |k.tcbs|
    requires forall u :: 0 <= u < |k.tcbs| ==> k'.tcbs[u].place == k.tcbs[u].place && k'.tcbs[u].eff == k.tcbs[u].eff
    ensures Calm(k')
  {
  }

  /** Signalling a waiter that does not outrank the running task leaves things calm. */
  lemma WakeFirstCalm(k: Kern, l: ListId)
    requires KernInv(k) && Settled(k) && !k.pending && !IsStateList(l) && Calm(k) && !FirstIsHigher(k, l)
    ensures Calm(WakeFirst(k, l)) && WakeFirst(k, l).cur == k.cur
  {
    hide Linked, TimersWithin, Queued, Unblock, Items, Remove;
    FirstWaiter(k, l);
    if L(k, l) != [] {
      var h := L(k, l)[0];
      PlacedBounds(k, h);
      UnblockHasEffect(k, h, Signaled);
    }
  }

  /** Lowering another task cannot disturb the running one. */
  lemma LowerCalm(k: Kern, o: TaskId, p: nat)
    requires KernInv(k) && o < |k.tcbs| && k.cur != Task(o) && p <= k.tcbs[o].eff && Calm(k)
    ensures Calm(SetEffective(k, o, p)) && SetEffective(k, o, p).cur == k.cur && SetEffective(k, o, p).pending == k.pending
  {
    hide Linked, TimersWithin, Queued, Relevel, Items, Reinserted;
    if !(T(k, o).eff == p || T(k, o).base > p || p >= k.levels) {
      RelevelHasEffect(k, o, p);
    }
  }

  lemma ReadyBit(k: Kern, u: TaskId)
    requires KernInv(k) && ReadyIn(k, u)
    ensures k.tcbs[u].eff in k.bitmap && u in Items(k.lists, Ready(k.tcbs[u].eff))
  {
    hide TimersWithin, Queued, NoDup;
    assert PlacedTask(k, u, k.tcbs[u]);
    assert u in Items(k.lists, k.tcbs[u].place.value);
  }

  /** After a context switch nothing ready outranks the task that was picked. */
  lemma SwitchCalm(k: Kern)
    requires KernInv(k) && k.cur != NoTask
    ensures Calm(SelectNext(k))
  {
    hide Linked, Placed, TimersWithin, Queued, Items, Requeue, SelectNext, PopHighest, LeaveReady;
    SwitchKeeps(k);
    RequeueKeeps(k);
    var k1 := Requeue(k).(pending := false);
    forall u: TaskId | ReadyIn(SelectNext(k), u) ensures SelectNext(k).tcbs[u].eff <= CurEff(SelectNext(k)) {
      if k1.bitmap == {} {
        ReadyBit(k1, u);
      } else {
        ChosenOutranks(k1, SelectNext(k).cur.id, u);
      }
    }
  }

  lemma ChosenOutranks(k: Kern, t: TaskId, u: TaskId)
    requires KernInv(k) && Chosen(k, t, T(k, t).eff) && ReadyIn(LeaveReady(k, t), u)
    ensures u < |k.tcbs| && LeaveReady(k, t).tcbs[u].eff <= T(LeaveReady(k, t), t).eff
  {
    hide Linked, Placed, TimersWithin, Queued, Items, LeaveReady, Remove;
    assert ReadyIn(k, u);
    ReadyBit(k, u);
  }

  lemma StartCalm(k: Kern)
    requires KernInv(k) && k.cur == NoTask
    ensures Safe(StartFirst(k))
  {
    hide Linked, Placed, TimersWithin, Queued, Items, StartFirst, PopHighest, LeaveReady;
    StartKeeps(k);
    if k.bitmap != {} {
      forall u: TaskId | ReadyIn(StartFirst(k), u) ensures StartFirst(k).tcbs[u].eff <= CurEff(StartFirst(k)) {
        ChosenOutranks(k, StartFirst(k).cur.id, u);
      }
    }
  }

  /** A tick repairs everything: it requests a switch unless the running task is strictly above every ready task. */
  lemma TickRepairs(k: Kern)
    requires KernInv(k)
    ensures var k' := Kernel.Tick(k);
            k'.pending || forall u: TaskId :: ReadyIn(k', u) ==> k'.tcbs[u].eff < CurEff(k')
  {
    hide Linked, Placed, TimersWithin, Queued, Kernel.Tick, Due, Advance, AllUnblocked, Items;
    TickKeeps(k);
    var k' := Kernel.Tick(k);
    if !k'.pending {
      forall u: TaskId | ReadyIn(k', u) ensures k'.tcbs[u].eff < CurEff(k') {
        ReadyBit(k', u);
      }
    }
  }

  // ---------------------------------------------------------------- Unlock

  /** The caller's priority after it gives up the mutex. */
  ghost function AfterRelease(s: Sys, t: TaskId): nat {
    if T(s.k, t).held == 1 then T(s.k, t).base else T(s.k, t).eff
  }

  /**
   The one call that strands a ready task: the unlocker drops, the waiter it hands the mutex to does not
   outrank it even so, and some ready task does.
   */
  ghost predicate Strands(s: Sys, m: nat) {
    && s.k.cur.Task? && OwnerOf(s, m) == Some(s.k.cur.id)
    && var after := AfterRelease(s, s.k.cur.id);
    && L(s.k, Lockers(m)) != [] && T(s.k, L(s.k, Lockers(m))[0]).eff <= after
    && exists u: TaskId :: ReadyIn(s.k, u) && s.k.tcbs[u].eff > after
  }

  /** The state of the scheduler after the release, in terms of the state before the call. */
  lemma ReleaseFacts(s: Sys, t: TaskId, m: nat)
    requires SysInv(s) && Caller(s, t) && m in s.owners && s.owners[m] == Some(t)
    ensures var k1 := Relinquish(DropHeld(s.k, t), t);
            && KernInv(k1) && SameContext(s.k, k1) && OnlyTask(s.k, k1, t) && t < |k1.tcbs|
            && k1.tcbs[t].eff == AfterRelease(s, t) && k1.tcbs[t].place.None?
            && L(k1, Lockers(m)) == L(s.k, Lockers(m))
  {
    hide KernInv, SemInv, QueueInvBut, Continuations, MutexInv, SetEffective, Items;
    UnplacedCaller(s, t, 0, 0, 0);
    ReleaseTask(s, t, m);
    MutexBounds(s, m);
    DropHeldRecounts(s.k, t);
    var k0 := DropHeld(s.k, t);
    CountsKeep(s.k, k0);
    SetEffectiveLists(k0, t, T(k0, t).base);
    SetEffectiveOnly(k0, t, T(k0, t).base);
  }

  lemma SetEffectiveOnly(k: Kern, t: TaskId, p: nat)
    requires KernInv(k) && t < |k.tcbs| && k.tcbs[t].place.None?
    ensures OnlyTask(k, SetEffective(k, t, p), t) && SetEffective(k, t, p).tcbs[t].place.None?
  {
    hide Linked, TimersWithin, Queued, Relevel, Items, Reinserted;
    if !(T(k, t).eff == p || T(k, t).base > p || p >= k.levels) {
      RelevelHasEffect(k, t, p);
    }
  }

  /** The handoff: the new owner is ready at the priority it had, and the others are as before. */
  lemma HandoffFacts(s: Sys, k1: Kern, m: nat)
    requires SysInv(s) && KernInv(k1) && |k1.tcbs| == |s.k.tcbs| && L(k1, Lockers(m)) == L(s.k, Lockers(m)) != []
    requires forall u :: 0 <= u < |k1.tcbs| ==> SameWait(s.k.tcbs[u], k1.tcbs[u])
    requires forall u :: 0 <= u < |k1.tcbs| && s.k.tcbs[u].evt.Some? ==> k1.tcbs[u].held == s.k.tcbs[u].held
    ensures var n := L(k1, Lockers(m))[0];
            var k3 := HandOver(k1, n, Lockers(m));
            && n < |k1.tcbs| && OnlyTask(k1, k3, n) && k3.cur == k1.cur && k3.pending == k1.pending
            && k3.tcbs[n].eff == k1.tcbs[n].eff && ReadyIn(k3, n) && BlockedIn(k1, n)
  {
    hide KernInv, SemInv, QueueInvBut, Continuations, MutexInv, HandOver, Unblock, Items;
    FirstWaiter(k1, Lockers(m));
    var n := L(k1, Lockers(m))[0];
    WaiterBelowCap(s, n, m);
    HandoffNeverRaises(k1, m);
    UnblockOnly(k1, n);
  }

  lemma UnblockOnly(k: Kern, t: TaskId)
    requires KernInv(k) && BlockedIn(k, t)
    ensures var k' := Unblock(k, t, Signaled);
            OnlyTask(k, k', t) && ReadyIn(k', t) && k'.tcbs[t].eff == k.tcbs[t].eff && k'.cur == k.cur && k'.pending == k.pending
  {
    hide Linked, TimersWithin, Queued, Unblock, Items, Remove;
    PlacedBounds(k, t);
    UnblockHasEffect(k, t, Signaled);
  }

  /** Unlocking from a calm state leaves the system safe if and only if it does not strand a task. */
  lemma UnlockSafeIff(s: Sys, m: nat)
    requires SysInv(s) && Enabled(s, UnlockCall(m)) && Calm(s.k)
    ensures Safe(Step(s, UnlockCall(m)).k) <==> !Strands(s, m)
  {
    hide KernInv, Settled, SemInv, QueueInvBut, Continuations, MutexInv, Relinquish, DropHeld, HandOver, Items, Unblock, Inherit, Required;
    var t := s.k.cur.id;
    if s.owners[m] == Some(t) {
      UnplacedCaller(s, t, 0, 0, 0);
      ReleaseFacts(s, t, m);
      ReleaseTask(s, t, m);
      var k1 := Relinquish(DropHeld(s.k, t), t);
      var k' := Step(s, UnlockCall(m)).k;
      if L(k1, Lockers(m)) != [] {
        HandoffFacts(s, k1, m);
        var n := L(k1, Lockers(m))[0];
        HandoffKern(s, t, m);
        HandoffSafe(s, k1, k', t, n, m);
      } else {
        ReleaseSafe(s, k1, k', t);
      }
    }
  }

  lemma HandoffKern(s: Sys, t: TaskId, m: nat)
    requires s.k.cur == Task(t) && OwnerOf(s, m) == Some(t)
    requires L(Relinquish(DropHeld(s.k, t), t), Lockers(m)) != []
    ensures var k1 := Relinquish(DropHeld(s.k, t), t);
            var n := L(k1, Lockers(m))[0];
            var k3 := HandOver(k1, n, Lockers(m));
            Step(s, UnlockCall(m)).k == Request(k3, T(k3, n).eff > T(k1, t).eff)
  {
    hide Relinquish, DropHeld, Unblock, AddHeld, Inherit, Required, Items;
  }

  lemma ReleaseSafe(s: Sys, k1: Kern, k': Kern, t: TaskId)
    requires s.k.cur == Task(t) && t < |s.k.tcbs| && OnlyTask(s.k, k1, t) && k1.cur == s.k.cur && Calm(s.k) && k1.tcbs[t].place.None?
    requires k' == Request(k1, T(k1, t).eff != T(s.k, t).eff)
    ensures Safe(k')
  {
  }

  lemma HandoffSafe(s: Sys, k1: Kern, k': Kern, t: TaskId, n: TaskId, m: nat)
    requires s.k.cur == Task(t) && t < |s.k.tcbs| && !s.k.pending && OwnerOf(s, m) == Some(t)
    requires OnlyTask(s.k, k1, t) && k1.cur == s.k.cur && !k1.pending && k1.tcbs[t].place.None? && s.k.tcbs[t].place.None?
    requires k1.tcbs[t].eff == AfterRelease(s, t)
    requires L(s.k, Lockers(m)) != [] && L(s.k, Lockers(m))[0] == n && n < |k1.tcbs| && n != t && !ReadyIn(k1, n)
    requires var k3 := HandOver(k1, n, Lockers(m));
             && OnlyTask(k1, k3, n) && k3.cur == k1.cur && k3.pending == k1.pending
             && k3.tcbs[n].eff == k1.tcbs[n].eff && ReadyIn(k3, n)
             && k' == Request(k3, T(k3, n).eff > T(k1, t).eff)
    ensures Safe(k') <==> !Strands(s, m)
  {
    hide HandOver, Items;
    var k3 := HandOver(k1, n, Lockers(m));
    var after := AfterRelease(s, t);
    assert CurEff(k') == after;
    assert forall u: TaskId :: u != n ==> (ReadyIn(k', u) <==> ReadyIn(s.k, u));
    assert forall u: TaskId :: ReadyIn(k', u) && u != n ==> k'.tcbs[u].eff == s.k.tcbs[u].eff;
    assert k'.tcbs[n].eff == s.k.tcbs[n].eff;
    if Strands(s, m) {
      var u: TaskId :| ReadyIn(s.k, u) && s.k.tcbs[u].eff > after;
      assert ReadyIn(k', u);
    }
  }

  // ---------------------------------------------------------------- The other steps

  lemma LockSafe(s: Sys, m: nat, timeout: nat)
    requires SysInv(s) && Enabled(s, LockCall(m, timeout)) && Calm(s.k)
    ensures Safe(Step(s, LockCall(m, timeout)).k)
  {
    hide KernInv, Settled, SemInv, QueueInvBut, Continuations, MutexInv, BlockCurrent, Inherit, Required;
  }

  lemma ResumeLockSafe(s: Sys, t: TaskId, m: nat)
    requires SysInv(s) && s.k.cur == Task(t) && !s.k.pending && t < |s.pcs| && s.pcs[t] == InLock(m) && Calm(s.k)
    ensures Safe(ResumeLock(s, t, m).0.k)
  {
    hide KernInv, SemInv, QueueInvBut, SetEffective, Required;
    UnplacedCaller(s, t, 0, 0, 0);
    assert OutcomeOk(s, t, s.k.tcbs[t], s.pcs[t]);
    hide MutexInv;
    ResumedKern(s.k, t);
    var k1 := WithReason(s.k, t, NoReason);
    CalmSame(s.k, k1);
    if T(s.k, t).reason != Signaled && OwnerOf(s, m).Some? {
      MutexBounds(s, m);
      var o := OwnerOf(s, m).value;
      var req := Required(k1, o, Lockers(m));
      var p := if req > T(k1, o).base then req else T(k1, o).base;
      if T(k1, o).held == 1 && p < T(k1, o).eff {
        LowerCalm(k1, o, p);
      }
    }
  }

  /** A signal by a task: it asks for a switch exactly when the waiter it wakes outranks it. */
  lemma SignalSafe(k: Kern, l: ListId)
    requires KernInv(k) && Settled(k) && !k.pending && !IsStateList(l) && Calm(k)
    ensures Safe(Request(WakeFirst(k, l), FirstIsHigher(k, l)))
  {
    hide KernInv, Settled, WakeFirst, FirstIsHigher;
    if !FirstIsHigher(k, l) {
      WakeFirstCalm(k, l);
      CalmSame(WakeFirst(k, l), Request(WakeFirst(k, l), false));
    }
  }

  lemma EffectSafe(k: Kern, f: Effect)
    requires KernInv(k) && Settled(k) && !k.pending && Calm(k) && Fits(k, f) && Exact(k, f)
    ensures Safe(Apply(k, f))
  {
    hide KernInv, Settled, BlockCurrent, WakeFirst, FirstIsHigher, Calm;
    match f
    case Quiet(wanted) => CalmIs(k, wanted);
    case Sleep(_, _, _) =>
    case Wake(l, wanted) => SignalSafe(k, l);
  }

  lemma ResumeSafe(s: Sys, t: TaskId)
    requires SysInv(s) && s.k.cur == Task(t) && !s.k.pending && t < |s.pcs| && Calm(s.k)
    ensures Safe(ResumeStep(s, t).0.k)
  {
    hide KernInv, Settled, SemInv, QueueInvBut, Continuations, MutexInv, ResumeLock, Apply;
    UnplacedCaller(s, t, 0, 0, 0);
    if s.pcs[t].InLock? {
      ResumeLockSafe(s, t, s.pcs[t].mutex);
    } else {
      ResumedKern(s.k, t);
      CalmSame(s.k, WithReason(s.k, t, NoReason));
      var k, f := ResumeEffect(s, t);
      EffectSafe(k, f);
    }
  }

  lemma CallSafe(s: Sys, e: Event)
    requires SysInv(s) && Enabled(s, e) && IsTaskCall(e) && Calm(s.k) && (e.UnlockCall? ==> !Strands(s, e.mutex))
    ensures Safe(Step(s, e).k)
  {
    hide KernInv, SemInv, QueueInvBut, Continuations, MutexInv, Calm, Strands, Apply, Step;
    UnplacedCaller(s, s.k.cur.id, 0, 0, 0);
    if e.LockCall? {
      LockSafe(s, e.mutex, e.timeout);
    } else if e.UnlockCall? {
      UnlockSafeIff(s, e.mutex);
    } else {
      var f := CallEffect(s, e);
      EffectSafe(s.k, f);
    }
  }

  lemma CalmRequest(k: Kern)
    requires Calm(k)
    ensures Calm(Request(k, false))
  {
  }

  lemma CreateSafe(k: Kern, prio: nat)
    requires Safe(k) && prio < k.levels
    ensures Safe(CreateTask(k, prio))
  {
    hide CreateTask, Items;
    CreateGrows(k, prio);
    CreatePending(k, prio);
    var k' := CreateTask(k, prio);
    if !k'.cur.NoTask? && !k'.pending {
      forall u: TaskId | ReadyIn(k', u) ensures k'.tcbs[u].eff <= CurEff(k') {
        assert u < |k.tcbs| ==> ReadyIn(k, u);
      }
    }
  }

  lemma CreatePending(k: Kern, prio: nat)
    ensures CreateTask(k, prio).pending <==> k.pending || (k.cur != NoTask && prio > CurEff(k))
  {
    hide InsertReady;
  }

  // ---------------------------------------------------------------- Interrupts and runs

  /** The wake flag that an interrupt call reports. */
  ghost predicate Flagged(s: Sys, e: Event) {
    match e
    case SignalFromIsr(x, _) => GiveToken(s, x).2
    case EnqueueFromIsr(q, data, _) => EnqueueIsr(s, q, data).2
    case DequeueFromIsr(q, _) => DequeueIsr(s, q).2
    case _ => false
  }

  predicate Wakes(e: Event) {
    e.SignalFromIsr? || e.EnqueueFromIsr? || e.DequeueFromIsr?
  }

  /** The handler of a flagged interrupt call asks for no switch, although something runs and none is outstanding. */
  ghost predicate Unheeded(s: Sys, e: Event) {
    Wakes(e) && !s.k.cur.NoTask? && !s.k.pending && Flagged(s, e) && !e.andYield
  }

  /** The two kinds of step after which a ready task may outrank the running one with no switch requested. */
  ghost predicate Endangers(s: Sys, e: Event) {
    (e.UnlockCall? && Strands(s, e.mutex)) || Unheeded(s, e)
  }

  /** An interrupt call that gets as far as its wait list: a token to hand over, room for the item, or an item to take. */
  ghost predicate Delivers(s: Sys, e: Event) {
    match e
    case SignalFromIsr(x, _) => SemOf(s, x).count == 0 && L(s.k, Takers(x)) != []
    case EnqueueFromIsr(q, _, _) => QueueOf(s, q).count != QueueOf(s, q).capacity
    case DequeueFromIsr(q, _) => QueueOf(s, q).count != 0
    case _ => false
  }

  lemma IsrFlagKern(s: Sys, e: Event)
    requires Wakes(e)
    ensures var k1 := if Delivers(s, e) then WakeFirst(s.k, IsrList(e)) else s.k;
            Step(s, e).k == Request(k1, e.andYield && !k1.cur.NoTask?)
    ensures Flagged(s, e) <==> Delivers(s, e) && FirstIsHigher(s.k, IsrList(e))
  {
    hide WakeFirst, FirstIsHigher, Request, Items;
  }

  lemma IsrSafe(s: Sys, e: Event)
    requires SysInv(s) && Enabled(s, e) && !Unheeded(s, e) && Safe(s.k)
    requires e.TakeFromIsr? || Wakes(e)
    ensures Safe(Step(s, e).k)
  {
    hide SemInv, QueueInvBut, Continuations, MutexInv, Linked, TimersWithin, Queued, Placed, WakeFirst, FirstIsHigher, Flagged, Delivers, Step, IsrList;
    if e.TakeFromIsr? {
      IsrKern(s, e);
    } else {
      IsrFlagKern(s, e);
      IsrListIs(e);
      WakeFirstContext(s.k, IsrList(e));
      if Calm(s.k) && !s.k.pending && !FirstIsHigher(s.k, IsrList(e)) {
        WakeFirstCalm(s.k, IsrList(e));
      }
    }
  }

  /** From a calm state, an interrupt call leaves things safe exactly if its handler asks for a switch when flagged. */
  lemma IsrSafeIff(s: Sys, e: Event)
    requires SysInv(s) && Enabled(s, e) && Calm(s.k) && !s.k.pending && !s.k.cur.NoTask? && Wakes(e)
    ensures Safe(Step(s, e).k) <==> (Flagged(s, e) ==> e.andYield)
  {
    hide SemInv, QueueInvBut, Continuations, MutexInv, KernInv, Settled, WakeFirst, FirstIsHigher, Flagged, Delivers, Step, IsrList, Calm;
    IsrFlagKern(s, e);
    IsrListIs(e);
    WakeFirstContext(s.k, IsrList(e));
    WakeFirstCalmIff(s.k, IsrList(e));
    var k1 := if Delivers(s, e) then WakeFirst(s.k, IsrList(e)) else s.k;
    CalmIs(k1, e.andYield);
  }

  lemma CalmIs(k: Kern, wanted: bool)
    ensures Calm(Request(k, wanted)) <==> Calm(k)
  {
  }

  /** Waking the first waiter leaves things calm exactly if it does not outrank the running task. */
  lemma WakeFirstCalmIff(k: Kern, l: ListId)
    requires KernInv(k) && Settled(k) && !k.pending && !IsStateList(l) && Calm(k)
    ensures Calm(WakeFirst(k, l)) <==> !FirstIsHigher(k, l)
  {
    hide KernInv, Settled, Unblock, Items;
    FirstWaiter(k, l);
    if FirstIsHigher(k, l) {
      var h, k' := L(k, l)[0], WakeFirst(k, l);
      UnblockReadies(k, h, Signaled);
      UnblockWakes(k, h, Signaled);
      assert ReadyIn(k', h) && CurEff(k') == CurEff(k);
    } else {
      WakeFirstCalm(k, l);
    }
  }

  lemma IsrListIs(e: Event)
    requires Wakes(e)
    ensures !IsStateList(IsrList(e))
  {
  }

  lemma WakeFirstContext(k: Kern, l: ListId)
    requires KernInv(k) && !IsStateList(l)
    ensures WakeFirst(k, l).cur == k.cur && WakeFirst(k, l).pending == k.pending
  {
    hide KernInv, Unblock;
    FirstWaiter(k, l);
    if L(k, l) != [] {
      UnblockWakes(k, L(k, l)[0], Signaled);
    }
  }

  /** Every step that does not endanger the system keeps it safe. */
  lemma StepSafe(s: Sys, e: Event)
    requires SysInv(s) && Enabled(s, e) && !Endangers(s, e) && Safe(s.k)
    ensures Safe(Step(s, e).k)
  {
    hide SysInvBut, ResumeStep, SelectNext, StartFirst, Kernel.Tick, CreateTask, Strands, Calm, Unheeded,
      Wait, WaitUntil, Lock, Unlock, Take, Signal, Enqueue, Dequeue, GiveToken, EnqueueIsr, DequeueIsr, TakeIsr;
    KernOf(s);
    if IsTaskCall(e) {
      CallSafe(s, e);
    } else if e.TakeFromIsr? || e.SignalFromIsr? || e.EnqueueFromIsr? || e.DequeueFromIsr? {
      IsrSafe(s, e);
    } else {
      match e
      case Create(ok, words, prio) =>
        if CreateStatus(s.k, ok, words, prio) == Ok {
          CreateSafe(s.k, prio);
        }
      case Start => StartCalm(s.k);
      case Switch => SwitchCalm(s.k);
      case Tick => TickSafe(s.k);
      case YieldIsr =>
      case Resume => ResumeSafe(s, s.k.cur.id);
    }
  }

  lemma TickSafe(k: Kern)
    requires KernInv(k)
    ensures Safe(Kernel.Tick(k))
  {
    hide KernInv, Kernel.Tick;
    TickRepairs(k);
  }

  /** Steps after which the system is safe whatever went before. */
  ghost predicate Restores(e: Event) {
    e.Tick? || e.Switch?
  }

  /** A safe system stays safe over a step if and only if the step is neither a stranding unlock nor an unheeded interrupt call. */
  lemma StepSafeIff(s: Sys, e: Event)
    requires SysInv(s) && Enabled(s, e) && Safe(s.k)
    ensures Safe(Step(s, e).k) <==> !Endangers(s, e)
  {
    hide SysInvBut, Step, Strands, Calm, Flagged;
    if !Endangers(s, e) {
      StepSafe(s, e);
    } else if e.UnlockCall? {
      UnlockSafeIff(s, e.mutex);
    } else {
      IsrSafeIff(s, e);
    }
  }

  /** The system is safe in every state of every run with no endangering step since the start or the last tick or switch. */
  lemma {:induction false} AlwaysSafe(ss: seq<Sys>, es: seq<Event>, r: nat, i: nat)
    requires Run(ss, es) && r <= i < |ss| && (r > 0 ==> Restores(es[r - 1]))
    requires forall x :: r <= x < i ==> !Endangers(ss[x], es[x])
    ensures Safe(ss[i].k)
  {
    hide SysInvBut, Step, Enabled, Endangers, Calm;
    if i > r {
      AlwaysSafe(ss, es, r, i - 1);
      Always(ss, es, i - 1);
      StepSafe(ss[i - 1], es[i - 1]);
    } else if r > 0 {
      Always(ss, es, r - 1);
      RestoresSafe(ss[r - 1], es[r - 1]);
    }
  }

  /** A run is safe throughout if and only if none of its steps endangers the system. */
  lemma SafeIff(ss: seq<Sys>, es: seq<Event>)
    requires Run(ss, es)
    ensures (forall i :: 0 <= i < |ss| ==> Safe(ss[i].k)) <==> (forall x :: 0 <= x < |es| ==> !Endangers(ss[x], es[x]))
  {
    hide SysInvBut, Initial, Step, Enabled, Endangers, Safe;
    if forall x :: 0 <= x < |es| ==> !Endangers(ss[x], es[x]) {
      forall i | 0 <= i < |ss| ensures Safe(ss[i].k) {
        AlwaysSafe(ss, es, 0, i);
      }
    }
    if forall i :: 0 <= i < |ss| ==> Safe(ss[i].k) {
      forall x | 0 <= x < |es| ensures !Endangers(ss[x], es[x]) {
        Always(ss, es, x);
        StepSafeIff(ss[x], es[x]);
        assert Safe(ss[x + 1].k);
      }
    }
  }

  lemma RestoresSafe(s: Sys, e: Event)
    requires SysInv(s) && Enabled(s, e) && Restores(e)
    ensures Safe(Step(s, e).k)
  {
    hide SysInvBut, SelectNext, Kernel.Tick, Calm;
    KernOf(s);
    if e.Tick? {
      TickSafe(s.k);
    } else {
      SwitchCalm(s.k);
    }
  }

  // ---------------------------------------------------------------- No needless switches

  lemma SignalExact(k: Kern, l: ListId)
    requires KernInv(k) && Settled(k) && !k.pending && !IsStateList(l) && Calm(k)
    ensures var k' := Request(WakeFirst(k, l), FirstIsHigher(k, l));
            k'.pending <==> !Calm(k')
  {
    hide KernInv, Settled, WakeFirst, FirstIsHigher, Calm;
    WakeFirstContext(k, l);
    WakeFirstCalmIff(k, l);
    CalmIs(WakeFirst(k, l), FirstIsHigher(k, l));
  }

  lemma TryExact(s: Sys, t: TaskId, q: nat, data: seq<Byte>, wake: nat, infinite: bool, due: nat)
    requires KernInv(s.k) && Settled(s.k) && !s.k.pending && Calm(s.k)
    ensures var (s', r) := TryEnqueue(s, t, q, data, wake, infinite, due);
            r.Returned? ==> (s'.k.pending <==> !Calm(s'.k))
    ensures var (s', r) := TryDequeue(s, t, q, wake, infinite, due);
            r.Returned? ==> (s'.k.pending <==> !Calm(s'.k))
  {
    hide KernInv, Settled, BlockCurrent, WakeFirst, FirstIsHigher, Calm, Request, QueueOf, QueueLogOf, Expired;
    SignalExact(s.k, Readers(q));
    SignalExact(s.k, Writers(q));
  }

  lemma CreateExact(k: Kern, prio: nat)
    requires !k.cur.NoTask? && !k.pending && Calm(k) && prio < k.levels && (k.cur.Task? ==> k.cur.id < |k.tcbs|)
    ensures CreateTask(k, prio).pending <==> !Calm(CreateTask(k, prio))
  {
    hide CreateTask, Items;
    CreateGrows(k, prio);
    CreatePending(k, prio);
    var k', n := CreateTask(k, prio), |k.tcbs|;
    assert ReadyIn(k', n);
    forall u: TaskId | ReadyIn(k', u) && u != n ensures k'.tcbs[u].eff <= CurEff(k') {
      assert ReadyIn(k, u);
    }
  }

  /** Signals, queue calls that return, and task creation ask for a switch exactly when some ready task outranks the caller. */
  lemma RequestedIffNeeded(s: Sys, e: Event)
    requires SysInv(s) && Enabled(s, e) && s.k.cur.Task? && Calm(s.k)
    requires e.SignalCall? || e.Create? || ((e.EnqueueCall? || e.DequeueCall?) && Perform(s, e).1.Returned?)
    ensures Step(s, e).k.pending <==> !Calm(Step(s, e).k)
  {
    hide KernInv, Settled, SemInv, QueueInvBut, Continuations, MutexInv, TryEnqueue, TryDequeue, WakeFirst, FirstIsHigher, Calm, CreateTask;
    var t := s.k.cur.id;
    UnplacedCaller(s, t, 0, 0, 0);
    CalmRequest(s.k);
    match e
    case SignalCall(x) => SignalExact(s.k, Takers(x));
    case Create(ok, words, prio) =>
      if CreateStatus(s.k, ok, words, prio) == Ok {
        CreateExact(s.k, prio);
      }
    case EnqueueCall(q, data, timeout) => TryExact(s, t, q, data, WakeTick(s.k, timeout), timeout == INFINITE, s.k.clock + timeout);
    case DequeueCall(q, timeout) => TryExact(s, t, q, [], WakeTick(s.k, timeout), timeout == INFINITE, s.k.clock + timeout);
  }
}
