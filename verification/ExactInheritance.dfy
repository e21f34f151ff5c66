/**
 Inheritance is exact without nesting. In runs in which no task locks a mutex while it
 holds another, an owner's priority is never higher than it must be, except while a task
 that timed out on the mutex has yet to resume and take back what it lent.
 */
module ExactInheritance {
  import opened Kernel
  import opened KernelInvariants
  import opened TaskViews
  import opened System
  import opened Effects
  import opened SystemInvariants
  import opened MutexInvariants
  import opened SystemProof
  import opened Lifecycle
  import opened Outcomes
  import opened Retry

  predicate WaitsForMutex(c: Tcb) {
    c.evt.Some? && c.evt.value.Lockers?
  }

  /** Nobody holds two mutexes, or waits for one while holding another. */
  ghost predicate Flat(s: Sys) {
    forall t :: 0 <= t < |s.k.tcbs| ==> s.k.tcbs[t].held <= 1 && (WaitsForMutex(s.k.tcbs[t]) ==> s.k.tcbs[t].held == 0)
  }

  /** `t` timed out waiting for `m` and has not resumed yet. */
  ghost predicate GaveUp(s: Sys, t: TaskId, m: nat) {
    t < |s.pcs| && t < |s.k.tcbs| && s.pcs[t] == InLock(m) && !Blocked(s.k.tcbs[t]) && s.k.tcbs[t].reason == TimedOut
  }

  /** `w` waits for `m` at exactly the priority of its owner `o`. */
  ghost predicate Lends(s: Sys, w: TaskId, m: nat, o: TaskId) {
    Waiting(s, w, Lockers(m)) && o < |s.k.tcbs| && s.k.tcbs[w].eff == s.k.tcbs[o].eff
  }

  ghost predicate TightAt(s: Sys, m: nat, o: TaskId) {
    o < |s.k.tcbs| ==>
      || s.k.tcbs[o].eff == s.k.tcbs[o].base
      || (exists w :: Lends(s, w, m, o))
      || (exists w :: GaveUp(s, w, m))
  }

  /** Every raised owner has a waiter of that priority, or one that gave up and has yet to resume. */
  ghost predicate Tight(s: Sys) {
    forall m :: m in s.owners && s.owners[m].Some? ==> TightAt(s, m, s.owners[m].value)
  }

  // ---------------------------------------------------------------- What a step does to waiters

  /** A task is put on a mutex wait list only by its own lock call. */
  lemma NewWaiter(s: Sys, e: Event, u: TaskId, m: nat)
    requires SysInv(s) && Enabled(s, e) && Waiting(Step(s, e), u, Lockers(m)) && !e.LockCall?
    ensures Waiting(s, u, Lockers(m))
  {
    hide SysInvBut, Step, Enabled, IsTaskCall;
    StepKeeps(s, e);
    WaiterPc(Step(s, e), u, m);
    if u < |s.pcs| {
      if s.k.cur == Task(u) && (IsTaskCall(e) || e.Resume?) {
        OwnCallPc(s, e, u);
      } else {
        PcStep(s, e, u);
        StaysBlocked(s, e, u, m);
      }
    } else {
      PcsGrow(s, e);
    }
  }

  lemma WaiterPc(s: Sys, u: TaskId, m: nat)
    requires SysInv(s) && Waiting(s, u, Lockers(m))
    ensures u < |s.pcs| && s.pcs[u] == InLock(m) && BlockedIn(s.k, u)
  {
    hide Linked, TimersWithin, Queued, SemInv, QueueInvBut, MutexInv;
    assert PlacedTask(s.k, u, s.k.tcbs[u]);
    assert PcTask(s.pcs[u], s.k.tcbs[u]);
  }

  lemma PcWaiter(s: Sys, u: TaskId, m: nat)
    requires SysInv(s) && u < |s.pcs| && s.pcs[u] == InLock(m)
    ensures u < |s.k.tcbs|
    ensures if Blocked(s.k.tcbs[u]) then Waiting(s, u, Lockers(m)) else s.k.tcbs[u].reason != NoReason
  {
    hide KernInv, SemInv, QueueInvBut, MutexInv;
    assert PcTask(s.pcs[u], s.k.tcbs[u]);
  }

  lemma StaysBlocked(s: Sys, e: Event, u: TaskId, m: nat)
    requires SysInv(s) && Enabled(s, e) && u < |s.pcs| && s.pcs[u] == InLock(m) && BlockedIn(Step(s, e).k, u)
    requires s.k.cur == Task(u) ==> !IsTaskCall(e) && !e.Resume?
    ensures Waiting(s, u, Lockers(m))
  {
    hide SysInvBut, Step, Enabled, IsTaskCall;
    PcWaiter(s, u, m);
    if !Blocked(s.k.tcbs[u]) {
      ReasonStep(s, e, u);
    }
  }

  /** No call but a lock leaves its caller inside a lock. */
  lemma OwnCallPc(s: Sys, e: Event, t: TaskId)
    requires Enabled(s, e) && (IsTaskCall(e) || e.Resume?) && s.k.cur == Task(t) && !e.LockCall?
    ensures !PcOf(Step(s, e), t).InLock?
  {
    hide TryEnqueue, TryDequeue, ResumeLock, GiveToken, Unlock, BlockCurrent, Request, WakeTick, WithReason;
    match e
    case SignalCall(x) => SemPc(s, x);
    case UnlockCall(m) => UnlockOthers(s, t, m);
    case EnqueueCall(q, data, timeout) =>
      TryOwnPc(s, t, q, data, WakeTick(s.k, timeout), timeout == INFINITE, s.k.clock + timeout);
    case DequeueCall(q, timeout) =>
      TryOwnPc(s, t, q, [], WakeTick(s.k, timeout), timeout == INFINITE, s.k.clock + timeout);
    case Resume =>
      var s1 := s.(k := WithReason(s.k, t, NoReason));
      var pc := PcOf(s, t);
      match pc {
        case InLock(m) => ResumeLockPc(s, t, m);
        case InEnqueue(q, data, wake, infinite, due) => TryOwnPc(s1, t, q, data, wake, infinite, due);
        case InDequeue(q, wake, infinite, due) => TryOwnPc(s1, t, q, [], wake, infinite, due);
        case _ =>
      }
    case _ =>
  }

  lemma ResumeLockPc(s: Sys, t: TaskId, m: nat)
    requires t < |s.pcs|
    ensures PcOf(ResumeLock(s, t, m).0, t) == Free
  {
    hide Disinherit, Required, WithReason;
  }

  lemma TryOwnPc(s: Sys, t: TaskId, q: nat, data: seq<Byte>, wake: nat, infinite: bool, due: nat)
    requires t < |s.pcs|
    ensures !PcOf(TryEnqueue(s, t, q, data, wake, infinite, due).0, t).InLock?
    ensures !PcOf(TryDequeue(s, t, q, wake, infinite, due).0, t).InLock?
  {
    hide BlockCurrent, FirstIsHigher, Expired, Request, QueueOf, Push, Pop, WithPc;
    PushPopPc(WithPc(s, t, Free), q, data);
    WithPcReads(s, t, Free);
    WithPcReads(s, t, InEnqueue(q, data, wake, infinite, due));
    WithPcReads(s, t, InDequeue(q, wake, infinite, due));
  }

  /** While the owner stays, a waiter goes on waiting or gives up. */
  lemma WaiterStep(s: Sys, e: Event, w: TaskId, m: nat)
    requires SysInv(s) && Enabled(s, e) && Waiting(s, w, Lockers(m)) && OwnerOf(Step(s, e), m) == OwnerOf(s, m)
    ensures Waiting(Step(s, e), w, Lockers(m)) || GaveUp(Step(s, e), w, m)
  {
    hide SysInvBut, Step, Enabled, IsTaskCall, SignalledFirst, OwnerOf;
    var s' := Step(s, e);
    WaiterPc(s, w, m);
    BlockedCall(s, e, w);
    PcStep(s, e, w);
    WaitStep(s, e, w);
    StepKeeps(s, e);
    NotOwner(s, w, m);
    PcWaiter(s', w, m);
    if !BlockedIn(s'.k, w) {
      Outcome(s', w, m);
    }
  }

  lemma NotOwner(s: Sys, w: TaskId, m: nat)
    requires SysInv(s) && Waiting(s, w, Lockers(m))
    ensures OwnerOf(s, m) != Some(w)
  {
    hide KernInv, SemInv, QueueInvBut, Continuations;
    assert WaiterOk(s, w, s.k.tcbs[w], m);
  }

  lemma Outcome(s: Sys, w: TaskId, m: nat)
    requires SysInv(s) && w < |s.pcs| && s.pcs[w] == InLock(m) && !BlockedIn(s.k, w)
    ensures w < |s.k.tcbs| && (s.k.tcbs[w].reason == Signaled <==> OwnerOf(s, m) == Some(w))
  {
    hide KernInv, SemInv, QueueInvBut, Continuations;
    assert OutcomeOk(s, w, s.k.tcbs[w], s.pcs[w]);
  }

  lemma GaveUpStep(s: Sys, e: Event, w: TaskId, m: nat)
    requires SysInv(s) && Enabled(s, e) && GaveUp(s, w, m) && !(e.Resume? && s.k.cur == Task(w))
    ensures GaveUp(Step(s, e), w, m)
  {
    hide SysInvBut, Step, Enabled;
    ReasonStep(s, e, w);
    PcsGrow(s, e);
  }

  // ---------------------------------------------------------------- What a step does to priorities

  /** Every task keeps its base, its priority and its count. */
  ghost predicate SameRanks(k: Kern, k': Kern) {
    |k.tcbs| <= |k'.tcbs| && forall t :: 0 <= t < |k.tcbs| ==> SameRank(k.tcbs[t], k'.tcbs[t])
  }

  lemma RequestRanks(k: Kern, k1: Kern, wanted: bool)
    requires SameRanks(k, k1)
    ensures SameRanks(k, Request(k1, wanted))
  {
  }

  lemma SleepRanks(k: Kern, wake: nat, waitOn: Option<ListId>, infinite: bool)
    requires KernInv(k) && k.cur.Task? && T(k, k.cur.id).place.None?
    ensures SameRanks(k, Request(BlockCurrent(k, wake, waitOn, infinite), true))
  {
    hide KernInv, BlockCurrent;
    BlockSleeps(k, wake, waitOn, infinite);
  }

  lemma SignalRanks(k: Kern, l: ListId, wanted: bool)
    requires KernInv(k) && !IsStateList(l)
    ensures SameRanks(k, Request(WakeFirst(k, l), wanted))
  {
    hide KernInv, Unblock, Items;
    FirstWaiter(k, l);
    if L(k, l) != [] {
      UnblockWakes(k, L(k, l)[0], Signaled);
    }
  }

  lemma EffectRanks(k: Kern, f: Effect)
    requires KernInv(k) && Fits(k, f)
    ensures SameRanks(k, Apply(k, f))
  {
    hide KernInv, BlockCurrent, WakeFirst, Request;
    match f
    case Quiet(wanted) => RequestRanks(k, k, wanted);
    case Sleep(wake, waitOn, infinite) => SleepRanks(k, wake, waitOn, infinite);
    case Wake(l, wanted) => SignalRanks(k, l, wanted);
  }

  lemma CallRanks(s: Sys, e: Event)
    requires SysInv(s) && Enabled(s, e) && IsTaskCall(e) && !e.LockCall? && !e.UnlockCall?
    ensures SameRanks(s.k, Step(s, e).k)
  {
    hide SysInvBut, Apply, Step;
    KernOf(s);
    UnplacedCaller(s, s.k.cur.id, 0, 0, 0);
    var f := CallEffect(s, e);
    EffectRanks(s.k, f);
  }

  lemma ResumeRanks(s: Sys, t: TaskId)
    requires SysInv(s) && s.k.cur == Task(t) && !s.k.pending && t < |s.pcs| && !s.pcs[t].InLock?
    ensures SameRanks(s.k, ResumeStep(s, t).0.k)
  {
    hide KernInv, SemInv, QueueInvBut, Continuations, MutexInv, Apply;
    UnplacedCaller(s, t, 0, 0, 0);
    ResumedKern(s.k, t);
    var k, f := ResumeEffect(s, t);
    EffectRanks(k, f);
  }

  lemma IsrRanks(s: Sys, e: Event)
    requires SysInv(s) && (e.TakeFromIsr? || e.SignalFromIsr? || e.EnqueueFromIsr? || e.DequeueFromIsr?)
    ensures SameRanks(s.k, Step(s, e).k)
  {
    hide SysInvBut, WakeFirst, Step, Request;
    KernOf(s);
    IsrKern(s, e);
    if !e.TakeFromIsr? {
      RequestRanks(s.k, s.k, e.andYield && !s.k.cur.NoTask?);
      SignalRanks(s.k, IsrList(e), e.andYield && !WakeFirst(s.k, IsrList(e)).cur.NoTask?);
    }
  }

  /** The steps that are not about mutexes. */
  predicate Unrelated(s: Sys, e: Event) {
    !e.LockCall? && !e.UnlockCall? && !(e.Resume? && s.k.cur.Task? && PcOf(s, s.k.cur.id).InLock?)
  }

  lemma RankStep(s: Sys, e: Event)
    requires SysInv(s) && Enabled(s, e) && Unrelated(s, e)
    ensures SameRanks(s.k, Step(s, e).k)
    ensures forall t :: |s.k.tcbs| <= t < |Step(s, e).k.tcbs| ==> Step(s, e).k.tcbs[t].held == 0
    ensures Step(s, e).owners == s.owners
  {
    hide SysInvBut, ResumeStep, Step, SelectNext, StartFirst, Kernel.Tick, CreateTask, Due, Advance;
    KernOf(s);
    SizesMatch(s);
    StepKeeps(s, e);
    SizesMatch(Step(s, e));
    if IsTaskCall(e) {
      CallRanks(s, e);
      CallPc(s, e, s.k.cur.id);
    } else if e.TakeFromIsr? || e.SignalFromIsr? || e.EnqueueFromIsr? || e.DequeueFromIsr? {
      IsrRanks(s, e);
      OtherPc(s, e);
      IsrSize(s, e);
    } else if e.Resume? {
      ResumeIs(s);
      ResumeRanks(s, s.k.cur.id);
      ResumePc(s, s.k.cur.id);
    } else {
      OtherPc(s, e);
      QuietRanks(s, e);
    }
  }

  lemma SizesMatch(s: Sys)
    requires SysInv(s)
    ensures |s.pcs| == |s.k.tcbs|
  {
    hide KernInv, SemInv, QueueInvBut, MutexInv;
  }

  lemma IsrSize(s: Sys, e: Event)
    requires e.TakeFromIsr? || e.SignalFromIsr? || e.EnqueueFromIsr? || e.DequeueFromIsr?
    ensures Step(s, e).pcs == s.pcs
  {
    hide FirstIsHigher, Request, GiveToken, TakeIsr, Push, Pop;
    match e
    case TakeFromIsr(x) => SemPc(s, x);
    case SignalFromIsr(x, _) => SemPc(s, x);
    case EnqueueFromIsr(q, data, _) => PushPopPc(s, q, data);
    case DequeueFromIsr(q, _) => PushPopPc(s, q, []);
  }

  lemma QuietRanks(s: Sys, e: Event)
    requires SysInv(s) && Enabled(s, e) && (e.Create? || e.Start? || e.Switch? || e.Tick? || e.YieldIsr?)
    ensures SameRanks(s.k, Step(s, e).k)
    ensures forall t :: |s.k.tcbs| <= t < |Step(s, e).k.tcbs| ==> Step(s, e).k.tcbs[t].held == 0
  {
    hide SysInvBut, SelectNext, StartFirst, Kernel.Tick, CreateTask, Due, Advance;
    KernOf(s);
    match e
    case Create(ok, words, prio) =>
      if CreateStatus(s.k, ok, words, prio) == Ok {
        CreateGrows(s.k, prio);
      }
    case Start => StartSteady(s.k);
    case Switch => SwitchSteady(s.k);
    case Tick => TickWakes(s.k);
    case YieldIsr =>
  }

  // ---------------------------------------------------------------- Frames

  ghost predicate WitnessesKept(s: Sys, s': Sys, m: nat) {
    && (forall w: TaskId :: Waiting(s, w, Lockers(m)) ==> Waiting(s', w, Lockers(m)) || GaveUp(s', w, m))
    && (forall w: TaskId :: GaveUp(s, w, m) ==> GaveUp(s', w, m))
  }

  /** An owner whose own priority and waiters' priorities are untouched stays tight. */
  lemma TightKept(s: Sys, s': Sys, m: nat, o: TaskId)
    requires TightAt(s, m, o) && o < |s.k.tcbs| <= |s'.k.tcbs| && SameRank(s.k.tcbs[o], s'.k.tcbs[o])
    requires forall w :: 0 <= w < |s.k.tcbs| && Waiting(s, w, Lockers(m)) ==> s'.k.tcbs[w].eff == s.k.tcbs[w].eff
    requires WitnessesKept(s, s', m)
    ensures TightAt(s', m, o)
  {
    hide Waiting, GaveUp;
    if w :| Lends(s, w, m, o) {
      WaitingIn(s, w, m);
      if Waiting(s', w, Lockers(m)) {
        assert Lends(s', w, m, o);
      } else {
        assert GaveUp(s', w, m);
      }
    } else if w :| GaveUp(s, w, m) {
      assert GaveUp(s', w, m);
    }
  }

  lemma WaitingIn(s: Sys, w: TaskId, m: nat)
    requires Waiting(s, w, Lockers(m))
    ensures w < |s.k.tcbs|
  {
  }

  lemma WitnessesStep(s: Sys, e: Event, m: nat)
    requires SysInv(s) && Enabled(s, e) && OwnerOf(Step(s, e), m) == OwnerOf(s, m)
    requires e.Resume? && s.k.cur.Task? ==> PcOf(s, s.k.cur.id) != InLock(m)
    ensures WitnessesKept(s, Step(s, e), m)
  {
    hide SysInvBut, Step, Enabled, Waiting, OwnerOf;
    forall w: TaskId | Waiting(s, w, Lockers(m)) ensures Waiting(Step(s, e), w, Lockers(m)) || GaveUp(Step(s, e), w, m) {
      WaiterStep(s, e, w, m);
    }
    forall w: TaskId | GaveUp(s, w, m) ensures GaveUp(Step(s, e), w, m) {
      GaveUpStep(s, e, w, m);
    }
  }

  lemma OwnerBounds(s: Sys)
    requires SysInv(s)
    ensures forall m :: m in s.owners && s.owners[m].Some? ==> s.owners[m].value < |s.k.tcbs|
    ensures forall t :: 0 <= t < |s.k.tcbs| && s.k.tcbs[t].held == 0 ==> s.k.tcbs[t].eff == s.k.tcbs[t].base
    ensures forall m :: m in s.owners && s.owners[m].Some? ==> s.k.tcbs[s.owners[m].value].held > 0
  {
    hide KernInv, SemInv, QueueInvBut, Continuations;
    forall t | 0 <= t < |s.k.tcbs| ensures s.k.tcbs[t].held == 0 ==> s.k.tcbs[t].eff == s.k.tcbs[t].base {
      assert RankOk(s, t, s.k.tcbs[t]);
    }
    forall m | m in s.owners && s.owners[m].Some? ensures s.k.tcbs[s.owners[m].value].held > 0 {
      OwnedIs(s, s.owners[m].value, m);
      assert RankOk(s, s.owners[m].value, s.k.tcbs[s.owners[m].value]);
    }
  }

  lemma HeldBounds(s: Sys, t: TaskId)
    requires SysInv(s) && t < |s.k.tcbs|
    ensures s.k.tcbs[t].held <= 0xFF && (s.k.tcbs[t].held == 0 ==> s.k.tcbs[t].eff == s.k.tcbs[t].base)
  {
    hide KernInv, SemInv, QueueInvBut, Continuations;
    assert RankOk(s, t, s.k.tcbs[t]);
  }

  /** A task that holds one mutex owns no other. */
  lemma OwnsOne(s: Sys, o: TaskId, m: nat)
    requires SysInv(s) && o < |s.k.tcbs| && s.k.tcbs[o].held <= 1 && m in s.owners && s.owners[m] == Some(o)
    ensures s.k.tcbs[o].held == 1
    ensures forall m' :: m' in s.owners && s.owners[m'] == Some(o) ==> m' == m
  {
    hide KernInv, SemInv, QueueInvBut, Continuations;
    OwnedIs(s, o, m);
    assert RankOk(s, o, s.k.tcbs[o]);
  }

  lemma FlatKept(s: Sys, e: Event)
    requires SysInv(s) && Flat(s) && Enabled(s, e) && !e.LockCall? && |s.k.tcbs| <= |Step(s, e).k.tcbs|
    requires forall t :: 0 <= t < |s.k.tcbs| ==> Step(s, e).k.tcbs[t].held <= s.k.tcbs[t].held
    requires forall t :: |s.k.tcbs| <= t < |Step(s, e).k.tcbs| ==> Step(s, e).k.tcbs[t].held == 0
    ensures Flat(Step(s, e))
  {
    hide SysInvBut, Step, Enabled;
    var s' := Step(s, e);
    forall t | 0 <= t < |s'.k.tcbs| ensures s'.k.tcbs[t].held <= 1 && (WaitsForMutex(s'.k.tcbs[t]) ==> s'.k.tcbs[t].held == 0) {
      if WaitsForMutex(s'.k.tcbs[t]) {
        NewWaiter(s, e, t, s'.k.tcbs[t].evt.value.mutex);
      }
    }
  }

  // ---------------------------------------------------------------- The steps

  lemma UnrelatedTight(s: Sys, e: Event)
    requires SysInv(s) && Flat(s) && Tight(s) && Enabled(s, e) && Unrelated(s, e)
    ensures Flat(Step(s, e)) && Tight(Step(s, e))
  {
    hide SysInvBut, Step, Enabled, TightAt, WitnessesKept;
    RankStep(s, e);
    FlatKept(s, e);
    OwnerBounds(s);
    forall m | m in s.owners && s.owners[m].Some? ensures TightAt(Step(s, e), m, s.owners[m].value) {
      WitnessesStep(s, e, m);
      TightKept(s, Step(s, e), m, s.owners[m].value);
    }
  }

  /** Everybody waits as before. */
  lemma SameWaitWitnesses(s: Sys, s': Sys, m: nat)
    requires |s'.k.tcbs| == |s.k.tcbs| && s'.pcs == s.pcs
    requires forall t :: 0 <= t < |s.k.tcbs| ==> SameWait(s.k.tcbs[t], s'.k.tcbs[t])
    ensures WitnessesKept(s, s', m)
  {
  }

  lemma AcquireTight(s: Sys, t: TaskId, m: nat)
    requires SysInv(s) && Flat(s) && Tight(s) && Caller(s, t) && m in s.owners && s.owners[m].None? && T(s.k, t).held == 0
    ensures var s' := s.(owners := s.owners[m := Some(t)], k := AddHeld(s.k, t));
            Flat(s') && Tight(s')
  {
    hide SysInvBut, TightAt, AddHeld, WitnessesKept;
    UnplacedCaller(s, t, 0, 0, 0);
    AddHeldRecounts(s.k, t);
    OwnerBounds(s);
    var s' := s.(owners := s.owners[m := Some(t)], k := AddHeld(s.k, t));
    forall m' | m' in s'.owners && s'.owners[m'].Some? ensures TightAt(s', m', s'.owners[m'].value) {
      if m' == m {
        AtBase(s', m, t);
      } else {
        SameWaitWitnesses(s, s', m');
        TightKept(s, s', m', s.owners[m'].value);
      }
    }
  }

  lemma AtBase(s: Sys, m: nat, o: TaskId)
    requires o < |s.k.tcbs| && s.k.tcbs[o].eff == s.k.tcbs[o].base
    ensures TightAt(s, m, o)
  {
  }

  lemma LentTo(s: Sys, w: TaskId, m: nat, o: TaskId)
    requires Lends(s, w, m, o)
    ensures TightAt(s, m, o)
  {
  }

  /** The owner's priority after a lock call that blocks: as before, or that of a waiter. */
  lemma JoinFacts(s: Sys, t: TaskId, m: nat, o: TaskId, timeout: nat)
    requires SysInv(s) && Caller(s, t) && m in s.owners && s.owners[m] == Some(o) && o != t
    requires 0 < timeout < WRAP && T(s.k, t).held < 0xFF
    ensures var s' := Lock(s, m, timeout).0;
            && |s'.k.tcbs| == |s.k.tcbs| && o < |s.k.tcbs| && t < |s.k.tcbs| && s'.owners == s.owners
            && (forall u :: 0 <= u < |s.k.tcbs| && u != o ==> SameRank(s.k.tcbs[u], s'.k.tcbs[u]))
            && (forall u :: 0 <= u < |s.k.tcbs| && u != t ==> s'.k.tcbs[u].evt == s.k.tcbs[u].evt)
            && s'.k.tcbs[o].held == s.k.tcbs[o].held && s'.k.tcbs[o].base == s.k.tcbs[o].base
            && (s'.k.tcbs[o].eff == s.k.tcbs[o].eff || exists w :: w != o && Lends(s', w, m, o))
            && s'.k.tcbs[t].evt == Some(Lockers(m)) && s'.k.tcbs[o].eff >= s.k.tcbs[o].eff
            && (forall u :: 0 <= u < |s.k.tcbs| && u != o && s'.k.tcbs[u].evt == Some(Lockers(m)) ==> s'.k.tcbs[o].eff >= s'.k.tcbs[u].eff)
  {
    hide KernInv, SemInv, QueueInvBut, Continuations, MutexInv, BlockCurrent, Inherit, Required;
    UnplacedCaller(s, t, 0, 0, 0);
    MutexBounds(s, m);
    if timeout != INFINITE {
      WakeTickOk(s.k, timeout);
    }
    var wake, infinite, l := WakeTick(s.k, timeout), timeout == INFINITE, Lockers(m);
    BlockKeeps(s.k, wake, Some(l), infinite);
    BlockSleeps(s.k, wake, Some(l), infinite);
    var k1 := BlockCurrent(s.k, wake, Some(l), infinite);
    var req := Required(k1, o, l);
    RequiredCovers(k1, o, l);
    RequiredBelowLevels(k1, o, l);
    InheritRaises(k1, o, req);
    EffectiveCoversBase(s.k);
    var s' := Lock(s, m, timeout).0;
    if s'.k.tcbs[o].eff != s.k.tcbs[o].eff {
      var w :| 0 <= w < |k1.tcbs| && k1.tcbs[w].evt == Some(l) && k1.tcbs[w].eff == req;
      assert Lends(s', w, m, o);
    }
  }

  lemma JoinTight(s: Sys, t: TaskId, m: nat, o: TaskId, timeout: nat)
    requires SysInv(s) && Flat(s) && Tight(s) && Enabled(s, LockCall(m, timeout)) && Caller(s, t)
    requires s.owners[m] == Some(o) && o != t && timeout != 0 && T(s.k, t).held == 0
    ensures Flat(Lock(s, m, timeout).0) && Tight(Lock(s, m, timeout).0)
  {
    hide SysInvBut, TightAt, Lock, WitnessesKept, Waiting, Lends;
    var s' := Lock(s, m, timeout).0;
    JoinFacts(s, t, m, o, timeout);
    MutexCallIs(s, m, timeout);
    OwnerBounds(s);
    OwnsOne(s, o, m);
    NobodyWaitsAndHolds(s, o);
    forall m' | m' in s'.owners && s'.owners[m'].Some? ensures TightAt(s', m', s'.owners[m'].value) {
      if m' == m && s'.k.tcbs[o].eff != s.k.tcbs[o].eff {
        var w :| w != o && Lends(s', w, m, o);
        LentTo(s', w, m, o);
      } else {
        WitnessesStep(s, LockCall(m, timeout), m');
        TightKept(s, s', m', s.owners[m'].value);
      }
    }
  }

  lemma NobodyWaitsAndHolds(s: Sys, o: TaskId)
    requires Flat(s) && o < |s.k.tcbs| && s.k.tcbs[o].held == 1
    ensures forall m :: !Waiting(s, o, Lockers(m))
  {
  }

  lemma LockTight(s: Sys, m: nat, timeout: nat)
    requires SysInv(s) && Flat(s) && Tight(s) && Enabled(s, LockCall(m, timeout)) && T(s.k, s.k.cur.id).held == 0
    ensures Flat(Step(s, LockCall(m, timeout))) && Tight(Step(s, LockCall(m, timeout)))
  {
    hide SysInvBut, Flat, Tight, BlockCurrent, Inherit, Required, AddHeld, Request;
    var t := s.k.cur.id;
    if s.owners[m].None? {
      AcquireTight(s, t, m);
    } else if s.owners[m].value != t && timeout != 0 {
      JoinTight(s, t, m, s.owners[m].value, timeout);
    }
  }

  // ---------------------------------------------------------------- Giving up

  lemma ResumedTight(s: Sys, t: TaskId, m: nat)
    requires SysInv(s) && Flat(s) && Tight(s) && Enabled(s, Resume) && s.k.cur == Task(t) && PcOf(s, t) == InLock(m)
    ensures var s1 := Resumed(s, t);
            && SysInv(s1) && Flat(s1) && |s1.k.tcbs| == |s.k.tcbs| && s1.owners == s.owners
            && (forall u :: 0 <= u < |s.k.tcbs| ==> SameRank(s.k.tcbs[u], s1.k.tcbs[u]) && s1.k.tcbs[u].evt == s.k.tcbs[u].evt)
            && (forall m' :: m' in s1.owners && s1.owners[m'].Some? && m' != m ==> TightAt(s1, m', s1.owners[m'].value))
            && (T(s.k, t).reason == Signaled ==> Tight(s1))
  {
    hide KernInv, SemInv, QueueInvBut, MutexInv, Continuations, TightAt, WitnessesKept;
    UnplacedCaller(s, t, 0, 0, 0);
    ResumedKeeps(s, t, 0);
    OwnerBounds(s);
    var s1 := Resumed(s, t);
    forall m' | m' in s1.owners && s1.owners[m'].Some? && (m' != m || T(s.k, t).reason == Signaled)
      ensures TightAt(s1, m', s1.owners[m'].value)
    {
      ResumedWitnesses(s, t, m, m');
      TightKept(s, s1, m', s1.owners[m'].value);
    }
  }

  lemma ResumedWitnesses(s: Sys, t: TaskId, m: nat, m': nat)
    requires t < |s.pcs| && PcOf(s, t) == InLock(m) && (m' != m || T(s.k, t).reason == Signaled)
    ensures WitnessesKept(s, Resumed(s, t), m')
  {
  }

  /** Disinheriting leaves an owner that holds only `m` at its base or level with a waiter. */
  lemma DisinheritTight(s: Sys, m: nat, o: TaskId)
    requires SysInv(s) && Flat(s) && m in s.owners && s.owners[m] == Some(o) && o < |s.k.tcbs|
    requires forall m' :: m' in s.owners && s.owners[m'].Some? && m' != m ==> TightAt(s, m', s.owners[m'].value)
    ensures var s' := s.(k := Disinherit(s.k, o, Required(s.k, o, Lockers(m))));
            Flat(s') && Tight(s')
  {
    hide SysInvBut, TightAt, WitnessesKept, Disinherit, Required;
    var l := Lockers(m);
    var req := Required(s.k, o, l);
    KernOf(s);
    OwnsOne(s, o, m);
    OwnerBounds(s);
    RequiredCovers(s.k, o, l);
    DisinheritLowers(s.k, o, req);
    EffectiveCoversBase(s.k);
    NobodyWaitsAndHolds(s, o);
    var s' := s.(k := Disinherit(s.k, o, req));
    forall m' | m' in s'.owners && s'.owners[m'].Some? ensures TightAt(s', m', s'.owners[m'].value) {
      if m' != m {
        SameWaitWitnesses(s, s', m');
        TightKept(s, s', m', s.owners[m'].value);
      } else if req == s.k.tcbs[o].base {
        AtBase(s', m, o);
      } else {
        var w :| 0 <= w < |s.k.tcbs| && s.k.tcbs[w].evt == Some(l) && s.k.tcbs[w].eff == req;
        WaiterCovered(s, w, m);
        LentTo(s', w, m, o);
      }
    }
  }

  lemma WaiterCovered(s: Sys, w: TaskId, m: nat)
    requires SysInv(s) && Waiting(s, w, Lockers(m))
    ensures OwnerOf(s, m).Some? && OwnerOf(s, m).value < |s.k.tcbs| && OwnerOf(s, m) != Some(w)
    ensures s.k.tcbs[OwnerOf(s, m).value].eff >= s.k.tcbs[w].base
  {
    hide KernInv, SemInv, QueueInvBut, Continuations;
    assert WaiterOk(s, w, s.k.tcbs[w], m);
  }

  lemma ResumeLockTight(s: Sys, t: TaskId, m: nat)
    requires SysInv(s) && Flat(s) && Tight(s) && Enabled(s, Resume) && s.k.cur == Task(t) && PcOf(s, t) == InLock(m)
    ensures Flat(ResumeLock(s, t, m).0) && Tight(ResumeLock(s, t, m).0)
  {
    hide SysInvBut, Flat, TightAt, Disinherit, Required, WithReason;
    ResumedTight(s, t, m);
    var s1 := Resumed(s, t);
    if T(s.k, t).reason != Signaled && OwnerOf(s, m).Some? {
      OwnerBounds(s1);
      DisinheritTight(s1, m, OwnerOf(s, m).value);
    }
  }

  // ---------------------------------------------------------------- Unlocking

  /** What unlocking does: the caller releases, and the new owner, if any, is the highest waiter and keeps its priority. */
  ghost predicate Unlocked(s: Sys, s': Sys, t: TaskId, m: nat) {
    && t < |s.k.tcbs| == |s'.k.tcbs| && GaveBack(s.k.tcbs[t], s'.k.tcbs[t]) && m in s'.owners
    && (forall u :: 0 <= u < |s.k.tcbs| && s.k.tcbs[u].evt == Some(Lockers(m)) ==> s'.owners[m].Some?)
    && s'.owners == s.owners[m := s'.owners[m]] && s'.owners[m] != Some(t)
    && (s'.owners[m].Some? ==>
          var n := s'.owners[m].value;
          && n < |s.k.tcbs| && s.k.tcbs[n].evt == Some(Lockers(m)) && Handed(s.k.tcbs[n], s'.k.tcbs[n])
          && forall u :: 0 <= u < |s.k.tcbs| && s.k.tcbs[u].evt == Some(Lockers(m)) ==> s.k.tcbs[u].eff <= s.k.tcbs[n].eff)
    && (forall u :: 0 <= u < |s.k.tcbs| && u != t && s'.owners[m] != Some(u) ==> SameRank(s.k.tcbs[u], s'.k.tcbs[u]))
    && (forall u :: 0 <= u < |s.k.tcbs| && s'.owners[m] != Some(u) ==> s'.k.tcbs[u].evt == s.k.tcbs[u].evt)
  }

  lemma UnlockFacts(s: Sys, t: TaskId, m: nat)
    requires SysInv(s) && Caller(s, t) && m in s.owners && s.owners[m] == Some(t)
    ensures Unlocked(s, Unlock(s, m).0, t, m)
  {
    hide SysInvBut, Relinquish, DropHeld, HandOver, Unlock, Waiting, Items;
    KernOf(s);
    MutexBounds(s, m);
    ReleaseTask(s, t, m);
    var k1 := Relinquish(DropHeld(s.k, t), t);
    FirstWaiter(k1, Lockers(m));
    UnlockSplits(s, t, m);
    UnplacedCaller(s, t, 0, 0, 0);
    if L(k1, Lockers(m)) != [] {
      var n := L(k1, Lockers(m))[0];
      WaitsIs(s, n, m);
      WaiterBelowCap(s, n, m);
      HandFacts(k1, n, m);
      FirstIsHighest(k1, Lockers(m));
    }
  }

  lemma WaitsIs(s: Sys, n: TaskId, m: nat)
    requires n < |s.k.tcbs| && s.k.tcbs[n].evt == Some(Lockers(m))
    ensures Waiting(s, n, Lockers(m))
  {
  }

  lemma HandFacts(k: Kern, n: TaskId, m: nat)
    requires KernInv(k) && L(k, Lockers(m)) != [] && n == L(k, Lockers(m))[0] && T(k, n).held < 0xFF
    ensures var k3 := HandOver(k, n, Lockers(m));
            && n < |k.tcbs| == |k3.tcbs| && Handed(k.tcbs[n], k3.tcbs[n])
            && forall u :: 0 <= u < |k.tcbs| && u != n ==> SameRank(k.tcbs[u], k3.tcbs[u]) && k3.tcbs[u].evt == k.tcbs[u].evt
  {
    hide KernInv, Unblock, AddHeld, HandOver, Items;
    FirstWaiter(k, Lockers(m));
    HandoffNeverRaises(k, m);
    UnblockWakes(k, n, Signaled);
    AddHeldRecounts(Unblock(k, n, Signaled), n);
  }

  /** The new owner receives the mutex without a change of priority. */
  ghost predicate Handed(c: Tcb, c': Tcb) {
    Received(c, c') && c'.eff == c.eff
  }

  lemma UnlockSplits(s: Sys, t: TaskId, m: nat)
    requires s.k.cur == Task(t) && m in s.owners && s.owners[m] == Some(t)
    ensures var k1, s' := Relinquish(DropHeld(s.k, t), t), Unlock(s, m).0;
            if L(k1, Lockers(m)) == [] then s'.owners == s.owners[m := None] && s'.k.tcbs == k1.tcbs
            else var n := L(k1, Lockers(m))[0];
                 s'.owners == s.owners[m := Some(n)] && s'.k.tcbs == HandOver(k1, n, Lockers(m)).tcbs
  {
    hide Relinquish, DropHeld, Unblock, AddHeld, Inherit, Required, Items;
  }

  lemma UnlockTight(s: Sys, m: nat)
    requires SysInv(s) && Flat(s) && Tight(s) && Enabled(s, UnlockCall(m))
    ensures Flat(Step(s, UnlockCall(m))) && Tight(Step(s, UnlockCall(m)))
  {
    hide SysInvBut, TightAt, Unlock, WitnessesKept, Handed;
    var t, s' := s.k.cur.id, Step(s, UnlockCall(m));
    UnlockOthers(s, t, m);
    if OwnerOf(s, m) == Some(t) {
      UnlockFacts(s, t, m);
      OwnerBounds(s);
      OwnsOne(s, t, m);
      UnplacedCaller(s, t, 0, 0, 0);
      if s'.owners[m].Some? {
        NewOwner(s, s', s'.owners[m].value, m);
      }
      forall m' | m' in s'.owners && s'.owners[m'].Some? && m' != m ensures TightAt(s', m', s'.owners[m'].value) {
        WitnessesStep(s, UnlockCall(m), m');
        TightKept(s, s', m', s.owners[m'].value);
      }
    }
  }

  lemma NewOwner(s: Sys, s': Sys, n: TaskId, m: nat)
    requires SysInv(s) && Flat(s) && Waiting(s, n, Lockers(m)) && n < |s'.k.tcbs| == |s.k.tcbs| && Handed(s.k.tcbs[n], s'.k.tcbs[n])
    ensures TightAt(s', m, n) && s'.k.tcbs[n].held == 1 && s'.k.tcbs[n].evt.None?
    ensures s.k.tcbs[n].held == 0
  {
    hide SysInvBut;
    OwnerBounds(s);
  }

  // ---------------------------------------------------------------- Runs

  /** Mutexes are not nested: only a task that holds none locks one. */
  ghost predicate NotNested(s: Sys, e: Event) {
    e.LockCall? && s.k.cur.Task? ==> T(s.k, s.k.cur.id).held == 0
  }

  lemma TightStep(s: Sys, e: Event)
    requires SysInv(s) && Flat(s) && Tight(s) && Enabled(s, e) && NotNested(s, e)
    ensures Flat(Step(s, e)) && Tight(Step(s, e))
  {
    hide SysInvBut, Step, Flat, Tight, ResumeStep;
    if e.LockCall? {
      LockTight(s, e.mutex, e.timeout);
    } else if e.UnlockCall? {
      UnlockTight(s, e.mutex);
    } else if Unrelated(s, e) {
      UnrelatedTight(s, e);
    } else {
      var t := s.k.cur.id;
      ResumeIs(s);
      ResumeLockTight(s, t, s.pcs[t].mutex);
      ResumeIsLock(s, t);
    }
  }

  lemma ResumeIsLock(s: Sys, t: TaskId)
    requires PcOf(s, t).InLock?
    ensures ResumeStep(s, t) == ResumeLock(s, t, PcOf(s, t).mutex)
  {
    hide ResumeLock;
  }

  lemma {:induction false} TightAlways(ss: seq<Sys>, es: seq<Event>, i: nat)
    requires Run(ss, es) && i < |ss|
    requires forall x :: 0 <= x < i ==> NotNested(ss[x], es[x])
    ensures Flat(ss[i]) && Tight(ss[i])
  {
    hide Step, Enabled, SysInvBut, NotNested, TightAt;
    if i == 0 {
    } else {
      TightAlways(ss, es, i - 1);
      Always(ss, es, i - 1);
      TightStep(ss[i - 1], es[i - 1]);
    }
  }

  /**
   Without nesting, and with nobody who gave up on `m` still to resume, the owner's priority is
   the maximum of its own base and the bases of the tasks waiting for `m`.
   */
  lemma ExactWithoutNesting(ss: seq<Sys>, es: seq<Event>, i: nat, m: nat, o: TaskId)
    requires Run(ss, es) && i < |ss| && OwnerOf(ss[i], m) == Some(o)
    requires forall x :: 0 <= x < i ==> NotNested(ss[x], es[x])
    requires forall w :: !GaveUp(ss[i], w, m)
    ensures o < |ss[i].k.tcbs|
    ensures var c := ss[i].k.tcbs;
            && c[o].eff >= c[o].base
            && (forall w :: 0 <= w < |c| && Waiting(ss[i], w, Lockers(m)) ==> c[o].eff >= c[w].base)
            && (c[o].eff == c[o].base || exists w :: 0 <= w < |c| && Waiting(ss[i], w, Lockers(m)) && c[o].eff == c[w].base)
  {
    hide Step, Enabled, SysInvBut, NotNested, Initial, Waiting, GaveUp;
    var s := ss[i];
    TightAlways(ss, es, i);
    Always(ss, es, i);
    KernOf(s);
    OwnerBounds(s);
    EffectiveCoversBase(s.k);
    forall w | 0 <= w < |s.k.tcbs| && Waiting(s, w, Lockers(m)) ensures s.k.tcbs[o].eff >= s.k.tcbs[w].base {
      WaiterCovered(s, w, m);
    }
    assert TightAt(s, m, o);
    if w :| Lends(s, w, m, o) {
      LenderAtBase(s, w, m);
    }
  }

  lemma LenderAtBase(s: Sys, w: TaskId, m: nat)
    requires SysInv(s) && Flat(s) && Waiting(s, w, Lockers(m))
    ensures w < |s.k.tcbs| && s.k.tcbs[w].eff == s.k.tcbs[w].base
  {
    hide SysInvBut;
    OwnerBounds(s);
  }
}
