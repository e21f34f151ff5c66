/**
 Every step keeps every invariant, so every state of every run has them.
 */
module SystemProof {
  import opened Kernel
  import opened KernelInvariants
  import opened SchedulerSteps
  import opened TaskViews
  import opened System
  import opened SystemInvariants
  import opened MutexInvariants

  ghost predicate SysInvBut(s: Sys, p: nat, readSlack: nat, writeSlack: nat) {
    && KernInv(s.k) && Settled(s.k) && Continuations(s) && SemInv(s) && MutexInv(s)
    && QueueInvBut(s, p, readSlack, writeSlack)
  }

  ghost predicate SysInv(s: Sys) {
    SysInvBut(s, 0, 0, 0)
  }

  /** The running task, seen from one of its own calls. */
  ghost predicate Caller(s: Sys, t: TaskId) {
    s.k.cur == Task(t) && !s.k.pending && t < |s.pcs| && s.pcs[t].Free?
  }

  lemma CallerUnplaced(s: Sys, t: TaskId)
    requires Continuations(s) && Settled(s.k) && Placed(s.k) && s.k.cur == Task(t) && !s.k.pending && t < |s.pcs|
    ensures t < |s.k.tcbs| && T(s.k, t).place.None? && T(s.k, t).evt.None?
  {
    EventOfUnplaced(s.k, t);
  }

  // ---------------------------------------------------------------- Quiet steps

  lemma QuietKeeps(s: Sys, k': Kern)
    requires SysInv(s) && KernInv(k') && Settled(k') && Steady(s.k, k')
    ensures SysInv(s.(k := k'))
  {
    hide KernInv, Settled, SemInv, QueueInvBut, MutexInv;
    SameWaitsKeep(s, s.(k := k'), 0, 0, 0);
    MutexFrame(s, s.(k := k'));
  }

  lemma RequestKeeps(k: Kern, wanted: bool)
    requires KernInv(k)
    ensures KernInv(Request(k, wanted)) && Steady(k, Request(k, wanted))
    ensures Settled(k) ==> Settled(Request(k, wanted))
  {
    hide Linked, TimersWithin, Queued, Placed;
    CountsKeep(k, Request(k, wanted));
  }

  lemma RequestStepKeeps(s: Sys, wanted: bool)
    requires SysInv(s)
    ensures SysInv(s.(k := Request(s.k, wanted)))
  {
    hide KernInv, Settled, SemInv, QueueInvBut, MutexInv, Continuations, Woke;
    RequestKeeps(s.k, wanted);
    QuietKeeps(s, Request(s.k, wanted));
  }

  lemma SwitchStepKeeps(s: Sys)
    requires SysInv(s) && s.k.cur != NoTask
    ensures SysInv(s.(k := SelectNext(s.k)))
  {
    hide Linked, Placed, TimersWithin, Queued, SemInv, QueueInvBut, MutexInv, Continuations, Woke, SelectNext, Requeue, LeaveReady, Chosen;
    SwitchKeeps(s.k);
    SwitchSteady(s.k);
    QuietKeeps(s, SelectNext(s.k));
  }

  lemma StartStepKeeps(s: Sys)
    requires SysInv(s) && s.k.cur == NoTask
    ensures SysInv(s.(k := StartFirst(s.k)))
  {
    hide Linked, Placed, TimersWithin, Queued, SemInv, QueueInvBut, MutexInv, Continuations, Woke, StartFirst, LeaveReady, Chosen;
    StartKeeps(s.k);
    StartSteady(s.k);
    QuietKeeps(s, StartFirst(s.k));
  }

  lemma TickStepKeeps(s: Sys)
    requires SysInv(s)
    ensures SysInv(s.(k := Kernel.Tick(s.k)))
  {
    hide Linked, Placed, TimersWithin, Queued, SemInv, QueueInvBut, Kernel.Tick, Due, Advance, AllUnblocked;
    TickKeeps(s.k);
    TickWakes(s.k);
    TickSettled(s.k);
    var ts := set t | t in Due(Advance(s.k));
    TimeoutsKeep(s, Kernel.Tick(s.k), ts);
    MutexFrame(s, s.(k := Kernel.Tick(s.k)));
  }

  lemma TickSettled(k: Kern)
    requires KernInv(k) && Settled(k)
    ensures Settled(Kernel.Tick(k))
  {
    hide Linked, Placed, TimersWithin, Queued, Kernel.Tick, Due, Advance, Items;
    TickKeeps(k);
    TickWakes(k);
    AdvanceKeeps(k);
    TickFacts(k);
  }

  // ---------------------------------------------------------------- Creation

  lemma CreateStepKeeps(s: Sys, prio: nat)
    requires SysInv(s) && prio < s.k.levels && |s.k.tcbs| < s.k.capacity
    ensures SysInv(CreateStep(s, prio))
  {
    hide Linked, Placed, TimersWithin, Queued, CreateTask, SemInv, QueueInvBut, MutexInv, Continuations, Settled;
    CreateKeeps(s.k, prio);
    CreateSettled(s.k, prio);
    var s' := CreateStep(s, prio);
    CreateWaits(s, prio);
    SemFrame(s, s');
    QueueFrame(s, s', 0, 0, 0);
    CreateMutex(s, prio);
  }

  /** The new task is ready; the others are as before. */
  ghost predicate Grew(k: Kern, k': Kern, prio: nat) {
    && |k'.tcbs| == |k.tcbs| + 1
    && (forall t :: 0 <= t < |k.tcbs| ==> k'.tcbs[t] == k.tcbs[t])
    && k'.tcbs[|k.tcbs|] == BLANK_TCB.(base := prio, eff := prio, place := Some(Ready(prio)))
    && k'.cur == k.cur && (k.pending ==> k'.pending)
  }

  lemma CreateGrows(k: Kern, prio: nat)
    requires prio < k.levels
    ensures Grew(k, CreateTask(k, prio), prio)
  {
    hide InsertReady, Items;
  }

  lemma CreateSettled(k: Kern, prio: nat)
    requires Placed(k) && Settled(k) && prio < k.levels
    ensures Settled(CreateTask(k, prio))
  {
    hide CreateTask, Items;
    CreateGrows(k, prio);
  }

  lemma CreateWaits(s: Sys, prio: nat)
    requires Continuations(s) && prio < s.k.levels
    ensures var s' := CreateStep(s, prio);
            && Continuations(s')
            && (forall l :: GrantedSet(s', l) == GrantedSet(s, l))
            && (forall t, l :: Waiting(s', t, l) <==> Waiting(s, t, l))
  {
    hide CreateTask;
    CreateGrows(s.k, prio);
    var s' := CreateStep(s, prio);
    forall l ensures GrantedSet(s', l) == GrantedSet(s, l) {
      assert !Granted(s', |s.pcs|, l);
      forall t | 0 <= t < |s.pcs| ensures Granted(s', t, l) <==> Granted(s, t, l) {
        assert s'.pcs[t] == s.pcs[t];
      }
    }
    forall t | 0 <= t < |s'.pcs| ensures PcTask(s'.pcs[t], s'.k.tcbs[t]) && PcObjects(s', s'.pcs[t]) {
      assert t < |s.pcs| ==> s'.pcs[t] == s.pcs[t];
    }
  }

  lemma CreateMutex(s: Sys, prio: nat)
    requires MutexInv(s) && prio < s.k.levels
    ensures MutexInv(CreateStep(s, prio))
  {
    hide CreateTask;
    CreateGrows(s.k, prio);
    var s' := CreateStep(s, prio);
    forall t ensures Owned(s', t) == Owned(s, t) {
    }
    var n := |s.k.tcbs|;
    assert Owned(s, n) == {};
    forall t | 0 <= t < |s'.k.tcbs| ensures RankOk(s', t, s'.k.tcbs[t]) {
      assert t < n ==> RankOk(s, t, s.k.tcbs[t]);
    }
    forall t: TaskId, m: nat | Waiting(s', t, Lockers(m)) ensures WaiterOk(s', t, s'.k.tcbs[t], m) {
      assert Waiting(s, t, Lockers(m));
    }
    forall t | 0 <= t < |s'.k.tcbs| ensures OutcomeOk(s', t, s'.k.tcbs[t], s'.pcs[t]) {
      assert t < n ==> s'.pcs[t] == s.pcs[t] && OutcomeOk(s, t, s.k.tcbs[t], s.pcs[t]);
    }
  }

  // ---------------------------------------------------------------- Going to sleep

  /** A finite timeout never yields a wake tick equal to the present one. */
  lemma WakeTickOk(k: Kern, timeout: nat)
    requires k.ticks < WRAP && 0 < timeout < INFINITE
    ensures WakeTick(k, timeout) < WRAP && WakeTick(k, timeout) != k.ticks
    ensures Distance(k, WakeTick(k, timeout)) == timeout
  {
    if timeout + k.ticks >= WRAP {
      assert timeout + k.ticks == WRAP + (timeout + k.ticks - WRAP);
    }
  }

  lemma BlockStep(k: Kern, wake: nat, waitOn: Option<ListId>, infinite: bool)
    requires KernInv(k) && k.cur.Task? && T(k, k.cur.id).place.None?
    requires !infinite ==> wake < WRAP && wake != k.ticks
    requires waitOn.Some? ==> !IsStateList(waitOn.value)
    ensures var k' := Request(BlockCurrent(k, wake, waitOn, infinite), true);
            KernInv(k') && Settled(k') && Slept(k, k', k.cur.id, waitOn) && k'.cur == k.cur && k'.levels == k.levels
  {
    hide Linked, Placed, TimersWithin, Queued, BlockCurrent;
    BlockKeeps(k, wake, waitOn, infinite);
    BlockSleeps(k, wake, waitOn, infinite);
    RequestKeeps(BlockCurrent(k, wake, waitOn, infinite), true);
  }

  lemma SleepStepKeeps(s: Sys, t: TaskId, pc: Pc, wake: nat, infinite: bool, p: nat, readSlack: nat, writeSlack: nat)
    requires SysInvBut(s, p, readSlack, writeSlack) && Caller(s, t) && MayWait(s, pc) && !pc.InLock?
    requires !infinite ==> wake < WRAP && wake != s.k.ticks
    ensures SysInvBut(WithPc(s, t, pc).(k := Request(BlockCurrent(s.k, wake, WaitsOn(pc), infinite), true)), p, readSlack, writeSlack)
  {
    hide KernInv, Settled, SemInv, QueueInvBut, MutexInv, Continuations, BlockCurrent;
    UnplacedCaller(s, t, p, readSlack, writeSlack);
    BlockStep(s.k, wake, WaitsOn(pc), infinite);
    var k' := Request(BlockCurrent(s.k, wake, WaitsOn(pc), infinite), true);
    SleepKeeps(s, t, pc, k', p, readSlack, writeSlack);
    MutexFrame(s, WithPc(s, t, pc).(k := k'));
  }

  lemma UnplacedCaller(s: Sys, t: TaskId, p: nat, readSlack: nat, writeSlack: nat)
    requires SysInvBut(s, p, readSlack, writeSlack) && s.k.cur == Task(t) && !s.k.pending && t < |s.pcs|
    ensures t < |s.k.tcbs| == |s.pcs| && T(s.k, t).place.None? && T(s.k, t).evt.None? && !Blocked(s.k.tcbs[t])
    ensures s.k.ticks < WRAP
  {
    hide Linked, Queued, SemInv, QueueInvBut, MutexInv;
    CallerUnplaced(s, t);
  }

  lemma WaitKeeps(s: Sys, ticks: nat)
    requires SysInv(s) && s.k.cur.Task? && Caller(s, s.k.cur.id) && ticks < WRAP
    ensures SysInv(Wait(s, ticks))
  {
    hide KernInv, Settled, SemInv, QueueInvBut, MutexInv, Continuations, BlockCurrent, Request;
    if ticks == 0 {
      RequestStepKeeps(s, true);
    } else {
      UnplacedCaller(s, s.k.cur.id, 0, 0, 0);
      if ticks != INFINITE {
        WakeTickOk(s.k, ticks);
      }
      SleepStepKeeps(s, s.k.cur.id, InWait, WakeTick(s.k, ticks), ticks == INFINITE, 0, 0, 0);
    }
  }

  lemma WaitUntilKeeps(s: Sys, wake: nat)
    requires SysInv(s) && s.k.cur.Task? && Caller(s, s.k.cur.id) && wake < WRAP
    ensures SysInv(WaitUntil(s, wake))
  {
    hide KernInv, Settled, SemInv, QueueInvBut, MutexInv, Continuations, BlockCurrent, Request;
    if Distance(s.k, wake) == 0 || Distance(s.k, wake) >= HALF {
      RequestStepKeeps(s, true);
    } else {
      UnplacedCaller(s, s.k.cur.id, 0, 0, 0);
      SleepStepKeeps(s, s.k.cur.id, InWait, wake, false, 0, 0, 0);
    }
  }

  // ---------------------------------------------------------------- Resuming

  lemma ResumedKern(k: Kern, t: TaskId)
    requires KernInv(k) && Settled(k) && t < |k.tcbs|
    ensures var k' := WithReason(k, t, NoReason);
            KernInv(k') && Settled(k') && k'.cur == k.cur && k'.pending == k.pending && |k'.tcbs| == |k.tcbs|
  {
    hide Linked, TimersWithin, Queued;
    CountsKeep(k, WithReason(k, t, NoReason));
  }

  /** A reader that was signalled has left the count of granted readers before it takes its item. */
  ghost function ReadSlack(s: Sys, t: TaskId): nat {
    if PcOf(s, t).InDequeue? && T(s.k, t).reason == Signaled then 1 else 0
  }

  ghost function WriteSlack(s: Sys, t: TaskId): nat {
    if PcOf(s, t).InEnqueue? && T(s.k, t).reason == Signaled then 1 else 0
  }

  /** A call that ends, or goes round its loop again, first leaves its wait. */
  lemma ResumedKeeps(s: Sys, t: TaskId, q: nat)
    requires SysInv(s) && s.k.cur == Task(t) && !s.k.pending && t < |s.pcs|
    requires s.pcs[t].InDequeue? || s.pcs[t].InEnqueue? ==> s.pcs[t].queue == q
    ensures var s' := Resumed(s, t);
            && KernInv(s'.k) && Settled(s'.k) && Continuations(s') && MutexInv(s') && Caller(s', t)
            && (!s.pcs[t].InTake? || T(s.k, t).reason != Signaled ==> SemInv(s'))
            && QueueInvBut(s', q, ReadSlack(s, t), WriteSlack(s, t))
  {
    hide KernInv, Settled, MutexInv, Continuations, SemInv, QueueInvBut;
    UnplacedCaller(s, t, 0, 0, 0);
    var s' := Resumed(s, t);
    ResumedKern(s.k, t);
    ResumedWaits(s, t);
    MutexFrame(s, s');
    if !s.pcs[t].InTake? || s.k.tcbs[t].reason != Signaled {
      ResumedSem(s, s', t);
    }
    ResumedQueue(s, s', t, q);
  }

  lemma ResumedSem(s: Sys, s': Sys, t: TaskId)
    requires SemInv(s) && s'.sems == s.sems && s'.semLogs == s.semLogs
    requires t < |s.pcs| && t < |s.k.tcbs|
    requires !s.pcs[t].InTake? || s.k.tcbs[t].reason != Signaled
    requires forall l :: !Granted(s, t, l) ==> GrantedSet(s', l) == GrantedSet(s, l)
    requires forall u, m :: Waiting(s', u, m) <==> Waiting(s, u, m)
    ensures SemInv(s')
  {
    hide GrantedSet;
    forall x | x in s'.sems ensures SemOk(s', x, s'.sems[x].count, s'.sems[x].max, s'.semLogs[x]) {
      assert SemOk(s, x, s.sems[x].count, s.sems[x].max, s.semLogs[x]);
      assert !Granted(s, t, Takers(x));
    }
  }

  lemma ResumedQueue(s: Sys, s': Sys, t: TaskId, p: nat)
    requires QueueInv(s) && s'.queues == s.queues && s'.queueLogs == s.queueLogs
    requires t < |s.pcs| && t < |s.k.tcbs|
    requires s.pcs[t].InDequeue? || s.pcs[t].InEnqueue? ==> s.pcs[t].queue == p
    requires forall l :: |GrantedSet(s', l)| + (if Granted(s, t, l) then 1 else 0) == |GrantedSet(s, l)|
    requires forall u, m :: Waiting(s', u, m) <==> Waiting(s, u, m)
    ensures QueueInvBut(s', p, ReadSlack(s, t), WriteSlack(s, t))
  {
    hide GrantedSet, StorageOk;
    forall q | q in s'.queues
      ensures s'.queues[q].count <= s'.queues[q].capacity
      ensures QueueWakes(s', q, if q == p then ReadSlack(s, t) else 0, if q == p then WriteSlack(s, t) else 0)
    {
      assert QueueWakes(s, q, 0, 0);
      assert Granted(s, t, Readers(q)) ==> q == p && ReadSlack(s, t) == 1;
      assert Granted(s, t, Writers(q)) ==> q == p && WriteSlack(s, t) == 1;
    }
  }

  // ---------------------------------------------------------------- Signals

  /** Waking the first waiter of a semaphore or queue is no mutex's business. */
  lemma WakeFirstStep(s: Sys, l: ListId, p: nat, readSlack: nat, writeSlack: nat)
    requires SysInvBut(s, p, readSlack, writeSlack) && !IsStateList(l) && !l.Lockers?
    ensures var k' := WakeFirst(s.k, l);
            var s' := s.(k := k');
            && KernInv(k') && Settled(k') && k'.cur == s.k.cur && k'.pending == s.k.pending
            && MutexInv(s') && Continuations(s')
            && (if exists t :: Waiting(s, t, l) then |GrantedSet(s', l)| == |GrantedSet(s, l)| + 1
                else GrantedSet(s', l) == GrantedSet(s, l))
            && (forall m :: m != l ==> GrantedSet(s', m) == GrantedSet(s, m))
            && (forall t, m :: Waiting(s', t, m) ==> Waiting(s, t, m))
  {
    hide KernInv, SemInv, QueueInvBut, MutexInv, Unblock, GrantedSet;
    FirstWaiter(s.k, l);
    if L(s.k, l) != [] {
      var h := L(s.k, l)[0];
      UnblockKeeps(s.k, h, Signaled);
      UnblockWakes(s.k, h, Signaled);
      var k' := Unblock(s.k, h, Signaled);
      assert Waiting(s, h, l);
      SignalGrants(s, k', h, l);
      MutexFrame(s, s.(k := k'));
    }
  }

  // ---------------------------------------------------------------- Semaphores

  /** Who waits and who is granted depends only on tasks and continuations. */
  lemma GrantedByTasks(s: Sys, s': Sys)
    requires s'.pcs == s.pcs && s'.k == s.k
    ensures forall l :: GrantedSet(s', l) == GrantedSet(s, l)
    ensures forall t, l :: Waiting(s', t, l) <==> Waiting(s, t, l)
  {
    forall l ensures GrantedSet(s', l) == GrantedSet(s, l) {
      GrantedSame(s, s', l);
    }
  }

  lemma SemUpdate(s: Sys, s': Sys, x: nat, sem: Sem, log: SemLog)
    requires SemInv(s) && x in s.sems && s'.sems == s.sems[x := sem] && s'.semLogs == s.semLogs[x := log]
    requires SemOk(s', x, sem.count, sem.max, log)
    requires forall y :: y != x ==> GrantedSet(s', Takers(y)) == GrantedSet(s, Takers(y))
    requires forall t, l :: Waiting(s', t, l) ==> Waiting(s, t, l)
    ensures SemInv(s')
  {
    hide GrantedSet;
    forall y | y in s'.sems ensures SemOk(s', y, s'.sems[y].count, s'.sems[y].max, s'.semLogs[y]) {
      if y != x {
        assert SemOk(s, y, s.sems[y].count, s.sems[y].max, s.semLogs[y]);
      }
    }
  }

  lemma SemAt(s: Sys, x: nat)
    requires SemInv(s) && x in s.sems
    ensures x in s.semLogs && SemOk(s, x, s.sems[x].count, s.sems[x].max, s.semLogs[x])
  {
    hide SemOk;
  }

  /** Semaphore counts and logs are nobody else's business. */
  lemma SemOnlyKeeps(s: Sys, s': Sys)
    requires SysInv(s) && SemInv(s')
    requires s' == s.(sems := s'.sems, semLogs := s'.semLogs) && s'.sems.Keys == s.sems.Keys
    ensures SysInv(s')
  {
    hide KernInv, Settled, SemInv, GrantedSet, QueueInvBut, MutexInv;
    GrantedByTasks(s, s');
    QueueFrame(s, s', 0, 0, 0);
    MutexFrame(s, s');
  }

  lemma TakeTokenKeeps(s: Sys, x: nat)
    requires SysInv(s) && x in s.sems && s.sems[x].count > 0
    ensures SysInv(LogTake(WithCount(s, x, s.sems[x].count - 1), x, true))
  {
    hide KernInv, Settled, QueueInvBut, MutexInv, Continuations, GrantedSet, Waiting, SemInv;
    SemAt(s, x);
    var sem, log := s.sems[x].(count := s.sems[x].count - 1), s.semLogs[x].(takes := s.semLogs[x].takes + 1);
    var s' := s.(sems := s.sems[x := sem], semLogs := s.semLogs[x := log]);
    GrantedByTasks(s, s');
    SemUpdate(s, s', x, sem, log);
    SemOnlyKeeps(s, s');
  }

  lemma StoreTokenKeeps(s: Sys, x: nat)
    requires SysInv(s) && x in s.sems && s.sems[x].count < s.sems[x].max && forall t :: !Waiting(s, t, Takers(x))
    ensures SysInv(LogSignal(WithCount(s, x, s.sems[x].count + 1), x))
  {
    hide KernInv, Settled, QueueInvBut, MutexInv, Continuations, GrantedSet, Waiting, SemInv;
    SemAt(s, x);
    var sem, log := s.sems[x].(count := s.sems[x].count + 1), s.semLogs[x].(signals := s.semLogs[x].signals + 1);
    var s' := s.(sems := s.sems[x := sem], semLogs := s.semLogs[x := log]);
    GrantedByTasks(s, s');
    SemUpdate(s, s', x, sem, log);
    SemOnlyKeeps(s, s');
  }

  lemma HandTokenKeeps(s: Sys, x: nat)
    requires SysInv(s) && x in s.sems && s.sems[x].count == 0 && L(s.k, Takers(x)) != []
    ensures SysInv(LogSignal(s, x).(k := WakeFirst(s.k, Takers(x))))
  {
    hide KernInv, Settled, QueueInvBut, MutexInv, Continuations, WakeFirst, GrantedSet, SemInv;
    WakeFirstStep(s, Takers(x), 0, 0, 0);
    FirstWaiter(s.k, Takers(x));
    assert Waiting(s, L(s.k, Takers(x))[0], Takers(x));
    SemAt(s, x);
    var log := s.semLogs[x].(signals := s.semLogs[x].signals + 1);
    var s1 := s.(k := WakeFirst(s.k, Takers(x)));
    var s' := s1.(semLogs := s.semLogs[x := log]);
    GrantedByTasks(s1, s');
    assert s'.sems == s.sems[x := s.sems[x]];
    SemUpdate(s, s', x, s.sems[x], log);
    HandTokenRest(s, s1, s');
  }

  lemma HandTokenRest(s: Sys, s1: Sys, s': Sys)
    requires SysInv(s) && SemInv(s') && KernInv(s1.k) && Settled(s1.k) && MutexInv(s1) && Continuations(s1)
    requires s1 == s.(k := s1.k) && s' == s1.(semLogs := s'.semLogs)
    requires forall q :: GrantedSet(s', Readers(q)) == GrantedSet(s, Readers(q)) && GrantedSet(s', Writers(q)) == GrantedSet(s, Writers(q))
    requires forall t, m :: Waiting(s1, t, m) ==> Waiting(s, t, m)
    ensures SysInv(s')
  {
    hide KernInv, Settled, GrantedSet, SemInv, StorageOk;
    MutexFrame(s1, s');
    forall q | q in s'.queues ensures QueueWakes(s', q, 0, 0) {
      assert QueueWakes(s, q, 0, 0);
      assert forall t, m :: Waiting(s', t, m) ==> Waiting(s, t, m);
    }
  }

  lemma GiveTokenKeeps(s: Sys, x: nat)
    requires SysInv(s) && x in s.sems
    ensures SysInv(GiveToken(s, x).0)
  {
    hide KernInv, Settled, QueueInvBut, MutexInv, Continuations, WakeFirst;
    FirstWaiter(s.k, Takers(x));
    assert SemOk(s, x, s.sems[x].count, s.sems[x].max, s.semLogs[x]);
    if s.sems[x].count == 0 && L(s.k, Takers(x)) != [] {
      HandTokenKeeps(s, x);
    } else if s.sems[x].count < s.sems[x].max {
      StoreTokenKeeps(s, x);
    }
  }

  lemma SignalKeeps(s: Sys, x: nat)
    requires SysInv(s) && x in s.sems
    ensures SysInv(Signal(s, x).0)
  {
    hide SysInvBut, GiveToken, Request;
    GiveTokenKeeps(s, x);
    RequestStepKeeps(GiveToken(s, x).0, GiveToken(s, x).2);
  }

  lemma TakeKeeps(s: Sys, x: nat, timeout: nat)
    requires SysInv(s) && x in s.sems && timeout < WRAP && s.k.cur.Task? && Caller(s, s.k.cur.id)
    ensures SysInv(Take(s, x, timeout).0)
  {
    hide KernInv, Settled, SemInv, QueueInvBut, MutexInv, Continuations, BlockCurrent, Request;
    if s.sems[x].count > 0 {
      TakeTokenKeeps(s, x);
    } else if timeout != 0 {
      UnplacedCaller(s, s.k.cur.id, 0, 0, 0);
      if timeout != INFINITE {
        WakeTickOk(s.k, timeout);
      }
      SleepStepKeeps(s, s.k.cur.id, InTake(x), WakeTick(s.k, timeout), timeout == INFINITE, 0, 0, 0);
    }
  }

  lemma ResumeTakeKeeps(s: Sys, t: TaskId, x: nat)
    requires SysInv(s) && s.k.cur == Task(t) && !s.k.pending && t < |s.pcs| && s.pcs[t] == InTake(x)
    ensures SysInv(ResumeTake(s, t, x).0)
  {
    hide KernInv, Settled, QueueInvBut, MutexInv, SemInv, GrantedSet, WithReason;
    ResumedKeeps(s, t, 0);
    UnplacedCaller(s, t, 0, 0, 0);
    var s1 := Resumed(s, t);
    if s.k.tcbs[t].reason == Signaled {
      ResumedWaits(s, t);
      assert Granted(s, t, Takers(x));
      SemAt(s, x);
      var log := s.semLogs[x].(takes := s.semLogs[x].takes + 1);
      var s' := s1.(semLogs := s1.semLogs[x := log]);
      GrantedByTasks(s1, s');
      assert s'.sems == s.sems[x := s.sems[x]];
      SemUpdate(s, s', x, s.sems[x], log);
      QueueFrame(s1, s', 0, 0, 0);
      MutexFrame(s1, s');
    }
  }

  // ---------------------------------------------------------------- Queues

  lemma QueueAt(s: Sys, p: nat, readSlack: nat, writeSlack: nat, q: nat)
    requires QueueInvBut(s, p, readSlack, writeSlack) && q in s.queues
    ensures q in s.queueLogs && StorageOk(s.queues[q], s.queueLogs[q]) && s.queues[q].count <= s.queues[q].capacity
    ensures QueueWakes(s, q, if q == p then readSlack else 0, if q == p then writeSlack else 0)
  {
    hide StorageOk, ReadersOk, WritersOk;
  }

  /** One queue changes; who waits and who is granted changes only for its own lists. */
  lemma QueueUpdate(s: Sys, s': Sys, q: nat, r: Ring.Ring, log: QueueLog, readSlack: nat, writeSlack: nat)
    requires QueueInvBut(s, q, readSlack, writeSlack) && q in s.queues
    requires s'.queues == s.queues[q := r] && s'.queueLogs == s.queueLogs[q := log]
    requires StorageOk(r, log) && r.count <= r.capacity
    requires ReadersOk(s', q, r.count, 0) && WritersOk(s', q, r.capacity - r.count, 0)
    requires forall p :: p != q ==> GrantedSet(s', Readers(p)) == GrantedSet(s, Readers(p))
                                    && GrantedSet(s', Writers(p)) == GrantedSet(s, Writers(p))
    requires forall t, m :: Waiting(s', t, m) ==> Waiting(s, t, m)
    ensures QueueInv(s')
  {
    hide GrantedSet, StorageOk;
    forall p | p in s'.queues
      ensures s'.queues[p].count <= s'.queues[p].capacity && QueueWakes(s', p, 0, 0)
    {
      if p != q {
        QueueAt(s, q, readSlack, writeSlack, p);
      }
    }
  }

  lemma FullHasNoSlack(s: Sys, q: nat)
    requires QueueInvBut(s, q, 0, 1) && q in s.queues && s.queues[q].count == s.queues[q].capacity
    ensures QueueInv(s)
  {
    hide GrantedSet, StorageOk;
    forall p | p in s.queues ensures QueueWakes(s, p, 0, 0) {
      assert QueueWakes(s, p, 0, if p == q then 1 else 0);
    }
  }

  lemma EmptyHasNoSlack(s: Sys, q: nat)
    requires QueueInvBut(s, q, 1, 0) && q in s.queues && s.queues[q].count == 0
    ensures QueueInv(s)
  {
    hide GrantedSet, StorageOk;
    forall p | p in s.queues ensures QueueWakes(s, p, 0, 0) {
      assert QueueWakes(s, p, if p == q then 1 else 0, 0);
    }
  }

  lemma PushStores(r: Ring.Ring, log: QueueLog, data: seq<Byte>)
    requires StorageOk(r, log) && r.count < r.capacity && |data| == r.itemSize
    ensures StorageOk(Ring.Put(r, data), log.(sent := log.sent + [data]))
  {
    hide Ring.Put, Ring.Contents, Ring.Valid;
    Ring.PutAppends(r, data);
    assert log.sent + [data] == log.received + (Ring.Contents(r) + [data]);
  }

  lemma PopStores(r: Ring.Ring, log: QueueLog)
    requires StorageOk(r, log) && r.count > 0
    ensures StorageOk(Ring.Take(r), log.(received := log.received + [Ring.Front(r)]))
  {
    hide Ring.Take, Ring.Contents, Ring.Valid, Ring.Front;
    Ring.TakeRemovesFront(r);
    assert log.received + ([Ring.Front(r)] + Ring.Contents(Ring.Take(r)))
        == log.received + [Ring.Front(r)] + Ring.Contents(Ring.Take(r));
  }

  /** What is left for the rest of the invariant after a push or a pop. */
  lemma QueueOnlyKeeps(s: Sys, s1: Sys, s': Sys, p: nat, readSlack: nat, writeSlack: nat)
    requires SysInvBut(s, p, readSlack, writeSlack) && QueueInv(s')
    requires KernInv(s1.k) && Settled(s1.k) && MutexInv(s1) && Continuations(s1)
    requires s1 == s.(k := s1.k) && s' == s1.(queues := s'.queues, queueLogs := s'.queueLogs)
    requires s'.queues.Keys == s.queues.Keys && forall q :: q in s.queues ==> s'.queues[q].itemSize == s.queues[q].itemSize
    requires forall x :: GrantedSet(s1, Takers(x)) == GrantedSet(s, Takers(x))
    requires forall t, m :: Waiting(s1, t, m) ==> Waiting(s, t, m)
    ensures SysInv(s')
  {
    hide KernInv, Settled, QueueInvBut, GrantedSet;
    GrantedByTasks(s1, s');
    MutexFrame(s1, s');
    forall x | x in s'.sems ensures SemOk(s', x, s'.sems[x].count, s'.sems[x].max, s'.semLogs[x]) {
      SemAt(s, x);
      assert forall t :: Waiting(s', t, Takers(x)) ==> Waiting(s, t, Takers(x));
    }
  }

  lemma PushKeeps(s: Sys, q: nat, data: seq<Byte>)
    requires SysInvBut(s, q, 0, 1) && q in s.queues && s.queues[q].count < s.queues[q].capacity
    requires |data| == s.queues[q].itemSize
    ensures SysInv(Push(s, q, data)) && Push(s, q, data).k.cur == s.k.cur && Push(s, q, data).k.pending == s.k.pending
  {
    hide KernInv, Settled, SemInv, QueueInvBut, MutexInv, Continuations, WakeFirst, GrantedSet, StorageOk;
    QueueAt(s, q, 0, 1, q);
    WakeFirstStep(s, Readers(q), q, 0, 1);
    var s1 := s.(k := WakeFirst(s.k, Readers(q)));
    var r, log := Ring.Put(s.queues[q], data), s.queueLogs[q].(sent := s.queueLogs[q].sent + [data]);
    PushStores(s.queues[q], s.queueLogs[q], data);
    var s' := s1.(queues := s.queues[q := r], queueLogs := s.queueLogs[q := log]);
    GrantedByTasks(s1, s');
    PushWakes(s, s', q);
    QueueUpdate(s, s', q, r, log, 0, 1);
    QueueOnlyKeeps(s, s1, s', q, 0, 1);
  }

  lemma PushWakes(s: Sys, s': Sys, q: nat)
    requires q in s.queues && s.queues[q].count < s.queues[q].capacity && QueueWakes(s, q, 0, 1)
    requires if exists t :: Waiting(s, t, Readers(q)) then |GrantedSet(s', Readers(q))| == |GrantedSet(s, Readers(q))| + 1
             else GrantedSet(s', Readers(q)) == GrantedSet(s, Readers(q))
    requires GrantedSet(s', Writers(q)) == GrantedSet(s, Writers(q))
    requires forall t, m :: Waiting(s', t, m) ==> Waiting(s, t, m)
    ensures ReadersOk(s', q, s.queues[q].count + 1, 0)
    ensures WritersOk(s', q, s.queues[q].capacity - s.queues[q].count - 1, 0)
  {
    hide GrantedSet;
  }

  lemma PopKeeps(s: Sys, q: nat)
    requires SysInvBut(s, q, 1, 0) && q in s.queues && s.queues[q].count > 0
    ensures SysInv(Pop(s, q)) && Pop(s, q).k.cur == s.k.cur && Pop(s, q).k.pending == s.k.pending
  {
    hide KernInv, Settled, SemInv, QueueInvBut, MutexInv, Continuations, WakeFirst, GrantedSet, StorageOk;
    QueueAt(s, q, 1, 0, q);
    WakeFirstStep(s, Writers(q), q, 1, 0);
    var s1 := s.(k := WakeFirst(s.k, Writers(q)));
    var log := s.queueLogs[q];
    var log' := log.(received := log.received + [Ring.Front(s.queues[q])]);
    PopStores(s.queues[q], log);
    var s' := s1.(queues := s.queues[q := Ring.Take(s.queues[q])], queueLogs := s.queueLogs[q := log']);
    GrantedByTasks(s1, s');
    PopWakes(s, s', q);
    QueueUpdate(s, s', q, Ring.Take(s.queues[q]), log', 1, 0);
    QueueOnlyKeeps(s, s1, s', q, 1, 0);
  }

  lemma PopWakes(s: Sys, s': Sys, q: nat)
    requires q in s.queues && 0 < s.queues[q].count <= s.queues[q].capacity && QueueWakes(s, q, 1, 0)
    requires if exists t :: Waiting(s, t, Writers(q)) then |GrantedSet(s', Writers(q))| == |GrantedSet(s, Writers(q))| + 1
             else GrantedSet(s', Writers(q)) == GrantedSet(s, Writers(q))
    requires GrantedSet(s', Readers(q)) == GrantedSet(s, Readers(q))
    requires forall t, m :: Waiting(s', t, m) ==> Waiting(s, t, m)
    ensures ReadersOk(s', q, s.queues[q].count - 1, 0)
    ensures WritersOk(s', q, s.queues[q].capacity - s.queues[q].count + 1, 0)
  {
    hide GrantedSet;
  }

  lemma SlackWeakens(s: Sys, q: nat, readSlack: nat, writeSlack: nat)
    requires SysInv(s)
    ensures SysInvBut(s, q, readSlack, writeSlack)
  {
    hide KernInv, Settled, Continuations, SemInv, MutexInv, GrantedSet, StorageOk;
    forall p | p in s.queues
      ensures QueueWakes(s, p, if p == q then readSlack else 0, if p == q then writeSlack else 0)
    {
      assert QueueWakes(s, p, 0, 0);
    }
  }

  lemma TryEnqueueKeeps(s: Sys, t: TaskId, q: nat, data: seq<Byte>, wake: nat, infinite: bool, due: nat)
    requires SysInvBut(s, q, 0, 1) && Caller(s, t) && PcObjects(s, InEnqueue(q, data, wake, infinite, due))
    ensures SysInv(TryEnqueue(s, t, q, data, wake, infinite, due).0)
  {
    hide KernInv, Settled, SemInv, QueueInvBut, MutexInv, Continuations, BlockCurrent, Push, Request;
    QueueAt(s, q, 0, 1, q);
    assert s.pcs[t := Free] == s.pcs;
    if s.queues[q].count == s.queues[q].capacity {
      if Expired(s.k, wake, infinite) {
        FullHasNoSlack(s, q);
      } else {
        SleepStepKeeps(s, t, InEnqueue(q, data, wake, infinite, due), wake, infinite, q, 0, 1);
        FullHasNoSlack(TryEnqueue(s, t, q, data, wake, infinite, due).0, q);
      }
    } else {
      PushKeeps(s, q, data);
      RequestStepKeeps(Push(s, q, data), FirstIsHigher(s.k, Readers(q)));
    }
  }

  lemma TryDequeueKeeps(s: Sys, t: TaskId, q: nat, wake: nat, infinite: bool, due: nat)
    requires SysInvBut(s, q, 1, 0) && Caller(s, t) && PcObjects(s, InDequeue(q, wake, infinite, due))
    ensures SysInv(TryDequeue(s, t, q, wake, infinite, due).0)
  {
    hide KernInv, Settled, SemInv, QueueInvBut, MutexInv, Continuations, BlockCurrent, Pop, Request;
    QueueAt(s, q, 1, 0, q);
    assert s.pcs[t := Free] == s.pcs;
    if s.queues[q].count == 0 {
      if Expired(s.k, wake, infinite) {
        EmptyHasNoSlack(s, q);
      } else {
        SleepStepKeeps(s, t, InDequeue(q, wake, infinite, due), wake, infinite, q, 1, 0);
        EmptyHasNoSlack(TryDequeue(s, t, q, wake, infinite, due).0, q);
      }
    } else {
      PopKeeps(s, q);
      RequestStepKeeps(Pop(s, q), FirstIsHigher(s.k, Writers(q)));
    }
  }

  lemma DueOfCall(s: Sys, timeout: nat)
    requires KernInv(s.k) && timeout != INFINITE
    ensures WakeTick(s.k, timeout) == (s.k.clock + timeout) % WRAP
  {
    hide Linked, Placed, Queued;
    var e := s.k.clock / WRAP;
    assert s.k.clock + timeout == e * WRAP + (s.k.ticks + timeout);
    AddWraps(e, s.k.ticks + timeout);
  }

  lemma AddWraps(e: nat, x: nat)
    ensures (e * WRAP + x) % WRAP == x % WRAP
  {
    var d := x / WRAP;
    assert e * WRAP + x == (e + d) * WRAP + x % WRAP;
  }

  lemma EnqueueKeeps(s: Sys, q: nat, data: seq<Byte>, timeout: nat)
    requires SysInv(s) && s.k.cur.Task? && Caller(s, s.k.cur.id) && q in s.queues && |data| == s.queues[q].itemSize
    ensures SysInv(Enqueue(s, q, data, timeout).0)
  {
    hide KernInv, Settled, SemInv, QueueInvBut, MutexInv, Continuations, TryEnqueue;
    SlackWeakens(s, q, 0, 1);
    if timeout != INFINITE {
      DueOfCall(s, timeout);
    }
    TryEnqueueKeeps(s, s.k.cur.id, q, data, WakeTick(s.k, timeout), timeout == INFINITE, s.k.clock + timeout);
  }

  lemma DequeueKeeps(s: Sys, q: nat, timeout: nat)
    requires SysInv(s) && s.k.cur.Task? && Caller(s, s.k.cur.id) && q in s.queues
    ensures SysInv(Dequeue(s, q, timeout).0)
  {
    hide KernInv, Settled, SemInv, QueueInvBut, MutexInv, Continuations, TryDequeue;
    SlackWeakens(s, q, 1, 0);
    if timeout != INFINITE {
      DueOfCall(s, timeout);
    }
    TryDequeueKeeps(s, s.k.cur.id, q, WakeTick(s.k, timeout), timeout == INFINITE, s.k.clock + timeout);
  }

  /** A round of the loop does not look at the continuation that it replaces. */
  lemma TryForgets(s: Sys, t: TaskId, q: nat, data: seq<Byte>, wake: nat, infinite: bool, due: nat)
    requires t < |s.pcs|
    ensures var s1 := s.(k := WithReason(s.k, t, NoReason));
            && TryEnqueue(s1, t, q, data, wake, infinite, due) == TryEnqueue(Resumed(s, t), t, q, data, wake, infinite, due)
            && TryDequeue(s1, t, q, wake, infinite, due) == TryDequeue(Resumed(s, t), t, q, wake, infinite, due)
            && WithPc(s1, t, Free) == Resumed(s, t)
  {
    hide BlockCurrent, WakeFirst, WithReason;
    assert s.pcs[t := Free][t := Free] == s.pcs[t := Free];
    var e, d := InEnqueue(q, data, wake, infinite, due), InDequeue(q, wake, infinite, due);
    assert s.pcs[t := Free][t := e] == s.pcs[t := e] && s.pcs[t := Free][t := d] == s.pcs[t := d];
  }

  lemma ResumeEnqueueKeeps(s: Sys, t: TaskId, q: nat, data: seq<Byte>, wake: nat, infinite: bool, due: nat)
    requires SysInv(s) && s.k.cur == Task(t) && !s.k.pending && t < |s.pcs| && s.pcs[t] == InEnqueue(q, data, wake, infinite, due)
    ensures SysInv(ResumeEnqueue(s, t, q, data, wake, infinite, due).0)
  {
    hide KernInv, Settled, SemInv, QueueInvBut, MutexInv, TryEnqueue, WithReason;
    ResumedKeeps(s, t, q);
    UnplacedCaller(s, t, 0, 0, 0);
    TryForgets(s, t, q, data, wake, infinite, due);
    if s.k.tcbs[t].reason == TimedOut {
      NoSlack(Resumed(s, t), q, 0);
    } else {
      TryEnqueueKeeps(Resumed(s, t), t, q, data, wake, infinite, due);
    }
  }

  lemma ResumeDequeueKeeps(s: Sys, t: TaskId, q: nat, wake: nat, infinite: bool, due: nat)
    requires SysInv(s) && s.k.cur == Task(t) && !s.k.pending && t < |s.pcs| && s.pcs[t] == InDequeue(q, wake, infinite, due)
    ensures SysInv(ResumeDequeue(s, t, q, wake, infinite, due).0)
  {
    hide KernInv, Settled, SemInv, QueueInvBut, MutexInv, TryDequeue, WithReason;
    ResumedKeeps(s, t, q);
    UnplacedCaller(s, t, 0, 0, 0);
    TryForgets(s, t, q, [], wake, infinite, due);
    if s.k.tcbs[t].reason == TimedOut {
      NoSlack(Resumed(s, t), q, 0);
    } else {
      TryDequeueKeeps(Resumed(s, t), t, q, wake, infinite, due);
    }
  }

  // ---------------------------------------------------------------- Mutexes

  lemma MutexBounds(s: Sys, m: nat)
    requires SysInv(s) && m in s.owners && s.owners[m].Some?
    ensures var o := s.owners[m].value;
            o < |s.k.tcbs| && 1 <= s.k.tcbs[o].held <= 0xFF && s.k.tcbs[o].held == |Owned(s, o)|
  {
    hide KernInv, SemInv, QueueInvBut, Continuations;
    OwnedIs(s, s.owners[m].value, m);
    assert RankOk(s, s.owners[m].value, s.k.tcbs[s.owners[m].value]);
  }

  lemma AcquireStepKeeps(s: Sys, t: TaskId, m: nat)
    requires SysInv(s) && Caller(s, t) && m in s.owners && s.owners[m].None? && T(s.k, t).held != 0xFF
    ensures SysInv(s.(owners := s.owners[m := Some(t)], k := AddHeld(s.k, t)))
  {
    hide KernInv, SemInv, QueueInvBut, Continuations;
    UnplacedCaller(s, t, 0, 0, 0);
    assert RankOk(s, t, s.k.tcbs[t]);
    hide MutexInv;
    AddHeldRecounts(s.k, t);
    var s' := s.(owners := s.owners[m := Some(t)], k := AddHeld(s.k, t));
    CountsKeep(s.k, s'.k);
    SameWaitsKeep(s, s', 0, 0, 0);
    AcquireKeeps(s, s', t, m);
  }

  lemma JoinStepKeeps(s: Sys, t: TaskId, m: nat, o: TaskId, timeout: nat)
    requires SysInv(s) && Caller(s, t) && m in s.owners && s.owners[m] == Some(o) && o != t
    requires 0 < timeout < WRAP && T(s.k, t).held < 0xFF
    ensures SysInv(Lock(s, m, timeout).0)
  {
    hide KernInv, SemInv, QueueInvBut, Continuations, MutexInv, BlockCurrent, Inherit, Required;
    UnplacedCaller(s, t, 0, 0, 0);
    MutexBounds(s, m);
    if timeout != INFINITE {
      WakeTickOk(s.k, timeout);
    }
    var wake, infinite, l := WakeTick(s.k, timeout), timeout == INFINITE, Lockers(m);
    BlockKeeps(s.k, wake, Some(l), infinite);
    BlockSleeps(s.k, wake, Some(l), infinite);
    var k1 := BlockCurrent(s.k, wake, Some(l), infinite);
    var s1 := WithPc(s, t, InLock(m)).(k := k1);
    SleepKeeps(s, t, InLock(m), k1, 0, 0, 0);
    var req := Required(k1, o, l);
    RequiredCovers(k1, o, l);
    RequiredBelowLevels(k1, o, l);
    InheritRaises(k1, o, req);
    var k2 := Inherit(k1, o, req);
    RequestKeeps(k2, true);
    var s' := s1.(k := Request(k2, true));
    SameWaitsKeep(s1, s', 0, 0, 0);
    EffectiveCoversBase(s.k);
    JoinKeeps(s, k1, s', t, m, o, s'.k.tcbs[o].eff);
  }

  lemma LockKeeps(s: Sys, m: nat, timeout: nat)
    requires SysInv(s) && s.k.cur.Task? && Caller(s, s.k.cur.id) && m in s.owners && timeout < WRAP
    ensures SysInv(Lock(s, m, timeout).0)
  {
    hide KernInv, SemInv, QueueInvBut, Continuations, BlockCurrent, Inherit, Required, AddHeld, Settled, Request;
    var t := s.k.cur.id;
    UnplacedCaller(s, t, 0, 0, 0);
    assert RankOk(s, t, s.k.tcbs[t]);
    if T(s.k, t).held != 0xFF {
      if s.owners[m].None? {
        AcquireStepKeeps(s, t, m);
      } else if s.owners[m].value != t && timeout != 0 {
        JoinStepKeeps(s, t, m, s.owners[m].value, timeout);
      }
    }
  }

  lemma ResumeLockKeeps(s: Sys, t: TaskId, m: nat)
    requires SysInv(s) && s.k.cur == Task(t) && !s.k.pending && t < |s.pcs| && s.pcs[t] == InLock(m)
    ensures SysInv(ResumeLock(s, t, m).0)
  {
    hide KernInv, SemInv, QueueInvBut, MutexInv, Disinherit, Required, WithReason;
    ResumedKeeps(s, t, 0);
    UnplacedCaller(s, t, 0, 0, 0);
    var s1 := Resumed(s, t);
    assert SysInv(s1);
    if s.k.tcbs[t].reason != Signaled && s.owners[m].Some? {
      var o, l := s.owners[m].value, Lockers(m);
      MutexBounds(s1, m);
      var req := Required(s1.k, o, l);
      RequiredCovers(s1.k, o, l);
      DisinheritLowers(s1.k, o, req);
      var s' := s1.(k := Disinherit(s1.k, o, req));
      SameWaitsKeep(s1, s', 0, 0, 0);
      if s'.k.tcbs[o].eff < s1.k.tcbs[o].eff {
        EffectiveCoversBase(s1.k);
        LowerKeeps(s1, s', m, o, s'.k.tcbs[o].eff);
      } else {
        MutexFrame(s1, s');
      }
    }
  }

  /** The unlocking task gives up one mutex and, with its last one, its inherited priority. */
  lemma ReleaseTask(s: Sys, t: TaskId, m: nat)
    requires SysInv(s) && Caller(s, t) && m in s.owners && s.owners[m] == Some(t)
    ensures var k1 := Relinquish(DropHeld(s.k, t), t);
            && KernInv(k1) && SameContext(s.k, k1) && |k1.tcbs| == |s.k.tcbs|
            && Released(s.k.tcbs[t], k1.tcbs[t])
            && (forall u :: 0 <= u < |s.k.tcbs| ==> SameWait(s.k.tcbs[u], k1.tcbs[u]))
            && (forall u :: 0 <= u < |s.k.tcbs| && u != t ==> SameRank(s.k.tcbs[u], k1.tcbs[u]))
  {
    hide KernInv, SemInv, QueueInvBut, MutexInv, Continuations, Relinquish, DropHeld, Settled;
    MutexBounds(s, m);
    DropHeldRecounts(s.k, t);
    CountsKeep(s.k, DropHeld(s.k, t));
    RelinquishLowers(DropHeld(s.k, t), t);
  }

  lemma ReleaseStepKeeps(s: Sys, t: TaskId, m: nat, wanted: bool)
    requires SysInv(s) && Caller(s, t) && m in s.owners && s.owners[m] == Some(t)
    requires L(Relinquish(DropHeld(s.k, t), t), Lockers(m)) == []
    ensures SysInv(s.(owners := s.owners[m := None], k := Request(Relinquish(DropHeld(s.k, t), t), wanted)))
  {
    hide KernInv, SemInv, QueueInvBut, Continuations, MutexInv, Relinquish, DropHeld;
    ReleaseTask(s, t, m);
    UnplacedCaller(s, t, 0, 0, 0);
    var k1 := Relinquish(DropHeld(s.k, t), t);
    FirstWaiter(k1, Lockers(m));
    RequestKeeps(k1, wanted);
    var s' := s.(owners := s.owners[m := None], k := Request(k1, wanted));
    SameWaitsKeep(s, s', 0, 0, 0);
    ReleaseKeeps(s, s', t, m);
  }

  /** The scheduler's part of a handoff: wake the first waiter, count its new mutex, raise it over the rest. */
  ghost function HandOver(k: Kern, n: TaskId, l: ListId): Kern {
    var k2 := AddHeld(Unblock(k, n, Signaled), n);
    if L(k2, l) == [] then k2 else Inherit(k2, n, Required(k2, n, l))
  }

  lemma HandOverTask(k: Kern, n: TaskId, m: nat)
    requires KernInv(k) && n < |k.tcbs| && Blocked(k.tcbs[n]) && k.tcbs[n].evt == Some(Lockers(m)) && k.tcbs[n].held < 0xFF
    ensures var k3 := HandOver(k, n, Lockers(m));
            && KernInv(k3) && SameContext(k, k3) && |k3.tcbs| == |k.tcbs|
            && Received(k.tcbs[n], k3.tcbs[n])
            && (forall u :: 0 <= u < |k.tcbs| && u != n ==> SameWait(k.tcbs[u], k3.tcbs[u]) && SameRank(k.tcbs[u], k3.tcbs[u]))
            && (forall u :: 0 <= u < |k.tcbs| && u != n && k.tcbs[u].evt == Some(Lockers(m)) ==> k3.tcbs[n].eff >= k.tcbs[u].eff)
  {
    hide KernInv, Unblock, AddHeld, Inherit, Required;
    UnblockKeeps(k, n, Signaled);
    UnblockWakes(k, n, Signaled);
    var k1 := Unblock(k, n, Signaled);
    AddHeldRecounts(k1, n);
    var k2 := AddHeld(k1, n);
    CountsKeep(k1, k2);
    FirstWaiter(k2, Lockers(m));
    if L(k2, Lockers(m)) != [] {
      RequiredCovers(k2, n, Lockers(m));
      RequiredBelowLevels(k2, n, Lockers(m));
      InheritRaises(k2, n, Required(k2, n, Lockers(m)));
    }
  }

  lemma HandoffStepKeeps(s: Sys, t: TaskId, m: nat, wanted: bool)
    requires SysInv(s) && Caller(s, t) && m in s.owners && s.owners[m] == Some(t)
    requires L(Relinquish(DropHeld(s.k, t), t), Lockers(m)) != []
    ensures var k1 := Relinquish(DropHeld(s.k, t), t);
            var n := L(k1, Lockers(m))[0];
            SysInv(s.(owners := s.owners[m := Some(n)], k := Request(HandOver(k1, n, Lockers(m)), wanted)))
  {
    hide KernInv, SemInv, QueueInvBut, Relinquish, DropHeld, HandOver, Unblock;
    ReleaseTask(s, t, m);
    UnplacedCaller(s, t, 0, 0, 0);
    var k1 := Relinquish(DropHeld(s.k, t), t);
    FirstWaiter(k1, Lockers(m));
    var n := L(k1, Lockers(m))[0];
    assert Waiting(s, n, Lockers(m));
    assert WaiterOk(s, n, s.k.tcbs[n], m);
    hide MutexInv;
    HandOverTask(k1, n, m);
    var k3 := HandOver(k1, n, Lockers(m));
    RequestKeeps(k3, wanted);
    var s1 := s.(k := k1);
    var s' := s.(owners := s.owners[m := Some(n)], k := Request(k3, wanted));
    SameWaitsKeep(s, s1, 0, 0, 0);
    HandoffRest(s1, s', n, m);
    EffectiveCoversBase(s.k);
    HandoffKeeps(s, s', t, m, n);
  }

  lemma EffectiveCoversBase(k: Kern)
    requires KernInv(k)
    ensures Placed(k) && forall u :: 0 <= u < |k.tcbs| ==> k.tcbs[u].eff >= k.tcbs[u].base
  {
  }

  /** A handoff grants the mutex; semaphores and queues see only a waiter less. */
  lemma HandoffRest(s1: Sys, s': Sys, n: TaskId, m: nat)
    requires Continuations(s1) && SemInv(s1) && QueueInv(s1) && n < |s1.k.tcbs| == |s'.k.tcbs|
    requires Waiting(s1, n, Lockers(m)) && Blocked(s1.k.tcbs[n])
    requires !Blocked(s'.k.tcbs[n]) && s'.k.tcbs[n].evt.None? && s'.k.tcbs[n].reason == Signaled
    requires forall u :: 0 <= u < |s1.k.tcbs| && u != n ==> SameWait(s1.k.tcbs[u], s'.k.tcbs[u])
    requires s'.owners.Keys == s1.owners.Keys && s' == s1.(k := s'.k, owners := s'.owners)
    ensures Continuations(s') && SemInv(s') && QueueInv(s')
  {
    hide SemInv, QueueInvBut;
    forall l: ListId | !l.Lockers? ensures GrantedSet(s', l) == GrantedSet(s1, l) {
      GrantedSame(s1, s', l);
    }
    HandoffObjects(s1, s');
  }

  lemma HandoffObjects(s: Sys, s': Sys)
    requires SemInv(s) && QueueInv(s) && s' == s.(k := s'.k, owners := s'.owners)
    requires forall l: ListId :: !l.Lockers? ==> GrantedSet(s', l) == GrantedSet(s, l)
    requires forall t, l :: Waiting(s', t, l) ==> Waiting(s, t, l)
    ensures SemInv(s') && QueueInv(s')
  {
    hide GrantedSet, StorageOk;
    forall x | x in s'.sems ensures SemOk(s', x, s'.sems[x].count, s'.sems[x].max, s'.semLogs[x]) {
      SemAt(s, x);
    }
    forall q | q in s'.queues ensures QueueWakes(s', q, 0, 0) {
      QueueAt(s, 0, 0, 0, q);
    }
  }

  lemma UnlockKeeps(s: Sys, m: nat)
    requires SysInv(s) && s.k.cur.Task? && Caller(s, s.k.cur.id) && m in s.owners
    ensures SysInv(Unlock(s, m).0)
  {
    hide SysInvBut, Relinquish, DropHeld, Unblock, Inherit, Required, AddHeld, Request;
    var t := s.k.cur.id;
    if s.owners[m] == Some(t) {
      var k1 := Relinquish(DropHeld(s.k, t), t);
      if L(k1, Lockers(m)) == [] {
        ReleaseStepKeeps(s, t, m, T(k1, t).eff != T(s.k, t).eff);
      } else {
        var n := L(k1, Lockers(m))[0];
        HandoffStepKeeps(s, t, m, T(HandOver(k1, n, Lockers(m)), n).eff > T(k1, t).eff);
      }
    }
  }

  // ---------------------------------------------------------------- All steps

  lemma ResumeKeeps(s: Sys, t: TaskId)
    requires SysInv(s) && s.k.cur == Task(t) && !s.k.pending && t < |s.pcs|
    ensures SysInv(ResumeStep(s, t).0)
  {
    hide SysInvBut, ResumeLock, ResumeTake, ResumeEnqueue, ResumeDequeue;
    match s.pcs[t]
    case Free =>
    case InWait => ResumeWaitKeeps(s, t);
    case InLock(m) => ResumeLockKeeps(s, t, m);
    case InTake(x) => ResumeTakeKeeps(s, t, x);
    case InEnqueue(q, data, wake, infinite, due) => ResumeEnqueueKeeps(s, t, q, data, wake, infinite, due);
    case InDequeue(q, wake, infinite, due) => ResumeDequeueKeeps(s, t, q, wake, infinite, due);
  }

  /** A plain wait ends without touching the wait reason. */
  lemma ResumeWaitKeeps(s: Sys, t: TaskId)
    requires SysInv(s) && s.k.cur == Task(t) && !s.k.pending && t < |s.pcs| && s.pcs[t].InWait?
    ensures SysInv(WithPc(s, t, Free))
  {
    hide KernInv, Settled, SemInv, QueueInvBut, MutexInv;
    UnplacedCaller(s, t, 0, 0, 0);
    var s' := WithPc(s, t, Free);
    forall l ensures GrantedSet(s', l) == GrantedSet(s, l) {
      GrantedSame(s, s', l);
    }
    SemFrame(s, s');
    QueueFrame(s, s', 0, 0, 0);
    MutexFrame(s, s');
  }

  lemma IsrKeeps(s: Sys, e: Event)
    requires SysInv(s) && Enabled(s, e)
    requires e.TakeFromIsr? || e.SignalFromIsr? || e.EnqueueFromIsr? || e.DequeueFromIsr?
    ensures SysInv(Step(s, e))
  {
    hide SysInvBut, GiveToken, Push, Pop, Request, LogTake, WithCount;
    match e
    case TakeFromIsr(x) =>
      if s.sems[x].count > 0 {
        TakeTokenKeeps(s, x);
      }
    case SignalFromIsr(x, y) =>
      GiveTokenKeeps(s, x);
      var s1 := GiveToken(s, x).0;
      RequestStepKeeps(s1, y && !s1.k.cur.NoTask?);
    case EnqueueFromIsr(q, data, y) =>
      QueueCounts(s, q);
      if s.queues[q].count < s.queues[q].capacity {
        SlackWeakens(s, q, 0, 1);
        PushKeeps(s, q, data);
      }
      var s1 := EnqueueIsr(s, q, data).0;
      RequestStepKeeps(s1, y && !s1.k.cur.NoTask?);
    case DequeueFromIsr(q, y) =>
      if s.queues[q].count > 0 {
        SlackWeakens(s, q, 1, 0);
        PopKeeps(s, q);
      }
      var s1 := DequeueIsr(s, q).0;
      RequestStepKeeps(s1, y && !s1.k.cur.NoTask?);
  }

  lemma QueueCounts(s: Sys, q: nat)
    requires SysInv(s) && q in s.queues
    ensures s.queues[q].count <= s.queues[q].capacity
  {
    hide KernInv, Settled, SemInv, MutexInv, Continuations;
    QueueAt(s, 0, 0, 0, q);
  }

  lemma CallKeeps(s: Sys, e: Event)
    requires SysInv(s) && Enabled(s, e) && IsTaskCall(e)
    ensures SysInv(Step(s, e))
  {
    hide SysInvBut, Wait, WaitUntil, Lock, Unlock, Take, Signal, Enqueue, Dequeue, Request;
    match e
    case Yield => RequestStepKeeps(s, true);
    case WaitCall(ticks) => WaitKeeps(s, ticks);
    case WaitUntilCall(wake) => WaitUntilKeeps(s, wake);
    case LockCall(m, timeout) => LockKeeps(s, m, timeout);
    case UnlockCall(m) => UnlockKeeps(s, m);
    case TakeCall(x, timeout) => TakeKeeps(s, x, timeout);
    case SignalCall(x) => SignalKeeps(s, x);
    case EnqueueCall(q, data, timeout) => EnqueueKeeps(s, q, data, timeout);
    case DequeueCall(q, timeout) => DequeueKeeps(s, q, timeout);
  }

  /** Every enabled step keeps the invariant. */
  lemma StepKeeps(s: Sys, e: Event)
    requires SysInv(s) && Enabled(s, e)
    ensures SysInv(Step(s, e))
  {
    hide SysInvBut, Wait, WaitUntil, Lock, Unlock, Take, Signal, Enqueue, Dequeue, GiveToken, EnqueueIsr, DequeueIsr,
      ResumeStep, TakeIsr, CreateStep, Kernel.Tick, SelectNext, StartFirst, Request;
    if IsTaskCall(e) {
      CallKeeps(s, e);
    } else if e.TakeFromIsr? || e.SignalFromIsr? || e.EnqueueFromIsr? || e.DequeueFromIsr? {
      IsrKeeps(s, e);
    } else {
      match e
      case Create(ok, words, prio) =>
        if CreateStatus(s.k, ok, words, prio) == Ok {
          CapacityLeft(s);
          CreateStepKeeps(s, prio);
        }
      case Start => StartStepKeeps(s);
      case Switch => SwitchStepKeeps(s);
      case Tick => TickStepKeeps(s);
      case YieldIsr => RequestStepKeeps(s, true);
      case Resume => ResumeKeeps(s, s.k.cur.id);
    }
  }

  lemma CapacityLeft(s: Sys)
    requires SysInv(s)
    ensures |s.k.tcbs| <= s.k.capacity
  {
    hide SemInv, QueueInvBut, MutexInv, Continuations;
  }

  lemma InitialKeeps(s: Sys)
    requires Initial(s)
    ensures SysInv(s)
  {
    assert forall l :: Items(s.k.lists, l) == [];
    BinaryIsCounting(true);
    BinaryIsCounting(false);
    InitialQueues(s);
    forall l ensures GrantedSet(s, l) == {} {
    }
  }

  lemma InitialQueues(s: Sys)
    requires Initial(s)
    ensures QueueInv(s)
  {
    hide Ring.Valid, Ring.Contents;
    forall q | q in s.queues ensures StorageOk(s.queues[q], s.queueLogs[q]) && s.queues[q].count == 0 {
      var r := s.queues[q];
      assert Ring.Init(r.storage, r.itemSize, r.capacity) == Ring.Created(r);
    }
  }

  /** Every state of every run has the invariant. */
  lemma {:induction false} Always(ss: seq<Sys>, es: seq<Event>, i: nat)
    requires Run(ss, es) && i < |ss|
    ensures SysInv(ss[i])
  {
    hide SysInvBut, Initial, Step, Enabled;
    if i == 0 {
      InitialKeeps(ss[0]);
    } else {
      Always(ss, es, i - 1);
      StepKeeps(ss[i - 1], es[i - 1]);
    }
  }
}
