/**
 What every call answers and does, read off the state before it. `Answer` says it from the
 counts, owners, priorities and timeouts that a caller could look up; the lemmas show that
 each operation answers so and changes exactly what goes with that answer.
 */
module Answers {
  import opened Kernel
  import opened KernelInvariants
  import opened TaskViews
  import opened System
  import opened Effects
  import opened SystemInvariants
  import opened MutexInvariants
  import opened SystemProof
  import opened Lifecycle
  import opened Outcomes
  import opened Retry
  import opened ExactInheritance
  import opened SchedulerSteps
  import opened Theorems
  import Chains
  import Preemption

  // ---------------------------------------------------------------- The answers

  /** A timeout that a queue call treats as over at once: none, or half the tick range and more. */
  predicate NoWait(timeout: nat) {
    timeout == 0 || HALF <= timeout < INFINITE
  }

  /** Time is left for a queue call that resumes. */
  predicate TimeLeft(clock: nat, infinite: bool, due: nat) {
    infinite || clock < due || TooLate(clock, due)
  }

  /** The answer to a queue call that has been woken: given up, another round, or done. */
  ghost function QueueResumed(reason: Reason, stuck: bool, left: bool): Result {
    if reason == TimedOut then Returned(false)
    else if !stuck then Returned(true)
    else if left then Blocks
    else Returned(false)
  }

  ghost function AnswerToResume(s: Sys, t: TaskId): Result {
    var reason := T(s.k, t).reason;
    match PcOf(s, t)
    case Free => Returned(true)
    case InWait => Returned(true)
    case InLock(_) => Returned(reason == Signaled)
    case InTake(_) => Returned(reason == Signaled)
    case InEnqueue(q, _, _, infinite, due) =>
      QueueResumed(reason, QueueOf(s, q).count == QueueOf(s, q).capacity, TimeLeft(s.k.clock, infinite, due))
    case InDequeue(q, _, infinite, due) =>
      QueueResumed(reason, QueueOf(s, q).count == 0, TimeLeft(s.k.clock, infinite, due))
  }

  ghost function CallerOf(s: Sys): TaskId {
    if s.k.cur.Task? then s.k.cur.id else 0
  }

  ghost function Answer(s: Sys, e: Event): Result {
    match e
    case Create(argumentsOk, words, prio) =>
      Returned(argumentsOk && prio < s.k.levels && 64 <= words && |s.k.tcbs| < s.k.capacity)
    case Start => Returned(exists t: TaskId :: t < |s.k.tcbs| && s.k.tcbs[t].place.Some? && s.k.tcbs[t].place.value.Ready?)
    case LockCall(m, timeout) =>
      if OwnerOf(s, m).None? && T(s.k, CallerOf(s)).held < 255 then Returned(true)
      else if OwnerOf(s, m).Some? && OwnerOf(s, m).value != CallerOf(s) && T(s.k, CallerOf(s)).held < 255 && timeout > 0 then Blocks
      else Returned(false)
    case UnlockCall(m) => Returned(OwnerOf(s, m) == Some(CallerOf(s)))
    case TakeCall(x, timeout) =>
      if SemOf(s, x).count > 0 then Returned(true) else if timeout == 0 then Returned(false) else Blocks
    case TakeFromIsr(x) => Returned(SemOf(s, x).count > 0)
    case SignalCall(x) => Returned(SemOf(s, x).count < SemOf(s, x).max)
    case SignalFromIsr(x, _) => Returned(SemOf(s, x).count < SemOf(s, x).max)
    case EnqueueCall(q, _, timeout) =>
      if QueueOf(s, q).count < QueueOf(s, q).capacity then Returned(true) else if NoWait(timeout) then Returned(false) else Blocks
    case DequeueCall(q, timeout) =>
      if QueueOf(s, q).count > 0 then Returned(true) else if NoWait(timeout) then Returned(false) else Blocks
    case EnqueueFromIsr(q, _, _) => Returned(QueueOf(s, q).count < QueueOf(s, q).capacity)
    case DequeueFromIsr(q, _) => Returned(QueueOf(s, q).count > 0)
    case Resume => AnswerToResume(s, CallerOf(s))
    case _ => Returned(true)
  }

  // ---------------------------------------------------------------- Going to sleep and being woken

  /** The caller `t` now waits on `l` for `timeout` ticks, or without end; all other tasks are as before. */
  ghost predicate FellAsleep(k: Kern, k': Kern, t: TaskId, l: Option<ListId>, timeout: nat) {
    && OnlyTask(k, k', t) && Asleep(k, k', t, l, timeout) && SameRank(k.tcbs[t], k'.tcbs[t])
  }

  ghost predicate Asleep(k: Kern, k': Kern, t: TaskId, l: Option<ListId>, timeout: nat) {
    && t < |k.tcbs| == |k'.tcbs| && BlockedIn(k', t) && k'.tcbs[t].evt == l && k'.cur == k.cur && k'.pending && k'.clock == k.clock
    && (if timeout == INFINITE then k'.tcbs[t].place == Some(Suspended)
        else Timed(k'.tcbs[t]) && A(k', t).deadline == k.clock + timeout)
  }

  lemma BlockOnly(k: Kern, wake: nat, l: Option<ListId>, infinite: bool)
    requires KernInv(k) && k.cur.Task? && T(k, k.cur.id).place.None?
    ensures OnlyTask(k, BlockCurrent(k, wake, l, infinite), k.cur.id)
    ensures infinite ==> T(BlockCurrent(k, wake, l, infinite), k.cur.id).place == Some(Suspended)
  {
    hide Linked, TimersWithin, Queued, BlockState, LinkEvent, Items, BlockInserted;
    BlockHasEffect(k, k.cur.id, wake, infinite);
  }

  lemma SleepIs(k: Kern, l: Option<ListId>, timeout: nat)
    requires KernInv(k) && k.cur.Task? && T(k, k.cur.id).place.None? && 0 < timeout < WRAP
    ensures FellAsleep(k, Request(BlockCurrent(k, WakeTick(k, timeout), l, timeout == INFINITE), true), k.cur.id, l, timeout)
  {
    hide KernInv, BlockCurrent, WakeTick, Distance;
    var wake, infinite := WakeTick(k, timeout), timeout == INFINITE;
    BlockOnly(k, wake, l, infinite);
    BlockStarts(k, wake, l, infinite);
    BlockSleeps(k, wake, l, infinite);
    if !infinite {
      TicksInRange(k);
      WakeTickOk(k, timeout);
    }
  }

  lemma TicksInRange(k: Kern)
    requires KernInv(k)
    ensures k.ticks < WRAP
  {
  }

  /** The first waiter of `l` is ready, signalled, and off the list; nothing else changed but the switch request. */
  ghost predicate FirstGranted(k: Kern, k': Kern, l: ListId, wanted: bool) {
    && L(k, l) != [] && UnblockEffect(k, k'.(pending := k.pending), L(k, l)[0], Signaled)
    && k'.pending == (k.pending || wanted)
  }

  /** The first waiter is granted what it waits for, with the given request; without waiters nothing happens. */
  ghost predicate GrantedIfAny(k: Kern, k': Kern, l: ListId, wanted: bool) {
    if L(k, l) == [] then k' == k else FirstGranted(k, k', l, wanted)
  }

  /** The first waiter of `l` outranks the running task, idle counting as 0. */
  ghost predicate Outranks(k: Kern, l: ListId) {
    L(k, l) != [] && T(k, L(k, l)[0]).eff > (if k.cur.Task? then T(k, k.cur.id).eff else 0)
  }

  lemma WakeIs(k: Kern, l: ListId, wanted: bool)
    requires KernInv(k) && !IsStateList(l)
    ensures if L(k, l) == [] then WakeFirst(k, l) == k else FirstGranted(k, Request(WakeFirst(k, l), wanted), l, wanted)
    ensures FirstIsHigher(k, l) <==> Outranks(k, l)
    ensures WakeFirst(k, l).cur == k.cur
  {
    hide Linked, TimersWithin, Queued, Unblock, Items, Chosen;
    FirstWaiter(k, l);
    if L(k, l) != [] {
      var h := L(k, l)[0];
      PlacedBounds(k, h);
      UnblockHasEffect(k, h, Signaled);
    }
  }

  // ---------------------------------------------------------------- Semaphores

  /** Nothing but semaphore `x`, its log and the scheduler changed. */
  ghost predicate OnlySem(s: Sys, s': Sys, x: nat) {
    && s' == s.(k := s'.k, sems := s'.sems, semLogs := s'.semLogs)
    && x in s.sems && s'.sems == s.sems[x := s.sems[x].(count := SemOf(s', x).count)]
  }

  lemma StoredMeansNoWaiters(s: Sys, x: nat)
    requires SysInv(s) && x in s.sems
    ensures 1 <= s.sems[x].max && s.sems[x].count <= s.sems[x].max && KernInv(s.k)
    ensures s.sems[x].count > 0 ==> L(s.k, Takers(x)) == []
  {
    hide KernInv, QueueInvBut, Continuations, MutexInv, GrantedSet, Items;
    assert SemOk(s, x, s.sems[x].count, s.sems[x].max, s.semLogs[x]);
    if s.sems[x].count > 0 {
      NobodyWaits(s, Takers(x));
    }
  }

  /** Whether the signal is accepted, what it stores, and whom it wakes. */
  lemma GiveIs(s: Sys, x: nat, wanted: bool)
    requires SysInv(s) && x in s.sems
    ensures var sem, l := s.sems[x], Takers(x);
            var (s', ok, higher) := GiveToken(s, x);
            && (ok <==> sem.count < sem.max) && (higher <==> Outranks(s.k, l))
            && OnlySem(s, s', x)
            && s'.sems[x].count == (if sem.count < sem.max && L(s.k, l) == [] then sem.count + 1 else sem.count)
            && (L(s.k, l) == [] ==> s'.k == s.k)
            && (L(s.k, l) != [] ==> sem.count == 0 && FirstGranted(s.k, Request(s'.k, wanted), l, wanted))
            && s'.k.cur == s.k.cur
  {
    hide SysInvBut, WakeFirst, FirstIsHigher, Outranks, FirstGranted, Request, Items;
    StoredMeansNoWaiters(s, x);
    WakeIs(s.k, Takers(x), wanted);
    NobodyOutranks(s.k, Takers(x));
  }

  lemma NobodyOutranks(k: Kern, l: ListId)
    ensures L(k, l) == [] ==> !Outranks(k, l)
  {
  }

  /** A signal is refused exactly when the semaphore is full; it goes to the first waiter, or is stored if nobody waits. */
  lemma SignalIs(s: Sys, x: nat)
    requires SysInv(s) && Enabled(s, SignalCall(x))
    ensures var (s', r) := Perform(s, SignalCall(x));
            var sem, l := s.sems[x], Takers(x);
            && r == Returned(sem.count < sem.max) && OnlySem(s, s', x)
            && s'.sems[x].count == (if sem.count < sem.max && L(s.k, l) == [] then sem.count + 1 else sem.count)
            && GrantedIfAny(s.k, s'.k, l, Outranks(s.k, l))
  {
    hide SysInvBut, GiveToken, Outranks, FirstGranted, Items;
    GiveIs(s, x, Outranks(s.k, Takers(x)));
    NobodyOutranks(s.k, Takers(x));
    Unrequested(s.k);
  }

  /** The interrupt variant differs in its switch request only. */
  lemma SignalFromIsrIs(s: Sys, x: nat, andYield: bool)
    requires SysInv(s) && Enabled(s, SignalFromIsr(x, andYield))
    ensures var (s', r) := Perform(s, SignalFromIsr(x, andYield));
            var sem, l, wanted := s.sems[x], Takers(x), andYield && !s.k.cur.NoTask?;
            && r == Returned(sem.count < sem.max) && OnlySem(s, s', x)
            && s'.sems[x].count == (if sem.count < sem.max && L(s.k, l) == [] then sem.count + 1 else sem.count)
            && (if L(s.k, l) == [] then s'.k == Request(s.k, wanted) else FirstGranted(s.k, s'.k, l, wanted))
  {
    hide SysInvBut, GiveToken, Outranks, FirstGranted, Items, Request;
    GiveIs(s, x, andYield && !s.k.cur.NoTask?);
  }

  /** A stored token is always given; without one the caller waits, unless it gave no timeout. */
  lemma TakeIs(s: Sys, x: nat, timeout: nat)
    requires SysInv(s) && Enabled(s, TakeCall(x, timeout))
    ensures var (s', r) := Perform(s, TakeCall(x, timeout));
            var count, t := s.sems[x].count, s.k.cur.id;
            && (r == Returned(true) <==> count > 0) && (r == Returned(false) <==> count == 0 && timeout == 0)
            && (r == Blocks <==> count == 0 && timeout > 0)
            && s'.sems == (if count > 0 then s.sems[x := s.sems[x].(count := count - 1)] else s.sems)
            && s' == s.(k := s'.k, pcs := s'.pcs, sems := s'.sems, semLogs := s'.semLogs)
            && (if r.Blocks? then s'.pcs == s.pcs[t := InTake(x)] && FellAsleep(s.k, s'.k, t, Some(Takers(x)), timeout)
                else s'.k == s.k && s'.pcs == s.pcs)
  {
    hide SysInvBut, BlockCurrent, WakeTick, Request, FellAsleep;
    KernOf(s);
    UnplacedCaller(s, s.k.cur.id, 0, 0, 0);
    if timeout > 0 {
      SleepIs(s.k, Some(Takers(x)), timeout);
    }
  }

  lemma TakeFromIsrIs(s: Sys, x: nat)
    requires Enabled(s, TakeFromIsr(x))
    ensures var (s', r) := Perform(s, TakeFromIsr(x));
            && r == Returned(s.sems[x].count > 0) && s' == s.(sems := s'.sems, semLogs := s'.semLogs)
            && s'.sems == (if s.sems[x].count > 0 then s.sems[x := s.sems[x].(count := s.sems[x].count - 1)] else s.sems)
  {
  }

  // ---------------------------------------------------------------- Queues

  /** Nothing but queue `q`, its log and the scheduler changed. */
  ghost predicate OnlyQueue(s: Sys, s': Sys, q: nat) {
    && s' == s.(k := s'.k, queues := s'.queues, queueLogs := s'.queueLogs)
    && q in s.queues && q in s'.queues && s'.queues == s.queues[q := s'.queues[q]]
  }

  /** The item is the newest in the queue, and the first reader is granted. */
  ghost predicate Stored(s: Sys, s': Sys, q: nat, data: seq<Byte>, wanted: bool) {
    && OnlyQueue(s, s', q) && Ring.Contents(s'.queues[q]) == Ring.Contents(s.queues[q]) + [data]
    && GrantedOrQuiet(s.k, s'.k, Readers(q), wanted)
  }

  /** The oldest item is gone from the queue, and the first writer is granted. */
  ghost predicate Fetched(s: Sys, s': Sys, q: nat, wanted: bool) {
    && OnlyQueue(s, s', q) && Ring.Contents(s.queues[q]) == [Ring.Front(s.queues[q])] + Ring.Contents(s'.queues[q])
    && GrantedOrQuiet(s.k, s'.k, Writers(q), wanted)
  }

  ghost predicate GrantedOrQuiet(k: Kern, k': Kern, l: ListId, wanted: bool) {
    if L(k, l) == [] then k' == Request(k, wanted) else FirstGranted(k, k', l, wanted)
  }

  lemma RingOf(s: Sys, q: nat)
    requires SysInv(s) && q in s.queues
    ensures Ring.Valid(s.queues[q]) && s.queues[q].count <= s.queues[q].capacity && QueueOf(s, q) == s.queues[q] && KernInv(s.k)
  {
    hide KernInv, Settled, SemInv, QueueInvBut, Continuations, MutexInv, Ring.Valid;
    QueueAt(s, 0, 0, 0, q);
  }

  lemma PushIs(s: Sys, q: nat, data: seq<Byte>, wanted: bool)
    requires KernInv(s.k) && q in s.queues && Ring.Valid(s.queues[q]) && s.queues[q].count < s.queues[q].capacity
    requires |data| == s.queues[q].itemSize
    ensures Stored(s, Push(s, q, data).(k := Request(Push(s, q, data).k, wanted)), q, data, wanted)
    ensures FirstIsHigher(s.k, Readers(q)) <==> Outranks(s.k, Readers(q))
    ensures Push(s, q, data).k.cur == s.k.cur
  {
    hide KernInv, WakeFirst, FirstIsHigher, Outranks, FirstGranted, Request, Ring.Put, Ring.Valid, Ring.Contents, Items;
    Ring.PutAppends(s.queues[q], data);
    WakeIs(s.k, Readers(q), wanted);
  }

  lemma PopIs(s: Sys, q: nat, wanted: bool)
    requires KernInv(s.k) && q in s.queues && Ring.Valid(s.queues[q]) && s.queues[q].count > 0
    ensures Fetched(s, Pop(s, q).(k := Request(Pop(s, q).k, wanted)), q, wanted)
    ensures FirstIsHigher(s.k, Writers(q)) <==> Outranks(s.k, Writers(q))
    ensures Pop(s, q).k.cur == s.k.cur
  {
    hide KernInv, WakeFirst, FirstIsHigher, Outranks, FirstGranted, Request, Ring.Take, Ring.Front, Ring.Valid, Ring.Contents, Items;
    Ring.TakeRemovesFront(s.queues[q]);
    WakeIs(s.k, Writers(q), wanted);
  }

  lemma NoWaitIs(k: Kern, timeout: nat)
    requires KernInv(k) && timeout < WRAP
    ensures Expired(k, WakeTick(k, timeout), timeout == INFINITE) <==> NoWait(timeout)
  {
    TicksInRange(k);
    if timeout != INFINITE {
      WakeTickDistance(k, timeout);
    }
  }

  lemma FreeAgain(s: Sys, t: TaskId)
    requires t < |s.pcs| && s.pcs[t].Free?
    ensures WithPc(s, t, Free) == s
  {
    assert s.pcs[t := Free] == s.pcs;
  }

  /** With room the item is stored; without, the caller waits unless the timeout counts as over. */
  lemma EnqueueIs(s: Sys, q: nat, data: seq<Byte>, timeout: nat)
    requires SysInv(s) && Enabled(s, EnqueueCall(q, data, timeout))
    ensures var (s', r) := Perform(s, EnqueueCall(q, data, timeout));
            var room, t := s.queues[q].count < s.queues[q].capacity, s.k.cur.id;
            && r == (if room then Returned(true) else if NoWait(timeout) then Returned(false) else Blocks)
            && (room ==> Stored(s, s', q, data, Outranks(s.k, Readers(q))))
            && (r == Returned(false) ==> s' == s)
            && (r.Blocks? ==> s' == s.(k := s'.k, pcs := s'.pcs) && FellAsleep(s.k, s'.k, t, Some(Writers(q)), timeout))
  {
    hide SysInvBut, BlockCurrent, WakeTick, Request, FellAsleep, Stored, Push, Outranks, FirstIsHigher, Expired, Ring.Valid, WithPc, QueueOf;
    var t := s.k.cur.id;
    RingOf(s, q);
    UnplacedCaller(s, t, 0, 0, 0);
    FreeAgain(s, t);
    NoWaitIs(s.k, timeout);
    if s.queues[q].count < s.queues[q].capacity {
      PushIs(s, q, data, Outranks(s.k, Readers(q)));
    } else if !NoWait(timeout) {
      SleepIs(s.k, Some(Writers(q)), timeout);
      WithPcReads(s, t, InEnqueue(q, data, WakeTick(s.k, timeout), timeout == INFINITE, s.k.clock + timeout));
      OnlyPcs(s, t, InEnqueue(q, data, WakeTick(s.k, timeout), timeout == INFINITE, s.k.clock + timeout));
    }
  }

  lemma OnlyPcs(s: Sys, t: TaskId, pc: Pc)
    ensures WithPc(s, t, pc) == s.(pcs := WithPc(s, t, pc).pcs)
  {
  }

  /** With an item the oldest is handed out; without, the caller waits unless the timeout counts as over. */
  lemma DequeueIs(s: Sys, q: nat, timeout: nat)
    requires SysInv(s) && Enabled(s, DequeueCall(q, timeout))
    ensures var (s', r) := Perform(s, DequeueCall(q, timeout));
            var filled, t := s.queues[q].count > 0, s.k.cur.id;
            && r == (if filled then Returned(true) else if NoWait(timeout) then Returned(false) else Blocks)
            && (filled ==> Fetched(s, s', q, Outranks(s.k, Writers(q))))
            && (r == Returned(false) ==> s' == s)
            && (r.Blocks? ==> s' == s.(k := s'.k, pcs := s'.pcs) && FellAsleep(s.k, s'.k, t, Some(Readers(q)), timeout))
  {
    hide SysInvBut, BlockCurrent, WakeTick, Request, FellAsleep, Fetched, Pop, Outranks, FirstIsHigher, Expired, Ring.Valid, WithPc, QueueOf;
    var t := s.k.cur.id;
    RingOf(s, q);
    UnplacedCaller(s, t, 0, 0, 0);
    FreeAgain(s, t);
    NoWaitIs(s.k, timeout);
    if s.queues[q].count > 0 {
      PopIs(s, q, Outranks(s.k, Writers(q)));
    } else if !NoWait(timeout) {
      SleepIs(s.k, Some(Readers(q)), timeout);
      OnlyPcs(s, t, InDequeue(q, WakeTick(s.k, timeout), timeout == INFINITE, s.k.clock + timeout));
    }
  }

  lemma EnqueueFromIsrIs(s: Sys, q: nat, data: seq<Byte>, andYield: bool)
    requires SysInv(s) && q in s.queues && |data| == s.queues[q].itemSize
    ensures var (s', r) := Perform(s, EnqueueFromIsr(q, data, andYield));
            var wanted := andYield && !s.k.cur.NoTask?;
            && r == Returned(s.queues[q].count < s.queues[q].capacity)
            && (if r.ok then Stored(s, s', q, data, wanted) else s' == s.(k := Request(s.k, wanted)))
  {
    hide SysInvBut, Request, Stored, Push, FirstIsHigher, Outranks, Ring.Valid, QueueOf;
    RingOf(s, q);
    if s.queues[q].count < s.queues[q].capacity {
      PushIs(s, q, data, andYield && !s.k.cur.NoTask?);
    }
  }

  lemma DequeueFromIsrIs(s: Sys, q: nat, andYield: bool)
    requires SysInv(s) && q in s.queues
    ensures var (s', r) := Perform(s, DequeueFromIsr(q, andYield));
            var wanted := andYield && !s.k.cur.NoTask?;
            && r == Returned(s.queues[q].count > 0)
            && (if r.ok then Fetched(s, s', q, wanted) else s' == s.(k := Request(s.k, wanted)))
  {
    hide SysInvBut, Request, Fetched, Pop, FirstIsHigher, Outranks, Ring.Valid, QueueOf;
    RingOf(s, q);
    if s.queues[q].count > 0 {
      PopIs(s, q, andYield && !s.k.cur.NoTask?);
    }
  }

  /** The wake flag of the interrupt variants: a first waiter is granted, and it outranks the running task. */
  lemma FlagIs(s: Sys, e: Event)
    requires SysInv(s) && Preemption.Wakes(e)
    ensures Preemption.Flagged(s, e) <==> Preemption.Delivers(s, e) && Outranks(s.k, IsrList(e))
  {
    hide SysInvBut, Preemption.Flagged, Preemption.Delivers, Outranks, IsrList;
    KernOf(s);
    Preemption.IsrFlagKern(s, e);
    Preemption.IsrListIs(e);
    WakeIs(s.k, IsrList(e), false);
  }

  // ---------------------------------------------------------------- Mutexes

  /** A lock call that waits: the caller sleeps on the mutex, and besides it only the owner may change, in priority. */
  ghost predicate Joined(s: Sys, s': Sys, t: TaskId, m: nat, timeout: nat) {
    && t < |s.pcs| && s' == s.(k := s'.k, pcs := s.pcs[t := InLock(m)])
    && Asleep(s.k, s'.k, t, Some(Lockers(m)), timeout) && SameRank(s.k.tcbs[t], s'.k.tcbs[t])
    && forall u :: 0 <= u < |s.k.tcbs| && u != t && OwnerOf(s, m) != Some(u) ==> s'.k.tcbs[u] == s.k.tcbs[u]
  }

  lemma JoinIs(s: Sys, t: TaskId, m: nat, o: TaskId, timeout: nat)
    requires SysInv(s) && Enabled(s, LockCall(m, timeout)) && s.k.cur == Task(t) && s.owners[m] == Some(o) && o != t
    requires timeout > 0 && T(s.k, t).held < 0xFF
    ensures Lock(s, m, timeout).1.Blocks? && Joined(s, Lock(s, m, timeout).0, t, m, timeout)
  {
    hide KernInv, SemInv, QueueInvBut, Continuations, MutexInv, BlockCurrent, SetEffective, Required, WakeTick;
    UnplacedCaller(s, t, 0, 0, 0);
    MutexBounds(s, m);
    var l, infinite := Lockers(m), timeout == INFINITE;
    var wake := WakeTick(s.k, timeout);
    SleepIs(s.k, Some(l), timeout);
    JoinReady(s, m, timeout);
    var k1 := BlockCurrent(s.k, wake, Some(l), infinite);
    BlockSleeps(s.k, wake, Some(l), infinite);
    var req := Required(k1, o, l);
    SetEffectiveOthers(k1, o, req, t);
    OnlyOwner(k1, o, req);
    SetEffectiveRelevels(k1, o, req);
  }

  lemma OnlyOwner(k: Kern, o: TaskId, p: nat)
    requires KernInv(k) && o < |k.tcbs|
    ensures OnlyTask(k, SetEffective(k, o, p), o)
  {
    hide Linked, TimersWithin, Queued, Relevel, Items, Reinserted;
    if !(T(k, o).eff == p || T(k, o).base > p || p >= k.levels) {
      RelevelHasEffect(k, o, p);
    }
  }

  /** A free mutex is acquired, an owned one waited for if there is a timeout, and otherwise nothing happens. */
  lemma LockIs(s: Sys, m: nat, timeout: nat)
    requires SysInv(s) && Enabled(s, LockCall(m, timeout))
    ensures var (s', r) := Perform(s, LockCall(m, timeout));
            var t := s.k.cur.id;
            && t < |s.k.tcbs| && s.k.tcbs[t].held <= 255
            && (r == Returned(true) <==> OwnerOf(s, m).None? && s.k.tcbs[t].held < 255)
            && (r == Blocks <==> Chains.WillWait(s, m, timeout))
            && (r == Returned(true) ==> s' == s.(owners := s.owners[m := Some(t)],
                                                 k := s.k.(tcbs := s.k.tcbs[t := s.k.tcbs[t].(held := s.k.tcbs[t].held + 1)])))
            && (r == Returned(false) ==> s' == s)
            && (r == Blocks ==> Joined(s, s', t, m, timeout))
  {
    hide SysInvBut, BlockCurrent, Inherit, Required, Request, WakeTick, Joined;
    var t := s.k.cur.id;
    UnplacedCaller(s, t, 0, 0, 0);
    HeldBounds(s, t);
    if s.owners[m].Some? && s.owners[m].value != t && timeout > 0 && s.k.tcbs[t].held < 255 {
      JoinIs(s, t, m, s.owners[m].value, timeout);
    }
  }

  lemma ReleaseLists(s: Sys, t: TaskId, m: nat)
    requires SysInv(s) && Enabled(s, UnlockCall(m)) && s.k.cur == Task(t) && s.owners[m] == Some(t)
    ensures forall l :: L(Relinquish(DropHeld(s.k, t), t), l) == L(s.k, l)
  {
    hide KernInv, SemInv, QueueInvBut, Continuations, MutexInv, SetEffective, Items;
    UnplacedCaller(s, t, 0, 0, 0);
    MutexBounds(s, m);
    DropHeldRecounts(s.k, t);
    CountsKeep(s.k, DropHeld(s.k, t));
    SetEffectiveLists(DropHeld(s.k, t), t, T(DropHeld(s.k, t), t).base);
  }

  /** Whether the unlock asks for a switch: if it lowered the caller, or if the new owner outranks the caller afterwards. */
  ghost predicate UnlockYields(s: Sys, s': Sys, t: TaskId, m: nat) {
    var ts := L(s.k, Lockers(m));
    if ts == [] then T(s'.k, t).eff != T(s.k, t).eff else T(s.k, ts[0]).eff > T(s'.k, t).eff
  }

  /** Only the owner unlocks; the mutex goes to the first waiter, or is free if there is none. */
  lemma UnlockIs(s: Sys, m: nat)
    requires SysInv(s) && Enabled(s, UnlockCall(m))
    ensures var (s', r) := Perform(s, UnlockCall(m));
            var t, ts := s.k.cur.id, L(s.k, Lockers(m));
            && r == Returned(OwnerOf(s, m) == Some(t))
            && (r == Returned(false) ==> s' == s)
            && (r == Returned(true) ==>
                  && s' == s.(k := s'.k, owners := s.owners[m := if ts == [] then None else Some(ts[0])])
                  && Unlocked(s, s', t, m) && s'.k.pending == (s.k.pending || UnlockYields(s, s', t, m)) && s'.k.cur == s.k.cur)
  {
    hide SysInvBut, Relinquish, DropHeld, HandOver, Unlock, Items, Unlocked, KernInv, Handed, GaveBack;
    var t := s.k.cur.id;
    UnlockOthers(s, t, m);
    if OwnerOf(s, m) == Some(t) {
      UnlockReady(s, t, m);
      UnlockFacts(s, t, m);
      ReleaseTask(s, t, m);
      ReleaseLists(s, t, m);
      UnlockContext(s, t, m);
    } else {
      UnlockValid(s, m);
    }
  }

  lemma UnlockContext(s: Sys, t: TaskId, m: nat)
    requires SysInv(s) && Caller(s, t) && m in s.owners && s.owners[m] == Some(t)
    ensures var k1 := Relinquish(DropHeld(s.k, t), t);
            && k1.pending == s.k.pending && k1.cur == s.k.cur
            && (L(k1, Lockers(m)) != [] ==>
                  var n := L(k1, Lockers(m))[0];
                  var k3 := HandOver(k1, n, Lockers(m));
                  k3.pending == s.k.pending && k3.cur == s.k.cur && T(k3, n).eff == T(s.k, n).eff && T(k3, t).eff == T(k1, t).eff)
  {
    hide SysInvBut, Relinquish, DropHeld, HandOver, Items, KernInv;
    ReleaseTask(s, t, m);
    UnplacedCaller(s, t, 0, 0, 0);
    var k1 := Relinquish(DropHeld(s.k, t), t);
    FirstWaiter(k1, Lockers(m));
    if L(k1, Lockers(m)) != [] {
      var n := L(k1, Lockers(m))[0];
      WaitsIs(s, n, m);
      WaiterBelowCap(s, n, m);
      HandFacts(k1, n, m);
      HandOverTask(k1, n, m);
    }
  }

  // ---------------------------------------------------------------- Plain waits, creation and start

  /** `artos_wait` yields for no ticks, and otherwise waits: without end for the infinite delay. */
  lemma WaitIs(s: Sys, ticks: nat)
    requires SysInv(s) && Enabled(s, WaitCall(ticks))
    ensures var (s', r) := Perform(s, WaitCall(ticks));
            && r == Returned(true)
            && if ticks == 0 then s' == s.(k := s.k.(pending := true))
               else s' == s.(k := s'.k, pcs := s.pcs[s.k.cur.id := InWait]) && FellAsleep(s.k, s'.k, s.k.cur.id, None, ticks)
  {
    hide SysInvBut, BlockCurrent, WakeTick, FellAsleep;
    KernOf(s);
    UnplacedCaller(s, s.k.cur.id, 0, 0, 0);
    if ticks > 0 {
      SleepIs(s.k, None, ticks);
    }
  }

  lemma WakeTickOfDistance(k: Kern, wake: nat)
    requires KernInv(k) && wake < WRAP && 0 < (wake - k.ticks) % WRAP < HALF
    ensures WakeTick(k, (wake - k.ticks) % WRAP) == wake
  {
    TicksInRange(k);
  }

  /** `artos_wait_until` waits for a tick that lies 1 to 0x7fffffff ahead on the wrapping counter, and otherwise only yields. */
  lemma WaitUntilIs(s: Sys, wake: nat)
    requires SysInv(s) && Enabled(s, WaitUntilCall(wake))
    ensures var (s', r) := Perform(s, WaitUntilCall(wake));
            var ahead := (wake - s.k.ticks) % WRAP;
            && r == Returned(true)
            && if 0 < ahead < HALF
               then s' == s.(k := s'.k, pcs := s.pcs[s.k.cur.id := InWait]) && FellAsleep(s.k, s'.k, s.k.cur.id, None, ahead)
               else s' == s.(k := s.k.(pending := true))
  {
    hide SysInvBut, BlockCurrent, WakeTick, FellAsleep;
    KernOf(s);
    UnplacedCaller(s, s.k.cur.id, 0, 0, 0);
    if 0 < (wake - s.k.ticks) % WRAP < HALF {
      WakeTickOfDistance(s.k, wake);
      SleepIs(s.k, None, (wake - s.k.ticks) % WRAP);
    }
  }

  /** Both yields ask for a switch and do nothing else. */
  lemma YieldIs(s: Sys)
    ensures Step(s, Yield) == s.(k := s.k.(pending := true)) && Step(s, YieldIsr) == s.(k := s.k.(pending := true))
  {
  }

  /** The status in terms of the arguments and the pool: bad arguments first, then the stack, then the pool. */
  lemma CreateStatusIs(k: Kern, argumentsOk: bool, words: nat, prio: nat)
    requires |k.tcbs| <= k.capacity
    ensures var status := CreateStatus(k, argumentsOk, words, prio);
            && (status == Ok <==> argumentsOk && prio < k.levels && 64 <= words && |k.tcbs| < k.capacity)
            && (status == InvalidArgument <==> !argumentsOk || prio >= k.levels)
            && (status == StackTooSmall <==> argumentsOk && prio < k.levels && words < 64)
            && (status == TaskLimit <==> argumentsOk && prio < k.levels && 64 <= words && |k.tcbs| == k.capacity)
  {
  }

  /** Creation adds one ready task of the given priority at the end of its level, or changes nothing. */
  lemma CreateIs(s: Sys, argumentsOk: bool, words: nat, prio: nat)
    requires SysInv(s) && Enabled(s, Create(argumentsOk, words, prio))
    ensures var (s', r) := Perform(s, Create(argumentsOk, words, prio));
            && r == Returned(argumentsOk && prio < s.k.levels && 64 <= words && |s.k.tcbs| < s.k.capacity)
            && (r == Returned(false) ==> s' == s)
            && (r == Returned(true) ==> s' == s.(k := s'.k, pcs := s.pcs + [Free]) && Created(s.k, s'.k, prio))
  {
    hide SysInvBut, CreateTask;
    CapacityHolds(s);
    CreateStatusIs(s.k, argumentsOk, words, prio);
    if CreateStatus(s.k, argumentsOk, words, prio) == Ok {
      CreatedIs(s.k, prio);
    }
  }

  lemma CapacityHolds(s: Sys)
    requires SysInv(s)
    ensures |s.k.tcbs| <= s.k.capacity
  {
    hide Linked, TimersWithin, Queued, SemInv, QueueInvBut, Continuations, MutexInv;
  }

  /** One task more, of base and effective priority `prio`, last in its level; a switch is asked for if it outranks the running task. */
  ghost predicate Created(k: Kern, k': Kern, prio: nat) {
    var t := |k.tcbs|;
    && k'.tcbs == k.tcbs + [Tcb(prio, prio, 0, Some(Ready(prio)), 0, None, 0, NoReason)]
    && (forall l :: L(k', l) == if l == Ready(prio) then L(k, l) + [t] else L(k, l))
    && k'.bitmap == k.bitmap + {prio} && k'.cur == k.cur && k'.clock == k.clock && k'.ticks == k.ticks
    && k'.pending == (k.pending || (k.cur != NoTask && prio > if k.cur.Task? then T(k, k.cur.id).eff else 0))
  }

  lemma CreatedIs(k: Kern, prio: nat)
    requires prio < k.levels
    ensures Created(k, CreateTask(k, prio), prio)
  {
    hide InsertReady, Items;
    var t := |k.tcbs|;
    var k' := CreateTask(k, prio);
    assert forall l :: L(k', l) == if l == Ready(prio) then L(k, l) + [t] else L(k, l);
    assert k'.tcbs == k.tcbs + [Tcb(prio, prio, 0, Some(Ready(prio)), 0, None, 0, NoReason)];
  }

  lemma StartIs(s: Sys)
    requires SysInv(s)
    ensures Perform(s, Start).1 == Answer(s, Start)
  {
    hide SysInvBut, StartFirst;
    ReadyBits(s);
  }

  lemma ReadyBits(s: Sys)
    requires SysInv(s)
    ensures s.k.bitmap != {} <==> exists t: TaskId :: t < |s.k.tcbs| && s.k.tcbs[t].place.Some? && s.k.tcbs[t].place.value.Ready?
  {
    hide TimersWithin, Queued, SemInv, QueueInvBut, Continuations, MutexInv, Sequences.NoDup;
    if p :| p in s.k.bitmap {
      BitsAreLevels(s.k, p);
      var t := Items(s.k.lists, Ready(p))[0];
      assert t in Items(s.k.lists, Ready(p));
      assert t < |s.k.tcbs| && s.k.tcbs[t].place == Some(Ready(p));
    }
    if t: TaskId :| t < |s.k.tcbs| && s.k.tcbs[t].place.Some? && s.k.tcbs[t].place.value.Ready? {
      var l := s.k.tcbs[t].place.value;
      assert t in Items(s.k.lists, l);
      assert l.level in s.k.bitmap;
    }
  }

  // ---------------------------------------------------------------- Resumption

  lemma RoundAnswers(s: Sys, t: TaskId, q: nat, data: seq<Byte>, wake: nat, infinite: bool, due: nat)
    ensures TryEnqueue(s, t, q, data, wake, infinite, due).1 ==
            QueueResumed(Signaled, QueueOf(s, q).count == QueueOf(s, q).capacity, !Expired(s.k, wake, infinite))
    ensures TryDequeue(s, t, q, wake, infinite, due).1 ==
            QueueResumed(Signaled, QueueOf(s, q).count == 0, !Expired(s.k, wake, infinite))
  {
    hide BlockCurrent, FirstIsHigher, Expired, Request, QueueOf, Push, Pop, WithPc;
  }

  lemma TimeLeftIs(s: Sys, t: TaskId)
    requires SysInv(s) && DeadlinesNear(s) && t < |s.pcs| && (s.pcs[t].InEnqueue? || s.pcs[t].InDequeue?)
    ensures Expired(s.k, s.pcs[t].wake, s.pcs[t].infinite) <==> !TimeLeft(s.k.clock, s.pcs[t].infinite, s.pcs[t].due)
  {
    hide Linked, Placed, Queued, SemInv, QueueInvBut, Continuations, MutexInv, Expired, TooLate;
    if s.pcs[t].infinite {
      ForeverLeft(s.k, s.pcs[t].wake);
    } else {
      PcFacts(s, t);
      ExpiredMeans(s.k, s.pcs[t].due);
    }
  }

  lemma ForeverLeft(k: Kern, wake: nat)
    ensures !Expired(k, wake, true)
  {
  }

  lemma ExpiredSame(k: Kern, t: TaskId, wake: nat, infinite: bool)
    ensures Expired(WithReason(k, t, NoReason), wake, infinite) == Expired(k, wake, infinite)
  {
  }

  /** What a resumed call answers, from the recorded reason, the state of the queue and the time left. */
  lemma ResumeAnswers(s: Sys, t: TaskId)
    requires SysInv(s) && DeadlinesNear(s) && Enabled(s, Resume) && s.k.cur == Task(t)
    ensures Perform(s, Resume).1 == AnswerToResume(s, t)
  {
    hide SysInvBut, TryEnqueue, TryDequeue, Expired, TimeLeft, DeadlinesNear, WithReason, Disinherit, Required, QueueOf, LogTake;
    var pc, s1 := s.pcs[t], s.(k := WithReason(s.k, t, NoReason));
    if pc.InEnqueue? || pc.InDequeue? {
      RoundAnswers(s1, t, pc.queue, if pc.InEnqueue? then pc.data else [], pc.wake, pc.infinite, pc.due);
      TimeLeftIs(s, t);
      ExpiredSame(s.k, t, pc.wake, pc.infinite);
      QueueOfSame(s, s1, pc.queue);
    }
  }

  /** A call that resumes has its reason cleared; a plain wait leaves it and ends. */
  lemma ResumeClears(s: Sys, t: TaskId)
    requires SysInv(s) && Enabled(s, Resume) && s.k.cur == Task(t)
    ensures var s' := Step(s, Resume);
            if PcOf(s, t).InWait? then s' == s.(pcs := s.pcs[t := Free])
            else t < |s'.k.tcbs| && s'.k.tcbs[t].reason == NoReason
  {
    hide KernInv, SemInv, QueueInvBut, Continuations, MutexInv, ResumeStep, Disinherit, Required;
    UnplacedCaller(s, t, 0, 0, 0);
    ResumeIs(s);
    if PcOf(s, t).InLock? {
      LockClears(s, t, PcOf(s, t).mutex);
      ResumeIsLock(s, t);
    } else if PcOf(s, t).InWait? {
      WaitClears(s, t);
    } else {
      ResumedKern(s.k, t);
      var k, f := ResumeEffect(s, t);
      EffectKeeps(k, f, t);
    }
  }

  lemma LockClears(s: Sys, t: TaskId, m: nat)
    requires SysInv(s) && s.k.cur == Task(t) && !s.k.pending && t < |s.pcs| && s.pcs[t] == InLock(m)
    ensures var k' := ResumeLock(s, t, m).0.k;
            t < |k'.tcbs| && k'.tcbs[t].reason == NoReason
  {
    hide KernInv, SemInv, QueueInvBut, Continuations, MutexInv, SetEffective, Required;
    UnplacedCaller(s, t, 0, 0, 0);
    ResumedKern(s.k, t);
    var k1 := WithReason(s.k, t, NoReason);
    if m in s.owners && s.owners[m].Some? {
      MutexBounds(s, m);
      var o := s.owners[m].value;
      var req := Required(k1, o, Lockers(m));
      SetEffectiveReason(k1, o, if req > T(k1, o).base then req else T(k1, o).base, t);
    }
  }

  lemma EffectKeeps(k: Kern, f: Effect, t: TaskId)
    requires KernInv(k) && AwakeIn(k, t) && Fits(k, f)
    ensures t < |Apply(k, f).tcbs| && Apply(k, f).tcbs[t].reason == k.tcbs[t].reason
  {
    hide KernInv, BlockCurrent, WakeFirst;
    match f
    case Quiet(wanted) =>
    case Sleep(wake, waitOn, infinite) => BlockSleeps(k, wake, waitOn, infinite);
    case Wake(l, wanted) => WakeFirstReason(k, l, t);
  }

  lemma WaitClears(s: Sys, t: TaskId)
    requires t < |s.pcs| && s.pcs[t].InWait?
    ensures ResumeStep(s, t).0 == s.(pcs := s.pcs[t := Free])
  {
  }

  // ---------------------------------------------------------------- Runs

  /** In every run, every call answers what the state before it says. */
  lemma AnswersAreExact(ss: seq<Sys>, es: seq<Event>, i: nat)
    requires Run(ss, es) && i < |es|
    ensures Perform(ss[i], es[i]).1 == Answer(ss[i], es[i])
  {
    hide SysInvBut, Initial, Perform, DeadlinesNear, Answer;
    Always(ss, es, i);
    AlwaysNear(ss, es, i);
    AnswerIs(ss[i], es[i]);
  }

  lemma AnswerIs(s: Sys, e: Event)
    requires SysInv(s) && DeadlinesNear(s) && Enabled(s, e)
    ensures Perform(s, e).1 == Answer(s, e)
  {
    hide SysInvBut, DeadlinesNear, Perform, AnswerToResume, OnlySem, GrantedIfAny, FirstGranted, Outranks, FellAsleep, Stored, Fetched,
      Joined, Unlocked, UnlockYields, Created, Request, Items;
    match e
    case Create(ok, words, prio) => CreateIs(s, ok, words, prio);
    case Start => StartIs(s);
    case LockCall(m, timeout) => LockIs(s, m, timeout);
    case UnlockCall(m) => UnlockIs(s, m);
    case TakeCall(x, timeout) => TakeIs(s, x, timeout);
    case TakeFromIsr(x) => TakeFromIsrIs(s, x);
    case SignalCall(x) => SignalIs(s, x);
    case SignalFromIsr(x, andYield) => SignalFromIsrIs(s, x, andYield);
    case EnqueueCall(q, data, timeout) => EnqueueIs(s, q, data, timeout);
    case DequeueCall(q, timeout) => DequeueIs(s, q, timeout);
    case EnqueueFromIsr(q, data, andYield) => EnqueueFromIsrIs(s, q, data, andYield);
    case DequeueFromIsr(q, andYield) => DequeueFromIsrIs(s, q, andYield);
    case Resume => ResumeAnswers(s, s.k.cur.id);
    case _ => PlainAnswer(s, e);
  }

  lemma PlainAnswer(s: Sys, e: Event)
    requires e.Switch? || e.Tick? || e.YieldIsr? || e.Yield? || e.WaitCall? || e.WaitUntilCall?
    ensures Perform(s, e).1 == Returned(true)
  {
    hide SelectNext, Kernel.Tick, Wait, WaitUntil;
  }

  /** A signal is refused in a run exactly when the semaphore is full. */
  lemma SignalRefusedIffFull(ss: seq<Sys>, es: seq<Event>, i: nat, x: nat)
    requires Run(ss, es) && i < |es| && x in ss[i].sems && (es[i] == SignalCall(x) || (es[i].SignalFromIsr? && es[i].sem == x))
    ensures Perform(ss[i], es[i]).1 == Returned(false) <==> ss[i].sems[x].count == ss[i].sems[x].max
  {
    hide SysInvBut, Initial, Perform, Enabled;
    Always(ss, es, i);
    AnswersAreExact(ss, es, i);
    StoredMeansNoWaiters(ss[i], x);
  }

  /** The init calls accept exactly a positive maximum that covers the initial count, and store both as given. */
  lemma SemInitIs(max: nat, initial: nat, available: bool)
    ensures SemInit(max, initial).Some? <==> 0 < max && initial <= max
    ensures SemInit(max, initial).Some? ==> SemInit(max, initial).value.count == initial && SemInit(max, initial).value.max == max
    ensures BinaryInit(available).max == 1 && BinaryInit(available).count == (if available then 1 else 0)
  {
  }
}
