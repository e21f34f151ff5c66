/**
 The whole kernel as a state machine. A critical section is one step. A blocking call is
 two: the step that blocks leaves a continuation in `pcs`, and `Resume` runs the rest of
 the call once the task is running again. Ticks, interrupt calls and other tasks fall in
 between, also between the block and the context switch it has requested.

 `semLogs`, `queueLogs` and the `due` of a continuation are history, like the clock.
 */
module System {
  import opened Kernel
  import Ring

  type Byte = Ring.Byte

  /** Where a task is inside a kernel call: the part of its stack that the kernel depends on. */
  datatype Pc =
    | Free
    | InWait
    | InLock(mutex: nat)
    | InTake(sem: nat)
    | InEnqueue(queue: nat, data: seq<Byte>, wake: nat, infinite: bool, due: nat)
    | InDequeue(queue: nat, wake: nat, infinite: bool, due: nat)

  function WaitsOn(pc: Pc): Option<ListId> {
    match pc
    case Free => None
    case InWait => None
    case InLock(m) => Some(Lockers(m))
    case InTake(x) => Some(Takers(x))
    case InEnqueue(q, _, _, _, _) => Some(Writers(q))
    case InDequeue(q, _, _, _) => Some(Readers(q))
  }

  datatype Sem = Sem(count: nat, max: nat)

  /** Tokens at the start, signals that succeeded, and takes that returned true. */
  datatype SemLog = SemLog(initial: nat, signals: nat, takes: nat)

  /** Every item ever accepted and every item ever handed out, in order. */
  datatype QueueLog = QueueLog(sent: seq<seq<Byte>>, received: seq<seq<Byte>>)

  datatype Sys = Sys(
    k: Kern,
    owners: map<nat, Option<TaskId>>,
    sems: map<nat, Sem>,
    semLogs: map<nat, SemLog>,
    queues: map<nat, Ring.Ring>,
    queueLogs: map<nat, QueueLog>,
    pcs: seq<Pc>)

  datatype Result = Returned(ok: bool) | Blocks

  function PcOf(s: Sys, t: TaskId): Pc {
    if t < |s.pcs| then s.pcs[t] else Free
  }

  function WithPc(s: Sys, t: TaskId, pc: Pc): Sys {
    if t < |s.pcs| then s.(pcs := s.pcs[t := pc]) else s
  }

  function OwnerOf(s: Sys, m: nat): Option<TaskId> {
    if m in s.owners then s.owners[m] else None
  }

  function SemOf(s: Sys, x: nat): Sem {
    if x in s.sems then s.sems[x] else Sem(0, 0)
  }

  function SemLogOf(s: Sys, x: nat): SemLog {
    if x in s.semLogs then s.semLogs[x] else SemLog(0, 0, 0)
  }

  function QueueOf(s: Sys, q: nat): Ring.Ring {
    if q in s.queues then s.queues[q] else Ring.Ring(0, 0, 0, 0, 0, [])
  }

  function QueueLogOf(s: Sys, q: nat): QueueLog {
    if q in s.queueLogs then s.queueLogs[q] else QueueLog([], [])
  }

  function WakeTick(k: Kern, timeout: nat): nat {
    if timeout == INFINITE then INFINITE else (timeout + k.ticks) % WRAP
  }

  // ---------------------------------------------------------------- Signals

  /** Wakes the first waiter of `l`, if there is one. */
  function WakeFirst(k: Kern, l: ListId): (k': Kern)
    ensures k'.clock == k.clock
  {
    if L(k, l) == [] then k else Unblock(k, L(k, l)[0], Signaled)
  }

  /** The first waiter of `l` would preempt the running task. */
  predicate FirstIsHigher(k: Kern, l: ListId) {
    L(k, l) != [] && T(k, L(k, l)[0]).evtValue > CurEff(k)
  }

  function Request(k: Kern, wanted: bool): Kern {
    k.(pending := k.pending || wanted)
  }

  // ---------------------------------------------------------------- Waiting

  function Wait(s: Sys, ticks: nat): Sys {
    if ticks == 0 || !s.k.cur.Task? then s.(k := Request(s.k, true))
    else
      var k1 := BlockCurrent(s.k, WakeTick(s.k, ticks), None, ticks == INFINITE);
      WithPc(s, s.k.cur.id, InWait).(k := Request(k1, true))
  }

  function WaitUntil(s: Sys, wake: nat): Sys {
    var delta := Distance(s.k, wake);
    if delta == 0 || delta >= HALF || !s.k.cur.Task? then s.(k := Request(s.k, true))
    else
      var k1 := BlockCurrent(s.k, wake, None, false);
      WithPc(s, s.k.cur.id, InWait).(k := Request(k1, true))
  }

  // ---------------------------------------------------------------- Mutexes

  function Lock(s: Sys, m: nat, timeout: nat): (Sys, Result) {
    if !s.k.cur.Task? || T(s.k, s.k.cur.id).held == 0xFF then (s, Returned(false)) else
      var t := s.k.cur.id;
      match OwnerOf(s, m)
      case None => (s.(owners := s.owners[m := Some(t)], k := AddHeld(s.k, t)), Returned(true))
      case Some(o) =>
        if o == t || timeout == 0 then (s, Returned(false)) else
          var k1 := BlockCurrent(s.k, WakeTick(s.k, timeout), Some(Lockers(m)), timeout == INFINITE);
          var k2 := Inherit(k1, o, Required(k1, o, Lockers(m)));
          (WithPc(s, t, InLock(m)).(k := Request(k2, true)), Blocks)
  }

  function ResumeLock(s: Sys, t: TaskId, m: nat): (Sys, Result) {
    var ok := T(s.k, t).reason == Signaled;
    var k1 := WithReason(s.k, t, NoReason);
    var o := OwnerOf(s, m);
    var k2 := if !ok && o.Some? then Disinherit(k1, o.value, Required(k1, o.value, Lockers(m))) else k1;
    (WithPc(s, t, Free).(k := k2), Returned(ok))
  }

  function Unlock(s: Sys, m: nat): (Sys, Result) {
    if !s.k.cur.Task? || OwnerOf(s, m) != Some(s.k.cur.id) then (s, Returned(false)) else
      var t := s.k.cur.id;
      var k1 := Relinquish(DropHeld(s.k, t), t);
      var dropped := T(k1, t).eff != T(s.k, t).eff;
      if L(k1, Lockers(m)) == [] then
        (s.(owners := s.owners[m := None], k := Request(k1, dropped)), Returned(true))
      else
        var n := L(k1, Lockers(m))[0];
        var k2 := AddHeld(Unblock(k1, n, Signaled), n);
        var k3 := if L(k2, Lockers(m)) == [] then k2 else Inherit(k2, n, Required(k2, n, Lockers(m)));
        (s.(owners := s.owners[m := Some(n)], k := Request(k3, T(k3, n).eff > T(k1, t).eff)), Returned(true))
  }

  // ---------------------------------------------------------------- Semaphores

  function SemInit(max: nat, initial: nat): Option<Sem> {
    if max == 0 || initial > max then None else Some(Sem(initial, max))
  }

  function BinaryInit(available: bool): Sem {
    Sem(if available then 1 else 0, 1)
  }

  /** The semaphore is as one of the two init calls leaves it. */
  predicate SemCreated(sem: Sem) {
    SemInit(sem.max, sem.count) == Some(sem) || sem == BinaryInit(true) || sem == BinaryInit(false)
  }

  /** A binary semaphore is a counting one with a maximum of one. */
  lemma BinaryIsCounting(available: bool)
    ensures SemInit(1, if available then 1 else 0) == Some(BinaryInit(available))
  {
  }

  function LogTake(s: Sys, x: nat, took: bool): Sys {
    if took then s.(semLogs := s.semLogs[x := SemLogOf(s, x).(takes := SemLogOf(s, x).takes + 1)]) else s
  }

  function LogSignal(s: Sys, x: nat): Sys {
    s.(semLogs := s.semLogs[x := SemLogOf(s, x).(signals := SemLogOf(s, x).signals + 1)])
  }

  function WithCount(s: Sys, x: nat, count: nat): Sys {
    s.(sems := s.sems[x := SemOf(s, x).(count := count)])
  }

  function TakeIsr(s: Sys, x: nat): (Sys, Result) {
    if SemOf(s, x).count > 0 then (LogTake(WithCount(s, x, SemOf(s, x).count - 1), x, true), Returned(true))
    else (s, Returned(false))
  }

  function Take(s: Sys, x: nat, timeout: nat): (Sys, Result) {
    if SemOf(s, x).count > 0 then (LogTake(WithCount(s, x, SemOf(s, x).count - 1), x, true), Returned(true))
    else if timeout == 0 || !s.k.cur.Task? then (s, Returned(false))
    else
      var k1 := BlockCurrent(s.k, WakeTick(s.k, timeout), Some(Takers(x)), timeout == INFINITE);
      (WithPc(s, s.k.cur.id, InTake(x)).(k := Request(k1, true)), Blocks)
  }

  function ResumeTake(s: Sys, t: TaskId, x: nat): (Sys, Result) {
    var ok := T(s.k, t).reason == Signaled;
    (LogTake(WithPc(s, t, Free).(k := WithReason(s.k, t, NoReason)), x, ok), Returned(ok))
  }

  /** Stores a token or hands it to the first waiter; the flag says that this waiter outranks the running task. */
  function GiveToken(s: Sys, x: nat): (Sys, bool, bool) {
    var sem := SemOf(s, x);
    if sem.count != 0 then
      if sem.count != sem.max then (LogSignal(WithCount(s, x, sem.count + 1), x), true, false) else (s, false, false)
    else if L(s.k, Takers(x)) == [] then
      (LogSignal(WithCount(s, x, sem.count + 1), x), true, false)
    else
      (LogSignal(s, x).(k := WakeFirst(s.k, Takers(x))), true, FirstIsHigher(s.k, Takers(x)))
  }

  function Signal(s: Sys, x: nat): (Sys, Result) {
    var (s1, ok, higher) := GiveToken(s, x);
    (s1.(k := Request(s1.k, higher)), Returned(ok))
  }

  // ---------------------------------------------------------------- Queues

  /** Copies an item in and wakes the first reader. */
  function Push(s: Sys, q: nat, data: seq<Byte>): Sys {
    var log := QueueLogOf(s, q);
    s.(queues := s.queues[q := Ring.Put(QueueOf(s, q), data)],
       queueLogs := s.queueLogs[q := log.(sent := log.sent + [data])],
       k := WakeFirst(s.k, Readers(q)))
  }

  /** Copies the oldest item out and wakes the first writer. */
  function Pop(s: Sys, q: nat): Sys {
    var log := QueueLogOf(s, q);
    s.(queues := s.queues[q := Ring.Take(QueueOf(s, q))],
       queueLogs := s.queueLogs[q := log.(received := log.received + [Ring.Front(QueueOf(s, q))])],
       k := WakeFirst(s.k, Writers(q)))
  }

  /** The remaining wait is over, or reads as over because it is half the tick range or more. */
  predicate Expired(k: Kern, wake: nat, infinite: bool) {
    !infinite && (Distance(k, wake) == 0 || Distance(k, wake) >= HALF)
  }

  /** One round of the enqueue loop: give up, block, or store the item. */
  function TryEnqueue(s: Sys, t: TaskId, q: nat, data: seq<Byte>, wake: nat, infinite: bool, due: nat): (Sys, Result) {
    if QueueOf(s, q).count == QueueOf(s, q).capacity then
      if Expired(s.k, wake, infinite) then (WithPc(s, t, Free), Returned(false))
      else
        var k1 := BlockCurrent(s.k, wake, Some(Writers(q)), infinite);
        (WithPc(s, t, InEnqueue(q, data, wake, infinite, due)).(k := Request(k1, true)), Blocks)
    else
      var s1 := Push(WithPc(s, t, Free), q, data);
      (s1.(k := Request(s1.k, FirstIsHigher(s.k, Readers(q)))), Returned(true))
  }

  function Enqueue(s: Sys, q: nat, data: seq<Byte>, timeout: nat): (Sys, Result) {
    if !s.k.cur.Task? then (s, Returned(false)) else
      TryEnqueue(s, s.k.cur.id, q, data, WakeTick(s.k, timeout), timeout == INFINITE, s.k.clock + timeout)
  }

  function ResumeEnqueue(s: Sys, t: TaskId, q: nat, data: seq<Byte>, wake: nat, infinite: bool, due: nat): (Sys, Result) {
    var s1 := s.(k := WithReason(s.k, t, NoReason));
    if T(s.k, t).reason == TimedOut then (WithPc(s1, t, Free), Returned(false))
    else TryEnqueue(s1, t, q, data, wake, infinite, due)
  }

  function TryDequeue(s: Sys, t: TaskId, q: nat, wake: nat, infinite: bool, due: nat): (Sys, Result) {
    if QueueOf(s, q).count == 0 then
      if Expired(s.k, wake, infinite) then (WithPc(s, t, Free), Returned(false))
      else
        var k1 := BlockCurrent(s.k, wake, Some(Readers(q)), infinite);
        (WithPc(s, t, InDequeue(q, wake, infinite, due)).(k := Request(k1, true)), Blocks)
    else
      var s1 := Pop(WithPc(s, t, Free), q);
      (s1.(k := Request(s1.k, FirstIsHigher(s.k, Writers(q)))), Returned(true))
  }

  function Dequeue(s: Sys, q: nat, timeout: nat): (Sys, Result) {
    if !s.k.cur.Task? then (s, Returned(false)) else
      TryDequeue(s, s.k.cur.id, q, WakeTick(s.k, timeout), timeout == INFINITE, s.k.clock + timeout)
  }

  function ResumeDequeue(s: Sys, t: TaskId, q: nat, wake: nat, infinite: bool, due: nat): (Sys, Result) {
    var s1 := s.(k := WithReason(s.k, t, NoReason));
    if T(s.k, t).reason == TimedOut then (WithPc(s1, t, Free), Returned(false))
    else TryDequeue(s1, t, q, wake, infinite, due)
  }

  /** The third component is the accumulating wake flag of the interrupt variants. */
  function EnqueueIsr(s: Sys, q: nat, data: seq<Byte>): (Sys, bool, bool) {
    if QueueOf(s, q).count == QueueOf(s, q).capacity then (s, false, false)
    else (Push(s, q, data), true, FirstIsHigher(s.k, Readers(q)))
  }

  function DequeueIsr(s: Sys, q: nat): (Sys, bool, bool) {
    if QueueOf(s, q).count == 0 then (s, false, false)
    else (Pop(s, q), true, FirstIsHigher(s.k, Writers(q)))
  }

  // ---------------------------------------------------------------- Steps

  /** `andYield` says that the interrupt handler ends with a request for a context switch. */
  datatype Event =
    | Create(argumentsOk: bool, words: nat, prio: nat)
    | Start
    | Switch
    | Tick
    | YieldIsr
    | Yield
    | WaitCall(ticks: nat)
    | WaitUntilCall(wake: nat)
    | LockCall(mutex: nat, timeout: nat)
    | UnlockCall(mutex: nat)
    | TakeCall(sem: nat, timeout: nat)
    | SignalCall(sem: nat)
    | EnqueueCall(queue: nat, data: seq<Byte>, timeout: nat)
    | DequeueCall(queue: nat, timeout: nat)
    | Resume
    | TakeFromIsr(sem: nat)
    | SignalFromIsr(sem: nat, andYield: bool)
    | EnqueueFromIsr(queue: nat, data: seq<Byte>, andYield: bool)
    | DequeueFromIsr(queue: nat, andYield: bool)

  predicate IsTaskCall(e: Event) {
    e.Yield? || e.WaitCall? || e.WaitUntilCall? || e.LockCall? || e.UnlockCall? || e.TakeCall? || e.SignalCall?
    || e.EnqueueCall? || e.DequeueCall?
  }

  /** The running task is between kernel calls, and no switch that it must take first is outstanding. */
  predicate Running(s: Sys) {
    s.k.cur.Task? && !s.k.pending && s.k.cur.id < |s.pcs|
  }

  predicate ObjectsExist(s: Sys, e: Event) {
    match e
    case LockCall(m, timeout) => m in s.owners && timeout < WRAP
    case UnlockCall(m) => m in s.owners
    case TakeCall(x, timeout) => x in s.sems && timeout < WRAP
    case SignalCall(x) => x in s.sems
    case EnqueueCall(q, data, timeout) => q in s.queues && |data| == s.queues[q].itemSize && timeout < WRAP
    case DequeueCall(q, timeout) => q in s.queues && timeout < WRAP
    case WaitCall(ticks) => ticks < WRAP
    case WaitUntilCall(wake) => wake < WRAP
    case TakeFromIsr(x) => x in s.sems
    case SignalFromIsr(x, _) => x in s.sems
    case EnqueueFromIsr(q, data, _) => q in s.queues && |data| == s.queues[q].itemSize
    case DequeueFromIsr(q, _) => q in s.queues
    case _ => true
  }

  /** Legal use of the interface: which steps may happen next. */
  predicate Enabled(s: Sys, e: Event) {
    && ObjectsExist(s, e)
    && (IsTaskCall(e) ==> Running(s) && PcOf(s, s.k.cur.id).Free?)
    && (e.Resume? ==> Running(s) && !PcOf(s, s.k.cur.id).Free?)
    && (e.Create? ==> s.k.cur.NoTask? || (Running(s) && PcOf(s, s.k.cur.id).Free?))
    && (e.Start? ==> s.k.cur.NoTask?)
    && (e.Switch? ==> !s.k.cur.NoTask? && s.k.pending)
    && (e.Tick? || e.YieldIsr? ==> !s.k.cur.NoTask?)
  }

  function ResumeStep(s: Sys, t: TaskId): (Sys, Result) {
    match PcOf(s, t)
    case Free => (s, Returned(true))
    case InWait => (WithPc(s, t, Free), Returned(true))
    case InLock(m) => ResumeLock(s, t, m)
    case InTake(x) => ResumeTake(s, t, x)
    case InEnqueue(q, data, wake, infinite, due) => ResumeEnqueue(s, t, q, data, wake, infinite, due)
    case InDequeue(q, wake, infinite, due) => ResumeDequeue(s, t, q, wake, infinite, due)
  }

  function IsrRequest(s: Sys, andYield: bool): Sys {
    s.(k := Request(s.k, andYield && !s.k.cur.NoTask?))
  }

  function CreateStep(s: Sys, prio: nat): Sys {
    s.(k := CreateTask(s.k, prio), pcs := s.pcs + [Free])
  }

  function Perform(s: Sys, e: Event): (Sys, Result) {
    match e
    case Create(argumentsOk, words, prio) =>
      if CreateStatus(s.k, argumentsOk, words, prio) == Ok then (CreateStep(s, prio), Returned(true)) else (s, Returned(false))
    case Start => (s.(k := StartFirst(s.k)), Returned(s.k.bitmap != {}))
    case Switch => (s.(k := SelectNext(s.k)), Returned(true))
    case Tick => (s.(k := Kernel.Tick(s.k)), Returned(true))
    case YieldIsr => (s.(k := Request(s.k, true)), Returned(true))
    case Yield => (s.(k := Request(s.k, true)), Returned(true))
    case WaitCall(ticks) => (Wait(s, ticks), Returned(true))
    case WaitUntilCall(wake) => (WaitUntil(s, wake), Returned(true))
    case LockCall(m, timeout) => Lock(s, m, timeout)
    case UnlockCall(m) => Unlock(s, m)
    case TakeCall(x, timeout) => Take(s, x, timeout)
    case SignalCall(x) => Signal(s, x)
    case EnqueueCall(q, data, timeout) => Enqueue(s, q, data, timeout)
    case DequeueCall(q, timeout) => Dequeue(s, q, timeout)
    case Resume => ResumeStep(s, if s.k.cur.Task? then s.k.cur.id else 0)
    case TakeFromIsr(x) => TakeIsr(s, x)
    case SignalFromIsr(x, andYield) =>
      var (s1, ok, _) := GiveToken(s, x);
      (IsrRequest(s1, andYield), Returned(ok))
    case EnqueueFromIsr(q, data, andYield) =>
      var (s1, ok, _) := EnqueueIsr(s, q, data);
      (IsrRequest(s1, andYield), Returned(ok))
    case DequeueFromIsr(q, andYield) =>
      var (s1, ok, _) := DequeueIsr(s, q);
      (IsrRequest(s1, andYield), Returned(ok))
  }

  function Step(s: Sys, e: Event): Sys {
    Perform(s, e).0
  }

  // ---------------------------------------------------------------- Runs

  /** After initialisation: no tasks, empty lists, unowned mutexes, and objects as their init calls leave them. */
  ghost predicate Initial(s: Sys) {
    && 1 <= s.k.levels <= 32
    && s.k == Kern(s.k.levels, s.k.capacity, [], NoTask, false, 0, map[], {}, true, 0, 0, [])
    && s.pcs == []
    && (forall m :: m in s.owners ==> s.owners[m] == None)
    && s.semLogs.Keys == s.sems.Keys
    && (forall x :: x in s.sems ==>
          SemCreated(s.sems[x])
          && s.semLogs[x] == SemLog(s.sems[x].count, 0, 0))
    && s.queueLogs.Keys == s.queues.Keys
    && (forall q :: q in s.queues ==>
          var r := s.queues[q];
          Ring.Init(r.storage, r.itemSize, r.capacity) == Ring.Created(r)
          && r.itemSize * r.capacity <= |r.storage| && s.queueLogs[q] == QueueLog([], []))
  }

  /** The states `ss` and the events `es` between them form a run from initialisation. */
  ghost predicate Run(ss: seq<Sys>, es: seq<Event>) {
    && |ss| == |es| + 1
    && Initial(ss[0])
    && forall i :: 0 <= i < |es| ==> Enabled(ss[i], es[i]) && ss[i + 1] == Step(ss[i], es[i])
  }
}
