/**
 The calls of the interface as they run, on top of the scheduler object: mutexes,
 semaphores, queues and waits. Each method is one critical section; a blocking call is the
 method that blocks and the method that runs when the task is next on. Each is proved to do
 to the whole system what its function in `System` does, so everything proved of runs is
 true of these methods, and every assertion they pass through holds.
 */
module Api {
  import opened Kernel
  import opened KernelInvariants
  import opened SchedulerSteps
  import opened TaskViews
  import opened System
  import opened SystemInvariants
  import opened MutexInvariants
  import opened SystemProof
  import opened Lifecycle
  import opened Outcomes
  import Answers
  import opened Scheduling

  class Rtos {
    const sched: Scheduler
    var owners: map<nat, Option<TaskId>>
    var sems: map<nat, Sem>
    var queues: map<nat, Ring.Ring>
    ghost var semLogs: map<nat, SemLog>
    ghost var queueLogs: map<nat, QueueLog>
    ghost var pcs: seq<Pc>

    ghost function View(): (s: Sys)
      reads this, sched
    {
      Sys(sched.View(), owners, sems, semLogs, queues, queueLogs, pcs)
    }

    ghost predicate Valid()
      reads this, sched
    {
      sched.Shape() && SysInv(View())
    }

    /** A fresh system with the given objects, each as its own init call leaves it. */
    constructor (levels: nat, capacity: nat, mutexes: set<nat>, sems: map<nat, Sem>, queues: map<nat, Ring.Ring>)
      requires 1 <= levels <= 32
      requires forall x :: x in sems ==> SemCreated(sems[x])
      requires forall q :: q in queues ==>
                 Ring.Init(queues[q].storage, queues[q].itemSize, queues[q].capacity) == Ring.Created(queues[q])
                 && queues[q].itemSize * queues[q].capacity <= |queues[q].storage|
      ensures Initial(View()) && Valid() && fresh(sched)
    {
      sched := new Scheduler(levels, capacity);
      owners := map m | m in mutexes :: None;
      this.sems, this.queues, pcs := sems, queues, [];
      semLogs := map x | x in sems :: SemLog(sems[x].count, 0, 0);
      queueLogs := map q | q in queues :: QueueLog([], []);
      new;
      InitialKeeps(View());
    }

    method RequestSwitch(wanted: bool)
      requires sched.Shape()
      modifies sched`pending
      ensures sched.Shape() && sched.View() == Request(old(sched.View()), wanted)
    {
      if wanted {
        sched.pending := true;
      }
    }

    method WakeTickFor(timeout: nat) returns (wake: nat)
      ensures wake == WakeTick(sched.View(), timeout)
    {
      wake := if timeout == INFINITE then INFINITE else (timeout + sched.ticks) % WRAP;
    }

    // ---------------------------------------------------------------- Waiting

    method Wait(ticks: nat)
      requires Valid() && Enabled(View(), WaitCall(ticks))
      modifies this`pcs, sched
      ensures Valid() && View() == System.Wait(old(View()), ticks)
    {
      hide SysInvBut, BlockCurrent, Request, WakeTick;
      StepKeeps(View(), WaitCall(ticks));
      if ticks > 0 {
        CallerReady(View());
        var t := sched.cur.id;
        var wake := WakeTickFor(ticks);
        sched.BlockCurrent(wake, None, ticks == INFINITE);
        pcs := pcs[t := InWait];
      }
      RequestSwitch(true);
    }

    method WaitUntil(wake: nat)
      requires Valid() && Enabled(View(), WaitUntilCall(wake))
      modifies this`pcs, sched
      ensures Valid() && View() == System.WaitUntil(old(View()), wake)
    {
      hide SysInvBut, BlockCurrent, Request;
      StepKeeps(View(), WaitUntilCall(wake));
      var delta := (wake - sched.ticks) % WRAP;
      if delta != 0 && delta < HALF {
        CallerReady(View());
        var t := sched.cur.id;
        sched.BlockCurrent(wake, None, false);
        pcs := pcs[t := InWait];
      }
      RequestSwitch(true);
    }

    // ---------------------------------------------------------------- Mutexes

    method RequiredPriority(owner: TaskId, l: ListId) returns (p: nat)
      requires owner < |sched.tcbs|
      ensures p == Required(sched.View(), owner, l)
    {
      p := sched.tcbs[owner].base;
      var xs := Items(sched.lists, l);
      if xs != [] && xs[0] < |sched.tcbs| && sched.tcbs[xs[0]].eff > p {
        p := sched.tcbs[xs[0]].eff;
      }
    }

    /** Joins the wait list of `m` and raises its owner. */
    method WaitForMutex(t: TaskId, m: nat, o: TaskId, timeout: nat)
      requires Valid() && Enabled(View(), LockCall(m, timeout)) && sched.cur == Task(t)
      requires owners[m] == Some(o) && timeout != 0
      modifies sched
      ensures var k := old(sched.View());
              var k1 := BlockCurrent(k, WakeTick(k, timeout), Some(Lockers(m)), timeout == INFINITE);
              sched.Shape() && sched.View() == Request(Inherit(k1, o, Required(k1, o, Lockers(m))), true)
    {
      hide SysInvBut, BlockCurrent, Request, Inherit, Required, WakeTick;
      CallerReady(View());
      JoinReady(View(), m, timeout);
      var wake := WakeTickFor(timeout);
      sched.BlockCurrent(wake, Some(Lockers(m)), timeout == INFINITE);
      var p := RequiredPriority(o, Lockers(m));
      sched.Inherit(o, p);
      RequestSwitch(true);
    }

    method Lock(m: nat, timeout: nat) returns (r: Result)
      requires Valid() && Enabled(View(), LockCall(m, timeout))
      modifies this`owners, this`pcs, sched
      ensures Valid() && (View(), r) == System.Lock(old(View()), m, timeout)
    {
      hide SysInvBut, BlockCurrent, Request, Inherit, Required, WakeTick, AddHeld;
      LockIs(View(), m, timeout);
      CallerReady(View());
      var t := sched.cur.id;
      if sched.tcbs[t].held == 0xFF {
        return Returned(false);
      }
      if owners[m].None? {
        owners := owners[m := Some(t)];
        sched.IncrementHeld(t);
        return Returned(true);
      }
      var o := owners[m].value;
      if o == t || timeout == 0 {
        return Returned(false);
      }
      WaitForMutex(t, m, o, timeout);
      pcs := pcs[t := InLock(m)];
      return Blocks;
    }

    /** The rest of a lock call, once the task runs again: read and clear the reason, and disinherit after a timeout. */
    method ResumeLock(t: TaskId, m: nat) returns (r: Result)
      requires Valid() && Enabled(View(), Resume) && sched.cur == Task(t) && pcs[t] == InLock(m)
      modifies this`pcs, sched
      ensures Valid() && (View(), r) == System.ResumeLock(old(View()), t, m)
    {
      hide SysInvBut, Disinherit, Required, Bitmap.Bits;
      ResumeLockIs(View(), t, m);
      CallerReady(View());
      var reason := ReadAndClearReason(t);
      var ok := reason == Signaled;
      if !ok && owners[m].Some? {
        var o := owners[m].value;
        var p := RequiredPriority(o, Lockers(m));
        sched.Disinherit(o, p);
      }
      pcs := pcs[t := Free];
      return Returned(ok);
    }

    method ReadAndClearReason(t: TaskId) returns (reason: Reason)
      requires sched.Shape() && t < |sched.tcbs|
      modifies sched`tcbs
      ensures sched.Shape() && reason == old(sched.tcbs[t].reason) && sched.View() == WithReason(old(sched.View()), t, NoReason)
    {
      reason := sched.tcbs[t].reason;
      sched.tcbs := sched.tcbs[t := sched.tcbs[t].(reason := NoReason)];
    }

    /** The scheduler's part of a handoff to the first waiter. */
    method HandToFirst(n: TaskId, m: nat)
      requires sched.Valid() && L(sched.View(), Lockers(m)) != [] && n == L(sched.View(), Lockers(m))[0]
      requires n < |sched.tcbs| && sched.tcbs[n].held < 0xFF
      modifies sched
      ensures sched.Shape() && sched.View() == HandOver(old(sched.View()), n, Lockers(m))
    {
      hide KernInv, Linked, Placed, TimersWithin, Queued, Unblock, AddHeld, Inherit, Required, Bitmap.Bits;
      HandReady(sched.View(), m);
      InvariantParts(sched.View());
      sched.Unblock(n, Signaled);
      sched.IncrementHeld(n);
      if Items(sched.lists, Lockers(m)) != [] {
        var p := RequiredPriority(n, Lockers(m));
        sched.Inherit(n, p);
      }
    }

    method Unlock(m: nat) returns (r: Result)
      requires Valid() && Enabled(View(), UnlockCall(m))
      modifies this`owners, sched
      ensures Valid() && (View(), r) == System.Unlock(old(View()), m)
    {
      hide SysInvBut, Relinquish, DropHeld, HandOver, Request, KernInv, Bitmap.Bits, System.Unlock;
      UnlockValid(View(), m);
      CallerReady(View());
      var t := sched.cur.id;
      if owners[m] != Some(t) {
        return Returned(false);
      }
      UnlockReady(View(), t, m);
      assert sched.tcbs[t].held > 0;
      sched.DecrementHeld(t);
      var changed := sched.Relinquish(t);
      if Items(sched.lists, Lockers(m)) == [] {
        owners := owners[m := None];
        RequestSwitch(changed);
      } else {
        var self := sched.tcbs[t].eff;
        var n := Items(sched.lists, Lockers(m))[0];
        HandToFirst(n, m);
        owners := owners[m := Some(n)];
        RequestSwitch(n < |sched.tcbs| && sched.tcbs[n].eff > self);
      }
      return Returned(true);
    }

    // ---------------------------------------------------------------- Signals

    /** Wakes the first waiter of `l`, if any, and says whether it outranks the running task. */
    method SignalFirst(l: ListId) returns (higher: bool)
      requires sched.Valid() && !IsStateList(l)
      modifies sched
      ensures sched.Shape() && sched.View() == WakeFirst(old(sched.View()), l) && higher == FirstIsHigher(old(sched.View()), l)
    {
      hide KernInv, Linked, Placed, TimersWithin, Queued, Unblock, Bitmap.Bits;
      var xs := Items(sched.lists, l);
      higher := false;
      if xs != [] {
        FirstWaiter(sched.View(), l);
        InvariantParts(sched.View());
        var running := sched.CurrentPriority();
        higher := sched.tcbs[xs[0]].evtValue > running;
        sched.Unblock(xs[0], Signaled);
      }
    }

    // ---------------------------------------------------------------- Semaphores

    method SetCount(x: nat, count: nat)
      requires x in sems
      modifies this`sems
      ensures sems == old(sems)[x := old(sems)[x].(count := count)]
    {
      sems := sems[x := sems[x].(count := count)];
    }

    method Take(x: nat, timeout: nat) returns (r: Result)
      requires Valid() && Enabled(View(), TakeCall(x, timeout))
      modifies this`sems, this`semLogs, this`pcs, sched
      ensures Valid() && (View(), r) == System.Take(old(View()), x, timeout)
    {
      hide SysInvBut, BlockCurrent, Request, WakeTick, Bitmap.Bits;
      TakeValid(View(), x, timeout);
      if sems[x].count > 0 {
        SetCount(x, sems[x].count - 1);
        semLogs := semLogs[x := SemLogOf(View(), x).(takes := SemLogOf(View(), x).takes + 1)];
        return Returned(true);
      }
      if timeout == 0 {
        return Returned(false);
      }
      CallerReady(View());
      var t := sched.cur.id;
      var wake := WakeTickFor(timeout);
      sched.BlockCurrent(wake, Some(Takers(x)), timeout == INFINITE);
      pcs := pcs[t := InTake(x)];
      RequestSwitch(true);
      return Blocks;
    }

    method ResumeTake(t: TaskId, x: nat) returns (r: Result)
      requires Valid() && Enabled(View(), Resume) && sched.cur == Task(t) && pcs[t] == InTake(x)
      modifies this`semLogs, this`pcs, sched
      ensures Valid() && (View(), r) == System.ResumeTake(old(View()), t, x)
    {
      hide SysInvBut, Bitmap.Bits;
      ResumeValid(View(), t);
      CallerReady(View());
      var reason := ReadAndClearReason(t);
      pcs := pcs[t := Free];
      if reason == Signaled {
        semLogs := semLogs[x := SemLogOf(View(), x).(takes := SemLogOf(View(), x).takes + 1)];
      }
      return Returned(reason == Signaled);
    }

    /** The body that the task and the interrupt variants of signal share. */
    method GiveToken(x: nat) returns (ok: bool, higher: bool)
      requires Valid() && x in sems
      modifies this`sems, this`semLogs, sched
      ensures Valid() && (View(), ok, higher) == System.GiveToken(old(View()), x)
    {
      hide SysInvBut, WakeFirst, FirstIsHigher, Bitmap.Bits;
      GiveValid(View(), x);
      ghost var logs := semLogs[x := SemLogOf(View(), x).(signals := SemLogOf(View(), x).signals + 1)];
      if sems[x].count != 0 {
        ok := sems[x].count != sems[x].max;
        if ok {
          SetCount(x, sems[x].count + 1);
          semLogs := logs;
        }
        return ok, false;
      }
      semLogs := logs;
      if Items(sched.lists, Takers(x)) == [] {
        SetCount(x, sems[x].count + 1);
        return true, false;
      }
      higher := SignalFirst(Takers(x));
      return true, higher;
    }

    method Signal(x: nat) returns (r: Result)
      requires Valid() && Enabled(View(), SignalCall(x))
      modifies this`sems, this`semLogs, sched
      ensures Valid() && (View(), r) == System.Signal(old(View()), x)
    {
      hide SysInvBut, System.GiveToken, Bitmap.Bits;
      SignalValid(View(), x);
      var ok, higher := GiveToken(x);
      RequestSwitch(higher);
      return Returned(ok);
    }

    method TakeFromIsr(x: nat) returns (r: Result)
      requires Valid() && x in sems
      modifies this`sems, this`semLogs
      ensures Valid() && (View(), r) == TakeIsr(old(View()), x)
    {
      hide SysInvBut, Bitmap.Bits;
      TakeIsrValid(View(), x);
      if sems[x].count > 0 {
        SetCount(x, sems[x].count - 1);
        semLogs := semLogs[x := SemLogOf(View(), x).(takes := SemLogOf(View(), x).takes + 1)];
        return Returned(true);
      }
      return Returned(false);
    }

    // ---------------------------------------------------------------- Queues

    /** Copies an item in and wakes the first reader. */
    method PushItem(q: nat, data: seq<Byte>) returns (higher: bool)
      requires sched.Valid() && q in queues
      modifies this`queues, this`queueLogs, sched
      ensures sched.Shape() && View() == Push(old(View()), q, data)
      ensures higher == FirstIsHigher(old(sched.View()), Readers(q))
    {
      hide KernInv, WakeFirst, FirstIsHigher, Ring.Put, Bitmap.Bits;
      queueLogs := queueLogs[q := QueueLogOf(View(), q).(sent := QueueLogOf(View(), q).sent + [data])];
      queues := queues[q := Ring.Put(queues[q], data)];
      higher := SignalFirst(Readers(q));
    }

    /** Copies the oldest item out and wakes the first writer. */
    method PopItem(q: nat) returns (data: seq<Byte>, higher: bool)
      requires sched.Valid() && q in queues
      modifies this`queues, this`queueLogs, sched
      ensures sched.Shape() && View() == Pop(old(View()), q) && data == Ring.Front(old(queues[q]))
      ensures higher == FirstIsHigher(old(sched.View()), Writers(q))
    {
      hide KernInv, WakeFirst, FirstIsHigher, Ring.Take, Ring.Front, Bitmap.Bits;
      data := Ring.Front(queues[q]);
      queueLogs := queueLogs[q := QueueLogOf(View(), q).(received := QueueLogOf(View(), q).received + [data])];
      queues := queues[q := Ring.Take(queues[q])];
      higher := SignalFirst(Writers(q));
    }

    method HasExpired(wake: nat, infinite: bool) returns (b: bool)
      ensures b == Expired(sched.View(), wake, infinite)
    {
      var delta := (wake - sched.ticks) % WRAP;
      b := !infinite && (delta == 0 || delta >= HALF);
    }

    /** The validity test that every queue operation starts with. */
    method AssertQueueValid(q: nat)
      requires q in queues && Ring.Valid(queues[q])
    {
      var r := queues[q];
      assert r.capacity > 0 && r.itemSize > 0 && r.count <= r.capacity;
      assert r.readIndex < r.capacity && r.writeIndex < r.capacity;
    }

    /** One round of the enqueue loop, up to the next wait or the return. */
    method EnqueueRound(t: TaskId, q: nat, data: seq<Byte>, wake: nat, infinite: bool, ghost due: nat) returns (r: Result)
      requires sched.Valid() && sched.cur == Task(t) && t < |sched.tcbs| && sched.tcbs[t].place.None? && t < |pcs| && q in queues
      modifies this`queues, this`queueLogs, this`pcs, sched
      ensures sched.Shape() && (View(), r) == TryEnqueue(old(View()), t, q, data, wake, infinite, due)
    {
      hide KernInv, BlockCurrent, Request, FirstIsHigher, Push, Expired, Bitmap.Bits;
      if queues[q].count == queues[q].capacity {
        var expired := HasExpired(wake, infinite);
        if expired {
          pcs := pcs[t := Free];
          return Returned(false);
        }
        sched.BlockCurrent(wake, Some(Writers(q)), infinite);
        pcs := pcs[t := InEnqueue(q, data, wake, infinite, due)];
        RequestSwitch(true);
        return Blocks;
      }
      pcs := pcs[t := Free];
      var higher := PushItem(q, data);
      RequestSwitch(higher);
      return Returned(true);
    }

    method DequeueRound(t: TaskId, q: nat, wake: nat, infinite: bool, ghost due: nat) returns (r: Result, data: seq<Byte>)
      requires sched.Valid() && sched.cur == Task(t) && t < |sched.tcbs| && sched.tcbs[t].place.None? && t < |pcs| && q in queues
      modifies this`queues, this`queueLogs, this`pcs, sched
      ensures sched.Shape() && (View(), r) == TryDequeue(old(View()), t, q, wake, infinite, due)
      ensures r == Returned(true) ==> data == Ring.Front(old(queues[q]))
    {
      hide KernInv, BlockCurrent, Request, FirstIsHigher, Pop, Expired, Ring.Front, Bitmap.Bits;
      data := [];
      if queues[q].count == 0 {
        var expired := HasExpired(wake, infinite);
        if expired {
          pcs := pcs[t := Free];
          return Returned(false), data;
        }
        sched.BlockCurrent(wake, Some(Readers(q)), infinite);
        pcs := pcs[t := InDequeue(q, wake, infinite, due)];
        RequestSwitch(true);
        return Blocks, data;
      }
      pcs := pcs[t := Free];
      var higher;
      data, higher := PopItem(q);
      RequestSwitch(higher);
      return Returned(true), data;
    }

    method Enqueue(q: nat, data: seq<Byte>, timeout: nat) returns (r: Result)
      requires Valid() && Enabled(View(), EnqueueCall(q, data, timeout))
      modifies this`queues, this`queueLogs, this`pcs, sched
      ensures Valid() && (View(), r) == System.Enqueue(old(View()), q, data, timeout)
    {
      hide SysInvBut, TryEnqueue, WakeTick, Ring.Valid, Bitmap.Bits;
      EnqueueValid(View(), q, data, timeout);
      CallerReady(View());
      QueueReady(View(), q);
      AssertQueueValid(q);
      var wake := WakeTickFor(timeout);
      r := EnqueueRound(sched.cur.id, q, data, wake, timeout == INFINITE, sched.clock + timeout);
    }

    method ResumeEnqueue(t: TaskId, q: nat, data: seq<Byte>, wake: nat, infinite: bool, ghost due: nat) returns (r: Result)
      requires Valid() && Enabled(View(), Resume) && sched.cur == Task(t) && pcs[t] == InEnqueue(q, data, wake, infinite, due)
      modifies this`queues, this`queueLogs, this`pcs, sched
      ensures Valid() && (View(), r) == System.ResumeEnqueue(old(View()), t, q, data, wake, infinite, due)
    {
      hide SysInvBut, TryEnqueue, KernInv, Bitmap.Bits;
      ResumeValid(View(), t);
      ResumeReady(View(), t, q);
      var reason := ReadAndClearReason(t);
      if reason == TimedOut {
        pcs := pcs[t := Free];
        return Returned(false);
      }
      r := EnqueueRound(t, q, data, wake, infinite, due);
    }

    method Dequeue(q: nat, timeout: nat) returns (r: Result, data: seq<Byte>)
      requires Valid() && Enabled(View(), DequeueCall(q, timeout))
      modifies this`queues, this`queueLogs, this`pcs, sched
      ensures Valid() && (View(), r) == System.Dequeue(old(View()), q, timeout)
      ensures r == Returned(true) ==> data == Ring.Front(old(queues[q]))
    {
      hide SysInvBut, TryDequeue, WakeTick, Ring.Valid, Bitmap.Bits;
      DequeueValid(View(), q, timeout);
      CallerReady(View());
      QueueReady(View(), q);
      AssertQueueValid(q);
      var wake := WakeTickFor(timeout);
      r, data := DequeueRound(sched.cur.id, q, wake, timeout == INFINITE, sched.clock + timeout);
    }

    method ResumeDequeue(t: TaskId, q: nat, wake: nat, infinite: bool, ghost due: nat) returns (r: Result, data: seq<Byte>)
      requires Valid() && Enabled(View(), Resume) && sched.cur == Task(t) && pcs[t] == InDequeue(q, wake, infinite, due)
      modifies this`queues, this`queueLogs, this`pcs, sched
      ensures Valid() && (View(), r) == System.ResumeDequeue(old(View()), t, q, wake, infinite, due)
      ensures r == Returned(true) ==> q in old(queues) && data == Ring.Front(old(queues)[q])
    {
      hide SysInvBut, TryDequeue, KernInv, Bitmap.Bits;
      ResumeValid(View(), t);
      ResumeReady(View(), t, q);
      var reason := ReadAndClearReason(t);
      if reason == TimedOut {
        pcs := pcs[t := Free];
        return Returned(false), [];
      }
      r, data := DequeueRound(t, q, wake, infinite, due);
    }

    method EnqueueFromIsr(q: nat, data: seq<Byte>) returns (ok: bool, higher: bool)
      requires Valid() && q in queues && |data| == queues[q].itemSize
      modifies this`queues, this`queueLogs, sched
      ensures Valid() && (View(), ok, higher) == EnqueueIsr(old(View()), q, data)
    {
      hide SysInvBut, Push, Ring.Valid, Bitmap.Bits;
      KernOf(View());
      IsrValid(View(), q, data);
      QueueReady(View(), q);
      AssertQueueValid(q);
      if queues[q].count == queues[q].capacity {
        return false, false;
      }
      higher := PushItem(q, data);
      return true, higher;
    }

    method DequeueFromIsr(q: nat) returns (ok: bool, higher: bool, data: seq<Byte>)
      requires Valid() && q in queues
      modifies this`queues, this`queueLogs, sched
      ensures Valid() && (View(), ok, higher) == DequeueIsr(old(View()), q)
      ensures ok ==> data == Ring.Front(old(queues[q]))
    {
      hide SysInvBut, Pop, Ring.Valid, Ring.Front, Bitmap.Bits;
      KernOf(View());
      IsrPopValid(View(), q);
      QueueReady(View(), q);
      AssertQueueValid(q);
      data := [];
      if queues[q].count == 0 {
        return false, false, data;
      }
      data, higher := PopItem(q);
      return true, higher, data;
    }

    // ---------------------------------------------------------------- Scheduling

    method CreateTask(argumentsOk: bool, words: nat, prio: nat) returns (status: Status)
      requires Valid() && Enabled(View(), Create(argumentsOk, words, prio))
      modifies this`pcs, sched
      ensures Valid() && View() == Step(old(View()), Create(argumentsOk, words, prio))
      ensures status == Ok <==> argumentsOk && prio < sched.levels && 64 <= words && |old(sched.tcbs)| < sched.capacity
      ensures status == InvalidArgument <==> !argumentsOk || prio >= sched.levels
      ensures status == StackTooSmall <==> argumentsOk && prio < sched.levels && words < 64
      ensures status == TaskLimit <==> argumentsOk && prio < sched.levels && 64 <= words && |old(sched.tcbs)| == sched.capacity
      ensures status != Ok ==> View() == old(View())
      ensures status == Ok ==> Answers.Created(old(sched.View()), sched.View(), prio) && pcs == old(pcs) + [Free]
    {
      hide SysInvBut, Kernel.CreateTask, Bitmap.Bits;
      KernOf(View());
      StepKeeps(View(), Create(argumentsOk, words, prio));
      Answers.CreateIs(View(), argumentsOk, words, prio);
      status := sched.Create(argumentsOk, words, prio);
      if status == Ok {
        pcs := pcs + [Free];
      }
    }

    method Start() returns (started: bool)
      requires Valid() && Enabled(View(), Event.Start)
      modifies sched
      ensures Valid() && View() == Step(old(View()), Event.Start) && (started <==> old(sched.View()).bitmap != {})
    {
      hide SysInvBut, StartFirst, Bitmap.Bits;
      KernOf(View());
      StepKeeps(View(), Event.Start);
      started := sched.Start();
    }

    method Switch()
      requires Valid() && Enabled(View(), Event.Switch)
      modifies sched
      ensures Valid() && View() == Step(old(View()), Event.Switch)
    {
      hide SysInvBut, SelectNext, Bitmap.Bits;
      KernOf(View());
      StepKeeps(View(), Event.Switch);
      sched.SelectNext();
    }

    method Tick()
      requires Valid() && Enabled(View(), Event.Tick)
      modifies sched
      ensures Valid() && View() == Step(old(View()), Event.Tick)
    {
      hide SysInvBut, Kernel.Tick, Bitmap.Bits;
      KernOf(View());
      StepKeeps(View(), Event.Tick);
      sched.Tick();
    }
  }

  /** A running task that may call: it exists and is linked nowhere. */
  lemma CallerReady(s: Sys)
    requires SysInv(s) && Running(s)
    ensures s.k.cur.id < |s.k.tcbs| == |s.pcs| && s.k.tcbs[s.k.cur.id].place.None? && KernInv(s.k)
  {
    hide SysInvBut;
    UnplacedCaller(s, s.k.cur.id, 0, 0, 0);
    KernOf(s);
  }

  lemma LockIs(s: Sys, m: nat, timeout: nat)
    requires SysInv(s) && Enabled(s, LockCall(m, timeout))
    ensures SysInv(System.Lock(s, m, timeout).0)
  {
    hide SysInvBut, Lock;
    StepKeeps(s, LockCall(m, timeout));
  }

  lemma ResumeLockIs(s: Sys, t: TaskId, m: nat)
    requires SysInv(s) && Enabled(s, Resume) && s.k.cur == Task(t) && s.pcs[t] == InLock(m)
    ensures SysInv(System.ResumeLock(s, t, m).0) && m in s.owners
    ensures KernInv(WithReason(s.k, t, NoReason))
    ensures s.owners[m].Some? ==> s.owners[m].value < |s.k.tcbs|
  {
    hide KernInv, SemInv, QueueInvBut, ResumeLock;
    UnplacedCaller(s, t, 0, 0, 0);
    ResumeLockKeeps(s, t, m);
    ResumedKern(s.k, t);
    assert PcObjects(s, s.pcs[t]);
  }

  lemma HandReady(k: Kern, m: nat)
    requires KernInv(k) && L(k, Lockers(m)) != []
    ensures var n := L(k, Lockers(m))[0];
            var k2 := AddHeld(Unblock(k, n, Signaled), n);
            && n < |k.tcbs| && Blocked(k.tcbs[n]) && |Unblock(k, n, Signaled).tcbs| == |k.tcbs|
            && (k.tcbs[n].held < 0xFF ==> n < |k2.tcbs| && KernInv(k2) && Required(k2, n, Lockers(m)) < k2.levels)
  {
    hide KernInv, Unblock, AddHeld, Required, Items;
    var n := L(k, Lockers(m))[0];
    FirstWaiter(k, Lockers(m));
    UnblockKeeps(k, n, Signaled);
    UnblockWakes(k, n, Signaled);
    if k.tcbs[n].held < 0xFF {
      AddHeldRecounts(Unblock(k, n, Signaled), n);
      CountsKeep(Unblock(k, n, Signaled), AddHeld(Unblock(k, n, Signaled), n));
      RequiredBelowLevels(AddHeld(Unblock(k, n, Signaled), n), n, Lockers(m));
    }
  }

  lemma TakeValid(s: Sys, x: nat, timeout: nat)
    requires SysInv(s) && Enabled(s, TakeCall(x, timeout))
    ensures SysInv(System.Take(s, x, timeout).0)
  {
    hide SysInvBut, Take;
    StepKeeps(s, TakeCall(x, timeout));
  }

  lemma ResumeValid(s: Sys, t: TaskId)
    requires SysInv(s) && Enabled(s, Resume) && s.k.cur == Task(t)
    ensures SysInv(ResumeStep(s, t).0)
  {
    hide SysInvBut, ResumeStep;
    StepKeeps(s, Resume);
  }

  lemma GiveValid(s: Sys, x: nat)
    requires SysInv(s) && x in s.sems
    ensures SysInv(System.GiveToken(s, x).0) && KernInv(s.k)
  {
    hide SysInvBut, GiveToken;
    KernOf(s);
    GiveTokenKeeps(s, x);
  }

  lemma SignalValid(s: Sys, x: nat)
    requires SysInv(s) && Enabled(s, SignalCall(x))
    ensures SysInv(System.Signal(s, x).0)
  {
    hide SysInvBut, Signal;
    StepKeeps(s, SignalCall(x));
  }

  lemma TakeIsrValid(s: Sys, x: nat)
    requires SysInv(s) && x in s.sems
    ensures SysInv(TakeIsr(s, x).0)
  {
    hide SysInvBut, TakeIsr;
    StepKeeps(s, Event.TakeFromIsr(x));
  }

  lemma EnqueueValid(s: Sys, q: nat, data: seq<Byte>, timeout: nat)
    requires SysInv(s) && Enabled(s, EnqueueCall(q, data, timeout))
    ensures SysInv(System.Enqueue(s, q, data, timeout).0)
  {
    hide SysInvBut, Enqueue;
    StepKeeps(s, EnqueueCall(q, data, timeout));
  }

  lemma DequeueValid(s: Sys, q: nat, timeout: nat)
    requires SysInv(s) && Enabled(s, DequeueCall(q, timeout))
    ensures SysInv(System.Dequeue(s, q, timeout).0)
  {
    hide SysInvBut, Dequeue;
    StepKeeps(s, DequeueCall(q, timeout));
  }

  lemma QueueReady(s: Sys, q: nat)
    requires SysInv(s) && q in s.queues
    ensures Ring.Valid(s.queues[q])
  {
    hide KernInv, Settled, Continuations, SemInv, MutexInv, QueueInvBut, Ring.Valid;
    QueueAt(s, 0, 0, 0, q);
  }

  /** A task that resumes inside a queue call can run the next round. */
  lemma ResumeReady(s: Sys, t: TaskId, q: nat)
    requires SysInv(s) && Enabled(s, Resume) && s.k.cur == Task(t)
    requires s.pcs[t].InEnqueue? || s.pcs[t].InDequeue?
    requires s.pcs[t].queue == q
    ensures q in s.queues && t < |s.k.tcbs| && s.k.tcbs[t].place.None? && KernInv(WithReason(s.k, t, NoReason))
  {
    hide KernInv, SemInv, QueueInvBut, MutexInv;
    UnplacedCaller(s, t, 0, 0, 0);
    ResumedKern(s.k, t);
    assert PcObjects(s, s.pcs[t]);
  }

  lemma IsrValid(s: Sys, q: nat, data: seq<Byte>)
    requires SysInv(s) && q in s.queues && |data| == s.queues[q].itemSize
    ensures SysInv(EnqueueIsr(s, q, data).0)
  {
    hide SysInvBut, EnqueueIsr, Request;
    StepKeeps(s, Event.EnqueueFromIsr(q, data, false));
    NoRequest(EnqueueIsr(s, q, data).0);
  }

  lemma IsrPopValid(s: Sys, q: nat)
    requires SysInv(s) && q in s.queues
    ensures SysInv(DequeueIsr(s, q).0)
  {
    hide SysInvBut, DequeueIsr, Request;
    StepKeeps(s, Event.DequeueFromIsr(q, false));
    NoRequest(DequeueIsr(s, q).0);
  }

  lemma NoRequest(s: Sys)
    ensures IsrRequest(s, false) == s
  {
  }
}
