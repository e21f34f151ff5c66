/**
 The invariants of the whole kernel, over tasks, mutexes, semaphores and queues, and the
 proof that each kind of step keeps those that are not about mutexes.
 */
module SystemInvariants {
  import opened Kernel
  import opened TaskViews
  import opened System

  /** A task that runs with no switch outstanding is linked nowhere. */
  ghost predicate Settled(k: Kern) {
    k.cur.Task? && !k.pending ==> T(k, k.cur.id).place.None?
  }

  // ---------------------------------------------------------------- Continuations

  /** What a continuation says about its task: blocked tasks wait where the call put them, woken ones know why. */
  ghost predicate PcTask(pc: Pc, c: Tcb) {
    && (Blocked(c) ==> !pc.Free? && c.evt == WaitsOn(pc))
    && (!Blocked(c) && WaitsOn(pc).Some? ==> c.reason != NoReason)
  }

  ghost predicate PcObjects(s: Sys, pc: Pc) {
    match pc
    case InLock(m) => m in s.owners
    case InTake(x) => x in s.sems
    case InEnqueue(q, data, wake, infinite, due) =>
      q in s.queues && |data| == s.queues[q].itemSize && (!infinite ==> wake == due % WRAP)
    case InDequeue(q, wake, infinite, due) => q in s.queues && (!infinite ==> wake == due % WRAP)
    case _ => true
  }

  ghost predicate Continuations(s: Sys) {
    && |s.pcs| == |s.k.tcbs|
    && forall t :: 0 <= t < |s.pcs| ==> PcTask(s.pcs[t], s.k.tcbs[t]) && PcObjects(s, s.pcs[t])
  }

  /** `t` has been signalled on `l` and has not resumed yet. */
  ghost predicate Granted(s: Sys, t: TaskId, l: ListId) {
    && t < |s.pcs| && t < |s.k.tcbs|
    && WaitsOn(s.pcs[t]) == Some(l) && !Blocked(s.k.tcbs[t]) && s.k.tcbs[t].reason == Signaled
  }

  ghost function GrantedSet(s: Sys, l: ListId): set<TaskId> {
    set t | 0 <= t < |s.pcs| && Granted(s, t, l)
  }

  ghost predicate Waiting(s: Sys, t: TaskId, l: ListId) {
    t < |s.k.tcbs| && s.k.tcbs[t].evt == Some(l)
  }

  // ---------------------------------------------------------------- Semaphores and queues

  ghost predicate SemOk(s: Sys, x: nat, count: nat, max: nat, log: SemLog) {
    && count <= max && 1 <= max
    && log.initial + log.signals == count + log.takes + |GrantedSet(s, Takers(x))|
    && (count > 0 ==> forall t :: 0 <= t < |s.k.tcbs| ==> !Waiting(s, t, Takers(x)))
  }

  ghost predicate SemInv(s: Sys) {
    && s.semLogs.Keys == s.sems.Keys
    && forall x :: x in s.sems ==> SemOk(s, x, s.sems[x].count, s.sems[x].max, s.semLogs[x])
  }

  /** A waiting reader leaves at most as many items as there are woken readers, give or take `slack`. */
  ghost predicate ReadersOk(s: Sys, q: nat, count: nat, slack: nat) {
    forall t :: 0 <= t < |s.k.tcbs| && Waiting(s, t, Readers(q)) ==> count <= |GrantedSet(s, Readers(q))| + slack
  }

  ghost predicate WritersOk(s: Sys, q: nat, free: nat, slack: nat) {
    forall t :: 0 <= t < |s.k.tcbs| && Waiting(s, t, Writers(q)) ==> free <= |GrantedSet(s, Writers(q))| + slack
  }

  ghost predicate StorageOk(r: Ring.Ring, log: QueueLog) {
    Ring.Valid(r) && log.sent == log.received + Ring.Contents(r)
  }

  ghost predicate QueueStores(s: Sys) {
    && s.queueLogs.Keys == s.queues.Keys
    && forall q :: q in s.queues ==> StorageOk(s.queues[q], s.queueLogs[q])
  }

  ghost predicate QueueWakes(s: Sys, q: nat, readSlack: nat, writeSlack: nat)
    requires q in s.queues && s.queues[q].count <= s.queues[q].capacity
  {
    && ReadersOk(s, q, s.queues[q].count, readSlack)
    && WritersOk(s, q, s.queues[q].capacity - s.queues[q].count, writeSlack)
  }

  /** All queues, with slack for one of them: a woken task that is just resuming no longer counts as granted. */
  ghost predicate QueueInvBut(s: Sys, p: nat, readSlack: nat, writeSlack: nat) {
    && QueueStores(s)
    && forall q :: q in s.queues ==>
         s.queues[q].count <= s.queues[q].capacity
         && QueueWakes(s, q, if q == p then readSlack else 0, if q == p then writeSlack else 0)
  }

  ghost predicate QueueInv(s: Sys) {
    QueueInvBut(s, 0, 0, 0)
  }

  lemma NoSlack(s: Sys, p: nat, q: nat)
    requires QueueInvBut(s, p, 0, 0)
    ensures QueueInvBut(s, q, 0, 0)
  {
    hide QueueStores, ReadersOk, WritersOk;
  }

  // ---------------------------------------------------------------- Granted sets

  lemma GrantedSame(s: Sys, s': Sys, l: ListId)
    requires |s'.pcs| == |s.pcs|
    requires forall t :: 0 <= t < |s.pcs| ==> (Granted(s', t, l) <==> Granted(s, t, l))
    ensures GrantedSet(s', l) == GrantedSet(s, l)
  {
  }

  lemma GrantedPlus(s: Sys, s': Sys, l: ListId, h: TaskId)
    requires |s'.pcs| == |s.pcs| && h < |s.pcs|
    requires forall t :: 0 <= t < |s.pcs| && t != h ==> (Granted(s', t, l) <==> Granted(s, t, l))
    requires Granted(s', h, l) && !Granted(s, h, l)
    ensures |GrantedSet(s', l)| == |GrantedSet(s, l)| + 1
  {
    hide Granted;
    assert GrantedSet(s', l) == GrantedSet(s, l) + {h};
  }

  // ---------------------------------------------------------------- Frames

  lemma SemFrame(s: Sys, s': Sys)
    requires SemInv(s) && s'.sems == s.sems && s'.semLogs == s.semLogs
    requires forall l :: GrantedSet(s', l) == GrantedSet(s, l)
    requires forall t, x :: x in s.sems && Waiting(s', t, Takers(x)) ==> Waiting(s, t, Takers(x)) || s.sems[x].count == 0
    ensures SemInv(s')
  {
    hide GrantedSet;
    forall x | x in s'.sems ensures SemOk(s', x, s'.sems[x].count, s'.sems[x].max, s'.semLogs[x]) {
      assert SemOk(s, x, s.sems[x].count, s.sems[x].max, s.semLogs[x]);
    }
  }

  lemma QueueFrame(s: Sys, s': Sys, p: nat, readSlack: nat, writeSlack: nat)
    requires QueueInvBut(s, p, readSlack, writeSlack) && s'.queues == s.queues && s'.queueLogs == s.queueLogs
    requires forall l :: GrantedSet(s', l) == GrantedSet(s, l)
    requires forall t, q :: q in s.queues && Waiting(s', t, Readers(q)) ==>
               Waiting(s, t, Readers(q)) || s.queues[q].count == 0
    requires forall t, q :: q in s.queues && Waiting(s', t, Writers(q)) ==>
               Waiting(s, t, Writers(q)) || s.queues[q].count == s.queues[q].capacity
    ensures QueueInvBut(s', p, readSlack, writeSlack)
  {
    hide GrantedSet, StorageOk;
    forall q | q in s'.queues
      ensures s'.queues[q].count <= s'.queues[q].capacity
      ensures QueueWakes(s', q, if q == p then readSlack else 0, if q == p then writeSlack else 0)
    {
      assert QueueWakes(s, q, if q == p then readSlack else 0, if q == p then writeSlack else 0);
    }
  }

  // ---------------------------------------------------------------- Steps on waiting

  /** Nobody starts or stops waiting. */
  ghost predicate SameWaits(s: Sys, s': Sys) {
    && s'.sems == s.sems && s'.semLogs == s.semLogs && s'.queues == s.queues && s'.queueLogs == s.queueLogs
    && s'.pcs == s.pcs && s'.owners.Keys == s.owners.Keys
    && |s'.k.tcbs| == |s.k.tcbs|
    && forall t :: 0 <= t < |s.k.tcbs| ==> SameWait(s.k.tcbs[t], s'.k.tcbs[t])
  }

  lemma SameWaitsKeep(s: Sys, s': Sys, p: nat, readSlack: nat, writeSlack: nat)
    requires Continuations(s) && SemInv(s) && QueueInvBut(s, p, readSlack, writeSlack) && SameWaits(s, s')
    ensures Continuations(s') && SemInv(s') && QueueInvBut(s', p, readSlack, writeSlack)
    ensures forall l :: GrantedSet(s', l) == GrantedSet(s, l)
  {
    hide SemInv, QueueInvBut;
    forall l ensures GrantedSet(s', l) == GrantedSet(s, l) {
      GrantedSame(s, s', l);
    }
    SemFrame(s, s');
    QueueFrame(s, s', p, readSlack, writeSlack);
  }

  /** Waiters whose time is up stop waiting, and nobody is granted anything. */
  lemma TimeoutsKeep(s: Sys, k': Kern, ts: set<TaskId>)
    requires Continuations(s) && SemInv(s) && QueueInv(s) && Woke(s.k, k', ts, TimedOut)
    ensures Continuations(s.(k := k')) && SemInv(s.(k := k')) && QueueInv(s.(k := k'))
  {
    hide SemInv, QueueInvBut;
    var s' := s.(k := k');
    forall l ensures GrantedSet(s', l) == GrantedSet(s, l) {
      GrantedSame(s, s', l);
    }
    SemFrame(s, s');
    QueueFrame(s, s', 0, 0, 0);
  }

  /** A wait may start on a semaphore or queue only when it has nothing to give. */
  ghost predicate MayWait(s: Sys, pc: Pc) {
    && !pc.Free? && PcObjects(s, pc)
    && (pc.InTake? ==> s.sems[pc.sem].count == 0)
    && (pc.InDequeue? ==> s.queues[pc.queue].count == 0)
    && (pc.InEnqueue? ==> s.queues[pc.queue].count == s.queues[pc.queue].capacity)
  }

  lemma SleepKeeps(s: Sys, t: TaskId, pc: Pc, k': Kern, p: nat, readSlack: nat, writeSlack: nat)
    requires Continuations(s) && SemInv(s) && QueueInvBut(s, p, readSlack, writeSlack)
    requires PcOf(s, t).Free? && MayWait(s, pc) && Slept(s.k, k', t, WaitsOn(pc))
    ensures var s' := WithPc(s, t, pc).(k := k');
            Continuations(s') && SemInv(s') && QueueInvBut(s', p, readSlack, writeSlack)
  {
    hide SemInv, QueueInvBut;
    var s' := WithPc(s, t, pc).(k := k');
    forall l ensures GrantedSet(s', l) == GrantedSet(s, l) {
      GrantedSame(s, s', l);
    }
    SemFrame(s, s');
    QueueFrame(s, s', p, readSlack, writeSlack);
  }

  /** What one signal on `l` does to waiting: its first waiter is granted, and nothing else changes. */
  lemma SignalGrants(s: Sys, k': Kern, h: TaskId, l: ListId)
    requires Continuations(s) && Woke(s.k, k', {h}, Signaled) && Waiting(s, h, l) && Blocked(s.k.tcbs[h])
    ensures var s' := s.(k := k');
            && Continuations(s')
            && |GrantedSet(s', l)| == |GrantedSet(s, l)| + 1
            && (forall m :: m != l ==> GrantedSet(s', m) == GrantedSet(s, m))
            && (forall t, m :: Waiting(s', t, m) ==> Waiting(s, t, m))
  {
    var s' := s.(k := k');
    GrantedPlus(s, s', l, h);
    forall m | m != l ensures GrantedSet(s', m) == GrantedSet(s, m) {
      GrantedSame(s, s', m);
    }
  }

  /** The state in which a resuming task has read and cleared its reason and left its wait. */
  ghost function Resumed(s: Sys, t: TaskId): Sys {
    WithPc(s, t, Free).(k := WithReason(s.k, t, NoReason))
  }

  lemma ResumedWaits(s: Sys, t: TaskId)
    requires Continuations(s) && t < |s.pcs| && !Blocked(s.k.tcbs[t])
    ensures var s' := Resumed(s, t);
            && Continuations(s')
            && (forall l :: |GrantedSet(s', l)| + (if Granted(s, t, l) then 1 else 0) == |GrantedSet(s, l)|)
            && (forall l :: !Granted(s, t, l) ==> GrantedSet(s', l) == GrantedSet(s, l))
            && (forall u, m :: Waiting(s', u, m) <==> Waiting(s, u, m))
  {
    var s' := Resumed(s, t);
    forall l ensures |GrantedSet(s', l)| + (if Granted(s, t, l) then 1 else 0) == |GrantedSet(s, l)|
             ensures !Granted(s, t, l) ==> GrantedSet(s', l) == GrantedSet(s, l) {
      if Granted(s, t, l) {
        GrantedPlus(s', s, l, t);
      } else {
        GrantedSame(s, s', l);
      }
    }
  }
}
