/**
 The retry loops of the queue calls. A call that is signalled, finds the queue full (or
 empty) again and goes back to waiting, does so until its original absolute deadline. The
 only way past the deadline is to resume more than half the tick range too late; the exact
 condition is `TooLate`.
 */
module Retry {
  import opened Kernel
  import opened KernelInvariants
  import opened System
  import opened Effects
  import opened SystemInvariants
  import opened MutexInvariants
  import opened SystemProof
  import opened Lifecycle
  import opened Timing
  import opened Outcomes

  /** The absolute deadline of a queue call with a finite timeout. */
  function DueOf(pc: Pc): Option<nat> {
    match pc
    case InEnqueue(_, _, _, infinite, due) => if infinite then None else Some(due)
    case InDequeue(_, _, infinite, due) => if infinite then None else Some(due)
    case _ => None
  }

  /** Past the deadline by so much that the remaining wait reads as positive again. */
  predicate TooLate(clock: nat, due: nat) {
    clock > due && (clock - due) % WRAP > HALF
  }

  /** The wait of a queue call ends at the deadline of the call, which is less than half the tick range away. */
  ghost predicate OnTime(s: Sys, t: TaskId, due: nat) {
    && due < s.k.clock + HALF
    && (BlockedIn(s.k, t) ==> Timed(s.k.tcbs[t]) && A(s.k, t).deadline == due)
  }

  /** If `t` is inside a queue call with a finite timeout, it is on time. */
  ghost predicate TaskOnTime(s: Sys, t: TaskId) {
    DueOf(PcOf(s, t)).Some? ==> OnTime(s, t, DueOf(PcOf(s, t)).value)
  }

  /** The deadline of every queue call is less than half the tick range away, or past. */
  ghost predicate DeadlinesNear(s: Sys) {
    forall t :: 0 <= t < |s.pcs| && DueOf(s.pcs[t]).Some? ==> DueOf(s.pcs[t]).value < s.k.clock + HALF
  }

  // ---------------------------------------------------------------- The remaining wait

  lemma Modulo(x: int, e: int)
    ensures (x + e * WRAP) % WRAP == x % WRAP
  {
    var d := x / WRAP;
    assert x + e * WRAP == (d + e) * WRAP + x % WRAP;
  }

  lemma DistanceTo(k: Kern, due: nat)
    requires k.ticks == k.clock % WRAP
    ensures Distance(k, due % WRAP) == (due - k.clock) % WRAP
  {
    var a, b := due / WRAP, k.clock / WRAP;
    assert due % WRAP - k.clock % WRAP == due - k.clock + (b - a) * WRAP;
    Modulo(due - k.clock, b - a);
  }

  /** The loop's test reads the deadline as still ahead exactly if it is, or if it is too late. */
  lemma ExpiredMeans(k: Kern, due: nat)
    requires k.ticks == k.clock % WRAP && due < k.clock + HALF
    ensures Expired(k, due % WRAP, false) <==> !(k.clock < due || TooLate(k.clock, due))
    ensures k.clock < due ==> Distance(k, due % WRAP) == due - k.clock
    ensures TooLate(k.clock, due) ==> Distance(k, due % WRAP) == WRAP - (k.clock - due) % WRAP
  {
    DistanceTo(k, due);
    if k.clock > due {
      var n := k.clock - due;
      assert -n == -(n % WRAP) + (-(n / WRAP)) * WRAP;
      Modulo(-(n % WRAP), -(n / WRAP));
    }
  }

  // ---------------------------------------------------------------- One round of the loop

  /** `k'` is `k` with its running task blocked until `wake`. */
  ghost predicate Reblocked(k: Kern, k': Kern, t: TaskId, wake: nat, infinite: bool) {
    BlockedIn(k', t) && (!infinite ==> Timed(T(k', t)) && A(k', t).deadline == k.clock + Distance(k, wake))
  }

  lemma BlocksUntil(k: Kern, t: TaskId, wake: nat, l: ListId, infinite: bool)
    requires KernInv(k) && k.cur == Task(t) && T(k, t).place.None? && (!infinite ==> wake < WRAP)
    requires !Expired(k, wake, infinite)
    ensures Reblocked(k, Request(BlockCurrent(k, wake, Some(l), infinite), true), t, wake, infinite)
  {
    hide KernInv, BlockCurrent;
    BlockStarts(k, wake, Some(l), infinite);
  }

  lemma WithPcReads(s: Sys, t: TaskId, pc: Pc)
    requires t < |s.pcs|
    ensures WithPc(s, t, pc).pcs == s.pcs[t := pc]
  {
  }

  /** A round of the enqueue loop blocks only if the remaining wait is positive and the queue is full. */
  lemma EnqueueRound(s: Sys, t: TaskId, q: nat, data: seq<Byte>, wake: nat, infinite: bool, due: nat)
    requires KernInv(s.k) && s.k.cur == Task(t) && T(s.k, t).place.None? && t < |s.pcs| && (!infinite ==> wake < WRAP)
    ensures var (s', r) := TryEnqueue(s, t, q, data, wake, infinite, due);
            && (r.Blocks? <==> QueueOf(s, q).count == QueueOf(s, q).capacity && !Expired(s.k, wake, infinite))
            && (if r.Blocks? then PcOf(s', t) == InEnqueue(q, data, wake, infinite, due) && Reblocked(s.k, s'.k, t, wake, infinite)
                else PcOf(s', t) == Free)
  {
    hide KernInv, BlockCurrent, FirstIsHigher, Expired, Request, QueueOf, Push, Pop, Reblocked, WithPc;
    PushPopPc(WithPc(s, t, Free), q, data);
    WithPcReads(s, t, Free);
    WithPcReads(s, t, InEnqueue(q, data, wake, infinite, due));
    if !Expired(s.k, wake, infinite) {
      BlocksUntil(s.k, t, wake, Writers(q), infinite);
    }
  }

  /** A round of the dequeue loop blocks only if the remaining wait is positive and the queue is empty. */
  lemma DequeueRound(s: Sys, t: TaskId, q: nat, wake: nat, infinite: bool, due: nat)
    requires KernInv(s.k) && s.k.cur == Task(t) && T(s.k, t).place.None? && t < |s.pcs| && (!infinite ==> wake < WRAP)
    ensures var (s', r) := TryDequeue(s, t, q, wake, infinite, due);
            && (r.Blocks? <==> QueueOf(s, q).count == 0 && !Expired(s.k, wake, infinite))
            && (if r.Blocks? then PcOf(s', t) == InDequeue(q, wake, infinite, due) && Reblocked(s.k, s'.k, t, wake, infinite)
                else PcOf(s', t) == Free)
  {
    hide KernInv, BlockCurrent, FirstIsHigher, Expired, Request, QueueOf, Push, Pop, Reblocked, WithPc;
    PushPopPc(WithPc(s, t, Free), q, []);
    WithPcReads(s, t, Free);
    WithPcReads(s, t, InDequeue(q, wake, infinite, due));
    if !Expired(s.k, wake, infinite) {
      BlocksUntil(s.k, t, wake, Readers(q), infinite);
    }
  }

  /** A new call blocks only for a timeout below half the range, and then until its own deadline. */
  lemma CallOnTime(s: Sys, t: TaskId, timeout: nat, k': Kern)
    requires KernInv(s.k) && timeout < INFINITE && !Expired(s.k, WakeTick(s.k, timeout), false)
    requires Reblocked(s.k, k', t, WakeTick(s.k, timeout), false)
    ensures 0 < timeout < HALF && A(k', t).deadline == s.k.clock + timeout && Timed(T(k', t))
  {
    hide Linked, Placed, Queued;
    WakeTickDistance(s.k, timeout);
  }

  lemma WakeTickDistance(k: Kern, timeout: nat)
    requires k.ticks < WRAP && timeout < INFINITE
    ensures Distance(k, WakeTick(k, timeout)) == timeout && WakeTick(k, timeout) < WRAP
  {
    if timeout > 0 {
      WakeTickOk(k, timeout);
    }
  }

  lemma QueueCallOnTime(s: Sys, e: Event)
    requires SysInv(s) && Enabled(s, e) && (e.EnqueueCall? || e.DequeueCall?)
    ensures var s' := Step(s, e);
            var t := s.k.cur.id;
            && (e.timeout >= HALF && e.timeout != INFINITE ==> PcOf(s', t).Free?)
            && (DueOf(PcOf(s', t)).Some? ==>
                  DueOf(PcOf(s', t)) == Some(s.k.clock + e.timeout) && e.timeout < HALF
                  && BlockedIn(s'.k, t) && Timed(T(s'.k, t)) && A(s'.k, t).deadline == s.k.clock + e.timeout)
  {
    hide SysInvBut, TryEnqueue, TryDequeue, Expired, Reblocked, WakeTick, QueueOf;
    var t, wake, infinite, due := s.k.cur.id, WakeTick(s.k, e.timeout), e.timeout == INFINITE, s.k.clock + e.timeout;
    KernOf(s);
    UnplacedCaller(s, t, 0, 0, 0);
    var s' := Step(s, e);
    var data := if e.EnqueueCall? then e.data else [];
    if !infinite {
      WakeTickDistance(s.k, e.timeout);
      ExpiredHalf(s.k, wake);
      EnqueueRound(s, t, e.queue, data, wake, infinite, due);
      DequeueRound(s, t, e.queue, wake, infinite, due);
      if Reblocked(s.k, s'.k, t, wake, infinite) && !Expired(s.k, wake, false) {
        CallOnTime(s, t, e.timeout, s'.k);
        ReblockedIs(s.k, s'.k, t, wake);
      }
    } else {
      EnqueueRound(s, t, e.queue, data, wake, infinite, due);
      DequeueRound(s, t, e.queue, wake, infinite, due);
    }
  }

  lemma ExpiredHalf(k: Kern, wake: nat)
    ensures Distance(k, wake) >= HALF ==> Expired(k, wake, false)
  {
  }

  lemma ReblockedIs(k: Kern, k': Kern, t: TaskId, wake: nat)
    requires Reblocked(k, k', t, wake, false)
    ensures BlockedIn(k', t)
  {
  }

  // ---------------------------------------------------------------- Resumption

  /** The queue call of `t` cannot make progress: the queue is full for a writer, empty for a reader. */
  ghost predicate Stuck(s: Sys, pc: Pc) {
    || (pc.InEnqueue? && QueueOf(s, pc.queue).count == QueueOf(s, pc.queue).capacity)
    || (pc.InDequeue? && QueueOf(s, pc.queue).count == 0)
  }

  /** What resuming does to the wait of a queue call. */
  ghost predicate Retried(s: Sys, s': Sys, t: TaskId, due: nat) {
    var again := T(s.k, t).reason == Signaled && Stuck(s, PcOf(s, t)) && (s.k.clock < due || TooLate(s.k.clock, due));
    && (if again then BlockedIn(s'.k, t) && Timed(T(s'.k, t)) && PcOf(s', t) == PcOf(s, t) else PcOf(s', t).Free?)
    && (again ==> (A(s'.k, t).deadline == due <==> !TooLate(s.k.clock, due)))
    && (again && TooLate(s.k.clock, due) ==> A(s'.k, t).deadline == s.k.clock + WRAP - (s.k.clock - due) % WRAP > due)
  }

  lemma RetryRound(s: Sys, t: TaskId)
    requires SysInv(s) && Enabled(s, Resume) && s.k.cur == Task(t) && DueOf(PcOf(s, t)).Some?
    requires DueOf(PcOf(s, t)).value < s.k.clock + HALF
    ensures Retried(s, Step(s, Resume), t, DueOf(PcOf(s, t)).value)
  {
    hide SysInvBut, TryEnqueue, TryDequeue, Expired, TooLate, Distance, QueueOf;
    KernOf(s);
    UnplacedCaller(s, t, 0, 0, 0);
    PcFacts(s, t);
    KernResumed(s, t);
    var pc, due := PcOf(s, t), DueOf(PcOf(s, t)).value;
    var s1 := s.(k := WithReason(s.k, t, NoReason));
    ExpiredMeans(s1.k, due);
    EnqueueRound(s1, t, pc.queue, if pc.InEnqueue? then pc.data else [], due % WRAP, false, due);
    DequeueRound(s1, t, pc.queue, due % WRAP, false, due);
    QueueOfSame(s, s1, pc.queue);
    LateDeadline(s1.k, due);
  }

  lemma LateDeadline(k: Kern, due: nat)
    ensures k.clock > due ==> k.clock + Distance(k, due % WRAP) > due
    ensures k.clock > due ==> (k.clock - due) % WRAP < WRAP
    ensures TooLate(k.clock, due) ==> k.clock > due
    ensures k.clock <= due ==> !TooLate(k.clock, due)
  {
  }

  lemma QueueOfSame(s: Sys, s1: Sys, q: nat)
    requires s1.queues == s.queues
    ensures QueueOf(s1, q) == QueueOf(s, q)
  {
  }

  lemma PcFacts(s: Sys, t: TaskId)
    requires SysInv(s) && t < |s.pcs| && DueOf(PcOf(s, t)).Some?
    ensures |s.k.tcbs| == |s.pcs|
    ensures var pc := s.pcs[t];
            pc.wake == DueOf(pc).value % WRAP && (!Blocked(s.k.tcbs[t]) ==> s.k.tcbs[t].reason != NoReason)
  {
    hide KernInv, SemInv, QueueInvBut, MutexInv;
    assert PcTask(s.pcs[t], s.k.tcbs[t]) && PcObjects(s, s.pcs[t]);
  }

  lemma KernResumed(s: Sys, t: TaskId)
    requires SysInv(s) && t < |s.k.tcbs| && T(s.k, t).place.None?
    ensures var k' := WithReason(s.k, t, NoReason);
            KernInv(k') && k'.cur == s.k.cur && T(k', t).place.None? && k'.clock == s.k.clock
            && k'.ticks == k'.clock % WRAP
  {
    hide Linked, Placed, Queued, SemInv, QueueInvBut, MutexInv, Continuations, DeadlineOrder;
    ResumedKern(s.k, t);
  }

  // ---------------------------------------------------------------- Runs

  /** A queue call never resumes too late after its deadline. */
  ghost predicate Prompt(s: Sys, e: Event) {
    e.Resume? && s.k.cur.Task? && DueOf(PcOf(s, s.k.cur.id)).Some? ==> !TooLate(s.k.clock, DueOf(PcOf(s, s.k.cur.id)).value)
  }

  /** Any other call leaves the caller outside the queue loops. */
  lemma OtherCallPc(s: Sys, e: Event, t: TaskId)
    requires IsTaskCall(e) && s.k.cur == Task(t) && PcOf(s, t).Free? && !e.EnqueueCall? && !e.DequeueCall?
    ensures DueOf(PcOf(Step(s, e), t)).None?
  {
    hide BlockCurrent, Request, WakeTick, GiveToken, Unlock, Inherit, AddHeld, Required;
    if e.SignalCall? {
      SemPc(s, e.sem);
    } else if e.UnlockCall? {
      UnlockOthers(s, t, e.mutex);
    }
  }

  lemma OtherResumePc(s: Sys, t: TaskId)
    requires s.k.cur == Task(t) && DueOf(PcOf(s, t)).None?
    ensures DueOf(PcOf(Step(s, Resume), t)).None?
  {
    hide BlockCurrent, Request, WakeTick, Disinherit, Required, WithReason, Push, Pop, QueueOf, FirstIsHigher;
    if PcOf(s, t).InEnqueue? || PcOf(s, t).InDequeue? {
      PushPopPc(WithPc(s.(k := WithReason(s.k, t, NoReason)), t, Free), PcOf(s, t).queue, if PcOf(s, t).InEnqueue? then PcOf(s, t).data else []);
    }
  }

  lemma OthersOnTime(s: Sys, e: Event, t: TaskId)
    requires SysInv(s) && Enabled(s, e) && t < |s.pcs| && DueOf(s.pcs[t]).Some? && OnTime(s, t, DueOf(s.pcs[t]).value)
    requires s.k.cur == Task(t) ==> !IsTaskCall(e) && !e.Resume?
    ensures PcOf(Step(s, e), t) == s.pcs[t] && OnTime(Step(s, e), t, DueOf(s.pcs[t]).value)
  {
    hide SysInvBut, Step, Enabled, IsTaskCall;
    PcStep(s, e, t);
    PcFacts(s, t);
    StepClock(s, e);
    if Blocked(s.k.tcbs[t]) {
      WaitStep(s, e, t);
    } else {
      ReasonStep(s, e, t);
    }
  }

  lemma OwnOnTime(s: Sys, e: Event, t: TaskId)
    requires SysInv(s) && TaskOnTime(s, t) && Enabled(s, e) && Prompt(s, e) && s.k.cur == Task(t) && (IsTaskCall(e) || e.Resume?)
    ensures TaskOnTime(Step(s, e), t)
  {
    hide SysInvBut, Step, TooLate, Stuck;
    StepClock(s, e);
    if e.Resume? {
      if DueOf(PcOf(s, t)).None? {
        OtherResumePc(s, t);
      } else {
        RetryRound(s, t);
      }
    } else if e.EnqueueCall? || e.DequeueCall? {
      QueueCallOnTime(s, e);
    } else {
      OtherCallPc(s, e, t);
    }
  }

  lemma PcsGrow(s: Sys, e: Event)
    requires SysInv(s) && Enabled(s, e)
    ensures |s.pcs| <= |Step(s, e).pcs| && forall t :: |s.pcs| <= t < |Step(s, e).pcs| ==> Step(s, e).pcs[t].Free?
  {
    hide SysInvBut, Step, ResumeStep;
    if IsTaskCall(e) {
      CallPc(s, e, s.k.cur.id);
    } else if e.Resume? {
      ResumeIs(s);
      ResumePc(s, s.k.cur.id);
    } else {
      OtherPc(s, e);
    }
  }

  lemma OnTimeStep(s: Sys, e: Event, t: TaskId)
    requires SysInv(s) && TaskOnTime(s, t) && Enabled(s, e) && (s.k.cur == Task(t) ==> Prompt(s, e))
    ensures TaskOnTime(Step(s, e), t)
  {
    hide SysInvBut, Step, Prompt, OnTime, Enabled, IsTaskCall;
    PcsGrow(s, e);
    if t < |s.pcs| {
      if s.k.cur == Task(t) && (IsTaskCall(e) || e.Resume?) {
        OwnOnTime(s, e, t);
      } else {
        PcStep(s, e, t);
        if DueOf(s.pcs[t]).Some? {
          OthersOnTime(s, e, t);
        }
      }
    }
  }

  /**
   From a state outside the call on, and as long as `t` itself never resumes too late, every wait of its queue
   call ends at exactly the deadline of the call, however often it was woken and whatever other tasks do.
   */
  lemma {:induction false} RetryKeepsDeadline(ss: seq<Sys>, es: seq<Event>, b: nat, j: nat, t: TaskId)
    requires Run(ss, es) && b <= j < |ss| && DueOf(PcOf(ss[b], t)).None?
    requires forall x :: b <= x < j && ss[x].k.cur == Task(t) ==> Prompt(ss[x], es[x])
    ensures TaskOnTime(ss[j], t)
  {
    hide Step, Enabled, SysInvBut, Prompt, OnTime, Initial;
    if j == b {
    } else {
      RetryKeepsDeadline(ss, es, b, j - 1, t);
      Always(ss, es, j - 1);
      OnTimeStep(ss[j - 1], es[j - 1], t);
    }
  }

  // ---------------------------------------------------------------- The exact condition

  lemma NearStep(s: Sys, e: Event)
    requires SysInv(s) && DeadlinesNear(s) && Enabled(s, e)
    ensures DeadlinesNear(Step(s, e))
  {
    hide SysInvBut, Step, Enabled, IsTaskCall;
    var s' := Step(s, e);
    StepClock(s, e);
    PcsGrow(s, e);
    forall t | 0 <= t < |s'.pcs| && DueOf(s'.pcs[t]).Some? ensures DueOf(s'.pcs[t]).value < s'.k.clock + HALF {
      if s.k.cur == Task(t) && (IsTaskCall(e) || e.Resume?) {
        OwnNear(s, e, t);
      } else {
        PcStep(s, e, t);
      }
    }
  }

  lemma OwnNear(s: Sys, e: Event, t: TaskId)
    requires SysInv(s) && DeadlinesNear(s) && Enabled(s, e) && s.k.cur == Task(t) && (IsTaskCall(e) || e.Resume?)
    ensures DueOf(PcOf(Step(s, e), t)).Some? ==> DueOf(PcOf(Step(s, e), t)).value < s.k.clock + HALF
  {
    hide SysInvBut, Step, TooLate, Stuck;
    if e.Resume? {
      if DueOf(PcOf(s, t)).None? {
        OtherResumePc(s, t);
      } else {
        RetryRound(s, t);
      }
    } else if e.EnqueueCall? || e.DequeueCall? {
      QueueCallOnTime(s, e);
    } else {
      OtherCallPc(s, e, t);
    }
  }

  /** In every state of every run, also after late resumptions. */
  lemma {:induction false} AlwaysNear(ss: seq<Sys>, es: seq<Event>, i: nat)
    requires Run(ss, es) && i < |ss|
    ensures DeadlinesNear(ss[i])
  {
    hide Step, Enabled, SysInvBut;
    if i == 0 {
    } else {
      AlwaysNear(ss, es, i - 1);
      Always(ss, es, i - 1);
      NearStep(ss[i - 1], es[i - 1]);
    }
  }

  /**
   In every run: a queue call that resumes waits again exactly if it was signalled, still cannot proceed, and its
   deadline is ahead or it is too late; and the new wait ends at the original deadline exactly if it is not too late.
   */
  lemma RetryExact(ss: seq<Sys>, es: seq<Event>, i: nat, t: TaskId)
    requires Run(ss, es) && i < |es| && es[i].Resume? && ss[i].k.cur == Task(t) && DueOf(PcOf(ss[i], t)).Some?
    ensures Retried(ss[i], ss[i + 1], t, DueOf(PcOf(ss[i], t)).value)
  {
    hide Step, Enabled, SysInvBut, Initial, Retried;
    Always(ss, es, i);
    AlwaysNear(ss, es, i);
    RetryRound(ss[i], t);
  }
}
