/**
 A run in which a queue call waits past its deadline. A writer with a timeout of 5 is woken
 in time, but the slot is taken again and a task of higher priority keeps the processor for
 half the tick range. When the writer runs again its deadline looks like a future one.
 */
module LateRetry {
  import opened Sequences
  import opened Kernel
  import opened KernelInvariants
  import opened SchedulerSteps
  import opened System
  import opened SystemProof
  import opened Lifecycle
  import opened Retry
  import opened Scenes

  /** A scene of this run: two levels, the writers of queue 0 and the takers of semaphore 0. */
  function View(tcbs: seq<Tcb>, cur: Cur, pending: bool, bitmap: set<nat>, ready0: seq<TaskId>, ready1: seq<TaskId>,
                writers: seq<TaskId>, takers: seq<TaskId>, pcs: seq<Pc>): Scene {
    Scene(2, tcbs, cur, pending, bitmap, ready0, ready1, [], Writers(0), writers, Takers(0), takers, map[], pcs)
  }

  const LOW := Some(Ready(0))
  const HIGH := Some(Ready(1))

  /** The high task while it waits for the semaphore, when it has been given it, when it runs on, and when it sleeps for good. */
  const TAKING := Scenes.Stuck(1, 0, Takers(0))
  const GIVEN := Tcb(1, 1, 0, HIGH, INFINITE, None, 1, Signaled)
  const RUNNING := Tcb(1, 1, 0, None, INFINITE, None, 1, NoReason)
  const ASLEEP := Tcb(1, 1, 0, Some(Suspended), INFINITE, None, 1, NoReason)

  /** The writer while it waits until tick 5, and when it has been signalled. */
  const WAITING := Tcb(0, 0, 0, Some(DelayedA), 5, Some(Writers(0)), 0, NoReason)
  const SIGNALLED := Tcb(0, 0, 0, LOW, 5, None, 0, Signaled)
  const WRITING := InEnqueue(0, [3], 5, false, 5)

  const S0 := View([], NoTask, false, {}, [], [], [], [], [])
  const S1 := View([Job(0, LOW, 0)], NoTask, false, {0}, [0], [], [], [], [Free])
  const S2 := View([Job(0, LOW, 0), Job(1, HIGH, 0)], NoTask, false, {0, 1}, [0], [1], [], [], [Free, Free])
  const S3 := View([Job(0, LOW, 0), Job(1, None, 0)], Task(1), false, {0}, [0], [], [], [], [Free, Free])
  const S4 := View([Job(0, LOW, 0), TAKING], Task(1), true, {0}, [0], [], [], [1], [Free, InTake(0)])
  const S5 := View([Job(0, None, 0), TAKING], Task(0), false, {}, [], [], [], [1], [Free, InTake(0)])
  const S7 := View([WAITING, TAKING], Task(0), true, {}, [], [], [0], [1], [WRITING, InTake(0)])
  const S8 := View([WAITING, GIVEN], Task(0), true, {1}, [], [1], [0], [], [WRITING, InTake(0)])
  const S9 := View([WAITING, GIVEN.(place := None)], Task(1), false, {}, [], [], [0], [], [WRITING, InTake(0)])
  const S10 := View([WAITING, RUNNING], Task(1), false, {}, [], [], [0], [], [WRITING, Free])
  const S11 := View([SIGNALLED, RUNNING], Task(1), false, {0}, [0], [], [], [], [WRITING, Free])
  const S13 := View([SIGNALLED, ASLEEP], Task(1), true, {0}, [0], [], [], [], [WRITING, InWait])
  const S14 := View([SIGNALLED.(place := None), ASLEEP], Task(0), false, {}, [], [], [], [], [WRITING, InWait])
  const S4_TAKEN := View([Job(0, LOW, 0), TAKING], Task(1), false, {0}, [0], [], [], [1], [Free, InTake(0)])
  const S8_TAKEN := View([WAITING, GIVEN], Task(0), false, {1}, [], [1], [0], [], [WRITING, InTake(0)])
  const S13_TAKEN := View([SIGNALLED, ASLEEP], Task(1), false, {0}, [0], [], [], [], [WRITING, InWait])

  /** The scene and the time; nobody reads. */
  ghost predicate KernAt(k: Kern, v: Scene, clock: nat) {
    KernShows(k, v) && k.clock == clock && k.ticks == clock % WRAP && k.curIsA && Items(k.lists, Readers(0)) == []
  }

  /** Also the number of items in queue 0, which has room for one; the semaphore is empty. */
  ghost predicate At(s: Sys, v: Scene, count: nat, clock: nat) {
    && KernAt(s.k, v, clock) && s.owners == v.owners && s.pcs == v.pcs
    && 0 in s.queues && s.queues[0].count == count && s.queues[0].capacity == 1 && s.queues[0].itemSize == 1
    && 0 in s.sems && s.sems[0].count == 0
  }

  /** How many ticks pass: the writer resumes one tick more than half the range after its deadline. */
  const DELAY: nat := 5 + HALF + 1

  const OPENING: seq<Event> := [
    Create(true, 64, 0), Create(true, 64, 1), Start, TakeCall(0, INFINITE), Switch, EnqueueFromIsr(0, [7], false), EnqueueCall(0, [3], 5),
    SignalFromIsr(0, true), Switch, Resume, DequeueFromIsr(0, false), EnqueueFromIsr(0, [9], false)]

  // ---------------------------------------------------------------- The opening

  lemma LeavesAt(k: Kern, v: Scene, t: TaskId, p: nat, clock: nat)
    requires KernAt(k, v, clock) && t < |v.tcbs| && p <= 1 && v.tcbs[t].place == Some(Ready(p)) && ReadyOf(v, p) != [] && ReadyOf(v, p)[0] == t
    requires v.idA == Writers(0) && v.idB == Takers(0)
    ensures KernAt(ClearIfEmpty(UnlinkState(k, t), p).(cur := Task(t)), Ran(v, t, p), clock)
  {
    hide UnlinkState, Remove, Ran;
    Leaves(k, v, t, p);
  }

  lemma Creates0(s: Sys)
    requires At(s, S0, 0, 0)
    ensures Enabled(s, Create(true, 64, 0)) && At(Step(s, Create(true, 64, 0)), S1, 0, 0)
  {
    hide InsertReady;
    Legal(s, S0, Create(true, 64, 0));
  }

  lemma Creates1(s: Sys)
    requires At(s, S1, 0, 0)
    ensures Enabled(s, Create(true, 64, 1)) && At(Step(s, Create(true, 64, 1)), S2, 0, 0)
  {
    hide InsertReady;
    Legal(s, S1, Create(true, 64, 1));
  }

  lemma Starts(s: Sys)
    requires At(s, S2, 0, 0)
    ensures Enabled(s, Start) && At(Step(s, Start), S3, 0, 0)
  {
    hide Step, ClearIfEmpty, UnlinkState;
    StartsWith(s, 1, 1);
    LeavesAt(s.k, S2, 1, 1, 0);
    Legal(s, S2, Start);
  }

  lemma Sleeps1(k: Kern)
    requires KernAt(k, S3, 0)
    ensures KernAt(Request(BlockCurrent(k, INFINITE, Some(Takers(0)), true), true), S4, 0)
  {
  }

  lemma Takes(s: Sys)
    requires At(s, S3, 0, 0)
    ensures Enabled(s, TakeCall(0, INFINITE)) && At(Step(s, TakeCall(0, INFINITE)), S4, 0, 0)
  {
    hide BlockCurrent, Request;
    Sleeps1(s.k);
    Legal(s, S3, TakeCall(0, INFINITE));
  }

  lemma SwitchesTo0(s: Sys)
    requires At(s, S4, 0, 0)
    ensures Enabled(s, Switch) && At(Step(s, Switch), S5, 0, 0)
  {
    hide Step, ClearIfEmpty, UnlinkState;
    var k1 := s.k.(pending := false);
    SwitchesTo(s, k1, 0, 0);
    LeavesAt(k1, S4_TAKEN, 0, 0, 0);
    Legal(s, S4, Switch);
  }

  lemma Fills(s: Sys)
    requires At(s, S5, 0, 0)
    ensures Enabled(s, EnqueueFromIsr(0, [7], false)) && At(Step(s, EnqueueFromIsr(0, [7], false)), S5, 1, 0)
  {
    Legal(s, S5, EnqueueFromIsr(0, [7], false));
  }

  lemma Sleeps0(k: Kern)
    requires KernAt(k, S5, 0)
    ensures KernAt(Request(BlockCurrent(k, 5, Some(Writers(0)), false), true), S7, 0)
  {
    hide LinkState, AscendingPosition, WakeValues, Distance;
  }

  lemma Writes(s: Sys)
    requires At(s, S5, 1, 0)
    ensures Enabled(s, EnqueueCall(0, [3], 5)) && At(Step(s, EnqueueCall(0, [3], 5)), S7, 1, 0)
  {
    hide BlockCurrent, Request, Push;
    Sleeps0(s.k);
    Legal(s, S5, EnqueueCall(0, [3], 5));
  }

  lemma Wakes1(k: Kern)
    requires KernAt(k, S7, 0)
    ensures KernAt(Unblock(k, 1, Signaled), S8, 0)
  {
    hide UnlinkState, UnlinkEvent, InsertReady, Remove;
    RemoveHead(L(k, Takers(0)));
  }

  lemma Signals(s: Sys)
    requires At(s, S7, 1, 0)
    ensures Enabled(s, SignalFromIsr(0, true)) && At(Step(s, SignalFromIsr(0, true)), S8, 1, 0)
  {
    hide Unblock, FirstIsHigher;
    Wakes1(s.k);
    Legal(s, S7, SignalFromIsr(0, true));
  }

  lemma SwitchesTo1(s: Sys)
    requires At(s, S8, 1, 0)
    ensures Enabled(s, Switch) && At(Step(s, Switch), S9, 1, 0)
  {
    hide Step, ClearIfEmpty, UnlinkState;
    var k1 := s.k.(pending := false);
    SwitchesTo(s, k1, 1, 1);
    LeavesAt(k1, S8_TAKEN, 1, 1, 0);
    Legal(s, S8, Switch);
  }

  lemma Resumes(s: Sys)
    requires At(s, S9, 1, 0)
    ensures Enabled(s, Resume) && At(Step(s, Resume), S10, 1, 0)
  {
    Legal(s, S9, Resume);
  }

  lemma Wakes0(k: Kern)
    requires KernAt(k, S10, 0)
    ensures KernAt(Unblock(k, 0, Signaled), S11, 0)
  {
    hide UnlinkState, UnlinkEvent, InsertReady, Remove;
    RemoveHead(L(k, Writers(0)));
  }

  lemma Drains(s: Sys)
    requires At(s, S10, 1, 0)
    ensures Enabled(s, DequeueFromIsr(0, false)) && At(Step(s, DequeueFromIsr(0, false)), S11, 0, 0)
  {
    hide Unblock, FirstIsHigher, Ring.Front;
    Wakes0(s.k);
    Legal(s, S10, DequeueFromIsr(0, false));
  }

  lemma Refills(s: Sys)
    requires At(s, S11, 0, 0)
    ensures Enabled(s, EnqueueFromIsr(0, [9], false)) && At(Step(s, EnqueueFromIsr(0, [9], false)), S11, 1, 0)
  {
    Legal(s, S11, EnqueueFromIsr(0, [9], false));
  }

  // ---------------------------------------------------------------- The long wait

  lemma ListedIsDelayed(k: Kern)
    requires Linked(k)
    ensures Items(k.lists, DelayedA) != [] ==> exists t :: 0 <= t < |k.tcbs| && k.tcbs[t].place == Some(DelayedA)
  {
    var xs := Items(k.lists, DelayedA);
    if xs != [] {
      assert xs[0] in xs;
    }
  }

  /** With nobody on a delayed list and nothing ready at the running level, a tick only counts. */
  lemma TickCounts(k: Kern, clock: nat)
    requires KernInv(k) && KernAt(k, S11, clock) && clock + 1 < WRAP
    ensures KernAt(Kernel.Tick(k), S11, clock + 1)
  {
    hide Placed, TimersWithin, Queued;
    var xs := Items(k.lists, DelayedA);
    ListedIsDelayed(k);
    assert xs == [];
    var k1 := Advance(k);
    assert k1 == k.(ticks := clock + 1, clock := clock + 1);
    assert Due(k1) == [];
    assert !RunnableAt(k1, CurEff(k1));
  }

  lemma Ticks(s: Sys, clock: nat)
    requires SysInv(s) && At(s, S11, 1, clock) && clock + 1 < WRAP
    ensures Enabled(s, Event.Tick) && At(Step(s, Event.Tick), S11, 1, clock + 1)
  {
    hide SysInvBut, Kernel.Tick;
    KernOf(s);
    TickCounts(s.k, clock);
    Legal(s, S11, Event.Tick);
  }

  lemma SleepsOn(k: Kern, clock: nat)
    requires KernAt(k, S11, clock)
    ensures KernAt(Request(BlockCurrent(k, INFINITE, None, true), true), S13, clock)
  {
  }

  lemma Rests(s: Sys, clock: nat)
    requires At(s, S11, 1, clock)
    ensures Enabled(s, WaitCall(INFINITE)) && At(Step(s, WaitCall(INFINITE)), S13, 1, clock)
  {
    hide BlockCurrent, Request;
    SleepsOn(s.k, clock);
    Legal(s, S11, WaitCall(INFINITE));
  }

  lemma SwitchesBack(s: Sys, clock: nat)
    requires At(s, S13, 1, clock)
    ensures Enabled(s, Switch) && At(Step(s, Switch), S14, 1, clock)
  {
    hide Step, ClearIfEmpty, UnlinkState;
    var k1 := s.k.(pending := false);
    SwitchesTo(s, k1, 0, 0);
    LeavesAt(k1, S13_TAKEN, 0, 0, clock);
    Legal(s, S13, Switch);
  }

  // ---------------------------------------------------------------- The run

  const LENGTH: nat := 15 + DELAY

  /** The opening, the ticks, and then the high task goes to sleep, the writer is switched to, and resumes. */
  function EventAt(i: nat): Event {
    if i < 12 then OPENING[i]
    else if i < 12 + DELAY then Event.Tick
    else if i == 12 + DELAY then WaitCall(INFINITE)
    else if i == 13 + DELAY then Switch
    else Resume
  }

  ghost function Script(): (es: seq<Event>)
    ensures |es| == LENGTH && forall i :: 0 <= i < LENGTH ==> es[i] == EventAt(i)
  {
    seq(LENGTH, i requires 0 <= i < LENGTH => EventAt(i))
  }

  const OPENING_SCENES: seq<Scene> := [S0, S1, S2, S3, S4, S5, S5, S7, S8, S9, S10, S11, S11]

  ghost predicate Reached(s: Sys, n: nat) {
    if n <= 12 then At(s, OPENING_SCENES[n], if n < 6 || n == 11 then 0 else 1, 0)
    else if n <= 12 + DELAY then At(s, S11, 1, n - 12)
    else At(s, if n == 13 + DELAY then S13 else S14, 1, DELAY)
  }

  lemma OpeningNext(s: Sys, n: nat)
    requires n < 12 && Reached(s, n)
    ensures Enabled(s, OPENING[n]) && Reached(Step(s, OPENING[n]), n + 1)
  {
    hide Step, At, Enabled;
    match n
    case 0 => Creates0(s);
    case 1 => Creates1(s);
    case 2 => Starts(s);
    case 3 => Takes(s);
    case 4 => SwitchesTo0(s);
    case 5 => Fills(s);
    case 6 => Writes(s);
    case 7 => Signals(s);
    case 8 => SwitchesTo1(s);
    case 9 => Resumes(s);
    case 10 => Drains(s);
    case 11 => Refills(s);
  }

  lemma Next(s: Sys, n: nat)
    requires n < 14 + DELAY && SysInv(s) && Reached(s, n)
    ensures Enabled(s, EventAt(n)) && Reached(Step(s, EventAt(n)), n + 1)
  {
    hide Step, At, Enabled, SysInvBut;
    if n < 12 {
      OpeningNext(s, n);
    } else if n < 12 + DELAY {
      AtStart(s, n);
      Ticks(s, n - 12);
    } else if n == 12 + DELAY {
      AtStart(s, n);
      Rests(s, DELAY);
    } else {
      SwitchesBack(s, DELAY);
    }
  }

  /** The opening ends where the ticks begin. */
  lemma AtStart(s: Sys, n: nat)
    requires 12 <= n <= 12 + DELAY && Reached(s, n)
    ensures At(s, S11, 1, n - 12)
  {
    hide At;
  }

  const INITIAL := Blank(2, map[], map[0 := Sem(0, 1)], map[0 := SemLog(0, 0, 0)],
                         map[0 := Ring.Ring(0, 1, 0, 0, 1, [0])], map[0 := QueueLog([], [])])

  lemma Begins()
    ensures Initial(INITIAL)
  {
    hide Ring.Contents, Ring.Valid;
  }

  lemma BeginsAt()
    ensures Reached(INITIAL, 0)
  {
  }

  lemma {:induction false} PlayReaches(n: nat)
    requires n <= 14 + DELAY
    ensures SysInv(Play(INITIAL, Script(), n)) && Reached(Play(INITIAL, Script(), n), n)
    decreases n
  {
    hide Step, Reached, Enabled, SysInvBut, Initial;
    if n == 0 {
      Begins();
      BeginsAt();
      InitialKeeps(INITIAL);
    } else {
      var s := Play(INITIAL, Script(), n - 1);
      PlayReaches(n - 1);
      Next(s, n - 1);
      StepKeeps(s, EventAt(n - 1));
    }
  }

  lemma LastIsLegal(s: Sys)
    requires Reached(s, 14 + DELAY)
    ensures Enabled(s, Resume) && s.k.cur == Task(0) && DueOf(PcOf(s, 0)) == Some(5) && s.k.clock == DELAY
    ensures T(s.k, 0).reason == Signaled && Retry.Stuck(s, PcOf(s, 0))
  {
    Legal(s, S14, Resume);
  }

  lemma AllLegal()
    ensures Run(States(INITIAL, Script()), Script())
  {
    hide Step, Enabled, Initial, Reached, SysInvBut, Retry.Stuck, EventAt;
    var es := Script();
    Begins();
    forall i | 0 <= i < |es| ensures Enabled(Play(INITIAL, es, i), es[i]) {
      PlayReaches(i);
      if i < LENGTH - 1 {
        Next(Play(INITIAL, es, i), i);
      } else {
        LastIsLegal(Play(INITIAL, es, i));
        LastIs();
      }
    }
    PlayIsRun(INITIAL, es);
  }

  lemma LastIs()
    ensures EventAt(LENGTH - 1) == Resume
  {
  }

  /** A legal run whose last step makes the writer wait again, for a full turn of the counter past its deadline. */
  lemma LateRetryOverruns() returns (ss: seq<Sys>)
    ensures Run(ss, Script()) && Script()[LENGTH - 1] == Resume
    ensures var s, s' := ss[LENGTH - 1], ss[LENGTH];
            && s.k.cur == Task(0) && DueOf(PcOf(s, 0)) == Some(5) && TooLate(s.k.clock, 5)
            && BlockedIn(s'.k, 0) && PcOf(s', 0) == PcOf(s, 0) && A(s'.k, 0).deadline == 5 + WRAP
  {
    hide Step, Enabled, Initial, Reached, SysInvBut, Retry.Stuck, EventAt, Script;
    var es := Script();
    ss := States(INITIAL, es);
    AllLegal();
    LastIs();
    PlayReaches(LENGTH - 1);
    LastIsLegal(ss[LENGTH - 1]);
    RetryExact(ss, es, LENGTH - 1, 0);
  }
}
