/**
 A run in which an unlock leaves a ready task of higher priority waiting although no switch
 has been requested. Task 0 holds both mutexes, task 1 (same priority) waits for mutex 0 and
 task 2 (higher) for mutex 1. Giving up mutex 1 readies task 2 but leaves task 0 at its
 inherited priority; giving up mutex 0 then lowers task 0 and hands over to task 1, which
 does not outrank it.
 */
module Stranding {
  import opened Sequences
  import opened Kernel
  import opened SchedulerSteps
  import opened System
  import opened Effects
  import opened SystemProof
  import opened Preemption
  import opened Scenes

  /** A scene of this run: two levels, the wait lists of both mutexes, and their owners. */
  function View(tcbs: seq<Tcb>, cur: Cur, pending: bool, bitmap: set<nat>, ready0: seq<TaskId>, ready1: seq<TaskId>,
                wait0: seq<TaskId>, wait1: seq<TaskId>, owner0: Option<TaskId>, owner1: Option<TaskId>, pcs: seq<Pc>): Scene {
    Scene(2, tcbs, cur, pending, bitmap, ready0, ready1, [], Lockers(0), wait0, Lockers(1), wait1, map[0 := owner0, 1 := owner1], pcs)
  }

  /** Task 2 once it has been handed its mutex. */
  const WOKEN := Tcb(1, 1, 1, Some(Ready(1)), INFINITE, None, 1, Signaled)
  const LOW := Some(Ready(0))
  const HIGH := Some(Ready(1))

  const S0 := View([], NoTask, false, {}, [], [], [], [], None, None, [])
  const S1 := View([Job(0, LOW, 0)], NoTask, false, {0}, [0], [], [], [], None, None, [Free])
  const S2 := View([Job(0, LOW, 0), Job(0, LOW, 0)], NoTask, false, {0}, [0, 1], [], [], [], None, None, [Free, Free])
  const S3 := View([Job(0, None, 0), Job(0, LOW, 0)], Task(0), false, {0}, [1], [], [], [], None, None, [Free, Free])
  const S4 := View([Job(0, None, 1), Job(0, LOW, 0)], Task(0), false, {0}, [1], [], [], [], Some(0), None, [Free, Free])
  const S5 := View([Job(0, None, 2), Job(0, LOW, 0)], Task(0), false, {0}, [1], [], [], [], Some(0), Some(0), [Free, Free])
  const S6 := View([Job(0, None, 2), Job(0, LOW, 0)], Task(0), true, {0}, [1], [], [], [], Some(0), Some(0), [Free, Free])
  const S7 := View([Job(0, LOW, 2), Job(0, None, 0)], Task(1), false, {0}, [0], [], [], [], Some(0), Some(0), [Free, Free])
  const S8 := View([Job(0, LOW, 2), Stuck(0, 0, Lockers(0))], Task(1), true, {0}, [0], [], [1], [], Some(0), Some(0), [Free, InLock(0)])
  const S9 := View([Job(0, None, 2), Stuck(0, 0, Lockers(0))], Task(0), false, {}, [], [], [1], [], Some(0), Some(0), [Free, InLock(0)])
  const S10 := View([Job(0, None, 2), Stuck(0, 0, Lockers(0)), Job(1, HIGH, 0)], Task(0), true, {1}, [], [2], [1], [], Some(0), Some(0), [Free, InLock(0), Free])
  const S11 := View([Job(0, LOW, 2), Stuck(0, 0, Lockers(0)), Job(1, None, 0)], Task(2), false, {0}, [0], [], [1], [], Some(0), Some(0), [Free, InLock(0), Free])
  const S12 := View([Raised(1, HIGH, 2), Stuck(0, 0, Lockers(0)), Stuck(1, 0, Lockers(1))], Task(2), true, {1}, [], [0], [1], [2], Some(0), Some(0), [Free, InLock(0), InLock(1)])
  const S13 := View([Raised(1, None, 2), Stuck(0, 0, Lockers(0)), Stuck(1, 0, Lockers(1))], Task(0), false, {}, [], [], [1], [2], Some(0), Some(0), [Free, InLock(0), InLock(1)])
  const S14 := View([Raised(1, None, 1), Stuck(0, 0, Lockers(0)), WOKEN], Task(0), false, {1}, [], [2], [1], [], Some(0), Some(2), [Free, InLock(0), InLock(1)])

  // The same between the requeue and the pick of a switch, or between two parts of a call
  const S6_REQUEUED := View([Job(0, LOW, 2), Job(0, LOW, 0)], Task(0), false, {0}, [1, 0], [], [], [], Some(0), Some(0), [Free, Free])
  const S7_BLOCKED := View([Job(0, LOW, 2), Stuck(0, 0, Lockers(0))], Task(1), false, {0}, [0], [], [1], [], Some(0), Some(0), [Free, Free])
  const S8_TAKEN := View([Job(0, LOW, 2), Stuck(0, 0, Lockers(0))], Task(1), false, {0}, [0], [], [1], [], Some(0), Some(0), [Free, InLock(0)])
  const S10_REQUEUED := View([Job(0, LOW, 2), Stuck(0, 0, Lockers(0)), Job(1, HIGH, 0)], Task(0), false, {0, 1}, [0], [2], [1], [], Some(0), Some(0), [Free, InLock(0), Free])
  const S11_BLOCKED := View([Job(0, LOW, 2), Stuck(0, 0, Lockers(0)), Stuck(1, 0, Lockers(1))], Task(2), false, {0}, [0], [], [1], [2], Some(0), Some(0), [Free, InLock(0), Free])
  const S12_TAKEN := View([Raised(1, HIGH, 2), Stuck(0, 0, Lockers(0)), Stuck(1, 0, Lockers(1))], Task(2), false, {1}, [], [0], [1], [2], Some(0), Some(0), [Free, InLock(0), InLock(1)])
  const S13_RELEASED := View([Raised(1, None, 1), Stuck(0, 0, Lockers(0)), Stuck(1, 0, Lockers(1))], Task(0), false, {}, [], [], [1], [2], Some(0), Some(0), [Free, InLock(0), InLock(1)])

  const SCRIPT: seq<Event> := [
    Create(true, 64, 0), Create(true, 64, 0), Start, LockCall(0, INFINITE), LockCall(1, INFINITE), Yield, Switch,
    LockCall(0, INFINITE), Switch, Create(true, 64, 1), Switch, LockCall(1, INFINITE), Switch, UnlockCall(1), UnlockCall(0)]

  const SCENES: seq<Scene> := [S0, S1, S2, S3, S4, S5, S6, S7, S8, S9, S10, S11, S12, S13, S14]

  // ---------------------------------------------------------------- The steps

  lemma Creates0(s: Sys)
    requires Shows(s, S0)
    ensures Enabled(s, Create(true, 64, 0)) && Shows(Step(s, Create(true, 64, 0)), S1)
  {
    hide InsertReady;
    Legal(s, S0, Create(true, 64, 0));
  }

  lemma Creates1(s: Sys)
    requires Shows(s, S1)
    ensures Enabled(s, Create(true, 64, 0)) && Shows(Step(s, Create(true, 64, 0)), S2)
  {
    hide InsertReady;
    Legal(s, S1, Create(true, 64, 0));
  }

  lemma Starts(s: Sys)
    requires Shows(s, S2)
    ensures Enabled(s, Start) && Shows(Step(s, Start), S3)
  {
    hide Step, ClearIfEmpty, UnlinkState;
    StartsWith(s, 0, 0);
    Leaves(s.k, S2, 0, 0);
    Legal(s, S2, Start);
  }

  lemma Locks0(s: Sys)
    requires Shows(s, S3)
    ensures Enabled(s, LockCall(0, INFINITE)) && Shows(Step(s, LockCall(0, INFINITE)), S4)
  {
    Legal(s, S3, LockCall(0, INFINITE));
  }

  lemma Locks1(s: Sys)
    requires Shows(s, S4)
    ensures Enabled(s, LockCall(1, INFINITE)) && Shows(Step(s, LockCall(1, INFINITE)), S5)
  {
    Legal(s, S4, LockCall(1, INFINITE));
  }

  lemma Yields(s: Sys)
    requires Shows(s, S5)
    ensures Enabled(s, Yield) && Shows(Step(s, Yield), S6)
  {
    Legal(s, S5, Yield);
  }

  lemma RequeuesBehind(k: Kern)
    requires KernShows(k, S6)
    ensures KernShows(Requeue(k).(pending := false), S6_REQUEUED)
  {
  }

  lemma SwitchesTo1Scene()
    ensures S7 == Ran(S6_REQUEUED, 1, 0)
  {
  }

  lemma SwitchesTo1(s: Sys)
    requires Shows(s, S6)
    ensures Enabled(s, Switch) && Shows(Step(s, Switch), S7)
  {
    hide Step, Requeue, Ran;
    var k1 := Requeue(s.k).(pending := false);
    RequeuesBehind(s.k);
    SwitchesTo1Scene();
    SwitchShows(s, k1, S6, S6_REQUEUED, 1, 0, S7);
    Legal(s, S6, Switch);
  }

  lemma Blocks1(k: Kern)
    requires KernShows(k, S7)
    ensures KernShows(BlockCurrent(k, INFINITE, Some(Lockers(0)), true), S7_BLOCKED)
  {
  }

  lemma Waits0(s: Sys)
    requires Shows(s, S7)
    ensures Enabled(s, LockCall(0, INFINITE)) && Shows(Step(s, LockCall(0, INFINITE)), S8)
  {
    hide Step, BlockCurrent, SetEffective;
    MutexCallIs(s, 0, INFINITE);
    Blocks1(s.k);
    Legal(s, S7, LockCall(0, INFINITE));
  }

  lemma SwitchesBackScene()
    ensures S9 == Ran(S8_TAKEN, 0, 0)
  {
  }

  lemma SwitchesBack(s: Sys)
    requires Shows(s, S8)
    ensures Enabled(s, Switch) && Shows(Step(s, Switch), S9)
  {
    hide Step, Ran;
    var k1 := s.k.(pending := false);
    SwitchesBackScene();
    SwitchShows(s, k1, S8, S8_TAKEN, 0, 0, S9);
    Legal(s, S8, Switch);
  }

  lemma Creates2(s: Sys)
    requires Shows(s, S9)
    ensures Enabled(s, Create(true, 64, 1)) && Shows(Step(s, Create(true, 64, 1)), S10)
  {
    hide InsertReady;
    Legal(s, S9, Create(true, 64, 1));
  }

  lemma Requeues0(k: Kern)
    requires KernShows(k, S10)
    ensures KernShows(Requeue(k).(pending := false), S10_REQUEUED)
  {
  }

  lemma SwitchesTo2Scene()
    ensures S11 == Ran(S10_REQUEUED, 2, 1)
  {
  }

  lemma SwitchesTo2(s: Sys)
    requires Shows(s, S10)
    ensures Enabled(s, Switch) && Shows(Step(s, Switch), S11)
  {
    hide Step, Requeue, Ran;
    var k1 := Requeue(s.k).(pending := false);
    Requeues0(s.k);
    SwitchesTo2Scene();
    SwitchShows(s, k1, S10, S10_REQUEUED, 2, 1, S11);
    Legal(s, S10, Switch);
  }

  lemma Blocks2(k: Kern)
    requires KernShows(k, S11)
    ensures KernShows(BlockCurrent(k, INFINITE, Some(Lockers(1)), true), S11_BLOCKED)
  {
  }

  lemma Raises0(k: Kern)
    requires KernShows(k, S11_BLOCKED)
    ensures Required(k, 0, Lockers(1)) == 1 && KernShows(Request(Inherit(k, 0, 1), true), S12)
  {
    hide InsertAt, LeaveReady, Requalify, InsertReady, Remove;
    RemoveHead(L(k, Ready(0)));
  }

  lemma Waits1(s: Sys)
    requires Shows(s, S11)
    ensures Enabled(s, LockCall(1, INFINITE)) && Shows(Step(s, LockCall(1, INFINITE)), S12)
  {
    hide Step, BlockCurrent, Required, Inherit, Request;
    MutexCallIs(s, 1, INFINITE);
    Blocks2(s.k);
    Raises0(BlockCurrent(s.k, INFINITE, Some(Lockers(1)), true));
    Legal(s, S11, LockCall(1, INFINITE));
  }

  lemma SwitchesTo0Scene()
    ensures S13 == Ran(S12_TAKEN, 0, 1)
  {
  }

  lemma SwitchesTo0(s: Sys)
    requires Shows(s, S12)
    ensures Enabled(s, Switch) && Shows(Step(s, Switch), S13)
  {
    hide Step, Ran;
    var k1 := s.k.(pending := false);
    SwitchesTo0Scene();
    SwitchShows(s, k1, S12, S12_TAKEN, 0, 1, S13);
    Legal(s, S12, Switch);
  }

  lemma Releases1(k: Kern)
    requires KernShows(k, S13)
    ensures KernShows(Relinquish(DropHeld(k, 0), 0), S13_RELEASED)
  {
  }

  lemma Hands1(k: Kern)
    requires KernShows(k, S13_RELEASED)
    ensures KernShows(AddHeld(Unblock(k, 2, Signaled), 2), S14)
  {
    hide UnlinkState, UnlinkEvent, InsertReady, Remove;
    RemoveHead(L(k, Lockers(1)));
  }

  lemma Unlocks1(s: Sys)
    requires Shows(s, S13)
    ensures Enabled(s, UnlockCall(1)) && Shows(Step(s, UnlockCall(1)), S14)
  {
    hide Step, Relinquish, DropHeld, AddHeld, Unblock, Inherit, Required;
    MutexCallIs(s, 1, 0);
    Releases1(s.k);
    Hands1(Relinquish(DropHeld(s.k, 0), 0));
    Legal(s, S13, UnlockCall(1));
  }

  // ---------------------------------------------------------------- The run

  lemma NextScene(s: Sys, i: nat)
    requires i < 14 && Shows(s, SCENES[i])
    ensures Enabled(s, SCRIPT[i]) && Shows(Step(s, SCRIPT[i]), SCENES[i + 1])
  {
    hide Step, Shows, Enabled;
    match i
    case 0 => Creates0(s);
    case 1 => Creates1(s);
    case 2 => Starts(s);
    case 3 => Locks0(s);
    case 4 => Locks1(s);
    case 5 => Yields(s);
    case 6 => SwitchesTo1(s);
    case 7 => Waits0(s);
    case 8 => SwitchesBack(s);
    case 9 => Creates2(s);
    case 10 => SwitchesTo2(s);
    case 11 => Waits1(s);
    case 12 => SwitchesTo0(s);
    case 13 => Unlocks1(s);
  }

  const INITIAL := Blank(2, map[0 := None, 1 := None], map[], map[], map[], map[])

  lemma {:induction false} PlayShows(n: nat)
    requires n <= 14
    ensures Shows(Play(INITIAL, SCRIPT, n), SCENES[n])
  {
    hide Step, Enabled;
    if n == 0 {
    } else {
      PlayShows(n - 1);
      NextScene(Play(INITIAL, SCRIPT, n - 1), n - 1);
    }
  }

  lemma PlayStarts()
    ensures Initial(INITIAL)
  {
  }

  lemma SceneStrands(s: Sys)
    requires Shows(s, S14)
    ensures Enabled(s, UnlockCall(0)) && Calm(s.k) && Strands(s, 0)
  {
    assert ReadyIn(s.k, 2);
  }

  /** A legal run whose last unlock is the exception: task 2 is ready above the running task and nobody asked for a switch. */
  lemma UnlockStrands() returns (ss: seq<Sys>)
    ensures Run(ss, SCRIPT) && SCRIPT[14] == UnlockCall(0)
    ensures Safe(ss[14].k) && Strands(ss[14], 0) && !Safe(ss[15].k)
  {
    hide Step, Enabled, Initial, Shows, Strands, SysInvBut, Calm;
    ss := States(INITIAL, SCRIPT);
    PlayStarts();
    forall i | 0 <= i < |SCRIPT| ensures Enabled(Play(INITIAL, SCRIPT, i), SCRIPT[i]) {
      PlayShows(i);
      if i < 14 {
        NextScene(Play(INITIAL, SCRIPT, i), i);
      } else {
        SceneStrands(Play(INITIAL, SCRIPT, i));
      }
    }
    PlayIsRun(INITIAL, SCRIPT);
    PlayShows(14);
    SceneStrands(ss[14]);
    Always(ss, SCRIPT, 14);
    UnlockSafeIff(ss[14], 0);
  }
}
