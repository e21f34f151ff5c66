/**
 A run in which a waiter comes to outrank the owner it waits for. Task 0 owns mutex 0; task 1
 owns mutex 1 and waits for mutex 0, which has raised task 0 to level 1; then task 2 of level
 2 waits for mutex 1. That raises task 1 to level 2, and the raise stops there.
 */
module Outrunning {
  import opened Sequences
  import opened Kernel
  import opened SchedulerSteps
  import opened System
  import opened Effects
  import opened SystemInvariants
  import opened SystemProof
  import opened Chains
  import opened Scenes

  /** A scene of this run: three levels, the wait lists of both mutexes, and their owners. */
  function View(tcbs: seq<Tcb>, cur: Cur, pending: bool, bitmap: set<nat>, ready0: seq<TaskId>, ready1: seq<TaskId>, ready2: seq<TaskId>,
                wait0: seq<TaskId>, owner0: Option<TaskId>, owner1: Option<TaskId>, pcs: seq<Pc>): Scene {
    Scene(3, tcbs, cur, pending, bitmap, ready0, ready1, ready2, Lockers(0), wait0, Lockers(1), [], map[0 := owner0, 1 := owner1], pcs)
  }

  const LOW := Some(Ready(0))
  const MIDDLE := Some(Ready(1))
  const HIGH := Some(Ready(2))
  const MIDDLE_STUCK := Stuck(1, 1, Lockers(0))

  const S0 := View([], NoTask, false, {}, [], [], [], [], None, None, [])
  const S1 := View([Job(0, LOW, 0)], NoTask, false, {0}, [0], [], [], [], None, None, [Free])
  const S2 := View([Job(0, None, 0)], Task(0), false, {}, [], [], [], [], None, None, [Free])
  const S3 := View([Job(0, None, 1)], Task(0), false, {}, [], [], [], [], Some(0), None, [Free])
  const S4 := View([Job(0, None, 1), Job(1, MIDDLE, 0)], Task(0), true, {1}, [], [1], [], [], Some(0), None, [Free, Free])
  const S5 := View([Job(0, LOW, 1), Job(1, None, 0)], Task(1), false, {0}, [0], [], [], [], Some(0), None, [Free, Free])
  const S6 := View([Job(0, LOW, 1), Job(1, None, 1)], Task(1), false, {0}, [0], [], [], [], Some(0), Some(1), [Free, Free])
  const S7 := View([Raised(1, MIDDLE, 1), MIDDLE_STUCK], Task(1), true, {1}, [], [0], [], [1], Some(0), Some(1), [Free, InLock(0)])
  const S8 := View([Raised(1, None, 1), MIDDLE_STUCK], Task(0), false, {}, [], [], [], [1], Some(0), Some(1), [Free, InLock(0)])
  const S9 := View([Raised(1, None, 1), MIDDLE_STUCK, Job(2, HIGH, 0)], Task(0), true, {2}, [], [], [2], [1], Some(0), Some(1), [Free, InLock(0), Free])
  const S10 := View([Raised(1, MIDDLE, 1), MIDDLE_STUCK, Job(2, None, 0)], Task(2), false, {1}, [], [0], [], [1], Some(0), Some(1), [Free, InLock(0), Free])

  // The same between the requeue and the pick of a switch, or between two parts of a call
  const S4_REQUEUED := View([Job(0, LOW, 1), Job(1, MIDDLE, 0)], Task(0), false, {0, 1}, [0], [1], [], [], Some(0), None, [Free, Free])
  const S6_BLOCKED := View([Job(0, LOW, 1), MIDDLE_STUCK], Task(1), false, {0}, [0], [], [], [1], Some(0), Some(1), [Free, Free])
  const S7_TAKEN := View([Raised(1, MIDDLE, 1), MIDDLE_STUCK], Task(1), false, {1}, [], [0], [], [1], Some(0), Some(1), [Free, InLock(0)])
  const S9_REQUEUED := View([Raised(1, MIDDLE, 1), MIDDLE_STUCK, Job(2, HIGH, 0)], Task(0), false, {1, 2}, [], [0], [2], [1], Some(0), Some(1), [Free, InLock(0), Free])

  const SCRIPT: seq<Event> := [
    Create(true, 64, 0), Start, LockCall(0, INFINITE), Create(true, 64, 1), Switch, LockCall(1, INFINITE), LockCall(0, INFINITE),
    Switch, Create(true, 64, 2), Switch, LockCall(1, INFINITE)]

  const SCENES: seq<Scene> := [S0, S1, S2, S3, S4, S5, S6, S7, S8, S9, S10]

  // ---------------------------------------------------------------- The steps

  lemma Creates0(s: Sys)
    requires Shows(s, S0)
    ensures Enabled(s, Create(true, 64, 0)) && Shows(Step(s, Create(true, 64, 0)), S1)
  {
    hide InsertReady;
    Legal(s, S0, Create(true, 64, 0));
  }

  lemma Starts(s: Sys)
    requires Shows(s, S1)
    ensures Enabled(s, Start) && Shows(Step(s, Start), S2)
  {
    hide Step, ClearIfEmpty, UnlinkState;
    StartsWith(s, 0, 0);
    Leaves(s.k, S1, 0, 0);
    Legal(s, S1, Start);
  }

  lemma Locks0(s: Sys)
    requires Shows(s, S2)
    ensures Enabled(s, LockCall(0, INFINITE)) && Shows(Step(s, LockCall(0, INFINITE)), S3)
  {
    hide BlockCurrent, Inherit, Required;
    Legal(s, S2, LockCall(0, INFINITE));
  }

  lemma Creates1(s: Sys)
    requires Shows(s, S3)
    ensures Enabled(s, Create(true, 64, 1)) && Shows(Step(s, Create(true, 64, 1)), S4)
  {
    hide InsertReady;
    Legal(s, S3, Create(true, 64, 1));
  }

  lemma Requeues0(k: Kern)
    requires KernShows(k, S4)
    ensures KernShows(Requeue(k).(pending := false), S4_REQUEUED)
  {
  }

  lemma SwitchesTo1Scene()
    ensures S5 == Ran(S4_REQUEUED, 1, 1)
  {
  }

  lemma SwitchesTo1(s: Sys)
    requires Shows(s, S4)
    ensures Enabled(s, Switch) && Shows(Step(s, Switch), S5)
  {
    hide Step, Requeue, Ran;
    var k1 := Requeue(s.k).(pending := false);
    Requeues0(s.k);
    SwitchesTo1Scene();
    SwitchShows(s, k1, S4, S4_REQUEUED, 1, 1, S5);
    Legal(s, S4, Switch);
  }

  lemma Locks1(s: Sys)
    requires Shows(s, S5)
    ensures Enabled(s, LockCall(1, INFINITE)) && Shows(Step(s, LockCall(1, INFINITE)), S6)
  {
    hide BlockCurrent, Inherit, Required;
    Legal(s, S5, LockCall(1, INFINITE));
  }

  lemma Blocks1(k: Kern)
    requires KernShows(k, S6)
    ensures KernShows(BlockCurrent(k, INFINITE, Some(Lockers(0)), true), S6_BLOCKED)
  {
  }

  lemma Raises0(k: Kern)
    requires KernShows(k, S6_BLOCKED)
    ensures Required(k, 0, Lockers(0)) == 1 && KernShows(Request(Inherit(k, 0, 1), true), S7)
  {
    hide InsertAt, LeaveReady, Requalify, InsertReady, Remove;
    RemoveHead(L(k, Ready(0)));
  }

  lemma Waits0(s: Sys)
    requires Shows(s, S6)
    ensures Enabled(s, LockCall(0, INFINITE)) && Shows(Step(s, LockCall(0, INFINITE)), S7)
  {
    hide Step, BlockCurrent, Required, Inherit, Request;
    MutexCallIs(s, 0, INFINITE);
    Blocks1(s.k);
    Raises0(BlockCurrent(s.k, INFINITE, Some(Lockers(0)), true));
    Legal(s, S6, LockCall(0, INFINITE));
  }

  lemma SwitchesTo0Scene()
    ensures S8 == Ran(S7_TAKEN, 0, 1)
  {
  }

  lemma SwitchesTo0(s: Sys)
    requires Shows(s, S7)
    ensures Enabled(s, Switch) && Shows(Step(s, Switch), S8)
  {
    hide Step, Ran;
    var k1 := s.k.(pending := false);
    SwitchesTo0Scene();
    SwitchShows(s, k1, S7, S7_TAKEN, 0, 1, S8);
    Legal(s, S7, Switch);
  }

  lemma Creates2(s: Sys)
    requires Shows(s, S8)
    ensures Enabled(s, Create(true, 64, 2)) && Shows(Step(s, Create(true, 64, 2)), S9)
  {
    hide InsertReady;
    Legal(s, S8, Create(true, 64, 2));
  }

  lemma RequeuesRaised(k: Kern)
    requires KernShows(k, S9)
    ensures KernShows(Requeue(k).(pending := false), S9_REQUEUED)
  {
  }

  lemma SwitchesTo2Scene()
    ensures S10 == Ran(S9_REQUEUED, 2, 2)
  {
  }

  lemma SwitchesTo2(s: Sys)
    requires Shows(s, S9)
    ensures Enabled(s, Switch) && Shows(Step(s, Switch), S10)
  {
    hide Step, Requeue, Ran;
    var k1 := Requeue(s.k).(pending := false);
    RequeuesRaised(s.k);
    SwitchesTo2Scene();
    SwitchShows(s, k1, S9, S9_REQUEUED, 2, 2, S10);
    Legal(s, S9, Switch);
  }

  // ---------------------------------------------------------------- The run

  lemma NextScene(s: Sys, i: nat)
    requires i < 10 && Shows(s, SCENES[i])
    ensures Enabled(s, SCRIPT[i]) && Shows(Step(s, SCRIPT[i]), SCENES[i + 1])
  {
    hide Step, Shows, Enabled;
    match i
    case 0 => Creates0(s);
    case 1 => Starts(s);
    case 2 => Locks0(s);
    case 3 => Creates1(s);
    case 4 => SwitchesTo1(s);
    case 5 => Locks1(s);
    case 6 => Waits0(s);
    case 7 => SwitchesTo0(s);
    case 8 => Creates2(s);
    case 9 => SwitchesTo2(s);
  }

  const INITIAL := Blank(3, map[0 := None, 1 := None], map[], map[], map[], map[])

  lemma {:induction false} PlayShows(n: nat)
    requires n <= 10
    ensures Shows(Play(INITIAL, SCRIPT, n), SCENES[n])
  {
    hide Step, Enabled;
    if n == 0 {
    } else {
      PlayShows(n - 1);
      NextScene(Play(INITIAL, SCRIPT, n - 1), n - 1);
    }
  }

  lemma PlayStarts()
    ensures Initial(INITIAL)
  {
  }

  /** Only task 1 waits, its owner is level with it, and task 2 is about to wait for task 1. */
  lemma SceneOutruns(s: Sys)
    requires Shows(s, S10)
    ensures Enabled(s, LockCall(1, INFINITE)) && Covered(s) && Outruns(s, 1, INFINITE)
  {
    forall w: TaskId, m: nat | Waiting(s, w, Lockers(m)) ensures CoveredAt(s, w, m) {
      assert w == 1 && m == 0;
    }
  }

  /** A legal run whose last lock call leaves a waiter above the owner of the mutex it waits for. */
  lemma LockOutruns() returns (ss: seq<Sys>)
    ensures Run(ss, SCRIPT) && SCRIPT[10] == LockCall(1, INFINITE)
    ensures Covered(ss[10]) && Outruns(ss[10], 1, INFINITE) && !Covered(ss[11])
  {
    hide Step, Enabled, Initial, Shows, Covered, Outruns, SysInvBut;
    ss := States(INITIAL, SCRIPT);
    PlayStarts();
    forall i | 0 <= i < |SCRIPT| ensures Enabled(Play(INITIAL, SCRIPT, i), SCRIPT[i]) {
      PlayShows(i);
      if i < 10 {
        NextScene(Play(INITIAL, SCRIPT, i), i);
      } else {
        SceneOutruns(Play(INITIAL, SCRIPT, i));
      }
    }
    PlayIsRun(INITIAL, SCRIPT);
    PlayShows(10);
    SceneOutruns(ss[10]);
    Always(ss, SCRIPT, 10);
    CoveredStepIff(ss[10], SCRIPT[10]);
  }
}
