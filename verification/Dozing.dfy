/**
 A run in which idle runs on over a ready task. The only task, of level 0, waits for a
 semaphore; an interrupt signals it while idle runs, and neither the wake flag nor the
 handler asks for a switch.
 */
module Dozing {
  import opened Kernel
  import opened System
  import opened Effects
  import opened SystemProof
  import opened Preemption
  import opened Idling
  import opened Scenes

  /** A scene of this run: one level and the takers of semaphore 0. */
  function View(tcbs: seq<Tcb>, cur: Cur, pending: bool, bitmap: set<nat>, ready: seq<TaskId>, takers: seq<TaskId>, pcs: seq<Pc>): Scene {
    Scene(1, tcbs, cur, pending, bitmap, ready, [], [], Takers(0), takers, Lockers(0), [], map[], pcs)
  }

  const LOW := Some(Ready(0))

  const S0 := View([], NoTask, false, {}, [], [], [])
  const S1 := View([Job(0, LOW, 0)], NoTask, false, {0}, [0], [], [Free])
  const S2 := View([Job(0, None, 0)], Task(0), false, {}, [], [], [Free])
  const S3 := View([Stuck(0, 0, Takers(0))], Task(0), true, {}, [], [0], [InTake(0)])
  const S4 := View([Stuck(0, 0, Takers(0))], Idle, false, {}, [], [0], [InTake(0)])

  const SCRIPT: seq<Event> := [Create(true, 64, 0), Start, TakeCall(0, INFINITE), Switch, SignalFromIsr(0, false)]

  const SCENES: seq<Scene> := [S0, S1, S2, S3, S4]

  /** The semaphore is empty. */
  ghost predicate At(s: Sys, v: Scene) {
    Shows(s, v) && 0 in s.sems && s.sems[0].count == 0
  }

  lemma Creates(s: Sys)
    requires At(s, S0)
    ensures Enabled(s, Create(true, 64, 0)) && At(Step(s, Create(true, 64, 0)), S1)
  {
    hide InsertReady;
    Legal(s, S0, Create(true, 64, 0));
  }

  lemma Starts(s: Sys)
    requires At(s, S1)
    ensures Enabled(s, Start) && At(Step(s, Start), S2)
  {
    hide Step, ClearIfEmpty, UnlinkState;
    StartsWith(s, 0, 0);
    Leaves(s.k, S1, 0, 0);
    Legal(s, S1, Start);
  }

  lemma Sleeps(k: Kern)
    requires KernShows(k, S2)
    ensures KernShows(Request(BlockCurrent(k, INFINITE, Some(Takers(0)), true), true), S3)
  {
  }

  lemma Takes(s: Sys)
    requires At(s, S2)
    ensures Enabled(s, TakeCall(0, INFINITE)) && At(Step(s, TakeCall(0, INFINITE)), S3)
  {
    hide BlockCurrent, Request;
    Sleeps(s.k);
    Legal(s, S2, TakeCall(0, INFINITE));
  }

  lemma Idles(s: Sys)
    requires At(s, S3)
    ensures Enabled(s, Switch) && At(Step(s, Switch), S4)
  {
    hide Step, PopHighest;
    SwitchIs(s);
    Scheduling.SelectIs(s.k);
    Legal(s, S3, Switch);
  }

  // ---------------------------------------------------------------- The run

  lemma NextScene(s: Sys, i: nat)
    requires i < 4 && At(s, SCENES[i])
    ensures Enabled(s, SCRIPT[i]) && At(Step(s, SCRIPT[i]), SCENES[i + 1])
  {
    hide Step, At, Enabled;
    match i
    case 0 => Creates(s);
    case 1 => Starts(s);
    case 2 => Takes(s);
    case 3 => Idles(s);
  }

  const INITIAL := Blank(1, map[], map[0 := Sem(0, 1)], map[0 := SemLog(0, 0, 0)], map[], map[])

  lemma PlayStarts()
    ensures Initial(INITIAL)
  {
  }

  lemma {:induction false} PlayShows(n: nat)
    requires n <= 4
    ensures At(Play(INITIAL, SCRIPT, n), SCENES[n])
  {
    hide Step, Enabled;
    if n == 0 {
    } else {
      PlayShows(n - 1);
      NextScene(Play(INITIAL, SCRIPT, n - 1), n - 1);
    }
  }

  lemma SceneDozes(s: Sys)
    requires At(s, S4)
    ensures Enabled(s, SignalFromIsr(0, false)) && s.k.cur.Idle? && !s.k.pending && IdleFair(s.k)
    ensures WakesLowest(s, SignalFromIsr(0, false))
  {
  }

  /** A legal run that ends with the task ready, idle running, no flag raised and no switch requested. */
  lemma IdleDozes() returns (ss: seq<Sys>)
    ensures Run(ss, SCRIPT) && SCRIPT[4] == SignalFromIsr(0, false)
    ensures IdleFair(ss[4].k) && !Flagged(ss[4], SCRIPT[4]) && !IdleFair(ss[5].k)
  {
    hide Step, Enabled, Initial, At, IdleFair, Flagged, WakesLowest, SysInvBut;
    ss := States(INITIAL, SCRIPT);
    PlayStarts();
    forall i | 0 <= i < |SCRIPT| ensures Enabled(Play(INITIAL, SCRIPT, i), SCRIPT[i]) {
      PlayShows(i);
      if i < 4 {
        NextScene(Play(INITIAL, SCRIPT, i), i);
      } else {
        SceneDozes(Play(INITIAL, SCRIPT, i));
      }
    }
    PlayIsRun(INITIAL, SCRIPT);
    PlayShows(4);
    SceneDozes(ss[4]);
    Always(ss, SCRIPT, 4);
    FlagUnderIdle(ss[4], SCRIPT[4]);
    LowestIs(ss[4], SCRIPT[4]);
    FlaggedIdleIff(ss[4], SCRIPT[4]);
  }

  lemma LowestIs(s: Sys, e: Event)
    requires WakesLowest(s, e)
    ensures L(s.k, Lifecycle.IsrList(e)) != [] && T(s.k, L(s.k, Lifecycle.IsrList(e))[0]).eff == 0
  {
  }
}
