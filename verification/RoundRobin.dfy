/**
 Progress among equals. A ready task never loses its place in its ready list, and every
 switch that picks another task of its level moves it one place forward.
 */
module RoundRobin {
  import opened Sequences
  import opened Kernel
  import opened KernelInvariants
  import opened SchedulerSteps
  import opened TaskViews
  import opened System
  import opened Effects
  import opened SystemInvariants
  import opened MutexInvariants
  import opened SystemProof
  import opened Lifecycle
  import opened Outcomes

  ghost function Level(k: Kern, p: nat): seq<TaskId> {
    Items(k.lists, Ready(p))
  }

  ghost predicate ReadyAt(k: Kern, t: TaskId, p: nat) {
    t in Level(k, p)
  }

  /** How many tasks of its level are in front of a ready task. */
  ghost function Position(k: Kern, t: TaskId, p: nat): nat
    requires ReadyAt(k, t, p)
  {
    IndexOf(Level(k, p), t)
  }

  /** Tasks may join the level at its end, or one task may leave it. */
  ghost predicate LevelStep(xs: seq<TaskId>, ys: seq<TaskId>) {
    xs <= ys || exists u :: ys == Remove(xs, u)
  }

  lemma LevelStepNoLater(xs: seq<TaskId>, ys: seq<TaskId>, t: TaskId)
    requires NoDup(xs) && NoDup(ys) && LevelStep(xs, ys) && t in xs && t in ys
    ensures IndexOf(ys, t) <= IndexOf(xs, t)
  {
    hide IndexOf, NoDup;
    var i := IndexOf(xs, t);
    if xs <= ys {
      IndexUnique(ys, t, i);
    } else {
      var u :| ys == Remove(xs, u);
      RemoveIndex(xs, u, t);
    }
  }

  lemma RemoveIndex(xs: seq<TaskId>, u: TaskId, t: TaskId)
    requires NoDup(xs) && t in xs && t in Remove(xs, u)
    ensures IndexOf(Remove(xs, u), t) == IndexOf(xs, t) - if u in xs && IndexOf(xs, u) < IndexOf(xs, t) then 1 else 0
  {
    var ys := Remove(xs, u);
    RemoveMembers(xs, u);
    var i := IndexOf(xs, t);
    if u in xs {
      var j := IndexOf(xs, u);
      IndexUnique(ys, t, if j < i then i - 1 else i);
    }
  }

  // ---------------------------------------------------------------- Scheduler routines

  lemma UnblockLevel(k: Kern, t: TaskId, r: Reason, p: nat)
    requires KernInv(k)
    ensures Level(k, p) <= Level(Unblock(k, t, r), p)
  {
    hide Linked, TimersWithin, Queued, Unblock, Items, Remove;
    if Blocked(T(k, t)) {
      PlacedBounds(k, t);
      UnblockHasEffect(k, t, r);
      UnblockReadyList(k, Unblock(k, t, r), t, r, p);
    } else {
      UnblockElse(k, t, r);
    }
  }

  lemma SetEffectiveLevel(k: Kern, t: TaskId, q: nat, p: nat)
    requires KernInv(k) && t < |k.tcbs|
    ensures LevelStep(Level(k, p), Level(SetEffective(k, t, q), p))
  {
    hide Linked, TimersWithin, Queued, Relevel, Items, Reinserted, Remove;
    if !(T(k, t).eff == q || T(k, t).base > q || q >= k.levels) {
      RelevelHasEffect(k, t, q);
      EventNotState(k, t);
    }
  }

  lemma BlockLevel(k: Kern, wake: nat, waitOn: Option<ListId>, infinite: bool, p: nat)
    requires KernInv(k) && k.cur.Task? && T(k, k.cur.id).place.None? && (waitOn.Some? ==> !IsStateList(waitOn.value))
    ensures Level(BlockCurrent(k, wake, waitOn, infinite), p) == Level(k, p)
  {
    hide Linked, TimersWithin, Queued, BlockState, LinkEvent, Items, BlockInserted, InsertAt;
    BlockHasEffect(k, k.cur.id, wake, infinite);
  }

  lemma WakeFirstLevel(k: Kern, l: ListId, p: nat)
    requires KernInv(k)
    ensures Level(k, p) <= Level(WakeFirst(k, l), p)
  {
    hide KernInv, Unblock, Items;
    if L(k, l) != [] {
      UnblockLevel(k, L(k, l)[0], Signaled, p);
    }
  }

  lemma TickLevel(k: Kern, p: nat)
    requires KernInv(k)
    ensures Level(k, p) <= Level(Kernel.Tick(k), p)
  {
    hide Linked, Placed, TimersWithin, Queued, Kernel.Tick, Due, Advance, Items;
    TickKeeps(k);
    AdvanceKeeps(k);
  }

  lemma CreateLevel(k: Kern, prio: nat, p: nat)
    requires KernInv(k) && prio < k.levels
    ensures Level(k, p) <= Level(CreateTask(k, prio), p)
  {
    hide Linked, TimersWithin, Queued, Items, InsertReady;
  }

  // ---------------------------------------------------------------- The switch

  lemma RequeueLevel(k: Kern, p: nat)
    requires KernInv(k)
    ensures Level(k, p) <= Level(Requeue(k).(pending := false), p)
  {
    hide Linked, TimersWithin, Queued, Items, InsertReady;
    if k.cur.Task? {
      PlacedBounds(k, k.cur.id);
    }
  }

  /** A switch takes the front of one level and otherwise only appends. */
  lemma SwitchLevel(k: Kern, p: nat)
    requires KernInv(k) && k.cur != NoTask
    ensures var k1, k' := Requeue(k).(pending := false), SelectNext(k);
            && Level(k, p) <= Level(k1, p)
            && (k'.cur.Task? && T(k1, k'.cur.id).eff == p ==> Level(k1, p) != [] && Level(k1, p)[0] == k'.cur.id && Level(k', p) == Level(k1, p)[1..])
            && (!(k'.cur.Task? && T(k1, k'.cur.id).eff == p) ==> Level(k', p) == Level(k1, p))
  {
    hide Linked, Placed, TimersWithin, Queued, Items, Requeue, SelectNext, PopHighest, LeaveReady;
    RequeueLevel(k, p);
    RequeueKeeps(k);
    SwitchKeeps(k);
    var k1, k' := Requeue(k).(pending := false), SelectNext(k);
    if k1.bitmap != {} {
      var t := k'.cur.id;
      RunChosenKeeps(k1, t, T(k1, t).eff);
      if T(k1, t).eff != p {
        LeaveReadyLevel(k1, t, p);
      }
    }
  }

  lemma LeaveReadyLevel(k: Kern, t: TaskId, p: nat)
    requires t < |k.tcbs| && k.tcbs[t].eff != p
    ensures Level(LeaveReady(k, t), p) == Level(k, p)
  {
    hide LeaveReady, Items, Remove;
  }

  /** Only the level matters: the chosen task of another level leaves this level alone. */
  ghost predicate PicksLevel(k: Kern, p: nat) {
    SelectNext(k).cur.Task? && T(Requeue(k).(pending := false), SelectNext(k).cur.id).eff == p
  }

  lemma SwitchPosition(k: Kern, t: TaskId, p: nat)
    requires KernInv(k) && k.cur != NoTask && ReadyAt(k, t, p) && ReadyAt(SelectNext(k), t, p)
    ensures Position(SelectNext(k), t, p) == Position(k, t, p) - if PicksLevel(k, p) then 1 else 0
  {
    hide KernInv, Requeue, SelectNext, Items, IndexOf;
    SwitchLevel(k, p);
    SwitchKeeps(k);
    RequeueKeeps(k);
    var k1, k' := Requeue(k).(pending := false), SelectNext(k);
    LevelNoDup(k, p);
    LevelNoDup(k1, p);
    LevelNoDup(k', p);
    var i := IndexOf(Level(k, p), t);
    IndexUnique(Level(k1, p), t, i);
    if PicksLevel(k, p) {
      var j := IndexOf(Level(k', p), t);
      assert Level(k1, p)[j + 1] == t;
      IndexUnique(Level(k1, p), t, j + 1);
    }
  }

  lemma LevelNoDup(k: Kern, p: nat)
    requires KernInv(k)
    ensures NoDup(Level(k, p))
  {
    hide Placed, TimersWithin, Queued;
  }

  /** A task leaves the front: if another task of its level is picked it moves up, and if none is in front it is picked. */
  lemma FrontIsPicked(k: Kern, t: TaskId, p: nat)
    requires KernInv(k) && k.cur != NoTask && ReadyAt(k, t, p) && PicksLevel(k, p) && Position(k, t, p) == 0
    ensures SelectNext(k).cur == Task(t)
  {
    hide KernInv, Requeue, SelectNext, Items;
    SwitchLevel(k, p);
  }

  // ---------------------------------------------------------------- Every other step

  lemma MutexLevel(s: Sys, e: Event, p: nat)
    requires SysInv(s) && Enabled(s, e) && (e.LockCall? || e.UnlockCall?)
    ensures LevelStep(Level(s.k, p), Level(Step(s, e).k, p))
  {
    hide KernInv, SemInv, QueueInvBut, Continuations, MutexInv, BlockCurrent, SetEffective, Unblock, Required, Items, Relinquish, DropHeld, HandOver;
    var t, m := s.k.cur.id, e.mutex;
    UnplacedCaller(s, t, 0, 0, 0);
    if e.LockCall? && Lock(s, m, e.timeout).1.Blocks? {
      var o, l := s.owners[m].value, Lockers(m);
      var wake, infinite := WakeTick(s.k, e.timeout), e.timeout == INFINITE;
      MutexBounds(s, m);
      if !infinite {
        WakeTickOk(s.k, e.timeout);
      }
      BlockKeeps(s.k, wake, Some(l), infinite);
      BlockSleeps(s.k, wake, Some(l), infinite);
      BlockLevel(s.k, wake, Some(l), infinite, p);
      var k1 := BlockCurrent(s.k, wake, Some(l), infinite);
      SetEffectiveLevel(k1, o, Required(k1, o, l), p);
    } else if e.UnlockCall? && s.owners[m] == Some(t) {
      ReleaseTask(s, t, m);
      ReleaseLevel(s, t, m, p);
      UnlockLevel(s, t, m, p);
    }
  }

  lemma ReleaseLevel(s: Sys, t: TaskId, m: nat, p: nat)
    requires SysInv(s) && Caller(s, t) && m in s.owners && s.owners[m] == Some(t)
    ensures var k1 := Relinquish(DropHeld(s.k, t), t);
            Level(k1, p) == Level(s.k, p)
  {
    hide KernInv, SemInv, QueueInvBut, Continuations, MutexInv, SetEffective, Items;
    UnplacedCaller(s, t, 0, 0, 0);
    MutexBounds(s, m);
    DropHeldRecounts(s.k, t);
    var k0 := DropHeld(s.k, t);
    CountsKeep(s.k, k0);
    SetEffectiveLists(k0, t, T(k0, t).base);
    assert L(SetEffective(k0, t, T(k0, t).base), Ready(p)) == L(k0, Ready(p));
  }

  lemma UnlockLevel(s: Sys, t: TaskId, m: nat, p: nat)
    requires SysInv(s) && Caller(s, t) && m in s.owners && s.owners[m] == Some(t)
    requires Level(Relinquish(DropHeld(s.k, t), t), p) == Level(s.k, p)
    ensures Level(s.k, p) <= Level(Unlock(s, m).0.k, p)
  {
    hide KernInv, SemInv, QueueInvBut, Continuations, MutexInv, Unblock, Inherit, Required, Items, Relinquish, DropHeld;
    ReleaseTask(s, t, m);
    var k1 := Relinquish(DropHeld(s.k, t), t);
    FirstWaiter(k1, Lockers(m));
    if L(k1, Lockers(m)) != [] {
      var n := L(k1, Lockers(m))[0];
      WaiterBelowCap(s, n, m);
      HandoffNeverRaises(k1, m);
      UnblockLevel(k1, n, Signaled, p);
    }
  }

  lemma ResumeLockLevel(s: Sys, t: TaskId, m: nat, p: nat)
    requires SysInv(s) && s.k.cur == Task(t) && !s.k.pending && t < |s.pcs| && s.pcs[t] == InLock(m)
    ensures LevelStep(Level(s.k, p), Level(ResumeLock(s, t, m).0.k, p))
  {
    hide KernInv, SemInv, QueueInvBut, Continuations, MutexInv, SetEffective, Required, Items;
    UnplacedCaller(s, t, 0, 0, 0);
    ResumedKern(s.k, t);
    var k1 := WithReason(s.k, t, NoReason);
    if m in s.owners && s.owners[m].Some? {
      MutexBounds(s, m);
      var o := s.owners[m].value;
      var req := Required(k1, o, Lockers(m));
      SetEffectiveLevel(k1, o, if req > T(k1, o).base then req else T(k1, o).base, p);
    }
  }

  lemma SleepLevel(k: Kern, wake: nat, waitOn: Option<ListId>, infinite: bool, p: nat)
    requires KernInv(k) && k.cur.Task? && T(k, k.cur.id).place.None? && (waitOn.Some? ==> !IsStateList(waitOn.value))
    ensures Level(Request(BlockCurrent(k, wake, waitOn, infinite), true), p) == Level(k, p)
  {
    hide KernInv, BlockCurrent, Level, Request;
    BlockLevel(k, wake, waitOn, infinite, p);
    RequestLevel(BlockCurrent(k, wake, waitOn, infinite), p);
  }

  lemma EffectLevel(k: Kern, f: Effect, p: nat)
    requires KernInv(k) && Fits(k, f)
    ensures Level(k, p) <= Level(Apply(k, f), p)
  {
    hide KernInv, BlockCurrent, WakeFirst, Request, Level;
    match f
    case Quiet(wanted) => RequestLevel(k, p);
    case Sleep(wake, waitOn, infinite) => SleepLevel(k, wake, waitOn, infinite, p);
    case Wake(l, wanted) =>
      WakeFirstLevel(k, l, p);
      RequestLevel(WakeFirst(k, l), p);
  }

  lemma CallLevel(s: Sys, e: Event, p: nat)
    requires SysInv(s) && Enabled(s, e) && IsTaskCall(e)
    ensures LevelStep(Level(s.k, p), Level(Step(s, e).k, p))
  {
    hide KernInv, SemInv, QueueInvBut, Continuations, MutexInv, Level, Apply, Step;
    UnplacedCaller(s, s.k.cur.id, 0, 0, 0);
    if e.LockCall? || e.UnlockCall? {
      MutexLevel(s, e, p);
    } else {
      var f := CallEffect(s, e);
      EffectLevel(s.k, f, p);
    }
  }

  lemma ResumeLevel(s: Sys, t: TaskId, p: nat)
    requires SysInv(s) && s.k.cur == Task(t) && !s.k.pending && t < |s.pcs|
    ensures LevelStep(Level(s.k, p), Level(ResumeStep(s, t).0.k, p))
  {
    hide KernInv, SemInv, QueueInvBut, Continuations, MutexInv, Items, ResumeLock, Apply;
    UnplacedCaller(s, t, 0, 0, 0);
    if s.pcs[t].InLock? {
      ResumeLockLevel(s, t, s.pcs[t].mutex, p);
    } else {
      ResumedKern(s.k, t);
      var k, f := ResumeEffect(s, t);
      EffectLevel(k, f, p);
    }
  }

  lemma StepLevel(s: Sys, e: Event, p: nat)
    requires SysInv(s) && Enabled(s, e) && !e.Switch? && !e.Start?
    ensures LevelStep(Level(s.k, p), Level(Step(s, e).k, p))
  {
    hide SysInvBut, Items, ResumeStep, Kernel.Tick, CreateTask, WakeFirst, Request,
      Wait, WaitUntil, Lock, Unlock, Take, Signal, Enqueue, Dequeue, GiveToken, EnqueueIsr, DequeueIsr, TakeIsr;
    KernOf(s);
    if IsTaskCall(e) {
      CallLevel(s, e, p);
    } else if e.TakeFromIsr? || e.SignalFromIsr? || e.EnqueueFromIsr? || e.DequeueFromIsr? {
      IsrKern(s, e);
      WakeFirstLevel(s.k, IsrList(e), p);
      RequestLevel(s.k, p);
      RequestLevel(WakeFirst(s.k, IsrList(e)), p);
    } else {
      RequestLevel(s.k, p);
      match e
      case Create(ok, words, prio) =>
        if CreateStatus(s.k, ok, words, prio) == Ok {
          CreateLevel(s.k, prio, p);
        }
      case Tick => TickLevel(s.k, p);
      case YieldIsr =>
      case Resume => ResumeLevel(s, s.k.cur.id, p);
    }
  }

  lemma RequestLevel(k: Kern, p: nat)
    ensures forall b :: Level(Request(k, b), p) == Level(k, p)
  {
  }

  /** While a task stays ready at one level, no step moves it back, and a switch within the level moves it up by one. */
  lemma PositionStep(s: Sys, e: Event, t: TaskId, p: nat)
    requires SysInv(s) && Enabled(s, e) && !s.k.cur.NoTask? && ReadyAt(s.k, t, p) && ReadyAt(Step(s, e).k, t, p)
    ensures Position(Step(s, e).k, t, p) <= Position(s.k, t, p)
    ensures e.Switch? && PicksLevel(s.k, p) ==> Position(Step(s, e).k, t, p) == Position(s.k, t, p) - 1
  {
    hide SysInvBut, Items, Step, SelectNext, Requeue, IndexOf, LevelStep, PicksLevel;
    KernOf(s);
    if e.Switch? {
      SwitchIs(s);
      SwitchPosition(s.k, t, p);
    } else {
      StepKeeps(s, e);
      KernOf(Step(s, e));
      StepLevel(s, e, p);
      LevelNoDup(s.k, p);
      LevelNoDup(Step(s, e).k, p);
      LevelStepNoLater(Level(s.k, p), Level(Step(s, e).k, p), t);
    }
  }

  // ---------------------------------------------------------------- Whole runs

  /** How many of the steps from `i` up to `j` are context switches. */
  ghost function Switches(es: seq<Event>, i: nat, j: nat): nat
    requires i <= j <= |es|
  {
    if i == j then 0 else Switches(es, i, j - 1) + if es[j - 1].Switch? then 1 else 0
  }

  /**
   A task that stays ready at level `p` while every switch picks from level `p` is passed over at most as
   often as there were tasks in front of it, and each pass brings it closer: after `k` passes with `k` in
   front it is at the head, and the next switch runs it.
   */
  lemma {:induction false} RoundRobinProgress(ss: seq<Sys>, es: seq<Event>, i: nat, j: nat, t: TaskId, p: nat)
    requires Run(ss, es) && i <= j < |ss|
    requires forall x :: i <= x <= j ==> ReadyAt(ss[x].k, t, p) && !ss[x].k.cur.NoTask?
    requires forall x :: i <= x < j && es[x].Switch? ==> PicksLevel(ss[x].k, p)
    ensures Position(ss[j].k, t, p) + Switches(es, i, j) <= Position(ss[i].k, t, p)
  {
    hide Initial, Step, Enabled, SysInvBut, PicksLevel, Level, IndexOf;
    if i == j {
    } else {
      RoundRobinProgress(ss, es, i, j - 1, t, p);
      Always(ss, es, j - 1);
      assert ss[j] == Step(ss[j - 1], es[j - 1]) && ReadyAt(ss[j].k, t, p);
      PositionStep(ss[j - 1], es[j - 1], t, p);
    }
  }

  /** Nothing ready is above level `p`, and neither is the running task if it is about to be requeued. */
  ghost predicate NothingAbove(k: Kern, p: nat) {
    && (forall u :: 0 <= u < |k.tcbs| && k.tcbs[u].place.Some? && k.tcbs[u].place.value.Ready? ==> k.tcbs[u].eff <= p)
    && (k.cur.Task? && T(k, k.cur.id).place.None? ==> T(k, k.cur.id).eff <= p)
  }

  /** With nothing above level `p`, a switch picks from level `p`. */
  lemma NothingHigher(k: Kern, t: TaskId, p: nat)
    requires KernInv(k) && k.cur != NoTask && ReadyAt(k, t, p) && NothingAbove(k, p)
    ensures PicksLevel(k, p)
  {
    hide Linked, TimersWithin, Queued, Items, InsertReady, SelectNext, PopHighest, LeaveReady;
    SwitchKeeps(k);
    RequeueKeeps(k);
    RequeueLevel(k, p);
    var k1 := Requeue(k).(pending := false);
    assert t in Level(k1, p);
    if k.cur.Task? {
      PlacedBounds(k, k.cur.id);
    }
    assert p in k1.bitmap;
  }

  /** A task leaves its level only by being run or by a change of its priority. */
  lemma LeavesLevel(s: Sys, e: Event, t: TaskId, p: nat)
    requires SysInv(s) && Enabled(s, e) && ReadyAt(s.k, t, p) && !ReadyAt(Step(s, e).k, t, p)
    ensures Step(s, e).k.cur == Task(t) || T(Step(s, e).k, t).eff != p
  {
    hide SysInvBut, Step, Level;
    var s' := Step(s, e);
    StepKeeps(s, e);
    ReadyIsAwake(s, e, t, p);
    AwakeStep(s, e, t);
    AwakeIsPlaced(s', t);
  }

  lemma ReadyIsAwake(s: Sys, e: Event, t: TaskId, p: nat)
    requires SysInv(s) && Enabled(s, e) && ReadyAt(s.k, t, p)
    ensures AwakeIn(s.k, t) && (s.k.cur == Task(t) ==> !IsTaskCall(e) && !e.Resume?)
  {
    hide Placed, TimersWithin, Queued, SemInv, QueueInvBut, MutexInv, Continuations, NoDup;
  }

  lemma AwakeIsPlaced(s: Sys, t: TaskId)
    requires SysInv(s) && AwakeIn(s.k, t)
    ensures s.k.cur == Task(t) || ReadyAt(s.k, t, s.k.tcbs[t].eff)
  {
    hide TimersWithin, Queued, SemInv, QueueInvBut, MutexInv, Continuations, NoDup;
    assert PlacedTask(s.k, t, s.k.tcbs[t]);
  }

  lemma {:induction false} FirstOut(ss: seq<Sys>, i: nat, j: nat, t: TaskId, p: nat) returns (x: nat)
    requires i < j < |ss| && ReadyAt(ss[i].k, t, p) && !ReadyAt(ss[j].k, t, p)
    ensures i <= x < j && ReadyAt(ss[x].k, t, p) && !ReadyAt(ss[x + 1].k, t, p)
    decreases j - i
  {
    hide Level;
    if ReadyAt(ss[j - 1].k, t, p) {
      x := j - 1;
    } else {
      x := FirstOut(ss, i, j - 1, t, p);
    }
  }

  /** A ready task with nobody in front of it and nothing above it is the one that the next switch runs. */
  lemma FrontRunsNext(ss: seq<Sys>, es: seq<Event>, i: nat, t: TaskId, p: nat)
    requires Run(ss, es) && i < |es| && es[i].Switch? && ReadyAt(ss[i].k, t, p) && Position(ss[i].k, t, p) == 0
    requires NothingAbove(ss[i].k, p)
    ensures ss[i + 1].k.cur == Task(t)
  {
    hide Initial, Step, SysInvBut, PicksLevel, NothingAbove, Level, IndexOf, SelectNext;
    Always(ss, es, i);
    KernOf(ss[i]);
    assert Enabled(ss[i], es[i]);
    NothingHigher(ss[i].k, t, p);
    FrontIsPicked(ss[i].k, t, p);
    SwitchIs(ss[i]);
  }

  lemma SwitchesPick(ss: seq<Sys>, es: seq<Event>, i: nat, j: nat, t: TaskId, p: nat)
    requires Run(ss, es) && i <= j < |ss|
    requires forall y :: i <= y <= j ==> ReadyAt(ss[y].k, t, p)
    requires forall y :: i <= y < j && es[y].Switch? ==> NothingAbove(ss[y].k, p)
    ensures forall y :: i <= y < j && es[y].Switch? ==> PicksLevel(ss[y].k, p)
  {
    hide Initial, Step, SysInvBut, PicksLevel, NothingAbove, Level;
    forall y | i <= y < j && es[y].Switch? ensures PicksLevel(ss[y].k, p) {
      Always(ss, es, y);
      KernOf(ss[y]);
      assert Enabled(ss[y], es[y]);
      NothingHigher(ss[y].k, t, p);
    }
  }

  /** With `k` tasks in front of it and nothing above its level at any switch, a ready task runs within `k + 1` switches, unless its priority changes. */
  lemma RunsWithin(ss: seq<Sys>, es: seq<Event>, i: nat, j: nat, t: TaskId, p: nat) returns (x: nat)
    requires Run(ss, es) && i <= j < |ss| && ReadyAt(ss[i].k, t, p)
    requires forall y :: i <= y <= j ==> !ss[y].k.cur.NoTask?
    requires forall y :: i <= y < j && es[y].Switch? ==> NothingAbove(ss[y].k, p)
    requires Switches(es, i, j) > Position(ss[i].k, t, p)
    ensures i < x <= j && (ss[x].k.cur == Task(t) || T(ss[x].k, t).eff != p)
  {
    hide Initial, Step, Enabled, SysInvBut, PicksLevel, NothingAbove, Level, IndexOf;
    if forall y :: i <= y <= j ==> ReadyAt(ss[y].k, t, p) {
      SwitchesPick(ss, es, i, j, t, p);
      RoundRobinProgress(ss, es, i, j, t, p);
      x := j;
    } else {
      var y :| i <= y <= j && !ReadyAt(ss[y].k, t, p);
      var z := FirstOut(ss, i, y, t, p);
      Always(ss, es, z);
      LeavesLevel(ss[z], es[z], t, p);
      x := z + 1;
    }
  }
}
