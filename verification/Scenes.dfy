/**
 Tools for concrete runs. A scene is what matters of one state of such a run; each event is
 shown to lead from one scene to the next, and the states so reached form a run.
 */
module Scenes {
  import opened Sequences
  import opened Kernel
  import opened SchedulerSteps
  import opened System
  import opened Effects
  import Scheduling

  /** Tasks, current task, bitmap, three ready lists, two chosen wait lists, owners and continuations. */
  datatype Scene = Scene(
    levels: nat, tcbs: seq<Tcb>, cur: Cur, pending: bool, bitmap: set<nat>,
    ready0: seq<TaskId>, ready1: seq<TaskId>, ready2: seq<TaskId>,
    idA: ListId, waitA: seq<TaskId>, idB: ListId, waitB: seq<TaskId>,
    owners: map<nat, Option<TaskId>>, pcs: seq<Pc>)

  ghost predicate KernShows(k: Kern, v: Scene) {
    && k.levels == v.levels && k.capacity == 3
    && k.tcbs == v.tcbs && k.cur == v.cur && k.pending == v.pending && k.bitmap == v.bitmap
    && Items(k.lists, Ready(0)) == v.ready0 && Items(k.lists, Ready(1)) == v.ready1 && Items(k.lists, Ready(2)) == v.ready2
    && Items(k.lists, v.idA) == v.waitA && Items(k.lists, v.idB) == v.waitB
  }

  ghost predicate Shows(s: Sys, v: Scene) {
    KernShows(s.k, v) && s.owners == v.owners && s.pcs == v.pcs
  }

  // ---------------------------------------------------------------- Tasks

  function Job(prio: nat, place: Option<ListId>, held: nat): Tcb {
    Tcb(prio, prio, held, place, 0, None, 0, NoReason)
  }

  /** A task that holds `held` mutexes and waits on `l` without a timeout. */
  function Stuck(prio: nat, held: nat, l: ListId): Tcb {
    Tcb(prio, prio, held, Some(Suspended), INFINITE, Some(l), prio, NoReason)
  }

  /** A task of base priority 0 at the priority that others have lent it. */
  function Raised(prio: nat, place: Option<ListId>, held: nat): Tcb {
    Tcb(0, prio, held, place, 0, None, 0, NoReason)
  }

  // ---------------------------------------------------------------- Switches

  /** A switch to the first task of the highest level of `k1`, the state with the old task requeued. */
  lemma SwitchesTo(s: Sys, k1: Kern, p: nat, t: TaskId)
    requires k1 == Requeue(s.k).(pending := false)
    requires p in k1.bitmap && p < 32 && (forall b :: b in k1.bitmap ==> b <= p) && L(k1, Ready(p)) != [] && L(k1, Ready(p))[0] == t
    ensures Step(s, Switch) == s.(k := ClearIfEmpty(UnlinkState(k1, t), p).(cur := Task(t)))
  {
    hide Step, SelectNext, Requeue, ClearIfEmpty, UnlinkState, PopHighest;
    SwitchIs(s);
    Scheduling.SelectIs(s.k);
    Scheduling.PopIs(k1, p);
  }

  lemma StartsWith(s: Sys, p: nat, t: TaskId)
    requires s.k.cur == NoTask
    requires p in s.k.bitmap && p < 32 && (forall b :: b in s.k.bitmap ==> b <= p) && L(s.k, Ready(p)) != [] && L(s.k, Ready(p))[0] == t
    ensures Step(s, Start) == s.(k := ClearIfEmpty(UnlinkState(s.k, t), p).(cur := Task(t)))
  {
    hide Step, ClearIfEmpty, UnlinkState, PopHighest;
    SwitchIs(s);
    Scheduling.PopIs(s.k, p);
  }

  function ReadyOf(v: Scene, p: nat): seq<TaskId> {
    if p == 0 then v.ready0 else if p == 1 then v.ready1 else v.ready2
  }

  /** The scene in which the first task of level `p` has been taken off it and runs. */
  function Ran(v: Scene, t: TaskId, p: nat): Scene
    requires t < |v.tcbs| && ReadyOf(v, p) != []
  {
    var rest := ReadyOf(v, p)[1..];
    v.(tcbs := v.tcbs[t := v.tcbs[t].(place := None)], cur := Task(t),
       ready0 := if p == 0 then rest else v.ready0, ready1 := if p == 1 then rest else v.ready1, ready2 := if p == 2 then rest else v.ready2,
       bitmap := if rest == [] then v.bitmap - {p} else v.bitmap)
  }

  lemma Leaves(k: Kern, v: Scene, t: TaskId, p: nat)
    requires KernShows(k, v) && t < |v.tcbs| && p <= 2 && v.tcbs[t].place == Some(Ready(p)) && ReadyOf(v, p) != [] && ReadyOf(v, p)[0] == t
    requires v.idA != Ready(p) && v.idB != Ready(p)
    ensures KernShows(ClearIfEmpty(UnlinkState(k, t), p).(cur := Task(t)), Ran(v, t, p))
  {
    hide UnlinkState, Remove;
    RemoveHead(L(k, Ready(p)));
  }

  /** The switch from `v` by way of `v1`, in which the old task has been requeued and the request taken. */
  lemma SwitchShows(s: Sys, k1: Kern, v: Scene, v1: Scene, t: TaskId, p: nat, v': Scene)
    requires Shows(s, v) && k1 == Requeue(s.k).(pending := false) && KernShows(k1, v1)
    requires t < |v1.tcbs| && p <= 2 && v1.tcbs[t].place == Some(Ready(p)) && ReadyOf(v1, p) != [] && ReadyOf(v1, p)[0] == t
    requires p in v1.bitmap && (forall b :: b in v1.bitmap ==> b <= p) && v1.idA != Ready(p) && v1.idB != Ready(p)
    requires v1.owners == v.owners && v1.pcs == v.pcs && v' == Ran(v1, t, p)
    ensures Shows(Step(s, Switch), v')
  {
    hide Step, Requeue, ClearIfEmpty, UnlinkState;
    SwitchesTo(s, k1, p, t);
    Leaves(k1, v1, t, p);
  }

  // ---------------------------------------------------------------- Legal events

  /** Enough for the events of these runs to be legal. */
  lemma Legal(s: Sys, v: Scene, e: Event)
    requires Shows(s, v)
    requires e.Create? ==> v.cur.NoTask? || (v.cur.Task? && !v.pending && v.cur.id < |v.pcs| && v.pcs[v.cur.id].Free?)
    requires e.Start? ==> v.cur.NoTask?
    requires e.Switch? ==> !v.cur.NoTask? && v.pending
    requires IsTaskCall(e) ==> v.cur.Task? && !v.pending && v.cur.id < |v.pcs| && v.pcs[v.cur.id].Free?
    requires e.Resume? ==> v.cur.Task? && !v.pending && v.cur.id < |v.pcs| && !v.pcs[v.cur.id].Free?
    requires e.Tick? || e.YieldIsr? ==> !v.cur.NoTask?
    requires ObjectsExist(s, e)
    ensures Enabled(s, e)
  {
    hide Items, ObjectsExist;
  }

  // ---------------------------------------------------------------- Runs

  /** The state after the first `n` events. */
  ghost function Play(s: Sys, es: seq<Event>, n: nat): Sys
    requires n <= |es|
  {
    if n == 0 then s else Step(Play(s, es, n - 1), es[n - 1])
  }

  ghost function States(s: Sys, es: seq<Event>): (ss: seq<Sys>)
    ensures |ss| == |es| + 1 && forall i :: 0 <= i < |ss| ==> ss[i] == Play(s, es, i)
  {
    seq(|es| + 1, i requires 0 <= i <= |es| => Play(s, es, i))
  }

  lemma PlayIsRun(s: Sys, es: seq<Event>)
    requires Initial(s) && forall i :: 0 <= i < |es| ==> Enabled(Play(s, es, i), es[i])
    ensures Run(States(s, es), es)
  {
    hide Initial, Step, Enabled;
    var ss := States(s, es);
    forall i | 0 <= i < |es| ensures Enabled(ss[i], es[i]) && ss[i + 1] == Step(ss[i], es[i]) {
      assert Play(s, es, i + 1) == Step(Play(s, es, i), es[i]);
    }
  }

  /** An initial state with `levels` priorities, room for three tasks, and the given objects. */
  function Blank(levels: nat, owners: map<nat, Option<TaskId>>, sems: map<nat, Sem>, semLogs: map<nat, SemLog>,
                 queues: map<nat, Ring.Ring>, queueLogs: map<nat, QueueLog>): Sys {
    Sys(Kern(levels, 3, [], NoTask, false, 0, map[], {}, true, 0, 0, []), owners, sems, semLogs, queues, queueLogs, [])
  }
}
