/**
 What holds in every state of every run: the promises of the kernel, read off the invariants
 that `SystemProof.Always` establishes.
 */
module Theorems {
  import opened Sequences
  import opened Kernel
  import opened KernelInvariants
  import opened SchedulerSteps
  import opened TaskViews
  import opened System
  import opened SystemInvariants
  import opened MutexInvariants
  import opened SystemProof
  import opened Lifecycle

  // ---------------------------------------------------------------- Mutexes

  /** The owner of a mutex is never below the base priority of a waiter, nor below its current one if the waiter holds nothing. */
  lemma InheritanceSafety(ss: seq<Sys>, es: seq<Event>, i: nat, m: nat, w: TaskId)
    requires Run(ss, es) && i < |ss| && Waiting(ss[i], w, Lockers(m))
    ensures m in ss[i].owners && ss[i].owners[m].Some? && ss[i].owners[m].value < |ss[i].k.tcbs|
    ensures var o, c := ss[i].owners[m].value, ss[i].k.tcbs;
            o != w && c[o].eff >= c[w].base && (c[w].held == 0 ==> c[o].eff >= c[w].eff)
  {
    hide Initial, Step, Enabled, KernInv, SemInv, QueueInvBut, Continuations;
    Always(ss, es, i);
    assert WaiterOk(ss[i], w, ss[i].k.tcbs[w], m);
    assert RankOk(ss[i], w, ss[i].k.tcbs[w]);
  }

  /** Counts are exact, priorities stay in range, and what is not inherited is base. */
  lemma OwnershipAccounting(ss: seq<Sys>, es: seq<Event>, i: nat, t: TaskId)
    requires Run(ss, es) && i < |ss| && t < |ss[i].k.tcbs|
    ensures var c := ss[i].k.tcbs[t];
            && c.held == |Owned(ss[i], t)| <= 0xFF
            && c.base <= c.eff < ss[i].k.levels
            && (c.held == 0 ==> c.eff == c.base)
  {
    hide Initial, Step, Enabled, Linked, TimersWithin, Queued, SemInv, QueueInvBut, Continuations;
    Always(ss, es, i);
    assert RankOk(ss[i], t, ss[i].k.tcbs[t]);
    PlacedBounds(ss[i].k, t);
  }

  /** A mutex nobody owns has nobody waiting for it. */
  lemma UnownedHasNoWaiters(ss: seq<Sys>, es: seq<Event>, i: nat, m: nat)
    requires Run(ss, es) && i < |ss| && OwnerOf(ss[i], m).None?
    ensures L(ss[i].k, Lockers(m)) == []
  {
    hide Initial, Step, Enabled, KernInv, SemInv, QueueInvBut, Continuations, Items;
    Always(ss, es, i);
    assert forall t: TaskId :: Waiting(ss[i], t, Lockers(m)) ==> WaiterOk(ss[i], t, ss[i].k.tcbs[t], m);
    NobodyWaits(ss[i], Lockers(m));
  }

  lemma NobodyWaits(s: Sys, l: ListId)
    requires KernInv(s.k) && !IsStateList(l) && forall t :: 0 <= t < |s.k.tcbs| ==> !Waiting(s, t, l)
    ensures L(s.k, l) == []
  {
    hide KernInv, Items;
    assert forall t :: 0 <= t < |s.k.tcbs| ==> (Waiting(s, t, l) <==> s.k.tcbs[t].evt == Some(l));
    FirstWaiter(s.k, l);
  }

  // ---------------------------------------------------------------- Placement

  /** `t` is linked in `l`, and in no other list of the same kind. */
  ghost predicate OnlyIn(k: Kern, t: TaskId, l: ListId) {
    t in Items(k.lists, l) && forall l' :: l' != l && IsStateList(l') == IsStateList(l) ==> t !in Items(k.lists, l')
  }

  ghost predicate InNone(k: Kern, t: TaskId, state: bool) {
    forall l :: IsStateList(l) == state ==> t !in Items(k.lists, l)
  }

  /**
   Every task is in exactly one of its ready list, a delayed list and the suspend list, or in none and
   then it is the one that runs; it is in a wait list only while it is delayed or suspended.
   */
  lemma Placement(ss: seq<Sys>, es: seq<Event>, i: nat, t: TaskId)
    requires Run(ss, es) && i < |ss| && t < |ss[i].k.tcbs|
    ensures var k, c := ss[i].k, ss[i].k.tcbs[t];
            && (if c.place.Some? then IsStateList(c.place.value) && OnlyIn(k, t, c.place.value) else InNone(k, t, true) && k.cur == Task(t))
            && (c.place.Some? && c.place.value.Ready? ==> c.place.value == Ready(c.eff))
            && (if c.evt.Some? then !IsStateList(c.evt.value) && OnlyIn(k, t, c.evt.value) && Blocked(c) else InNone(k, t, false))
  {
    hide Initial, Step, Enabled, TimersWithin, Queued, SemInv, QueueInvBut, Continuations, MutexInv;
    Always(ss, es, i);
    assert PlacedTask(ss[i].k, t, ss[i].k.tcbs[t]);
  }

  /** No list holds a task twice, and bit `p` is set exactly if ready list `p` is not empty. */
  lemma BitmapMirrorsLists(ss: seq<Sys>, es: seq<Event>, i: nat, p: nat)
    requires Run(ss, es) && i < |ss|
    ensures p in ss[i].k.bitmap <==> L(ss[i].k, Ready(p)) != []
    ensures p in ss[i].k.bitmap ==> p < ss[i].k.levels
    ensures forall l :: NoDup(L(ss[i].k, l))
  {
    hide Initial, Step, Enabled, TimersWithin, Queued, SemInv, QueueInvBut, Continuations, MutexInv;
    Always(ss, es, i);
    if p in ss[i].k.bitmap {
      BitsAreLevels(ss[i].k, p);
    }
  }

  // ---------------------------------------------------------------- Wait lists

  /** A wait list is in descending order of the current priorities, first come first served among equals. */
  lemma WaitListOrder(ss: seq<Sys>, es: seq<Event>, i: nat, l: ListId, a: nat, b: nat)
    requires Run(ss, es) && i < |ss| && !IsStateList(l) && a < b < |L(ss[i].k, l)|
    ensures var k, t, u := ss[i].k, L(ss[i].k, l)[a], L(ss[i].k, l)[b];
            && T(k, t).evtValue == T(k, t).eff && T(k, u).evtValue == T(k, u).eff
            && T(k, t).eff >= T(k, u).eff && (T(k, t).eff == T(k, u).eff ==> A(k, t).queued < A(k, u).queued)
  {
    hide Initial, Step, Enabled, Placed, TimersWithin, SemInv, QueueInvBut, Continuations, MutexInv, NoDup;
    Always(ss, es, i);
    var k, xs := ss[i].k, Items(ss[i].k.lists, l);
    assert xs[a] in xs && xs[b] in xs;
    OrderedAt(xs, (t: TaskId, u: TaskId) => Ahead(k, t, u), a, b);
  }

  // ---------------------------------------------------------------- Semaphores and queues

  /** Initial tokens and successful signals are the stored tokens, the completed takes, and the handoffs under way. */
  lemma SemaphoreConservation(ss: seq<Sys>, es: seq<Event>, i: nat, x: nat)
    requires Run(ss, es) && i < |ss| && x in ss[i].sems
    ensures x in ss[i].semLogs
    ensures var sem, log := ss[i].sems[x], ss[i].semLogs[x];
            && log.initial + log.signals == sem.count + log.takes + |GrantedSet(ss[i], Takers(x))|
            && sem.count <= sem.max && (sem.count > 0 ==> L(ss[i].k, Takers(x)) == [])
  {
    hide Initial, Step, Enabled, KernInv, QueueInvBut, Continuations, MutexInv, GrantedSet, Items;
    Always(ss, es, i);
    var s := ss[i];
    assert SemOk(s, x, s.sems[x].count, s.sems[x].max, s.semLogs[x]);
    if s.sems[x].count > 0 {
      NobodyWaits(s, Takers(x));
    }
  }

  /** Readers wait only while every item is already promised to a woken reader; writers likewise with free slots. */
  lemma NoLostWakeups(ss: seq<Sys>, es: seq<Event>, i: nat, q: nat)
    requires Run(ss, es) && i < |ss| && q in ss[i].queues
    ensures var s, r := ss[i], ss[i].queues[q];
            && (L(s.k, Readers(q)) != [] ==> r.count <= |GrantedSet(s, Readers(q))|)
            && (L(s.k, Writers(q)) != [] ==> r.capacity - r.count <= |GrantedSet(s, Writers(q))|)
  {
    hide Initial, Step, Enabled, KernInv, SemInv, Continuations, MutexInv, GrantedSet, Items, QueueInvBut, StorageOk;
    Always(ss, es, i);
    var s := ss[i];
    QueueAt(s, 0, 0, 0, q);
    FirstWaiter(s.k, Readers(q));
    FirstWaiter(s.k, Writers(q));
    if L(s.k, Readers(q)) != [] {
      var t := L(s.k, Readers(q))[0];
      assert Waiting(s, t, Readers(q));
    }
    if L(s.k, Writers(q)) != [] {
      var t := L(s.k, Writers(q))[0];
      assert Waiting(s, t, Writers(q));
    }
  }

  /** What came out, followed by what is stored, is what went in; the write index is where it should be. */
  lemma QueueIsFifo(ss: seq<Sys>, es: seq<Event>, i: nat, q: nat)
    requires Run(ss, es) && i < |ss| && q in ss[i].queues
    ensures q in ss[i].queueLogs
    ensures var r, log := ss[i].queues[q], ss[i].queueLogs[q];
            && log.received + Ring.Contents(r) == log.sent && log.received <= log.sent
            && |log.sent| == |log.received| + r.count && r.count <= r.capacity
            && 0 < r.capacity && r.writeIndex == (r.readIndex + r.count) % r.capacity
  {
    hide Initial, Step, Enabled, KernInv, SemInv, Continuations, MutexInv, QueueInvBut, Ring.Contents;
    Always(ss, es, i);
    QueueAt(ss[i], 0, 0, 0, q);
    Ring.WriteIndexIsModulo(ss[i].queues[q]);
  }

  /** Every byte that a queue operation copies lies inside the item area, whose size does not overflow. */
  lemma CopiesStayInside(ss: seq<Sys>, es: seq<Event>, i: nat, q: nat)
    requires Run(ss, es) && i < |ss| && q in ss[i].queues
    ensures var r := ss[i].queues[q];
            && r.itemSize * r.writeIndex + r.itemSize <= r.itemSize * r.capacity <= |r.storage|
            && r.itemSize * r.readIndex + r.itemSize <= r.itemSize * r.capacity <= Ring.SIZE_MAX
  {
    hide Initial, Step, Enabled, KernInv, SemInv, Continuations, MutexInv, QueueInvBut, Ring.Contents;
    Always(ss, es, i);
    QueueAt(ss[i], 0, 0, 0, q);
    Ring.SlotBounds(ss[i].queues[q], ss[i].queues[q].writeIndex);
    Ring.SlotBounds(ss[i].queues[q], ss[i].queues[q].readIndex);
  }

  // ---------------------------------------------------------------- Time

  /** All tasks that wait for a time, those due before the wrap first. */
  ghost function Agenda(k: Kern): seq<TaskId> {
    L(k, CurList(k)) + L(k, NextList(k))
  }

  /**
   The two delayed lists together are one agenda over unbounded time: in order of absolute deadline, and of
   blocking among equals, with every deadline ahead and less than one turn of the counter away.
   */
  lemma DelayedListsRefineClock(ss: seq<Sys>, es: seq<Event>, i: nat, a: nat)
    requires Run(ss, es) && i < |ss| && a < |Agenda(ss[i].k)|
    ensures var k, t := ss[i].k, Agenda(ss[i].k)[a];
            && k.ticks == k.clock % WRAP
            && t < |k.aux| && k.clock < A(k, t).deadline < k.clock + WRAP && T(k, t).wake == A(k, t).deadline % WRAP
            && forall b :: a < b < |Agenda(k)| ==> Agenda(k)[b] < |k.aux| && Sooner(k.aux, t, Agenda(k)[b])
  {
    hide Initial, Step, Enabled, Queued, SemInv, QueueInvBut, Continuations, MutexInv, NoDup, DeadlineOrder;
    Always(ss, es, i);
    var k := ss[i].k;
    OnAgenda(k, a);
    forall b | a < b < |Agenda(k)| ensures Agenda(k)[b] < |k.aux| && Sooner(k.aux, Agenda(k)[a], Agenda(k)[b]) {
      OnAgenda(k, b);
      AgendaOrder(k, a, b);
    }
  }

  lemma OnAgenda(k: Kern, a: nat)
    requires KernInv(k) && a < |Agenda(k)|
    ensures var t := Agenda(k)[a];
            var d := A(k, t).deadline;
            && t < |k.tcbs| == |k.aux| && k.clock < d < k.clock + WRAP && T(k, t).wake == d % WRAP
            && d / WRAP == k.clock / WRAP + if a < |L(k, CurList(k))| then 0 else 1
  {
    hide Queued, NoDup, DeadlineOrder;
    var xs, ys := Items(k.lists, CurList(k)), Items(k.lists, NextList(k));
    var t := Agenda(k)[a];
    assert a < |xs| ==> t in xs;
    assert a >= |xs| ==> t == ys[a - |xs|] && t in ys;
    assert TimedTask(k, t, 0);
    SameTurn(A(k, t).deadline, k.clock);
  }

  lemma SameTurn(d: nat, c: nat)
    ensures d / WRAP == c / WRAP ==> d < c + WRAP
    ensures d / WRAP == c / WRAP + 1 ==> c < d
  {
  }

  lemma AgendaOrder(k: Kern, a: nat, b: nat)
    requires KernInv(k) && a < b < |Agenda(k)| && Agenda(k)[a] < |k.aux| && Agenda(k)[b] < |k.aux|
    ensures Sooner(k.aux, Agenda(k)[a], Agenda(k)[b])
  {
    hide Linked, Placed, Queued, DeadlineOrder;
    var xs, ys := Items(k.lists, CurList(k)), Items(k.lists, NextList(k));
    OnAgenda(k, a);
    OnAgenda(k, b);
    if b < |xs| {
      SoonerAt(k.aux, xs, a, b);
    } else if a >= |xs| {
      SoonerAt(k.aux, ys, a - |xs|, b - |xs|);
    } else {
      LaterTurn(A(k, Agenda(k)[a]).deadline, A(k, Agenda(k)[b]).deadline);
    }
  }

  lemma LaterTurn(d: nat, e: nat)
    requires d / WRAP < e / WRAP
    ensures d < e
  {
  }

  lemma SoonerAt(aux: seq<Aux>, xs: seq<TaskId>, a: nat, b: nat)
    requires DeadlineOrder(aux, xs) && a < b < |xs| && xs[a] < |aux| && xs[b] < |aux|
    ensures Sooner(aux, xs[a], xs[b])
  {
    OrderedAt(xs, (t: TaskId, u: TaskId) => t < |aux| && u < |aux| && Sooner(aux, t, u), a, b);
  }

  /** The loop that empties the expiring list at the wrap never finds anything in it. */
  lemma WrapDrainsNothing(ss: seq<Sys>, es: seq<Event>, i: nat)
    requires Run(ss, es) && i < |ss| && (ss[i].k.ticks + 1) % WRAP == 0
    ensures L(ss[i].k, CurList(ss[i].k)) == []
  {
    hide Initial, Step, Enabled, Queued, Placed, SemInv, QueueInvBut, Continuations, MutexInv, Items;
    Always(ss, es, i);
    NothingToDrain(ss[i].k);
  }

  // ---------------------------------------------------------------- Equal deadlines

  ghost predicate InFrontOf(xs: seq<TaskId>, t: TaskId, u: TaskId) {
    exists a, b :: 0 <= a < b < |xs| && xs[a] == t && xs[b] == u
  }

  lemma InFrontOfAppended(xs: seq<TaskId>, ys: seq<TaskId>, t: TaskId, u: TaskId)
    requires InFrontOf(ys, t, u)
    ensures InFrontOf(xs + ys, t, u)
  {
    var a, b :| 0 <= a < b < |ys| && ys[a] == t && ys[b] == u;
    assert (xs + ys)[|xs| + a] == t && (xs + ys)[|xs| + b] == u;
  }

  lemma {:induction false} AtLevelKeepsOrder(k: Kern, ts: seq<TaskId>, p: nat, a: nat, b: nat)
    requires a < b < |ts| && T(k, ts[a]).eff == p && T(k, ts[b]).eff == p
    ensures InFrontOf(AtLevel(k, ts, p), ts[a], ts[b])
  {
    var rest, all := AtLevel(k, ts[1..], p), AtLevel(k, ts, p);
    if a == 0 {
      InAtLevel(k, ts[1..], p, b - 1);
      var d :| 0 <= d < |rest| && rest[d] == ts[b];
      assert all[0] == ts[0] && all[d + 1] == ts[b];
    } else {
      AtLevelKeepsOrder(k, ts[1..], p, a - 1, b - 1);
      var c, d :| 0 <= c < d < |rest| && rest[c] == ts[a] && rest[d] == ts[b];
      var n := |all| - |rest|;
      assert all[c + n] == ts[a] && all[d + n] == ts[b];
    }
  }

  lemma {:induction false} InAtLevel(k: Kern, ts: seq<TaskId>, p: nat, a: nat)
    requires a < |ts| && T(k, ts[a]).eff == p
    ensures exists c :: 0 <= c < |AtLevel(k, ts, p)| && AtLevel(k, ts, p)[c] == ts[a]
  {
    var rest, all := AtLevel(k, ts[1..], p), AtLevel(k, ts, p);
    if a == 0 {
      assert all[0] == ts[0];
    } else {
      InAtLevel(k, ts[1..], p, a - 1);
      var c :| 0 <= c < |rest| && rest[c] == ts[a];
      assert all[c + (|all| - |rest|)] == ts[a];
    }
  }

  /** Among the tasks that a tick wakes, those that blocked first come first. */
  lemma DueInOrder(k: Kern, t: TaskId, u: TaskId)
    requires Linked(k) && TimersWithin(k, 1) && t < |k.aux| && u < |k.aux| && t in Due(k) && u in Due(k)
    requires A(k, t).deadline == A(k, u).deadline && A(k, t).order < A(k, u).order
    ensures InFrontOf(Due(k), t, u)
  {
    hide Linked, AscendingPosition, WakeValues, DeadlineOrder;
    var xs, ts := Items(k.lists, CurList(k)), Due(k);
    var a :| 0 <= a < |ts| && ts[a] == t;
    var b :| 0 <= b < |ts| && ts[b] == u;
    assert ts[a] == xs[a] && ts[b] == xs[b];
    if b < a {
      SoonerAt(k.aux, xs, b, a);
    }
  }

  /** At the tick of their common deadline, tasks of one priority become ready in the order of their blocks. */
  lemma TickWakesInOrder(ss: seq<Sys>, es: seq<Event>, i: nat, t: TaskId, u: TaskId)
    requires Run(ss, es) && i < |es| && es[i].Tick? && t < |ss[i].k.tcbs| && u < |ss[i].k.tcbs|
    requires var k := ss[i].k;
             && Timed(k.tcbs[t]) && Timed(k.tcbs[u]) && k.tcbs[t].eff == k.tcbs[u].eff
             && A(k, t).deadline == A(k, u).deadline == k.clock + 1 && A(k, t).order < A(k, u).order
    ensures InFrontOf(L(ss[i + 1].k, Ready(ss[i].k.tcbs[t].eff)), t, u)
  {
    hide Initial, Enabled, SysInvBut;
    Always(ss, es, i);
    KernOf(ss[i]);
    TickOrder(ss[i].k, t, u);
  }

  lemma TickOrder(k: Kern, t: TaskId, u: TaskId)
    requires KernInv(k) && t < |k.tcbs| && u < |k.tcbs| && Timed(k.tcbs[t]) && Timed(k.tcbs[u]) && k.tcbs[t].eff == k.tcbs[u].eff
    requires A(k, t).deadline == A(k, u).deadline == k.clock + 1 && A(k, t).order < A(k, u).order
    ensures InFrontOf(L(Kernel.Tick(k), Ready(k.tcbs[t].eff)), t, u)
  {
    hide Linked, Placed, TimersWithin, Queued, Kernel.Tick, Advance, Due, AtLevel, Items;
    var p := k.tcbs[t].eff;
    var k1, k' := Advance(k), Kernel.Tick(k);
    TickKeeps(k);
    AdvanceKeeps(k);
    HistoryExists(k);
    DueInOrder(k1, t, u);
    var a, b :| 0 <= a < b < |Due(k1)| && Due(k1)[a] == t && Due(k1)[b] == u;
    AtLevelKeepsOrder(k1, Due(k1), p, a, b);
    InFrontOfAppended(Items(k1.lists, Ready(p)), AtLevel(k1, Due(k1), p), t, u);
  }

  lemma HistoryExists(k: Kern)
    requires KernInv(k)
    ensures |k.aux| == |k.tcbs|
  {
  }
}
