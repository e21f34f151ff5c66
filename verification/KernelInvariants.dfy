/**
 What every routine of the scheduler keeps. `Linked` ties the item containers to the
 list contents, `Placed` says where tasks may be, `Timers` relates the two wrapping
 delayed lists to an unbounded clock, and `Queued` orders the wait lists.
 */
module KernelInvariants {
  import opened Sequences
  import opened Kernel

  ghost predicate Linked(k: Kern) {
    && (forall l, t {:trigger t in Items(k.lists, l)} :: t in Items(k.lists, l) ==>
          t < |k.tcbs| && (if IsStateList(l) then k.tcbs[t].place == Some(l) else k.tcbs[t].evt == Some(l)))
    && (forall t :: 0 <= t < |k.tcbs| && k.tcbs[t].place.Some? ==>
          IsStateList(k.tcbs[t].place.value) && t in Items(k.lists, k.tcbs[t].place.value))
    && (forall t :: 0 <= t < |k.tcbs| && k.tcbs[t].evt.Some? ==>
          !IsStateList(k.tcbs[t].evt.value) && t in Items(k.lists, k.tcbs[t].evt.value))
    && (forall l :: NoDup(Items(k.lists, l)))
  }

  ghost predicate PlacedTask(k: Kern, t: TaskId, c: Tcb) {
    && c.base <= c.eff < k.levels
    && (c.place.Some? && c.place.value.Ready? ==> c.place.value.level == c.eff)
    && (c.evt.Some? ==> Blocked(c))
    && (c.place.None? ==> k.cur == Task(t))
  }

  ghost predicate Placed(k: Kern) {
    && 1 <= k.levels <= 32
    && |k.aux| == |k.tcbs| <= k.capacity
    && (k.cur.Task? ==> k.cur.id < |k.tcbs|)
    && (forall t :: 0 <= t < |k.tcbs| ==> PlacedTask(k, t, k.tcbs[t]))
    && (forall p :: p in k.bitmap <==> Items(k.lists, Ready(p)) != [])
  }

  /** Earlier absolute deadline, or the same deadline and blocked first. */
  ghost predicate Sooner(aux: seq<Aux>, t: TaskId, u: TaskId)
    requires t < |aux| && u < |aux|
  {
    aux[t].deadline < aux[u].deadline || (aux[t].deadline == aux[u].deadline && aux[t].order < aux[u].order)
  }

  ghost predicate DeadlineOrder(aux: seq<Aux>, xs: seq<TaskId>) {
    Ordered(xs, (t: TaskId, u: TaskId) => t < |aux| && u < |aux| && Sooner(aux, t, u))
  }

  /** `slack` is 1 between the tick increment and the end of the wake-up loop, and 0 otherwise. */
  ghost predicate TimedTask(k: Kern, t: TaskId, slack: nat) {
    var d := A(k, t).deadline;
    && T(k, t).wake == d % WRAP
    && A(k, t).order < k.serial
    && (T(k, t).place == Some(CurList(k)) ==> d + slack > k.clock && d / WRAP == k.clock / WRAP)
    && (T(k, t).place == Some(NextList(k)) ==> d / WRAP == k.clock / WRAP + 1 && d < k.clock + WRAP)
  }

  ghost predicate TimersWithin(k: Kern, slack: nat) {
    && k.ticks == k.clock % WRAP
    && (forall t :: 0 <= t < |k.tcbs| && Timed(k.tcbs[t]) ==> TimedTask(k, t, slack))
    && DeadlineOrder(k.aux, Items(k.lists, DelayedA))
    && DeadlineOrder(k.aux, Items(k.lists, DelayedB))
  }

  ghost predicate Timers(k: Kern) {
    TimersWithin(k, 0)
  }

  /** Higher effective priority, or the same one and inserted first. */
  ghost predicate Ahead(k: Kern, t: TaskId, u: TaskId) {
    T(k, t).eff > T(k, u).eff || (T(k, t).eff == T(k, u).eff && A(k, t).queued < A(k, u).queued)
  }

  ghost predicate PriorityOrder(k: Kern, xs: seq<TaskId>) {
    Ordered(xs, (t: TaskId, u: TaskId) => Ahead(k, t, u))
  }

  ghost predicate Queued(k: Kern) {
    && (forall t :: 0 <= t < |k.tcbs| && k.tcbs[t].evt.Some? ==>
          k.tcbs[t].evtValue == k.tcbs[t].eff && A(k, t).queued < k.serial)
    && (forall l :: !IsStateList(l) ==> PriorityOrder(k, Items(k.lists, l)))
  }

  ghost predicate KernInv(k: Kern) {
    Linked(k) && Placed(k) && Timers(k) && Queued(k)
  }

  // ---------------------------------------------------------------- Linked

  lemma LinkedLinkState(k: Kern, t: TaskId, l: ListId, i: nat)
    requires Linked(k) && t < |k.tcbs| && T(k, t).place.None? && IsStateList(l) && i <= |L(k, l)|
    ensures Linked(LinkState(k, t, l, i))
  {
    hide InsertAt, NoDup;
    InsertAtMembers(L(k, l), i, t);
  }

  lemma LinkedUnlinkState(k: Kern, t: TaskId)
    requires Linked(k)
    ensures Linked(UnlinkState(k, t))
  {
    hide Remove, NoDup;
    if T(k, t).place.Some? {
      RemoveMembers(L(k, T(k, t).place.value), t);
    }
  }

  lemma LinkedLinkEvent(k: Kern, t: TaskId, l: ListId)
    requires Linked(k) && t < |k.tcbs| && T(k, t).evt.None? && !IsStateList(l)
    ensures Linked(LinkEvent(k, t, l))
  {
    hide InsertAt, DescendingPosition, EventValues, NoDup;
    InsertAtMembers(L(k, l), DescendingPosition(EventValues(k, L(k, l)), T(k, t).eff), t);
  }

  lemma LinkedUnlinkEvent(k: Kern, t: TaskId)
    requires Linked(k)
    ensures Linked(UnlinkEvent(k, t))
  {
    hide Remove, NoDup;
    if T(k, t).evt.Some? {
      RemoveMembers(L(k, T(k, t).evt.value), t);
    }
  }

  lemma LinkedInsertReady(k: Kern, t: TaskId)
    requires Linked(k) && t < |k.tcbs|
    ensures Linked(InsertReady(k, t))
  {
    hide LinkState;
    var p := T(k, t).eff;
    if p < k.levels && T(k, t).place.None? {
      LinkedLinkState(k, t, Ready(p), |L(k, Ready(p))|);
      LinkedSame(LinkState(k, t, Ready(p), |L(k, Ready(p))|), InsertReady(k, t));
    }
  }

  /** Only the containers of the items and the lists themselves matter to `Linked`. */
  lemma LinkedSame(k: Kern, k': Kern)
    requires Linked(k) && k'.lists == k.lists && |k'.tcbs| == |k.tcbs|
    requires forall t :: 0 <= t < |k.tcbs| ==> k'.tcbs[t].place == k.tcbs[t].place && k'.tcbs[t].evt == k.tcbs[t].evt
    ensures Linked(k')
  {
  }

  lemma LinkedBlockState(k: Kern, t: TaskId, wake: nat, infinite: bool)
    requires Linked(k) && t < |k.tcbs| && T(k, t).place.None?
    ensures Linked(BlockState(k, t, wake, infinite))
  {
    hide Linked, LinkState, AscendingPosition, WakeValues;
    var k1 := WithTask(k, t, T(k, t).(wake := wake));
    LinkedSame(k, k1);
    var l := if infinite then Suspended else if wake < k.ticks then NextList(k) else CurList(k);
    var i := if infinite then |L(k1, l)| else AscendingPosition(WakeValues(k1, L(k1, l)), wake);
    LinkedLinkState(k1, t, l, i);
    LinkedSame(LinkState(k1, t, l, i), BlockState(k, t, wake, infinite));
  }

  lemma LinkedUnblock(k: Kern, t: TaskId, reason: Reason)
    requires Linked(k)
    ensures Linked(Unblock(k, t, reason))
  {
    hide Linked, UnlinkState, UnlinkEvent, InsertReady;
    if Blocked(T(k, t)) {
      LinkedUnlinkState(k, t);
      LinkedUnlinkEvent(UnlinkState(k, t), t);
      var k1 := InsertReady(UnlinkEvent(UnlinkState(k, t), t), t);
      LinkedInsertReady(UnlinkEvent(UnlinkState(k, t), t), t);
      LinkedSame(k1, WithReason(k1, t, reason));
    }
  }

  lemma LinkedRequalify(k: Kern, t: TaskId, p: nat)
    requires Linked(k) && t < |k.tcbs|
    ensures Linked(Requalify(k, t, p))
  {
    hide Linked, UnlinkEvent, LinkEvent;
    LinkedUnlinkEvent(k, t);
    var k1 := UnlinkEvent(k, t);
    var k2 := WithTask(k1, t, T(k1, t).(eff := p));
    LinkedSame(k1, k2);
    if T(k, t).evt.Some? {
      EventListOf(k, t);
      LinkedLinkEvent(k2, t, T(k, t).evt.value);
    }
  }

  lemma LinkedLeaveReady(k: Kern, t: TaskId)
    requires Linked(k)
    ensures Linked(LeaveReady(k, t))
  {
    hide Linked, UnlinkState;
    LinkedUnlinkState(k, t);
    LinkedSame(UnlinkState(k, t), ClearIfEmpty(UnlinkState(k, t), T(k, t).eff));
  }

  lemma LinkedRelevel(k: Kern, t: TaskId, p: nat)
    requires Linked(k) && t < |k.tcbs|
    ensures Linked(Relevel(k, t, p))
  {
    hide Linked, UnlinkState, Requalify, InsertReady;
    LinkedLeaveReady(k, t);
    LinkedRequalify(LeaveReady(k, t), t, p);
    LinkedInsertReady(Requalify(LeaveReady(k, t), t, p), t);
  }

  lemma EventListOf(k: Kern, t: TaskId)
    requires Linked(k) && T(k, t).evt.Some?
    ensures !IsStateList(T(k, t).evt.value)
  {
  }

  // ---------------------------------------------------------------- Effects

  ghost predicate OnlyTask(k: Kern, k': Kern, t: TaskId) {
    |k'.tcbs| == |k.tcbs| && forall u :: 0 <= u < |k.tcbs| && u != t ==> k'.tcbs[u] == k.tcbs[u]
  }

  /** Unblocking moves one task from its delayed or suspend list and its wait list to the back of a ready list. */
  ghost predicate UnblockEffect(k: Kern, k': Kern, t: TaskId, reason: Reason) {
    && t < |k.tcbs| && Blocked(k.tcbs[t])
    && var c := k.tcbs[t];
    && k' == k.(tcbs := k'.tcbs, lists := k'.lists, bitmap := k.bitmap + {c.eff})
    && OnlyTask(k, k', t)
    && k'.tcbs[t] == c.(place := Some(Ready(c.eff)), evt := None, reason := reason)
    && forall l :: Items(k'.lists, l) ==
                   if l == Ready(c.eff) then Items(k.lists, l) + [t]
                   else if c.place == Some(l) || c.evt == Some(l) then Remove(Items(k.lists, l), t)
                   else Items(k.lists, l)
  }

  lemma UnblockHasEffect(k: Kern, t: TaskId, reason: Reason)
    requires Linked(k) && Blocked(T(k, t)) && T(k, t).eff < k.levels
    ensures UnblockEffect(k, Unblock(k, t, reason), t, reason)
  {
    hide Linked, Remove, UnlinkState, UnlinkEvent, InsertReady;
    EventNotState(k, t);
  }

  lemma EventNotState(k: Kern, t: TaskId)
    requires Linked(k) && t < |k.tcbs|
    ensures k.tcbs[t].evt.Some? ==> !IsStateList(k.tcbs[t].evt.value)
  {
  }

  lemma ListNoDup(k: Kern, l: ListId)
    requires Linked(k)
    ensures NoDup(Items(k.lists, l))
  {
  }

  /** Changing the effective priority keeps every container kind: ready stays ready, waiting stays waiting. */
  ghost predicate RelevelEffect(k: Kern, k': Kern, t: TaskId, p: nat) {
    && t < |k.tcbs| == |k.aux|
    && RelevelTasks(k, k', t, p)
    && RelevelAux(k, k', t)
    && RelevelLists(k, k', t, p)
    && (k.tcbs[t].evt.Some? ==>
          Reinserted(k, Remove(Items(k.lists, k.tcbs[t].evt.value), t), Items(k'.lists, k.tcbs[t].evt.value), t, p))
  }

  ghost predicate RelevelTasks(k: Kern, k': Kern, t: TaskId, p: nat)
    requires t < |k.tcbs| == |k.aux|
  {
    var c := k.tcbs[t];
    var isReady := c.place == Some(Ready(c.eff));
    && k' == k.(tcbs := k'.tcbs, lists := k'.lists, bitmap := k'.bitmap, aux := k'.aux, serial := k'.serial)
    && OnlyTask(k, k', t)
    && k'.tcbs[t] == c.(eff := p, place := if isReady then Some(Ready(p)) else c.place,
                        evtValue := if c.evt.Some? then p else c.evtValue)
    && k'.bitmap == if !isReady then k.bitmap
                    else (if Remove(Items(k.lists, Ready(c.eff)), t) == [] then k.bitmap - {c.eff} else k.bitmap) + {p}
  }

  ghost predicate RelevelAux(k: Kern, k': Kern, t: TaskId)
    requires t < |k.tcbs| == |k.aux|
  {
    var waiting := k.tcbs[t].evt.Some?;
    && k'.aux == (if waiting then k.aux[t := k.aux[t].(queued := k.serial)] else k.aux)
    && k'.serial == (if waiting then k.serial + 1 else k.serial)
  }

  ghost predicate RelevelLists(k: Kern, k': Kern, t: TaskId, p: nat)
    requires t < |k.tcbs| == |k.aux|
  {
    var c := k.tcbs[t];
    var isReady := c.place == Some(Ready(c.eff));
    forall l :: c.evt != Some(l) ==>
      Items(k'.lists, l) == (if isReady && l == Ready(c.eff) then Remove(Items(k.lists, l), t)
                             else if isReady && l == Ready(p) then Items(k.lists, l) + [t]
                             else Items(k.lists, l))
  }

  /** `ys` is `xs` with `t` behind the last task whose event value is at least `p`. */
  ghost predicate Reinserted(k: Kern, xs: seq<TaskId>, ys: seq<TaskId>, t: TaskId, p: nat) {
    exists i :: 0 <= i <= |xs| && ys == InsertAt(xs, i, t)
                && (forall j :: i <= j < |xs| ==> T(k, xs[j]).evtValue < p)
                && (i > 0 ==> T(k, xs[i - 1]).evtValue >= p)
  }

  lemma RelevelHasTaskEffect(k: Kern, t: TaskId, p: nat)
    requires Linked(k) && t < |k.tcbs| == |k.aux| && p < k.levels && T(k, t).eff != p
    ensures RelevelTasks(k, Relevel(k, t, p), t, p) && RelevelAux(k, Relevel(k, t, p), t)
    ensures RelevelLists(k, Relevel(k, t, p), t, p)
  {
    hide Linked, Remove, Items, LeaveReady, Requalify, InsertReady;
    EventNotState(k, t);
  }

  lemma RequalifyReinserts(k: Kern, t: TaskId, p: nat)
    requires Linked(k) && t < |k.tcbs| && k.tcbs[t].evt.Some?
    ensures var l := k.tcbs[t].evt.value;
            Reinserted(k, Remove(Items(k.lists, l), t), Items(Requalify(k, t, p).lists, l), t, p)
  {
    hide Linked, Remove, DescendingPosition, EventValues, NoDup, InsertAt, Items, UnlinkEvent, LinkEvent;
    var l := k.tcbs[t].evt.value;
    ListNoDup(k, l);
    RemoveMembers(Items(k.lists, l), t);
    var k1 := UnlinkEvent(k, t);
    var k2 := WithTask(k1, t, T(k1, t).(eff := p));
    var ys := Items(k2.lists, l);
    assert ys == Remove(Items(k.lists, l), t);
    var i := DescendingPosition(EventValues(k2, ys), p);
    assert Items(LinkEvent(k2, t, l).lists, l) == InsertAt(ys, i, t);
    forall j | 0 <= j < |ys| ensures T(k, ys[j]).evtValue == EventValues(k2, ys)[j] {
      assert ys[j] in ys && ys[j] != t;
    }
  }

  lemma RelevelHasEventEffect(k: Kern, t: TaskId, p: nat)
    requires Linked(k) && t < |k.tcbs| == |k.aux| && p < k.levels && T(k, t).eff != p && k.tcbs[t].evt.Some?
    ensures var l := k.tcbs[t].evt.value;
            Reinserted(k, Remove(Items(k.lists, l), t), Items(Relevel(k, t, p).lists, l), t, p)
  {
    hide Linked, Remove, Items, LeaveReady, Requalify, InsertReady, InsertAt;
    EventNotState(k, t);
    LinkedLeaveReady(k, t);
    RequalifyReinserts(LeaveReady(k, t), t, p);
  }

  lemma RelevelHasEffect(k: Kern, t: TaskId, p: nat)
    requires Linked(k) && t < |k.tcbs| == |k.aux| && p < k.levels && T(k, t).eff != p
    ensures RelevelEffect(k, Relevel(k, t, p), t, p)
  {
    hide Linked, Relevel, RelevelTasks, RelevelLists, RelevelAux, Reinserted;
    RelevelHasTaskEffect(k, t, p);
    if k.tcbs[t].evt.Some? {
      RelevelHasEventEffect(k, t, p);
    }
  }

  // ---------------------------------------------------------------- Unblock

  lemma PlacedUnblock(k: Kern, k': Kern, t: TaskId, reason: Reason)
    requires Linked(k) && Placed(k) && UnblockEffect(k, k', t, reason)
    ensures Placed(k')
  {
    hide Remove, Items, NoDup;
    EventNotState(k, t);
  }

  lemma TimersUnblock(k: Kern, k': Kern, t: TaskId, reason: Reason, slack: nat)
    requires Linked(k) && TimersWithin(k, slack) && UnblockEffect(k, k', t, reason)
    ensures TimersWithin(k', slack)
  {
    hide Linked, Remove, Items, DeadlineOrder;
    EventNotState(k, t);
    DeadlineOrderRemove(k.aux, Items(k.lists, DelayedA), t);
    DeadlineOrderRemove(k.aux, Items(k.lists, DelayedB), t);
  }

  lemma DeadlineOrderRemove(aux: seq<Aux>, xs: seq<TaskId>, t: TaskId)
    requires DeadlineOrder(aux, xs)
    ensures DeadlineOrder(aux, Remove(xs, t))
  {
    OrderedRemove(xs, t, (t: TaskId, u: TaskId) => t < |aux| && u < |aux| && Sooner(aux, t, u));
  }

  lemma PriorityOrderRemove(k: Kern, xs: seq<TaskId>, t: TaskId)
    requires PriorityOrder(k, xs)
    ensures PriorityOrder(k, Remove(xs, t))
  {
    OrderedRemove(xs, t, (t: TaskId, u: TaskId) => Ahead(k, t, u));
  }

  lemma PriorityOrderSame(k: Kern, k': Kern, xs: seq<TaskId>)
    requires PriorityOrder(k, xs)
    requires forall t :: t in xs ==> T(k', t).eff == T(k, t).eff && A(k', t).queued == A(k, t).queued
    ensures PriorityOrder(k', xs)
  {
    OrderedCongruent(xs, (t: TaskId, u: TaskId) => Ahead(k, t, u), (t: TaskId, u: TaskId) => Ahead(k', t, u));
  }

  lemma QueuedUnblock(k: Kern, k': Kern, t: TaskId, reason: Reason)
    requires Linked(k) && Queued(k) && UnblockEffect(k, k', t, reason)
    ensures Queued(k')
  {
    hide Linked, Remove, Items, PriorityOrder;
    EventNotState(k, t);
    forall l | !IsStateList(l) ensures PriorityOrder(k', Items(k'.lists, l)) {
      PriorityOrderRemove(k, Items(k.lists, l), t);
      PriorityOrderSame(k, k', Items(k'.lists, l));
    }
  }

  /** One wake-up inside the tick handler; with no slack it is the wake-up of a signal. */
  lemma UnblockKeepsWithin(k: Kern, t: TaskId, reason: Reason, slack: nat)
    requires Linked(k) && Placed(k) && TimersWithin(k, slack) && Queued(k)
    ensures var k' := Unblock(k, t, reason);
            Linked(k') && Placed(k') && TimersWithin(k', slack) && Queued(k')
  {
    hide Linked, Unblock, UnblockEffect, TimersWithin, Queued;
    if Blocked(T(k, t)) {
      UnblockHasEffect(k, t, reason);
      var k' := Unblock(k, t, reason);
      LinkedUnblock(k, t, reason);
      PlacedUnblock(k, k', t, reason);
      TimersUnblock(k, k', t, reason, slack);
      QueuedUnblock(k, k', t, reason);
    } else {
      UnblockElse(k, t, reason);
    }
  }

  lemma UnblockElse(k: Kern, t: TaskId, reason: Reason)
    requires !Blocked(T(k, t))
    ensures Unblock(k, t, reason) == k
  {
  }

  lemma UnblockKeeps(k: Kern, t: TaskId, reason: Reason)
    requires KernInv(k)
    ensures KernInv(Unblock(k, t, reason))
  {
    hide Linked, Unblock, Placed, TimersWithin, Queued;
    UnblockKeepsWithin(k, t, reason, 0);
  }

  // ---------------------------------------------------------------- Relevel

  lemma PlacedRelevel(k: Kern, k': Kern, t: TaskId, p: nat)
    requires Linked(k) && Placed(k) && RelevelEffect(k, k', t, p)
    requires k.tcbs[t].base <= p < k.levels && k.tcbs[t].eff != p
    ensures Placed(k')
  {
    hide Remove, Items, NoDup, Reinserted;
    EventNotState(k, t);
  }

  lemma TimersRelevel(k: Kern, k': Kern, t: TaskId, p: nat)
    requires Linked(k) && Timers(k) && RelevelEffect(k, k', t, p)
    ensures Timers(k')
  {
    hide Linked, Remove, Items, DeadlineOrder, Reinserted;
    EventNotState(k, t);
    DeadlineOrderQueued(k.aux, k'.aux, Items(k.lists, DelayedA));
    DeadlineOrderQueued(k.aux, k'.aux, Items(k.lists, DelayedB));
  }

  lemma DeadlineOrderQueued(aux: seq<Aux>, aux': seq<Aux>, xs: seq<TaskId>)
    requires DeadlineOrder(aux, xs) && |aux'| == |aux|
    requires forall t :: 0 <= t < |aux| ==> aux'[t].deadline == aux[t].deadline && aux'[t].order == aux[t].order
    ensures DeadlineOrder(aux', xs)
  {
    OrderedCongruent(xs, (t: TaskId, u: TaskId) => t < |aux| && u < |aux| && Sooner(aux, t, u),
                     (t: TaskId, u: TaskId) => t < |aux'| && u < |aux'| && Sooner(aux', t, u));
  }

  /** The scan of the descending insert finds the stable place, because event values are the priorities. */
  lemma PriorityOrderReinsert(k: Kern, k': Kern, xs: seq<TaskId>, ys: seq<TaskId>, t: TaskId, p: nat)
    requires PriorityOrder(k, xs) && t !in xs && Reinserted(k, xs, ys, t, p)
    requires T(k', t).eff == p
    requires forall u :: u in xs ==> T(k, u).evtValue == T(k, u).eff == T(k', u).eff
                                     && A(k', u).queued == A(k, u).queued < A(k', t).queued
    ensures PriorityOrder(k', ys)
  {
    hide InsertAt;
    PriorityOrderSame(k, k', xs);
    var i :| 0 <= i <= |xs| && ys == InsertAt(xs, i, t)
             && (forall j :: i <= j < |xs| ==> T(k, xs[j]).evtValue < p)
             && (i > 0 ==> T(k, xs[i - 1]).evtValue >= p);
    forall j | 0 <= j < i ensures Ahead(k', xs[j], t) {
      assert xs[j] in xs && xs[i - 1] in xs;
      assert j < i - 1 ==> Ahead(k, xs[j], xs[i - 1]);
    }
    forall j | i <= j < |xs| ensures Ahead(k', t, xs[j]) {
      assert xs[j] in xs;
    }
    OrderedInsert(xs, i, t, (t: TaskId, u: TaskId) => Ahead(k', t, u));
  }

  lemma QueuedRelevel(k: Kern, k': Kern, t: TaskId, p: nat)
    requires Linked(k) && Queued(k) && RelevelEffect(k, k', t, p)
    ensures Queued(k')
  {
    hide Remove, Items, PriorityOrder, Reinserted, NoDup;
    EventNotState(k, t);
    forall l | !IsStateList(l) ensures PriorityOrder(k', Items(k'.lists, l)) {
      var xs := Items(k.lists, l);
      if k.tcbs[t].evt == Some(l) {
        PriorityOrderRemove(k, xs, t);
        RemoveMembers(xs, t);
        PriorityOrderReinsert(k, k', Remove(xs, t), Items(k'.lists, l), t, p);
      } else {
        PriorityOrderSame(k, k', xs);
      }
    }
  }

  lemma SetEffectiveKeeps(k: Kern, t: TaskId, p: nat)
    requires KernInv(k) && t < |k.tcbs|
    ensures KernInv(SetEffective(k, t, p))
  {
    hide Linked, Timers, Queued, Relevel, RelevelEffect;
    if !(T(k, t).eff == p || T(k, t).base > p || p >= k.levels) {
      RelevelHasEffect(k, t, p);
      var k' := Relevel(k, t, p);
      LinkedRelevel(k, t, p);
      PlacedRelevel(k, k', t, p);
      TimersRelevel(k, k', t, p);
      QueuedRelevel(k, k', t, p);
    }
  }

  // ---------------------------------------------------------------- Block

  /** Where the state item of a task that blocks until `wake` goes. */
  ghost function BlockList(k: Kern, wake: nat, infinite: bool): ListId {
    if infinite then Suspended else if wake < k.ticks then NextList(k) else CurList(k)
  }

  ghost predicate BlockEffect(k: Kern, k': Kern, t: TaskId, wake: nat, infinite: bool) {
    && t < |k.tcbs| == |k.aux|
    && var l := BlockList(k, wake, infinite);
    && k' == k.(tcbs := k'.tcbs, lists := k'.lists, aux := k'.aux, serial := k'.serial)
    && OnlyTask(k, k', t)
    && k'.tcbs[t] == k.tcbs[t].(place := Some(l), wake := wake)
    && (if infinite then k'.aux == k.aux && k'.serial == k.serial
        else k'.aux == k.aux[t := k.aux[t].(deadline := k.clock + Distance(k, wake), order := k.serial)]
             && k'.serial == k.serial + 1)
    && (forall m :: m != l ==> Items(k'.lists, m) == Items(k.lists, m))
    && BlockInserted(k, Items(k.lists, l), Items(k'.lists, l), t, wake, infinite)
  }

  ghost predicate BlockInserted(k: Kern, xs: seq<TaskId>, ys: seq<TaskId>, t: TaskId, wake: nat, infinite: bool) {
    exists i :: 0 <= i <= |xs| && ys == InsertAt(xs, i, t) && (infinite ==> i == |xs|)
                && (!infinite ==> (forall j :: 0 <= j < i ==> T(k, xs[j]).wake <= wake)
                                  && (i < |xs| ==> T(k, xs[i]).wake > wake))
  }

  lemma BlockHasEffect(k: Kern, t: TaskId, wake: nat, infinite: bool)
    requires Linked(k) && t < |k.tcbs| == |k.aux| && T(k, t).place.None?
    ensures BlockEffect(k, BlockState(k, t, wake, infinite), t, wake, infinite)
  {
    hide Linked, Items, LinkState, AscendingPosition, WakeValues, InsertAt;
    var k1 := WithTask(k, t, T(k, t).(wake := wake));
    var l := BlockList(k, wake, infinite);
    var xs := Items(k1.lists, l);
    var i := if infinite then |xs| else AscendingPosition(WakeValues(k1, xs), wake);
    var k' := BlockState(k, t, wake, infinite);
    assert Items(k'.lists, l) == InsertAt(xs, i, t);
    NotListed(k, t, l);
    if !infinite {
      forall j | 0 <= j < |xs| ensures T(k, xs[j]).wake == WakeValues(k1, xs)[j] {
        assert xs[j] in xs;
      }
    }
  }

  lemma NotListed(k: Kern, t: TaskId, l: ListId)
    requires Linked(k) && T(k, t).place.None? && IsStateList(l)
    ensures t !in Items(k.lists, l)
  {
  }

  /** The 32-bit wake tick and the absolute deadline it stands for, on both sides of a wrap. */
  lemma DeadlineEpoch(k: Kern, wake: nat)
    requires k.ticks == k.clock % WRAP && wake < WRAP && wake != k.ticks
    ensures var d := k.clock + Distance(k, wake);
            && d % WRAP == wake && k.clock < d < k.clock + WRAP
            && d / WRAP == k.clock / WRAP + (if wake < k.ticks then 1 else 0)
  {
    var e := k.clock / WRAP;
    assert k.clock == e * WRAP + k.ticks;
    var d := k.clock + Distance(k, wake);
    if wake < k.ticks {
      assert d == (e + 1) * WRAP + wake;
    } else {
      assert d == e * WRAP + wake;
    }
  }

  /** Equal epochs: comparing wake ticks is comparing deadlines. */
  lemma SameEpoch(c: nat, d: nat)
    requires c / WRAP == d / WRAP
    ensures c <= d <==> c % WRAP <= d % WRAP
  {
  }

  lemma TimersBlock(k: Kern, k': Kern, t: TaskId, wake: nat, infinite: bool)
    requires Linked(k) && Timers(k) && BlockEffect(k, k', t, wake, infinite) && T(k, t).place.None?
    requires !infinite ==> wake < WRAP && wake != k.ticks
    ensures Timers(k')
  {
    hide Linked, Items, DeadlineOrder, InsertAt, BlockInserted;
    NotListed(k, t, DelayedA);
    NotListed(k, t, DelayedB);
    if !infinite {
      DeadlineEpoch(k, wake);
      var l := BlockList(k, wake, infinite);
      TimersBlockOrder(k, k', t, wake);
      var m := if l == DelayedA then DelayedB else DelayedA;
      DeadlineOrderFrame(k.aux, k'.aux, Items(k.lists, m), t);
    }
  }

  lemma DeadlineOrderFrame(aux: seq<Aux>, aux': seq<Aux>, xs: seq<TaskId>, t: TaskId)
    requires DeadlineOrder(aux, xs) && |aux'| == |aux| && t !in xs
    requires forall u :: 0 <= u < |aux| && u != t ==> aux'[u] == aux[u]
    ensures DeadlineOrder(aux', xs)
  {
    OrderedCongruent(xs, (t: TaskId, u: TaskId) => t < |aux| && u < |aux| && Sooner(aux, t, u),
                     (t: TaskId, u: TaskId) => t < |aux'| && u < |aux'| && Sooner(aux', t, u));
  }

  /** The ascending insert by wake tick keeps the list in the order of absolute deadlines, ties by block order. */
  lemma TimersBlockOrder(k: Kern, k': Kern, t: TaskId, wake: nat)
    requires Linked(k) && Timers(k) && BlockEffect(k, k', t, wake, false) && T(k, t).place.None?
    requires wake < WRAP && wake != k.ticks
    ensures DeadlineOrder(k'.aux, Items(k'.lists, BlockList(k, wake, false)))
  {
    hide Items, InsertAt, NoDup, DeadlineOrder;
    var l := BlockList(k, wake, false);
    var xs := Items(k.lists, l);
    DeadlineEpoch(k, wake);
    NotListed(k, t, l);
    assert DeadlineOrder(k.aux, xs);
    DeadlineOrderFrame(k.aux, k'.aux, xs, t);
    forall u | u in xs
      ensures u < |k.aux| && k.aux[u] == k'.aux[u] && k.aux[u].order < k'.aux[t].order
      ensures k.aux[u].deadline / WRAP == k'.aux[t].deadline / WRAP
      ensures k.aux[u].deadline % WRAP == T(k, u).wake && k'.aux[t].deadline % WRAP == wake
    {
      assert TimedTask(k, u, 0);
    }
    InsertByWake(k, k'.aux, xs, Items(k'.lists, l), t, wake);
  }

  lemma InsertByWake(k: Kern, aux: seq<Aux>, xs: seq<TaskId>, ys: seq<TaskId>, t: TaskId, wake: nat)
    requires DeadlineOrder(aux, xs) && t < |aux| && BlockInserted(k, xs, ys, t, wake, false)
    requires aux[t].deadline % WRAP == wake
    requires forall u :: u in xs ==>
               u < |aux| && aux[u].order < aux[t].order && aux[u].deadline / WRAP == aux[t].deadline / WRAP
               && aux[u].deadline % WRAP == T(k, u).wake
    ensures DeadlineOrder(aux, ys)
  {
    hide InsertAt, T;
    var i :| 0 <= i <= |xs| && ys == InsertAt(xs, i, t)
             && (forall j :: 0 <= j < i ==> T(k, xs[j]).wake <= wake) && (i < |xs| ==> T(k, xs[i]).wake > wake);
    forall j | 0 <= j < i ensures xs[j] < |aux| && Sooner(aux, xs[j], t) {
      assert xs[j] in xs;
      SameEpoch(aux[xs[j]].deadline, aux[t].deadline);
    }
    forall j | i <= j < |xs| ensures xs[j] < |aux| && Sooner(aux, t, xs[j]) {
      assert xs[j] in xs && xs[i] in xs;
      SameEpoch(aux[xs[i]].deadline, aux[t].deadline);
      assert j > i ==> Sooner(aux, xs[i], xs[j]);
    }
    OrderedInsert(xs, i, t, (t: TaskId, u: TaskId) => t < |aux| && u < |aux| && Sooner(aux, t, u));
  }

  lemma PlacedBlock(k: Kern, k': Kern, t: TaskId, wake: nat, infinite: bool)
    requires Linked(k) && Placed(k) && BlockEffect(k, k', t, wake, infinite) && T(k, t).place.None?
    ensures Placed(k')
  {
    hide Linked, Items, InsertAt, BlockInserted;
  }

  lemma QueuedBlock(k: Kern, k': Kern, t: TaskId, wake: nat, infinite: bool)
    requires Linked(k) && Queued(k) && BlockEffect(k, k', t, wake, infinite)
    ensures Queued(k')
  {
    hide Linked, Items, InsertAt, BlockInserted, PriorityOrder;
    forall l | !IsStateList(l) ensures PriorityOrder(k', Items(k'.lists, l)) {
      PriorityOrderSame(k, k', Items(k.lists, l));
    }
  }

  lemma BlockStateKeeps(k: Kern, t: TaskId, wake: nat, infinite: bool)
    requires KernInv(k) && t < |k.tcbs| && T(k, t).place.None?
    requires !infinite ==> wake < WRAP && wake != k.ticks
    ensures KernInv(BlockState(k, t, wake, infinite))
  {
    hide Linked, Timers, Queued, BlockState, BlockEffect;
    BlockHasEffect(k, t, wake, infinite);
    var k' := BlockState(k, t, wake, infinite);
    LinkedBlockState(k, t, wake, infinite);
    PlacedBlock(k, k', t, wake, infinite);
    TimersBlock(k, k', t, wake, infinite);
    QueuedBlock(k, k', t, wake, infinite);
  }

  lemma QueuedLinkEvent(k: Kern, t: TaskId, l: ListId)
    requires Linked(k) && Queued(k) && t < |k.tcbs| == |k.aux| && T(k, t).evt.None? && !IsStateList(l)
    ensures Queued(LinkEvent(k, t, l))
  {
    hide Items, InsertAt, DescendingPosition, EventValues, LinkEvent, PriorityOrder, NoDup;
    var k' := LinkEvent(k, t, l);
    forall m | !IsStateList(m) ensures PriorityOrder(k', Items(k'.lists, m)) {
      var xs := Items(k.lists, m);
      if m == l {
        var i := DescendingPosition(EventValues(k, xs), T(k, t).eff);
        assert Reinserted(k, xs, InsertAt(xs, i, t), t, T(k, t).eff);
        PriorityOrderReinsert(k, k', xs, InsertAt(xs, i, t), t, T(k, t).eff);
      } else {
        PriorityOrderSame(k, k', xs);
      }
    }
  }

  lemma LinkEventKeeps(k: Kern, t: TaskId, l: ListId)
    requires KernInv(k) && t < |k.tcbs| && Blocked(T(k, t)) && T(k, t).evt.None? && !IsStateList(l)
    ensures KernInv(LinkEvent(k, t, l))
  {
    hide Linked, Queued, LinkEvent, DeadlineOrder, Items, InsertAt;
    var k' := LinkEvent(k, t, l);
    LinkedLinkEvent(k, t, l);
    QueuedLinkEvent(k, t, l);
    DeadlineOrderQueued(k.aux, k'.aux, Items(k.lists, DelayedA));
    DeadlineOrderQueued(k.aux, k'.aux, Items(k.lists, DelayedB));
  }

  lemma BlockKeeps(k: Kern, wake: nat, waitOn: Option<ListId>, infinite: bool)
    requires KernInv(k)
    requires !infinite ==> wake < WRAP && wake != k.ticks
    requires waitOn.Some? ==> !IsStateList(waitOn.value)
    ensures KernInv(BlockCurrent(k, wake, waitOn, infinite))
  {
    hide Linked, Timers, Queued, BlockState, LinkEvent;
    if k.cur.Task? && T(k, k.cur.id).place.None? {
      var t := k.cur.id;
      BlockStateKeeps(k, t, wake, infinite);
      if waitOn.Some? {
        BlockedAfter(k, t, wake, infinite);
        LinkEventKeeps(BlockState(k, t, wake, infinite), t, waitOn.value);
      }
    }
  }

  lemma BlockedAfter(k: Kern, t: TaskId, wake: nat, infinite: bool)
    requires KernInv(k) && t < |k.tcbs| && T(k, t).place.None?
    ensures var k' := BlockState(k, t, wake, infinite);
            |k'.tcbs| == |k.tcbs| && Blocked(T(k', t)) && T(k', t).evt.None?
  {
    hide Linked, Items, BlockState, BlockInserted;
    BlockHasEffect(k, t, wake, infinite);
  }
}
