/**
 The scheduler of aRTOS as a value: task control blocks, the linked lists with their
 contents in order, the ready bitmap, the two delayed lists and the 32-bit tick.
 Every function below is one routine of the kernel, taken as a step on that value.

 Accessors are total: a task or list that does not exist reads as blank. The fields
 `clock`, `serial` and `aux` are history: they record the unbounded time, the order of
 insertions and the absolute deadlines, and no branch ever depends on them.
 */
module Kernel {
  import opened Sequences

  const WRAP: nat := 0x1_0000_0000
  const HALF: nat := 0x8000_0000
  const INFINITE: nat := 0xFFFF_FFFF
  const MIN_STACK_WORDS: nat := 64

  type TaskId = nat

  datatype Option<+T> = None | Some(value: T)

  datatype Reason = NoReason | Signaled | TimedOut

  datatype Status = Ok | InvalidArgument | TaskLimit | StackTooSmall | NoTasks

  /** The identity of a list head: scheduler lists first, then the wait lists of the objects. */
  datatype ListId =
    | Ready(level: nat)
    | DelayedA
    | DelayedB
    | Suspended
    | Lockers(mutex: nat)
    | Takers(sem: nat)
    | Readers(queue: nat)
    | Writers(queue: nat)

  /** `place` is the container of the state item and `evt` that of the event item. */
  datatype Tcb = Tcb(
    base: nat,
    eff: nat,
    held: nat,
    place: Option<ListId>,
    wake: nat,
    evt: Option<ListId>,
    evtValue: nat,
    reason: Reason)

  /** History of a task: absolute deadline, position in the order of blocks, and of event insertions. */
  datatype Aux = Aux(deadline: nat, order: nat, queued: nat)

  datatype Cur = NoTask | Idle | Task(id: TaskId)

  datatype Kern = Kern(
    levels: nat,
    capacity: nat,
    tcbs: seq<Tcb>,
    cur: Cur,
    pending: bool,
    ticks: nat,
    lists: map<ListId, seq<TaskId>>,
    bitmap: set<nat>,
    curIsA: bool,
    clock: nat,
    serial: nat,
    aux: seq<Aux>)

  const BLANK_TCB := Tcb(0, 0, 0, None, 0, None, 0, NoReason)

  function T(k: Kern, t: TaskId): Tcb {
    if t < |k.tcbs| then k.tcbs[t] else BLANK_TCB
  }

  function WithTask(k: Kern, t: TaskId, c: Tcb): Kern {
    if t < |k.tcbs| then k.(tcbs := k.tcbs[t := c]) else k
  }

  function A(k: Kern, t: TaskId): Aux {
    if t < |k.aux| then k.aux[t] else Aux(0, 0, 0)
  }

  function WithAux(k: Kern, t: TaskId, a: Aux): Kern {
    if t < |k.aux| then k.(aux := k.aux[t := a]) else k
  }

  /** The tasks linked in list `l`, in order; a list nobody has linked into is empty. */
  function Items(lists: map<ListId, seq<TaskId>>, l: ListId): seq<TaskId> {
    if l in lists then lists[l] else []
  }

  function PutItems(lists: map<ListId, seq<TaskId>>, l: ListId, xs: seq<TaskId>): (lists': map<ListId, seq<TaskId>>)
    ensures forall m :: Items(lists', m) == if m == l then xs else Items(lists, m)
  {
    lists[l := xs]
  }

  function L(k: Kern, l: ListId): seq<TaskId> {
    Items(k.lists, l)
  }

  function WithList(k: Kern, l: ListId, xs: seq<TaskId>): Kern {
    k.(lists := PutItems(k.lists, l, xs))
  }

  predicate IsStateList(l: ListId) {
    l.Ready? || l.DelayedA? || l.DelayedB? || l.Suspended?
  }

  predicate IsTimedList(l: ListId) {
    l.DelayedA? || l.DelayedB?
  }

  /** The task is linked in a delayed list or in the suspend list. */
  predicate Blocked(c: Tcb) {
    c.place.Some? && (IsTimedList(c.place.value) || c.place.value.Suspended?)
  }

  predicate Timed(c: Tcb) {
    c.place.Some? && IsTimedList(c.place.value)
  }

  function CurList(k: Kern): ListId {
    if k.curIsA then DelayedA else DelayedB
  }

  function NextList(k: Kern): ListId {
    if k.curIsA then DelayedB else DelayedA
  }

  function WakeValues(k: Kern, xs: seq<TaskId>): (vs: seq<nat>)
    ensures |vs| == |xs| && forall i :: 0 <= i < |xs| ==> vs[i] == T(k, xs[i]).wake
  {
    if xs == [] then [] else [T(k, xs[0]).wake] + WakeValues(k, xs[1..])
  }

  function EventValues(k: Kern, xs: seq<TaskId>): (vs: seq<nat>)
    ensures |vs| == |xs| && forall i :: 0 <= i < |xs| ==> vs[i] == T(k, xs[i]).evtValue
  {
    if xs == [] then [] else [T(k, xs[0]).evtValue] + EventValues(k, xs[1..])
  }

  // Linking and unlinking the two items of a task

  function LinkState(k: Kern, t: TaskId, l: ListId, i: nat): (k': Kern)
    requires i <= |L(k, l)|
    ensures k' == k.(tcbs := k'.tcbs, lists := k'.lists)
    ensures if t < |k.tcbs| then k'.tcbs == k.tcbs[t := k.tcbs[t].(place := Some(l))] else k'.tcbs == k.tcbs
    ensures forall m :: Items(k'.lists, m) == if m == l then InsertAt(Items(k.lists, l), i, t) else Items(k.lists, m)
  {
    WithList(WithTask(k, t, T(k, t).(place := Some(l))), l, InsertAt(L(k, l), i, t))
  }

  function UnlinkState(k: Kern, t: TaskId): (k': Kern)
    ensures k' == k.(tcbs := k'.tcbs, lists := k'.lists)
    ensures if t < |k.tcbs| then k'.tcbs == k.tcbs[t := k.tcbs[t].(place := None)] else k' == k
    ensures t < |k.tcbs| ==> forall l ::
              Items(k'.lists, l) == (if k.tcbs[t].place == Some(l) then Remove(Items(k.lists, l), t) else Items(k.lists, l))
  {
    match T(k, t).place
    case None => if t < |k.tcbs| then assert k.tcbs[t := k.tcbs[t]] == k.tcbs; k else k
    case Some(l) => WithList(WithTask(k, t, T(k, t).(place := None)), l, Remove(L(k, l), t))
  }

  /** Sets the event value to the effective priority and inserts in descending order. */
  function LinkEvent(k: Kern, t: TaskId, l: ListId): (k': Kern)
    ensures k' == k.(tcbs := k'.tcbs, lists := k'.lists, aux := k'.aux, serial := k.serial + 1)
    ensures if t < |k.tcbs| then k'.tcbs == k.tcbs[t := k.tcbs[t].(evt := Some(l), evtValue := k.tcbs[t].eff)] else k'.tcbs == k.tcbs
    ensures if t < |k.aux| then k'.aux == k.aux[t := k.aux[t].(queued := k.serial)] else k'.aux == k.aux
    ensures var i := DescendingPosition(EventValues(k, Items(k.lists, l)), T(k, t).eff);
            forall m :: Items(k'.lists, m) == if m == l then InsertAt(Items(k.lists, l), i, t) else Items(k.lists, m)
  {
    var v := T(k, t).eff;
    var i := DescendingPosition(EventValues(k, L(k, l)), v);
    var k1 := WithTask(k, t, T(k, t).(evt := Some(l), evtValue := v));
    var k2 := WithList(k1, l, InsertAt(L(k, l), i, t));
    WithAux(k2, t, A(k, t).(queued := k.serial)).(serial := k.serial + 1)
  }

  function UnlinkEvent(k: Kern, t: TaskId): (k': Kern)
    ensures k' == k.(tcbs := k'.tcbs, lists := k'.lists)
    ensures if t < |k.tcbs| then k'.tcbs == k.tcbs[t := k.tcbs[t].(evt := None)] else k' == k
    ensures t < |k.tcbs| ==> forall l ::
              Items(k'.lists, l) == (if k.tcbs[t].evt == Some(l) then Remove(Items(k.lists, l), t) else Items(k.lists, l))
  {
    match T(k, t).evt
    case None => if t < |k.tcbs| then assert k.tcbs[t := k.tcbs[t]] == k.tcbs; k else k
    case Some(l) => WithList(WithTask(k, t, T(k, t).(evt := None)), l, Remove(L(k, l), t))
  }

  // Ready lists and the bitmap

  function InsertReady(k: Kern, t: TaskId): (k': Kern)
    ensures k'.clock == k.clock
    ensures |k'.tcbs| == |k.tcbs|
    ensures t < |k.tcbs| && k.tcbs[t].eff < k.levels && k.tcbs[t].place.None? ==>
              var p := k.tcbs[t].eff;
              && k' == k.(tcbs := k'.tcbs, lists := k'.lists, bitmap := k.bitmap + {p})
              && k'.tcbs == k.tcbs[t := k.tcbs[t].(place := Some(Ready(p)))]
              && forall l :: Items(k'.lists, l) == if l == Ready(p) then Items(k.lists, l) + [t] else Items(k.lists, l)
  {
    var p := T(k, t).eff;
    if p >= k.levels || T(k, t).place.Some? then k
    else
      var xs := L(k, Ready(p));
      assert InsertAt(xs, |xs|, t) == xs + [t];
      LinkState(k, t, Ready(p), |xs|).(bitmap := k.bitmap + {p})
  }

  function ClearIfEmpty(k: Kern, p: nat): Kern {
    if L(k, Ready(p)) == [] then k.(bitmap := k.bitmap - {p}) else k
  }

  /** Index of the highest set bit below `n`, and 0 when there is none. */
  function HighestBit(bits: set<nat>, n: nat): (p: nat)
    ensures (exists b :: b in bits && b < n) ==> p in bits && p < n && forall b :: b in bits && b < n ==> b <= p
  {
    if n == 0 then 0
    else if n - 1 in bits then n - 1
    else HighestBit(bits, n - 1)
  }

  function CurEff(k: Kern): nat {
    if k.cur.Task? then T(k, k.cur.id).eff else 0
  }

  /** Some ready level is at least `p`: the shifted bitmap is not zero. */
  predicate RunnableAt(k: Kern, p: nat) {
    exists b :: b in k.bitmap && b >= p
  }

  function PopHighest(k: Kern): (r: (Kern, Option<TaskId>))
    ensures r.0.clock == k.clock
  {
    var p := HighestBit(k.bitmap, 32);
    var xs := L(k, Ready(p));
    if k.bitmap == {} || xs == [] then (k, None)
    else (ClearIfEmpty(UnlinkState(k, xs[0]), p), Some(xs[0]))
  }

  // Task creation, start and context switch

  function CreateStatus(k: Kern, argumentsOk: bool, words: nat, prio: nat): Status {
    if !argumentsOk || prio >= k.levels then InvalidArgument
    else if words < MIN_STACK_WORDS then StackTooSmall
    else if |k.tcbs| == k.capacity then TaskLimit
    else Ok
  }

  function CreateTask(k: Kern, prio: nat): Kern {
    var t := |k.tcbs|;
    var k1 := k.(tcbs := k.tcbs + [BLANK_TCB.(base := prio, eff := prio)], aux := k.aux + [Aux(0, 0, 0)]);
    var k2 := InsertReady(k1, t);
    k2.(pending := k.pending || (k.cur != NoTask && prio > CurEff(k)))
  }

  function StartFirst(k: Kern): (k': Kern)
    ensures k'.clock == k.clock
  {
    if k.cur != NoTask then k else
      var (k1, t) := PopHighest(k);
      if t.None? then k1 else k1.(cur := Task(t.value))
  }

  function Requeue(k: Kern): (k': Kern)
    ensures k'.clock == k.clock
  {
    if k.cur.Task? && T(k, k.cur.id).place.None? then InsertReady(k, k.cur.id) else k
  }

  /** The context-switch exception: taking it consumes the pending request. */
  function SelectNext(k: Kern): (k': Kern)
    ensures k'.clock == k.clock
  {
    var k1 := Requeue(k).(pending := false);
    if k1.bitmap == {} then k1.(cur := Idle) else
      var (k2, t) := PopHighest(k1);
      if t.None? then k2 else k2.(cur := Task(t.value))
  }

  // Blocking, unblocking and time

  /** Ticks from now until the 32-bit counter next shows `wake`. */
  function Distance(k: Kern, wake: nat): nat {
    (wake - k.ticks) % WRAP
  }

  function BlockState(k: Kern, t: TaskId, wake: nat, infinite: bool): (k': Kern)
    ensures k'.clock == k.clock
  {
    var k1 := WithTask(k, t, T(k, t).(wake := wake));
    if infinite then LinkState(k1, t, Suspended, |L(k1, Suspended)|)
    else
      var l := if wake < k.ticks then NextList(k) else CurList(k);
      var k2 := LinkState(k1, t, l, AscendingPosition(WakeValues(k1, L(k1, l)), wake));
      WithAux(k2, t, A(k, t).(deadline := k.clock + Distance(k, wake), order := k.serial)).(serial := k.serial + 1)
  }

  function BlockCurrent(k: Kern, wake: nat, waitOn: Option<ListId>, infinite: bool): (k': Kern)
    ensures k'.clock == k.clock
  {
    if !k.cur.Task? || T(k, k.cur.id).place.Some? then k else
      var k1 := BlockState(k, k.cur.id, wake, infinite);
      if waitOn.Some? then LinkEvent(k1, k.cur.id, waitOn.value) else k1
  }

  function WithReason(k: Kern, t: TaskId, reason: Reason): (k': Kern)
    ensures |k'.tcbs| == |k.tcbs|
  {
    WithTask(k, t, T(k, t).(reason := reason))
  }

  function Unblock(k: Kern, t: TaskId, reason: Reason): (k': Kern)
    ensures k'.clock == k.clock
  {
    if Blocked(T(k, t)) then
      WithReason(InsertReady(UnlinkEvent(UnlinkState(k, t), t), t), t, reason)
    else
      k
  }

  function UnblockAll(k: Kern, ts: seq<TaskId>, reason: Reason): Kern
    decreases ts
  {
    if ts == [] then k else UnblockAll(Unblock(k, ts[0], reason), ts[1..], reason)
  }

  /** The defensive loop at the wrap: unlinks every state item of the list without readying it. */
  function Drain(k: Kern, ts: seq<TaskId>): Kern
    decreases ts
  {
    if ts == [] then k else Drain(UnlinkState(k, ts[0]), ts[1..])
  }

  function Advance(k: Kern): Kern {
    var k1 := k.(ticks := (k.ticks + 1) % WRAP, clock := k.clock + 1);
    if k1.ticks == 0 then
      Drain(k1, L(k1, CurList(k1))).(curIsA := !k1.curIsA)
    else
      k1
  }

  /** The tasks at the front of the current delayed list whose wake tick has come. */
  function Due(k: Kern): seq<TaskId> {
    var xs := L(k, CurList(k));
    xs[..AscendingPosition(WakeValues(k, xs), k.ticks)]
  }

  function Tick(k: Kern): Kern {
    var k1 := Advance(k);
    var k2 := UnblockAll(k1, Due(k1), TimedOut);
    k2.(pending := k2.pending || RunnableAt(k2, CurEff(k2)))
  }

  // Priority inheritance

  function AddHeld(k: Kern, t: TaskId): Kern {
    if T(k, t).held != 0xFF then WithTask(k, t, T(k, t).(held := T(k, t).held + 1)) else k
  }

  function DropHeld(k: Kern, t: TaskId): Kern {
    if T(k, t).held != 0 then WithTask(k, t, T(k, t).(held := T(k, t).held - 1)) else k
  }

  /** Takes a ready task off its ready list; any other task is left alone. */
  function LeaveReady(k: Kern, t: TaskId): (k': Kern)
    ensures k'.clock == k.clock
    ensures T(k, t).place != Some(Ready(T(k, t).eff)) ==> k' == k
    ensures t < |k.tcbs| && k.tcbs[t].place == Some(Ready(k.tcbs[t].eff)) ==>
              var l := Ready(k.tcbs[t].eff);
              var rest := Remove(Items(k.lists, l), t);
              && k' == k.(tcbs := k.tcbs[t := k.tcbs[t].(place := None)], lists := k'.lists,
                          bitmap := if rest == [] then k.bitmap - {l.level} else k.bitmap)
              && forall m :: Items(k'.lists, m) == if m == l then rest else Items(k.lists, m)
  {
    var p := T(k, t).eff;
    if T(k, t).place == Some(Ready(p)) then ClearIfEmpty(UnlinkState(k, t), p) else k
  }

  /** Gives the task priority `p` and, if it waits on an object, a new place in that wait list. */
  function Requalify(k: Kern, t: TaskId, p: nat): (k': Kern)
    ensures k'.clock == k.clock
    ensures |k'.tcbs| == |k.tcbs|
    ensures t < |k.tcbs| ==>
              && k' == k.(tcbs := k'.tcbs, lists := k'.lists, aux := k'.aux, serial := k'.serial)
              && k'.tcbs[t] == k.tcbs[t].(eff := p, evtValue := if k.tcbs[t].evt.Some? then p else k.tcbs[t].evtValue)
              && (forall u :: 0 <= u < |k.tcbs| && u != t ==> k'.tcbs[u] == k.tcbs[u])
              && (forall l :: k.tcbs[t].evt != Some(l) ==> Items(k'.lists, l) == Items(k.lists, l))
    ensures t < |k.tcbs| == |k.aux| ==>
              if k.tcbs[t].evt.Some?
              then k'.aux == k.aux[t := k.aux[t].(queued := k.serial)] && k'.serial == k.serial + 1
              else k'.aux == k.aux && k'.serial == k.serial
  {
    var k1 := UnlinkEvent(k, t);
    var k2 := WithTask(k1, t, T(k1, t).(eff := p));
    if T(k, t).evt.Some? then LinkEvent(k2, t, T(k, t).evt.value) else k2
  }

  function Relevel(k: Kern, t: TaskId, p: nat): (k': Kern)
    ensures k'.clock == k.clock
  {
    var k1 := Requalify(LeaveReady(k, t), t, p);
    if T(k, t).place == Some(Ready(T(k, t).eff)) then InsertReady(k1, t) else k1
  }

  function SetEffective(k: Kern, t: TaskId, p: nat): (k': Kern)
    ensures k'.clock == k.clock
  {
    if T(k, t).eff == p || T(k, t).base > p || p >= k.levels then k else Relevel(k, t, p)
  }

  function Inherit(k: Kern, t: TaskId, p: nat): (k': Kern)
    ensures k'.clock == k.clock
  {
    if T(k, t).eff >= p then k else SetEffective(k, t, p)
  }

  function Relinquish(k: Kern, t: TaskId): (k': Kern)
    ensures k'.clock == k.clock
  {
    if T(k, t).held != 0 then k else SetEffective(k, t, T(k, t).base)
  }

  function Disinherit(k: Kern, t: TaskId, required: nat): (k': Kern)
    ensures k'.clock == k.clock
  {
    var p := if required > T(k, t).base then required else T(k, t).base;
    if T(k, t).held == 1 && p < T(k, t).eff then SetEffective(k, t, p) else k
  }

  /** The priority that the waiters in `l` ask of the owner: its base, or the first waiter's if higher. */
  function Required(k: Kern, owner: TaskId, l: ListId): nat {
    var xs := L(k, l);
    if xs != [] && T(k, xs[0]).eff > T(k, owner).base then T(k, xs[0]).eff else T(k, owner).base
  }
}
