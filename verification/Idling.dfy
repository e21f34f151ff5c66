/**
 When the idle task runs. The wake flag of an interrupt call compares with the running
 priority, and idle counts as 0, so waking a task of level 0 raises no flag: unless its
 handler asks for a switch anyway, idle runs on until the next tick.
 */
module Idling {
  import opened Kernel
  import opened KernelInvariants
  import opened SchedulerSteps
  import opened TaskViews
  import opened System
  import opened SystemProof
  import opened Lifecycle
  import opened Preemption

  /** Idle runs only while nothing is ready, or until the switch that has been requested. */
  ghost predicate IdleFair(k: Kern) {
    k.cur.Idle? && !k.pending ==> k.bitmap == {}
  }

  /** An interrupt call wakes a task while idle runs, and its handler asks for no switch. */
  ghost predicate Unnoticed(s: Sys, e: Event) {
    && Wakes(e) && s.k.cur.Idle? && !s.k.pending && Delivers(s, e) && L(s.k, IsrList(e)) != [] && !e.andYield
  }

  lemma WakeFirstReadies(k: Kern, l: ListId)
    requires KernInv(k) && !IsStateList(l)
    ensures var k' := WakeFirst(k, l);
            k'.cur == k.cur && k'.pending == k.pending && (if L(k, l) == [] then k' == k else k'.bitmap != {})
  {
    hide Linked, TimersWithin, Queued, Unblock, Items;
    WakeFirstContext(k, l);
    FirstWaiter(k, l);
    if L(k, l) != [] {
      var h := L(k, l)[0];
      PlacedBounds(k, h);
      UnblockHasEffect(k, h, Signaled);
      assert k.tcbs[h].eff in Unblock(k, h, Signaled).bitmap;
    }
  }

  lemma IsrIdleIff(s: Sys, e: Event)
    requires SysInv(s) && IdleFair(s.k) && s.k.cur.Idle? && Wakes(e)
    ensures IdleFair(Step(s, e).k) <==> !Unnoticed(s, e)
  {
    hide SysInvBut, WakeFirst, Delivers, Step, IsrList, Items;
    KernOf(s);
    IsrFlagKern(s, e);
    IsrListIs(e);
    WakeFirstReadies(s.k, IsrList(e));
  }

  /** Idle counts as priority 0: under idle the wake flag says that the task woken is above level 0. */
  lemma FlagUnderIdle(s: Sys, e: Event)
    requires SysInv(s) && s.k.cur.Idle? && Wakes(e)
    ensures Flagged(s, e) <==> Delivers(s, e) && L(s.k, IsrList(e)) != [] && T(s.k, L(s.k, IsrList(e))[0]).eff > 0
  {
    hide SysInvBut, Delivers, Flagged, IsrList, Items;
    KernOf(s);
    IsrFlagKern(s, e);
    IsrListIs(e);
    FirstWaiter(s.k, IsrList(e));
  }

  /** The interrupt call wakes a task of level 0. */
  ghost predicate WakesLowest(s: Sys, e: Event) {
    Delivers(s, e) && L(s.k, IsrList(e)) != [] && T(s.k, L(s.k, IsrList(e))[0]).eff == 0
  }

  /** A handler that asks for a switch exactly when flagged leaves a ready task to the next tick if and only if the call wakes one of level 0. */
  lemma FlaggedIdleIff(s: Sys, e: Event)
    requires SysInv(s) && IdleFair(s.k) && s.k.cur.Idle? && !s.k.pending && Wakes(e) && (e.andYield <==> Flagged(s, e))
    ensures IdleFair(Step(s, e).k) <==> !WakesLowest(s, e)
  {
    hide SysInvBut, Delivers, Flagged, IsrList, Items, IdleFair, Step;
    FlagUnderIdle(s, e);
    IsrIdleIff(s, e);
  }

  lemma TickIdle(k: Kern)
    requires KernInv(k)
    ensures IdleFair(Kernel.Tick(k))
  {
    hide Linked, Placed, TimersWithin, Queued, Kernel.Tick, AllUnblocked;
    TickKeeps(k);
  }

  lemma SwitchIdle(k: Kern)
    requires KernInv(k) && k.cur != NoTask
    ensures IdleFair(SelectNext(k))
  {
    hide KernInv, SelectNext, LeaveReady, Requeue;
    SwitchKeeps(k);
  }

  /** While idle runs, the one step that leaves a ready task unnoticed is an interrupt call that wakes it without asking for a switch. */
  lemma IdleStepIff(s: Sys, e: Event)
    requires SysInv(s) && Enabled(s, e) && IdleFair(s.k) && s.k.cur.Idle?
    ensures IdleFair(Step(s, e).k) <==> !Unnoticed(s, e)
  {
    hide SysInvBut, IdleFair, Delivers, SelectNext, Kernel.Tick, WakeFirst, GiveToken, EnqueueIsr, DequeueIsr, TakeIsr, Request, Items;
    KernOf(s);
    if Wakes(e) {
      IsrIdleIff(s, e);
    } else if e.TakeFromIsr? {
      IsrKern(s, e);
    } else if e.Tick? {
      TickIdle(s.k);
    } else if e.Switch? {
      SwitchIdle(s.k);
    } else {
      assert e.YieldIsr?;
      RequestIdle(s.k);
    }
  }

  lemma RequestIdle(k: Kern)
    ensures IdleFair(Request(k, true))
  {
  }

  /** Since the last tick or switch, idle runs over a ready task only after such a step. */
  lemma {:induction false} IdleAlwaysFair(ss: seq<Sys>, es: seq<Event>, r: nat, i: nat)
    requires Run(ss, es) && 0 < r <= i < |ss| && Restores(es[r - 1])
    requires forall x :: r <= x < i ==> ss[x].k.cur.Idle? && !Unnoticed(ss[x], es[x])
    ensures IdleFair(ss[i].k)
  {
    hide SysInvBut, Initial, Enabled, IdleFair, Unnoticed, Step;
    if i == r {
      Always(ss, es, r - 1);
      RestoresIdle(ss[r - 1], es[r - 1]);
    } else {
      IdleAlwaysFair(ss, es, r, i - 1);
      Always(ss, es, i - 1);
      IdleStepIff(ss[i - 1], es[i - 1]);
    }
  }

  lemma RestoresIdle(s: Sys, e: Event)
    requires SysInv(s) && Enabled(s, e) && Restores(e)
    ensures IdleFair(Step(s, e).k)
  {
    hide SysInvBut, SelectNext, Kernel.Tick, IdleFair;
    KernOf(s);
    if e.Tick? {
      TickIdle(s.k);
    } else {
      SwitchIdle(s.k);
    }
  }
}
