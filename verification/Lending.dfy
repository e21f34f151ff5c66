/**
 Where priorities come from, also when mutexes are nested. A step moves the priority of one
 task at most: back to its base, or level with a task that waits for it at that moment. So
 every effective priority is the base of some task, and an owner above its base has been
 level with one of its waiters at some moment since it last held nothing.
 */
module Lending {
  import opened Kernel
  import opened KernelInvariants
  import opened TaskViews
  import opened System
  import opened Effects
  import opened SystemInvariants
  import opened MutexInvariants
  import opened SystemProof
  import opened Lifecycle
  import opened Outcomes
  import opened ExactInheritance

  /** Another task waits for a mutex of `o` at exactly the priority of `o`. */
  ghost predicate Lent(s: Sys, o: TaskId) {
    exists m: nat, w: TaskId :: OwnerOf(s, m) == Some(o) && w != o && Lends(s, w, m, o)
  }

  ghost predicate SamePriority(c: Tcb, c': Tcb) {
    c'.base == c.base && c'.eff == c.eff
  }

  /** No base changes, and no effective priority but that of `o`, which may go to its base or level with a waiter. */
  ghost predicate Moves(s: Sys, s': Sys, o: TaskId) {
    && |s.k.tcbs| <= |s'.k.tcbs|
    && (forall u :: 0 <= u < |s.k.tcbs| && u != o ==> SamePriority(s.k.tcbs[u], s'.k.tcbs[u]))
    && (o < |s.k.tcbs| ==>
          && s'.k.tcbs[o].base == s.k.tcbs[o].base
          && (s'.k.tcbs[o].eff == s.k.tcbs[o].eff || s'.k.tcbs[o].eff == s.k.tcbs[o].base || Lent(s', o)))
  }

  lemma NoMove(s: Sys, s': Sys)
    requires SameRanks(s.k, s'.k)
    ensures Moves(s, s', 0)
  {
    hide Lent;
  }

  lemma LentBy(s: Sys, o: TaskId, m: nat, w: TaskId)
    requires OwnerOf(s, m) == Some(o) && w != o && Lends(s, w, m, o)
    ensures Lent(s, o)
  {
  }

  lemma LockMoves(s: Sys, m: nat, timeout: nat) returns (o: TaskId)
    requires SysInv(s) && Enabled(s, LockCall(m, timeout))
    ensures Moves(s, Step(s, LockCall(m, timeout)), o)
  {
    hide SysInvBut, Lock, Lent;
    var t, s' := s.k.cur.id, Step(s, LockCall(m, timeout));
    UnplacedCaller(s, t, 0, 0, 0);
    LockCases(s, m, timeout);
    if T(s.k, t).held < 0xFF && s.owners[m].Some? && s.owners[m].value != t && timeout != 0 {
      o := s.owners[m].value;
      JoinFacts(s, t, m, o, timeout);
      if s'.k.tcbs[o].eff != s.k.tcbs[o].eff {
        var w :| w != o && Lends(s', w, m, o);
        LentBy(s', o, m, w);
      }
    } else {
      o := 0;
      NoJoin(s, t, m, timeout);
    }
  }

  lemma LockCases(s: Sys, m: nat, timeout: nat)
    ensures Step(s, LockCall(m, timeout)) == Lock(s, m, timeout).0
  {
    hide Lock;
  }

  lemma NoJoin(s: Sys, t: TaskId, m: nat, timeout: nat)
    requires SysInv(s) && s.k.cur == Task(t) && t < |s.k.tcbs| && m in s.owners
    requires !(T(s.k, t).held < 0xFF && s.owners[m].Some? && s.owners[m].value != t && timeout != 0)
    ensures Moves(s, Lock(s, m, timeout).0, 0)
  {
    hide SysInvBut, BlockCurrent, Inherit, Required, Request, Lent;
    HeldBounds(s, t);
  }

  lemma UnlockMoves(s: Sys, m: nat)
    requires SysInv(s) && Enabled(s, UnlockCall(m))
    ensures Moves(s, Step(s, UnlockCall(m)), s.k.cur.id)
  {
    hide SysInvBut, Unlock, Lent;
    var t := s.k.cur.id;
    UnlockOthers(s, t, m);
    if OwnerOf(s, m) == Some(t) {
      UnlockFacts(s, t, m);
    }
  }

  lemma DisinheritMoves(s: Sys, m: nat, o: TaskId)
    requires SysInv(s) && m in s.owners && s.owners[m] == Some(o) && o < |s.k.tcbs|
    ensures Moves(s, s.(k := Disinherit(s.k, o, Required(s.k, o, Lockers(m)))), o)
  {
    hide SysInvBut, Disinherit, Required, Lent;
    var l := Lockers(m);
    var req := Required(s.k, o, l);
    KernOf(s);
    RequiredCovers(s.k, o, l);
    DisinheritLowers(s.k, o, req);
    var s' := s.(k := Disinherit(s.k, o, req));
    if req != s.k.tcbs[o].base {
      var w :| 0 <= w < |s.k.tcbs| && s.k.tcbs[w].evt == Some(l) && s.k.tcbs[w].eff == req;
      assert Waiting(s, w, l);
      NotOwner(s, w, m);
      if s'.k.tcbs[o].eff == req {
        assert Lends(s', w, m, o);
        LentBy(s', o, m, w);
      }
    }
  }

  lemma ResumeLockMoves(s: Sys, t: TaskId, m: nat) returns (o: TaskId)
    requires SysInv(s) && Enabled(s, Resume) && s.k.cur == Task(t) && PcOf(s, t) == InLock(m)
    ensures Moves(s, ResumeLock(s, t, m).0, o)
  {
    hide KernInv, SemInv, QueueInvBut, MutexInv, Continuations, Disinherit, Required, Lent;
    UnplacedCaller(s, t, 0, 0, 0);
    ResumedKeeps(s, t, 0);
    var s1 := Resumed(s, t);
    if T(s.k, t).reason != Signaled && OwnerOf(s, m).Some? {
      o := OwnerOf(s, m).value;
      OwnerBounds(s1);
      DisinheritMoves(s1, m, o);
    } else {
      o := 0;
    }
  }

  /** Every step moves one priority at most. */
  lemma StepMoves(s: Sys, e: Event) returns (o: TaskId)
    requires SysInv(s) && Enabled(s, e)
    ensures Moves(s, Step(s, e), o)
  {
    hide SysInvBut, Step, Moves, ResumeStep;
    if e.LockCall? {
      o := LockMoves(s, e.mutex, e.timeout);
    } else if e.UnlockCall? {
      o := s.k.cur.id;
      UnlockMoves(s, e.mutex);
    } else if Unrelated(s, e) {
      o := 0;
      RankStep(s, e);
      NoMove(s, Step(s, e));
    } else {
      var t := s.k.cur.id;
      ResumeIs(s);
      o := ResumeLockMoves(s, t, s.pcs[t].mutex);
      ResumeIsLock(s, t);
    }
  }

  // ---------------------------------------------------------------- Runs

  ghost predicate IsBase(s: Sys, p: nat) {
    exists u: TaskId :: u < |s.k.tcbs| && s.k.tcbs[u].base == p
  }

  /** Every effective priority is the base of some task. */
  ghost predicate AllBases(s: Sys) {
    forall t :: 0 <= t < |s.k.tcbs| ==> IsBase(s, s.k.tcbs[t].eff)
  }

  lemma NewAtBase(s: Sys, e: Event, t: TaskId)
    requires SysInv(s) && Enabled(s, e) && |s.k.tcbs| <= t < |Step(s, e).k.tcbs|
    ensures Step(s, e).k.tcbs[t].eff == Step(s, e).k.tcbs[t].base
  {
    hide SysInvBut, Step, ResumeStep, Enabled;
    OnlyCreationGrows(s, e);
    RankStep(s, e);
    StepKeeps(s, e);
    HeldBounds(Step(s, e), t);
  }

  /** Tasks appear only by creation. */
  lemma OnlyCreationGrows(s: Sys, e: Event)
    requires SysInv(s) && Enabled(s, e) && |s.k.tcbs| < |Step(s, e).k.tcbs|
    ensures Unrelated(s, e)
  {
    hide SysInvBut, Step, ResumeStep;
    StepKeeps(s, e);
    SizesMatch(s);
    SizesMatch(Step(s, e));
    if IsTaskCall(e) {
      CallPc(s, e, s.k.cur.id);
    } else if e.Resume? {
      ResumeIs(s);
      ResumePc(s, s.k.cur.id);
    }
  }

  lemma BaseKept(s: Sys, s': Sys, o: TaskId, p: nat)
    requires Moves(s, s', o) && IsBase(s, p)
    ensures IsBase(s', p)
  {
    hide Lent;
    var u: TaskId :| u < |s.k.tcbs| && s.k.tcbs[u].base == p;
    assert s'.k.tcbs[u].base == p;
  }

  lemma BasesStep(s: Sys, e: Event)
    requires SysInv(s) && Enabled(s, e) && AllBases(s)
    ensures AllBases(Step(s, e))
  {
    hide SysInvBut, Step, Enabled, IsBase;
    var s' := Step(s, e);
    var o := StepMoves(s, e);
    forall t | 0 <= t < |s'.k.tcbs| ensures IsBase(s', s'.k.tcbs[t].eff) {
      if t >= |s.k.tcbs| {
        NewAtBase(s, e, t);
        OwnBase(s', t);
      } else if s'.k.tcbs[t].eff == s.k.tcbs[t].eff {
        BaseKept(s, s', o, s.k.tcbs[t].eff);
      } else if s'.k.tcbs[t].eff == s'.k.tcbs[t].base {
        OwnBase(s', t);
      } else {
        var m: nat, w: TaskId :| OwnerOf(s', m) == Some(o) && w != o && Lends(s', w, m, o);
        if w < |s.k.tcbs| {
          BaseKept(s, s', o, s.k.tcbs[w].eff);
        } else {
          NewAtBase(s, e, w);
          OwnBase(s', w);
        }
      }
    }
  }

  lemma OwnBase(s: Sys, t: TaskId)
    requires t < |s.k.tcbs|
    ensures IsBase(s, s.k.tcbs[t].base)
  {
  }

  /** In every state of every run, every effective priority is the base priority of some task. */
  lemma {:induction false} PrioritiesAreBases(ss: seq<Sys>, es: seq<Event>, i: nat)
    requires Run(ss, es) && i < |ss|
    ensures AllBases(ss[i])
  {
    hide Step, Enabled, SysInvBut, IsBase;
    if i == 0 {
    } else {
      PrioritiesAreBases(ss, es, i - 1);
      Always(ss, es, i - 1);
      BasesStep(ss[i - 1], es[i - 1]);
    }
  }

  /**
   A task above its base was level with a task waiting for one of its mutexes at some state `x`, and
   it has held a mutex ever since.
   */
  lemma {:induction false} LentSince(ss: seq<Sys>, es: seq<Event>, i: nat, t: TaskId) returns (x: nat)
    requires Run(ss, es) && i < |ss| && t < |ss[i].k.tcbs| && ss[i].k.tcbs[t].eff > ss[i].k.tcbs[t].base
    ensures x <= i && t < |ss[x].k.tcbs| && Lent(ss[x], t) && ss[x].k.tcbs[t].eff == ss[i].k.tcbs[t].eff
    ensures forall y :: x <= y <= i ==> T(ss[y].k, t).held > 0
  {
    hide Step, Enabled, SysInvBut, Lent;
    Always(ss, es, i);
    HeldBounds(ss[i], t);
    x := i;
    if i == 0 {
    } else {
      var s, s' := ss[i - 1], ss[i];
      Always(ss, es, i - 1);
      var o := StepMoves(s, es[i - 1]);
      if t >= |s.k.tcbs| {
        NewAtBase(s, es[i - 1], t);
      } else if s'.k.tcbs[t].eff == s.k.tcbs[t].eff {
        x := LentSince(ss, es, i - 1, t);
      }
    }
  }
}
