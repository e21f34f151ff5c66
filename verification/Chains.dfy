/**
 Chains of owners. A raise does not travel: when the owner of a mutex itself waits for
 another one, a new waiter may leave it above the owner it waits for. Apart from the lock
 calls that do this, every step keeps every owner at least at the current priority of every
 one of its waiters.
 */
module Chains {
  import opened Kernel
  import opened KernelInvariants
  import opened TaskViews
  import opened System
  import opened Effects
  import opened SystemInvariants
  import opened MutexInvariants
  import opened SystemProof
  import opened Lifecycle
  import opened Outcomes
  import opened ExactInheritance

  /** The owner of `m` is at least at the current priority of its waiter `w`. */
  ghost predicate CoveredAt(s: Sys, w: TaskId, m: nat) {
    T(s.k, w).eff <= (if OwnerOf(s, m).Some? then T(s.k, OwnerOf(s, m).value).eff else 0)
  }

  ghost predicate Covered(s: Sys) {
    forall w: TaskId, m: nat :: Waiting(s, w, Lockers(m)) ==> CoveredAt(s, w, m)
  }

  /** The lock call would block behind another owner. */
  ghost predicate WillWait(s: Sys, m: nat, timeout: nat) {
    && s.k.cur.Task? && T(s.k, s.k.cur.id).held != 0xFF && timeout != 0
    && OwnerOf(s, m).Some? && OwnerOf(s, m).value != s.k.cur.id
  }

  /** It would do so behind an owner that itself waits for a mutex, whose owner the caller outranks. */
  ghost predicate Outruns(s: Sys, m: nat, timeout: nat) {
    && WillWait(s, m, timeout)
    && var w := OwnerOf(s, m).value;
    && WaitsForMutex(T(s.k, w))
    && var m2 := T(s.k, w).evt.value.mutex;
    OwnerOf(s, m2).Some? && T(s.k, s.k.cur.id).eff > T(s.k, OwnerOf(s, m2).value).eff
  }

  lemma CoveredIn(s: Sys, w: TaskId, m: nat)
    requires SysInv(s) && Covered(s) && Waiting(s, w, Lockers(m))
    ensures m in s.owners && s.owners[m].Some? && s.owners[m].value < |s.k.tcbs| && s.owners[m] != Some(w)
    ensures s.k.tcbs[w].eff <= s.k.tcbs[s.owners[m].value].eff
  {
    hide KernInv, SemInv, QueueInvBut, Continuations;
    assert WaiterOk(s, w, s.k.tcbs[w], m);
    assert CoveredAt(s, w, m);
  }

  // ---------------------------------------------------------------- Steps that keep it

  lemma UnrelatedCovered(s: Sys, e: Event)
    requires SysInv(s) && Covered(s) && Enabled(s, e) && Unrelated(s, e)
    ensures Covered(Step(s, e))
  {
    hide SysInvBut, Step, Enabled, Covered, Unrelated;
    RankStep(s, e);
    var s' := Step(s, e);
    forall w: TaskId, m: nat | Waiting(s', w, Lockers(m)) ensures CoveredAt(s', w, m) {
      UnrelatedIs(s, e);
      NewWaiter(s, e, w, m);
      CoveredIn(s, w, m);
    }
    CoveredIs(s');
  }

  lemma UnrelatedIs(s: Sys, e: Event)
    requires Unrelated(s, e)
    ensures !e.LockCall?
  {
  }

  lemma CoveredIs(s: Sys)
    requires forall w: TaskId, m: nat :: Waiting(s, w, Lockers(m)) ==> CoveredAt(s, w, m)
    ensures Covered(s)
  {
  }

  lemma AcquireCovered(s: Sys, t: TaskId, m: nat)
    requires SysInv(s) && Covered(s) && Caller(s, t) && m in s.owners && s.owners[m].None? && T(s.k, t).held != 0xFF
    ensures Covered(s.(owners := s.owners[m := Some(t)], k := AddHeld(s.k, t)))
  {
    hide SysInvBut, Covered, AddHeld;
    UnplacedCaller(s, t, 0, 0, 0);
    HeldBounds(s, t);
    AddHeldRecounts(s.k, t);
    var s' := s.(owners := s.owners[m := Some(t)], k := AddHeld(s.k, t));
    forall w: TaskId, m': nat | Waiting(s', w, Lockers(m')) ensures CoveredAt(s', w, m') {
      assert Waiting(s, w, Lockers(m'));
      CoveredIn(s, w, m');
    }
    CoveredIs(s');
  }

  /** The owner that a new waiter finds ends up at the higher of its own priority and the waiter's. */
  lemma JoinRaises(s: Sys, t: TaskId, m: nat, o: TaskId, timeout: nat)
    requires SysInv(s) && Covered(s) && Caller(s, t) && m in s.owners && s.owners[m] == Some(o) && o != t
    requires 0 < timeout < WRAP && T(s.k, t).held < 0xFF
    ensures var s' := Lock(s, m, timeout).0;
            && o < |s.k.tcbs| == |s'.k.tcbs| && t < |s.k.tcbs|
            && s'.k.tcbs[o].eff == if s.k.tcbs[t].eff > s.k.tcbs[o].eff then s.k.tcbs[t].eff else s.k.tcbs[o].eff
  {
    hide SysInvBut, Lock, Covered;
    var s' := Lock(s, m, timeout).0;
    JoinFacts(s, t, m, o, timeout);
    if s'.k.tcbs[o].eff != s.k.tcbs[o].eff {
      var w :| w != o && Lends(s', w, m, o);
      if w != t {
        assert Waiting(s, w, Lockers(m));
        CoveredIn(s, w, m);
      }
    }
  }

  lemma JoinCoveredIff(s: Sys, t: TaskId, m: nat, o: TaskId, timeout: nat)
    requires SysInv(s) && Covered(s) && Enabled(s, LockCall(m, timeout)) && Caller(s, t)
    requires s.owners[m] == Some(o) && o != t && timeout != 0 && T(s.k, t).held < 0xFF
    ensures Covered(Lock(s, m, timeout).0) <==> !Outruns(s, m, timeout)
  {
    hide SysInvBut, Lock, Covered;
    var s' := Lock(s, m, timeout).0;
    JoinFacts(s, t, m, o, timeout);
    JoinRaises(s, t, m, o, timeout);
    if Outruns(s, m, timeout) {
      JoinUncovers(s, s', t, m, o, timeout);
    } else {
      forall w: TaskId, m': nat | Waiting(s', w, Lockers(m')) ensures CoveredAt(s', w, m') {
        if w != t {
          assert Waiting(s, w, Lockers(m'));
          CoveredIn(s, w, m');
        }
      }
      CoveredIs(s');
    }
  }

  /** The owner in the middle is now above the owner it waits for. */
  lemma JoinUncovers(s: Sys, s': Sys, t: TaskId, m: nat, o: TaskId, timeout: nat)
    requires SysInv(s) && Covered(s) && Outruns(s, m, timeout) && s.k.cur == Task(t) && OwnerOf(s, m) == Some(o)
    requires o < |s.k.tcbs| == |s'.k.tcbs| && t < |s.k.tcbs| && s'.owners == s.owners
    requires forall u :: 0 <= u < |s.k.tcbs| && u != o ==> SameRank(s.k.tcbs[u], s'.k.tcbs[u])
    requires s'.k.tcbs[o].evt == s.k.tcbs[o].evt && s'.k.tcbs[o].eff >= s.k.tcbs[t].eff
    ensures !Covered(s')
  {
    hide SysInvBut;
    var m2 := s.k.tcbs[o].evt.value.mutex;
    assert Waiting(s, o, Lockers(m2));
    CoveredIn(s, o, m2);
    assert Waiting(s', o, Lockers(m2)) && !CoveredAt(s', o, m2);
  }

  lemma LockCoveredIff(s: Sys, m: nat, timeout: nat)
    requires SysInv(s) && Covered(s) && Enabled(s, LockCall(m, timeout))
    ensures Covered(Step(s, LockCall(m, timeout))) <==> !Outruns(s, m, timeout)
  {
    hide SysInvBut, Covered, BlockCurrent, Inherit, Required, AddHeld, Request;
    var t := s.k.cur.id;
    UnplacedCaller(s, t, 0, 0, 0);
    HeldBounds(s, t);
    if T(s.k, t).held != 0xFF {
      if s.owners[m].None? {
        AcquireCovered(s, t, m);
      } else if s.owners[m].value != t && timeout != 0 {
        JoinCoveredIff(s, t, m, s.owners[m].value, timeout);
      }
    }
  }

  // ---------------------------------------------------------------- Giving up and unlocking

  /** What is still required covers every waiter at its current priority. */
  lemma DisinheritCovered(s: Sys, m: nat, o: TaskId)
    requires SysInv(s) && Covered(s) && m in s.owners && s.owners[m] == Some(o) && o < |s.k.tcbs|
    ensures Covered(s.(k := Disinherit(s.k, o, Required(s.k, o, Lockers(m)))))
  {
    hide SysInvBut, Covered, Disinherit, Required;
    var l := Lockers(m);
    var req := Required(s.k, o, l);
    KernOf(s);
    RequiredCovers(s.k, o, l);
    DisinheritLowers(s.k, o, req);
    var s' := s.(k := Disinherit(s.k, o, req));
    forall w: TaskId, m': nat | Waiting(s', w, Lockers(m')) ensures CoveredAt(s', w, m') {
      assert Waiting(s, w, Lockers(m'));
      CoveredIn(s, w, m');
      if s.owners[m'] == Some(o) && s.k.tcbs[o].held == 1 {
        OwnsOne(s, o, m);
      }
    }
    CoveredIs(s');
  }

  lemma ResumedCovered(s: Sys, t: TaskId, m: nat)
    requires SysInv(s) && Covered(s) && Enabled(s, Resume) && s.k.cur == Task(t) && PcOf(s, t) == InLock(m)
    ensures SysInv(Resumed(s, t)) && Covered(Resumed(s, t))
  {
    hide KernInv, SemInv, QueueInvBut, MutexInv, Continuations, Covered;
    UnplacedCaller(s, t, 0, 0, 0);
    ResumedKeeps(s, t, 0);
    var s1 := Resumed(s, t);
    forall w: TaskId, m': nat | Waiting(s1, w, Lockers(m')) ensures CoveredAt(s1, w, m') {
      assert Waiting(s, w, Lockers(m'));
      CoveredIn(s, w, m');
    }
    CoveredIs(s1);
  }

  lemma ResumeLockCovered(s: Sys, t: TaskId, m: nat)
    requires SysInv(s) && Covered(s) && Enabled(s, Resume) && s.k.cur == Task(t) && PcOf(s, t) == InLock(m)
    ensures Covered(ResumeLock(s, t, m).0)
  {
    hide SysInvBut, Covered, Disinherit, Required, WithReason;
    ResumedCovered(s, t, m);
    var s1 := Resumed(s, t);
    if T(s.k, t).reason != Signaled && OwnerOf(s, m).Some? {
      OwnerBounds(s1);
      DisinheritCovered(s1, m, OwnerOf(s, m).value);
    }
  }

  lemma UnlockCovered(s: Sys, m: nat)
    requires SysInv(s) && Covered(s) && Enabled(s, UnlockCall(m))
    ensures Covered(Step(s, UnlockCall(m)))
  {
    hide SysInvBut, Covered, Unlock;
    var t, s' := s.k.cur.id, Step(s, UnlockCall(m));
    UnlockOthers(s, t, m);
    if OwnerOf(s, m) == Some(t) {
      UnlockFacts(s, t, m);
      UnplacedCaller(s, t, 0, 0, 0);
      ReleasedBounds(s, t, m);
      forall w: TaskId, m': nat | Waiting(s', w, Lockers(m')) ensures CoveredAt(s', w, m') {
        assert Waiting(s, w, Lockers(m'));
        CoveredIn(s, w, m');
      }
      CoveredIs(s');
    }
  }

  /** A task that gives up its only mutex owns no other. */
  lemma ReleasedBounds(s: Sys, t: TaskId, m: nat)
    requires SysInv(s) && m in s.owners && s.owners[m] == Some(t) && t < |s.k.tcbs|
    ensures s.k.tcbs[t].held == 1 ==> forall m' :: m' in s.owners && s.owners[m'] == Some(t) ==> m' == m
  {
    hide SysInvBut;
    if s.k.tcbs[t].held == 1 {
      OwnsOne(s, t, m);
    }
  }

  // ---------------------------------------------------------------- Every step, every run

  /** The lock calls that break the cover, and no other steps. */
  ghost predicate Breaks(s: Sys, e: Event) {
    e.LockCall? && Outruns(s, e.mutex, e.timeout)
  }

  lemma CoveredStepIff(s: Sys, e: Event)
    requires SysInv(s) && Covered(s) && Enabled(s, e)
    ensures Covered(Step(s, e)) <==> !Breaks(s, e)
  {
    hide SysInvBut, Step, Covered, ResumeStep, Outruns;
    if e.LockCall? {
      LockCoveredIff(s, e.mutex, e.timeout);
    } else if e.UnlockCall? {
      UnlockCovered(s, e.mutex);
    } else if Unrelated(s, e) {
      UnrelatedCovered(s, e);
    } else {
      var t := s.k.cur.id;
      ResumeIs(s);
      ResumeLockCovered(s, t, s.pcs[t].mutex);
      ResumeIsLock(s, t);
    }
  }

  /** From any covered state on, the cover holds as long as no lock call breaks it. */
  lemma {:induction false} CoveredSince(ss: seq<Sys>, es: seq<Event>, r: nat, i: nat)
    requires Run(ss, es) && r <= i < |ss| && Covered(ss[r])
    requires forall x :: r <= x < i ==> !Breaks(ss[x], es[x])
    ensures Covered(ss[i])
  {
    hide Initial, Step, Enabled, SysInvBut, Covered, Breaks;
    if i == r {
    } else {
      CoveredSince(ss, es, r, i - 1);
      Always(ss, es, i - 1);
      CoveredStepIff(ss[i - 1], es[i - 1]);
    }
  }

  lemma StartsCovered(s: Sys)
    requires Initial(s)
    ensures Covered(s)
  {
  }

  /** Every owner covers every waiter's current priority throughout a run, if and only if no lock call of the run breaks it. */
  lemma CoveredIff(ss: seq<Sys>, es: seq<Event>)
    requires Run(ss, es)
    ensures (forall i :: 0 <= i < |ss| ==> Covered(ss[i])) <==> (forall x :: 0 <= x < |es| ==> !Breaks(ss[x], es[x]))
  {
    hide Initial, Step, Enabled, SysInvBut, Covered, Breaks;
    StartsCovered(ss[0]);
    if forall x :: 0 <= x < |es| ==> !Breaks(ss[x], es[x]) {
      forall i | 0 <= i < |ss| ensures Covered(ss[i]) {
        CoveredSince(ss, es, 0, i);
      }
    }
    if forall i :: 0 <= i < |ss| ==> Covered(ss[i]) {
      forall x | 0 <= x < |es| ensures !Breaks(ss[x], es[x]) {
        Always(ss, es, x);
        CoveredStepIff(ss[x], es[x]);
        assert Covered(ss[x + 1]);
      }
    }
  }
}
