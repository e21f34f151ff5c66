/**
 Ownership, the count of held mutexes, and priority inheritance. The bound that inheritance
 guarantees is on base priorities, because raises do not travel along chains of owners.
 */
module MutexInvariants {
  import opened Kernel
  import opened KernelInvariants
  import opened TaskViews
  import opened System
  import opened SystemInvariants

  ghost function Owned(s: Sys, t: TaskId): set<nat> {
    set m | m in s.owners && s.owners[m] == Some(t)
  }

  /** The count is right and below the cap, and a task that holds nothing has its base priority. */
  ghost predicate RankOk(s: Sys, t: TaskId, c: Tcb) {
    c.held == |Owned(s, t)| && c.held <= 0xFF && (c.held == 0 ==> c.eff == c.base)
  }

  /** The mutex that a task waits for is owned by another task, whose priority is at least the waiter's base. */
  ghost predicate WaiterOk(s: Sys, t: TaskId, c: Tcb, m: nat) {
    && m in s.owners && s.owners[m].Some?
    && var o := s.owners[m].value;
    o != t && o < |s.k.tcbs| && s.k.tcbs[o].eff >= c.base && c.held < 0xFF
  }

  /** A task woken inside a lock call was signalled exactly if it is the owner. */
  ghost predicate OutcomeOk(s: Sys, t: TaskId, c: Tcb, pc: Pc) {
    pc.InLock? && !Blocked(c) ==> (c.reason == Signaled <==> OwnerOf(s, pc.mutex) == Some(t))
  }

  ghost predicate MutexInv(s: Sys) {
    && |s.pcs| == |s.k.tcbs|
    && (forall m :: m in s.owners && s.owners[m].Some? ==> s.owners[m].value < |s.k.tcbs|)
    && (forall t :: 0 <= t < |s.k.tcbs| ==> RankOk(s, t, s.k.tcbs[t]))
    && (forall t: TaskId, m: nat :: Waiting(s, t, Lockers(m)) ==> WaiterOk(s, t, s.k.tcbs[t], m))
    && (forall t :: 0 <= t < |s.k.tcbs| ==> OutcomeOk(s, t, s.k.tcbs[t], s.pcs[t]))
  }

  /** Steps that touch neither ownership nor priorities; waiters may time out. */
  lemma MutexFrame(s: Sys, s': Sys)
    requires MutexInv(s) && s'.owners == s.owners && |s'.pcs| == |s.pcs| && |s'.k.tcbs| == |s.k.tcbs|
    requires forall t :: 0 <= t < |s.k.tcbs| ==> SameRank(s.k.tcbs[t], s'.k.tcbs[t])
    requires forall t: TaskId, m: nat :: Waiting(s', t, Lockers(m)) ==> Waiting(s, t, Lockers(m))
    requires forall t :: 0 <= t < |s.pcs| && s'.pcs[t].InLock? ==>
               && s'.pcs[t] == s.pcs[t]
               && (SameWait(s.k.tcbs[t], s'.k.tcbs[t]) || Blocked(s'.k.tcbs[t])
                   || (Waiting(s, t, Lockers(s.pcs[t].mutex)) && s'.k.tcbs[t].reason != Signaled))
    ensures MutexInv(s')
  {
    forall t ensures Owned(s', t) == Owned(s, t) {
    }
  }

  lemma OwnedGains(s: Sys, s': Sys, m: nat, t: TaskId)
    requires s'.owners == s.owners[m := Some(t)] && m in s.owners && s.owners[m] != Some(t)
    ensures |Owned(s', t)| == |Owned(s, t)| + 1
    ensures forall u :: u != t && s.owners[m] != Some(u) ==> Owned(s', u) == Owned(s, u)
  {
    assert Owned(s', t) == Owned(s, t) + {m};
  }

  lemma OwnedLoses(s: Sys, s': Sys, m: nat, t: TaskId, o: Option<TaskId>)
    requires m in s.owners && s.owners[m] == Some(t) && s'.owners == s.owners[m := o] && o != Some(t)
    ensures |Owned(s', t)| + 1 == |Owned(s, t)|
    ensures forall u :: u != t && o != Some(u) ==> Owned(s', u) == Owned(s, u)
    ensures o.Some? ==> |Owned(s', o.value)| == |Owned(s, o.value)| + 1
  {
    assert Owned(s, t) == Owned(s', t) + {m};
    if o.Some? {
      assert Owned(s', o.value) == Owned(s, o.value) + {m};
    }
  }

  lemma OwnedIs(s: Sys, t: TaskId, m: nat)
    requires m in s.owners && s.owners[m] == Some(t)
    ensures |Owned(s, t)| >= 1
    ensures |Owned(s, t)| == 1 ==> forall m' :: m' in s.owners && s.owners[m'] == Some(t) ==> m' == m
  {
    assert m in Owned(s, t);
    if |Owned(s, t)| == 1 {
      forall m' | m' in s.owners && s.owners[m'] == Some(t) ensures m' == m {
        assert m' in Owned(s, t);
        assert Owned(s, t) - {m} == {} by {
          assert |Owned(s, t) - {m}| == 0;
        }
      }
    }
  }

  // ---------------------------------------------------------------- Acquiring a free mutex

  lemma AcquireKeeps(s: Sys, s': Sys, t: TaskId, m: nat)
    requires MutexInv(s) && t < |s.k.tcbs| && m in s.owners && s.owners[m].None? && !s.pcs[t].InLock?
    requires s.k.tcbs[t].evt.None? && s.k.tcbs[t].held != 0xFF
    requires s'.owners == s.owners[m := Some(t)] && s'.pcs == s.pcs
    requires Recounted(s.k, s'.k, t, s.k.tcbs[t].held + 1)
    ensures MutexInv(s')
  {
    OwnedGains(s, s', m, t);
    forall u | 0 <= u < |s.k.tcbs| ensures RankOk(s', u, s'.k.tcbs[u]) {
      assert RankOk(s, u, s.k.tcbs[u]);
      assert u != t ==> Owned(s', u) == Owned(s, u);
    }
    hide Owned;
    forall u: TaskId, m': nat | Waiting(s', u, Lockers(m')) ensures WaiterOk(s', u, s'.k.tcbs[u], m') {
      assert Waiting(s, u, Lockers(m'));
      assert WaiterOk(s, u, s.k.tcbs[u], m');
    }
    forall u | 0 <= u < |s.k.tcbs| ensures OutcomeOk(s', u, s'.k.tcbs[u], s'.pcs[u]) {
      assert OutcomeOk(s, u, s.k.tcbs[u], s.pcs[u]);
    }
  }

  // ---------------------------------------------------------------- Waiting for an owned mutex

  /** A new waiter with the owner raised to `p`, which covers the waiter. */
  lemma JoinKeeps(s: Sys, k1: Kern, s': Sys, t: TaskId, m: nat, o: TaskId, p: nat)
    requires MutexInv(s) && Placed(s.k) && m in s.owners && s.owners[m] == Some(o) && o != t
    requires Slept(s.k, k1, t, Some(Lockers(m))) && s.k.tcbs[t].held < 0xFF
    requires s'.owners == s.owners && s'.pcs == s.pcs[t := InLock(m)]
    requires Releveled(k1, s'.k, o, p) && p >= s.k.tcbs[o].eff && p >= s.k.tcbs[t].eff
    ensures MutexInv(s')
  {
    OwnedIs(s, o, m);
    forall u ensures Owned(s', u) == Owned(s, u) {
    }
    forall u | 0 <= u < |s.k.tcbs| ensures RankOk(s', u, s'.k.tcbs[u]) {
      assert RankOk(s, u, s.k.tcbs[u]);
    }
    hide Owned;
    forall u: TaskId, m': nat | Waiting(s', u, Lockers(m')) ensures WaiterOk(s', u, s'.k.tcbs[u], m') {
      if u != t {
        assert Waiting(s, u, Lockers(m'));
        assert WaiterOk(s, u, s.k.tcbs[u], m');
      } else {
        assert PlacedTask(s.k, t, s.k.tcbs[t]);
      }
    }
    forall u | 0 <= u < |s.k.tcbs| ensures OutcomeOk(s', u, s'.k.tcbs[u], s'.pcs[u]) {
      assert OutcomeOk(s, u, s.k.tcbs[u], s.pcs[u]);
    }
  }

  // ---------------------------------------------------------------- Giving up on an owned mutex

  /** Lowering an owner that holds only `m` to a priority that still covers the waiters of `m`. */
  lemma LowerKeeps(s: Sys, s': Sys, m: nat, o: TaskId, p: nat)
    requires MutexInv(s) && Placed(s.k) && m in s.owners && s.owners[m] == Some(o)
    requires s'.owners == s.owners && s'.pcs == s.pcs && s.k.tcbs[o].held == 1
    requires Releveled(s.k, s'.k, o, p)
    requires forall u :: 0 <= u < |s.k.tcbs| && Waiting(s, u, Lockers(m)) ==> p >= s.k.tcbs[u].eff
    ensures MutexInv(s')
  {
    OwnedIs(s, o, m);
    forall u ensures Owned(s', u) == Owned(s, u) {
    }
    forall u | 0 <= u < |s.k.tcbs| ensures RankOk(s', u, s'.k.tcbs[u]) {
      assert RankOk(s, u, s.k.tcbs[u]);
    }
    hide Owned;
    forall u: TaskId, m': nat | Waiting(s', u, Lockers(m')) ensures WaiterOk(s', u, s'.k.tcbs[u], m') {
      assert Waiting(s, u, Lockers(m'));
      assert WaiterOk(s, u, s.k.tcbs[u], m');
      assert PlacedTask(s.k, u, s.k.tcbs[u]);
    }
    forall u | 0 <= u < |s.k.tcbs| ensures OutcomeOk(s', u, s'.k.tcbs[u], s'.pcs[u]) {
      assert OutcomeOk(s, u, s.k.tcbs[u], s.pcs[u]);
    }
  }

  // ---------------------------------------------------------------- Releasing

  /** One mutex less, and base priority with the last one. */
  ghost predicate GaveBack(c: Tcb, c': Tcb) {
    c.held > 0 && c'.held == c.held - 1 && c'.base == c.base && c'.eff == if c'.held == 0 then c.base else c.eff
  }

  /** The releasing task after its count went down. */
  ghost predicate Released(c: Tcb, c': Tcb) {
    GaveBack(c, c') && SameWait(c, c')
  }

  lemma ReleaseKeeps(s: Sys, s': Sys, t: TaskId, m: nat)
    requires MutexInv(s) && t < |s.k.tcbs| && m in s.owners && s.owners[m] == Some(t) && !s.pcs[t].InLock?
    requires forall u :: !Waiting(s, u, Lockers(m))
    requires s'.owners == s.owners[m := None] && s'.pcs == s.pcs && |s'.k.tcbs| == |s.k.tcbs|
    requires Released(s.k.tcbs[t], s'.k.tcbs[t])
    requires forall u :: 0 <= u < |s.k.tcbs| && u != t ==> SameRank(s.k.tcbs[u], s'.k.tcbs[u]) && SameWait(s.k.tcbs[u], s'.k.tcbs[u])
    ensures MutexInv(s')
  {
    OwnedLoses(s, s', m, t, None);
    forall u | 0 <= u < |s.k.tcbs| ensures RankOk(s', u, s'.k.tcbs[u]) {
      assert RankOk(s, u, s.k.tcbs[u]);
      assert u != t ==> Owned(s', u) == Owned(s, u);
    }
    forall u: TaskId, m': nat | Waiting(s', u, Lockers(m')) ensures WaiterOk(s', u, s'.k.tcbs[u], m') {
      assert Waiting(s, u, Lockers(m'));
      assert WaiterOk(s, u, s.k.tcbs[u], m');
      if s.owners[m'] == Some(t) {
        OwnedIs(s', t, m');
      }
    }
    hide Owned;
    forall u | 0 <= u < |s.k.tcbs| ensures OutcomeOk(s', u, s'.k.tcbs[u], s'.pcs[u]) {
      assert OutcomeOk(s, u, s.k.tcbs[u], s.pcs[u]);
    }
  }

  /** The new owner after a direct handoff. */
  ghost predicate Received(c: Tcb, c': Tcb) {
    && c'.held == c.held + 1 && c'.base == c.base && c'.eff >= c.eff
    && !Blocked(c') && c'.evt.None? && c'.reason == Signaled
  }

  lemma HandoffKeeps(s: Sys, s': Sys, t: TaskId, m: nat, n: TaskId)
    requires MutexInv(s) && Placed(s.k) && t < |s.k.tcbs| && m in s.owners && s.owners[m] == Some(t) && !s.pcs[t].InLock?
    requires n < |s.k.tcbs| && n != t && Waiting(s, n, Lockers(m)) && s.pcs[n] == InLock(m)
    requires s'.owners == s.owners[m := Some(n)] && s'.pcs == s.pcs && |s'.k.tcbs| == |s.k.tcbs|
    requires Released(s.k.tcbs[t], s'.k.tcbs[t]) && Received(s.k.tcbs[n], s'.k.tcbs[n])
    requires forall u :: 0 <= u < |s.k.tcbs| && u != t && u != n ==>
               SameRank(s.k.tcbs[u], s'.k.tcbs[u]) && SameWait(s.k.tcbs[u], s'.k.tcbs[u])
    requires forall u :: 0 <= u < |s.k.tcbs| && u != n && Waiting(s, u, Lockers(m)) ==> s'.k.tcbs[n].eff >= s.k.tcbs[u].base
    ensures MutexInv(s')
  {
    OwnedLoses(s, s', m, t, Some(n));
    forall u | 0 <= u < |s.k.tcbs| ensures RankOk(s', u, s'.k.tcbs[u]) {
      assert RankOk(s, u, s.k.tcbs[u]);
      if u == n {
        assert WaiterOk(s, n, s.k.tcbs[n], m);
      } else if u != t {
        assert Owned(s', u) == Owned(s, u);
      }
    }
    forall u: TaskId, m': nat | Waiting(s', u, Lockers(m')) ensures WaiterOk(s', u, s'.k.tcbs[u], m') {
      assert Waiting(s, u, Lockers(m'));
      assert WaiterOk(s, u, s.k.tcbs[u], m');
      if m' != m && s.owners[m'] == Some(t) {
        OwnedIs(s', t, m');
      }
    }
    hide Owned;
    forall u | 0 <= u < |s.k.tcbs| ensures OutcomeOk(s', u, s'.k.tcbs[u], s'.pcs[u]) {
      assert OutcomeOk(s, u, s.k.tcbs[u], s.pcs[u]);
    }
  }
}
