/**
 What the two sorted inserts are for. Inserting items one after the other, ascending or
 descending, yields the stable sort of the insertion order: the result is in order, and the
 items of each key are the same, in the same order, as they were inserted. Only one sequence
 is like that.
 */
module StableSort {
  import opened Sequences

  /** `a` belongs strictly in front of `b`. */
  predicate Precedes(a: nat, b: nat, ascending: bool) {
    if ascending then a < b else a > b
  }

  function Keys<X>(xs: seq<X>, key: X -> nat): (ks: seq<nat>)
    ensures |ks| == |xs| && forall i :: 0 <= i < |xs| ==> ks[i] == key(xs[i])
  {
    seq(|xs|, i requires 0 <= i < |xs| => key(xs[i]))
  }

  /** The place that the scan of the sorted insert finds. */
  function Place(ks: seq<nat>, v: nat, ascending: bool): (i: nat)
    ensures i <= |ks|
  {
    if ascending then AscendingPosition(ks, v) else DescendingPosition(ks, v)
  }

  function SortedInsert<X>(xs: seq<X>, key: X -> nat, x: X, ascending: bool): seq<X> {
    InsertAt(xs, Place(Keys(xs, key), key(x), ascending), x)
  }

  /** An empty list after sorted inserts of the elements of `xs`, first to last. */
  function InsertAll<X>(xs: seq<X>, key: X -> nat, ascending: bool): seq<X> {
    if xs == [] then []
    else SortedInsert(InsertAll(xs[..|xs| - 1], key, ascending), key, xs[|xs| - 1], ascending)
  }

  ghost predicate InOrder<X>(xs: seq<X>, key: X -> nat, ascending: bool) {
    forall i, j :: 0 <= i < j < |xs| ==> !Precedes(key(xs[j]), key(xs[i]), ascending)
  }

  /** The elements with key `v`, in order. */
  ghost function WithKey<X>(xs: seq<X>, key: X -> nat, v: nat): (ys: seq<X>) {
    if xs == [] then [] else (if key(xs[0]) == v then [xs[0]] else []) + WithKey(xs[1..], key, v)
  }

  lemma {:induction false} WithKeyConcat<X>(xs: seq<X>, ys: seq<X>, key: X -> nat, v: nat)
    ensures WithKey(xs + ys, key, v) == WithKey(xs, key, v) + WithKey(ys, key, v)
  {
    if xs == [] {
      assert xs + ys == ys;
    } else {
      assert (xs + ys)[1..] == xs[1..] + ys;
      WithKeyConcat(xs[1..], ys, key, v);
      var head := if key(xs[0]) == v then [xs[0]] else [];
      var a, b := WithKey(xs[1..], key, v), WithKey(ys, key, v);
      assert WithKey(xs + ys, key, v) == head + (a + b) == (head + a) + b;
    }
  }

  lemma {:induction false} WithKeyNone<X>(xs: seq<X>, key: X -> nat, v: nat)
    ensures WithKey(xs, key, v) == [] <==> forall i :: 0 <= i < |xs| ==> key(xs[i]) != v
  {
    if xs == [] {
    } else {
      WithKeyNone(xs[1..], key, v);
      assert forall i :: 1 <= i < |xs| ==> xs[i] == xs[1..][i - 1];
    }
  }

  /** The scan stops behind everything that does not belong after the new key. */
  lemma PlaceSplits(ks: seq<nat>, v: nat, ascending: bool)
    requires forall i, j :: 0 <= i < j < |ks| ==> !Precedes(ks[j], ks[i], ascending)
    ensures var p := Place(ks, v, ascending);
            && (forall i :: 0 <= i < p ==> !Precedes(v, ks[i], ascending))
            && (forall i :: p <= i < |ks| ==> Precedes(v, ks[i], ascending))
  {
  }

  lemma SortedInsertKeepsOrder<X>(xs: seq<X>, key: X -> nat, x: X, ascending: bool)
    requires InOrder(xs, key, ascending)
    ensures InOrder(SortedInsert(xs, key, x, ascending), key, ascending)
  {
    var p, ys := Place(Keys(xs, key), key(x), ascending), SortedInsert(xs, key, x, ascending);
    PlaceSplits(Keys(xs, key), key(x), ascending);
    forall i, j | 0 <= i < j < |ys| ensures !Precedes(key(ys[j]), key(ys[i]), ascending) {
      assert i < p ==> ys[i] == xs[i];
      assert i > p ==> ys[i] == xs[i - 1];
      assert j < p ==> ys[j] == xs[j];
      assert j > p ==> ys[j] == xs[j - 1];
      assert i < p ==> !Precedes(key(x), Keys(xs, key)[i], ascending);
      assert j > p ==> Precedes(key(x), Keys(xs, key)[j - 1], ascending);
    }
  }

  lemma WithKeyThree<X>(front: seq<X>, x: X, back: seq<X>, key: X -> nat, v: nat)
    ensures WithKey(front + [x] + back, key, v) == WithKey(front, key, v) + WithKey([x], key, v) + WithKey(back, key, v)
    ensures WithKey(front + back, key, v) == WithKey(front, key, v) + WithKey(back, key, v)
    ensures v != key(x) ==> WithKey([x], key, v) == []
  {
    WithKeyConcat(front, back, key, v);
    WithKeyConcat(front, [x], key, v);
    WithKeyConcat(front + [x], back, key, v);
  }

  lemma NoEqualBehind<X>(xs: seq<X>, key: X -> nat, x: X, ascending: bool)
    requires InOrder(xs, key, ascending)
    ensures WithKey(xs[Place(Keys(xs, key), key(x), ascending)..], key, key(x)) == []
  {
    hide Place, WithKey;
    var p := Place(Keys(xs, key), key(x), ascending);
    PlaceSplits(Keys(xs, key), key(x), ascending);
    WithKeyNone(xs[p..], key, key(x));
    forall i | 0 <= i < |xs[p..]| ensures key(xs[p..][i]) != key(x) {
      assert Precedes(key(x), Keys(xs, key)[p + i], ascending);
    }
  }

  /** The new element comes last among those with its key. */
  lemma SortedInsertIsStable<X>(xs: seq<X>, key: X -> nat, x: X, v: nat, ascending: bool)
    requires InOrder(xs, key, ascending)
    ensures WithKey(SortedInsert(xs, key, x, ascending), key, v) == WithKey(xs, key, v) + WithKey([x], key, v)
  {
    hide Place, WithKey, InOrder, Keys;
    var p := Place(Keys(xs, key), key(x), ascending);
    NoEqualBehind(xs, key, x, ascending);
    WithKeyThree(xs[..p], x, xs[p..], key, v);
    assert xs == xs[..p] + xs[p..];
  }

  lemma {:induction false} InsertAllIsStableSort<X>(xs: seq<X>, key: X -> nat, ascending: bool)
    ensures InOrder(InsertAll(xs, key, ascending), key, ascending)
    ensures forall v :: WithKey(InsertAll(xs, key, ascending), key, v) == WithKey(xs, key, v)
  {
    if xs == [] {
    } else {
      var init, x := xs[..|xs| - 1], xs[|xs| - 1];
      InsertAllIsStableSort(init, key, ascending);
      SortedInsertKeepsOrder(InsertAll(init, key, ascending), key, x, ascending);
      forall v ensures WithKey(InsertAll(xs, key, ascending), key, v) == WithKey(xs, key, v) {
        SortedInsertIsStable(InsertAll(init, key, ascending), key, x, v, ascending);
        WithKeyConcat(init, [x], key, v);
        assert init + [x] == xs;
      }
    }
  }

  lemma FirstKeys<X>(xs: seq<X>, ys: seq<X>, key: X -> nat, ascending: bool)
    requires InOrder(xs, key, ascending) && InOrder(ys, key, ascending) && xs != [] && ys != []
    requires forall v :: WithKey(xs, key, v) == WithKey(ys, key, v)
    ensures !Precedes(key(ys[0]), key(xs[0]), ascending)
  {
    WithKeyNone(xs, key, key(ys[0]));
    WithKeyNone(ys, key, key(ys[0]));
    assert WithKey(ys, key, key(ys[0])) != [];
    var i :| 0 <= i < |xs| && key(xs[i]) == key(ys[0]);
  }

  lemma WithKeyTail<X>(xs: seq<X>, key: X -> nat, v: nat)
    requires xs != []
    ensures if key(xs[0]) == v then WithKey(xs, key, v) != [] && WithKey(xs[1..], key, v) == WithKey(xs, key, v)[1..]
            else WithKey(xs[1..], key, v) == WithKey(xs, key, v)
  {
  }

  lemma EmptyTogether<X>(xs: seq<X>, ys: seq<X>, key: X -> nat)
    requires forall v :: WithKey(xs, key, v) == WithKey(ys, key, v)
    ensures xs == [] ==> ys == []
  {
    if ys != [] {
      WithKeyNone(ys, key, key(ys[0]));
    }
  }

  /** There is only one stable sort. */
  lemma {:induction false} StableSortIsUnique<X>(xs: seq<X>, ys: seq<X>, key: X -> nat, ascending: bool)
    requires InOrder(xs, key, ascending) && InOrder(ys, key, ascending)
    requires forall v :: WithKey(xs, key, v) == WithKey(ys, key, v)
    ensures xs == ys
  {
    if xs == [] || ys == [] {
      EmptyTogether(xs, ys, key);
      EmptyTogether(ys, xs, key);
    } else {
      FirstKeys(xs, ys, key, ascending);
      FirstKeys(ys, xs, key, ascending);
      var v := key(xs[0]);
      assert WithKey(xs, key, v)[0] == xs[0] && WithKey(ys, key, v)[0] == ys[0];
      forall u ensures WithKey(xs[1..], key, u) == WithKey(ys[1..], key, u) {
        assert WithKey(xs, key, u) == WithKey(ys, key, u);
        WithKeyTail(xs, key, u);
        WithKeyTail(ys, key, u);
      }
      StableSortIsUnique(xs[1..], ys[1..], key, ascending);
      assert xs == [xs[0]] + xs[1..] && ys == [ys[0]] + ys[1..];
    }
  }
}
