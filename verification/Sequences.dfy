/**
 Sequence operations that the intrusive lists of the kernel implement: positional
 insertion, removal of one element, and the two insertion positions that the
 sorted inserts scan for.
 */
module Sequences {

  ghost predicate NoDup<X>(xs: seq<X>) {
    forall i, j :: 0 <= i < j < |xs| ==> xs[i] != xs[j]
  }

  function InsertAt<X>(xs: seq<X>, i: nat, x: X): (ys: seq<X>)
    requires i <= |xs|
  {
    xs[..i] + [x] + xs[i..]
  }

  function IndexOf<X(==)>(xs: seq<X>, x: X): (i: nat)
    requires x in xs
    ensures i < |xs| && xs[i] == x && x !in xs[..i]
  {
    if xs[0] == x then 0 else
      var i := IndexOf(xs[1..], x);
      assert xs[..i + 1] == [xs[0]] + xs[1..][..i];
      i + 1
  }

  function Remove<X(==)>(xs: seq<X>, x: X): (ys: seq<X>) {
    if x in xs then
      var i := IndexOf(xs, x);
      xs[..i] + xs[i + 1..]
    else
      xs
  }

  /** The place where the ascending scan stops: behind every leading key that is at most `v`. */
  function AscendingPosition(keys: seq<nat>, v: nat): (i: nat)
    ensures i <= |keys|
    ensures forall j :: 0 <= j < i ==> keys[j] <= v
    ensures i < |keys| ==> keys[i] > v
  {
    if keys == [] || keys[0] > v then 0 else 1 + AscendingPosition(keys[1..], v)
  }

  /** The place where the descending scan stops: in front of every trailing key that is below `v`. */
  function DescendingPosition(keys: seq<nat>, v: nat): (i: nat)
    ensures i <= |keys|
    ensures forall j :: i <= j < |keys| ==> keys[j] < v
    ensures i > 0 ==> keys[i - 1] >= v
  {
    if keys == [] || keys[|keys| - 1] >= v then |keys| else DescendingPosition(keys[..|keys| - 1], v)
  }

  lemma IndexUnique<X>(xs: seq<X>, x: X, i: nat)
    requires NoDup(xs) && i < |xs| && xs[i] == x
    ensures x in xs && IndexOf(xs, x) == i
  {
  }

  lemma AscendingPositionIs(vs: seq<nat>, v: nat, k: nat)
    requires k <= |vs| && (forall j :: 0 <= j < k ==> vs[j] <= v) && (k < |vs| ==> vs[k] > v)
    ensures AscendingPosition(vs, v) == k
  {
  }

  lemma DescendingPositionIs(vs: seq<nat>, v: nat, k: nat)
    requires k <= |vs| && (forall j :: k <= j < |vs| ==> vs[j] < v) && (k > 0 ==> vs[k - 1] >= v)
    ensures DescendingPosition(vs, v) == k
  {
  }

  lemma InsertAtMembers<X>(xs: seq<X>, i: nat, x: X)
    requires i <= |xs|
    ensures forall y :: y in InsertAt(xs, i, x) <==> y == x || y in xs
    ensures x !in xs && NoDup(xs) ==> NoDup(InsertAt(xs, i, x))
  {
    var ys := InsertAt(xs, i, x);
    forall y ensures y in ys <==> y == x || y in xs {
      if y in xs {
        var j :| 0 <= j < |xs| && xs[j] == y;
        assert ys[if j < i then j else j + 1] == y;
      }
      assert ys[i] == x;
    }
  }

  lemma RemoveMembers<X>(xs: seq<X>, x: X)
    requires NoDup(xs)
    ensures NoDup(Remove(xs, x))
    ensures forall y :: y in Remove(xs, x) <==> y in xs && y != x
    ensures |Remove(xs, x)| == if x in xs then |xs| - 1 else |xs|
  {
    if x in xs {
      var i, ys := IndexOf(xs, x), Remove(xs, x);
      forall y ensures y in ys <==> y in xs && y != x {
        if y in xs && y != x {
          var j :| 0 <= j < |xs| && xs[j] == y;
          assert ys[if j < i then j else j - 1] == y;
        }
      }
    }
  }

  /** `xs` is pairwise in the order `r`. */
  ghost predicate Ordered<X(!new)>(xs: seq<X>, r: (X, X) -> bool) {
    forall i, j :: 0 <= i < j < |xs| ==> r(xs[i], xs[j])
  }

  lemma OrderedRemove<X(!new)>(xs: seq<X>, x: X, r: (X, X) -> bool)
    requires Ordered(xs, r)
    ensures Ordered(Remove(xs, x), r)
  {
    hide IndexOf;
    if x in xs {
      var i, ys := IndexOf(xs, x), Remove(xs, x);
      forall a, b | 0 <= a < b < |ys| ensures r(ys[a], ys[b]) {
        assert ys[a] == xs[if a < i then a else a + 1];
        assert ys[b] == xs[if b < i then b else b + 1];
      }
    }
  }

  lemma OrderedInsert<X(!new)>(xs: seq<X>, i: nat, x: X, r: (X, X) -> bool)
    requires Ordered(xs, r) && i <= |xs|
    requires forall j :: 0 <= j < i ==> r(xs[j], x)
    requires forall j :: i <= j < |xs| ==> r(x, xs[j])
    ensures Ordered(InsertAt(xs, i, x), r)
  {
    var ys := InsertAt(xs, i, x);
    forall a, b | 0 <= a < b < |ys| ensures r(ys[a], ys[b]) {
      assert a < i ==> ys[a] == xs[a];
      assert a > i ==> ys[a] == xs[a - 1];
      assert b < i ==> ys[b] == xs[b];
      assert b > i ==> ys[b] == xs[b - 1];
    }
  }

  lemma OrderedCongruent<X(!new)>(xs: seq<X>, r: (X, X) -> bool, r': (X, X) -> bool)
    requires Ordered(xs, r)
    requires forall x, y :: x in xs && y in xs && r(x, y) ==> r'(x, y)
    ensures Ordered(xs, r')
  {
  }

  lemma OrderedAt<X(!new)>(xs: seq<X>, r: (X, X) -> bool, i: nat, j: nat)
    requires Ordered(xs, r) && i < j < |xs|
    ensures r(xs[i], xs[j])
  {
  }
}
