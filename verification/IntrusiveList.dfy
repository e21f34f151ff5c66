/**
 The circular doubly linked list with a sentinel. Each list carries the sequence of its
 items as history; every operation is proved to be the corresponding operation on that
 sequence, and each assertion of the source is discharged in place.
 */
module IntrusiveList {
  import opened Sequences
  import opened StableSort

  class Item {
    var value: nat
    var prev: Item?
    var next: Item?
    var owner: object?
    var container: List?

    /** An item that belongs to `owner` and is linked nowhere. */
    constructor (owner: object?)
      ensures value == 0 && prev == null && next == null && container == null && this.owner == owner
    {
      this.value, this.prev, this.next, this.owner, this.container := 0, null, null, owner, null;
    }
  }

  class List {
    var count: nat
    const sentinel: Item
    ghost var items: seq<Item>

    /** The sentinel, the items, and the sentinel again: each node next to its neighbours. */
    ghost function Circle(): (c: seq<Item>)
      reads this
    {
      [sentinel] + items + [sentinel]
    }

    ghost function Nodes(): set<Item>
      reads this
    {
      {sentinel} + set x | x in items
    }

    ghost predicate Valid()
      reads this, Nodes()
    {
      && count == |items|
      && sentinel !in items && NoDup(items) && sentinel.container == this
      && (forall i :: 0 <= i < |items| ==> items[i].container == this && items[i].owner != null)
      && Closed(Circle())
    }

    constructor ()
      ensures Valid() && items == [] && fresh(sentinel)
    {
      count, items := 0, [];
      sentinel := new Item(null);
      new;
      sentinel.next, sentinel.prev, sentinel.container := sentinel, sentinel, this;
    }
  }

  ghost predicate Closed(c: seq<Item>)
    reads c
  {
    forall i :: 0 <= i < |c| - 1 ==> c[i].next == c[i + 1] && c[i + 1].prev == c[i]
  }

  ghost function Values(xs: seq<Item>): (vs: seq<nat>)
    reads xs
    ensures |vs| == |xs| && forall i :: 0 <= i < |xs| ==> vs[i] == xs[i].value
  {
    if xs == [] then [] else [xs[0].value] + Values(xs[1..])
  }

  /** The item may be linked: it has an owner and is in no list. */
  ghost predicate Loose(item: Item)
    reads item
  {
    item.container == null && item.owner != null
  }

  /** Two different valid lists share no node. */
  lemma ListsAreApart(l: List, m: List)
    requires l.Valid() && m.Valid() && l != m
    ensures l.Nodes() !! m.Nodes()
  {
    forall x | x in l.Nodes() ensures x.container == l {
    }
    forall x | x in m.Nodes() ensures x.container == m {
    }
  }

  /** In a circle, a node is the successor of one node only and the predecessor of one node only. */
  lemma CircleDistinct(xs: seq<Item>, s: Item)
    requires NoDup(xs) && s !in xs
    ensures var c := [s] + xs + [s];
            && (forall j, k :: 0 <= j < k < |c| - 1 ==> c[j] != c[k])
            && (forall j, k :: 0 < j < k < |c| ==> c[j] != c[k])
  {
  }

  lemma CircleInsert(xs: seq<Item>, s: Item, i: nat, x: Item)
    requires i <= |xs|
    ensures var c := [s] + xs + [s];
            [s] + InsertAt(xs, i, x) + [s] == c[..i + 1] + [x] + c[i + 1..]
  {
  }

  lemma CircleRemove(xs: seq<Item>, s: Item, i: nat)
    requires i < |xs|
    ensures var c := [s] + xs + [s];
            [s] + (xs[..i] + xs[i + 1..]) + [s] == c[..i + 1] + c[i + 2..]
  {
  }

  /** Where the node is in the sequence that starts with the sentinel. */
  ghost function After(list: List, dst: Item): (i: nat)
    requires dst in list.Nodes()
    reads list
    ensures i <= |list.items| && list.Circle()[i] == dst
  {
    IndexOf([list.sentinel] + list.items, dst)
  }

  /** Where the node is in the sequence that ends with the sentinel. */
  ghost function Before(list: List, dst: Item): (i: nat)
    requires dst in list.Nodes()
    reads list
    ensures i <= |list.items| && list.Circle()[i + 1] == dst
  {
    IndexOf(list.items + [list.sentinel], dst)
  }

  /** Every two neighbours of the circle are linked, except perhaps those at `i` and `i + 1`. */
  ghost predicate ClosedBut(c: seq<Item>, i: nat)
    reads c
  {
    forall j :: 0 <= j < |c| - 1 && j != i ==> c[j].next == c[j + 1] && c[j + 1].prev == c[j]
  }

  lemma Splice(c: seq<Item>, i: nat, item: Item)
    requires i < |c| - 1 && ClosedBut(c, i)
    requires c[i].next == item && item.prev == c[i] && item.next == c[i + 1] && c[i + 1].prev == item
    ensures Closed(c[..i + 1] + [item] + c[i + 1..])
  {
    var d := c[..i + 1] + [item] + c[i + 1..];
    forall j | 0 <= j < |d| - 1 ensures d[j].next == d[j + 1] && d[j + 1].prev == d[j] {
      if j < i {
        assert d[j] == c[j] && d[j + 1] == c[j + 1];
      } else if j > i + 1 {
        assert d[j] == c[j - 1] && d[j + 1] == c[j];
      }
    }
  }

  /** After the links are in place, the list whose history gains `item` is valid. */
  lemma Gained(list: List, xs: seq<Item>, i: nat, item: Item)
    requires NoDup(xs) && list.sentinel !in xs && item !in xs && item != list.sentinel && i <= |xs|
    requires list.count == |xs| + 1 && list.sentinel.container == list && list.items == InsertAt(xs, i, item)
    requires forall x :: x in xs || x == item ==> x.container == list && x.owner != null
    requires var c := [list.sentinel] + xs + [list.sentinel];
             ClosedBut(c, i) && c[i].next == item && item.prev == c[i] && item.next == c[i + 1] && c[i + 1].prev == item
    ensures list.Valid()
  {
    var c := [list.sentinel] + xs + [list.sentinel];
    Splice(c, i, item);
    CircleInsert(xs, list.sentinel, i, item);
    InsertAtMembers(xs, i, item);
  }

  method Append(dst: Item, item: Item)
    requires dst.container != null && dst.container.Valid() && dst in dst.container.Nodes() && Loose(item)
    modifies dst.container, dst.container.Nodes(), item
    ensures dst.container == old(dst.container) && dst.container.Valid()
    ensures dst.container.items == InsertAt(old(dst.container.items), old(After(dst.container, dst)), item)
    ensures forall x :: x in old(dst.container.Nodes()) + {item} ==> x.value == old(x.value) && x.owner == old(x.owner)
  {
    hide InsertAt, After, NoDup;
    ghost var list, xs, i := dst.container, dst.container.items, After(dst.container, dst);
    ghost var c := list.Circle();
    CircleDistinct(xs, list.sentinel);
    assert dst == c[i] && dst.next == c[i + 1] && dst.next.prev == dst;
    var next := dst.next;

    dst.next := item;
    item.prev := dst;

    item.next := next;
    next.prev := item;

    item.container := dst.container;
    dst.container.count := dst.container.count + 1;

    list.items := InsertAt(xs, i, item);
    assert ClosedBut(c, i);
    Gained(list, xs, i, item);
  }

  method Prepend(dst: Item, item: Item)
    requires dst.container != null && dst.container.Valid() && dst in dst.container.Nodes() && Loose(item)
    modifies dst.container, dst.container.Nodes(), item
    ensures dst.container == old(dst.container) && dst.container.Valid()
    ensures dst.container.items == InsertAt(old(dst.container.items), old(Before(dst.container, dst)), item)
    ensures forall x :: x in old(dst.container.Nodes()) + {item} ==> x.value == old(x.value) && x.owner == old(x.owner)
  {
    hide InsertAt, Before, NoDup;
    ghost var list, xs, i := dst.container, dst.container.items, Before(dst.container, dst);
    ghost var c := list.Circle();
    CircleDistinct(xs, list.sentinel);
    assert dst == c[i + 1] && dst.prev == c[i] && dst.prev.next == dst;
    var prev := dst.prev;

    dst.prev := item;
    item.next := dst;

    item.prev := prev;
    prev.next := item;

    item.container := dst.container;
    dst.container.count := dst.container.count + 1;

    list.items := InsertAt(xs, i, item);
    assert ClosedBut(c, i);
    Gained(list, xs, i, item);
  }

  /** Every two neighbours of the circle are linked, except perhaps the node at `i + 1` to its own. */
  ghost predicate ClosedAround(c: seq<Item>, i: nat)
    reads c
  {
    forall j :: 0 <= j < |c| - 1 && j != i && j != i + 1 ==> c[j].next == c[j + 1] && c[j + 1].prev == c[j]
  }

  /** After the neighbours of the item at `i` are linked to each other, the list whose history loses it is valid. */
  lemma Lost(list: List, xs: seq<Item>, i: nat)
    requires NoDup(xs) && list.sentinel !in xs && i < |xs|
    requires list.count == |xs| - 1 && list.sentinel.container == list && list.items == xs[..i] + xs[i + 1..]
    requires forall j :: 0 <= j < |xs| && j != i ==> xs[j].container == list && xs[j].owner != null
    requires var c := [list.sentinel] + xs + [list.sentinel];
             c[i].next == c[i + 2] && c[i + 2].prev == c[i] && ClosedAround(c, i)
    ensures list.Valid()
  {
    var c := [list.sentinel] + xs + [list.sentinel];
    var d := c[..i + 1] + c[i + 2..];
    CircleRemove(xs, list.sentinel, i);
    forall j | 0 <= j < |d| - 1 ensures d[j].next == d[j + 1] && d[j + 1].prev == d[j] {
      assert j <= i ==> d[j] == c[j];
      assert j < i ==> d[j + 1] == c[j + 1];
      assert j > i ==> d[j] == c[j + 1];
      assert j >= i ==> d[j + 1] == c[j + 2];
    }
  }

  lemma RemoveIs(xs: seq<Item>, x: Item)
    requires x in xs
    ensures Remove(xs, x) == xs[..IndexOf(xs, x)] + xs[IndexOf(xs, x) + 1..]
  {
  }

  method Unlink(item: Item)
    requires item.container != null && item.container.Valid() && item in item.container.items
    modifies item.container, item.container.Nodes()
    ensures item.container == null && item.next == null && item.prev == null
    ensures var list := old(item.container);
            list.Valid() && list.items == Remove(old(list.items), item) && item !in list.items
    ensures forall x :: x in old(item.container.Nodes()) ==> x.value == old(x.value) && x.owner == old(x.owner)
  {
    hide Remove, IndexOf, NoDup;
    ghost var list, xs := item.container, item.container.items;
    ghost var c, i := list.Circle(), IndexOf(xs, item);
    RemoveIs(xs, item);
    CircleDistinct(xs, list.sentinel);
    assert item == c[i + 1] && item.next == c[i + 2] && item.prev == c[i];
    assert item.next.prev == item && item.prev.next == item && item.container.count > 0 && item.container.sentinel != item;
    RemoveMembers(xs, item);

    var prev := item.prev;
    var next := item.next;
    prev.next := next;
    next.prev := prev;
    item.container.count := item.container.count - 1;

    item.container := null;
    item.next := null;
    item.prev := null;

    list.items := Remove(xs, item);
    assert ClosedAround(c, i);
    Lost(list, xs, i);
  }

  method InsertEnd(list: List?, item: Item)
    requires list != null ==> list.Valid() && Loose(item)
    modifies list, if list == null then {} else list.Nodes(), item
    ensures list == null ==> unchanged(item)
    ensures list != null ==>
              && list.Valid() && list.items == old(list.items) + [item]
              && forall x :: x in old(list.Nodes()) + {item} ==> x.value == old(x.value) && x.owner == old(x.owner)
  {
    if list == null {
      return;
    }
    ghost var xs := list.items;
    CircleDistinct(xs, list.sentinel);
    assert InsertAt(xs, |xs|, item) == xs + [item];
    assert list.Circle()[Before(list, list.sentinel) + 1] == list.Circle()[|xs| + 1];
    Prepend(list.sentinel, item);
  }

  method InsertSorted(list: List?, item: Item)
    requires list != null ==> list.Valid() && Loose(item)
    modifies list, if list == null then {} else list.Nodes(), item
    ensures list == null ==> unchanged(item)
    ensures list != null ==>
              && list.Valid()
              && list.items == InsertAt(old(list.items), AscendingPosition(old(Values(list.items)), old(item.value)), item)
              && forall x :: x in old(list.Nodes()) + {item} ==> x.value == old(x.value) && x.owner == old(x.owner)
  {
    if list == null {
      return;
    }
    ghost var c, k := list.Circle(), 0;
    CircleDistinct(list.items, list.sentinel);
    assert c[0].next == c[1];
    var current := list.sentinel.next;
    while current != list.sentinel && current.value <= item.value
      invariant 0 <= k <= |list.items| && current == c[k + 1]
      invariant forall j :: 0 <= j < k ==> list.items[j].value <= item.value
      decreases |list.items| - k
    {
      assert c[k + 1] == list.items[k] && current.next == c[k + 2];
      current := current.next;
      k := k + 1;
    }
    assert c[Before(list, current) + 1] == c[k + 1];
    assert k < |list.items| ==> c[k + 1] == list.items[k];
    AscendingPositionIs(Values(list.items), item.value, k);
    Prepend(current, item);
  }

  method InsertReversedSorted(list: List?, item: Item)
    requires list != null ==> list.Valid() && Loose(item)
    modifies list, if list == null then {} else list.Nodes(), item
    ensures list == null ==> unchanged(item)
    ensures list != null ==>
              && list.Valid()
              && list.items == InsertAt(old(list.items), DescendingPosition(old(Values(list.items)), old(item.value)), item)
              && forall x :: x in old(list.Nodes()) + {item} ==> x.value == old(x.value) && x.owner == old(x.owner)
  {
    if list == null {
      return;
    }
    ghost var c, k := list.Circle(), |list.items|;
    CircleDistinct(list.items, list.sentinel);
    assert c[k + 1] == list.sentinel && list.sentinel.prev == c[k];
    var current := list.sentinel.prev;
    while current != list.sentinel && item.value > current.value
      invariant 0 <= k <= |list.items| && current == c[k]
      invariant forall j :: k <= j < |list.items| ==> list.items[j].value < item.value
      decreases k
    {
      assert c[k] == list.items[k - 1] && current.prev == c[k - 1];
      current := current.prev;
      k := k - 1;
    }
    assert c[After(list, current)] == c[k];
    assert k > 0 ==> c[k] == list.items[k - 1];
    DescendingPositionIs(Values(list.items), item.value, k);
    Append(current, item);
  }

  // ---------------------------------------------------------------- Walks

  /** The node that `n` steps along the `next` links lead to. */
  ghost function Forward(x: Item, n: nat): (y: Item?)
    reads *
    decreases n
  {
    if n == 0 then x else if x.next == null then null else Forward(x.next, n - 1)
  }

  ghost function Backward(x: Item, n: nat): (y: Item?)
    reads *
    decreases n
  {
    if n == 0 then x else if x.prev == null then null else Backward(x.prev, n - 1)
  }

  lemma {:induction false} ForwardFrom(list: List, i: nat, n: nat)
    requires list.Valid() && i + n < |list.Circle()|
    ensures Forward(list.Circle()[i], n) == list.Circle()[i + n]
    decreases n
  {
    if n == 0 {
    } else {
      assert list.Circle()[i].next == list.Circle()[i + 1];
      ForwardFrom(list, i + 1, n - 1);
    }
  }

  lemma {:induction false} BackwardFrom(list: List, i: nat, n: nat)
    requires list.Valid() && n <= i < |list.Circle()|
    ensures Backward(list.Circle()[i], n) == list.Circle()[i - n]
    decreases n
  {
    if n == 0 {
    } else {
      assert list.Circle()[i - 1 + 1].prev == list.Circle()[i - 1];
      BackwardFrom(list, i - 1, n - 1);
    }
  }

  /** From the sentinel, the forward walk visits the items in order, the backward walk in reverse, and both return after `count` items. */
  lemma WalksAgree(list: List)
    requires list.Valid()
    ensures forall i :: 0 <= i < |list.items| ==> Forward(list.sentinel, i + 1) == list.items[i]
    ensures forall i :: 0 <= i < |list.items| ==> Backward(list.sentinel, |list.items| - i) == list.items[i]
    ensures Forward(list.sentinel, list.count + 1) == list.sentinel && Backward(list.sentinel, list.count + 1) == list.sentinel
  {
    var c, n := list.Circle(), |list.items|;
    forall i | 0 <= i <= n + 1 ensures Forward(list.sentinel, i) == c[i] && Backward(list.sentinel, n + 1 - i) == c[i] {
      ForwardFrom(list, 0, i);
      BackwardFrom(list, n + 1, n + 1 - i);
    }
    assert forall i :: 0 <= i < n ==> list.items[i] == c[i + 1];
    assert c[0] == c[n + 1] == list.sentinel;
  }

  // ---------------------------------------------------------------- Two lists

  /** Moves an item from the list it is in to the end of another, as waking and requeueing do. */
  method MoveToEnd(item: Item, to: List)
    requires item.container != null && item.container.Valid() && item in item.container.items
    requires to.Valid() && to != item.container
    modifies item.container, item.container.Nodes(), to, to.Nodes()
    ensures var from := old(item.container);
            && from.Valid() && from.items == Remove(old(from.items), item)
            && to.Valid() && to.items == old(to.items) + [item] && item.container == to
  {
    hide List.Valid, Remove;
    ghost var list := item.container;
    ListsAreApart(list, to);
    Members(list);
    Unlink(item);
    assert list.Nodes() <= old(list.Nodes()) by {
      FewerNodes(old(list.items), item);
    }
    InsertEnd(to, item);
    Members(to);
  }

  lemma Members(list: List)
    requires list.Valid()
    ensures forall x :: x in list.items ==> x.container == list && x.owner != null && x != list.sentinel
    ensures forall x :: x in list.Nodes() ==> x.container == list
    ensures NoDup(list.items)
  {
  }

  lemma FewerNodes(xs: seq<Item>, x: Item)
    ensures forall y :: y in Remove(xs, x) ==> y in xs
  {
  }

  // ---------------------------------------------------------------- Many inserts

  lemma ValuesAreKeys(xs: seq<Item>, key: Item -> nat)
    requires forall x :: x in xs ==> x.value == key(x)
    ensures Values(xs) == Keys(xs, key)
  {
  }

  lemma InsertAllStep(xs: seq<Item>, i: nat, key: Item -> nat, ascending: bool)
    requires i < |xs|
    ensures InsertAll(xs[..i + 1], key, ascending) == SortedInsert(InsertAll(xs[..i], key, ascending), key, xs[i], ascending)
    ensures forall x :: x in xs[..i + 1] <==> x in xs[..i] || x == xs[i]
  {
    assert xs[..i + 1][..i] == xs[..i];
    assert xs[..i + 1] == xs[..i] + [xs[i]];
  }

  lemma InsertNone(xs: seq<Item>, key: Item -> nat, ascending: bool)
    ensures InsertAll(xs[..0], key, ascending) == []
  {
  }

  lemma PlaceIs(vs: seq<nat>, v: nat)
    ensures Place(vs, v, true) == AscendingPosition(vs, v) && Place(vs, v, false) == DescendingPosition(vs, v)
  {
  }

  method InsertOne(list: List, item: Item, ascending: bool, ghost key: Item -> nat)
    requires list.Valid() && Loose(item) && item.value == key(item)
    requires forall x :: x in list.items ==> x.value == key(x)
    modifies list, list.Nodes(), item
    ensures list.Valid() && list.items == SortedInsert(old(list.items), key, item, ascending)
    ensures forall x :: x in old(list.items) + [item] ==> x.value == key(x)
    ensures forall x :: x in list.items <==> x in old(list.items) || x == item
  {
    hide List.Valid, InsertAt, Place, Values, Keys;
    ghost var before := list.items;
    ValuesAreKeys(before, key);
    PlaceIs(Values(before), item.value);
    if ascending {
      InsertSorted(list, item);
    } else {
      InsertReversedSorted(list, item);
    }
    assert list.items == SortedInsert(before, key, item, ascending);
    InsertAtMembers(before, Place(Keys(before, key), key(item), ascending), item);
  }

  /** Inserts the items one after the other; the list is then the stable sort of the items by their values. */
  method InsertEach(list: List, xs: seq<Item>, ascending: bool, ghost key: Item -> nat)
    requires list.Valid() && list.items == [] && NoDup(xs)
    requires forall x :: x in xs ==> Loose(x) && x.value == key(x)
    modifies list, list.sentinel, xs
    ensures list.Valid() && (forall x :: x in xs ==> x.value == key(x))
    ensures InOrder(list.items, key, ascending)
    ensures forall v :: WithKey(list.items, key, v) == WithKey(xs, key, v)
  {
    hide List.Valid, InOrder, WithKey, InsertAll, SortedInsert;
    var i := 0;
    InsertNone(xs, key, ascending);
    while i < |xs|
      invariant 0 <= i <= |xs| && list.Valid() && list.items == InsertAll(xs[..i], key, ascending)
      invariant forall x :: x in list.items <==> x in xs[..i]
      invariant forall x :: x in xs ==> x.value == key(x)
      invariant forall j :: i <= j < |xs| ==> Loose(xs[j])
    {
      Members(list);
      assert forall j :: i <= j < |xs| ==> xs[j] !in list.Nodes();
      InsertAllStep(xs, i, key, ascending);
      InsertOne(list, xs[i], ascending, key);
      i := i + 1;
    }
    assert xs[..|xs|] == xs;
    InsertAllIsStableSort(xs, key, ascending);
  }
}
