/**
 All lists of the kernel at once. Every task has two items, one for a ready, delayed or
 suspend list and one for a wait list, and every list is a circle of such items. The
 operations that the scheduler performs on its lists are carried out on this one linked
 structure and proved to change the contents of one list, as the scheduler assumes, while
 all circles stay intact.
 */
module TaskLists {
  import opened Sequences
  import opened Kernel
  import opened IntrusiveList

  type Heads = map<ListId, List>

  ghost function AllNodes(heads: Heads): set<Item>
    reads heads.Values
  {
    set l, x | l in heads && x in heads[l].Nodes() :: x
  }

  /** The heads are different lists, and each is a closed circle. */
  ghost predicate Circles(heads: Heads)
    reads heads.Values, AllNodes(heads)
  {
    && (forall l, m :: l in heads && m in heads && l != m ==> heads[l] != heads[m])
    && (forall l :: l in heads ==> heads[l].Valid())
  }

  /** No other list shares a node with `l`, and a loose item is in no list. */
  lemma CirclesApart(heads: Heads, l: ListId, item: Item)
    requires Circles(heads) && l in heads
    ensures forall m :: m in heads && m != l ==> heads[m] != heads[l] && heads[m].Nodes() !! heads[l].Nodes()
    ensures item.container == null ==> forall m :: m in heads ==> item !in heads[m].Nodes()
    ensures item in heads[l].items ==> item.container == heads[l]
  {
    forall m | m in heads && m != l ensures heads[m] != heads[l] && heads[m].Nodes() !! heads[l].Nodes() {
      ListsAreApart(heads[m], heads[l]);
    }
    forall m | m in heads ensures item in heads[m].Nodes() ==> item.container == heads[m] {
      Members(heads[m]);
    }
  }

  method LinkEnd(heads: Heads, l: ListId, item: Item)
    requires Circles(heads) && l in heads && Loose(item)
    modifies heads[l], heads[l].Nodes(), item
    ensures Circles(heads) && heads[l].items == old(heads[l].items) + [item] && item.container == heads[l]
    ensures forall m :: m in heads && m != l ==> heads[m].items == old(heads[m].items)
    ensures forall x :: x in old(AllNodes(heads)) + {item} ==> x.owner == old(x.owner)
  {
    hide List.Valid;
    CirclesApart(heads, l, item);
    InsertEnd(heads[l], item);
    Members(heads[l]);
    assert item in heads[l].items;
  }

  method SetValue(heads: Heads, l: ListId, item: Item, v: nat)
    requires Circles(heads) && l in heads && Loose(item)
    modifies item`value
    ensures Circles(heads) && item.value == v && Values(heads[l].items) == old(Values(heads[l].items))
    ensures forall x :: x in AllNodes(heads) ==> x != item
  {
    hide List.Valid;
    CirclesApart(heads, l, item);
    item.value := v;
  }

  /** A further list, empty. */
  method AddHead(heads: Heads, l: ListId) returns (heads': Heads)
    requires Circles(heads) && l !in heads
    ensures heads'.Keys == heads.Keys + {l} && (forall m :: m in heads ==> heads'[m] == heads[m])
    ensures Circles(heads') && heads'[l].items == [] && forall m :: m in heads ==> heads'[m].items == old(heads[m].items)
  {
    var list := new List();
    heads' := heads[l := list];
    forall m | m in heads ensures heads'[m].Valid() {
      assert old(heads[m].Valid());
      assert forall x :: x in heads[m].Nodes() ==> old(allocated(x)) && unchanged(x);
    }
  }

  /** Gives the item the value `v` and links it where the scan for `v` stops. */
  method LinkSorted(heads: Heads, l: ListId, item: Item, v: nat, ascending: bool)
    requires Circles(heads) && l in heads && Loose(item)
    modifies heads[l], heads[l].Nodes(), item
    ensures Circles(heads) && item.container == heads[l] && item.value == v
    ensures var vs := old(Values(heads[l].items));
            heads[l].items == InsertAt(old(heads[l].items), if ascending then AscendingPosition(vs, v) else DescendingPosition(vs, v), item)
    ensures forall m :: m in heads && m != l ==> heads[m].items == old(heads[m].items)
    ensures forall x :: x in old(AllNodes(heads)) + {item} ==> x.owner == old(x.owner)
  {
    hide List.Valid, AscendingPosition, DescendingPosition, Values, InsertAt, NoDup;
    ghost var xs, vs := heads[l].items, Values(heads[l].items);
    SetValue(heads, l, item, v);
    CirclesApart(heads, l, item);
    if ascending {
      InsertSorted(heads[l], item);
    } else {
      InsertReversedSorted(heads[l], item);
    }
    InsertAtMembers(xs, if ascending then AscendingPosition(vs, v) else DescendingPosition(vs, v), item);
    Members(heads[l]);
    assert item in heads[l].items;
  }

  method UnlinkFrom(heads: Heads, l: ListId, item: Item)
    requires Circles(heads) && l in heads && item in heads[l].items
    modifies heads[l], heads[l].Nodes()
    ensures Circles(heads) && heads[l].items == Remove(old(heads[l].items), item) && item.container == null
    ensures forall m :: m in heads && m != l ==> heads[m].items == old(heads[m].items)
    ensures forall x :: x in old(AllNodes(heads)) ==> x.owner == old(x.owner)
  {
    hide List.Valid, Remove;
    CirclesApart(heads, l, item);
    Unlink(item);
  }

  // ---------------------------------------------------------------- Items and tasks

  /** `items` are the items of the tasks `ts`, taken from `own`. */
  ghost predicate Matches(items: seq<Item>, own: seq<Item>, ts: seq<TaskId>) {
    |items| == |ts| && forall i :: 0 <= i < |ts| ==> ts[i] < |own| && items[i] == own[ts[i]]
  }

  lemma MatchesInsert(items: seq<Item>, own: seq<Item>, ts: seq<TaskId>, i: nat, t: TaskId)
    requires Matches(items, own, ts) && i <= |ts| && t < |own|
    ensures |items| == |ts| && Matches(InsertAt(items, i, own[t]), own, InsertAt(ts, i, t))
  {
  }

  lemma MatchesIndex(items: seq<Item>, own: seq<Item>, ts: seq<TaskId>, t: TaskId)
    requires Matches(items, own, ts) && NoDup(items) && NoDup(own) && t in ts
    ensures t < |own| && own[t] in items && IndexOf(items, own[t]) == IndexOf(ts, t)
  {
    hide IndexOf;
    var i := IndexOf(ts, t);
    assert items[i] == own[t];
    forall k | 0 <= k < i ensures items[k] != own[t] {
      assert ts[..i][k] == ts[k];
    }
    IndexUnique(items, own[t], i);
  }

  lemma MatchesRemove(items: seq<Item>, own: seq<Item>, ts: seq<TaskId>, t: TaskId)
    requires Matches(items, own, ts) && NoDup(items) && NoDup(own) && t in ts
    ensures t < |own| && own[t] in items && Matches(Remove(items, own[t]), own, Remove(ts, t))
  {
    hide IndexOf, NoDup;
    MatchesIndex(items, own, ts, t);
  }

  /** The tasks whose items from `own` are these. */
  ghost function TasksOf(items: seq<Item>, own: seq<Item>): (ts: seq<TaskId>)
    requires forall x :: x in items ==> x in own
    ensures Matches(items, own, ts)
  {
    seq(|items|, i requires 0 <= i < |items| => IndexOf(own, items[i]))
  }

  lemma TasksUnique(items: seq<Item>, own: seq<Item>, ts: seq<TaskId>)
    requires Matches(items, own, ts) && NoDup(own)
    ensures (forall x :: x in items ==> x in own) && TasksOf(items, own) == ts
  {
    forall i | 0 <= i < |items| ensures items[i] in own && IndexOf(own, items[i]) == ts[i] {
      IndexUnique(own, items[i], ts[i]);
    }
  }

  lemma TasksInsert(items: seq<Item>, own: seq<Item>, i: nat, t: TaskId)
    requires (forall x :: x in items ==> x in own) && NoDup(own) && i <= |items| && t < |own|
    ensures var items' := InsertAt(items, i, own[t]);
            (forall x :: x in items' ==> x in own) && TasksOf(items', own) == InsertAt(TasksOf(items, own), i, t)
  {
    hide NoDup, InsertAt, TasksOf;
    MatchesInsert(items, own, TasksOf(items, own), i, t);
    TasksUnique(InsertAt(items, i, own[t]), own, InsertAt(TasksOf(items, own), i, t));
  }

  lemma TasksRemove(items: seq<Item>, own: seq<Item>, t: TaskId)
    requires (forall x :: x in items ==> x in own) && NoDup(items) && NoDup(own) && t in TasksOf(items, own)
    ensures t < |own| && own[t] in items
    ensures var items' := Remove(items, own[t]);
            (forall x :: x in items' ==> x in own) && TasksOf(items', own) == Remove(TasksOf(items, own), t)
  {
    hide NoDup, Remove, TasksOf;
    MatchesRemove(items, own, TasksOf(items, own), t);
    TasksUnique(Remove(items, own[t]), own, Remove(TasksOf(items, own), t));
  }

  /** The values of the items of some tasks. */
  ghost function ValuesFor(own: seq<Item>, ts: seq<TaskId>): (vs: seq<nat>)
    requires forall i :: 0 <= i < |ts| ==> ts[i] < |own|
    reads own
    ensures |vs| == |ts| && forall i :: 0 <= i < |ts| ==> vs[i] == own[ts[i]].value
  {
    if ts == [] then [] else [own[ts[0]].value] + ValuesFor(own, ts[1..])
  }

  lemma ValuesMatch(items: seq<Item>, own: seq<Item>, ts: seq<TaskId>)
    requires Matches(items, own, ts)
    ensures (forall i :: 0 <= i < |ts| ==> ts[i] < |own|) && Values(items) == ValuesFor(own, ts)
  {
    hide Values, ValuesFor;
  }

  // ---------------------------------------------------------------- The store

  /** What the owner of an item says: the task it belongs to. */
  class Owner {
    const id: TaskId

    constructor (id: TaskId)
      ensures this.id == id
    {
      this.id := id;
    }
  }

  ghost predicate OwnedBy(x: Item, t: TaskId)
    reads x
  {
    x.owner != null && x.owner is Owner && (x.owner as Owner).id == t
  }

  /** The two items of a new task, linked nowhere. */
  method NewItems(t: TaskId) returns (x: Item, y: Item)
    ensures fresh(x) && fresh(y) && x != y && x.container == null && y.container == null && OwnedBy(x, t) && OwnedBy(y, t)
  {
    var o := new Owner(t);
    x := new Item(o);
    y := new Item(o);
  }

  /** The items of all tasks, and the heads of all lists. */
  class Store {
    const heads: Heads
    var states: seq<Item>
    var events: seq<Item>

    /** The items that link tasks in lists like `l`. */
    function Own(l: ListId): seq<Item>
      reads this
    {
      if IsStateList(l) then states else events
    }

    ghost predicate Valid()
      reads this, heads.Values, AllNodes(heads), states, events
    {
      && Circles(heads)
      && |states| == |events| && NoDup(states) && NoDup(events)
      && (forall t :: 0 <= t < |states| ==> OwnedBy(states[t], t) && OwnedBy(events[t], t))
      && (forall l :: l in heads ==> forall x :: x in heads[l].items ==> x in Own(l))
    }

    /** The tasks linked in list `l`, in order: what the scheduler sees. */
    ghost function Contents(l: ListId): seq<TaskId>
      requires Valid() && l in heads
      reads this, heads.Values, AllNodes(heads), states, events
    {
      TasksOf(heads[l].items, Own(l))
    }

    /** Appends task `t` to list `l`. */
    method Append(l: ListId, t: TaskId)
      requires Valid() && l in heads && t < |states| && Own(l)[t].container == null
      modifies heads[l], heads[l].Nodes(), Own(l)[t]
      ensures Valid() && Own(l)[t].container == heads[l]
      ensures Contents(l) == old(Contents(l)) + [t]
      ensures forall m :: m in heads && m != l ==> Contents(m) == old(Contents(m))
    {
      hide List.Valid, NoDup, Circles, InsertAt, TasksOf;
      ghost var ts, xs := Contents(l), heads[l].items;
      TasksInsert(xs, Own(l), |xs|, t);
      InsertAtEnd(ts, t);
      InsertAtEnd(xs, Own(l)[t]);
      LinkEnd(heads, l, Own(l)[t]);
    }

    /** Links task `t` into list `l` with the value `v`, behind or in front of equal values as the direction says. */
    method InsertByValue(l: ListId, t: TaskId, v: nat, ascending: bool)
      requires Valid() && l in heads && t < |states| && Own(l)[t].container == null
      modifies heads[l], heads[l].Nodes(), Own(l)[t]
      ensures Valid() && Own(l)[t].container == heads[l] && Own(l)[t].value == v
      ensures var ts := old(Contents(l));
              var vs := old(ValuesFor(Own(l), ts));
              Contents(l) == InsertAt(ts, if ascending then AscendingPosition(vs, v) else DescendingPosition(vs, v), t)
      ensures forall m :: m in heads && m != l ==> Contents(m) == old(Contents(m))
    {
      hide List.Valid, NoDup, Circles, InsertAt, TasksOf, Values, ValuesFor, AscendingPosition, DescendingPosition;
      ghost var ts, xs := Contents(l), heads[l].items;
      ghost var vs := Values(xs);
      ValuesMatch(xs, Own(l), ts);
      TasksInsert(xs, Own(l), if ascending then AscendingPosition(vs, v) else DescendingPosition(vs, v), t);
      LinkSorted(heads, l, Own(l)[t], v, ascending);
    }

    /** Takes task `t` off list `l`. */
    method Unlink(l: ListId, t: TaskId)
      requires Valid() && l in heads && t in Contents(l)
      modifies heads[l], heads[l].Nodes()
      ensures Valid() && t < |states| && Own(l)[t].container == null
      ensures Contents(l) == Remove(old(Contents(l)), t)
      ensures forall m :: m in heads && m != l ==> Contents(m) == old(Contents(m))
    {
      hide List.Valid, NoDup, Circles, Remove, TasksOf;
      CircleNoDup(heads, l);
      TasksRemove(heads[l].items, Own(l), t);
      UnlinkFrom(heads, l, Own(l)[t]);
    }

    method IsEmpty(l: ListId) returns (b: bool)
      requires Valid() && l in heads
      ensures b <==> Contents(l) == []
    {
      assert heads[l].Valid();
      b := heads[l].count == 0;
    }

    /** The task at the front of a list, found through the owner of its item. */
    method First(l: ListId) returns (t: TaskId)
      requires Valid() && l in heads && Contents(l) != []
      ensures t == Contents(l)[0]
    {
      assert heads[l].Valid() && heads[l].Circle()[0].next == heads[l].Circle()[1];
      var x := heads[l].sentinel.next;
      assert x == heads[l].items[0] == Own(l)[Contents(l)[0]];
      t := (x.owner as Owner).id;
    }

    /** Room for one more task, linked nowhere. */
    method AddTask()
      requires Valid()
      modifies this
      ensures Valid() && |states| == old(|states|) + 1 && states[..|states| - 1] == old(states) && events[..|events| - 1] == old(events)
      ensures states[|states| - 1].container == null && events[|events| - 1].container == null
      ensures forall l :: l in heads ==> Contents(l) == old(Contents(l))
    {
      hide TasksOf, NoDup;
      var x, y := NewItems(|states|);
      NoDupAppend(states, x);
      NoDupAppend(events, y);
      states, events := states + [x], events + [y];
      forall l | l in heads ensures heads[l].Valid() && heads[l].items == old(heads[l].items) {
        assert old(heads[l].Valid());
        assert forall x :: x in heads[l].Nodes() ==> old(allocated(x)) && unchanged(x);
      }
      assert Valid();
      forall l | l in heads ensures Contents(l) == old(Contents(l)) {
        TasksUnique(heads[l].items, Own(l), old(Contents(l)));
      }
    }

    /** No tasks yet, and the given empty lists. */
    constructor (heads: Heads)
      requires Circles(heads) && forall l :: l in heads ==> heads[l].items == []
      ensures Valid() && this.heads == heads && states == [] && forall l :: l in heads ==> Contents(l) == []
    {
      this.heads, states, events := heads, [], [];
      new;
      forall l | l in heads ensures heads[l].Valid() && heads[l].items == [] {
        assert old(heads[l].Valid());
        assert forall x :: x in heads[l].Nodes() ==> old(allocated(x)) && unchanged(x);
      }
    }
  }

  /** One empty circle for every list. */
  method MakeHeads(ids: set<ListId>) returns (heads: Heads)
    ensures Circles(heads) && heads.Keys == ids && forall l :: l in heads ==> heads[l].items == []
  {
    hide Circles;
    heads := map[];
    var rest := ids;
    NoCircles(heads);
    while rest != {}
      invariant rest <= ids && heads.Keys == ids - rest
      invariant Circles(heads) && forall l :: l in heads ==> heads[l].items == []
      decreases |rest|
    {
      var l :| l in rest;
      heads := AddHead(heads, l);
      rest := rest - {l};
    }
  }

  lemma NoDupAppend(xs: seq<Item>, x: Item)
    requires NoDup(xs) && x !in xs
    ensures NoDup(xs + [x])
  {
  }

  lemma NoCircles(heads: Heads)
    requires heads == map[]
    ensures Circles(heads)
  {
  }

  lemma CircleNoDup(heads: Heads, l: ListId)
    requires Circles(heads) && l in heads
    ensures NoDup(heads[l].items)
  {
  }

  lemma InsertAtEnd<X>(xs: seq<X>, x: X)
    ensures InsertAt(xs, |xs|, x) == xs + [x]
  {
  }
}
