/**
 The storage of a message queue: a ring of fixed-size items in one byte buffer.
 `Put` and `Take` are the copy-in and copy-out parts of the queue operations.
 */
module Ring {
  type Byte = b: int | 0 <= b < 256

  /** The largest object size of the 32-bit target. */
  const SIZE_MAX: nat := 0xFFFF_FFFF

  datatype Ring = Ring(
    count: nat,
    capacity: nat,
    readIndex: nat,
    writeIndex: nat,
    itemSize: nat,
    storage: seq<Byte>)

  datatype InitResult = Rejected | Created(ring: Ring)

  /** The size test divides instead of multiplying, so that it cannot itself overflow. */
  function Init(storage: seq<Byte>, itemSize: nat, capacity: nat): (r: InitResult)
    ensures r.Created? <==> capacity > 0 && itemSize > 0 && itemSize * capacity <= SIZE_MAX
    ensures r.Created? && itemSize * capacity <= |storage| ==> Valid(r.ring) && Contents(r.ring) == []
  {
    if capacity == 0 || itemSize == 0 then Rejected
    else
      DivisionTest(itemSize, capacity);
      if SIZE_MAX / itemSize < capacity then Rejected
      else Created(Ring(0, capacity, 0, 0, itemSize, storage))
  }

  lemma DivisionTest(itemSize: nat, capacity: nat)
    requires itemSize > 0
    ensures SIZE_MAX / itemSize < capacity <==> itemSize * capacity > SIZE_MAX
  {
    var q := SIZE_MAX / itemSize;
    assert q * itemSize <= SIZE_MAX < (q + 1) * itemSize;
    if q < capacity {
      MulMonotone(itemSize, q + 1, capacity);
    } else {
      MulMonotone(itemSize, capacity, q);
    }
  }

  lemma MulMonotone(x: nat, a: nat, b: nat)
    requires a <= b
    ensures x * a <= x * b
  {
  }

  /** One step of `++index == capacity` wrapping, applied to a sum below twice the capacity. */
  function Wrap(i: nat, capacity: nat): nat {
    if i < capacity then i else i - capacity
  }

  lemma WrapIsModulo(i: nat, capacity: nat)
    requires 0 < capacity && i < 2 * capacity
    ensures Wrap(i, capacity) == i % capacity
  {
    if i >= capacity {
      assert i == capacity + (i - capacity);
    }
  }

  ghost predicate Valid(r: Ring) {
    && 0 < r.capacity && 0 < r.itemSize
    && r.count <= r.capacity && r.readIndex < r.capacity
    && r.writeIndex == Wrap(r.readIndex + r.count, r.capacity)
    && r.itemSize * r.capacity <= |r.storage|
    && r.itemSize * r.capacity <= SIZE_MAX
  }

  lemma WriteIndexIsModulo(r: Ring)
    requires Valid(r)
    ensures r.writeIndex == (r.readIndex + r.count) % r.capacity
  {
    WrapIsModulo(r.readIndex + r.count, r.capacity);
  }

  /** Every slot lies inside the first `itemSize * capacity` bytes, and different slots do not overlap. */
  lemma SlotBounds(r: Ring, i: nat)
    requires Valid(r) && i < r.capacity
    ensures r.itemSize * i + r.itemSize <= r.itemSize * r.capacity <= |r.storage|
    ensures r.itemSize * i + r.itemSize == r.itemSize * (i + 1)
  {
    MulMonotone(r.itemSize, i + 1, r.capacity);
    assert r.itemSize * (i + 1) == r.itemSize * i + r.itemSize;
  }

  lemma SlotsApart(r: Ring, i: nat, j: nat)
    requires Valid(r) && i < j < r.capacity
    ensures r.itemSize * i + r.itemSize <= r.itemSize * j
  {
    MulMonotone(r.itemSize, i + 1, j);
    assert r.itemSize * (i + 1) == r.itemSize * i + r.itemSize;
  }

  function Read(storage: seq<Byte>, from: nat, size: nat): seq<Byte> {
    if from + size <= |storage| then storage[from..from + size] else []
  }

  function Write(storage: seq<Byte>, from: nat, data: seq<Byte>): seq<Byte> {
    if from + |data| <= |storage| then storage[..from] + data + storage[from + |data|..] else storage
  }

  function Slot(r: Ring, i: nat): seq<Byte> {
    Read(r.storage, r.itemSize * i, r.itemSize)
  }

  /** The stored items, oldest first. */
  ghost function Contents(r: Ring): (items: seq<seq<Byte>>)
    ensures |items| == r.count
  {
    seq(r.count, i requires 0 <= i => Slot(r, Wrap(r.readIndex + i, r.capacity)))
  }

  function Put(r: Ring, data: seq<Byte>): Ring {
    r.(storage := Write(r.storage, r.itemSize * r.writeIndex, data),
       count := r.count + 1,
       writeIndex := if r.writeIndex + 1 == r.capacity then 0 else r.writeIndex + 1)
  }

  function Front(r: Ring): seq<Byte> {
    Slot(r, r.readIndex)
  }

  function Take(r: Ring): Ring {
    r.(count := if r.count > 0 then r.count - 1 else 0,
       readIndex := if r.readIndex + 1 == r.capacity then 0 else r.readIndex + 1)
  }

  lemma WriteThenRead(storage: seq<Byte>, at: nat, data: seq<Byte>, from: nat, size: nat)
    requires at + |data| <= |storage| && from + size <= |storage|
    ensures |Write(storage, at, data)| == |storage|
    ensures from == at && size == |data| ==> Read(Write(storage, at, data), from, size) == data
    ensures from + size <= at || at + |data| <= from ==> Read(Write(storage, at, data), from, size) == Read(storage, from, size)
  {
  }

  lemma ContentsAt(r: Ring, i: nat)
    requires i < r.count
    ensures Contents(r)[i] == Slot(r, Wrap(r.readIndex + i, r.capacity))
  {
  }

  /** Copying an item in changes its own slot and no other. */
  lemma PutSlot(r: Ring, data: seq<Byte>, j: nat)
    requires Valid(r) && |data| == r.itemSize && r.writeIndex < r.capacity && j < r.capacity
    ensures Slot(Put(r, data), j) == if j == r.writeIndex then data else Slot(r, j)
    ensures |Put(r, data).storage| == |r.storage|
  {
    hide Write, Read;
    var w := r.writeIndex;
    SlotBounds(r, w);
    SlotBounds(r, j);
    if j < w {
      SlotsApart(r, j, w);
    } else if w < j {
      SlotsApart(r, w, j);
    }
    WriteThenRead(r.storage, r.itemSize * w, data, r.itemSize * j, r.itemSize);
  }

  /** Enqueuing appends: the copied bytes become the newest item and no other item changes. */
  lemma PutAppends(r: Ring, data: seq<Byte>)
    requires Valid(r) && r.count < r.capacity && |data| == r.itemSize
    ensures Valid(Put(r, data)) && Contents(Put(r, data)) == Contents(r) + [data]
  {
    hide Write, Slot, Contents;
    var r' := Put(r, data);
    PutSlot(r, data, r.writeIndex);
    forall i | 0 <= i < r'.count ensures Contents(r')[i] == (Contents(r) + [data])[i] {
      var j := Wrap(r.readIndex + i, r.capacity);
      PutSlot(r, data, j);
      ContentsAt(r', i);
      if i < r.count {
        ContentsAt(r, i);
      }
    }
  }

  /** Dequeuing removes exactly the oldest item and returns its bytes. */
  lemma TakeRemovesFront(r: Ring)
    requires Valid(r) && r.count > 0
    ensures Valid(Take(r)) && Contents(r) == [Front(r)] + Contents(Take(r)) && |Front(r)| == r.itemSize
  {
    hide Slot, Contents;
    var r' := Take(r);
    SlotLength(r, r.readIndex);
    forall i | 0 <= i < r.count ensures Contents(r)[i] == ([Front(r)] + Contents(r'))[i] {
      ContentsAt(r, i);
      if i > 0 {
        ContentsAt(r', i - 1);
        SlotSame(r, r', Wrap(r.readIndex + i, r.capacity));
      }
    }
  }

  lemma SlotLength(r: Ring, i: nat)
    requires Valid(r) && i < r.capacity
    ensures |Slot(r, i)| == r.itemSize
  {
    SlotBounds(r, i);
  }

  lemma SlotSame(r: Ring, r': Ring, i: nat)
    requires r'.storage == r.storage && r'.itemSize == r.itemSize
    ensures Slot(r', i) == Slot(r, i)
  {
  }
}
