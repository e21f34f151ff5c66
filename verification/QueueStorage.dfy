/**
 The queue storage in place: two indices and a byte array that is copied into and out of.
 Each operation is proved to be the one of `Ring` on the whole state, so the array holds a
 bounded first-in first-out sequence of items.
 */
module QueueStorage {
  import Ring
  type Byte = Ring.Byte

  class RingBuffer {
    var count: nat
    var readIndex: nat
    var writeIndex: nat
    const capacity: nat
    const itemSize: nat
    const storage: array<Byte>

    ghost function View(): Ring.Ring
      reads this, storage
    {
      Ring.Ring(count, capacity, readIndex, writeIndex, itemSize, storage[..])
    }

    ghost predicate Valid()
      reads this, storage
    {
      Ring.Valid(View())
    }

    constructor (storage: array<Byte>, itemSize: nat, capacity: nat)
      requires Ring.Init(storage[..], itemSize, capacity).Created?
      ensures Ring.Init(storage[..], itemSize, capacity) == Ring.Created(View()) && this.storage == storage
    {
      this.capacity, this.itemSize, this.storage := capacity, itemSize, storage;
      count, readIndex, writeIndex := 0, 0, 0;
    }

    /** Copies `data` into the slot at the write index and wraps the index. */
    method Put(data: array<Byte>)
      requires Valid() && count < capacity && data.Length == itemSize && data != storage
      modifies this, storage
      ensures View() == Ring.Put(old(View()), data[..])
      ensures Valid() && Ring.Contents(View()) == old(Ring.Contents(View())) + [data[..]]
    {
      hide Ring.Contents;
      ghost var r := View();
      Ring.SlotBounds(r, writeIndex);
      Ring.PutAppends(r, data[..]);
      CopyIn(data, itemSize * writeIndex);
      count := count + 1;
      writeIndex := writeIndex + 1;
      if writeIndex == capacity {
        writeIndex := 0;
      }
    }

    /** Copies `data` byte by byte to offset `at`. */
    method CopyIn(data: array<Byte>, at: nat)
      requires at + data.Length <= storage.Length && data != storage
      modifies storage
      ensures storage[..] == Ring.Write(old(storage[..]), at, data[..])
    {
      var i := 0;
      while i < data.Length
        invariant 0 <= i <= data.Length
        invariant forall j :: 0 <= j < i ==> storage[at + j] == data[j]
        invariant forall j :: 0 <= j < storage.Length && !(at <= j < at + i) ==> storage[j] == old(storage[j])
      {
        storage[at + i] := data[i];
        i := i + 1;
      }
      ghost var s := Ring.Write(old(storage[..]), at, data[..]);
      forall j | 0 <= j < storage.Length ensures storage[j] == s[j] {
        if at <= j < at + data.Length {
          assert storage[at + (j - at)] == data[j - at];
        }
      }
    }

    /** Copies the oldest item to `dst` and wraps the read index. */
    method Take(dst: array<Byte>)
      requires Valid() && count > 0 && dst.Length == itemSize && dst != storage
      modifies this, dst
      ensures View() == Ring.Take(old(View())) && dst[..] == Ring.Front(old(View()))
      ensures Valid() && old(Ring.Contents(View())) == [dst[..]] + Ring.Contents(View())
    {
      hide Ring.Contents;
      ghost var r := View();
      Ring.SlotBounds(r, readIndex);
      Ring.TakeRemovesFront(r);
      CopyOut(dst, itemSize * readIndex);
      count := count - 1;
      readIndex := readIndex + 1;
      if readIndex == capacity {
        readIndex := 0;
      }
    }

    method CopyOut(dst: array<Byte>, at: nat)
      requires at + dst.Length <= storage.Length && dst != storage
      modifies dst
      ensures dst[..] == Ring.Read(storage[..], at, dst.Length)
    {
      var i := 0;
      while i < dst.Length
        invariant 0 <= i <= dst.Length
        invariant forall j :: 0 <= j < i ==> dst[j] == storage[at + j]
      {
        dst[i] := storage[at + i];
        i := i + 1;
      }
    }
  }

  /** Queue initialisation: nothing is created for a null buffer, a zero size, or a size product beyond the address range. */
  method Create(storage: array?<Byte>, itemSize: nat, capacity: nat) returns (q: RingBuffer?)
    ensures q == null <==> storage == null || capacity == 0 || itemSize == 0 || itemSize * capacity > Ring.SIZE_MAX
    ensures q != null ==> fresh(q) && q.storage == storage && Ring.Init(storage[..], itemSize, capacity) == Ring.Created(q.View())
  {
    if storage == null || Ring.Init(storage[..], itemSize, capacity).Rejected? {
      return null;
    }
    q := new RingBuffer(storage, itemSize, capacity);
  }
}
