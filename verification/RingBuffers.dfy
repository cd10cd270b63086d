/** The fixed-capacity queue behind the free lists and the run queues. */
module RingBuffers {
  import opened Wrappers

  lemma ModOnce(i: nat, size: nat)
    requires 0 < size && i < 2 * size
    ensures i % size == if i < size then i else i - size
  {
    if i >= size { assert i == size + (i - size); }
  }

  /** The `k`-th queued element sits at `Slot(readIdx, k, size)`. */
  function Slot(readIdx: nat, k: nat, size: nat): (r: nat)
    requires readIdx < size && k <= size
    ensures r < size && r == (readIdx + k) % size
  {
    ModOnce(readIdx + k, size);
    if readIdx + k < size then readIdx + k else readIdx + k - size
  }

  class RingBuffer<T(0)> {
    const data: array<T>
    const size: nat
    var writeIdx: nat
    var readIdx: nat
    var len: nat

    ghost const Repr: set<object> := {this, data}

    ghost predicate Valid()
      reads this, data
    {
      && 0 < size == data.Length
      && readIdx < size && len <= size
      && writeIdx == Slot(readIdx, len, size)
    }

    /** The queue, front first. */
    ghost function Contents(): (s: seq<T>)
      requires Valid()
      reads this, data
      ensures |s| == len
    {
      seq(len, k requires 0 <= k < len reads this, data requires Valid() => data[Slot(readIdx, k, size)])
    }

    constructor (size: nat)
      requires 0 < size
      ensures Valid() && fresh(Repr) && this.size == size && Contents() == []
    {
      data := new T[size];
      this.size := size;
      writeIdx, readIdx, len := 0, 0, 0;
    }

    constructor FromFixedIter(size: nat, items: seq<T>)
      requires 0 < size <= |items|
      ensures Valid() && fresh(Repr) && this.size == size && Contents() == items[..size]
    {
      data := new T[size];
      this.size := size;
      writeIdx, readIdx, len := 0, 0, 0;
      new;
      for i := 0 to size
        invariant Valid() && this.size == size
        invariant Contents() == items[..i]
      {
        var ok := Push(items[i]);
      }
    }

    /** `false` stands for `Err(PushError)`. */
    method Push(item: T) returns (ok: bool)
      requires Valid()
      modifies this`writeIdx, this`len, data
      ensures Valid()
      ensures ok <==> |old(Contents())| < size
      ensures Contents() == if ok then old(Contents()) + [item] else old(Contents())
    {
      ghost var before := Contents();
      if !IsFull() {
        data[writeIdx] := item;
        ModOnce(writeIdx + 1, size);
        writeIdx := (writeIdx + 1) % size;
        len := len + 1;
        assert Contents() == before + [item];
        ok := true;
      } else {
        ok := false;
      }
    }

    method Pop() returns (r: Option<T>)
      requires Valid()
      modifies this`readIdx, this`len
      ensures Valid()
      ensures r.None? <==> old(Contents()) == []
      ensures r.None? ==> Contents() == []
      ensures r.Some? ==> old(Contents()) == [r.value] + Contents()
    {
      ghost var before := Contents();
      if !IsEmpty() {
        var item := data[readIdx];
        ModOnce(readIdx + 1, size);
        readIdx := (readIdx + 1) % size;
        len := len - 1;
        assert before == [item] + Contents();
        r := Some(item);
      } else {
        r := None;
      }
    }

    predicate IsFull()
      reads this
    {
      len == size
    }

    predicate IsEmpty()
      reads this
    {
      len == 0
    }

    /** The loop with which `drop` releases the queued elements, in order. */
    method Drain() returns (dropped: seq<T>)
      requires Valid()
      modifies this`readIdx, this`len
      ensures Valid() && Contents() == []
      ensures dropped == old(Contents())
    {
      dropped := [];
      var item := Pop();
      while item.Some?
        invariant Valid()
        invariant item.None? ==> Contents() == []
        invariant old(Contents()) == dropped + (if item.Some? then [item.value] else []) + Contents()
        decreases len, item.Some?
      {
        dropped := dropped + [item.value];
        item := Pop();
      }
    }
  }
}
