/** The generational allocator over its generation array and free list. */
module GenAllocs {
  import opened Wrappers
  import opened Bits
  import opened RingBuffers
  import opened GenAllocSpec

  /** `capacity & mask`, where a zero mask stands for all ones. */
  function Masked(capacity: nat, mask: nat): nat {
    BitAnd(capacity, if mask == 0 then MAX_U32 else mask)
  }

  /** The two masks in use: none, and the 24 bits of a handle's index. */
  lemma MaskedCapacity(capacity: nat)
    requires capacity <= MAX_U32
    ensures Masked(capacity, 0) == capacity
    ensures Masked(capacity, 0x00FF_FFFF) == capacity % 0x100_0000
  {
    AndOnes(capacity, 32);
    AndOnes(capacity, 24);
    assert Pow2(8) == 0x100;
    assert Pow2(16) == 0x1_0000;
    assert Pow2(24) == 0x100_0000;
    assert Pow2(32) == 0x1_0000_0000;
  }

  class GenAlloc {
    const generation: array<nat>
    const freeList: RingBuffer<nat>

    ghost const Repr: set<object>

    ghost predicate Valid()
      reads this, generation, freeList, freeList.data
    {
      && Repr == {this, generation, freeList, freeList.data}
      && generation != freeList.data
      && freeList.Valid() && freeList.size == generation.Length
    }

    ghost function View(): Gen
      requires Valid()
      reads this, generation, freeList, freeList.data
    {
      Gen(generation[..], freeList.Contents())
    }

    constructor (capacity: nat, mask: nat)
      requires 0 < Masked(capacity, mask)
      ensures Valid() && fresh(Repr)
      ensures View() == GenAllocSpec.New(Masked(capacity, mask)) && View().Wf()
      ensures |View().free| == |View().generation| == Masked(capacity, mask)
      ensures forall k :: 0 <= k < |View().free| ==> View().free[k] == |View().free| - 1 - k
      ensures forall i :: 0 <= i < |View().generation| ==> View().generation[i] == 0
    {
      var n := Masked(capacity, mask);
      var slots := new nat[n](_ => 0);
      var queue := new RingBuffer.FromFixedIter(n, Descending(n));
      generation, freeList := slots, queue;
      Repr := {this, slots, queue, queue.data};
      new;
      NewWf(n);
      assert generation[..] == seq(n, _ => 0);
    }

    method Alloc() returns (r: Option<GenId>)
      requires Valid() && View().Wf()
      modifies freeList`readIdx, freeList`len
      ensures Valid()
      ensures (View(), r) == old(View()).Alloc()
    {
      var idx := freeList.Pop();
      match idx {
        case None => r := None;
        case Some(i) =>
          assert old(View().free)[0] == i;
          r := Some(GenId(i, generation[i]));
      }
    }

    /** `Overflow` and `NoRoom` stand for the two panics; the state they leave is not used again. */
    method Free(id: GenId) returns (r: FreeOutcome)
      requires Valid()
      modifies generation, freeList`writeIdx, freeList`len, freeList.data
      ensures Valid()
      ensures r == old(View()).Free(id).1
      ensures r == Freed || r == Rejected ==> View() == old(View()).Free(id).0
    {
      var valid := IsValid(id);
      if !valid { return Rejected; }
      if generation[id.index] >= MAX_U32 { return Overflow; }
      generation[id.index] := generation[id.index] + 1;
      var pushed := freeList.Push(id.index);
      r := if pushed then Freed else NoRoom;
    }

    method IsValid(id: GenId) returns (r: bool)
      requires Valid()
      ensures r <==> View().IsValid(id)
    {
      r := id.index < generation.Length && id.generation == generation[id.index];
    }
  }
}
