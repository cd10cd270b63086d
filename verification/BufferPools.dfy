/** The aligned buffers and the buffer pool over them. */
module BufferPools {
  import opened Wrappers
  import opened Bits
  import opened Protocol
  import opened GenAllocSpec
  import opened GenAllocs
  import opened MachineSpecs

  // ---------- Addresses ----------

  /** What the constructor checks, and what the system allocator promises about `base`. */
  ghost predicate Aligned(base: nat, size: nat, alignment: nat) {
    && 0 < alignment && (exists k :: alignment == Pow2(k))
    && size % alignment == 0 && base % alignment == 0
  }

  function BufPtr(base: nat, index: nat, size: nat): nat { base + index * size }

  /** Buffers are aligned, lie inside the allocation and do not overlap. */
  lemma BuffersAreDisjoint(base: nat, count: nat, size: nat, alignment: nat, i: nat, j: nat)
    requires Aligned(base, size, alignment) && i < count && j < count
    ensures BufPtr(base, i, size) % alignment == 0
    ensures base <= BufPtr(base, i, size) && BufPtr(base, i, size) + size <= base + count * size
    ensures i < j ==> BufPtr(base, i, size) + size <= BufPtr(base, j, size)
    ensures j < i ==> BufPtr(base, j, size) + size <= BufPtr(base, i, size)
  {
    StaysAligned(base, i, size, alignment);
    Apart(i, count, size);
    if i < j { Apart(i, j, size); }
    if j < i { Apart(j, i, size); }
  }

  lemma StaysAligned(base: nat, i: nat, size: nat, alignment: nat)
    requires 0 < alignment && size % alignment == 0 && base % alignment == 0
    ensures BufPtr(base, i, size) % alignment == 0
  {
    var q, b := size / alignment, base / alignment;
    assert i * (q * alignment) == (i * q) * alignment;
    assert b * alignment + (i * q) * alignment == (b + i * q) * alignment;
    RemainderUnique(BufPtr(base, i, size), alignment, b + i * q, 0);
  }

  lemma Apart(i: nat, j: nat, size: nat)
    requires i < j
    ensures i * size + size <= j * size
  {
    assert (i + 1) * size == i * size + size;
    assert (i + 1) * size <= j * size;
  }

  function Splice(was: seq<byte>, at: nat, fill: seq<byte>): (now: seq<byte>)
    requires at + |fill| <= |was|
    ensures |now| == |was|
  {
    was[..at] + fill + was[at + |fill|..]
  }

  lemma SpliceWithin(was: seq<byte>, lo: nat, hi: nat, offset: nat, fill: seq<byte>)
    requires lo + offset + |fill| <= hi <= |was|
    ensures Splice(was, lo + offset, fill)[lo..hi] == Splice(was[lo..hi], offset, fill)
  {
  }

  lemma SpliceElsewhere(was: seq<byte>, lo: nat, hi: nat, at: nat, fill: seq<byte>)
    requires lo <= hi <= |was| && at + |fill| <= |was|
    requires hi <= at || at + |fill| <= lo
    ensures Splice(was, at, fill)[lo..hi] == was[lo..hi]
  {
  }

  /** Writing inside one buffer's range changes that buffer only. */
  lemma OneBufferChanged(was: seq<byte>, count: nat, index: nat, offset: nat, fill: seq<byte>)
    requires |was| == count * BUF_SIZE && index < count && offset + |fill| <= BUF_SIZE
    requires index * BUF_SIZE + BUF_SIZE <= |was|
    ensures var now := Splice(was, index * BUF_SIZE + offset, fill);
      && now[index * BUF_SIZE..(index + 1) * BUF_SIZE]
         == Splice(was[index * BUF_SIZE..(index + 1) * BUF_SIZE], offset, fill)
      && forall i :: 0 <= i < count && i != index ==>
           now[i * BUF_SIZE..(i + 1) * BUF_SIZE] == was[i * BUF_SIZE..(i + 1) * BUF_SIZE]
  {
    hide Splice;
    SpliceWithin(was, index * BUF_SIZE, (index + 1) * BUF_SIZE, offset, fill);
    forall i | 0 <= i < count && i != index
      ensures Splice(was, index * BUF_SIZE + offset, fill)[i * BUF_SIZE..(i + 1) * BUF_SIZE]
           == was[i * BUF_SIZE..(i + 1) * BUF_SIZE]
    {
      if i < index { Apart(i, index, BUF_SIZE); } else { Apart(index, i, BUF_SIZE); }
      Apart(i, count, BUF_SIZE);
      SpliceElsewhere(was, i * BUF_SIZE, (i + 1) * BUF_SIZE, index * BUF_SIZE + offset, fill);
    }
  }

  // ---------- The pool ----------

  class BufferPool {
    const count: nat
    const bytes: array<byte>
    const alloc: GenAlloc
    ghost const Repr: set<object>

    ghost predicate Valid()
      reads this, bytes, alloc, alloc.generation, alloc.freeList, alloc.freeList.data
    {
      && alloc.Valid()
      && Repr == {this, bytes} + alloc.Repr
      && this !in alloc.Repr && bytes !in alloc.Repr
      && alloc.generation.Length == count && bytes.Length == count * BUF_SIZE
      && View().Wf()
    }

    ghost function View(): Bufs
      requires alloc.Valid() && bytes.Length == count * BUF_SIZE
      reads this, bytes, alloc, alloc.generation, alloc.freeList, alloc.freeList.data
    {
      Bufs(alloc.View(), seq(count, i requires 0 <= i < count reads bytes requires bytes.Length == count * BUF_SIZE
                                      => bytes[i * BUF_SIZE..(i + 1) * BUF_SIZE]))
    }

    constructor (count: nat)
      requires 0 < count <= MAX_U32
      ensures Valid() && fresh(Repr)
      ensures this.count == count && View().gen == GenAllocSpec.New(count)
    {
      MaskedCapacity(count);
      var b := new byte[count * BUF_SIZE];
      var a := new GenAlloc(count, 0);
      this.count, bytes, alloc := count, b, a;
      Repr := {this, b} + a.Repr;
    }

    method Alloc() returns (r: Option<GenId>)
      requires Valid()
      modifies alloc.freeList`readIdx, alloc.freeList`len
      ensures Valid()
      ensures (View().gen, r) == old(View()).gen.Alloc() && View().mem == old(View()).mem
    {
      AllocFresh(alloc.View());
      r := alloc.Alloc();
    }

    /** A current handle that was never handed out breaks the pool. */
    method Free(handle: GenId) returns (r: FreeOutcome)
      requires Valid()
      modifies alloc.generation, alloc.freeList`writeIdx, alloc.freeList`len, alloc.freeList.data
      ensures r == old(View()).gen.Free(handle).1
      ensures r == Freed || r == Rejected ==>
                && alloc.Valid() && View().gen == old(View()).gen.Free(handle).0 && View().mem == old(View()).mem
                && (Valid() <==> (r == Freed ==> old(View()).gen.Live(handle)))
    {
      if View().gen.Free(handle).1 == Freed {
        FreeKeepsWfIff(View().gen, handle);
        if View().gen.Live(handle) { FreeIssued(View().gen, handle); }
      }
      r := alloc.Free(handle);
    }

    /** The bytes of the buffer a handle stands for. */
    method Get(handle: GenId) returns (r: Option<seq<byte>>)
      requires Valid()
      ensures r == View().Get(handle)
    {
      var valid := alloc.IsValid(handle);
      if valid {
        r := Some(bytes[handle.index * BUF_SIZE..(handle.index + 1) * BUF_SIZE]);
      } else {
        r := None;
      }
    }

    /** The kernel fills part of a registered buffer. */
    method Receive(index: nat, offset: nat, fill: seq<byte>)
      requires Valid() && index < count && offset + |fill| <= BUF_SIZE
      modifies bytes
      ensures Valid()
      ensures var m := old(View()).mem[index];
        View() == old(View()).(mem := old(View()).mem[index := m[..offset] + fill + m[offset + |fill|..]])
    {
      Apart(index, count, BUF_SIZE);
      ghost var was := bytes[..];
      CopyInto(index * BUF_SIZE + offset, fill);
      OneBufferChanged(was, count, index, offset, fill);
      assert View().mem == old(View()).mem[index := Splice(old(View()).mem[index], offset, fill)];
    }

    method CopyInto(at: nat, fill: seq<byte>)
      requires at + |fill| <= bytes.Length
      modifies bytes
      ensures bytes[..] == Splice(old(bytes[..]), at, fill)
    {
      for k := 0 to |fill|
        invariant forall i :: 0 <= i < bytes.Length ==>
                    bytes[i] == if at <= i < at + k then fill[i - at] else old(bytes[i])
      {
        bytes[at + k] := fill[k];
      }
    }
  }
}
