/** The object pool over its slot array and allocator. */
module ObjectPools {
  import opened Wrappers
  import opened Protocol
  import opened GenAllocSpec
  import opened GenAllocs
  import opened ObjectHandles
  import opened PoolSpec

  /** A slot is filled exactly when its index is in use, with the object of its current id. */
  ghost predicate Slots<T>(p: Pool<T>, slots: seq<Option<T>>) {
    && |p.gen.generation| <= |slots|
    && (forall i :: 0 <= i < |p.gen.generation| ==> (slots[i].Some? <==> i !in p.gen.free))
    && (forall id :: id in p.objects ==> p.gen.IsValid(id) && slots[id.index] == Some(p.objects[id]))
  }

  /** The slot handed out by the allocator is empty. */
  lemma FillSlot<T>(p: Pool<T>, slots: seq<Option<T>>, x: T)
    requires p.Wf() && Slots(p, slots) && p.Spawn(x).1.Some?
    ensures var (p', id) := p.Spawn(x);
      && p'.Wf() && id.value.index < |slots| && slots[id.value.index].None?
      && Slots(p', slots[id.value.index := Some(x)])
  {
    AllocFresh(p.gen);
    var (p', id) := p.Spawn(x);
    assert p.gen.free[0] == id.value.index;
    forall y | y in p'.objects && y != id.value ensures y.index != id.value.index {
      assert p.gen.Live(y);
    }
  }

  lemma ClearSlot<T>(p: Pool<T>, slots: seq<Option<T>>, id: GenId)
    requires p.Wf() && Slots(p, slots) && p.gen.Issued(id) && p.Despawn(id).1 == Ok(true)
    ensures p.Despawn(id).0.Wf() && Slots(p.Despawn(id).0, slots[id.index := None])
  {
    FreeIssued(p.gen, id);
  }

  class ObjectPool<T> {
    const poolId: nat
    const data: array<Option<T>>
    const alloc: GenAlloc

    /** The objects by the ids they were spawned with. */
    ghost var objects: map<GenId, T>
    ghost const Repr: set<object>

    ghost predicate Valid()
      reads this, data, alloc, alloc.generation, alloc.freeList, alloc.freeList.data
    {
      && alloc.Valid()
      && Repr == {this, data} + alloc.Repr
      && this !in alloc.Repr && data !in alloc.Repr
      && data.Length <= MAX_U32 && alloc.generation.Length == PoolSlots(data.Length)
      && View().Wf()
      && Slots(View(), data[..])
    }

    ghost function View(): Pool<T>
      requires alloc.Valid()
      reads this, alloc, alloc.generation, alloc.freeList, alloc.freeList.data
    {
      Pool(alloc.View(), objects)
    }

    constructor (poolId: nat, capacity: nat)
      requires capacity <= MAX_U32 && 0 < PoolSlots(capacity)
      ensures Valid() && fresh(Repr)
      ensures View() == EmptyPool(PoolSlots(capacity))
      ensures this.poolId == poolId && data.Length == capacity
    {
      MaskedCapacity(capacity);
      assert Masked(capacity, POOL_MASK) == PoolSlots(capacity);
      hide Masked, PoolSlots;
      var slots := new Option<T>[capacity](_ => None);
      var a := new GenAlloc(capacity, POOL_MASK);
      this.poolId := poolId;
      data, alloc, objects := slots, a, map[];
      Repr := {this, slots} + a.Repr;
      new;
      ghost var n := PoolSlots(capacity);
      NewWf(n);
      assert alloc.View() == GenAllocSpec.New(n);
      forall i | 0 <= i < n ensures i in alloc.View().free {
        assert alloc.View().free[n - 1 - i] == i;
      }
    }

    /** The capacity asked for, which is what the pool can hold exactly while it fits the 24 bits of a
        handle's index. */
    method Capacity() returns (n: nat)
      requires Valid()
      ensures n == data.Length && |View().gen.generation| == PoolSlots(n)
      ensures |View().gen.generation| == n <==> n <= POOL_MASK
    {
      n := data.Length;
    }

    method Spawn(x: T) returns (r: Option<ObjectHandle>)
      requires Valid()
      modifies this`objects, data, alloc.freeList`readIdx, alloc.freeList`len
      ensures Valid()
      ensures var (pool, id) := old(View()).Spawn(x);
        && View() == pool
        && r == if id.None? then None else Some(ObjectHandle(poolId, id.value))
    {
      if View().Spawn(x).1.Some? { FillSlot(View(), data[..], x); }
      var id := alloc.Alloc();
      if id.None? { return None; }
      assert data[id.value.index].None?;
      data[id.value.index] := Some(x);
      objects := objects[id.value := x];
      r := Some(ObjectHandle(poolId, id.value));
    }

    /** `get` and `get_mut` look up alike. */
    method Get(handle: ObjectHandle) returns (r: Option<T>)
      requires Valid()
      ensures r == View().Get(handle.id)
    {
      var valid := alloc.IsValid(handle.id);
      if valid { r := data[handle.id.index]; } else { r := None; }
    }

    /** What a caller of `get_mut` leaves in the slot. */
    method Update(handle: ObjectHandle, x: T)
      requires Valid() && View().Get(handle.id).Some?
      modifies this`objects, data
      ensures Valid() && View() == old(View()).Put(handle.id, x)
    {
      data[handle.id.index] := Some(x);
      objects := objects[handle.id := x];
    }

    /** `Panicked` stands for the two panics of the allocator; the state they leave is not used again. A
        current handle that was never handed out breaks the pool. */
    method Despawn(handle: ObjectHandle) returns (r: Outcome<bool>)
      requires Valid()
      modifies this`objects, data, alloc.generation, alloc.freeList`writeIdx, alloc.freeList`len, alloc.freeList.data
      ensures r == old(View()).Despawn(handle.id).1
      ensures r.Ok? ==> alloc.Valid() && View() == old(View()).Despawn(handle.id).0
      ensures r.Ok? ==> (Valid() <==> (r.value ==> old(View()).gen.Live(handle.id)))
    {
      ghost var was := View();
      if was.Despawn(handle.id).1 == Ok(true) {
        FreeKeepsWfIff(was.gen, handle.id);
        if was.gen.Live(handle.id) { ClearSlot(was, data[..], handle.id); }
      }
      var freed := alloc.Free(handle.id);
      match freed {
        case Overflow => r := Panicked(GenerationOverflow);
        case NoRoom => r := Panicked(FreeListFull);
        case Rejected => r := Ok(false);
        case Freed =>
          data[handle.id.index] := None;
          objects := objects - {handle.id};
          r := Ok(true);
      }
    }
  }
}
