/** What the generational allocator computes, as a function of its two fields. */
module GenAllocSpec {
  import opened Wrappers
  import opened Sequences

  const MAX_U32: nat := 0xFFFF_FFFF

  datatype GenId = GenId(index: nat, generation: nat)

  /** The generation array and the free list, front first. */
  datatype Gen = Gen(generation: seq<nat>, free: seq<nat>) {

    ghost predicate Wf() {
      && Distinct(free)
      && (forall k :: 0 <= k < |free| ==> free[k] < |generation|)
      && (forall i :: 0 <= i < |generation| ==> generation[i] <= MAX_U32)
    }

    predicate IsValid(id: GenId) {
      id.index < |generation| && id.generation == generation[id.index]
    }

    /** The id has been handed out and not given back. */
    predicate Live(id: GenId) {
      IsValid(id) && id.index !in free
    }

    /** The id has been handed out at some time. */
    predicate Issued(id: GenId) {
      id.index < |generation| && (id.generation < generation[id.index] || Live(id))
    }

    function Alloc(): (r: (Gen, Option<GenId>)) {
      if free == [] then (this, None)
      else if free[0] < |generation| then
        (Gen(generation, free[1..]), Some(GenId(free[0], generation[free[0]])))
      else (this, None)
    }

    function Free(id: GenId): (Gen, FreeOutcome) {
      if !IsValid(id) then (this, Rejected)
      else if generation[id.index] >= MAX_U32 then (this, Overflow)
      else if |free| >= |generation| then (this, NoRoom)
      else (Gen(generation[id.index := generation[id.index] + 1], free + [id.index]), Freed)
    }
  }

  /** `Overflow` and `NoRoom` are the two ways `free` panics. */
  datatype FreeOutcome = Freed | Rejected | Overflow | NoRoom

  /** `0..capacity` in reverse, as the constructor fills the free list. */
  function Descending(n: nat): (r: seq<nat>)
    ensures |r| == n
    ensures forall k :: 0 <= k < n ==> r[k] == n - 1 - k
  {
    seq(n, k requires 0 <= k < n => n - 1 - k)
  }

  function New(capacity: nat): (g: Gen) {
    Gen(seq(capacity, _ => 0), Descending(capacity))
  }

  lemma NewWf(capacity: nat)
    ensures New(capacity).Wf()
    ensures forall id :: !New(capacity).Issued(id) && !New(capacity).Live(id)
  {
    var g := New(capacity);
    forall id ensures !g.Issued(id) {
      if id.index < capacity { assert g.free[capacity - 1 - id.index] == id.index; }
    }
  }

  /** `alloc` hands out an id that was never handed out before, and fails only when nothing is free. */
  lemma AllocFresh(g: Gen)
    requires g.Wf()
    ensures var (g', r) := g.Alloc();
      && g'.Wf() && g'.generation == g.generation
      && (r.None? <==> g.free == [])
      && (r.None? ==> g' == g)
      && (r.Some? ==>
            && !g.Issued(r.value) && g'.Live(r.value)
            && g.free == [r.value.index] + g'.free
            && (forall id :: g'.Issued(id) <==> g.Issued(id) || id == r.value)
            && (forall id :: g'.Live(id) <==> g.Live(id) || id == r.value))
  {
    if g.free != [] {
      var g' := g.Alloc().0;
      assert g.free[0] in g.free;
      assert forall k :: 0 <= k < |g'.free| ==> g'.free[k] == g.free[k + 1];
      assert forall i :: i in g.free <==> i == g.free[0] || i in g'.free;
    }
  }

  /** Freeing an id that was handed out: the push cannot fail, and only that id stops being valid. */
  lemma FreeIssued(g: Gen, id: GenId)
    requires g.Wf() && g.Issued(id)
    ensures var (g', r) := g.Free(id);
      && g'.Wf() && r != NoRoom
      && |g'.generation| == |g.generation|
      && (r == Rejected <==> !g.Live(id))
      && (r != Freed ==> g' == g)
      && (r == Overflow <==> g.Live(id) && id.generation == MAX_U32)
      && (r == Freed ==>
            && g'.free == g.free + [id.index]
            && (forall x :: g'.Issued(x) <==> g.Issued(x))
            && (forall x :: g'.Live(x) <==> g.Live(x) && x != id))
  {
    var (g', r) := g.Free(id);
    if g.Live(id) {
      forall k | 0 <= k < |g.free| ensures g.free[k] in Below(|g.generation|) {}
      DistinctFull(g.free, Below(|g.generation|), id.index);
      if r == Freed {
        assert forall i :: i in g'.free <==> i in g.free || i == id.index;
      }
    }
  }

  /** Without the client's discipline the allocator breaks: freeing keeps it well-formed exactly
      when the id is not current or its slot is not already free. */
  lemma FreeKeepsWfIff(g: Gen, id: GenId)
    requires g.Wf() && g.Free(id).1 == Freed
    ensures g.Free(id).0.Wf() <==> id.index !in g.free
  {
    var g' := g.Free(id).0;
    if id.index in g.free {
      var k :| 0 <= k < |g.free| && g.free[k] == id.index;
      assert g'.free[k] == g'.free[|g.free|];
    }
  }

  ghost function LiveIndices(g: Gen): set<nat> {
    Below(|g.generation|) - Elements(g.free)
  }

  /** The ids handed out and not given back. */
  ghost function LiveIds(g: Gen): (r: set<GenId>)
    ensures forall id :: id in r <==> g.Live(id)
  {
    IdsAt(g, LiveIndices(g))
  }

  ghost function IdsAt(g: Gen, indices: set<nat>): (r: set<GenId>)
    requires forall i :: i in indices ==> i < |g.generation|
    ensures forall id :: id in r <==> g.IsValid(id) && id.index in indices
    ensures |r| == |indices|
    decreases |indices|
  {
    if indices == {} then {} else
      var i :| i in indices;
      IdsAt(g, indices - {i}) + {GenId(i, g.generation[i])}
  }

  /** Slots are conserved: those handed out and those free make up the capacity. */
  lemma LiveCount(g: Gen)
    requires g.Wf()
    ensures |LiveIds(g)| + |g.free| == |g.generation|
  {
    ElementsOfDistinct(g.free);
    assert LiveIndices(g) + Elements(g.free) == Below(|g.generation|);
  }
}
