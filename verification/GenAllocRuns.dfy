/** The allocator over whole runs of a client that gives back only ids it was handed. */
module GenAllocRuns {
  import opened Wrappers
  import opened Sequences
  import opened GenAllocSpec

  datatype Request = Take | Give(id: GenId)

  /** The allocator with its history: every id handed out, every id given back, and the slot indices in
      the order in which they were taken and returned. */
  datatype History = History(g: Gen, issued: set<GenId>, freed: set<GenId>, taken: seq<nat>, returned: seq<nat>)

  function Begin(capacity: nat): History {
    History(GenAllocSpec.New(capacity), {}, {}, [], [])
  }

  /** The client's discipline, and the one bound: no generation reaches its last value. */
  predicate Allowed(h: History, r: Request) {
    r.Give? ==> r.id in h.issued && h.g.Free(r.id).1 != Overflow
  }

  function Serve(h: History, r: Request): History {
    match r
    case Take =>
      var (g, id) := h.g.Alloc();
      if id.None? then h.(g := g)
      else h.(g := g, issued := h.issued + {id.value}, taken := h.taken + [id.value.index])
    case Give(id) =>
      var (g, freed) := h.g.Free(id);
      if freed == Freed then h.(g := g, freed := h.freed + {id}, returned := h.returned + [id.index]) else h.(g := g)
  }

  function ServeAll(h: History, rs: seq<Request>): History
    decreases |rs|
  {
    if rs == [] then h else ServeAll(Serve(h, rs[0]), rs[1..])
  }

  predicate AllAllowed(h: History, rs: seq<Request>)
    decreases |rs|
  {
    rs != [] ==> Allowed(h, rs[0]) && AllAllowed(Serve(h, rs[0]), rs[1..])
  }

  ghost predicate Faithful(h: History) {
    && h.g.Wf()
    && (forall id :: id in h.issued <==> h.g.Issued(id))
    && (forall id :: id in h.freed <==> h.g.Issued(id) && !h.g.Live(id))
  }

  lemma ServeFaithful(h: History, r: Request)
    requires Faithful(h) && Allowed(h, r)
    ensures Faithful(Serve(h, r)) && |Serve(h, r).g.generation| == |h.g.generation|
    ensures r.Take? ==>
      var id := h.g.Alloc().1;
      if id.Some? then id.value !in h.issued else h.g.free == []
    ensures r.Give? ==> h.g.Free(r.id).1 == if r.id in h.freed then Rejected else Freed
    ensures h.g.free + Serve(h, r).returned[|h.returned|..] == Serve(h, r).taken[|h.taken|..] + Serve(h, r).g.free
    ensures h.taken <= Serve(h, r).taken && h.returned <= Serve(h, r).returned
  {
    match r {
      case Take => AllocFresh(h.g);
      case Give(id) => FreeIssued(h.g, id);
    }
  }

  /** Free slots leave the list in the order they joined it. */
  lemma {:induction false} SlotsQueue(h: History, rs: seq<Request>)
    requires Faithful(h) && AllAllowed(h, rs)
    ensures var e := ServeAll(h, rs);
      && Faithful(e) && |e.g.generation| == |h.g.generation|
      && h.taken <= e.taken && h.returned <= e.returned
      && h.g.free + e.returned[|h.returned|..] == e.taken[|h.taken|..] + e.g.free
    decreases |rs|
  {
    if rs != [] {
      var m := Serve(h, rs[0]);
      ServeFaithful(h, rs[0]);
      SlotsQueue(m, rs[1..]);
      var e := ServeAll(m, rs[1..]);
      Telescope(h.g.free, h.returned, h.taken, m.g.free, m.returned, m.taken, e.g.free, e.returned, e.taken);
    }
  }

  lemma Telescope(f0: seq<nat>, r0: seq<nat>, t0: seq<nat>, f1: seq<nat>, r1: seq<nat>, t1: seq<nat>,
                  f2: seq<nat>, r2: seq<nat>, t2: seq<nat>)
    requires r0 <= r1 <= r2 && t0 <= t1 <= t2
    requires f0 + r1[|r0|..] == t1[|t0|..] + f1
    requires f1 + r2[|r1|..] == t2[|t1|..] + f2
    ensures f0 + r2[|r0|..] == t2[|t0|..] + f2
  {
    assert r2[|r0|..] == r1[|r0|..] + r2[|r1|..];
    assert t2[|t0|..] == t1[|t0|..] + t2[|t1|..];
    calc {
      f0 + r2[|r0|..];
      (f0 + r1[|r0|..]) + r2[|r1|..];
      t1[|t0|..] + (f1 + r2[|r1|..]);
      (t1[|t0|..] + t2[|t1|..]) + f2;
      t2[|t0|..] + f2;
    }
  }

  lemma BeginFaithful(capacity: nat)
    ensures Faithful(Begin(capacity))
  {
    NewWf(capacity);
  }

  lemma RunFaithful(capacity: nat, rs: seq<Request>)
    requires AllAllowed(Begin(capacity), rs)
    ensures Faithful(ServeAll(Begin(capacity), rs))
    ensures |ServeAll(Begin(capacity), rs).g.generation| == capacity
  {
    BeginFaithful(capacity);
    SlotsQueue(Begin(capacity), rs);
  }

  /** On every run of such a client: an id handed out is valid exactly while it has not been given back,
      and free slots and slots in use split the table without repetition. */
  lemma AllocatorRuns(capacity: nat, rs: seq<Request>)
    requires AllAllowed(Begin(capacity), rs)
    ensures var h := ServeAll(Begin(capacity), rs);
      && (forall id :: id in h.issued ==> (h.g.IsValid(id) <==> id !in h.freed))
      && h.freed <= h.issued && Distinct(h.g.free)
      && (forall i :: 0 <= i < capacity ==>
            (i in h.g.free <==> !exists id :: id in h.issued - h.freed && id.index == i))
      && |h.g.free| + |h.issued - h.freed| == capacity
  {
    RunFaithful(capacity, rs);
    var h := ServeAll(Begin(capacity), rs);
    hide ServeAll, AllAllowed;
    LiveCount(h.g);
    assert h.issued - h.freed == LiveIds(h.g);
    forall i | 0 <= i < capacity ensures i in h.g.free <==> !exists id :: id in h.issued - h.freed && id.index == i {
      var id := GenId(i, h.g.generation[i]);
      if i !in h.g.free { assert id in h.issued - h.freed; }
    }
  }

  /** What the next request gets: a fresh id unless every slot is in use, and a second `free` is refused
      and changes nothing. The push in `free` never fails. */
  lemma AllocatorAnswers(capacity: nat, rs: seq<Request>, r: Request)
    requires AllAllowed(Begin(capacity), rs) && Allowed(ServeAll(Begin(capacity), rs), r)
    ensures var h := ServeAll(Begin(capacity), rs);
      && (r.Take? ==> var id := h.g.Alloc().1;
                      if id.Some? then id.value !in h.issued else |h.issued - h.freed| == capacity)
      && (r.Give? ==> h.g.Free(r.id).1 == if r.id in h.freed then Rejected else Freed)
      && (r.Give? && r.id in h.freed ==> h.g.Free(r.id).0 == h.g)
  {
    RunFaithful(capacity, rs);
    AllocatorRuns(capacity, rs);
    ServeFaithful(ServeAll(Begin(capacity), rs), r);
  }

  /** Every id handed out took its slot, and nothing takes a slot twice before all were taken. */
  lemma {:induction false} TakenIndices(h: History, rs: seq<Request>)
    requires forall id :: id in h.issued ==> id.index in h.taken
    ensures var e := ServeAll(h, rs); forall id :: id in e.issued ==> id.index in e.taken
    decreases |rs|
  {
    if rs != [] { TakenIndices(Serve(h, rs[0]), rs[1..]); }
  }

  /** Whatever was given back before, the first `capacity` allocations take the slots from the last to the first,
      each in its first generation. */
  lemma FirstAllocations(capacity: nat, rs: seq<Request>)
    requires AllAllowed(Begin(capacity), rs)
    ensures var h := ServeAll(Begin(capacity), rs);
      && (forall j :: 0 <= j < |h.taken| && j < capacity ==> h.taken[j] == capacity - 1 - j)
      && (|h.taken| < capacity ==> h.g.Alloc().1 == Some(GenId(capacity - 1 - |h.taken|, 0)))
  {
    var b := Begin(capacity);
    BeginFaithful(capacity);
    SlotsQueue(b, rs);
    TakenIndices(b, rs);
    var h := ServeAll(b, rs);
    assert b.g.free + h.returned == h.taken + h.g.free;
    forall j | 0 <= j < |h.taken| && j < capacity ensures h.taken[j] == capacity - 1 - j {
      assert (h.taken + h.g.free)[j] == h.taken[j];
    }
    var n := |h.taken|;
    if n < capacity {
      var i := capacity - 1 - n;
      assert (h.taken + h.g.free)[n] == h.g.free[0] == i;
      assert i !in h.taken;
      assert !h.g.Issued(GenId(i, 0));
    }
  }

  /** A slot freed while `k` others are free is not handed out by the next `k` allocations, which give
      those others in the order they were freed; the one after them gives it. */
  lemma ReuseDistance(capacity: nat, before: seq<Request>, id: GenId, after: seq<Request>)
    requires AllAllowed(Begin(capacity), before)
    requires var h := ServeAll(Begin(capacity), before);
      && Allowed(h, Give(id)) && h.g.Free(id).1 == Freed
      && AllAllowed(Serve(h, Give(id)), after)
    ensures var h := ServeAll(Begin(capacity), before);
            var k := |h.g.free|;
            var taken := ServeAll(Serve(h, Give(id)), after).taken;
      && |h.taken| <= |taken|
      && var next := taken[|h.taken|..];
      && (forall j :: 0 <= j < k && j < |next| ==> next[j] == h.g.free[j] && next[j] != id.index)
      && (k < |next| ==> next[k] == id.index)
  {
    BeginFaithful(capacity);
    SlotsQueue(Begin(capacity), before);
    var h := ServeAll(Begin(capacity), before);
    var m := Serve(h, Give(id));
    ServeFaithful(h, Give(id));
    SlotsQueue(m, after);
    var e := ServeAll(m, after);
    var next := e.taken[|h.taken|..];
    var k := |h.g.free|;
    assert m.g.free == h.g.free + [id.index];
    assert m.g.free + e.returned[|m.returned|..] == next + e.g.free;
    forall j | 0 <= j <= k && j < |next| ensures next[j] == m.g.free[j] {
      assert (next + e.g.free)[j] == next[j];
    }
    forall j | 0 <= j < k ensures h.g.free[j] != id.index {
      assert m.g.free[j] != m.g.free[k];
    }
  }
}
