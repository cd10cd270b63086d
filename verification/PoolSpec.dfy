/** An object pool as a map from the ids handed out to the objects they stand for. */
module PoolSpec {
  import opened Wrappers
  import opened Protocol
  import opened GenAllocSpec

  datatype Pool<T> = Pool(gen: Gen, objects: map<GenId, T>) {

    ghost predicate Wf() {
      gen.Wf() && forall id :: id in objects <==> gen.Live(id)
    }

    function Get(id: GenId): Option<T> {
      if gen.IsValid(id) && id in objects then Some(objects[id]) else None
    }

    function Put(id: GenId, x: T): Pool<T> { this.(objects := objects[id := x]) }

    function Spawn(x: T): (Pool<T>, Option<GenId>) {
      var (gen', id) := gen.Alloc();
      if id.None? then (this, None) else (Pool(gen', objects[id.value := x]), id)
    }

    function Despawn(id: GenId): (Pool<T>, Outcome<bool>) {
      var (gen', freed) := gen.Free(id);
      match freed
      case Overflow => (this, Panicked(GenerationOverflow))
      case NoRoom => (this, Panicked(FreeListFull))
      case Rejected => (this, Ok(false))
      case Freed => (Pool(gen', objects - {id}), Ok(true))
    }
  }

  function EmptyPool<T>(capacity: nat): Pool<T> { Pool(GenAllocSpec.New(capacity), map[]) }

  /** To a client that despawns only what it was handed, the pool is a map: lookup is map lookup, a
      spawned object gets a key never used before, and spawning fails only when every slot is in use. */
  lemma PoolIsMap<T>(p: Pool<T>, x: T, id: GenId)
    requires p.Wf()
    ensures p.Get(id) == if id in p.objects then Some(p.objects[id]) else None
    ensures var (p', r) := p.Spawn(x);
      && p'.Wf()
      && (r.None? <==> |p.objects| == |p.gen.generation|)
      && (r.None? ==> p' == p)
      && (r.Some? ==> !p.gen.Issued(r.value) && p'.objects == p.objects[r.value := x] && r.value !in p.objects)
    ensures p.gen.Issued(id) ==>
      var (p', r) := p.Despawn(id);
      && p'.Wf()
      && (r.Ok? ==> r.value == (id in p.objects) && p'.objects == p.objects - {id} && p'.gen.Issued(id))
      && (r.Panicked? <==> id in p.objects && id.generation == MAX_U32)
  {
    AllocFresh(p.gen);
    PoolBound(p);
    if p.gen.Issued(id) {
      FreeIssued(p.gen, id);
      if id !in p.objects { assert p.objects - {id} == p.objects; }
    }
  }

  /** A pool holds as many objects as it has slots in use. */
  lemma PoolBound<T>(p: Pool<T>)
    requires p.Wf()
    ensures |p.objects| + |p.gen.free| == |p.gen.generation|
  {
    LiveCount(p.gen);
    assert p.objects.Keys == LiveIds(p.gen);
  }

  // ---------- Whole runs ----------

  datatype PoolRequest<T> = Store(x: T) | Change(id: GenId, x: T) | Discard(id: GenId)

  /** A pool, the keys it ever gave out, and the map its client believes it to be. */
  datatype Client<T> = Client(pool: Pool<T>, ever: set<GenId>, model: map<GenId, T>)

  /** A client names only handles it was given, and discards none of the last generation. */
  predicate Fair<T>(c: Client<T>, r: PoolRequest<T>) {
    && (r.Change? || r.Discard? ==> r.id in c.ever)
    && (r.Discard? ==> c.pool.Despawn(r.id).1.Ok?)
  }

  function Serve<T>(c: Client<T>, r: PoolRequest<T>): Client<T> {
    match r
    case Store(x) =>
      var (pool, id) := c.pool.Spawn(x);
      if id.None? then c.(pool := pool) else Client(pool, c.ever + {id.value}, c.model[id.value := x])
    case Change(id, x) =>
      Client(if c.pool.Get(id).Some? then c.pool.Put(id, x) else c.pool, c.ever,
             if id in c.model then c.model[id := x] else c.model)
    case Discard(id) => Client(c.pool.Despawn(id).0, c.ever, c.model - {id})
  }

  function ServeAll<T>(c: Client<T>, rs: seq<PoolRequest<T>>): Client<T>
    decreases |rs|
  {
    if rs == [] then c else ServeAll(Serve(c, rs[0]), rs[1..])
  }

  predicate AllFair<T>(c: Client<T>, rs: seq<PoolRequest<T>>)
    decreases |rs|
  {
    rs != [] ==> Fair(c, rs[0]) && AllFair(Serve(c, rs[0]), rs[1..])
  }

  ghost predicate Agrees<T>(c: Client<T>) {
    c.pool.Wf() && c.pool.objects == c.model && forall id :: id in c.ever <==> c.pool.gen.Issued(id)
  }

  lemma ServeAgrees<T>(c: Client<T>, r: PoolRequest<T>)
    requires Agrees(c) && Fair(c, r)
    ensures Agrees(Serve(c, r)) && |Serve(c, r).pool.gen.generation| == |c.pool.gen.generation|
  {
    match r {
      case Store(x) => AllocFresh(c.pool.gen);
      case Change(_, _) =>
      case Discard(id) =>
        FreeIssued(c.pool.gen, id);
        if id !in c.model { assert c.model - {id} == c.model; }
    }
  }

  lemma {:induction false} ServeAllAgrees<T>(c: Client<T>, rs: seq<PoolRequest<T>>)
    requires Agrees(c) && AllFair(c, rs)
    ensures Agrees(ServeAll(c, rs)) && |ServeAll(c, rs).pool.gen.generation| == |c.pool.gen.generation|
    decreases |rs|
  {
    if rs != [] {
      ServeAgrees(c, rs[0]);
      hide Agrees, Serve, Fair;
      ServeAllAgrees(Serve(c, rs[0]), rs[1..]);
    }
  }

  /** After any run of spawns, writes through `get_mut` and despawns on handles the pool gave out, looking
      any handle up is looking it up in the client's map, a despawn succeeds exactly on a handle in that map
      (unless its generation is spent), and the next spawn gives a handle never given
      before, or none exactly when the client's map fills the pool. */
  lemma PoolRuns<T>(capacity: nat, rs: seq<PoolRequest<T>>, id: GenId, x: T)
    requires AllFair(Client(EmptyPool(capacity), {}, map[]), rs)
    ensures var c := ServeAll(Client(EmptyPool(capacity), {}, map[]), rs);
      && c.pool.Get(id) == (if id in c.model then Some(c.model[id]) else None)
      && (c.pool.Spawn(x).1.Some? ==> c.pool.Spawn(x).1.value !in c.ever)
      && (c.pool.Spawn(x).1.None? <==> |c.model| == capacity)
      && (id in c.ever && c.pool.Despawn(id).1.Ok? ==> c.pool.Despawn(id).1.value == (id in c.model))
  {
    NewWf(capacity);
    var begin: Client<T> := Client(EmptyPool(capacity), {}, map[]);
    ServeAllAgrees(begin, rs);
    PoolIsMap(ServeAll(begin, rs).pool, x, id);
  }
}
