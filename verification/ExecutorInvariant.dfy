/** What every run keeps, whatever errors the kernel reports. */
module ExecutorInvariant {
  import opened Wrappers
  import opened Sequences
  import opened GenAllocSpec
  import opened ObjectHandles
  import opened Protocol
  import opened MachineSpecs
  import opened PoolSpec
  import opened ExecutorModel
  import opened EventCounts
  import opened Weights

  ghost predicate Tables(s: Exec) {
    && 0 < s.N() <= POOL_MASK && s.N() <= s.files
    && s.listeners.Wf() && s.conns.Wf() && s.bufs.Wf()
    && 0 < |s.listeners.gen.generation|
    && s.listeners.objects.Keys == {s.ListenerId()}
    && |s.cur| <= s.QueueCapacity() && |s.next| <= s.QueueCapacity()
    && (forall fd :: fd in s.k.open ==> fd < s.files)
  }

  ghost predicate QuietStart(s: Exec)
    requires Tables(s)
  {
    s.listeners.objects[s.ListenerId()].state.Init? ==>
      && Pending(s) == [SpawnEvent(ObjectHandle(TCP_SERVER, s.ListenerId()))]
      && s.k.inflight == [] && s.conns.objects == map[]
  }

  ghost predicate KindOk(bufs: Bufs, kind: OpKind) {
    match kind
    case Accept(_) => false
    case Recv(_, b, offset, len) => offset < BUF_SIZE && offset + len == BUF_SIZE && bufs.gen.Issued(b)
    case Close(_) => true
  }

  ghost predicate OpOk(s: Exec, op: Op)
    requires Tables(s)
  {
    if op.handle.poolId == TCP_SERVER then op.handle.id == s.ListenerId() && op.kind.Accept?
    else op.handle.poolId == CONN_HANDLER && s.conns.gen.Issued(op.handle.id) && KindOk(s.bufs, op.kind)
  }

  ghost predicate AnswerOk(bufs: Bufs, kind: OpKind, res: int) {
    KindOk(bufs, kind) && -0x1000 < res <= match kind case Recv(_, _, _, len) => len case _ => 0
  }

  ghost predicate EventOk(s: Exec, e: Event)
    requires Tables(s)
  {
    && (e.origin.Some? <==> e.reason.IoCompleted?)
    && if e.handle.poolId == TCP_SERVER then
         e.handle.id == s.ListenerId() &&
         (if e.reason.Spawn? then s.listeners.objects[s.ListenerId()].state.Init?
          else e.origin.Some? && e.origin.value.Accept?)
       else
         && e.handle.poolId == CONN_HANDLER && s.conns.gen.Issued(e.handle.id)
         && (e.reason.IoCompleted? ==> AnswerOk(s.bufs, e.origin.value, e.reason.res))
  }

  ghost predicate Addressed(s: Exec)
    requires Tables(s)
  {
    && (forall e :: e in Pending(s) ==> EventOk(s, e))
    && (forall op :: op in s.k.inflight ==> OpOk(s, op))
    && (forall e :: e in s.k.cq ==> e.reason.IoCompleted?)
    && (s.cur != [] ==> forall e :: e in s.next ==> e.reason.Spawn?)
  }

  /** A handler between events. */
  ghost predicate ConnOk(bufs: Bufs, c: Conn) {
    match c.state
    case Init => c.buf.None? && c.offset == 0
    case Recv(_) => c.buf.Some? && bufs.gen.Live(c.buf.value) && c.offset < BUF_SIZE
    case Closing => c.buf.Some? && bufs.gen.Issued(c.buf.value) && !bufs.gen.Live(c.buf.value) && c.offset == 0
    case Closed => false
  }

  ghost predicate Handlers(s: Exec) {
    && (forall id :: id in s.conns.objects ==> ConnOk(s.bufs, s.conns.objects[id]))
    && (forall id :: id in s.conns.objects && s.conns.objects[id].state.Init? ==> Ios(s, id) == 0)
  }

  /** A handler waits for a `Spawn` exactly while it is in `Init`, and then for one. */
  ghost predicate OneSpawn(s: Exec) {
    forall id :: Spawns(s, id) == if id in s.conns.objects && s.conns.objects[id].state.Init? then 1 else 0
  }

  function Receivers(conns: map<GenId, Conn>): set<GenId> {
    set id | id in conns && conns[id].state.Recv?
  }

  ghost predicate Buffers(s: Exec) { OwnBuffers(s.conns.objects, s.bufs.gen) }

  /** Handlers in `Recv` share no buffer, and with the free ones theirs are all the buffers. */
  ghost predicate OwnBuffers(conns: map<GenId, Conn>, gen: Gen) {
    && (forall a, b :: a in Receivers(conns) && b in Receivers(conns) && a != b ==> conns[a].buf != conns[b].buf)
    && |Receivers(conns)| + |gen.free| == |gen.generation|
  }

  ghost predicate Inv(s: Exec) {
    Tables(s) && QuietStart(s) && Addressed(s) && Handlers(s) && OneSpawn(s) && Buffers(s)
  }

  // ---------- Start ----------

  lemma StartInv(listeners: nat, handlers: nat, files: nat, bufs: nat, mem: seq<seq<byte>>)
    requires 0 < listeners && 0 < handlers <= POOL_MASK && handlers <= files
    requires 0 < bufs == |mem| && forall i :: 0 <= i < bufs ==> |mem[i]| == BUF_SIZE
    ensures Inv(Start(listeners, handlers, files, bufs, mem))
  {
    var s := Start(listeners, handlers, files, bufs, mem);
    NewWf(listeners);
    NewWf(handlers);
    NewWf(bufs);
    AllocFresh(GenAllocSpec.New(listeners));
    assert Pending(s) == s.cur;
    var first := GenId(listeners - 1, 0);
    assert GenAllocSpec.New(listeners).Alloc().1 == Some(first);
    assert forall id :: s.listeners.gen.Live(id) <==> id == first;
    forall id ensures Spawns(s, id) == 0 { CountNone(Pending(s), ConnHandle(id), true); }
    assert Receivers(s.conns.objects) == {};
  }

  // ---------- Dispatch: a handler moves and submits requests ----------

  /** The state after a handler processed the head event without spawning, retrying or ending. */
  function Moved(s: Exec, c: Conn, gen: Gen, ops: seq<Op>): Exec
    requires s.cur != []
  {
    s.(cur := s.cur[1..], conns := s.conns.Put(s.cur[0].handle.id, c), bufs := s.bufs.(gen := gen),
       k := s.k.(inflight := s.k.inflight + ops))
  }

  /** How one event may change the buffer allocator: not, by taking `c`'s buffer or by giving it back. */
  ghost predicate GenMoves(gen: Gen, gen': Gen, was: Conn, c: Conn) {
    && gen'.Wf() && |gen'.generation| == |gen.generation|
    && (forall b :: gen.Issued(b) ==> gen'.Issued(b))
    && if was.state.Init? then
         && c.state.Recv? && c.buf.Some? && !gen.Issued(c.buf.value)
         && (forall b :: gen'.Live(b) <==> gen.Live(b) || b == c.buf.value)
         && |gen'.free| == |gen.free| - 1
       else if was.state.Recv? && c.state.Closing? then
         && c.buf == was.buf && c.buf.Some?
         && (forall b :: gen'.Live(b) <==> gen.Live(b) && b != c.buf.value)
         && |gen'.free| == |gen.free| + 1
       else gen' == gen && c.state.Recv? == was.state.Recv? && c.buf == was.buf
  }

  ghost predicate CanMove(s: Exec, c: Conn, gen: Gen, ops: seq<Op>)
    requires Tables(s) && s.cur != []
  {
    var h := s.cur[0].handle;
    && h.poolId == CONN_HANDLER && h.id in s.conns.objects
    && s.conns.objects[h.id].state.Init? == s.cur[0].reason.Spawn?
    && GenMoves(s.bufs.gen, gen, s.conns.objects[h.id], c)
    && ConnOk(s.bufs.(gen := gen), c) && !c.state.Init?
    && forall op :: op in ops ==> op.handle == h && KindOk(s.bufs.(gen := gen), op.kind)
  }

  lemma MovedInv(s: Exec, c: Conn, gen: Gen, ops: seq<Op>)
    requires Inv(s) && s.cur != [] && CanMove(s, c, gen, ops)
    ensures Inv(Moved(s, c, gen, ops))
  {
    MovedTables(s, c, gen, ops);
    MovedAddressed(s, c, gen, ops);
    MovedHandlers(s, c, gen, ops);
    MovedBuffers(s, c, gen, ops);
    MovedOneSpawn(s, c, gen, ops);
  }

  lemma MovedTables(s: Exec, c: Conn, gen: Gen, ops: seq<Op>)
    requires Tables(s) && QuietStart(s) && s.cur != [] && CanMove(s, c, gen, ops)
    ensures Tables(Moved(s, c, gen, ops)) && QuietStart(Moved(s, c, gen, ops))
  {
  }

  lemma MovedOneSpawn(s: Exec, c: Conn, gen: Gen, ops: seq<Op>)
    requires Tables(s) && OneSpawn(s) && s.cur != [] && CanMove(s, c, gen, ops)
    ensures OneSpawn(Moved(s, c, gen, ops))
  {
    var s' := Moved(s, c, gen, ops);
    PendingAfter(s, s', [], []);
    var h := s.cur[0].handle;
    assert h == ConnHandle(h.id);
    forall x ensures Spawns(s', x) == if x in s'.conns.objects && s'.conns.objects[x].state.Init? then 1 else 0 {
      assert Spawns(s, x) == if x in s.conns.objects && s.conns.objects[x].state.Init? then 1 else 0;
    }
  }

  lemma MovedAddressed(s: Exec, c: Conn, gen: Gen, ops: seq<Op>)
    requires Tables(s) && Addressed(s) && s.cur != [] && CanMove(s, c, gen, ops)
    requires Tables(Moved(s, c, gen, ops))
    ensures Addressed(Moved(s, c, gen, ops))
  {
    var s' := Moved(s, c, gen, ops);
    PendingAfter(s, s', [], []);
    forall e | e in Pending(s') ensures EventOk(s', e) {
      assert EventOk(s, e);
    }
    forall op | op in s'.k.inflight ensures OpOk(s', op) {
      if op in s.k.inflight { assert OpOk(s, op); }
    }
  }

  lemma MovedHandlers(s: Exec, c: Conn, gen: Gen, ops: seq<Op>)
    requires Inv(s) && s.cur != [] && CanMove(s, c, gen, ops)
    ensures Handlers(Moved(s, c, gen, ops))
  {
    var s' := Moved(s, c, gen, ops);
    var id := s.cur[0].handle.id;
    PendingAfter(s, s', [], []);
    forall x | x in s'.conns.objects ensures ConnOk(s'.bufs, s'.conns.objects[x]) {
      if x != id {
        assert ConnOk(s.bufs, s.conns.objects[x]);
      }
    }
    forall x | x in s'.conns.objects && s'.conns.objects[x].state.Init? ensures Ios(s', x) == 0 {
      CountOpsAppend(s.k.inflight, ops, ConnHandle(x));
      CountOpsNone(ops, ConnHandle(x));
    }
  }

  lemma ReceiversHold(s: Exec)
    requires Handlers(s)
    ensures forall x :: x in Receivers(s.conns.objects) ==>
              s.conns.objects[x].buf.Some? && s.bufs.gen.Live(s.conns.objects[x].buf.value)
  {
    forall x | x in Receivers(s.conns.objects)
      ensures s.conns.objects[x].buf.Some? && s.bufs.gen.Live(s.conns.objects[x].buf.value)
    {
      assert ConnOk(s.bufs, s.conns.objects[x]);
    }
  }

  lemma MovedBuffers(s: Exec, c: Conn, gen: Gen, ops: seq<Op>)
    requires Tables(s) && Handlers(s) && Buffers(s) && s.cur != [] && CanMove(s, c, gen, ops)
    ensures Buffers(Moved(s, c, gen, ops))
  {
    var id := s.cur[0].handle.id;
    ReceiversHold(s);
    OwnBuffersUpdate(s.conns.objects, s.bufs.gen, id, c, gen);
  }

  lemma OwnBuffersUpdate(conns: map<GenId, Conn>, gen: Gen, id: GenId, c: Conn, gen': Gen)
    requires OwnBuffers(conns, gen) && id in conns && GenMoves(gen, gen', conns[id], c)
    requires forall x :: x in Receivers(conns) ==> conns[x].buf.Some? && gen.Issued(conns[x].buf.value)
    ensures OwnBuffers(conns[id := c], gen')
  {
    var was := conns[id];
    if was.state.Init? {
      assert Receivers(conns[id := c]) == Receivers(conns) + {id};
      assert forall x :: x in Receivers(conns) ==> conns[x].buf != c.buf;
    } else if was.state.Recv? && c.state.Closing? {
      assert Receivers(conns[id := c]) == Receivers(conns) - {id};
    } else {
      assert Receivers(conns[id := c]) == Receivers(conns);
    }
  }

  // ---------- Steps that leave the buffers alone ----------

  ghost predicate Outlives(s: Exec, s': Exec)
    requires Tables(s) && Tables(s')
  {
    && s'.bufs.gen == s.bufs.gen
    && (forall id :: s.conns.gen.Issued(id) ==> s'.conns.gen.Issued(id))
    && s'.ListenerId() == s.ListenerId()
    && (s.listeners.objects[s.ListenerId()].state.Init? ==> s'.listeners.objects[s.ListenerId()].state.Init?)
  }

  lemma AddressedKept(s: Exec, s': Exec)
    requires Tables(s) && Tables(s') && Addressed(s) && Outlives(s, s')
    requires forall e :: e in Pending(s') ==> e in Pending(s) || EventOk(s', e)
    requires forall op :: op in s'.k.inflight ==> op in s.k.inflight || OpOk(s', op)
    requires forall e :: e in s'.k.cq ==> e.reason.IoCompleted?
    requires s'.cur != [] ==> forall e :: e in s'.next ==> e.reason.Spawn?
    ensures Addressed(s')
  {
    forall e | e in Pending(s') ensures EventOk(s', e) {
      if e in Pending(s) { assert EventOk(s, e); }
    }
    forall op | op in s'.k.inflight ensures OpOk(s', op) {
      if op in s.k.inflight { assert OpOk(s, op); }
    }
  }

  lemma HandlersKept(s: Exec, s': Exec)
    requires Tables(s) && Tables(s') && Handlers(s) && Buffers(s) && Outlives(s, s')
    requires forall id :: id in s'.conns.objects ==>
               if id in s.conns.objects then s'.conns.objects[id] == s.conns.objects[id] && Ios(s', id) <= Ios(s, id)
               else s'.conns.objects[id].buf.None? && s'.conns.objects[id].offset == 0
                    && s'.conns.objects[id].state.Init? && Ios(s', id) == 0
    requires forall id :: id in s.conns.objects && s.conns.objects[id].state.Recv? ==> id in s'.conns.objects
    ensures Handlers(s') && Buffers(s')
  {
    forall id | id in s'.conns.objects ensures ConnOk(s'.bufs, s'.conns.objects[id]) {
      if id in s.conns.objects { assert ConnOk(s.bufs, s.conns.objects[id]); }
    }
    assert Receivers(s'.conns.objects) == Receivers(s.conns.objects);
  }

  // ---------- Dispatch: a handler retries or ends ----------

  function Retried(s: Exec): Exec
    requires s.cur != []
  {
    s.(cur := s.cur[1..], next := s.next + [SpawnEvent(s.cur[0].handle)])
  }

  /** Queued spawns are for distinct live handlers. */
  lemma SpawnsFit(s: Exec, q: seq<Event>)
    requires Tables(s) && OneSpawn(s)
    requires forall e :: e in q ==> e.reason.Spawn? && e.handle.poolId == CONN_HANDLER
    requires forall id :: Count(q, ConnHandle(id), true) <= Spawns(s, id)
    ensures |q| <= |s.conns.objects| <= s.N()
  {
    SpawnsOnly(q);
    forall id ensures Count(q, ConnHandle(id), true) + Count(q, ConnHandle(id), false) <= 1 {
      assert Spawns(s, id) <= 1;
    }
    ConnIdsDistinct(q);
    forall i | 0 <= i < |ConnIds(q)| ensures ConnIds(q)[i] in s.conns.objects.Keys {
      ConnIdsMember(q, ConnIds(q)[i]);
      assert Spawns(s, ConnIds(q)[i]) >= 1;
    }
    DistinctBound(ConnIds(q), s.conns.objects.Keys);
    PoolBound(s.conns);
  }

  lemma {:induction false} SpawnsOnly(q: seq<Event>)
    requires forall e :: e in q ==> e.reason.Spawn? && e.handle.poolId == CONN_HANDLER
    ensures |ConnIds(q)| == |q|
    ensures forall h :: Count(q, h, false) == 0
  {
    if q != [] {
      assert q[0] in q;
      SpawnsOnly(q[1..]);
    }
  }

  /** While the current queue drains the next one holds spawns of handlers only, besides the head's. */
  lemma NextIsSpawns(s: Exec)
    requires Tables(s) && QuietStart(s) && Addressed(s) && s.cur != []
    ensures forall e :: e in s.next ==> e.reason.Spawn? && e.handle.poolId == CONN_HANDLER
    ensures forall id :: Hits(s.cur[0], ConnHandle(id), true) + Count(s.next, ConnHandle(id), true) <= Spawns(s, id)
  {
    var front := [s.cur[0]];
    assert Pending(s) == front + (s.cur[1..] + (s.next + s.k.cq));
    forall e | e in s.next ensures e.reason.Spawn? && e.handle.poolId == CONN_HANDLER {
      assert EventOk(s, e) by { assert e in Pending(s); }
      assert |Pending(s)| >= 2;
    }
    forall id ensures Hits(s.cur[0], ConnHandle(id), true) + Count(s.next, ConnHandle(id), true) <= Spawns(s, id) {
      var h := ConnHandle(id);
      CountAppend(front, s.cur[1..] + (s.next + s.k.cq), h, true);
      CountAppend(s.cur[1..], s.next + s.k.cq, h, true);
      CountAppend(s.next, s.k.cq, h, true);
      assert Count(front, h, true) == Hits(s.cur[0], h, true);
    }
  }

  /** `Retry` finds room. */
  lemma RetryFits(s: Exec)
    requires Inv(s) && s.cur != [] && s.cur[0].handle.poolId == CONN_HANDLER && s.cur[0].reason.Spawn?
    ensures |s.next| < s.N()
  {
    NextIsSpawns(s);
    var q := [s.cur[0]] + s.next;
    forall id ensures Count(q, ConnHandle(id), true) <= Spawns(s, id) {
      assert q[1..] == s.next;
    }
    SpawnsFit(s, q);
  }

  lemma RetriedInv(s: Exec)
    requires Inv(s) && s.cur != [] && s.cur[0].handle.poolId == CONN_HANDLER && s.cur[0].reason.Spawn?
    ensures Inv(Retried(s))
  {
    var s' := Retried(s);
    RetryFits(s);
    RetriedCounts(s);
    assert s.cur[0] in Pending(s);
    assert EventOk(s, s.cur[0]);
    AddressedKept(s, s');
    HandlersKept(s, s');
    OneSpawnKept(s, s');
  }

  /** The event has only moved to the next queue. */
  lemma RetriedCounts(s: Exec)
    requires s.cur != [] && s.cur[0].reason.Spawn?
    ensures forall x :: Spawns(Retried(s), x) == Spawns(s, x) && Ios(Retried(s), x) == Ios(s, x)
    ensures forall e :: e in Pending(Retried(s)) ==> e in Pending(s) || e == SpawnEvent(s.cur[0].handle)
  {
    var s' := Retried(s);
    var e := s.cur[0];
    PendingAfter(s, s', [], [SpawnEvent(e.handle)]);
    forall h, spawn ensures Count(Pending(s'), h, spawn) == Count(Pending(s), h, spawn) {
      assert Count([SpawnEvent(e.handle)], h, spawn) == Hits(e, h, spawn);
    }
  }

  function Ended(s: Exec, gen: Gen): Exec
    requires s.cur != []
  {
    s.(cur := s.cur[1..], conns := Pool(gen, s.conns.objects - {s.cur[0].handle.id}))
  }

  ghost predicate CanEnd(s: Exec) {
    && s.cur != [] && s.cur[0].handle.poolId == CONN_HANDLER && s.cur[0].reason.IoCompleted?
    && s.cur[0].handle.id in s.conns.objects
    && s.conns.objects[s.cur[0].handle.id].state.Closing?
    && s.conns.gen.Free(s.cur[0].handle.id).1 == Freed
  }

  lemma EndedInv(s: Exec)
    requires Inv(s) && CanEnd(s)
    ensures Inv(Ended(s, s.conns.gen.Free(s.cur[0].handle.id).0))
  {
    var s' := Ended(s, s.conns.gen.Free(s.cur[0].handle.id).0);
    EndedTables(s);
    PendingAfter(s, s', [], []);
    hide KindOk, ConnOk, Outlives;
    AddressedKept(s, s');
    EndedHandlers(s, s');
  }

  lemma EndedHandlers(s: Exec, s': Exec)
    requires Inv(s) && CanEnd(s) && s' == Ended(s, s.conns.gen.Free(s.cur[0].handle.id).0)
    requires Tables(s') && Outlives(s, s')
    ensures Handlers(s') && Buffers(s') && OneSpawn(s')
  {
    hide Tables, QuietStart, Addressed, ConnOk, Outlives, OwnBuffers;
    PendingAfter(s, s', [], []);
    forall x ensures Spawns(s', x) == Spawns(s, x) && Ios(s', x) <= Ios(s, x) {}
    OneSpawnKept(s, s');
    HandlersKept(s, s');
  }

  lemma OneSpawnKept(s: Exec, s': Exec)
    requires OneSpawn(s)
    requires forall id :: Spawns(s', id) == Spawns(s, id)
    requires forall id :: (id in s'.conns.objects && s'.conns.objects[id].state.Init?)
                     <==> (id in s.conns.objects && s.conns.objects[id].state.Init?)
    ensures OneSpawn(s')
  {
    forall x ensures Spawns(s', x) == if x in s'.conns.objects && s'.conns.objects[x].state.Init? then 1 else 0 {
      assert Spawns(s, x) == if x in s.conns.objects && s.conns.objects[x].state.Init? then 1 else 0;
    }
  }

  lemma EndedTables(s: Exec)
    requires Tables(s) && CanEnd(s)
    ensures var s' := Ended(s, s.conns.gen.Free(s.cur[0].handle.id).0); Tables(s') && Outlives(s, s')
  {
    var id := s.cur[0].handle.id;
    FreeIssued(s.conns.gen, id);
    assert Ended(s, s.conns.gen.Free(id).0).conns.Wf();
  }

  // ---------- Dispatch: an event nobody acts on ----------

  function Dropped(s: Exec): Exec
    requires s.cur != []
  {
    s.(cur := s.cur[1..])
  }

  lemma DroppedInv(s: Exec)
    requires Inv(s) && s.cur != []
    requires s.listeners.objects[s.ListenerId()].state != TcpState.Init
    requires s.cur[0].handle.poolId == CONN_HANDLER ==> s.cur[0].handle.id !in s.conns.objects
    ensures Inv(Dropped(s))
  {
    var s' := Dropped(s);
    PendingAfter(s, s', [], []);
    DroppedCounts(s);
    AddressedKept(s, s');
    HandlersKept(s, s');
  }

  lemma DroppedCounts(s: Exec)
    requires Tables(s) && Addressed(s) && OneSpawn(s) && s.cur != []
    requires s.listeners.objects[s.ListenerId()].state != TcpState.Init
    requires s.cur[0].handle.poolId == CONN_HANDLER ==> s.cur[0].handle.id !in s.conns.objects
    ensures forall x :: Spawns(Dropped(s), x) == Spawns(s, x) && Ios(Dropped(s), x) <= Ios(s, x)
  {
    var s' := Dropped(s);
    var e := s.cur[0];
    PendingAfter(s, s', [], []);
    CountMember(Pending(s), e);
    assert EventOk(s, e);
    forall x ensures Spawns(s', x) == Spawns(s, x) && Ios(s', x) <= Ios(s, x) {
      if e.handle == ConnHandle(x) { assert Spawns(s, x) == 0; }
    }
  }

  // ---------- Dispatch: the listener ----------

  function ListenerSet(s: Exec, t: TcpServer): Exec
    requires 0 < |s.listeners.gen.generation|
  {
    s.(listeners := s.listeners.Put(s.ListenerId(), t))
  }

  lemma ListenerSetInv(s: Exec, t: TcpServer)
    requires Inv(s) && !t.state.Init? && !s.listeners.objects[s.ListenerId()].state.Init?
    ensures Inv(ListenerSet(s, t))
  {
    var s' := ListenerSet(s, t);
    assert Pending(s') == Pending(s);
    assert s'.listeners.objects.Keys == s.listeners.objects.Keys;
    forall e | e in Pending(s') ensures EventOk(s', e) { assert EventOk(s, e); }
    forall op | op in s'.k.inflight ensures OpOk(s', op) { assert OpOk(s, op); }
    forall x ensures Spawns(s', x) == Spawns(s, x) && Ios(s', x) == Ios(s, x) {}
  }

  /** The only event of a listener in `Init` is its spawn, before anything else happens. */
  lemma ListenerStartsInv(s: Exec, t: TcpServer)
    requires Inv(s) && s.cur != [] && !t.state.Init? && s.listeners.objects[s.ListenerId()].state.Init?
    ensures Inv(ListenerSet(Dropped(s), t)) && s.cur[0] == SpawnEvent(ObjectHandle(TCP_SERVER, s.ListenerId()))
  {
    var s' := ListenerSet(Dropped(s), t);
    assert s.cur + s.next + s.k.cq == Pending(s);
    assert s.cur[0] == Pending(s)[0];
    assert Pending(s') == [];
    assert s'.listeners.objects.Keys == s.listeners.objects.Keys;
    assert Receivers(s'.conns.objects) == {};
  }

  lemma AcceptSubmittedInv(s: Exec, fd: int)
    requires Inv(s) && !s.listeners.objects[s.ListenerId()].state.Init?
    ensures Inv(Submit(s, Op(ObjectHandle(TCP_SERVER, s.ListenerId()), Accept(fd))))
  {
    var op := Op(ObjectHandle(TCP_SERVER, s.ListenerId()), Accept(fd));
    var s' := Submit(s, op);
    assert Pending(s') == Pending(s);
    forall x ensures Ios(s', x) == Ios(s, x) {
      CountOpsAppend(s.k.inflight, [op], ConnHandle(x));
    }
    forall e | e in Pending(s') ensures EventOk(s', e) { assert EventOk(s, e); }
    forall o | o in s'.k.inflight ensures OpOk(s', o) { if o in s.k.inflight { assert OpOk(s, o); } }
    forall x ensures Spawns(s', x) == Spawns(s, x) {}
  }

  lemma SpawnHandlerInv(s: Exec, fd: nat)
    requires Inv(s) && !s.listeners.objects[s.ListenerId()].state.Init?
    requires forall e :: e in s.next ==> e.reason.Spawn?
    requires SpawnHandler(s, fd).Ok?
    ensures Inv(SpawnHandler(s, fd).value)
  {
    var s' := SpawnHandler(s, fd).value;
    var id := s.conns.gen.Alloc().1.value;
    SpawnHandlerTables(s, fd);
    PendingWith(s, s', SpawnEvent(ConnHandle(id)));
    hide KindOk, ConnOk, OwnBuffers;
    AddressedKept(s, s');
    SpawnHandlerHandlers(s, s', id);
  }

  lemma SpawnHandlerHandlers(s: Exec, s': Exec, id: GenId)
    requires Inv(s) && Tables(s') && Outlives(s, s') && !s.conns.gen.Issued(id) && id !in s.conns.objects
    requires id in s'.conns.objects && s'.conns.objects == s.conns.objects[id := s'.conns.objects[id]]
    requires exists fd :: s'.conns.objects[id] == NewConn(fd)
    requires s'.cur == s.cur + [SpawnEvent(ConnHandle(id))] && s'.next == s.next && s'.k == s.k
    ensures Handlers(s') && Buffers(s') && OneSpawn(s')
  {
    hide QuietStart, ConnOk, OwnBuffers;
    PendingWith(s, s', SpawnEvent(ConnHandle(id)));
    NeverHeardOf(s, id);
    hide Tables, Addressed, Outlives;
    forall x ensures Spawns(s', x) == Spawns(s, x) + (if x == id then 1 else 0) && Ios(s', x) == Ios(s, x) {}
    HandlersKept(s, s');
    forall x ensures Spawns(s', x) == if x in s'.conns.objects && s'.conns.objects[x].state.Init? then 1 else 0 {
      assert Spawns(s, x) == if x in s.conns.objects && s.conns.objects[x].state.Init? then 1 else 0;
    }
  }

  lemma SpawnHandlerTables(s: Exec, fd: nat)
    requires Tables(s) && SpawnHandler(s, fd).Ok?
    ensures var id := s.conns.gen.Alloc().1;
      var s' := SpawnHandler(s, fd).value;
      && id.Some? && !s.conns.gen.Issued(id.value) && id.value !in s.conns.objects
      && Tables(s') && Outlives(s, s') && s'.conns.gen.Issued(id.value)
  {
    AllocFresh(s.conns.gen);
    assert SpawnHandler(s, fd).value.conns.Wf();
  }

  lemma PendingWith(s: Exec, s': Exec, e: Event)
    requires s'.cur == s.cur + [e] && s'.next == s.next && s'.k.cq == s.k.cq
    ensures forall h, spawn :: Count(Pending(s'), h, spawn) == Count(Pending(s), h, spawn) + Hits(e, h, spawn)
    ensures forall x :: x in Pending(s') <==> x in Pending(s) || x == e
  {
    forall h, spawn ensures Count(Pending(s'), h, spawn) == Count(Pending(s), h, spawn) + Hits(e, h, spawn) {
      CountAppend(s'.cur + s.next, s.k.cq, h, spawn);
      CountAppend(s'.cur, s.next, h, spawn);
      CountAppend(s.cur, [e], h, spawn);
      CountAppend(s.cur + s.next, s.k.cq, h, spawn);
      CountAppend(s.cur, s.next, h, spawn);
    }
  }

  /** Nothing pending names an id the pool has not issued yet. */
  lemma NeverHeardOf(s: Exec, id: GenId)
    requires Tables(s) && Addressed(s) && !s.conns.gen.Issued(id)
    ensures Spawns(s, id) == 0 && Ios(s, id) == 0
  {
    forall e | e in Pending(s) ensures e.handle != ConnHandle(id) { assert EventOk(s, e); }
    forall op | op in s.k.inflight ensures op.handle != ConnHandle(id) { assert OpOk(s, op); }
    CountNone(Pending(s), ConnHandle(id), true);
    CountNone(Pending(s), ConnHandle(id), false);
    CountOpsNone(s.k.inflight, ConnHandle(id));
  }
}
