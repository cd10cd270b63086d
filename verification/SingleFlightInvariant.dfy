/** What every single-flight run keeps besides. */
module SingleFlightInvariant {
  import opened Wrappers
  import opened GenAllocSpec
  import opened MachineSpecs
  import opened ExecutorModel
  import opened EventCounts
  import opened ExecutorInvariant
  import opened ExecutorSteps
  import opened Weights

  /** The request is the one its handler is waiting for. */
  ghost predicate Awaited(s: Exec, id: GenId, kind: OpKind) {
    && id in s.conns.objects
    && var c := s.conns.objects[id];
       match kind
       case Accept(_) => false
       case Recv(fd, b, offset, _) => c.state.Recv? && c.socket == fd && c.buf == Some(b) && c.offset == offset
       case Close(fd) => c.state.Closing? && c.socket == fd
  }

  /** What the kernel has answered so far, seen from the one request. */
  ghost predicate InStep(s: Exec, id: GenId, kind: OpKind, got: nat) {
    kind.Recv? ==> |s.k.Received(id)| == kind.offset + got
  }

  ghost predicate IsConnIo(e: Event) {
    e.reason.IoCompleted? && e.handle.poolId == CONN_HANDLER
  }

  ghost predicate EventAwaited(s: Exec, e: Event) {
    && e.reason.IoCompleted? && e.origin.Some? && Awaited(s, e.handle.id, e.origin.value)
    && InStep(s, e.handle.id, e.origin.value, Max(0, e.reason.res))
    && (e.origin.value.Recv? ==> !Doubling(e.reason.res))
  }

  ghost predicate Matching(s: Exec) {
    && (forall op :: op in s.k.inflight && op.handle.poolId == CONN_HANDLER ==>
                       Awaited(s, op.handle.id, op.kind) && InStep(s, op.handle.id, op.kind, 0))
    && (forall e :: e in Pending(s) && IsConnIo(e) ==> EventAwaited(s, e))
  }

  /** Exactly one operation in flight or queued for each handler in `Recv` or `Closing`, none else. */
  ghost predicate OneRequest(s: Exec) {
    forall id :: Ios(s, id) == if id in s.conns.objects && !s.conns.objects[id].state.Init? then 1 else 0
  }

  ghost predicate Capacity(s: Exec) {
    && |s.conns.objects| + Peak(Pending(s)) <= s.files
    && |s.conns.objects| + Net(Pending(s)) <= |s.k.open|
  }

  /** The buffer starts with every byte received, and the phase is what the bytes processed so far say. */
  ghost predicate StreamOk(s: Exec, id: GenId)
    requires id in s.conns.objects
  {
    var c := s.conns.objects[id];
    var got := s.k.Received(id);
    match c.state
    case Init => got == []
    case Recv(phase) =>
      && c.offset <= |got|
      && c.buf.Some? && c.buf.value.index < |s.bufs.mem|
      && |got| <= |s.bufs.mem[c.buf.value.index]|
      && s.bufs.mem[c.buf.value.index][..|got|] == got
      && phase == PhaseAfter(got, c.offset)
    case _ => true
  }

  ghost predicate Streams(s: Exec) {
    && (forall id :: id in s.conns.objects ==> StreamOk(s, id))
    && (forall id :: id in s.k.stream ==> s.conns.gen.Issued(id))
  }

  ghost predicate SF(s: Exec) {
    Inv(s) && Matching(s) && OneRequest(s) && Capacity(s) && Streams(s)
  }

  // ---------- A handler moves ----------

  ghost predicate MovesSingly(s: Exec, c: Conn, gen: Gen, op: Op)
    requires Tables(s) && s.cur != []
  {
    && CanMove(s, c, gen, [op])
    && Weight(s.cur[0]) == 0
    && Awaited(Moved(s, c, gen, [op]), s.cur[0].handle.id, op.kind) && InStep(s, s.cur[0].handle.id, op.kind, 0)
    && StreamOk(Moved(s, c, gen, [op]), s.cur[0].handle.id)
  }

  /** Once the head is popped nothing else concerns its handler. */
  lemma HeadIsAlone(s: Exec)
    requires Tables(s) && OneSpawn(s) && Handlers(s) && OneRequest(s) && ForHandler(s)
    ensures forall e :: e in s.cur[1..] + s.next + s.k.cq ==> e.handle == s.cur[0].handle ==> e.reason.Spawn?
    ensures forall op :: op in s.k.inflight ==> op.handle != s.cur[0].handle
    ensures Count(Pending(s), s.cur[0].handle, false) == (if s.cur[0].reason.Spawn? then 0 else 1)
    ensures CountOps(s.k.inflight, s.cur[0].handle) == 0
  {
    hide Tables, Handlers;
    var h := s.cur[0].handle;
    var rest := s.cur[1..] + s.next + s.k.cq;
    assert h == ConnHandle(h.id);
    assert Pending(s) == [s.cur[0]] + rest;
    CountAppend([s.cur[0]], rest, h, false);
    CountAppend([s.cur[0]], rest, h, true);
    assert Count([s.cur[0]], h, true) == Hits(s.cur[0], h, true);
    assert Count([s.cur[0]], h, false) == Hits(s.cur[0], h, false);
    assert Spawns(s, h.id) <= 1;
    assert Ios(s, h.id) == if Head(s).state.Init? then 0 else 1;
    forall e | e in rest && e.handle == h ensures e.reason.Spawn? {
      CountMember(rest, e);
    }
    forall op | op in s.k.inflight ensures op.handle != h {
      if op.handle == h { CountOpsMember(s.k.inflight, op); }
    }
  }

  lemma MovedSF(s: Exec, c: Conn, gen: Gen, op: Op)
    requires SF(s) && s.cur != [] && MovesSingly(s, c, gen, op)
    ensures SF(Moved(s, c, gen, [op]))
  {
    MovedInv(s, c, gen, [op]);
    MovedMatching(s, c, gen, op);
    MovedOneRequest(s, c, gen, op);
    MovedCapacity(s, c, gen, op);
    MovedStreams(s, c, gen, op);
  }

  lemma MovedMatching(s: Exec, c: Conn, gen: Gen, op: Op)
    requires SF(s) && s.cur != [] && MovesSingly(s, c, gen, op)
    ensures Matching(Moved(s, c, gen, [op]))
  {
    hide QuietStart, Handlers, Buffers, Addressed, Capacity, Streams;
    var s' := Moved(s, c, gen, [op]);
    HeadIsAlone(s);
    forall e | e in Pending(s') && IsConnIo(e) ensures EventAwaited(s', e) {
      assert e in s.cur[1..] + s.next + s.k.cq;
      assert e in Pending(s);
      assert EventAwaited(s, e);
    }
    forall o | o in s'.k.inflight && o.handle.poolId == CONN_HANDLER
      ensures Awaited(s', o.handle.id, o.kind) && InStep(s', o.handle.id, o.kind, 0)
    {
      if o in s.k.inflight { assert Awaited(s, o.handle.id, o.kind) && InStep(s, o.handle.id, o.kind, 0); }
    }
  }

  lemma MovedOneRequest(s: Exec, c: Conn, gen: Gen, op: Op)
    requires SF(s) && s.cur != [] && MovesSingly(s, c, gen, op)
    ensures OneRequest(Moved(s, c, gen, [op]))
  {
    hide QuietStart, Handlers, Buffers, Addressed, Capacity, Streams;
    var s' := Moved(s, c, gen, [op]);
    HeadIsAlone(s);
    PendingAfter(s, s', [], []);
    var h := s.cur[0].handle;
    assert h == ConnHandle(h.id);
    forall id ensures Ios(s', id) == if id in s'.conns.objects && !s'.conns.objects[id].state.Init? then 1 else 0 {
      CountOpsAppend(s.k.inflight, [op], ConnHandle(id));
      assert Ios(s, id) == if id in s.conns.objects && !s.conns.objects[id].state.Init? then 1 else 0;
    }
  }

  lemma MovedCapacity(s: Exec, c: Conn, gen: Gen, op: Op)
    requires Capacity(s) && ForHandler(s) && Weight(s.cur[0]) == 0
    ensures Capacity(Moved(s, c, gen, [op]))
  {
    var s' := Moved(s, c, gen, [op]);
    assert Pending(s) == [s.cur[0]] + Pending(s');
    assert s'.conns.objects.Keys == s.conns.objects.Keys;
  }

  lemma MovedStreams(s: Exec, c: Conn, gen: Gen, op: Op)
    requires Tables(s) && Streams(s) && s.cur != [] && MovesSingly(s, c, gen, op)
    ensures Streams(Moved(s, c, gen, [op]))
  {
    var s' := Moved(s, c, gen, [op]);
    forall id | id in s'.conns.objects ensures StreamOk(s', id) {
      if id != s.cur[0].handle.id { assert StreamOk(s, id); }
    }
  }

  // ---------- The other outcomes of an event ----------

  /** The state changed only in ways that no request, buffer or stream of a surviving handler sees. */
  ghost predicate Undisturbed(s: Exec, s': Exec) {
    && s'.k.stream == s.k.stream && s'.k.open == s.k.open && s'.bufs == s.bufs
    && (forall e :: e in Pending(s') && IsConnIo(e) ==> e in Pending(s) && e.handle.id in s'.conns.objects)
    && (forall op :: op in s'.k.inflight && op.handle.poolId == CONN_HANDLER ==>
          op in s.k.inflight && op.handle.id in s'.conns.objects)
    && (forall id :: id in s'.conns.objects ==>
          if id in s.conns.objects then s'.conns.objects[id] == s.conns.objects[id]
          else s'.conns.objects[id].state.Init? && !s.conns.gen.Issued(id))
    && (forall id :: s.conns.gen.Issued(id) ==> s'.conns.gen.Issued(id))
  }

  lemma UndisturbedSF(s: Exec, s': Exec)
    requires Matching(s) && Streams(s) && Inv(s') && Undisturbed(s, s') && Capacity(s') && OneRequest(s')
    ensures SF(s')
  {
    UndisturbedMatching(s, s');
    UndisturbedStreams(s, s');
  }

  lemma UndisturbedMatching(s: Exec, s': Exec)
    requires Matching(s) && Undisturbed(s, s')
    ensures Matching(s')
  {
    forall e | e in Pending(s') && IsConnIo(e) ensures EventAwaited(s', e) {
      assert EventAwaited(s, e);
    }
    forall op | op in s'.k.inflight && op.handle.poolId == CONN_HANDLER
      ensures Awaited(s', op.handle.id, op.kind) && InStep(s', op.handle.id, op.kind, 0)
    {
      assert Awaited(s, op.handle.id, op.kind) && InStep(s, op.handle.id, op.kind, 0);
    }
  }

  lemma UndisturbedStreams(s: Exec, s': Exec)
    requires Streams(s) && Undisturbed(s, s')
    ensures Streams(s')
  {
    forall id | id in s'.conns.objects ensures StreamOk(s', id) {
      if id in s.conns.objects { assert StreamOk(s, id); }
    }
  }

  /** Requests and completions of handlers that are still there. */
  lemma StillLive(s: Exec, s': Exec, gone: set<GenId>)
    requires Matching(s)
    requires forall id :: id in s.conns.objects && id !in gone ==> id in s'.conns.objects
    requires forall e :: e in Pending(s') && IsConnIo(e) ==> e in Pending(s) && e.handle.id !in gone
    requires forall op :: op in s'.k.inflight && op.handle.poolId == CONN_HANDLER ==>
                            op in s.k.inflight && op.handle.id !in gone
    ensures forall e :: e in Pending(s') && IsConnIo(e) ==> e.handle.id in s'.conns.objects
    ensures forall op :: op in s'.k.inflight && op.handle.poolId == CONN_HANDLER ==> op.handle.id in s'.conns.objects
  {
    forall e | e in Pending(s') && IsConnIo(e) ensures e.handle.id in s'.conns.objects { assert EventAwaited(s, e); }
    forall op | op in s'.k.inflight && op.handle.poolId == CONN_HANDLER ensures op.handle.id in s'.conns.objects {
      assert Awaited(s, op.handle.id, op.kind);
    }
  }

  lemma RetriedSF(s: Exec)
    requires SF(s) && ForHandler(s) && s.cur[0].reason.Spawn?
    ensures SF(Retried(s))
  {
    RetriedInv(s);
    RetriedQuiet(s);
    UndisturbedSF(s, Retried(s));
  }

  lemma RetriedQuiet(s: Exec)
    requires Matching(s) && OneRequest(s) && Capacity(s) && ForHandler(s) && s.cur[0].reason.Spawn?
    ensures Undisturbed(s, Retried(s)) && OneRequest(Retried(s)) && Capacity(Retried(s))
  {
    var s' := Retried(s);
    var again := SpawnEvent(s.cur[0].handle);
    PendingAfter(s, s', [], [again]);
    StillLive(s, s', {});
    SameRequests(s, s') by {
      forall id ensures Ios(s', id) == Ios(s, id) { assert Count([again], ConnHandle(id), false) == 0; }
    }
    var front := s.cur[1..] + s.next;
    assert Pending(s') == front + [again] + s.k.cq;
    assert Pending(s) == [s.cur[0]] + (front + s.k.cq);
    WeightlessInsert(front, again, s.k.cq);
  }

  /** As many requests for every handler, and no handler other than in `Init` comes or goes. */
  lemma SameRequests(s: Exec, s': Exec)
    requires OneRequest(s)
    requires forall id :: Ios(s', id) == Ios(s, id)
    requires forall id :: (id in s'.conns.objects && !s'.conns.objects[id].state.Init?)
                     <==> (id in s.conns.objects && !s.conns.objects[id].state.Init?)
    ensures OneRequest(s')
  {
    forall id ensures Ios(s', id) == if id in s'.conns.objects && !s'.conns.objects[id].state.Init? then 1 else 0 {
      assert Ios(s, id) == if id in s.conns.objects && !s.conns.objects[id].state.Init? then 1 else 0;
    }
  }

  lemma EndedSF(s: Exec)
    requires SF(s) && CanEnd(s) && s.cur[0].reason.res == 0
    ensures SF(Ended(s, s.conns.gen.Free(s.cur[0].handle.id).0))
  {
    EndedInv(s);
    EndedUndisturbed(s);
    EndedCapacity(s);
    EndedOneRequest(s);
    UndisturbedSF(s, Ended(s, s.conns.gen.Free(s.cur[0].handle.id).0));
  }

  lemma EndedOneRequest(s: Exec)
    requires SF(s) && CanEnd(s)
    ensures OneRequest(Ended(s, s.conns.gen.Free(s.cur[0].handle.id).0))
  {
    hide QuietStart, Handlers, OneSpawn, Buffers, Addressed, Capacity, Streams, Matching;
    var h := s.cur[0].handle;
    var s' := Ended(s, s.conns.gen.Free(h.id).0);
    HeadIsAlone(s);
    PendingAfter(s, s', [], []);
    assert h == ConnHandle(h.id);
    forall id ensures Ios(s', id) == if id in s'.conns.objects && !s'.conns.objects[id].state.Init? then 1 else 0 {
      assert Ios(s, id) == if id in s.conns.objects && !s.conns.objects[id].state.Init? then 1 else 0;
    }
  }

  lemma EndedUndisturbed(s: Exec)
    requires Tables(s) && OneSpawn(s) && Handlers(s) && OneRequest(s) && Matching(s) && CanEnd(s)
    ensures Undisturbed(s, Ended(s, s.conns.gen.Free(s.cur[0].handle.id).0))
  {
    var h := s.cur[0].handle;
    var s' := Ended(s, s.conns.gen.Free(h.id).0);
    HeadIsGone(s, s');
    FreeIssued(s.conns.gen, h.id);
    PendingAfter(s, s', [], []);
    hide OneSpawn, Handlers, OneRequest, Matching, Tables;
    StillLive(s, s', {h.id});
  }

  /** No other event and no request names the handler that was told of its request's completion. */
  lemma HeadIsGone(s: Exec, s': Exec)
    requires Tables(s) && OneSpawn(s) && Handlers(s) && OneRequest(s) && ForHandler(s)
    requires s'.cur == s.cur[1..] && s'.next == s.next && s'.k == s.k
    ensures forall e :: e in Pending(s') && IsConnIo(e) ==> e.handle.id != s.cur[0].handle.id
    ensures forall op :: op in s'.k.inflight && op.handle.poolId == CONN_HANDLER ==> op.handle.id != s.cur[0].handle.id
  {
    HeadIsAlone(s);
    var h := s.cur[0].handle;
    assert h == ConnHandle(h.id);
    forall e | e in Pending(s') && IsConnIo(e) ensures e.handle.id != h.id {
      assert e.handle == ConnHandle(e.handle.id);
    }
    forall op | op in s'.k.inflight && op.handle.poolId == CONN_HANDLER ensures op.handle.id != h.id {
      assert op.handle == ConnHandle(op.handle.id);
    }
  }

  lemma EndedCapacity(s: Exec)
    requires Tables(s) && Matching(s) && Capacity(s) && CanEnd(s) && s.cur[0].reason.res == 0
    ensures Capacity(Ended(s, s.conns.gen.Free(s.cur[0].handle.id).0))
  {
    var h := s.cur[0].handle;
    var s' := Ended(s, s.conns.gen.Free(h.id).0);
    assert EventAwaited(s, s.cur[0]) by { assert s.cur[0] in Pending(s); }
    assert Weight(s.cur[0]) == -1;
    assert Pending(s) == [s.cur[0]] + Pending(s');
    assert s'.conns.objects.Keys == s.conns.objects.Keys - {h.id};
    assert |s'.conns.objects.Keys| == |s.conns.objects.Keys| - 1;
    FreeIssued(s.conns.gen, h.id);
  }

  /** The listener's own events carry no handler with them. */
  lemma ListenerDroppedSF(s: Exec, t: TcpServer)
    requires SF(s) && ForListener(s) && !t.state.Init? && Weight(s.cur[0]) == 0
    ensures SF(ListenerSet(Dropped(s), t))
  {
    ListenerEvent(s);
    if Server(s).state.Init? {
      ListenerStartsInv(s, t);
    } else {
      DroppedInv(s);
      ListenerSetInv(Dropped(s), t);
    }
    DroppedQuietly(s, ListenerSet(Dropped(s), t));
  }

  lemma DroppedQuietly(s: Exec, s': Exec)
    requires SF(s) && s.cur != [] && s.cur[0].handle.poolId == TCP_SERVER && 0 <= Weight(s.cur[0])
    requires s'.cur == s.cur[1..] && s'.next == s.next && s'.k == s.k && s'.bufs == s.bufs && s'.conns == s.conns
    requires s'.files == s.files
    requires Inv(s')
    ensures SF(s')
    ensures |s.conns.objects| + Weight(s.cur[0]) + Peak(Pending(s')) <= s.files
    ensures |s.conns.objects| + Weight(s.cur[0]) + Net(Pending(s')) <= |s.k.open|
  {
    hide Tables, QuietStart, Addressed, Handlers, OneSpawn, Buffers, Matching, OneRequest, Streams, Undisturbed;
    DroppedUndisturbed(s, s');
    assert Pending(s) == [s.cur[0]] + Pending(s');
    UndisturbedSF(s, s');
  }

  lemma DroppedUndisturbed(s: Exec, s': Exec)
    requires Matching(s) && OneRequest(s) && s.cur != [] && s.cur[0].handle.poolId == TCP_SERVER
    requires s'.cur == s.cur[1..] && s'.next == s.next && s'.k == s.k && s'.bufs == s.bufs && s'.conns == s.conns
    ensures Undisturbed(s, s') && OneRequest(s')
  {
    PendingAfter(s, s', [], []);
    StillLive(s, s', {});
    SameRequests(s, s');
  }

  /** A listener that failed ignores the accept. */
  lemma AcceptIgnoredSF(s: Exec)
    requires SF(s) && ForListener(s) && s.cur[0].reason.IoCompleted?
    ensures SF(Dropped(s))
    ensures |s.conns.objects| + Weight(s.cur[0]) + Peak(Pending(Dropped(s))) <= s.files
    ensures |s.conns.objects| + Weight(s.cur[0]) + Net(Pending(Dropped(s))) <= |s.k.open|
  {
    ListenerEvent(s);
    DroppedInv(s);
    DroppedQuietly(s, Dropped(s));
  }

  /** The accepted descriptor makes room for its handler. */
  lemma SpawnHandlerSF(s: Exec, fd: nat)
    requires SF(s) && !Server(s).state.Init?
    requires forall e :: e in s.next ==> e.reason.Spawn?
    requires |s.conns.objects| + 1 + Peak(Pending(s)) <= s.files
    requires |s.conns.objects| + 1 + Net(Pending(s)) <= |s.k.open|
    requires SpawnHandler(s, fd).Ok?
    ensures SF(SpawnHandler(s, fd).value)
  {
    SpawnHandlerInv(s, fd);
    SpawnHandlerParts(s, fd);
    UndisturbedSF(s, SpawnHandler(s, fd).value);
  }

  lemma SpawnHandlerParts(s: Exec, fd: nat)
    requires Tables(s) && Matching(s) && OneRequest(s)
    requires |s.conns.objects| + 1 + Peak(Pending(s)) <= s.files
    requires |s.conns.objects| + 1 + Net(Pending(s)) <= |s.k.open|
    requires SpawnHandler(s, fd).Ok?
    ensures var s' := SpawnHandler(s, fd).value; Undisturbed(s, s') && OneRequest(s') && Capacity(s')
  {
    hide Matching, OneRequest;
    SpawnHandlerTables(s, fd);
    var s' := SpawnHandler(s, fd).value;
    var id := s.conns.gen.Alloc().1.value;
    SpawnHandlerCapacity(s, s', id);
    SpawnHandlerQuiet(s, s', id);
  }

  lemma SpawnHandlerQuiet(s: Exec, s': Exec, id: GenId)
    requires Matching(s) && OneRequest(s) && !s.conns.gen.Issued(id)
    requires forall x :: s.conns.gen.Issued(x) ==> s'.conns.gen.Issued(x)
    requires id !in s.conns.objects && id in s'.conns.objects
    requires s'.conns.objects == s.conns.objects[id := s'.conns.objects[id]]
    requires s'.conns.objects[id].state.Init? && s'.bufs == s.bufs
    requires s'.cur == s.cur + [SpawnEvent(ConnHandle(id))] && s'.next == s.next && s'.k == s.k
    ensures Undisturbed(s, s') && OneRequest(s')
  {
    PendingWith(s, s', SpawnEvent(ConnHandle(id)));
    StillLive(s, s', {});
    SameRequests(s, s');
  }

  lemma SpawnHandlerCapacity(s: Exec, s': Exec, id: GenId)
    requires id !in s.conns.objects && s'.conns.objects.Keys == s.conns.objects.Keys + {id}
    requires s'.cur == s.cur + [SpawnEvent(ConnHandle(id))] && s'.next == s.next && s'.k == s.k && s'.files == s.files
    requires |s.conns.objects| + 1 + Peak(Pending(s)) <= s.files
    requires |s.conns.objects| + 1 + Net(Pending(s)) <= |s.k.open|
    ensures Capacity(s')
  {
    var e := SpawnEvent(ConnHandle(id));
    assert |s'.conns.objects.Keys| == |s.conns.objects.Keys| + 1;
    assert Pending(s') == s.cur + [e] + (s.next + s.k.cq);
    assert Pending(s) == s.cur + (s.next + s.k.cq);
    WeightlessInsert(s.cur, e, s.next + s.k.cq);
  }

  lemma AcceptSubmittedSF(s: Exec, fd: int)
    requires SF(s) && !Server(s).state.Init?
    ensures SF(Submit(s, AcceptOp(s, fd)))
  {
    hide QuietStart, Handlers, OneSpawn, Buffers, Addressed;
    var s' := Submit(s, AcceptOp(s, fd));
    AcceptSubmittedInv(s, fd);
    assert Pending(s') == Pending(s);
    forall e | e in Pending(s') && IsConnIo(e) ensures e.handle.id in s'.conns.objects { assert EventAwaited(s, e); }
    forall op | op in s'.k.inflight && op.handle.poolId == CONN_HANDLER
      ensures op in s.k.inflight && op.handle.id in s'.conns.objects
    {
      assert Awaited(s, op.handle.id, op.kind);
    }
    forall x ensures Ios(s', x) == Ios(s, x) { CountOpsAppend(s.k.inflight, [AcceptOp(s, fd)], ConnHandle(x)); }
    SameRequests(s, s');
    UndisturbedSF(s, s');
  }
}
