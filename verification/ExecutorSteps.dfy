/** Every step keeps the invariant, and the only panics a step can reach. */
module ExecutorSteps {
  import opened Wrappers
  import opened GenAllocSpec
  import opened ObjectHandles
  import opened Protocol
  import opened MachineSpecs
  import opened ExecutorModel
  import opened EventCounts
  import opened ExecutorInvariant

  // ---------- The kernel and the two queue moves ----------

  /** Collecting and switching only move events along the pending sequence. */
  lemma RearrangedInv(s: Exec, s': Exec)
    requires Inv(s) && Tables(s')
    requires s'.listeners == s.listeners && s'.conns == s.conns && s'.bufs == s.bufs
    requires s'.k.inflight == s.k.inflight && Pending(s') == Pending(s)
    requires forall e :: e in s'.k.cq ==> e in s.k.cq
    requires s'.cur != [] ==> s'.next == []
    ensures Inv(s')
  {
    AddressedKept(s, s');
    forall id ensures Spawns(s', id) == Spawns(s, id) && Ios(s', id) == Ios(s, id) {}
    HandlersKept(s, s');
  }

  lemma CollectInv(s: Exec)
    requires Inv(s) && Enabled(s, Collect) && CollectCompletion(s).Ok?
    ensures Inv(CollectCompletion(s).value) && Pending(CollectCompletion(s).value) == Pending(s)
  {
    var s' := CollectCompletion(s).value;
    assert s.k.cq == [s.k.cq[0]] + s.k.cq[1..];
    assert Pending(s') == Pending(s);
    RearrangedInv(s, s');
  }

  lemma SwitchInv(s: Exec)
    requires Inv(s) && Enabled(s, Switch)
    ensures Inv(Apply(s, Switch).value) && Pending(Apply(s, Switch).value) == Pending(s)
  {
    var s' := Apply(s, Switch).value;
    assert Pending(s') == Pending(s);
    RearrangedInv(s, s');
  }

  lemma PostPending(s: Exec, i: nat, res: int, flags: nat, fill: seq<byte>)
    requires Answers(s, i, res, flags, fill)
    ensures var s' := PostCompletion(s, i, res, flags, fill);
            var op := s.k.inflight[i];
            var e := Event(IoCompleted(res, flags), op.handle, Some(op.kind));
      && Pending(s') == Pending(s) + [e]
      && (forall h, spawn :: Count(Pending(s'), h, spawn) == Count(Pending(s), h, spawn) + Hits(e, h, spawn))
      && (forall h :: op.handle != h ==> CountOps(s'.k.inflight, h) == CountOps(s.k.inflight, h))
      && CountOps(s'.k.inflight, op.handle)
         == CountOps(s.k.inflight, op.handle) - (if op.kind.Accept? && res >= 0 && (flags / 2) % 2 == 1 then 0 else 1)
      && (forall o :: o in s'.k.inflight ==> o in s.k.inflight)
  {
    var s' := PostCompletion(s, i, res, flags, fill);
    var op := s.k.inflight[i];
    var e := Event(IoCompleted(res, flags), op.handle, Some(op.kind));
    assert Pending(s') == Pending(s) + [e];
    forall h, spawn ensures Count(Pending(s'), h, spawn) == Count(Pending(s), h, spawn) + Hits(e, h, spawn) {
      CountAppend(Pending(s), [e], h, spawn);
    }
    forall h ensures op.handle != h ==> CountOps(s'.k.inflight, h) == CountOps(s.k.inflight, h) {
      CountOpsRemove(s.k.inflight, i, h);
    }
    CountOpsRemove(s.k.inflight, i, op.handle);
  }

  lemma PostTables(s: Exec, i: nat, res: int, flags: nat, fill: seq<byte>)
    requires Tables(s) && Answers(s, i, res, flags, fill)
    ensures Tables(PostCompletion(s, i, res, flags, fill))
  {
    var s' := PostCompletion(s, i, res, flags, fill);
    forall j | 0 <= j < |s'.bufs.mem| ensures |s'.bufs.mem[j]| == BUF_SIZE {
      assert |s.bufs.mem[j]| == BUF_SIZE;
    }
  }

  lemma PostInv(s: Exec, i: nat, res: int, flags: nat, fill: seq<byte>)
    requires Inv(s) && Answers(s, i, res, flags, fill)
    ensures Inv(PostCompletion(s, i, res, flags, fill))
  {
    PostTables(s, i, res, flags, fill);
    PostAddressed(s, i, res, flags, fill);
    PostHandlers(s, i, res, flags, fill);
  }

  lemma PostAddressed(s: Exec, i: nat, res: int, flags: nat, fill: seq<byte>)
    requires Tables(s) && QuietStart(s) && Addressed(s) && Answers(s, i, res, flags, fill)
    requires Tables(PostCompletion(s, i, res, flags, fill))
    ensures Addressed(PostCompletion(s, i, res, flags, fill)) && QuietStart(PostCompletion(s, i, res, flags, fill))
  {
    assert OpOk(s, s.k.inflight[i]);
    PostPending(s, i, res, flags, fill);
    AddressedKept(s, PostCompletion(s, i, res, flags, fill));
  }

  lemma PostHandlers(s: Exec, i: nat, res: int, flags: nat, fill: seq<byte>)
    requires Inv(s) && Answers(s, i, res, flags, fill)
    requires Tables(PostCompletion(s, i, res, flags, fill))
    ensures var s' := PostCompletion(s, i, res, flags, fill);
      Handlers(s') && Buffers(s') && OneSpawn(s')
  {
    hide ConnOk, OwnBuffers, QuietStart;
    var s' := PostCompletion(s, i, res, flags, fill);
    var op := s.k.inflight[i];
    assert OpOk(s, op);
    PostPending(s, i, res, flags, fill);
    forall id ensures Spawns(s', id) == Spawns(s, id) && Ios(s', id) == Ios(s, id) {
      if op.handle == ConnHandle(id) { assert !op.kind.Accept?; }
    }
    HandlersKept(s, s');
    OneSpawnKept(s, s');
  }

  // ---------- What a live handler does with an event ----------

  function RecvOp(h: ObjectHandle, fd: nat, b: GenId, offset: nat): Op
    requires offset < BUF_SIZE
  {
    Op(h, OpKind.Recv(fd, b, offset, BUF_SIZE - offset))
  }

  /** The handler addressed by the head event. */
  ghost predicate ForHandler(s: Exec) {
    s.cur != [] && s.cur[0].handle.poolId == CONN_HANDLER && s.cur[0].handle.id in s.conns.objects
  }

  function Head(s: Exec): Conn
    requires s.cur != [] && s.cur[0].handle.id in s.conns.objects
  {
    s.conns.objects[s.cur[0].handle.id]
  }

  lemma CompleteOne(s: Exec, a: MachineIntent, h: ObjectHandle)
    ensures CompleteAll(s, [a], h) == Complete(s, a, h)
  {
    assert [a][1..] == [];
  }

  lemma CompleteTwo(s: Exec, a: MachineIntent, b: MachineIntent, h: ObjectHandle)
    ensures CompleteAll(s, [a, b], h)
         == if Complete(s, a, h).Ok? then Complete(Complete(s, a, h).value, b, h) else Complete(s, a, h)
  {
    assert [a, b][1..] == [b];
    if Complete(s, a, h).Ok? { CompleteOne(Complete(s, a, h).value, b, h); }
  }

  lemma InitDispatch(s: Exec, listen: ListenResult)
    requires Inv(s) && ForHandler(s) && Head(s).state.Init?
    ensures s.cur[0].reason.Spawn?
    ensures var (gen, b) := s.bufs.gen.Alloc();
      var c := Head(s);
      DispatchEvent(s, listen) == Ok(
        if b.None? then Retried(s)
        else Moved(s, Conn(ConnState.Recv(ReceivingHeader), c.socket, b, 0), gen,
                   [RecvOp(s.cur[0].handle, c.socket, b.value, 0)]))
  {
    var e := s.cur[0];
    CountMember(Pending(s), e);
    assert e.handle == ConnHandle(e.handle.id);
    assert Ios(s, e.handle.id) == 0;
    var (gen, b) := s.bufs.gen.Alloc();
    var c := Head(s);
    assert ConnOk(s.bufs, c);
    AllocFresh(s.bufs.gen);
    var s1 := s.(cur := s.cur[1..]);
    if b.None? {
      RetryFits(s);
      assert s.conns.Put(e.handle.id, c) == s.conns;
      CompleteOne(s1, Retry, e.handle);
    } else {
      var c' := Conn(ConnState.Recv(ReceivingHeader), c.socket, b, 0);
      CompleteOne(s1.(conns := s.conns.Put(e.handle.id, c'), bufs := s.bufs.(gen := gen)),
                  SubmitRecv(c.socket, b.value, 0), e.handle);
    }
  }

  /** The phase after a receive: known from the first bytes of the buffer once there are enough. */
  function PhaseAfter(bytes: seq<byte>, offset: nat): RecvPhase {
    if HDR_SIZE <= offset && HDR_SIZE <= |bytes| then ReceivingBody(ReadHeader(bytes[..HDR_SIZE])) else ReceivingHeader
  }

  function GotBytes(s: Exec, res: nat): Conn
    requires s.cur != [] && s.cur[0].handle.id in s.conns.objects
    requires Head(s).buf.Some? && Head(s).buf.value.index < |s.bufs.mem|
  {
    var c := Head(s);
    c.(offset := c.offset + res,
       state := ConnState.Recv(PhaseAfter(s.bufs.mem[c.buf.value.index], c.offset + res)))
  }

  ghost predicate HandlerReceives(s: Exec) {
    ForHandler(s) && Head(s).state.Recv?
  }

  /** A handler in `Recv` is only ever told of a completed request, of at most a buffer's length. */
  lemma RecvEvent(s: Exec)
    requires Inv(s) && HandlerReceives(s)
    ensures s.cur[0].reason.IoCompleted? && -0x1000 < s.cur[0].reason.res <= BUF_SIZE
    ensures ConnOk(s.bufs, Head(s)) && Head(s).buf.value.index < |s.bufs.mem|
  {
    var e := s.cur[0];
    CountMember(Pending(s), e);
    assert e in Pending(s);
    assert EventOk(s, e);
    assert e.handle == ConnHandle(e.handle.id);
    assert ConnOk(s.bufs, Head(s));
  }

  lemma RecvSomeDispatch(s: Exec, listen: ListenResult)
    requires Inv(s) && HandlerReceives(s) && s.cur[0].reason.IoCompleted? && 0 < s.cur[0].reason.res
    ensures Head(s).buf.Some? && Head(s).buf.value.index < |s.bufs.mem|
    ensures var c := Head(s);
      var offset := c.offset + s.cur[0].reason.res;
      && offset <= 2 * BUF_SIZE - 1
      && DispatchEvent(s, listen) ==
         if offset >= BUF_SIZE then Panicked(BufferFull)
         else Ok(Moved(s, GotBytes(s, s.cur[0].reason.res), s.bufs.gen,
                       [RecvOp(s.cur[0].handle, c.socket, c.buf.value, offset)]))
  {
    hide QuietStart, OneSpawn, Addressed, Handlers, Buffers;
    RecvEvent(s);
    var e := s.cur[0];
    var c := Head(s);
    var c' := GotBytes(s, e.reason.res);
    assert |s.bufs.mem[c.buf.value.index]| == BUF_SIZE;
    assert ProcessConn(c, s.bufs, e.reason) == Ok(ConnOut(c', s.bufs, [SubmitRecv(c.socket, c.buf.value, c'.offset)]));
    CompleteOne(s.(cur := s.cur[1..], conns := s.conns.Put(e.handle.id, c')),
                SubmitRecv(c.socket, c.buf.value, c'.offset), e.handle);
  }

  /** The buffer goes back to the pool, whose free list has room for it. */
  lemma CloseFrees(s: Exec)
    requires Inv(s) && HandlerReceives(s)
    ensures Head(s).buf.Some?
    ensures var b := Head(s).buf.value;
      var (gen, freed) := s.bufs.gen.Free(b);
      && (freed == Freed || freed == Overflow)
      && (freed == Freed ==> GenMoves(s.bufs.gen, gen, Head(s), Head(s).(state := Closing, offset := 0)))
      && (freed == Freed ==> !gen.IsValid(b))
  {
    RecvEvent(s);
    FreeIssued(s.bufs.gen, Head(s).buf.value);
  }

  lemma RecvEndDispatch(s: Exec, listen: ListenResult)
    requires Inv(s) && HandlerReceives(s) && s.cur[0].reason.IoCompleted? && s.cur[0].reason.res == 0
    ensures Head(s).buf.Some?
    ensures var c := Head(s);
      var (gen, freed) := s.bufs.gen.Free(c.buf.value);
      DispatchEvent(s, listen) ==
        if freed == Overflow then Panicked(GenerationOverflow)
        else Ok(Moved(s, c.(state := Closing, offset := 0), gen, [Op(s.cur[0].handle, OpKind.Close(c.socket))]))
  {
    CloseFrees(s);
    var e := s.cur[0];
    var c := Head(s);
    var (gen, freed) := s.bufs.gen.Free(c.buf.value);
    var c' := c.(state := Closing, offset := 0);
    CompleteOne(s.(cur := s.cur[1..], conns := s.conns.Put(e.handle.id, c'), bufs := s.bufs.(gen := gen)),
                CloseFixed(c.socket), e.handle);
  }

  /** Errors: a retryable one leaves two receives, a closing one always stops the run. */
  lemma RecvErrorDispatch(s: Exec, listen: ListenResult)
    requires Inv(s) && HandlerReceives(s) && s.cur[0].reason.IoCompleted? && s.cur[0].reason.res < 0
    ensures Head(s).buf.Some? && Head(s).offset < BUF_SIZE
    ensures var c := Head(s);
      var errno := Errno(s.cur[0].reason.res);
      var op := RecvOp(s.cur[0].handle, c.socket, c.buf.value, c.offset);
      DispatchEvent(s, listen) ==
        if FatalErrno(errno) then Panicked(UnexpectedIoError)
        else if RetryErrno(errno) then Ok(Moved(s, c, s.bufs.gen, [op, op]))
        else if ClosingErrno(errno) then
          Panicked(if c.buf.value.generation == MAX_U32 then GenerationOverflow else StaleBuffer)
        else Ok(Moved(s, c, s.bufs.gen, [op]))
  {
    hide QuietStart, OneSpawn, Addressed, Handlers, Buffers;
    RecvEvent(s);
    CloseFrees(s);
    var e := s.cur[0];
    var c := Head(s);
    var errno := Errno(e.reason.res);
    var s1 := s.(cur := s.cur[1..], conns := s.conns.Put(e.handle.id, c));
    var again := SubmitRecv(c.socket, c.buf.value, c.offset);
    var op := RecvOp(e.handle, c.socket, c.buf.value, c.offset);
    if FatalErrno(errno) {
    } else if RetryErrno(errno) {
      CompleteTwo(s1, again, again, e.handle);
      assert s.k.inflight + [op] + [op] == s.k.inflight + [op, op];
    } else if ClosingErrno(errno) {
      var (gen, freed) := s.bufs.gen.Free(c.buf.value);
      var s2 := s.(cur := s.cur[1..], conns := s.conns.Put(e.handle.id, c.(state := Closing, offset := 0)),
                   bufs := s.bufs.(gen := gen));
      CompleteTwo(s2, CloseFixed(c.socket), SubmitRecv(c.socket, c.buf.value, 0), e.handle);
    } else {
      CompleteOne(s1, again, e.handle);
    }
  }

  /** A failed close is tried again; the stale buffer handle frees nothing. */
  lemma ClosingDispatch(s: Exec, listen: ListenResult)
    requires Inv(s) && ForHandler(s) && Head(s).state.Closing?
    ensures s.cur[0].reason.IoCompleted?
    ensures var h := s.cur[0].handle;
      var (gen, freed) := s.conns.gen.Free(h.id);
      && (freed == Freed || freed == Overflow)
      && DispatchEvent(s, listen) ==
         if s.cur[0].reason.res != 0 then Ok(Moved(s, Head(s), s.bufs.gen, [Op(h, OpKind.Close(Head(s).socket))]))
         else if freed == Overflow then Panicked(GenerationOverflow)
         else Ok(Ended(s, gen))
  {
    hide QuietStart, Addressed, Buffers;
    var e := s.cur[0];
    var c := Head(s);
    CountMember(Pending(s), e);
    assert e.handle == ConnHandle(e.handle.id);
    assert ConnOk(s.bufs, c);
    FreeIssued(s.conns.gen, e.handle.id);
    FreeIssued(s.bufs.gen, c.buf.value);
    if e.reason.res != 0 {
      CompleteOne(s.(cur := s.cur[1..], conns := s.conns.Put(e.handle.id, c)), CloseFixed(c.socket), e.handle);
    } else {
      var closed := s.conns.Put(e.handle.id, c.(state := Closed));
      CompleteOne(s.(cur := s.cur[1..], conns := closed), Terminate, e.handle);
      assert closed.objects - {e.handle.id} == s.conns.objects - {e.handle.id};
    }
  }

  // ---------- What the listener does with an event ----------

  /** The listener's request for connections on the socket `fd`. */
  function AcceptOp(s: Exec, fd: int): Op
    requires 0 < |s.listeners.gen.generation|
  {
    Op(ObjectHandle(TCP_SERVER, s.ListenerId()), Accept(fd))
  }

  ghost predicate ForListener(s: Exec) {
    s.cur != [] && s.cur[0].handle.poolId == TCP_SERVER
  }

  function Server(s: Exec): TcpServer
    requires 0 < |s.listeners.gen.generation| && s.ListenerId() in s.listeners.objects
  {
    s.listeners.objects[s.ListenerId()]
  }

  lemma ListenerEvent(s: Exec)
    requires Inv(s) && ForListener(s)
    ensures s.cur[0].handle == ObjectHandle(TCP_SERVER, s.ListenerId())
    ensures s.cur[0].reason.Spawn? <==> Server(s).state.Init?
    ensures s.cur[0].reason.IoCompleted? ==> s.cur[0].origin.Some? && s.cur[0].origin.value.Accept?
    ensures s.listeners.gen.IsValid(s.ListenerId())
  {
    assert s.cur[0] in Pending(s);
    assert EventOk(s, s.cur[0]);
    if Server(s).state.Init? { ListenerStartsInv(s, TcpServer(Accepting, 0)); }
    assert s.ListenerId() in s.listeners.objects;
  }

  lemma ListenerSpawnDispatch(s: Exec, listen: ListenResult)
    requires Inv(s) && ForListener(s) && s.cur[0].reason.Spawn?
    ensures DispatchEvent(s, listen) == Ok(
      match listen
      case Listening(fd) => Submit(ListenerSet(Dropped(s), TcpServer(Accepting, fd)), AcceptOp(s, fd))
      case ListenFailed(e) => ListenerSet(Dropped(s), TcpServer(TcpState.Error(e), Server(s).listenerFd)))
  {
    ListenerEvent(s);
    if listen.Listening? {
      CompleteOne(ListenerSet(Dropped(s), TcpServer(Accepting, listen.fd)),
                  SubmitMultishotAccept(listen.fd), s.cur[0].handle);
    }
  }

  lemma ListenerIoDispatch(s: Exec, listen: ListenResult)
    requires Inv(s) && ForListener(s) && s.cur[0].reason.IoCompleted?
    ensures var IoCompleted(res, flags) := s.cur[0].reason;
      DispatchEvent(s, listen) ==
        if Server(s).state.Error? then Ok(Dropped(s))
        else if res < 0 then Ok(ListenerSet(Dropped(s), TcpServer(TcpState.Error(res), Server(s).listenerFd)))
        else if s.conns.gen.free == [] then Panicked(HandlerPoolFull)
        else if (flags / 2) % 2 == 1 then SpawnHandler(Dropped(s), res)
        else if SpawnHandler(Dropped(s), res).Ok? then
          Ok(Submit(SpawnHandler(Dropped(s), res).value, AcceptOp(s, Server(s).listenerFd)))
        else SpawnHandler(Dropped(s), res)
    ensures s.conns.gen.free != [] && s.cur[0].reason.res >= 0 ==> SpawnHandler(Dropped(s), s.cur[0].reason.res).Ok?
  {
    hide QuietStart, Handlers, OneSpawn, Buffers, Addressed;
    ListenerEvent(s);
    var e := s.cur[0];
    var IoCompleted(res, flags) := e.reason;
    var t := Server(s);
    var s1 := Dropped(s);
    assert ListenerSet(s1, t) == s1;
    AllocFresh(s.conns.gen);
    if t.state.Accepting? && res >= 0 {
      if More(flags) {
        CompleteOne(s1, SpawnConnHandler(res), e.handle);
        assert [SpawnConnHandler(res)] + [] == [SpawnConnHandler(res)];
      } else {
        var rearm := SubmitMultishotAccept(t.listenerFd);
        assert [SpawnConnHandler(res)] + [rearm] == [SpawnConnHandler(res), rearm];
        CompleteTwo(s1, SpawnConnHandler(res), rearm, e.handle);
      }
    }
  }

  // ---------- Every step ----------

  /** The panics in which a run can stop, for each of which there is one that does (`Overflow`, `PoolFull`,
      `Stops`). Each is the kernel's answer or the peer's data, none a machine
      fed an event it cannot handle, a queue push of the executor's own, or an unchecked unwrap. */
  predicate Reachable(reason: Panic) {
    reason in {UnexpectedIoError, GenerationOverflow, StaleBuffer, BufferFull, HandlerPoolFull, CompletionQueueFull}
  }

  lemma HandlerDispatchInv(s: Exec, listen: ListenResult)
    requires Inv(s) && ForHandler(s)
    ensures var r := DispatchEvent(s, listen);
      if r.Ok? then Inv(r.value) else Reachable(r.reason) && r.reason !in {HandlerPoolFull, CompletionQueueFull}
  {
    var c := Head(s);
    var h := s.cur[0].handle;
    assert ConnOk(s.bufs, c);
    match c.state {
      case Init =>
        InitDispatch(s, listen);
        AllocFresh(s.bufs.gen);
        var (gen, b) := s.bufs.gen.Alloc();
        if b.None? {
          RetriedInv(s);
        } else {
          MovedInv(s, Conn(ConnState.Recv(ReceivingHeader), c.socket, b, 0), gen, [RecvOp(h, c.socket, b.value, 0)]);
        }
      case Recv(_) =>
        RecvEvent(s);
        HandlerRecvInv(s, listen);
      case Closing =>
        ClosingDispatch(s, listen);
        if s.cur[0].reason.res != 0 {
          MovedInv(s, c, s.bufs.gen, [Op(h, OpKind.Close(c.socket))]);
        } else if s.conns.gen.Free(h.id).1 == Freed {
          EndedInv(s);
        }
    }
  }

  lemma HandlerRecvInv(s: Exec, listen: ListenResult)
    requires Inv(s) && HandlerReceives(s) && s.cur[0].reason.IoCompleted?
    ensures var r := DispatchEvent(s, listen);
      if r.Ok? then Inv(r.value) else Reachable(r.reason) && r.reason !in {HandlerPoolFull, CompletionQueueFull}
  {
    hide Tables, QuietStart, Addressed, Handlers, OneSpawn, Buffers;
    RecvEvent(s);
    if s.cur[0].reason.res == 0 {
      RecvEndInv(s, listen);
    } else if s.cur[0].reason.res > 0 {
      RecvSomeInv(s, listen);
    } else {
      RecvErrorInv(s, listen);
    }
  }

  lemma RecvEndInv(s: Exec, listen: ListenResult)
    requires Inv(s) && HandlerReceives(s) && s.cur[0].reason.IoCompleted? && s.cur[0].reason.res == 0
    ensures var r := DispatchEvent(s, listen);
      if r.Ok? then Inv(r.value) else Reachable(r.reason) && r.reason !in {HandlerPoolFull, CompletionQueueFull}
  {
    hide QuietStart, Addressed, Handlers, OneSpawn, Buffers;
    RecvEvent(s);
    RecvEndDispatch(s, listen);
    CloseFrees(s);
    var c := Head(s);
    var (gen, freed) := s.bufs.gen.Free(c.buf.value);
    if freed == Freed {
      FreeIssued(s.bufs.gen, c.buf.value);
      MovedInv(s, c.(state := Closing, offset := 0), gen, [Op(s.cur[0].handle, OpKind.Close(c.socket))]);
    }
  }

  lemma RecvSomeInv(s: Exec, listen: ListenResult)
    requires Inv(s) && HandlerReceives(s) && s.cur[0].reason.IoCompleted? && s.cur[0].reason.res > 0
    ensures var r := DispatchEvent(s, listen);
      if r.Ok? then Inv(r.value) else Reachable(r.reason) && r.reason !in {HandlerPoolFull, CompletionQueueFull}
  {
    hide QuietStart, Addressed, Handlers, OneSpawn, Buffers;
    RecvEvent(s);
    RecvSomeDispatch(s, listen);
    var c := Head(s);
    var res := s.cur[0].reason.res;
    if c.offset + res < BUF_SIZE {
      MovedInv(s, GotBytes(s, res), s.bufs.gen, [RecvOp(s.cur[0].handle, c.socket, c.buf.value, c.offset + res)]);
    }
  }

  lemma RecvErrorInv(s: Exec, listen: ListenResult)
    requires Inv(s) && HandlerReceives(s) && s.cur[0].reason.IoCompleted? && s.cur[0].reason.res < 0
    ensures var r := DispatchEvent(s, listen);
      if r.Ok? then Inv(r.value) else Reachable(r.reason) && r.reason !in {HandlerPoolFull, CompletionQueueFull}
  {
    hide QuietStart, Addressed, Handlers, OneSpawn, Buffers;
    RecvEvent(s);
    RecvErrorDispatch(s, listen);
    var c := Head(s);
    var errno := Errno(s.cur[0].reason.res);
    var op := RecvOp(s.cur[0].handle, c.socket, c.buf.value, c.offset);
    if RetryErrno(errno) {
      MovedInv(s, c, s.bufs.gen, [op, op]);
    } else if !FatalErrno(errno) && !ClosingErrno(errno) {
      MovedInv(s, c, s.bufs.gen, [op]);
    }
  }

  lemma ListenerDispatchInv(s: Exec, listen: ListenResult)
    requires Inv(s) && ForListener(s)
    ensures var r := DispatchEvent(s, listen);
      if r.Ok? then Inv(r.value) else r.reason == HandlerPoolFull
  {
    hide QuietStart, Handlers, OneSpawn, Buffers;
    ListenerEvent(s);
    if s.cur[0].reason.Spawn? {
      ListenerSpawnDispatch(s, listen);
      match listen {
        case Listening(fd) =>
          ListenerStartsInv(s, TcpServer(Accepting, fd));
          AcceptSubmittedInv(ListenerSet(Dropped(s), TcpServer(Accepting, fd)), fd);
        case ListenFailed(e) =>
          ListenerStartsInv(s, TcpServer(TcpState.Error(e), Server(s).listenerFd));
      }
    } else {
      ListenerIoDispatch(s, listen);
      DroppedInv(s);
      var IoCompleted(res, flags) := s.cur[0].reason;
      if Server(s).state.Error? {
      } else if res < 0 {
        ListenerSetInv(Dropped(s), TcpServer(TcpState.Error(res), Server(s).listenerFd));
      } else if s.conns.gen.free != [] {
        SpawnHandlerInv(Dropped(s), res);
        if !More(flags) { AcceptSubmittedInv(SpawnHandler(Dropped(s), res).value, Server(s).listenerFd); }
      }
    }
  }

  lemma DispatchInv(s: Exec, listen: ListenResult)
    requires Inv(s) && s.cur != []
    ensures var r := DispatchEvent(s, listen);
      if r.Ok? then Inv(r.value) else Reachable(r.reason) && r.reason != CompletionQueueFull
  {
    var h := s.cur[0].handle;
    assert s.cur[0] in Pending(s);
    assert EventOk(s, s.cur[0]);
    if h.poolId == TCP_SERVER {
      ListenerDispatchInv(s, listen);
    } else if h.id in s.conns.objects {
      HandlerDispatchInv(s, listen);
    } else {
      if Server(s).state.Init? { ListenerStartsInv(s, TcpServer(Accepting, 0)); }
      DroppedInv(s);
    }
  }

  lemma StepInv(s: Exec, step: Step)
    requires Inv(s) && Enabled(s, step)
    ensures var r := Apply(s, step);
      if r.Ok? then Inv(r.value) else Reachable(r.reason)
  {
    match step {
      case Dispatch(listen) => DispatchInv(s, listen);
      case Post(i, res, flags, fill) => PostInv(s, i, res, flags, fill);
      case Collect => if CollectCompletion(s).Ok? { CollectInv(s); }
      case Switch => SwitchInv(s);
    }
  }

  lemma {:induction false} RunInv(s: Exec, steps: seq<Step>, s': Exec)
    requires Inv(s) && Run(s, steps, s')
    ensures Inv(s')
    decreases |steps|
  {
    if steps != [] {
      StepInv(s, steps[0]);
      RunInv(Apply(s, steps[0]).value, steps[1..], s');
    }
  }
}
