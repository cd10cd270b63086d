/** Every single-flight step keeps the single-flight invariant. */
module SingleFlightSteps {
  import opened Wrappers
  import opened Sequences
  import opened GenAllocSpec
  import opened Protocol
  import opened MachineSpecs
  import opened PoolSpec
  import opened ExecutorModel
  import opened EventCounts
  import opened ExecutorInvariant
  import opened ExecutorSteps
  import opened Weights
  import opened SingleFlightInvariant

  // ---------- The kernel ----------

  lemma PostCapacity(s: Exec, i: nat, res: int, flags: nat, fill: seq<byte>)
    requires Tables(s) && Capacity(s) && Answers(s, i, res, flags, fill)
    ensures Capacity(PostCompletion(s, i, res, flags, fill))
  {
    var s' := PostCompletion(s, i, res, flags, fill);
    var op := s.k.inflight[i];
    var e := Event(IoCompleted(res, flags), op.handle, Some(op.kind));
    PostPending(s, i, res, flags, fill);
    PostTables(s, i, res, flags, fill);
    NetAppend(Pending(s), [e]);
    PeakAppend(Pending(s), [e]);
    NetBelowPeak(Pending(s));
    OpenBound(s');
  }

  lemma OpenBound(s: Exec)
    requires Tables(s)
    ensures |s.k.open| <= s.files
  {
    assert s.k.open <= Below(s.files);
    SubsetCount(s.k.open, Below(s.files));
  }

  lemma PostOneRequest(s: Exec, i: nat, res: int, flags: nat, fill: seq<byte>)
    requires Tables(s) && Addressed(s) && OneRequest(s) && Answers(s, i, res, flags, fill)
    ensures OneRequest(PostCompletion(s, i, res, flags, fill))
  {
    var s' := PostCompletion(s, i, res, flags, fill);
    var op := s.k.inflight[i];
    assert OpOk(s, op);
    PostPending(s, i, res, flags, fill);
    assert forall id :: Ios(s', id) == Ios(s, id);
    SameRequests(s, s');
  }

  /** After its one request completed, nothing in flight or queued concerns the handler but the completion. */
  lemma OpIsAlone(s: Exec, i: nat)
    requires OneRequest(s) && i < |s.k.inflight| && s.k.inflight[i].handle.poolId == CONN_HANDLER
    ensures var h := s.k.inflight[i].handle;
      && (forall op :: op in s.k.inflight[..i] + s.k.inflight[i + 1..] ==> op.handle != h)
      && (forall e :: e in Pending(s) && e.handle == h ==> e.reason.Spawn?)
  {
    var h := s.k.inflight[i].handle;
    var rest := s.k.inflight[..i] + s.k.inflight[i + 1..];
    assert h == ConnHandle(h.id);
    assert Ios(s, h.id) <= 1;
    CountOpsRemove(s.k.inflight, i, h);
    CountOpsMember(s.k.inflight, s.k.inflight[i]);
    forall op | op in rest ensures op.handle != h { if op.handle == h { CountOpsMember(rest, op); } }
    forall e | e in Pending(s) && e.handle == h ensures e.reason.Spawn? { CountMember(Pending(s), e); }
  }

  lemma PostRecvMatching(s: Exec, i: nat, res: int, flags: nat, fill: seq<byte>)
    requires Matching(s) && OneRequest(s) && Answers(s, i, res, flags, fill)
    requires s.k.inflight[i].handle.poolId == CONN_HANDLER && (s.k.inflight[i].kind.Recv? ==> !Doubling(res))
    ensures Matching(PostCompletion(s, i, res, flags, fill))
  {
    var s' := PostCompletion(s, i, res, flags, fill);
    var op := s.k.inflight[i];
    PostPending(s, i, res, flags, fill);
    OpIsAlone(s, i);
    assert Awaited(s, op.handle.id, op.kind) && InStep(s, op.handle.id, op.kind, 0);
    forall o | o in s'.k.inflight && o.handle.poolId == CONN_HANDLER
      ensures Awaited(s', o.handle.id, o.kind) && InStep(s', o.handle.id, o.kind, 0)
    {
      assert Awaited(s, o.handle.id, o.kind) && InStep(s, o.handle.id, o.kind, 0);
      assert o.handle != op.handle;
    }
    forall e | e in Pending(s') && IsConnIo(e) ensures EventAwaited(s', e) {
      if e in Pending(s) {
        assert EventAwaited(s, e);
        assert e.handle != op.handle;
      }
    }
  }

  lemma PostAcceptMatching(s: Exec, i: nat, res: int, flags: nat, fill: seq<byte>)
    requires Matching(s) && Answers(s, i, res, flags, fill)
    requires s.k.inflight[i].handle.poolId != CONN_HANDLER && s.k.inflight[i].kind.Accept?
    ensures Matching(PostCompletion(s, i, res, flags, fill))
  {
    var s' := PostCompletion(s, i, res, flags, fill);
    PostPending(s, i, res, flags, fill);
    forall o | o in s'.k.inflight && o.handle.poolId == CONN_HANDLER
      ensures Awaited(s', o.handle.id, o.kind) && InStep(s', o.handle.id, o.kind, 0)
    {
      assert Awaited(s, o.handle.id, o.kind) && InStep(s, o.handle.id, o.kind, 0);
    }
    forall e | e in Pending(s') && IsConnIo(e) ensures EventAwaited(s', e) {
      assert EventAwaited(s, e);
    }
  }

  /** A receive writes where its own handler's stream ends, and into no other handler's buffer. */
  lemma PostStreams(s: Exec, i: nat, res: int, flags: nat, fill: seq<byte>)
    requires SF(s) && Answers(s, i, res, flags, fill)
    ensures Streams(PostCompletion(s, i, res, flags, fill))
  {
    hide QuietStart, OneSpawn, Capacity, OneRequest;
    var s' := PostCompletion(s, i, res, flags, fill);
    var op := s.k.inflight[i];
    assert OpOk(s, op);
    forall id | id in s'.conns.objects ensures StreamOk(s', id) {
      assert StreamOk(s, id);
      if op.kind.Recv? {
        assert Awaited(s, op.handle.id, op.kind) && InStep(s, op.handle.id, op.kind, 0);
        if id == op.handle.id {
          PostOwnStream(s, i, res, flags, fill);
        } else if s.conns.objects[id].state.Recv? {
          OtherBuffer(s, id, op.handle.id);
        }
      }
    }
  }

  lemma OtherBuffer(s: Exec, a: GenId, b: GenId)
    requires Tables(s) && Handlers(s) && Buffers(s) && a != b
    requires a in Receivers(s.conns.objects) && b in Receivers(s.conns.objects)
    ensures s.conns.objects[a].buf.Some? && s.conns.objects[b].buf.Some?
    ensures s.conns.objects[a].buf.value.index != s.conns.objects[b].buf.value.index
  {
    assert ConnOk(s.bufs, s.conns.objects[a]);
    assert ConnOk(s.bufs, s.conns.objects[b]);
  }

  lemma PostOwnStream(s: Exec, i: nat, res: int, flags: nat, fill: seq<byte>)
    requires SF(s) && Answers(s, i, res, flags, fill) && s.k.inflight[i].kind.Recv?
    requires s.k.inflight[i].handle.id in s.conns.objects
    requires Awaited(s, s.k.inflight[i].handle.id, s.k.inflight[i].kind)
    requires InStep(s, s.k.inflight[i].handle.id, s.k.inflight[i].kind, 0)
    ensures StreamOk(PostCompletion(s, i, res, flags, fill), s.k.inflight[i].handle.id)
  {
    hide QuietStart, Addressed, OneSpawn, Buffers, OneRequest, Capacity, Matching;
    var s' := PostCompletion(s, i, res, flags, fill);
    var op := s.k.inflight[i];
    var id := op.handle.id;
    var c := s.conns.objects[id];
    assert StreamOk(s, id);
    assert ConnOk(s.bufs, c);
    var got := if res > 0 then fill[..res] else [];
    var m := s.bufs.mem[c.buf.value.index];
    var m' := s'.bufs.mem[c.buf.value.index];
    assert m' == m[..c.offset] + fill + m[c.offset + op.kind.len..];
    assert s'.k.Received(id) == s.k.Received(id) + got;
    assert m'[..c.offset + |got|] == m[..c.offset] + got;
    assert PhaseAfter(s'.k.Received(id), c.offset) == PhaseAfter(s.k.Received(id), c.offset) by {
      if HDR_SIZE <= c.offset {
        assert s'.k.Received(id)[..HDR_SIZE] == s.k.Received(id)[..HDR_SIZE];
      }
    }
  }

  lemma PostSF(s: Exec, i: nat, res: int, flags: nat, fill: seq<byte>)
    requires SF(s) && Answers(s, i, res, flags, fill) && SingleFlightStep(s, Post(i, res, flags, fill))
    ensures SF(PostCompletion(s, i, res, flags, fill))
  {
    PostInv(s, i, res, flags, fill);
    PostCapacity(s, i, res, flags, fill);
    PostOneRequest(s, i, res, flags, fill);
    PostStreams(s, i, res, flags, fill);
    assert OpOk(s, s.k.inflight[i]);
    if s.k.inflight[i].handle.poolId == CONN_HANDLER {
      PostRecvMatching(s, i, res, flags, fill);
    } else {
      PostAcceptMatching(s, i, res, flags, fill);
    }
  }

  lemma RearrangedSF(s: Exec, s': Exec)
    requires SF(s) && Inv(s')
    requires s'.listeners == s.listeners && s'.conns == s.conns && s'.bufs == s.bufs && s'.files == s.files
    requires s'.k == s.k.(cq := s'.k.cq) && Pending(s') == Pending(s)
    ensures SF(s')
  {
    RearrangedUndisturbed(s, s');
    hide Tables, QuietStart, Addressed, Handlers, OneSpawn, Buffers, Matching, OneRequest, Streams, Undisturbed;
    UndisturbedSF(s, s');
  }

  lemma RearrangedUndisturbed(s: Exec, s': Exec)
    requires Matching(s) && OneRequest(s) && s'.conns == s.conns && s'.bufs == s.bufs
    requires s'.k == s.k.(cq := s'.k.cq) && Pending(s') == Pending(s)
    ensures Undisturbed(s, s') && OneRequest(s')
  {
    StillLive(s, s', {});
    SameRequests(s, s');
  }

  // ---------- Dispatch ----------

  /** The head event of a handler in `Recv` is its one receive. */
  lemma HeadReceive(s: Exec)
    requires SF(s) && HandlerReceives(s)
    ensures s.cur[0].reason.IoCompleted? && s.cur[0].origin.Some? && s.cur[0].origin.value.Recv?
    ensures var id := s.cur[0].handle.id;
      && !Doubling(s.cur[0].reason.res) && Weight(s.cur[0]) == 0
      && |s.k.Received(id)| == Head(s).offset + Max(0, s.cur[0].reason.res)
      && StreamOk(s, id)
  {
    RecvEvent(s);
    assert s.cur[0] in Pending(s);
    assert EventAwaited(s, s.cur[0]);
    assert StreamOk(s, s.cur[0].handle.id);
  }

  lemma InitSF(s: Exec, listen: ListenResult)
    requires SF(s) && ForHandler(s) && Head(s).state.Init?
    ensures DispatchEvent(s, listen).Ok? && SF(DispatchEvent(s, listen).value)
  {
    hide QuietStart, Addressed, OneSpawn, Buffers, OneRequest, Capacity;
    InitDispatch(s, listen);
    AllocFresh(s.bufs.gen);
    var (gen, b) := s.bufs.gen.Alloc();
    assert StreamOk(s, s.cur[0].handle.id);
    if b.None? {
      RetriedSF(s);
    } else {
      var c := Conn(ConnState.Recv(ReceivingHeader), Head(s).socket, b, 0);
      MovedSF(s, c, gen, RecvOp(s.cur[0].handle, c.socket, b.value, 0));
    }
  }

  lemma RecvEndSF(s: Exec, listen: ListenResult)
    requires SF(s) && HandlerReceives(s) && s.cur[0].reason.IoCompleted? && s.cur[0].reason.res == 0
    ensures var r := DispatchEvent(s, listen); if r.Ok? then SF(r.value) else r.reason == GenerationOverflow
  {
    hide QuietStart, Addressed, Handlers, OneSpawn, Buffers, Matching, OneRequest, Capacity, Streams;
    HeadReceive(s);
    RecvEvent(s);
    RecvEndDispatch(s, listen);
    CloseFrees(s);
    var c := Head(s);
    var (gen, freed) := s.bufs.gen.Free(c.buf.value);
    if freed == Freed {
      FreeIssued(s.bufs.gen, c.buf.value);
      MovedSF(s, c.(state := Closing, offset := 0), gen, Op(s.cur[0].handle, OpKind.Close(c.socket)));
    }
  }

  lemma RecvSomeSF(s: Exec, listen: ListenResult)
    requires SF(s) && HandlerReceives(s) && s.cur[0].reason.IoCompleted? && s.cur[0].reason.res > 0
    ensures var r := DispatchEvent(s, listen); if r.Ok? then SF(r.value) else r.reason == BufferFull
  {
    hide Tables, QuietStart, Addressed, Handlers, OneSpawn, Buffers, Matching, OneRequest, Capacity, Streams;
    RecvSomeDispatch(s, listen);
    var c' := GotBytes(s, s.cur[0].reason.res);
    if c'.offset < BUF_SIZE {
      var op := RecvOp(s.cur[0].handle, c'.socket, c'.buf.value, c'.offset);
      GotBytesCanMove(s, op);
      GotBytesStream(s, op);
      MovedSF(s, c', s.bufs.gen, op);
    }
  }

  lemma GotBytesCanMove(s: Exec, op: Op)
    requires Inv(s) && HandlerReceives(s) && s.cur[0].reason.IoCompleted? && s.cur[0].reason.res > 0
    requires Head(s).buf.Some? && Head(s).buf.value.index < |s.bufs.mem|
    requires var c := GotBytes(s, s.cur[0].reason.res);
      c.offset < BUF_SIZE && op == RecvOp(s.cur[0].handle, c.socket, c.buf.value, c.offset)
    ensures CanMove(s, GotBytes(s, s.cur[0].reason.res), s.bufs.gen, [op])
  {
    RecvEvent(s);
  }

  /** The phase computed from the buffer is the phase of the bytes received. */
  lemma GotBytesStream(s: Exec, op: Op)
    requires SF(s) && HandlerReceives(s) && s.cur[0].reason.IoCompleted? && s.cur[0].reason.res > 0
    requires Head(s).buf.Some? && Head(s).buf.value.index < |s.bufs.mem|
    requires var c := GotBytes(s, s.cur[0].reason.res);
      c.offset < BUF_SIZE && op == RecvOp(s.cur[0].handle, c.socket, c.buf.value, c.offset)
    ensures Weight(s.cur[0]) == 0
    ensures var s' := Moved(s, GotBytes(s, s.cur[0].reason.res), s.bufs.gen, [op]);
            var id := s.cur[0].handle.id;
      StreamOk(s', id) && Awaited(s', id, op.kind) && InStep(s, id, op.kind, 0)
  {
    HeadReceive(s);
    var c' := GotBytes(s, s.cur[0].reason.res);
    var m := s.bufs.mem[c'.buf.value.index];
    var got := s.k.Received(s.cur[0].handle.id);
    if HDR_SIZE <= c'.offset { assert m[..HDR_SIZE] == m[..|got|][..HDR_SIZE]; }
  }

  lemma RecvErrorSF(s: Exec, listen: ListenResult)
    requires SF(s) && HandlerReceives(s) && s.cur[0].reason.IoCompleted? && s.cur[0].reason.res < 0
    ensures var r := DispatchEvent(s, listen); if r.Ok? then SF(r.value) else r.reason == UnexpectedIoError
  {
    hide QuietStart, Addressed, Handlers, OneSpawn, Buffers, Matching, OneRequest, Capacity, Streams;
    HeadReceive(s);
    RecvEvent(s);
    RecvErrorDispatch(s, listen);
    var c := Head(s);
    if !FatalErrno(Errno(s.cur[0].reason.res)) {
      MovedSF(s, c, s.bufs.gen, RecvOp(s.cur[0].handle, c.socket, c.buf.value, c.offset));
    }
  }

  lemma ClosingSF(s: Exec, listen: ListenResult)
    requires SF(s) && ForHandler(s) && Head(s).state.Closing?
    ensures var r := DispatchEvent(s, listen); if r.Ok? then SF(r.value) else r.reason == GenerationOverflow
  {
    hide QuietStart, Addressed, OneSpawn, Buffers, OneRequest, Capacity;
    ClosingDispatch(s, listen);
    var c := Head(s);
    assert ConnOk(s.bufs, c);
    assert s.cur[0] in Pending(s);
    assert EventAwaited(s, s.cur[0]);
    if s.cur[0].reason.res != 0 {
      MovedSF(s, c, s.bufs.gen, Op(s.cur[0].handle, OpKind.Close(c.socket)));
    } else if s.conns.gen.Free(s.cur[0].handle.id).1 == Freed {
      EndedSF(s);
    }
  }

  ghost predicate ListenerGoesOn(s: Exec, r: Outcome<Exec>) {
    if r.Ok? then SF(r.value) else r.reason == HandlerPoolFull && s.N() < s.files
  }

  /** With a slot for each descriptor the pool is never full when a connection is accepted. */
  lemma ListenerSF(s: Exec, listen: ListenResult)
    requires SF(s) && ForListener(s)
    ensures ListenerGoesOn(s, DispatchEvent(s, listen))
  {
    hide QuietStart, Handlers, OneSpawn, Buffers, Matching, OneRequest, Capacity, Streams;
    ListenerEvent(s);
    if s.cur[0].reason.Spawn? {
      ListenerSpawnDispatch(s, listen);
      match listen {
        case Listening(fd) =>
          ListenerDroppedSF(s, TcpServer(Accepting, fd));
          AcceptSubmittedSF(ListenerSet(Dropped(s), TcpServer(Accepting, fd)), fd);
        case ListenFailed(e) =>
          ListenerDroppedSF(s, TcpServer(TcpState.Error(e), Server(s).listenerFd));
      }
    } else {
      ListenerIoDispatch(s, listen);
      if Server(s).state.Accepting? && s.cur[0].reason.res < 0 {
        ListenerDroppedSF(s, TcpServer(TcpState.Error(s.cur[0].reason.res), Server(s).listenerFd));
      } else {
        AcceptIgnoredSF(s);
        if Server(s).state.Accepting? { AcceptedSF(s, listen); }
      }
    }
  }

  lemma AcceptedSF(s: Exec, listen: ListenResult)
    requires SF(s) && ForListener(s) && s.cur[0].reason.IoCompleted?
    requires s.cur[0].origin.Some? && s.cur[0].origin.value.Accept?
    requires Server(s).state.Accepting? && s.cur[0].reason.res >= 0
    requires SF(Dropped(s))
    requires |s.conns.objects| + 1 + Peak(Pending(Dropped(s))) <= s.files
    requires |s.conns.objects| + 1 + Net(Pending(Dropped(s))) <= |s.k.open|
    ensures ListenerGoesOn(s, DispatchEvent(s, listen))
  {
    hide QuietStart, Handlers, OneSpawn, Buffers, Matching, OneRequest, Capacity, Streams;
    ListenerIoDispatch(s, listen);
    if s.conns.gen.free == [] {
      PoolBound(s.conns);
      return;
    }
    hide DispatchEvent, Tables;
    SpawnedSF(Dropped(s), s.cur[0].reason.res, s.cur[0].reason.flags);
  }

  lemma SpawnedSF(s: Exec, fd: nat, flags: nat)
    requires SF(s) && Server(s).state.Accepting?
    requires forall e :: e in s.next ==> e.reason.Spawn?
    requires |s.conns.objects| + 1 + Peak(Pending(s)) <= s.files
    requires |s.conns.objects| + 1 + Net(Pending(s)) <= |s.k.open|
    requires SpawnHandler(s, fd).Ok?
    ensures SF(SpawnHandler(s, fd).value)
    ensures !More(flags) ==> SF(Submit(SpawnHandler(s, fd).value, AcceptOp(s, Server(s).listenerFd)))
  {
    SpawnHandlerSF(s, fd);
    if !More(flags) { AcceptSubmittedSF(SpawnHandler(s, fd).value, Server(s).listenerFd); }
  }

  /** The panics left in single-flight runs. */
  predicate StopsSingly(s: Exec, reason: Panic) {
    || reason in {UnexpectedIoError, GenerationOverflow, BufferFull, CompletionQueueFull}
    || (reason == HandlerPoolFull && s.N() < s.files)
  }

  lemma DispatchSF(s: Exec, listen: ListenResult)
    requires SF(s) && s.cur != []
    ensures var r := DispatchEvent(s, listen);
      if r.Ok? then SF(r.value) else StopsSingly(s, r.reason) && r.reason != CompletionQueueFull
  {
    var e := s.cur[0];
    assert e in Pending(s);
    assert EventOk(s, e);
    if e.handle.poolId == TCP_SERVER {
      ListenerSF(s, listen);
    } else {
      assert ForHandler(s) by {
        CountMember(Pending(s), e);
        assert e.handle == ConnHandle(e.handle.id);
        if e.reason.IoCompleted? { assert EventAwaited(s, e); } else { assert Spawns(s, e.handle.id) >= 1; }
      }
      assert ConnOk(s.bufs, Head(s));
      match Head(s).state {
        case Init => InitSF(s, listen);
        case Closing => ClosingSF(s, listen);
        case Recv(_) =>
          HeadReceive(s);
          if e.reason.res == 0 {
            RecvEndSF(s, listen);
          } else if e.reason.res > 0 {
            RecvSomeSF(s, listen);
          } else {
            RecvErrorSF(s, listen);
          }
      }
    }
  }

  lemma StepSF(s: Exec, step: Step)
    requires SF(s) && Enabled(s, step) && SingleFlightStep(s, step)
    ensures var r := Apply(s, step);
      if r.Ok? then SF(r.value) else StopsSingly(s, r.reason)
  {
    match step {
      case Dispatch(listen) => DispatchSF(s, listen);
      case Post(i, res, flags, fill) => PostSF(s, i, res, flags, fill);
      case Collect =>
        if CollectCompletion(s).Ok? {
          CollectInv(s);
          RearrangedSF(s, CollectCompletion(s).value);
        }
      case Switch =>
        SwitchInv(s);
        RearrangedSF(s, Apply(s, Switch).value);
    }
  }

  lemma {:induction false} RunSF(s: Exec, steps: seq<Step>, s': Exec)
    requires SF(s) && Run(s, steps, s') && SingleFlight(s, steps)
    ensures SF(s')
    decreases |steps|
  {
    if steps != [] {
      StepSF(s, steps[0]);
      RunSF(Apply(s, steps[0]).value, steps[1..], s');
    }
  }
}
