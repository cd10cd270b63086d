/** What holds besides in every single-flight run, up to a panic. */
module SingleFlightRuns {
  import opened Wrappers
  import opened Sequences
  import opened GenAllocSpec
  import opened ObjectHandles
  import opened Protocol
  import opened MachineSpecs
  import opened PoolSpec
  import opened ExecutorModel
  import opened EventCounts
  import opened ExecutorInvariant
  import opened ExecutorSteps
  import opened Weights
  import opened SingleFlightInvariant
  import opened SingleFlightSteps
  import opened ExecutorRuns

  ghost predicate ReachedSingly(c: Config, steps: seq<Step>, s: Exec) {
    Reached(c, steps, s) && SingleFlight(c.Begin(), steps)
  }

  lemma StartSF(c: Config)
    requires c.Valid()
    ensures SF(c.Begin())
  {
    var s := c.Begin();
    StartInv(c.ListenerSlots(), c.Slots(), c.handlers, c.bufs, c.mem);
    assert Pending(s) == s.cur;
    forall id ensures Ios(s, id) == 0 {
      CountNone(Pending(s), ConnHandle(id), false);
    }
    assert Peak(s.cur) == 0 && Net(s.cur) == 0 by { assert s.cur[1..] == []; }
  }

  lemma ReachedSF(c: Config, steps: seq<Step>, s: Exec)
    requires ReachedSingly(c, steps, s)
    ensures SF(s) && Sized(c, s)
  {
    StartSF(c);
    RunSF(c.Begin(), steps, s);
    ReachedInv(c, steps, s);
  }

  // ---------- The handler pool ----------

  /** Whatever prefix of the pending events is processed, the handlers fit the descriptor table, so an
      accepted connection finds a slot if the pool has one for each descriptor; and the only other panics
      left are the peer's, a spent generation, and a completion queue overflow. `PoolFull` has a run that is
      not single-flight and finds no slot; with a pool masked to fewer slots `MaskedPool` has one that is. */
  lemma AcceptFindsASlot(c: Config, steps: seq<Step>, s: Exec)
    requires ReachedSingly(c, steps, s)
    ensures forall k :: 0 <= k <= |Pending(s)| ==> |s.conns.objects| + Net(Pending(s)[..k]) <= c.handlers
    ensures c.handlers == c.Slots() <==> c.handlers <= POOL_MASK
    ensures forall listen :: s.cur != [] && DispatchEvent(s, listen).Panicked?
              ==> || DispatchEvent(s, listen).reason in {UnexpectedIoError, GenerationOverflow, BufferFull}
                  || (DispatchEvent(s, listen).reason == HandlerPoolFull && POOL_MASK < c.handlers)
  {
    ReachedSF(c, steps, s);
    hide Inv, Matching, OneRequest, Streams, Run, SingleFlight, DispatchEvent;
    hide PoolSlots;
    forall k | 0 <= k <= |Pending(s)| ensures |s.conns.objects| + Net(Pending(s)[..k]) <= c.handlers {
      PeakIsBound(Pending(s), k);
    }
    forall listen | s.cur != []
      ensures DispatchEvent(s, listen).Panicked?
        ==> || DispatchEvent(s, listen).reason in {UnexpectedIoError, GenerationOverflow, BufferFull}
            || (DispatchEvent(s, listen).reason == HandlerPoolFull && POOL_MASK < c.handlers)
    {
      DispatchSF(s, listen);
    }
  }

  // ---------- Requests ----------

  /** Each handler in `Recv` or `Closing` has exactly one request in flight or completed and queued,
      the others none, and it is the request the handler waits for. */
  lemma OneRequestEach(c: Config, steps: seq<Step>, s: Exec)
    requires ReachedSingly(c, steps, s)
    ensures forall id :: Ios(s, id) ==
              if id in s.conns.objects && (s.conns.objects[id].state.Recv? || s.conns.objects[id].state.Closing?)
              then 1 else 0
    ensures forall op :: op in s.k.inflight && op.handle.poolId == CONN_HANDLER ==> Awaited(s, op.handle.id, op.kind)
    ensures forall e :: e in Pending(s) && IsConnIo(e) ==> e.origin.Some? && Awaited(s, e.handle.id, e.origin.value)
  {
    ReachedSF(c, steps, s);
    forall id ensures Ios(s, id) ==
      if id in s.conns.objects && (s.conns.objects[id].state.Recv? || s.conns.objects[id].state.Closing?) then 1 else 0
    {
      assert Ios(s, id) == if id in s.conns.objects && !s.conns.objects[id].state.Init? then 1 else 0;
      if id in s.conns.objects { assert ConnOk(s.bufs, s.conns.objects[id]); }
    }
    forall e | e in Pending(s) && IsConnIo(e) ensures e.origin.Some? && Awaited(s, e.handle.id, e.origin.value) {
      assert EventAwaited(s, e);
    }
  }

  /** A receive in flight writes exactly the free end of its own handler's live buffer, and receives of
      different handlers write different buffers. */
  lemma ReceivesAreDisjoint(c: Config, steps: seq<Step>, s: Exec, a: Op, b: Op)
    requires ReachedSingly(c, steps, s)
    requires a in s.k.inflight && b in s.k.inflight && a.kind.Recv? && b.kind.Recv?
    ensures a.handle.id in s.conns.objects && s.conns.objects[a.handle.id].state.Recv?
    ensures s.conns.objects[a.handle.id].buf == Some(a.kind.buffer) && s.bufs.gen.Live(a.kind.buffer)
    ensures a.kind.fd == s.conns.objects[a.handle.id].socket
    ensures a.kind.offset == s.conns.objects[a.handle.id].offset && a.kind.offset + a.kind.len == 0x1000
    ensures a.handle != b.handle ==> a.kind.buffer.index != b.kind.buffer.index
  {
    ReachedSF(c, steps, s);
    assert OpOk(s, a) && OpOk(s, b);
    assert Awaited(s, a.handle.id, a.kind) && Awaited(s, b.handle.id, b.kind);
    assert ConnOk(s.bufs, s.conns.objects[a.handle.id]);
    if a.handle != b.handle { OtherBuffer(s, a.handle.id, b.handle.id); }
  }

  // ---------- The message header ----------

  /** A handler's buffer holds exactly what was received for it, however it was split into receives, and
      it knows the header exactly from the fifth byte on: a little-endian magic in the first four, then the command. */
  lemma HeaderParsing(c: Config, steps: seq<Step>, s: Exec, id: GenId)
    requires ReachedSingly(c, steps, s) && id in s.conns.objects && s.conns.objects[id].state.Recv?
    ensures s.conns.objects[id].buf.Some? && s.conns.objects[id].buf.value.index < |s.bufs.mem|
    ensures var conn := s.conns.objects[id];
            var got := s.k.Received(id);
            var m := s.bufs.mem[conn.buf.value.index];
      && conn.offset <= |got| && |got| <= |m|
      && m[..conn.offset] == got[..conn.offset]
      && (CountOps(s.k.inflight, ConnHandle(id)) == 1 ==> conn.offset == |got|)
      && (conn.state.phase.ReceivingBody? <==> 5 <= conn.offset)
      && (5 <= conn.offset ==>
            && conn.state.phase.header.cmd == got[4]
            && conn.state.phase.header.magic
               == got[0] as int + 0x100 * got[1] as int + 0x1_0000 * got[2] as int + 0x100_0000 * got[3] as int)
  {
    ReachedSF(c, steps, s);
    hide Tables, QuietStart, Addressed, Handlers, OneSpawn, Buffers, Capacity, OneRequest, Matching, PhaseAfter;
    Parsed(s, id);
    InflightOffset(s, id);
  }

  lemma Parsed(s: Exec, id: GenId)
    requires id in s.conns.objects && s.conns.objects[id].state.Recv? && StreamOk(s, id)
    ensures s.conns.objects[id].buf.Some? && s.conns.objects[id].buf.value.index < |s.bufs.mem|
    ensures var conn := s.conns.objects[id];
            var got := s.k.Received(id);
            var m := s.bufs.mem[conn.buf.value.index];
      && conn.offset <= |got| && |got| <= |m|
      && m[..conn.offset] == got[..conn.offset]
      && (conn.state.phase.ReceivingBody? <==> HDR_SIZE <= conn.offset)
      && (HDR_SIZE <= conn.offset ==> conn.state.phase.header == ReadHeader(got[..HDR_SIZE]))
  {
    var conn := s.conns.objects[id];
    var got := s.k.Received(id);
    assert s.bufs.mem[conn.buf.value.index][..conn.offset] == got[..conn.offset];
  }

  /** While the receive is in flight everything received was processed. */
  lemma InflightOffset(s: Exec, id: GenId)
    requires Matching(s) && id in s.conns.objects && s.conns.objects[id].state.Recv?
    ensures CountOps(s.k.inflight, ConnHandle(id)) == 1 ==> s.conns.objects[id].offset == |s.k.Received(id)|
  {
    if CountOps(s.k.inflight, ConnHandle(id)) == 1 {
      var op := OpOf(s.k.inflight, ConnHandle(id));
      assert Awaited(s, id, op.kind) && InStep(s, id, op.kind, 0);
    }
  }

  lemma {:induction false} OpOf(q: seq<Op>, h: ObjectHandle) returns (op: Op)
    requires CountOps(q, h) > 0
    ensures op in q && op.handle == h
  {
    if q[0].handle == h { op := q[0]; } else { op := OpOf(q[1..], h); }
  }

  /** What was received for a handler is never taken back. */
  lemma StepStream(s: Exec, step: Step, id: GenId)
    requires Inv(s) && Enabled(s, step) && Apply(s, step).Ok?
    ensures s.k.Received(id) <= Apply(s, step).value.k.Received(id)
  {
    if step.Dispatch? { var _, _, _ := DispatchShape(s, step.listen); }
  }

  lemma {:induction false} RunStream(s: Exec, steps: seq<Step>, s': Exec, id: GenId)
    requires Inv(s) && Run(s, steps, s')
    ensures s.k.Received(id) <= s'.k.Received(id)
    decreases |steps|
  {
    if steps != [] {
      StepInv(s, steps[0]);
      StepStream(s, steps[0], id);
      RunStream(Apply(s, steps[0]).value, steps[1..], s', id);
    }
  }

  lemma {:induction false} RunConcat(s: Exec, a: seq<Step>, t: Exec, b: seq<Step>, u: Exec)
    requires Run(s, a, t) && Run(t, b, u)
    ensures Run(s, a + b, u)
    ensures SingleFlight(s, a) && SingleFlight(t, b) ==> SingleFlight(s, a + b)
    decreases |a|
  {
    if a == [] {
      assert a + b == b;
    } else {
      RunConcat(Apply(s, a[0]).value, a[1..], t, b, u);
      assert (a + b)[1..] == a[1..] + b;
    }
  }

  lemma {:induction false} RunSnoc(s: Exec, steps: seq<Step>, m: Exec, step: Step)
    requires Run(s, steps, m) && Enabled(m, step) && Apply(m, step).Ok?
    ensures Run(s, steps + [step], Apply(m, step).value)
    ensures SingleFlight(s, steps) && SingleFlightStep(m, step) ==> SingleFlight(s, steps + [step])
    decreases |steps|
  {
    if steps == [] {
      assert [step][1..] == [] && [] + [step] == [step];
      assert Run(Apply(m, step).value, [], Apply(m, step).value);
    } else {
      RunSnoc(Apply(s, steps[0]).value, steps[1..], m, step);
      assert (steps + [step])[1..] == steps[1..] + [step];
    }
  }

  /** A header once parsed is the header for as long as the connection receives. */
  lemma HeaderIsStable(c: Config, before: seq<Step>, s: Exec, after: seq<Step>, s': Exec, id: GenId)
    requires ReachedSingly(c, before, s) && Run(s, after, s') && SingleFlight(s, after)
    requires id in s.conns.objects && s.conns.objects[id].state.Recv? && s.conns.objects[id].state.phase.ReceivingBody?
    requires id in s'.conns.objects && s'.conns.objects[id].state.Recv?
    ensures s'.conns.objects[id].state.phase == s.conns.objects[id].state.phase
  {
    ReachedInv(c, before, s);
    RunConcat(c.Begin(), before, s, after, s');
    HeaderParsing(c, before, s, id);
    HeaderParsing(c, before + after, s', id);
    RunStream(s, after, s', id);
    RunOnward(s, after, s', id);
    hide Inv, Run, SingleFlight;
    var got, got' := s.k.Received(id), s'.k.Received(id);
    assert got'[..|got|] == got;
    assert got'[..HDR_SIZE] == got[..HDR_SIZE];
  }

  // ---------- The run queues ----------

  /** Accept requests armed, and completions pending that ended one. */
  function AcceptsOpen(s: Exec): nat
    requires 0 < |s.listeners.gen.generation|
  {
    CountOps(s.k.inflight, ObjectHandle(TCP_SERVER, s.ListenerId())) + AcceptEnds(Pending(s))
  }

  ghost predicate OneAccept(s: Exec) {
    && Inv(s) && AcceptsOpen(s) <= 1
    && (Server(s).state.Init? ==> AcceptsOpen(s) == 0)
  }

  lemma DispatchOneAccept(s: Exec, listen: ListenResult)
    requires OneAccept(s) && s.cur != [] && DispatchEvent(s, listen).Ok?
    ensures 0 < |DispatchEvent(s, listen).value.listeners.gen.generation|
    ensures AcceptsOpen(DispatchEvent(s, listen).value) <= 1
  {
    var s' := DispatchEvent(s, listen).value;
    var newCur, newNext, ops := DispatchShape(s, listen);
    var lh := ObjectHandle(TCP_SERVER, s.ListenerId());
    var e := s.cur[0];
    assert EventOk(s, e) by { assert e in Pending(s); }
    hide DispatchEvent, Handlers, OneSpawn, Buffers, Addressed, KindOk;
    CountOpsAppend(s.k.inflight, ops, lh);
    AcceptEndsAfter(s, s', newCur, newNext);
    if e.handle != lh { CountOpsNone(ops, lh); } else { CountOpsLength(ops, lh); }
  }

  lemma {:induction false} CountOpsLength(q: seq<Op>, h: ObjectHandle)
    ensures CountOps(q, h) <= |q|
  {
    if q != [] { CountOpsLength(q[1..], h); }
  }

  lemma PostOneAccept(s: Exec, i: nat, res: int, flags: nat, fill: seq<byte>)
    requires OneAccept(s) && Answers(s, i, res, flags, fill)
    ensures 0 < |PostCompletion(s, i, res, flags, fill).listeners.gen.generation|
    ensures AcceptsOpen(PostCompletion(s, i, res, flags, fill)) <= 1
  {
    var op := s.k.inflight[i];
    assert OpOk(s, op);
    PostPending(s, i, res, flags, fill);
    AcceptEndsAppend(Pending(s), [Event(IoCompleted(res, flags), op.handle, Some(op.kind))]);
    CountOpsRemove(s.k.inflight, i, op.handle);
    CountOpsMember(s.k.inflight, op);
  }

  /** At most one accept request is armed or ending, on all runs. */
  lemma StepOneAccept(s: Exec, step: Step)
    requires OneAccept(s) && Enabled(s, step) && Apply(s, step).Ok?
    ensures OneAccept(Apply(s, step).value)
  {
    var s' := Apply(s, step).value;
    StepInv(s, step);
    match step {
      case Dispatch(listen) => DispatchOneAccept(s, listen);
      case Post(i, res, flags, fill) => PostOneAccept(s, i, res, flags, fill);
      case Collect => CollectInv(s);
      case Switch => SwitchInv(s);
    }
    if Server(s').state.Init? { NoAcceptEnds(Pending(s')); }
  }

  lemma {:induction false} RunOneAccept(s: Exec, steps: seq<Step>, s': Exec)
    requires OneAccept(s) && Run(s, steps, s')
    ensures OneAccept(s')
    decreases |steps|
  {
    if steps != [] {
      StepOneAccept(s, steps[0]);
      RunOneAccept(Apply(s, steps[0]).value, steps[1..], s');
    }
  }

  /** In every run at most one accept request is armed or has ended without being rearmed yet. */
  lemma OneAcceptArmed(c: Config, steps: seq<Step>, s: Exec)
    requires Reached(c, steps, s)
    ensures OneAccept(s)
  {
    StartInv(c.ListenerSlots(), c.Slots(), c.handlers, c.bufs, c.mem);
    NoAcceptEnds(Pending(c.Begin()));
    RunOneAccept(c.Begin(), steps, s);
  }

  // ---------- Requests in flight ----------

  function RequestIds(q: seq<Op>): seq<GenId> {
    if q == [] then []
    else (if q[0].handle.poolId == CONN_HANDLER then [q[0].handle.id] else []) + RequestIds(q[1..])
  }

  lemma {:induction false} RequestIdsMember(q: seq<Op>, id: GenId)
    requires id in RequestIds(q)
    ensures CountOps(q, ConnHandle(id)) >= 1
  {
    if !(q[0].handle.poolId == CONN_HANDLER && q[0].handle.id == id) { RequestIdsMember(q[1..], id); }
  }

  lemma {:induction false} RequestIdsDistinct(q: seq<Op>)
    requires forall id :: CountOps(q, ConnHandle(id)) <= 1
    ensures Distinct(RequestIds(q))
  {
    if q != [] {
      forall id ensures CountOps(q[1..], ConnHandle(id)) <= 1 { assert CountOps(q, ConnHandle(id)) <= 1; }
      RequestIdsDistinct(q[1..]);
      if q[0].handle.poolId == CONN_HANDLER {
        var id := q[0].handle.id;
        assert q[0].handle == ConnHandle(id) && CountOps(q, ConnHandle(id)) <= 1;
        if id in RequestIds(q[1..]) { RequestIdsMember(q[1..], id); }
      }
    }
  }

  lemma {:induction false} RequestsByMachine(q: seq<Op>, lh: ObjectHandle)
    requires forall op :: op in q ==> op.handle == lh || op.handle.poolId == CONN_HANDLER
    ensures |q| <= |RequestIds(q)| + CountOps(q, lh)
  {
    if q != [] {
      assert q[0] in q;
      RequestsByMachine(q[1..], lh);
    }
  }

  /** In single-flight runs a request for each handler and the accept are all that is ever in flight, so a
      submission queue of one entry more than the pool has slots refuses none. */
  lemma RequestsFit(c: Config, steps: seq<Step>, s: Exec)
    requires ReachedSingly(c, steps, s)
    ensures |s.k.inflight| <= |s.conns.objects| + 1 <= c.Slots() + 1
  {
    ReachedSF(c, steps, s);
    OneAcceptArmed(c, steps, s);
    var q := s.k.inflight;
    var lh := ObjectHandle(TCP_SERVER, s.ListenerId());
    forall op | op in q ensures op.handle == lh || op.handle.poolId == CONN_HANDLER { assert OpOk(s, op); }
    RequestsByMachine(q, lh);
    PoolBound(s.conns);
    hide Tables, QuietStart, Addressed, Handlers, OneSpawn, Buffers, Matching, Capacity, Streams;
    HandlerRequests(s);
  }

  lemma HandlerRequests(s: Exec)
    requires OneRequest(s)
    ensures |RequestIds(s.k.inflight)| <= |s.conns.objects|
  {
    var q := s.k.inflight;
    forall id ensures CountOps(q, ConnHandle(id)) <= 1 { assert Ios(s, id) <= 1; }
    RequestIdsDistinct(q);
    forall i | 0 <= i < |RequestIds(q)| ensures RequestIds(q)[i] in s.conns.objects.Keys {
      RequestIdsMember(q, RequestIds(q)[i]);
      assert Ios(s, RequestIds(q)[i]) >= 1;
    }
    DistinctBound(RequestIds(q), s.conns.objects.Keys);
  }

  // ---------- Events pending ----------

  /** At most 2n events are pending anywhere, one more only while a failed accept is among them. */
  lemma PendingFits(c: Config, steps: seq<Step>, s: Exec)
    requires ReachedSingly(c, steps, s)
    ensures |Pending(s)| <= 2 * c.handlers + Errors(Pending(s)) && Errors(Pending(s)) <= 1
  {
    ReachedSF(c, steps, s);
    OneAcceptArmed(c, steps, s);
    ErrorsEnd(Pending(s));
    if Server(s).state.Init? {
      assert |Pending(s)| == 1;
    } else {
      PendingBound(s);
    }
  }

  lemma PendingBound(s: Exec)
    requires SF(s) && !Server(s).state.Init?
    ensures |Pending(s)| <= 2 * s.files + Errors(Pending(s))
  {
    var q := Pending(s);
    forall e | e in q ensures e.handle.poolId == CONN_HANDLER || IsAccept(e) {
      assert EventOk(s, e);
    }
    forall id ensures Count(q, ConnHandle(id), true) + Count(q, ConnHandle(id), false) <= 1 {
      assert Spawns(s, id) == if id in s.conns.objects && s.conns.objects[id].state.Init? then 1 else 0;
      assert Ios(s, id) == if id in s.conns.objects && !s.conns.objects[id].state.Init? then 1 else 0;
    }
    LengthBound(q);
    ConnIdsDistinct(q);
    forall i | 0 <= i < |ConnIds(q)| ensures ConnIds(q)[i] in s.conns.objects.Keys {
      ConnIdsMember(q, ConnIds(q)[i]);
      assert Spawns(s, ConnIds(q)[i]) + Ios(s, ConnIds(q)[i]) >= 1;
    }
    DistinctBound(ConnIds(q), s.conns.objects.Keys);
    NetBelowPeak(q);
  }

  /** Collecting a completion finds no room in the next run queue exactly when that is full and a failed
      accept is among the pending events. */
  lemma CollectFits(c: Config, steps: seq<Step>, s: Exec)
    requires ReachedSingly(c, steps, s) && Enabled(s, Collect)
    ensures CollectCompletion(s).Panicked? <==> Errors(Pending(s)) == 1 && |s.next| == 2 * c.handlers
  {
    ReachedSF(c, steps, s);
    PendingFits(c, steps, s);
  }
}
