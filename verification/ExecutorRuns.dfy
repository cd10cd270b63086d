/** What holds in every run, with whatever I/O errors, up to a panic. */
module ExecutorRuns {
  import opened Wrappers
  import opened Sequences
  import opened GenAllocSpec
  import opened ObjectHandles
  import opened Protocol
  import opened MachineSpecs
  import opened PoolSpec
  import opened ExecutorModel
  import opened EventCounts
  import opened ExecutorInvariant
  import opened ExecutorSteps
  import opened Weights

  /** The arguments of the executor, and what the buffers hold at the start. */
  datatype Config = Config(listeners: nat, handlers: nat, bufs: nat, mem: seq<seq<byte>>) {

    ghost predicate Valid() {
      && listeners <= MAX_U32 && handlers <= MAX_U32 && 0 < ListenerSlots() && 0 < Slots()
      && 0 < bufs == |mem| && forall i :: 0 <= i < bufs ==> |mem[i]| == BUF_SIZE
    }

    /** The pools keep 24 bits of the capacity they are asked for. */
    function ListenerSlots(): nat { PoolSlots(listeners) }
    function Slots(): nat { PoolSlots(handlers) }

    function Begin(): Exec
      requires 0 < ListenerSlots()
    {
      Start(ListenerSlots(), Slots(), handlers, bufs, mem)
    }
  }

  ghost predicate Reached(c: Config, steps: seq<Step>, s: Exec) {
    c.Valid() && Run(c.Begin(), steps, s)
  }

  /** The tables still have their configured sizes, and the listener's pool holds the one listener. */
  ghost predicate Sized(c: Config, s: Exec) {
    && s.N() == c.Slots() && s.files == c.handlers && |s.bufs.gen.generation| == c.bufs
    && 0 < c.ListenerSlots() == |s.listeners.gen.generation|
    && s.ListenerId() == GenId(c.ListenerSlots() - 1, 0)
    && s.listeners.objects.Keys == {s.ListenerId()}
  }

  lemma ReachedInv(c: Config, steps: seq<Step>, s: Exec)
    requires Reached(c, steps, s)
    ensures Inv(s) && Sized(c, s)
  {
    StartInv(c.ListenerSlots(), c.Slots(), c.handlers, c.bufs, c.mem);
    RunInv(c.Begin(), steps, s);
    SizesKept(c.Begin(), steps, s);
  }

  // ---------- The shape of a dispatch ----------

  /** Everything one event can add: at most one spawn here, one retry there, and requests of its own machine. */
  lemma DispatchShape(s: Exec, listen: ListenResult)
    returns (newCur: seq<Event>, newNext: seq<Event>, ops: seq<Op>)
    requires Inv(s) && s.cur != [] && DispatchEvent(s, listen).Ok?
    ensures var s' := DispatchEvent(s, listen).value;
      && s'.cur == s.cur[1..] + newCur && s'.next == s.next + newNext
      && s'.k == s.k.(inflight := s.k.inflight + ops)
      && s'.listeners.gen == s.listeners.gen && s'.N() == s.N() && s'.files == s.files
      && |s'.bufs.gen.generation| == |s.bufs.gen.generation|
      && (forall id :: s.conns.gen.Issued(id) ==> s'.conns.gen.Issued(id))
      && (forall id :: id in s'.conns.objects ==> id in s.conns.objects || !s.conns.gen.Issued(id))
    ensures forall e :: e in newCur || e in newNext ==>
              e.reason.Spawn? && e.handle.poolId == CONN_HANDLER && e.origin.None?
    ensures forall op :: op in ops ==> op.handle == s.cur[0].handle
    ensures |newCur| <= (if s.cur[0].handle.poolId == TCP_SERVER then 1 else 0) && |newNext| <= 1
    ensures newNext != [] ==> ForHandler(s) && Head(s).state.Init? && s.bufs.gen.free == []
    ensures s.cur[0].handle.poolId == TCP_SERVER ==>
              |ops| <= (if s.cur[0].reason.Spawn? || EndsAccept(s.cur[0]) then 1 else 0)
    ensures s.cur[0].handle.poolId == TCP_SERVER && s.cur[0].reason.Spawn? ==> QuietStart(s) && Server(s).state.Init?
  {
    newCur, newNext, ops := [], [], [];
    assert EventOk(s, s.cur[0]) by { assert s.cur[0] in Pending(s); }
    if s.cur[0].handle.poolId == TCP_SERVER {
      newCur, ops := ListenerShape(s, listen);
    } else if s.cur[0].handle.id in s.conns.objects {
      newNext, ops := HandlerShape(s, listen);
    } else {
      assert s.k.inflight + [] == s.k.inflight;
    }
  }

  lemma ListenerShape(s: Exec, listen: ListenResult) returns (newCur: seq<Event>, ops: seq<Op>)
    requires Inv(s) && ForListener(s) && DispatchEvent(s, listen).Ok?
    ensures var s' := DispatchEvent(s, listen).value;
      && s'.cur == s.cur[1..] + newCur && s'.next == s.next
      && s'.k == s.k.(inflight := s.k.inflight + ops)
      && s'.listeners.gen == s.listeners.gen && s'.N() == s.N() && s'.files == s.files && s'.bufs == s.bufs
      && (forall id :: s.conns.gen.Issued(id) ==> s'.conns.gen.Issued(id))
      && (forall id :: id in s'.conns.objects ==> id in s.conns.objects || !s.conns.gen.Issued(id))
    ensures |newCur| <= 1
    ensures forall e :: e in newCur ==> e.reason.Spawn? && e.handle.poolId == CONN_HANDLER && e.origin.None?
    ensures forall op :: op in ops ==> op.handle == s.cur[0].handle
    ensures |ops| <= (if s.cur[0].reason.Spawn? || EndsAccept(s.cur[0]) then 1 else 0)
    ensures s.cur[0].reason.Spawn? ==> QuietStart(s) && Server(s).state.Init?
  {
    ListenerEvent(s);
    newCur, ops := [], [];
    if s.cur[0].reason.Spawn? {
      ListenerSpawnDispatch(s, listen);
      if listen.Listening? { ops := [AcceptOp(s, listen.fd)]; }
    } else {
      ListenerIoDispatch(s, listen);
      AllocFresh(s.conns.gen);
      var IoCompleted(res, flags) := s.cur[0].reason;
      if Server(s).state.Accepting? && res >= 0 {
        newCur := [SpawnEvent(ConnHandle(s.conns.gen.Alloc().1.value))];
        if !More(flags) { ops := [AcceptOp(s, Server(s).listenerFd)]; }
      }
    }
    assert s.k.inflight + [] == s.k.inflight;
  }

  lemma HandlerShape(s: Exec, listen: ListenResult) returns (newNext: seq<Event>, ops: seq<Op>)
    requires Inv(s) && ForHandler(s) && DispatchEvent(s, listen).Ok?
    ensures var s' := DispatchEvent(s, listen).value;
      && s'.cur == s.cur[1..] && s'.next == s.next + newNext
      && s'.k == s.k.(inflight := s.k.inflight + ops)
      && s'.listeners == s.listeners && s'.N() == s.N() && s'.files == s.files
      && |s'.bufs.gen.generation| == |s.bufs.gen.generation|
      && (forall id :: s.conns.gen.Issued(id) ==> s'.conns.gen.Issued(id))
      && (forall id :: id in s'.conns.objects ==> id in s.conns.objects)
    ensures forall e :: e in newNext ==> e.reason.Spawn? && e.handle.poolId == CONN_HANDLER && e.origin.None?
    ensures forall op :: op in ops ==> op.handle == s.cur[0].handle
    ensures |newNext| <= 1
    ensures newNext != [] ==> Head(s).state.Init? && s.bufs.gen.free == []
  {
    hide QuietStart, Addressed, OneSpawn, Buffers;
    HeadOk(s);
    newNext, ops := [], [];
    var h := s.cur[0].handle;
    var c := Head(s);
    match c.state {
      case Init =>
        InitDispatch(s, listen);
        AllocFresh(s.bufs.gen);
        var b := s.bufs.gen.Alloc().1;
        if b.None? { newNext := [SpawnEvent(h)]; } else { ops := [RecvOp(h, c.socket, b.value, 0)]; }
      case Closing =>
        ClosingDispatch(s, listen);
        FreeIssued(s.conns.gen, h.id);
        if s.cur[0].reason.res != 0 { ops := [Op(h, OpKind.Close(c.socket))]; }
      case Recv(_) =>
        ops := ReceiverShape(s, listen);
    }
    assert s.k.inflight + [] == s.k.inflight;
  }

  lemma ReceiverShape(s: Exec, listen: ListenResult) returns (ops: seq<Op>)
    requires Inv(s) && HandlerReceives(s) && DispatchEvent(s, listen).Ok?
    ensures exists c, gen ::
              DispatchEvent(s, listen).value == Moved(s, c, gen, ops) && |gen.generation| == |s.bufs.gen.generation|
    ensures forall op :: op in ops ==> op.handle == s.cur[0].handle
  {
    hide QuietStart, Addressed, OneSpawn, Buffers, Handlers;
    RecvEvent(s);
    var h := s.cur[0].handle;
    var c := Head(s);
    var res := s.cur[0].reason.res;
    if res == 0 {
      RecvEndDispatch(s, listen);
      FreeIssued(s.bufs.gen, c.buf.value);
      ops := [Op(h, OpKind.Close(c.socket))];
      assert DispatchEvent(s, listen).value
          == Moved(s, c.(state := Closing, offset := 0), s.bufs.gen.Free(c.buf.value).0, ops);
    } else if res > 0 {
      RecvSomeDispatch(s, listen);
      ops := [RecvOp(h, c.socket, c.buf.value, c.offset + res)];
      assert DispatchEvent(s, listen).value == Moved(s, GotBytes(s, res), s.bufs.gen, ops);
    } else {
      RecvErrorDispatch(s, listen);
      var op := RecvOp(h, c.socket, c.buf.value, c.offset);
      ops := if RetryErrno(Errno(res)) then [op, op] else [op];
      assert DispatchEvent(s, listen).value == Moved(s, c, s.bufs.gen, ops);
    }
  }

  /** The tables never change size. */
  lemma {:induction false} SizesKept(s: Exec, steps: seq<Step>, s': Exec)
    requires Inv(s) && Run(s, steps, s')
    ensures s'.N() == s.N() && s'.files == s.files && |s'.bufs.gen.generation| == |s.bufs.gen.generation|
    ensures |s'.listeners.gen.generation| == |s.listeners.gen.generation|
    decreases |steps|
  {
    if steps != [] {
      var t := Apply(s, steps[0]).value;
      if steps[0].Dispatch? { var _, _, _ := DispatchShape(s, steps[0].listen); }
      StepInv(s, steps[0]);
      SizesKept(t, steps[1..], s');
    }
  }

  // ---------- Which events reach which machine ----------

  /** No machine gets an event it has no transition for: a handler in `Init` has one `Spawn` queued and
      no I/O anywhere, any other handler has no `Spawn` queued, a handler is never `Closed`, a listener in
      `Init` has its `Spawn` as the only pending event, and every handle names one of the two pools. */
  lemma MachinesGetTheirEvents(c: Config, steps: seq<Step>, s: Exec)
    requires Reached(c, steps, s)
    ensures forall id :: id in s.conns.objects && s.conns.objects[id].state.Init? ==>
              Spawns(s, id) == 1 && Ios(s, id) == 0
    ensures forall id :: id !in s.conns.objects || !s.conns.objects[id].state.Init? ==> Spawns(s, id) == 0
    ensures forall id :: id in s.conns.objects ==> !s.conns.objects[id].state.Closed?
    ensures Sized(c, s)
    ensures Server(s).state.Init? ==>
              Pending(s) == [SpawnEvent(ObjectHandle(1, GenId(c.ListenerSlots() - 1, 0)))]
    ensures forall e :: e in Pending(s) && e.reason.Spawn? && e.handle.poolId == TCP_SERVER ==> Server(s).state.Init?
    ensures forall e :: e in Pending(s) ==> e.handle.poolId in {1, 2}
  {
    ReachedInv(c, steps, s);
    forall id | id in s.conns.objects ensures !s.conns.objects[id].state.Closed? {
      assert ConnOk(s.bufs, s.conns.objects[id]);
    }
    forall id ensures Spawns(s, id) == if id in s.conns.objects && s.conns.objects[id].state.Init? then 1 else 0 {}
    forall e | e in Pending(s)
      ensures e.handle.poolId in {1, 2}
      ensures e.reason.Spawn? && e.handle.poolId == TCP_SERVER ==> Server(s).state.Init?
    {
      assert EventOk(s, e);
    }
  }

  /** The next step never stops the run in an `unreachable!()` arm, by an unchecked or failed unwrap of
      the machines' own data, or by a push of the executor's own events. */
  lemma OnlyKernelMadePanics(c: Config, steps: seq<Step>, s: Exec, step: Step)
    requires Reached(c, steps, s) && Enabled(s, step)
    ensures Apply(s, step).Panicked? ==>
      Apply(s, step).reason in
      {UnexpectedIoError, GenerationOverflow, StaleBuffer, BufferFull, HandlerPoolFull, CompletionQueueFull}
  {
    ReachedInv(c, steps, s);
    StepInv(s, step);
  }

  /** The events on which a handler stops the run. */
  predicate StopsHandler(c: Conn, id: GenId, res: int) {
    match c.state
    case Recv(_) =>
      if res > 0 then c.offset + res >= BUF_SIZE
      else if res == 0 then c.buf.Some? && c.buf.value.generation == MAX_U32
      else FatalErrno(-res) || ClosingErrno(-res)
    case Closing => res == 0 && id.generation == MAX_U32
    case _ => false
  }

  /** Exactly when dispatching an event stops the run. */
  lemma DispatchPanicsIff(c: Config, steps: seq<Step>, s: Exec, listen: ListenResult)
    requires Reached(c, steps, s) && s.cur != []
    ensures Sized(c, s)
    ensures DispatchEvent(s, listen).Panicked? <==>
      var e := s.cur[0];
      if e.handle.poolId == TCP_SERVER then
        && e.reason.IoCompleted? && e.reason.res >= 0 && Server(s).state.Accepting?
        && |s.conns.objects| == c.Slots()
      else
        && e.handle.id in s.conns.objects && e.reason.IoCompleted?
        && StopsHandler(s.conns.objects[e.handle.id], e.handle.id, e.reason.res)
  {
    ReachedInv(c, steps, s);
    var e := s.cur[0];
    assert EventOk(s, e) by { assert e in Pending(s); }
    if e.handle.poolId == TCP_SERVER {
      ListenerEvent(s);
      PoolBound(s.conns);
      if e.reason.Spawn? { ListenerSpawnDispatch(s, listen); } else { ListenerIoDispatch(s, listen); }
    } else if e.handle.id in s.conns.objects {
      HandlerPanicsIff(s, listen);
    }
  }

  lemma HandlerPanicsIff(s: Exec, listen: ListenResult)
    requires Inv(s) && ForHandler(s)
    ensures DispatchEvent(s, listen).Panicked? <==>
      && s.cur[0].reason.IoCompleted?
      && StopsHandler(Head(s), s.cur[0].handle.id, s.cur[0].reason.res)
  {
    hide QuietStart, Addressed, Handlers, OneSpawn, Buffers;
    HeadOk(s);
    match Head(s).state {
      case Init => InitDispatch(s, listen);
      case Closing =>
        ClosingDispatch(s, listen);
        FreeIssued(s.conns.gen, s.cur[0].handle.id);
      case Recv(_) =>
        RecvEvent(s);
        if s.cur[0].reason.res == 0 {
          RecvEndDispatch(s, listen);
          FreeIssued(s.bufs.gen, Head(s).buf.value);
        } else if s.cur[0].reason.res > 0 {
          RecvSomeDispatch(s, listen);
        } else {
          RecvErrorDispatch(s, listen);
        }
    }
  }

  lemma HeadOk(s: Exec)
    requires Inv(s) && ForHandler(s)
    ensures ConnOk(s.bufs, Head(s))
  {
  }

  // ---------- Handles ----------

  /** Once a handle is dead it stays dead: whatever is spawned into its slot has another handle. */
  lemma StepDead(s: Exec, step: Step, id: GenId)
    requires Inv(s) && Enabled(s, step) && Apply(s, step).Ok?
    requires s.conns.gen.Issued(id) && id !in s.conns.objects
    ensures var s' := Apply(s, step).value; s'.conns.gen.Issued(id) && id !in s'.conns.objects
  {
    if step.Dispatch? { var _, _, _ := DispatchShape(s, step.listen); }
  }

  lemma {:induction false} RunDead(s: Exec, steps: seq<Step>, s': Exec, id: GenId)
    requires Inv(s) && Run(s, steps, s') && s.conns.gen.Issued(id) && id !in s.conns.objects
    ensures s'.conns.gen.Issued(id) && id !in s'.conns.objects
    decreases |steps|
  {
    if steps != [] {
      StepInv(s, steps[0]);
      StepDead(s, steps[0], id);
      RunDead(Apply(s, steps[0]).value, steps[1..], s', id);
    }
  }

  /** A handler keeps its socket and only moves on from `Init` to `Recv` to `Closing`, and its offset only
      grows on the way. */
  ghost predicate Onward(was: Conn, now: Conn) {
    && now.socket == was.socket
    && (now.state.Recv? ==> (was.state.Init? || was.state.Recv?) && was.offset <= now.offset)
    && (now.state.Init? ==> was.state.Init? && was.offset <= now.offset)
  }

  lemma StepOnward(s: Exec, step: Step, id: GenId)
    requires Inv(s) && Enabled(s, step) && Apply(s, step).Ok?
    requires id in s.conns.objects && id in Apply(s, step).value.conns.objects
    ensures Onward(s.conns.objects[id], Apply(s, step).value.conns.objects[id])
  {
    if step.Dispatch? {
      if s.cur[0].handle.poolId == TCP_SERVER {
        ListenerOnward(s, step.listen);
      } else if s.cur[0].handle.id in s.conns.objects {
        HandlerOnward(s, step.listen, id);
      }
    }
  }

  lemma ListenerOnward(s: Exec, listen: ListenResult)
    requires Inv(s) && ForListener(s) && DispatchEvent(s, listen).Ok?
    ensures forall id :: id in s.conns.objects ==>
              && id in DispatchEvent(s, listen).value.conns.objects
              && DispatchEvent(s, listen).value.conns.objects[id] == s.conns.objects[id]
  {
    ListenerEvent(s);
    AllocFresh(s.conns.gen);
    if s.cur[0].reason.Spawn? { ListenerSpawnDispatch(s, listen); } else { ListenerIoDispatch(s, listen); }
  }

  lemma HandlerOnward(s: Exec, listen: ListenResult, id: GenId)
    requires Inv(s) && ForHandler(s) && DispatchEvent(s, listen).Ok?
    requires id in s.conns.objects && id in DispatchEvent(s, listen).value.conns.objects
    ensures Onward(s.conns.objects[id], DispatchEvent(s, listen).value.conns.objects[id])
  {
    hide QuietStart, Addressed, OneSpawn, Buffers;
    HeadOk(s);
    match Head(s).state {
      case Init => InitDispatch(s, listen);
      case Closing => ClosingDispatch(s, listen);
      case Recv(_) =>
        RecvEvent(s);
        if s.cur[0].reason.res == 0 {
          RecvEndDispatch(s, listen);
        } else if s.cur[0].reason.res > 0 {
          RecvSomeDispatch(s, listen);
        } else {
          RecvErrorDispatch(s, listen);
        }
    }
  }

  lemma {:induction false} RunOnward(s: Exec, steps: seq<Step>, s': Exec, id: GenId)
    requires Inv(s) && Run(s, steps, s')
    requires id in s.conns.objects && id in s'.conns.objects
    ensures Onward(s.conns.objects[id], s'.conns.objects[id])
    decreases |steps|
  {
    if steps != [] {
      var t := Apply(s, steps[0]).value;
      StepInv(s, steps[0]);
      IssuedKept(s, steps[0], id);
      if id !in t.conns.objects { RunDead(t, steps[1..], s', id); }
      StepOnward(s, steps[0], id);
      RunOnward(t, steps[1..], s', id);
    }
  }

  lemma IssuedKept(s: Exec, step: Step, id: GenId)
    requires Inv(s) && Enabled(s, step) && Apply(s, step).Ok? && id in s.conns.objects
    ensures Apply(s, step).value.conns.gen.Issued(id)
  {
    if step.Dispatch? { var _, _, _ := DispatchShape(s, step.listen); }
  }

  /** An event of a terminated connection is dropped whenever it is dispatched, in this state or any
      later one, even if its slot holds another connection by then. */
  lemma StaleEventsAreDropped(c: Config, before: seq<Step>, s: Exec, e: Event,
                              after: seq<Step>, s': Exec, listen: ListenResult)
    requires Reached(c, before, s) && Run(s, after, s')
    requires e in Pending(s) && e.handle.poolId == CONN_HANDLER && e.handle.id !in s.conns.objects
    ensures s'.conns.Get(e.handle.id).None?
    ensures forall id :: id in s'.conns.objects && id.index == e.handle.id.index ==>
              id.generation != e.handle.id.generation
    ensures s'.cur != [] && s'.cur[0] == e ==> DispatchEvent(s', listen) == Ok(s'.(cur := s'.cur[1..]))
  {
    ReachedInv(c, before, s);
    assert EventOk(s, e);
    RunDead(s, after, s', e.handle.id);
  }

  // ---------- Buffers ----------

  /** Free buffers and receiving handlers add up to all buffers; the buffers in use are exactly those
      the receiving handlers hold, and no two hold the same. */
  lemma BufferConservation(c: Config, steps: seq<Step>, s: Exec)
    requires Reached(c, steps, s)
    ensures |s.bufs.gen.free| + |Receivers(s.conns.objects)| == c.bufs
    ensures forall id :: id in Receivers(s.conns.objects) ==> s.conns.objects[id].buf.Some?
    ensures forall b :: s.bufs.gen.Live(b) <==>
              exists id :: id in Receivers(s.conns.objects) && s.conns.objects[id].buf == Some(b)
    ensures forall x, y :: x in Receivers(s.conns.objects) && y in Receivers(s.conns.objects) && x != y
              ==> s.conns.objects[x].buf.value.index != s.conns.objects[y].buf.value.index
  {
    ReachedInv(c, steps, s);
    ReceiversHold(s);
    hide Tables, QuietStart, Addressed, Handlers, OneSpawn, Run;
    HeldAreLive(s.conns.objects, s.bufs.gen);
  }

  lemma HeldAreLive(conns: map<GenId, Conn>, gen: Gen)
    requires gen.Wf() && OwnBuffers(conns, gen)
    requires forall id :: id in Receivers(conns) ==> conns[id].buf.Some? && gen.Live(conns[id].buf.value)
    ensures forall b :: gen.Live(b) <==> exists id :: id in Receivers(conns) && conns[id].buf == Some(b)
  {
    LiveCount(gen);
    var held := HeldBy(conns, Receivers(conns));
    forall b ensures gen.Live(b) <==> b in held {
      if b in LiveIds(gen) && b !in held {
        assert held <= LiveIds(gen) - {b};
        SubsetCount(held, LiveIds(gen) - {b});
      }
    }
  }

  ghost function HeldBy(conns: map<GenId, Conn>, ids: set<GenId>): (r: set<GenId>)
    requires forall id :: id in ids ==> id in conns && conns[id].buf.Some?
    requires forall x, y :: x in ids && y in ids && x != y ==> conns[x].buf != conns[y].buf
    ensures forall b :: b in r <==> exists id :: id in ids && conns[id].buf == Some(b)
    ensures |r| == |ids|
    decreases |ids|
  {
    if ids == {} then {} else
      var id :| id in ids;
      HeldBy(conns, ids - {id}) + {conns[id].buf.value}
  }

  /** Closing again gives nothing back, also when another connection has the buffer by now. */
  lemma StaleCloseFreesNothing(c: Config, steps: seq<Step>, s: Exec, id: GenId, res: int)
    requires Reached(c, steps, s) && id in s.conns.objects && s.conns.objects[id].state.Closing? && res != 0
    ensures s.conns.objects[id].buf.Some? && s.bufs.gen.Free(s.conns.objects[id].buf.value) == (s.bufs.gen, Rejected)
    ensures AfterClosing(s.conns.objects[id], s.bufs, res)
         == Ok(ConnOut(s.conns.objects[id], s.bufs, [CloseFixed(s.conns.objects[id].socket)]))
  {
    ReachedInv(c, steps, s);
    var conn := s.conns.objects[id];
    assert ConnOk(s.bufs, conn);
    FreeIssued(s.bufs.gen, conn.buf.value);
    assert [CloseFixed(conn.socket)] + [] == [CloseFixed(conn.socket)];
  }

  /** With as many buffers as handlers nothing is ever retried. */
  lemma NoRetry(c: Config, steps: seq<Step>, s: Exec, listen: ListenResult)
    requires Reached(c, steps, s) && c.Slots() <= c.bufs
    requires s.cur != [] && DispatchEvent(s, listen).Ok?
    ensures DispatchEvent(s, listen).value.next == s.next
  {
    ReachedInv(c, steps, s);
    var _, newNext, _ := DispatchShape(s, listen);
    hide QuietStart, Addressed, Handlers, OneSpawn, Buffers, DispatchEvent, Run;
    if newNext != [] { SlotForBuffer(s, s.cur[0].handle.id); }
  }

  /** A handler that does not receive yet leaves a buffer free, if there is one for each handler. */
  lemma SlotForBuffer(s: Exec, id: GenId)
    requires s.conns.Wf() && Buffers(s) && s.N() <= |s.bufs.gen.generation|
    requires id in s.conns.objects && !s.conns.objects[id].state.Recv?
    ensures s.bufs.gen.free != []
  {
    PoolBound(s.conns);
    assert |Receivers(s.conns.objects) + {id}| == |Receivers(s.conns.objects)| + 1;
    SubsetCount(Receivers(s.conns.objects) + {id}, s.conns.objects.Keys);
  }

  // ---------- Offsets ----------

  /** A receive result never pushes the offset past 16 bits, so the executor's bound tests the real
      offset: a handler that keeps receiving has room left in its buffer. */
  lemma OffsetsAreExact(c: Config, steps: seq<Step>, s: Exec, listen: ListenResult)
    requires Reached(c, steps, s) && HandlerReceives(s) && s.cur[0].reason.IoCompleted? && 0 < s.cur[0].reason.res
    ensures Head(s).buf.Some?
    ensures var offset := Head(s).offset + s.cur[0].reason.res;
      && offset <= 2 * BUF_SIZE - 1
      && RecvIntent(Head(s).(offset := offset)) == SubmitRecv(Head(s).socket, Head(s).buf.value, offset)
      && (DispatchEvent(s, listen).Ok? <==> offset < BUF_SIZE)
      && (DispatchEvent(s, listen).Ok? ==>
            var after := DispatchEvent(s, listen).value.conns.objects;
            s.cur[0].handle.id in after && after[s.cur[0].handle.id].offset == offset)
  {
    ReachedInv(c, steps, s);
    OffsetMoves(s, listen);
  }

  lemma OffsetMoves(s: Exec, listen: ListenResult)
    requires Inv(s) && HandlerReceives(s) && s.cur[0].reason.IoCompleted? && 0 < s.cur[0].reason.res
    ensures Head(s).buf.Some?
    ensures var offset := Head(s).offset + s.cur[0].reason.res;
      && offset <= 2 * BUF_SIZE - 1 && offset % 0x1_0000 == offset
      && (DispatchEvent(s, listen).Ok? <==> offset < BUF_SIZE)
      && (DispatchEvent(s, listen).Ok? ==>
            var after := DispatchEvent(s, listen).value.conns.objects;
            s.cur[0].handle.id in after && after[s.cur[0].handle.id].offset == offset)
  {
    RecvSomeDispatch(s, listen);
    hide Inv, DispatchEvent;
  }

  lemma OffsetsStayInside(c: Config, steps: seq<Step>, s: Exec, id: GenId)
    requires Reached(c, steps, s) && id in s.conns.objects
    ensures s.conns.objects[id].offset < 0x1000
  {
    ReachedInv(c, steps, s);
    assert ConnOk(s.bufs, s.conns.objects[id]);
  }

  // ---------- Errors ----------

  /** What each negative result of a receive does, errno by errno: two receives at the same place and nothing
      else, a stop on the buffer given back, a stop in `panic!`, or one receive. */
  lemma ReceiveErrors(c: Config, steps: seq<Step>, s: Exec, listen: ListenResult)
    requires Reached(c, steps, s) && HandlerReceives(s) && s.cur[0].reason.IoCompleted? && s.cur[0].reason.res < 0
    ensures Head(s).buf.Some? && Head(s).offset < 0x1000
    ensures var Conn(_, socket, buf, offset) := Head(s);
            var res := s.cur[0].reason.res;
            var again := Op(s.cur[0].handle, OpKind.Recv(socket, buf.value, offset, 0x1000 - offset));
      DispatchEvent(s, listen) ==
        if res in {-4, -11, -12, -105, -110} then Ok(Requested(s, [again, again]))
        else if res in {-5, -100, -101, -102, -103, -104, -107, -108} then
          Panicked(if buf.value.generation == 0xFFFF_FFFF then GenerationOverflow else StaleBuffer)
        else if res in {-9, -14, -22, -88, -95, -97} then Panicked(UnexpectedIoError)
        else Ok(Requested(s, [again]))
    ensures Doubling(s.cur[0].reason.res) <==>
              s.cur[0].reason.res in {-4, -11, -12, -105, -110, -5, -100, -101, -102, -103, -104, -107, -108}
  {
    ReachedInv(c, steps, s);
    RecvErrorDispatch(s, listen);
    RecvEvent(s);
    ErrorClasses(s.cur[0].reason.res);
    hide Inv, Run, DispatchEvent, RetryErrno, FatalErrno, ClosingErrno, Errno, ConnOk;
    var id := s.cur[0].handle.id;
    assert s.conns.Put(id, Head(s)) == s.conns;
  }

  /** The head event is gone and these requests are in flight besides. */
  function Requested(s: Exec, ops: seq<Op>): Exec
    requires s.cur != []
  {
    s.(cur := s.cur[1..], k := s.k.(inflight := s.k.inflight + ops))
  }

  /** A retryable error leaves the handler with two receives in flight at the same place. */
  lemma RetryDoubles(c: Config, steps: seq<Step>, s: Exec, listen: ListenResult)
    requires Reached(c, steps, s) && HandlerReceives(s) && s.cur[0].reason.IoCompleted?
    requires s.cur[0].reason.res < 0 && RetryErrno(Errno(s.cur[0].reason.res))
    ensures DispatchEvent(s, listen).Ok?
    ensures Ios(DispatchEvent(s, listen).value, s.cur[0].handle.id) == Ios(s, s.cur[0].handle.id) + 1
  {
    ReachedInv(c, steps, s);
    RecvErrorDispatch(s, listen);
    var s' := DispatchEvent(s, listen).value;
    var h := s.cur[0].handle;
    var op := RecvOp(h, Head(s).socket, Head(s).buf.value, Head(s).offset);
    PendingAfter(s, s', [], []);
    CountOpsAppend(s.k.inflight, [op, op], h);
    assert h == ConnHandle(h.id);
    assert [op, op] == [op] + [op];
    CountOpsAppend([op], [op], h);
    assert CountOps([op], h) == 1;
  }

  // ---------- The current queue drains ----------

  /** A listener event counts 2, since it may put one handler event behind it. */
  function DrainMeasure(q: seq<Event>): nat {
    if q == [] then 0 else (if q[0].handle.poolId == TCP_SERVER then 2 else 1) + DrainMeasure(q[1..])
  }

  lemma {:induction false} DrainMeasureAppend(q: seq<Event>, r: seq<Event>)
    ensures DrainMeasure(q + r) == DrainMeasure(q) + DrainMeasure(r)
  {
    if q == [] {
      assert q + r == r;
    } else {
      DrainMeasureAppend(q[1..], r);
      assert (q + r)[1..] == q[1..] + r;
    }
  }

  /** Draining ends although it pushes into the queue being drained, and never overfills it. */
  lemma DrainTerminates(s: Exec, listen: ListenResult)
    requires Inv(s) && s.cur != [] && DispatchEvent(s, listen).Ok?
    ensures DrainMeasure(DispatchEvent(s, listen).value.cur) < DrainMeasure(s.cur)
    ensures |DispatchEvent(s, listen).value.cur| <= |s.cur| <= s.QueueCapacity()
  {
    var newCur, _, _ := DispatchShape(s, listen);
    DrainMeasureAppend(s.cur[1..], newCur);
    if newCur != [] {
      assert newCur[1..] == [];
      assert newCur[0] in newCur;
    }
  }

  // ---------- Queue bounds ----------

  /** While the current queue drains, the next one holds retries only, at most one for each handler. */
  lemma RetriesFit(c: Config, steps: seq<Step>, s: Exec)
    requires Reached(c, steps, s) && s.cur != []
    ensures |s.next| <= c.Slots()
    ensures forall e :: e in s.next ==> e.reason.Spawn?
  {
    ReachedInv(c, steps, s);
    NextIsSpawns(s);
    SpawnsFit(s, s.next);
  }
}
