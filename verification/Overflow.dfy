/** A run in which the completion queue overflows: the one case `CollectFits` leaves open does occur. */
module Overflow {
  import opened Wrappers
  import opened GenAllocSpec
  import opened ObjectHandles
  import opened Protocol
  import opened MachineSpecs
  import opened PoolSpec
  import opened ExecutorModel
  import opened EventCounts
  import opened ExecutorInvariant
  import opened ExecutorSteps
  import opened ExecutorRuns
  import opened SingleFlightRuns

  function Zeros(n: nat): seq<byte> { seq(n, _ => 0) }

  function Smallest(): Config { Config(1, 1, 1, [Zeros(BUF_SIZE)]) }

  /** One listener, one handler slot, one buffer. */
  ghost predicate Tiny(c: Config) { c.Valid() && c.ListenerSlots() == 1 && c.Slots() == 1 && c.bufs == 1 }

  lemma Extend(c: Config, steps: seq<Step>, s: Exec, step: Step)
    requires Reached(c, steps, s) && Enabled(s, step) && Apply(s, step).Ok?
    ensures Reached(c, steps + [step], Apply(s, step).value)
    ensures ReachedSingly(c, steps, s) && SingleFlightStep(s, step) ==>
              ReachedSingly(c, steps + [step], Apply(s, step).value)
  {
    RunSnoc(c.Begin(), steps, s, step);
  }

  const LISTENER := ObjectHandle(TCP_SERVER, GenId(0, 0))
  const FIRST := GenId(0, 0)
  const BUFFER := GenId(0, 0)

  /** The listener accepts and nothing else has happened. */
  lemma Armed(c: Config) returns (steps: seq<Step>, s: Exec)
    requires Tiny(c)
    ensures ReachedSingly(c, steps, s)
    ensures s.cur == [] && s.next == [] && s.k == Kernel([Op(LISTENER, Accept(3))], [], {}, map[])
    ensures Sized(c, s) && Server(s).state.Accepting?
    ensures s.conns == EmptyPool(1) && s.bufs.gen == GenAllocSpec.New(1)
  {
    var s0 := c.Begin();
    assert ReachedSingly(c, [], s0);
    ReachedInv(c, [], s0);
    ListenerSpawnDispatch(s0, Listening(3));
    Extend(c, [], s0, Dispatch(Listening(3)));
    steps := [] + [Dispatch(Listening(3))];
    s := DispatchEvent(s0, Listening(3)).value;
  }

  /** The completion of request `i` is collected and becomes the current queue. */
  lemma Deliver(c: Config, steps: seq<Step>, s: Exec, i: nat, res: int, flags: nat, fill: seq<byte>)
    returns (steps': seq<Step>, s': Exec)
    requires Reached(c, steps, s) && s.cur == [] && s.next == [] && s.k.cq == []
    requires Answers(s, i, res, flags, fill)
    ensures Reached(c, steps', s')
    ensures ReachedSingly(c, steps, s) && SingleFlightStep(s, Post(i, res, flags, fill)) ==>
              ReachedSingly(c, steps', s')
    ensures var op := s.k.inflight[i];
            var p := PostCompletion(s, i, res, flags, fill);
      s' == p.(cur := [Event(IoCompleted(res, flags), op.handle, Some(op.kind))], k := p.k.(cq := []))
  {
    hide QuietStart, Addressed, Handlers, OneSpawn, Buffers, Run, SingleFlight;
    var post := Post(i, res, flags, fill);
    var p := PostCompletion(s, i, res, flags, fill);
    Extend(c, steps, s, post);
    ReachedInv(c, steps, s);
    var q := CollectCompletion(p).value;
    Extend(c, steps + [post], p, Collect);
    Extend(c, steps + [post] + [Collect], q, Switch);
    steps' := steps + [post] + [Collect] + [Switch];
    s' := Apply(q, Switch).value;
  }

  lemma Accepted(c: Config) returns (steps: seq<Step>, s: Exec)
    requires Tiny(c)
    ensures ReachedSingly(c, steps, s) && Inv(s) && Sized(c, s) && Server(s).state.Accepting?
    ensures s.cur == [SpawnEvent(ConnHandle(FIRST))] && s.next == []
    ensures s.k.inflight == [Op(LISTENER, Accept(3))] && s.k.cq == [] && s.k.open == {0}
    ensures s.conns.objects == map[FIRST := NewConn(0)] && s.bufs.gen == GenAllocSpec.New(1)
  {
    hide QuietStart, Addressed, Handlers, OneSpawn, Buffers, Run, SingleFlight, DispatchEvent;
    var steps0, s0 := Armed(c);
    var steps1, s1 := Deliver(c, steps0, s0, 0, 0, 2, []);
    ReachedInv(c, steps1, s1);
    ListenerIoDispatch(s1, Listening(3));
    Extend(c, steps1, s1, Dispatch(Listening(3)));
    s := DispatchEvent(s1, Listening(3)).value;
    steps := steps1 + [Dispatch(Listening(3))];
    ReachedInv(c, steps, s);
  }

  /** The first connection was accepted and its handler receives. */
  lemma Receiving(c: Config) returns (steps: seq<Step>, s: Exec)
    requires Tiny(c)
    ensures ReachedSingly(c, steps, s) && Sized(c, s) && Server(s).state.Accepting?
    ensures s.cur == [] && s.next == [] && s.k.cq == [] && s.k.open == {0}
    ensures s.k.inflight == [Op(LISTENER, Accept(3)), RecvOp(ConnHandle(FIRST), 0, BUFFER, 0)]
    ensures s.conns.objects == map[FIRST := Conn(ConnState.Recv(ReceivingHeader), 0, Some(BUFFER), 0)]
  {
    hide QuietStart, Addressed, Handlers, OneSpawn, Buffers, Run, SingleFlight, DispatchEvent;
    var steps0, s0 := Accepted(c);
    InitDispatch(s0, Listening(3));
    Extend(c, steps0, s0, Dispatch(Listening(3)));
    s := DispatchEvent(s0, Listening(3)).value;
    steps := steps0 + [Dispatch(Listening(3))];
  }

  /** The peer shut the connection down and the close is in flight. */
  lemma Ending() returns (steps: seq<Step>, s: Exec)
    ensures ReachedSingly(Smallest(), steps, s)
    ensures s.cur == [] && s.next == [] && s.k.cq == [] && s.k.open == {0}
    ensures s.k.inflight == [Op(LISTENER, Accept(3)), Op(ConnHandle(FIRST), OpKind.Close(0))]
  {
    hide QuietStart, Addressed, Handlers, OneSpawn, Buffers, Run, SingleFlight, DispatchEvent;
    var c := Smallest();
    var steps0, s0 := Receiving(Smallest());
    ReachedInv(c, steps0, s0);
    var steps1, s1 := Deliver(Smallest(), steps0, s0, 1, 0, 0, Zeros(BUF_SIZE));
    ReachedInv(c, steps1, s1);
    RecvEndDispatch(s1, Listening(3));
    CloseFrees(s1);
    Extend(c, steps1, s1, Dispatch(Listening(3)));
    s := DispatchEvent(s1, Listening(3)).value;
    steps := steps1 + [Dispatch(Listening(3))];
    assert s.k.inflight == [Op(LISTENER, Accept(3)), Op(ConnHandle(FIRST), OpKind.Close(0))];
  }

  /** The close completes, its descriptor is accepted again and then the accept fails (with ENFILE):
      three completions for a queue of two. */
  lemma CompletionQueueOverflows() returns (c: Config, steps: seq<Step>, s: Exec)
    ensures ReachedSingly(c, steps, s) && Enabled(s, Collect)
    ensures CollectCompletion(s) == Panicked(CompletionQueueFull)
  {
    hide QuietStart, Addressed, Handlers, OneSpawn, Buffers, Run, SingleFlight;
    c := Smallest();
    var steps0, s0 := Ending();
    ReachedInv(c, steps0, s0);
    var close, accept, fail := Post(1, 0, 0, []), Post(0, 0, 2, []), Post(0, -23, 0, []);
    var s1 := PostCompletion(s0, 1, 0, 0, []);
    Extend(c, steps0, s0, close);
    var s2 := PostCompletion(s1, 0, 0, 2, []);
    Extend(c, steps0 + [close], s1, accept);
    var s3 := PostCompletion(s2, 0, -23, 0, []);
    Extend(c, steps0 + [close] + [accept], s2, fail);
    var s4 := CollectCompletion(s3).value;
    Extend(c, steps0 + [close] + [accept] + [fail], s3, Collect);
    s := CollectCompletion(s4).value;
    Extend(c, steps0 + [close] + [accept] + [fail] + [Collect], s4, Collect);
    steps := steps0 + [close] + [accept] + [fail] + [Collect] + [Collect];
  }
}
