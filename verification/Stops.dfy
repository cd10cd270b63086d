/** Runs that stop in the other panics of `ExecutorSteps.Reachable`: with those of `Overflow` and `PoolFull`
    every one of the six is met. */
module Stops {
  import opened Wrappers
  import opened GenAllocSpec
  import opened Protocol
  import opened MachineSpecs
  import opened PoolSpec
  import opened ExecutorModel
  import opened EventCounts
  import opened ExecutorInvariant
  import opened ExecutorSteps
  import opened ExecutorRuns
  import opened Overflow
  import opened PoolFull

  /** The first receive of the first connection has completed with this result. */
  ghost predicate FirstReceive(steps: seq<Step>, s: Exec, res: int) {
    && Reached(Smallest(), steps, s) && Inv(s) && HandlerReceives(s) && s.cur[0].reason == IoCompleted(res, 0)
    && Head(s) == Conn(ConnState.Recv(ReceivingHeader), 0, Some(BUFFER), 0)
  }

  lemma FirstReceiveDone(res: int) returns (steps: seq<Step>, s: Exec)
    requires -0x1000 < res <= BUF_SIZE
    ensures FirstReceive(steps, s, res)
  {
    hide QuietStart, Addressed, Handlers, OneSpawn, Buffers, Run, DispatchEvent;
    var steps0, s0 := Receiving(Smallest());
    ReachedInv(Smallest(), steps0, s0);
    steps, s := Handle(steps0, s0, 1, res, 0, Zeros(BUF_SIZE));
  }

  /** A receive that fills the buffer stops the run. */
  lemma FullBufferStops() returns (steps: seq<Step>, s: Exec)
    ensures FirstReceive(steps, s, 0x1000)
    ensures forall listen :: DispatchEvent(s, listen) == Panicked(BufferFull)
  {
    hide Tables, QuietStart, Addressed, Handlers, OneSpawn, Buffers, Run, DispatchEvent;
    steps, s := FirstReceiveDone(BUF_SIZE);
    forall listen ensures DispatchEvent(s, listen) == Panicked(BufferFull) { RecvSomeDispatch(s, listen); }
  }

  /** So does an errno that closes the connection (EIO), on the buffer given back. */
  lemma ClosingErrnoStops() returns (steps: seq<Step>, s: Exec)
    ensures FirstReceive(steps, s, -5)
    ensures forall listen :: DispatchEvent(s, listen) == Panicked(StaleBuffer)
  {
    hide Tables, QuietStart, Addressed, Handlers, OneSpawn, Buffers, Run, DispatchEvent;
    steps, s := FirstReceiveDone(-5);
    forall listen ensures DispatchEvent(s, listen) == Panicked(StaleBuffer) { RecvErrorDispatch(s, listen); }
  }

  /** And one that is not expected (EBADF). */
  lemma FatalErrnoStops() returns (steps: seq<Step>, s: Exec)
    ensures FirstReceive(steps, s, -9)
    ensures forall listen :: DispatchEvent(s, listen) == Panicked(UnexpectedIoError)
  {
    hide Tables, QuietStart, Addressed, Handlers, OneSpawn, Buffers, Run, DispatchEvent;
    steps, s := FirstReceiveDone(-9);
    forall listen ensures DispatchEvent(s, listen) == Panicked(UnexpectedIoError) { RecvErrorDispatch(s, listen); }
  }

  // ---------- The last generation ----------

  /** `g` connections have come and gone. */
  ghost predicate Round(steps: seq<Step>, s: Exec, g: nat) {
    && Idle(steps, s) && s.k.open == {} && s.k.inflight == [ARMED]
    && s.conns == Pool(Gen([g], [0]), map[]) && s.bufs.gen == Gen([g], [0])
  }

  /** The next one is receiving. */
  ghost predicate Connected(steps: seq<Step>, s: Exec, g: nat) {
    var id := GenId(0, g);
    && Idle(steps, s) && s.k.open == {0} && s.k.inflight == [ARMED, RecvOp(ConnHandle(id), 0, id, 0)]
    && s.conns == Pool(Gen([g], []), map[id := Conn(ConnState.Recv(ReceivingHeader), 0, Some(id), 0)])
    && s.bufs.gen == Gen([g], [])
  }

  lemma Spawned(steps: seq<Step>, s: Exec, g: nat) returns (steps': seq<Step>, s': Exec)
    requires Round(steps, s, g)
    ensures Reached(Smallest(), steps', s') && Inv(s') && Sized(Smallest(), s') && Server(s').state.Accepting?
    ensures s'.cur == [SpawnEvent(ConnHandle(GenId(0, g)))] && s'.next == [] && s'.k.cq == []
    ensures s'.k.open == {0} && s'.k.inflight == [ARMED] && s'.bufs.gen == Gen([g], [0])
    ensures s'.conns == Pool(Gen([g], []), map[GenId(0, g) := NewConn(0)])
  {
    hide QuietStart, Addressed, Handlers, OneSpawn, Buffers, Run, DispatchEvent;
    var steps1, s1 := Handle(steps, s, 0, 0, 2, []);
    ListenerIoDispatch(s1, Listening(3));
    steps', s' := Dispatched(steps1, s1);
  }

  lemma Connect(steps: seq<Step>, s: Exec, g: nat) returns (steps': seq<Step>, s': Exec)
    requires Round(steps, s, g)
    ensures Connected(steps', s', g)
  {
    hide QuietStart, Addressed, Handlers, OneSpawn, Buffers, Run, DispatchEvent;
    var steps1, s1 := Spawned(steps, s, g);
    InitDispatch(s1, Listening(3));
    steps', s' := Dispatched(steps1, s1);
  }

  /** The end of the stream is the only event, and the handler's buffer has the current generation. */
  lemma StreamEnds(steps: seq<Step>, s: Exec, g: nat) returns (steps': seq<Step>, s': Exec)
    requires Connected(steps, s, g)
    ensures Reached(Smallest(), steps', s') && Inv(s') && Sized(Smallest(), s') && Server(s').state.Accepting?
    ensures s'.next == [] && s'.k == Kernel([ARMED], [], {0}, s'.k.stream)
    ensures |s'.cur| == 1 && s'.cur[0].handle == ConnHandle(GenId(0, g)) && s'.cur[0].reason == IoCompleted(0, 0)
    ensures s'.conns == s.conns && s'.bufs.gen == s.bufs.gen
  {
    hide QuietStart, Addressed, Handlers, OneSpawn, Buffers, Run, DispatchEvent;
    ReachedInv(Smallest(), steps, s);
    steps', s' := Handle(steps, s, 1, 0, 0, Zeros(BUF_SIZE));
  }

  lemma HangUp(steps: seq<Step>, s: Exec, g: nat) returns (steps': seq<Step>, s': Exec)
    requires Connected(steps, s, g) && g < MAX_U32
    ensures Idle(steps', s') && s'.k.open == {0} && s'.bufs.gen == Gen([g + 1], [0])
    ensures s'.k.inflight == [ARMED, Op(ConnHandle(GenId(0, g)), OpKind.Close(0))]
    ensures s'.conns.gen == Gen([g], []) && s'.conns.objects.Keys == {GenId(0, g)}
    ensures s'.conns.objects[GenId(0, g)].state.Closing?
  {
    hide QuietStart, Addressed, Handlers, OneSpawn, Buffers, Run, DispatchEvent;
    var steps1, s1 := StreamEnds(steps, s, g);
    RecvEndDispatch(s1, Listening(3));
    steps', s' := Dispatched(steps1, s1);
  }

  lemma NextRound(steps: seq<Step>, s: Exec, g: nat) returns (steps': seq<Step>, s': Exec)
    requires Round(steps, s, g) && g < MAX_U32
    ensures Round(steps', s', g + 1)
  {
    hide QuietStart, Addressed, Handlers, OneSpawn, Buffers, Run, DispatchEvent;
    var steps1, s1 := Connect(steps, s, g);
    var steps2, s2 := HangUp(steps1, s1, g);
    var steps3, s3 := Handle(steps2, s2, 1, 0, 0, []);
    ClosingDispatch(s3, Listening(3));
    steps', s' := Dispatched(steps3, s3);
    assert s'.conns.objects == map[];
  }

  lemma {:induction false} Rounds(g: nat) returns (steps: seq<Step>, s: Exec)
    requires g <= MAX_U32
    ensures Round(steps, s, g)
  {
    if g == 0 {
      steps, s := Armed(Smallest());
    } else {
      steps, s := Rounds(g - 1);
      steps, s := NextRound(steps, s, g - 1);
    }
  }

  /** After 2^32 - 1 connections on one buffer the next one cannot be closed any more. */
  lemma GenerationsRunOut() returns (c: Config, steps: seq<Step>, s: Exec)
    ensures Reached(c, steps, s) && s.cur != []
    ensures forall listen :: DispatchEvent(s, listen) == Panicked(GenerationOverflow)
  {
    hide QuietStart, Addressed, Handlers, OneSpawn, Buffers, Run, DispatchEvent;
    c := Smallest();
    var steps0, s0 := Rounds(MAX_U32);
    var steps1, s1 := Connect(steps0, s0, MAX_U32);
    steps, s := StreamEnds(steps1, s1, MAX_U32);
    forall listen ensures DispatchEvent(s, listen) == Panicked(GenerationOverflow) { RecvEndDispatch(s, listen); }
  }
}
