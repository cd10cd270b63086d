/** A run in which an accepted connection finds the handler pool full: a retryable error leaves two receives in
    flight, so the connection is closed twice, and the second close takes the descriptor that another
    connection was given meanwhile. `AcceptFindsASlot` needs its single-flight premise. */
module PoolFull {
  import opened Wrappers
  import opened GenAllocSpec
  import opened Protocol
  import opened MachineSpecs
  import opened PoolSpec
  import opened ExecutorModel
  import opened EventCounts
  import opened ExecutorInvariant
  import opened ExecutorSteps
  import opened ExecutorRuns
  import opened Overflow

  const ARMED := Op(LISTENER, Accept(3))
  const READ := RecvOp(ConnHandle(FIRST), 0, BUFFER, 0)
  const CLOSE := Op(ConnHandle(FIRST), OpKind.Close(0))
  const SECOND := GenId(0, 1)

  /** Nothing is pending, and the tables are those of the smallest executor. */
  ghost predicate Idle(steps: seq<Step>, s: Exec) {
    && Reached(Smallest(), steps, s) && Sized(Smallest(), s)
    && Server(s).state.Accepting? && s.cur == [] && s.next == [] && s.k.cq == []
  }

  /** The kernel completes request `i` and the completion is dispatched. */
  lemma Handle(steps: seq<Step>, s: Exec, i: nat, res: int, flags: nat, fill: seq<byte>)
    returns (steps': seq<Step>, s': Exec)
    requires Idle(steps, s) && Answers(s, i, res, flags, fill)
    ensures Reached(Smallest(), steps', s') && Inv(s') && Sized(Smallest(), s')
    ensures var op := s.k.inflight[i];
            var p := PostCompletion(s, i, res, flags, fill);
      s' == p.(cur := [Event(IoCompleted(res, flags), op.handle, Some(op.kind))], k := p.k.(cq := []))
  {
    steps', s' := Deliver(Smallest(), steps, s, i, res, flags, fill);
    ReachedInv(Smallest(), steps', s');
  }

  lemma Dispatched(steps: seq<Step>, s: Exec) returns (steps': seq<Step>, s': Exec)
    requires Reached(Smallest(), steps, s) && s.cur != [] && DispatchEvent(s, Listening(3)).Ok?
    ensures Reached(Smallest(), steps', s') && Inv(s') && Sized(Smallest(), s')
    ensures s' == DispatchEvent(s, Listening(3)).value
  {
    hide DispatchEvent;
    Extend(Smallest(), steps, s, Dispatch(Listening(3)));
    steps' := steps + [Dispatch(Listening(3))];
    s' := DispatchEvent(s, Listening(3)).value;
    ReachedInv(Smallest(), steps', s');
  }

  lemma StaleIsDropped(s: Exec, listen: ListenResult)
    requires s.cur != [] && s.cur[0].handle.poolId == CONN_HANDLER && s.cur[0].handle.id !in s.conns.objects
    ensures DispatchEvent(s, listen) == Ok(s.(cur := s.cur[1..]))
  {
  }

  /** An interrupted receive is submitted twice. */
  lemma Doubled() returns (steps: seq<Step>, s: Exec)
    ensures Idle(steps, s) && s.k.open == {0} && s.k.inflight == [ARMED, READ, READ]
    ensures s.conns.objects == map[FIRST := Conn(ConnState.Recv(ReceivingHeader), 0, Some(BUFFER), 0)]
  {
    hide QuietStart, Addressed, Handlers, OneSpawn, Buffers, Run, DispatchEvent;
    var steps0, s0 := Receiving(Smallest());
    ReachedInv(Smallest(), steps0, s0);
    var steps1, s1 := Handle(steps0, s0, 1, -4, 0, Zeros(BUF_SIZE));
    RecvErrorDispatch(s1, Listening(3));
    steps, s := Dispatched(steps1, s1);
  }

  /** The first of them ends the stream. */
  lemma ClosedOnce() returns (steps: seq<Step>, s: Exec)
    ensures Idle(steps, s) && s.k.open == {0} && s.k.inflight == [ARMED, READ, CLOSE]
    ensures s.conns.objects.Keys == {FIRST}
    ensures s.conns.objects[FIRST].state.Closing? && s.conns.objects[FIRST].socket == 0
  {
    hide QuietStart, Addressed, Handlers, OneSpawn, Buffers, Run, DispatchEvent;
    var steps0, s0 := Doubled();
    ReachedInv(Smallest(), steps0, s0);
    var steps1, s1 := Handle(steps0, s0, 1, 0, 0, Zeros(BUF_SIZE));
    RecvEndDispatch(s1, Listening(3));
    CloseFrees(s1);
    steps, s := Dispatched(steps1, s1);
  }

  /** The second was reset: the descriptor is closed twice. */
  lemma ClosedTwice() returns (steps: seq<Step>, s: Exec)
    ensures Idle(steps, s) && s.k.open == {0} && s.k.inflight == [ARMED, CLOSE, CLOSE]
    ensures s.conns.objects.Keys == {FIRST} && s.conns.objects[FIRST].state.Closing?
  {
    hide QuietStart, Addressed, Handlers, OneSpawn, Buffers, Run, DispatchEvent;
    var steps0, s0 := ClosedOnce();
    ReachedInv(Smallest(), steps0, s0);
    var steps1, s1 := Handle(steps0, s0, 1, -104, 0, Zeros(BUF_SIZE));
    ClosingDispatch(s1, Listening(3));
    steps, s := Dispatched(steps1, s1);
  }

  /** The first close ends the handler. */
  lemma EndedOnce() returns (steps: seq<Step>, s: Exec)
    ensures Idle(steps, s) && s.k.open == {} && s.k.inflight == [ARMED, CLOSE]
    ensures s.conns.objects == map[] && s.conns.gen == Gen([1], [0])
  {
    hide QuietStart, Addressed, Handlers, OneSpawn, Buffers, Run, DispatchEvent;
    var steps0, s0 := ClosedTwice();
    var steps1, s1 := Handle(steps0, s0, 1, 0, 0, []);
    ClosingDispatch(s1, Listening(3));
    FreeIssued(s1.conns.gen, FIRST);
    PoolBound(s1.conns);
    steps, s := Dispatched(steps1, s1);
  }

  /** Its descriptor and its slot go to the next connection. */
  lemma AcceptedAgain() returns (steps: seq<Step>, s: Exec)
    ensures Reached(Smallest(), steps, s) && Inv(s) && Sized(Smallest(), s) && Server(s).state.Accepting?
    ensures s.cur == [SpawnEvent(ConnHandle(SECOND))] && s.next == [] && s.k.cq == []
    ensures s.k.open == {0} && s.k.inflight == [ARMED, CLOSE]
    ensures s.conns.objects == map[SECOND := NewConn(0)]
  {
    hide QuietStart, Addressed, Handlers, OneSpawn, Buffers, Run, DispatchEvent;
    var steps0, s0 := EndedOnce();
    var steps1, s1 := Handle(steps0, s0, 0, 0, 2, []);
    ListenerIoDispatch(s1, Listening(3));
    steps, s := Dispatched(steps1, s1);
  }

  lemma Reused() returns (steps: seq<Step>, s: Exec)
    ensures Idle(steps, s) && s.k.open == {0}
    ensures |s.k.inflight| == 3 && s.k.inflight[0] == ARMED && s.k.inflight[1] == CLOSE
    ensures s.conns.objects.Keys == {SECOND}
  {
    hide QuietStart, Addressed, Handlers, OneSpawn, Run, DispatchEvent;
    var steps0, s0 := AcceptedAgain();
    assert Receivers(s0.conns.objects) == {};
    InitDispatch(s0, Listening(3));
    steps, s := Dispatched(steps0, s0);
  }

  /** The second close takes the descriptor of the live connection, so the next accept is given it again. */
  lemma HandlerPoolOverflows() returns (c: Config, steps: seq<Step>, s: Exec)
    ensures Reached(c, steps, s) && s.cur != []
    ensures forall listen :: DispatchEvent(s, listen) == Panicked(HandlerPoolFull)
  {
    hide QuietStart, Addressed, Handlers, OneSpawn, Buffers, Run, DispatchEvent;
    c := Smallest();
    var steps0, s0 := Reused();
    var steps1, s1 := Handle(steps0, s0, 1, 0, 0, []);
    StaleIsDropped(s1, Listening(3));
    var steps2, s2 := Dispatched(steps1, s1);
    steps, s := Handle(steps2, s2, 0, 0, 2, []);
    forall listen ensures DispatchEvent(s, listen) == Panicked(HandlerPoolFull) {
      ListenerIoDispatch(s, listen);
      PoolBound(s.conns);
    }
  }
}
