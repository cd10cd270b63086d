/** The socket on which connections are accepted. */
module ListenerRuns {
  import opened Wrappers
  import opened ObjectHandles
  import opened Protocol
  import opened MachineSpecs
  import opened ExecutorModel
  import opened EventCounts
  import opened ExecutorInvariant
  import opened ExecutorSteps
  import opened ExecutorRuns
  import opened Weights

  /** Every accept request in flight or completed is on the socket `fd`, which the listener has stored. */
  ghost predicate ListensOn(s: Exec, fd: int) {
    && Inv(s) && !Server(s).state.Init? && Server(s).listenerFd == fd
    && (forall op :: op in s.k.inflight && op.kind.Accept? ==> op.kind.listenFd == fd)
    && (forall e :: e in Pending(s) && IsAccept(e) ==> e.origin.value.listenFd == fd)
  }

  lemma ListenerListens(s: Exec, listen: ListenResult, fd: int)
    requires ListensOn(s, fd) && ForListener(s) && DispatchEvent(s, listen).Ok?
    ensures var s' := DispatchEvent(s, listen).value;
      && s'.listeners.gen == s.listeners.gen && s.ListenerId() in s'.listeners.objects
      && !Server(s').state.Init? && Server(s').listenerFd == fd
      && (forall op :: op in s'.k.inflight && op.kind.Accept? ==> op.kind.listenFd == fd)
  {
    hide QuietStart, Addressed, Handlers, OneSpawn, Buffers;
    ListenerEvent(s);
    ListenerIoDispatch(s, listen);
    hide DispatchEvent, Tables;
  }

  lemma HandlerListens(s: Exec, listen: ListenResult, fd: int)
    requires ListensOn(s, fd) && ForHandler(s) && DispatchEvent(s, listen).Ok?
    ensures var s' := DispatchEvent(s, listen).value;
      && s'.listeners == s.listeners
      && (forall op :: op in s'.k.inflight && op.kind.Accept? ==> op.kind.listenFd == fd)
  {
    var s' := DispatchEvent(s, listen).value;
    var _, ops := HandlerShape(s, listen);
    StepInv(s, Dispatch(listen));
    forall op | op in ops ensures !op.kind.Accept? { assert OpOk(s', op) by { assert op in s'.k.inflight; } }
    hide DispatchEvent, Inv;
  }

  lemma DispatchListens(s: Exec, listen: ListenResult, fd: int)
    requires ListensOn(s, fd) && s.cur != [] && DispatchEvent(s, listen).Ok?
    ensures ListensOn(DispatchEvent(s, listen).value, fd)
  {
    var s' := DispatchEvent(s, listen).value;
    var newCur, newNext, _ := DispatchShape(s, listen);
    PendingAfter(s, s', newCur, newNext);
    StepInv(s, Dispatch(listen));
    assert EventOk(s, s.cur[0]) by { assert s.cur[0] in Pending(s); }
    if s.cur[0].handle.poolId == TCP_SERVER {
      ListenerListens(s, listen, fd);
    } else if s.cur[0].handle.id in s.conns.objects {
      HandlerListens(s, listen, fd);
    }
    hide QuietStart, Addressed, Handlers, OneSpawn, Buffers;
  }

  lemma PostListens(s: Exec, i: nat, res: int, flags: nat, fill: seq<byte>, fd: int)
    requires ListensOn(s, fd) && Answers(s, i, res, flags, fill)
    ensures ListensOn(PostCompletion(s, i, res, flags, fill), fd)
  {
    PostInv(s, i, res, flags, fill);
    PostPending(s, i, res, flags, fill);
    hide QuietStart, Addressed, Handlers, OneSpawn, Buffers;
  }

  lemma StepListens(s: Exec, step: Step, fd: int)
    requires ListensOn(s, fd) && Enabled(s, step) && Apply(s, step).Ok?
    ensures ListensOn(Apply(s, step).value, fd)
  {
    hide QuietStart, Addressed, Handlers, OneSpawn, Buffers, DispatchEvent, PostCompletion, Answers;
    match step {
      case Dispatch(listen) => DispatchListens(s, listen, fd);
      case Post(i, res, flags, fill) => PostListens(s, i, res, flags, fill, fd);
      case Collect => CollectInv(s);
      case Switch => SwitchInv(s);
    }
  }

  lemma {:induction false} RunListens(s: Exec, steps: seq<Step>, s': Exec, fd: int)
    requires ListensOn(s, fd) && Run(s, steps, s')
    ensures ListensOn(s', fd)
    decreases |steps|
  {
    if steps != [] {
      StepListens(s, steps[0], fd);
      RunListens(Apply(s, steps[0]).value, steps[1..], s', fd);
    }
  }

  /** Nothing is queued or in flight: the loop only switches queues. */
  lemma {:induction false} NothingHappens(s: Exec, steps: seq<Step>, s': Exec)
    requires Run(s, steps, s') && s.cur == [] && s.next == [] && s.k.cq == [] && s.k.inflight == []
    ensures s' == s
    decreases |steps|
  {
    if steps != [] {
      assert Apply(s, steps[0]).value == s;
      NothingHappens(s, steps[1..], s');
    }
  }

  /** The listener's spawn is the first thing to happen. */
  lemma FirstStep(c: Config, step: Step)
    requires c.Valid() && Enabled(c.Begin(), step)
    ensures step.Dispatch? && Apply(c.Begin(), step).Ok?
    ensures var s := Apply(c.Begin(), step).value;
      match step.listen
      case Listening(fd) => ListensOn(s, fd)
      case ListenFailed(errno) =>
        && 0 < |s.listeners.gen.generation| && s.ListenerId() in s.listeners.objects
        && Server(s).state == TcpState.Error(errno) && s.conns.objects == map[]
        && s.cur == [] && s.next == [] && s.k.cq == [] && s.k.inflight == []
  {
    var s0 := c.Begin();
    ReachedInv(c, [], s0);
    assert s0.k.inflight == [] && Pending(s0) == s0.cur;
    ListenerSpawnDispatch(s0, step.listen);
    StepInv(s0, step);
    hide Inv, DispatchEvent;
  }

  lemma WhatListens(s: Exec, fd: int)
    requires ListensOn(s, fd)
    ensures Inv(s) && Server(s).listenerFd == fd
    ensures forall op :: op in s.k.inflight && op.kind.Accept? ==> op == Op(ObjectHandle(1, s.ListenerId()), Accept(fd))
    ensures forall e :: e in Pending(s) && e.handle.poolId == 1 ==> e.origin == Some(Accept(fd))
  {
    hide QuietStart, Handlers, OneSpawn, Buffers;
    forall op | op in s.k.inflight && op.kind.Accept?
      ensures op == Op(ObjectHandle(1, s.ListenerId()), Accept(fd))
    {
      assert OpOk(s, op);
    }
    forall e | e in Pending(s) && e.handle.poolId == 1 ensures e.origin == Some(Accept(fd)) { assert EventOk(s, e); }
  }

  /** In every run: when the socket calls of the start gave `fd`, every accept, the first and each one rearmed,
      is asked for on `fd`; when they failed, no connection is ever accepted. */
  lemma AcceptsOnTheSocket(c: Config, steps: seq<Step>, s: Exec)
    requires Reached(c, steps, s) && steps != []
    ensures Sized(c, s) && steps[0].Dispatch?
    ensures match steps[0].listen
      case Listening(fd) =>
        && Server(s).listenerFd == fd
        && (forall op :: op in s.k.inflight && op.kind.Accept? ==>
              op == Op(ObjectHandle(1, s.ListenerId()), Accept(fd)))
        && (forall e :: e in Pending(s) && e.handle.poolId == 1 ==> e.origin == Some(Accept(fd)))
      case ListenFailed(errno) =>
        Server(s).state == TcpState.Error(errno) && Pending(s) == [] && s.k.inflight == [] && s.conns.objects == map[]
  {
    ReachedInv(c, steps, s);
    FirstStep(c, steps[0]);
    var s1 := Apply(c.Begin(), steps[0]).value;
    hide Inv, ListensOn, Apply, Enabled;
    match steps[0].listen {
      case Listening(fd) =>
        RunListens(s1, steps[1..], s, fd);
        WhatListens(s, fd);
      case ListenFailed(_) => NothingHappens(s1, steps[1..], s);
    }
  }
}
