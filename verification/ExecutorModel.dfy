/** The event loop and the kernel as one transition system. */
module ExecutorModel {
  import opened Wrappers
  import opened GenAllocSpec
  import opened ObjectHandles
  import opened Protocol
  import opened MachineSpecs
  import opened PoolSpec

  const TCP_SERVER: nat := 1
  const CONN_HANDLER: nat := 2

  // ---------- Kernel ----------

  datatype OpKind =
    | Accept(listenFd: int)
    | Recv(fd: nat, buffer: GenId, offset: nat, len: nat)
    | Close(fd: nat)

  /** A request submitted on behalf of the machine `handle`. */
  datatype Op = Op(handle: ObjectHandle, kind: OpKind)

  /** `origin` is the request that an I/O event completes. The executor never looks at it. */
  datatype Event = Event(reason: MachineEvent, handle: ObjectHandle, origin: Option<OpKind>)

  function SpawnEvent(h: ObjectHandle): Event { Event(Spawn, h, None) }

  /** Requests in flight, completions not collected yet, the open direct descriptors, and every
      byte received so far for each connection. */
  datatype Kernel = Kernel(
    inflight: seq<Op>, cq: seq<Event>, open: set<nat>, stream: map<GenId, seq<byte>>)
  {
    function Received(id: GenId): seq<byte> { if id in stream then stream[id] else [] }
  }

  datatype Exec = Exec(
    listeners: Pool<TcpServer>,
    conns: Pool<Conn>,
    bufs: Bufs,
    cur: seq<Event>,
    next: seq<Event>,
    k: Kernel,
    files: nat)
  {
    /** Handlers the pool can hold. `files` is the capacity it was asked for, which sizes the direct
        descriptor table and the queues; the pool masks it to 24 bits. */
    function N(): nat { |conns.gen.generation| }

    function QueueCapacity(): nat { 2 * files }

    function ListenerId(): GenId
      requires 0 < |listeners.gen.generation|
    {
      GenId(|listeners.gen.generation| - 1, 0)
    }
  }

  /** The state in which the loop is entered, after `setup` and `seed_run_queue`. */
  function Start(listeners: nat, handlers: nat, files: nat, bufs: nat, mem: seq<seq<byte>>): Exec
    requires 0 < listeners
  {
    var (gen, id) := GenAllocSpec.New(listeners).Alloc();
    Exec(Pool(gen, map[GenId(listeners - 1, 0) := NEW_SERVER]),
         EmptyPool(handlers),
         Bufs(GenAllocSpec.New(bufs), mem),
         [SpawnEvent(ObjectHandle(TCP_SERVER, GenId(listeners - 1, 0)))], [],
         Kernel([], [], {}, map[]), files)
  }

  // ---------- Intents ----------

  function CompleteAll(s: Exec, intents: seq<MachineIntent>, h: ObjectHandle): Outcome<Exec>
    decreases |intents|
  {
    if intents == [] then Ok(s)
    else match Complete(s, intents[0], h)
      case Panicked(reason) => Panicked(reason)
      case Ok(s') => CompleteAll(s', intents[1..], h)
  }

  function Complete(s: Exec, intent: MachineIntent, h: ObjectHandle): Outcome<Exec> {
    match intent
    case Retry =>
      if |s.next| >= s.QueueCapacity() then Panicked(RetryQueueFull)
      else Ok(s.(next := s.next + [SpawnEvent(h)]))
    case SubmitMultishotAccept(fd) => Ok(Submit(s, Op(h, Accept(fd))))
    case SpawnConnHandler(fd) => SpawnHandler(s, fd)
    case SubmitRecv(fd, b, offset) =>
      if offset >= BUF_SIZE then Panicked(BufferFull)
      else if !s.bufs.gen.IsValid(b) then Panicked(StaleBuffer)
      else Ok(Submit(s, Op(h, OpKind.Recv(fd, b, offset, BUF_SIZE - offset))))
    case Terminate =>
      if h.poolId == TCP_SERVER then
        var (p, freed) := s.listeners.Despawn(h.id);
        if freed.Ok? then Ok(s.(listeners := p)) else Panicked(freed.reason)
      else if h.poolId == CONN_HANDLER then
        var (p, freed) := s.conns.Despawn(h.id);
        if freed.Ok? then Ok(s.(conns := p)) else Panicked(freed.reason)
      else Panicked(Unreachable)
    case CloseFixed(fd) => Ok(Submit(s, Op(h, OpKind.Close(fd))))
  }

  function Submit(s: Exec, op: Op): Exec {
    s.(k := s.k.(inflight := s.k.inflight + [op]))
  }

  function SpawnHandler(s: Exec, fd: nat): Outcome<Exec> {
    var (pool, id) := s.conns.Spawn(NewConn(fd));
    if id.None? then Panicked(HandlerPoolFull)
    else if |s.cur| >= s.QueueCapacity() then Panicked(SpawnQueueFull)
    else Ok(s.(conns := pool, cur := s.cur + [SpawnEvent(ObjectHandle(CONN_HANDLER, id.value))]))
  }

  // ---------- Steps ----------

  /** `Post` is the kernel completing request `i`: a receive rewrites the whole range it was given,
      and the first `res` bytes of `fill` are what it received. */
  datatype Step =
    | Dispatch(listen: ListenResult)
    | Post(i: nat, res: int, flags: nat, fill: seq<byte>)
    | Collect
    | Switch

  function DispatchEvent(s: Exec, listen: ListenResult): Outcome<Exec>
    requires s.cur != []
  {
    var e := s.cur[0];
    var s1 := s.(cur := s.cur[1..]);
    if e.handle.poolId == TCP_SERVER then
      match s.listeners.Get(e.handle.id)
      case None => Ok(s1)
      case Some(t) => (
        match ProcessTcp(t, e.reason, listen)
        case Panicked(reason) => Panicked(reason)
        case Ok(out) =>
          CompleteAll(s1.(listeners := s.listeners.Put(e.handle.id, out.server)), out.intents, e.handle))
    else if e.handle.poolId == CONN_HANDLER then
      match s.conns.Get(e.handle.id)
      case None => Ok(s1)
      case Some(c) => (
        match ProcessConn(c, s.bufs, e.reason)
        case Panicked(reason) => Panicked(reason)
        case Ok(out) =>
          CompleteAll(s1.(conns := s.conns.Put(e.handle.id, out.conn), bufs := out.bufs), out.intents, e.handle))
    else Panicked(Unreachable)
  }

  /** What the kernel may answer to a request. */
  predicate Answers(s: Exec, i: nat, res: int, flags: nat, fill: seq<byte>) {
    && i < |s.k.inflight|
    && match s.k.inflight[i].kind
       case Accept(_) => res >= 0 ==> res < s.files && res !in s.k.open
       case Recv(_, b, offset, len) =>
         && -0x1000 < res <= len && |fill| == len
         && b.index < |s.bufs.mem| && offset + len <= |s.bufs.mem[b.index]|
       case Close(_) => -0x1000 < res <= 0
  }

  function PostCompletion(s: Exec, i: nat, res: int, flags: nat, fill: seq<byte>): Exec
    requires Answers(s, i, res, flags, fill)
  {
    var op := s.k.inflight[i];
    var rest := s.k.inflight[..i] + s.k.inflight[i + 1..];
    var cq := s.k.cq + [Event(IoCompleted(res, flags), op.handle, Some(op.kind))];
    match op.kind
    case Accept(_) =>
      var armed := res >= 0 && More(flags);
      s.(k := s.k.(inflight := if armed then s.k.inflight else rest, cq := cq,
                   open := if res >= 0 then s.k.open + {res} else s.k.open))
    case Recv(_, b, offset, len) =>
      var m := s.bufs.mem[b.index];
      var got := if res > 0 then fill[..res] else [];
      s.(k := s.k.(inflight := rest, cq := cq,
                   stream := s.k.stream[op.handle.id := s.k.Received(op.handle.id) + got]),
         bufs := s.bufs.(mem := s.bufs.mem[b.index := m[..offset] + fill + m[offset + len..]]))
    case Close(fd) =>
      s.(k := s.k.(inflight := rest, cq := cq, open := if res == 0 then s.k.open - {fd} else s.k.open))
  }

  function CollectCompletion(s: Exec): Outcome<Exec>
    requires s.k.cq != []
  {
    if |s.next| >= s.QueueCapacity() then Panicked(CompletionQueueFull)
    else Ok(s.(next := s.next + [s.k.cq[0]], k := s.k.(cq := s.k.cq[1..])))
  }

  /** The order imposed by the loop: drain the current queue, collect every completion, switch. */
  predicate Enabled(s: Exec, step: Step) {
    match step
    case Dispatch(_) => s.cur != []
    case Post(i, res, flags, fill) => Answers(s, i, res, flags, fill)
    case Collect => s.cur == [] && s.k.cq != []
    case Switch => s.cur == [] && s.k.cq == []
  }

  function Apply(s: Exec, step: Step): Outcome<Exec>
    requires Enabled(s, step)
  {
    match step
    case Dispatch(listen) => DispatchEvent(s, listen)
    case Post(i, res, flags, fill) => Ok(PostCompletion(s, i, res, flags, fill))
    case Collect => CollectCompletion(s)
    case Switch => Ok(s.(cur := s.next, next := []))
  }

  // ---------- Runs ----------

  /** `s'` is reached from `s` by these steps, none of which panics. */
  ghost predicate Run(s: Exec, steps: seq<Step>, s': Exec)
    decreases |steps|
  {
    if steps == [] then s' == s
    else
      && Enabled(s, steps[0])
      && Apply(s, steps[0]).Ok?
      && Run(Apply(s, steps[0]).value, steps[1..], s')
  }

  /** The step completes no receive with an errno that leaves other than one request in flight. */
  predicate SingleFlightStep(s: Exec, step: Step) {
    match step
    case Post(i, res, _, _) => i < |s.k.inflight| && s.k.inflight[i].kind.Recv? ==> !Doubling(res)
    case _ => true
  }

  ghost predicate SingleFlight(s: Exec, steps: seq<Step>)
    decreases |steps|
  {
    steps != [] && Enabled(s, steps[0]) ==>
      && SingleFlightStep(s, steps[0])
      && (Apply(s, steps[0]).Ok? ==> SingleFlight(Apply(s, steps[0]).value, steps[1..]))
  }
}
