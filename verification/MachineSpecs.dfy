/** What one event does to a connection handler and to the listener, as functions of their fields. */
module MachineSpecs {
  import opened Wrappers
  import opened GenAllocSpec
  import opened Protocol

  /** The buffer pool: its allocator and the bytes of each buffer. */
  datatype Bufs = Bufs(gen: Gen, mem: seq<seq<byte>>) {

    ghost predicate Wf() {
      && gen.Wf()
      && 0 < |mem| == |gen.generation|
      && forall i :: 0 <= i < |mem| ==> |mem[i]| == BUF_SIZE
    }

    function Get(b: GenId): Option<seq<byte>> {
      if gen.IsValid(b) && b.index < |mem| then Some(mem[b.index]) else None
    }
  }

  // ---------- Connection handler ----------

  datatype RecvPhase = ReceivingHeader | ReceivingBody(header: MsgHeader)
  datatype ConnState = Init | Recv(phase: RecvPhase) | Closing | Closed

  datatype Conn = Conn(state: ConnState, socket: nat, buf: Option<GenId>, offset: nat)

  function NewConn(fd: nat): Conn { Conn(ConnState.Init, fd, None, 0) }

  datatype ConnOut = ConnOut(conn: Conn, bufs: Bufs, intents: seq<MachineIntent>)

  /** Negation in 32 bits: the most negative word is its own negative. */
  function Errno(res: int): int { if res == -0x8000_0000 then res else -res }

  predicate RetryErrno(e: int) { e in {4, 11, 105, 12, 110} }
  predicate FatalErrno(e: int) { e in {9, 14, 22, 88, 97, 95} }
  predicate ClosingErrno(e: int) { e in {5, 104, 107, 108, 103, 100, 101, 102} }

  /** A result after which the connection is left with other than one request in flight. */
  predicate Doubling(res: int) {
    res < 0 && (RetryErrno(Errno(res)) || ClosingErrno(Errno(res)))
  }

  /** The classes by number. */
  lemma ErrorClasses(res: int)
    requires res < 0
    ensures RetryErrno(Errno(res)) <==> res in {-4, -11, -12, -105, -110}
    ensures FatalErrno(Errno(res)) <==> res in {-9, -14, -22, -88, -95, -97}
    ensures ClosingErrno(Errno(res)) <==> res in {-5, -100, -101, -102, -103, -104, -107, -108}
  {
  }

  function ProcessConn(c: Conn, bufs: Bufs, event: MachineEvent): Outcome<ConnOut> {
    match c.state
    case Init => if event.Spawn? then AfterInit(c, bufs) else Panicked(Unreachable)
    case Recv(_) => if event.IoCompleted? then AfterRecv(c, bufs, event.res) else Panicked(Unreachable)
    case Closing => if event.IoCompleted? then AfterClosing(c, bufs, event.res) else Panicked(Unreachable)
    case Closed => Ok(ConnOut(c, bufs, []))
  }

  function AfterInit(c: Conn, bufs: Bufs): Outcome<ConnOut> {
    var (gen, id) := bufs.gen.Alloc();
    match id
    case None => Ok(ConnOut(c.(state := ConnState.Init), bufs, [Retry]))
    case Some(b) =>
      var c' := c.(buf := Some(b));
      Ok(ConnOut(c'.(state := Recv(ReceivingHeader)), bufs.(gen := gen), [RecvIntent(c')]))
  }

  /** The offset is cast to 16 bits on its way into the intent. */
  function RecvIntent(c: Conn): MachineIntent
    requires c.buf.Some?
  {
    SubmitRecv(c.socket, c.buf.value, c.offset % 0x1_0000)
  }

  function AfterRecv(c: Conn, bufs: Bufs, res: int): Outcome<ConnOut> {
    if res == 0 then AfterClose(c, bufs, [])
    else if res < 0 then AfterIoError(c, bufs, Errno(res))
    else if c.offset + res > MAX_U32 then Panicked(OffsetOverflow)
    else if c.buf.None? then Panicked(UncheckedNone)
    else
      var c' := c.(offset := c.offset + res);
      if c'.offset < HDR_SIZE then
        Ok(ConnOut(c'.(state := Recv(ReceivingHeader)), bufs, [RecvIntent(c')]))
      else match bufs.Get(c.buf.value)
        case None => Panicked(HeaderUnwrap)
        case Some(bytes) =>
          if |bytes| < HDR_SIZE then Panicked(HeaderUnwrap) else
          var hdr := ReadHeader(bytes[..HDR_SIZE]);
          Ok(ConnOut(c'.(state := Recv(ReceivingBody(hdr))), bufs, [RecvIntent(c')]))
  }

  lemma NoBytes(c: Conn, bufs: Bufs, res: int)
    ensures res == 0 ==> AfterRecv(c, bufs, res) == AfterClose(c, bufs, [])
    ensures res < 0 ==> AfterRecv(c, bufs, res) == AfterIoError(c, bufs, Errno(res))
  {
  }

  /** The error handler followed by the receive that `on_recv` always submits. */
  function AfterIoError(c: Conn, bufs: Bufs, e: int): Outcome<ConnOut> {
    if FatalErrno(e) then Panicked(UnexpectedIoError)
    else if c.buf.None? then Panicked(UncheckedNone)
    else if RetryErrno(e) then Ok(ConnOut(c, bufs, [RecvIntent(c), RecvIntent(c)]))
    else if ClosingErrno(e) then AfterClose(c, bufs, [RecvIntent(c.(offset := 0))])
    else Ok(ConnOut(c, bufs, [RecvIntent(c)]))
  }

  function AfterClosing(c: Conn, bufs: Bufs, res: int): Outcome<ConnOut> {
    if res == 0 then Ok(ConnOut(c.(state := Closed), bufs, [Terminate]))
    else AfterClose(c, bufs, [])
  }

  /** Gives the buffer back, whatever the pool answers, and asks for the socket to be closed. */
  function AfterClose(c: Conn, bufs: Bufs, andThen: seq<MachineIntent>): Outcome<ConnOut> {
    var (gen, freed) := if c.buf.Some? then bufs.gen.Free(c.buf.value) else (bufs.gen, Rejected);
    match freed
    case Overflow => Panicked(GenerationOverflow)
    case NoRoom => Panicked(FreeListFull)
    case _ => Ok(ConnOut(c.(state := Closing, offset := 0), bufs.(gen := gen), [CloseFixed(c.socket)] + andThen))
  }

  /** Which events reach an `unreachable!()` arm of a handler or overflow its 32-bit offset, and that a closed one
      ignores every event. */
  lemma RefusedByConn(c: Conn, bufs: Bufs, event: MachineEvent)
    ensures ProcessConn(c, bufs, event) == Panicked(Unreachable) <==>
              (c.state.Init? && !event.Spawn?) || ((c.state.Recv? || c.state.Closing?) && event.Spawn?)
    ensures ProcessConn(c, bufs, event) == Panicked(OffsetOverflow) <==>
              c.state.Recv? && event.IoCompleted? && event.res > 0 && c.offset + event.res > 0xFFFF_FFFF
    ensures c.state.Closed? ==> ProcessConn(c, bufs, event) == Ok(ConnOut(c, bufs, []))
  {
  }

  /** A failed close does again all that the end of the stream does. */
  lemma ClosesAgain(c: Conn, bufs: Bufs, res: int, flags: nat)
    requires c.state.Closing? && res != 0
    ensures ProcessConn(c, bufs, IoCompleted(res, flags))
         == ProcessConn(c.(state := Recv(ReceivingHeader)), bufs, IoCompleted(0, flags))
  {
  }

  /** No event asks for more than two things. */
  lemma FewIntents(c: Conn, bufs: Bufs, event: MachineEvent)
    ensures var r := ProcessConn(c, bufs, event); r.Ok? ==> |r.value.intents| <= 2
  {
  }

  // ---------- Listener ----------

  datatype TcpState = Init | Accepting | Error(errno: int)
  datatype TcpServer = TcpServer(state: TcpState, listenerFd: int)
  datatype ListenResult = Listening(fd: int) | ListenFailed(errno: int)

  const NEW_SERVER := TcpServer(TcpState.Init, -1)

  datatype TcpOut = TcpOut(server: TcpServer, intents: seq<MachineIntent>)

  /** `listen` stands for the outcome of the socket calls. */
  function ProcessTcp(t: TcpServer, event: MachineEvent, listen: ListenResult): Outcome<TcpOut> {
    match event
    case Spawn => (
      if t.state != TcpState.Init then Panicked(Unreachable)
      else match listen
        case Listening(fd) => Ok(TcpOut(TcpServer(Accepting, fd), [SubmitMultishotAccept(fd)]))
        case ListenFailed(e) => Ok(TcpOut(t.(state := Error(e)), [])))
    case IoCompleted(res, flags) => (
      match t.state
      case Init => Panicked(Unreachable)
      case Error(_) => Ok(TcpOut(t, []))
      case Accepting =>
        if res < 0 then Ok(TcpOut(t.(state := Error(res)), []))
        else Ok(TcpOut(t, [SpawnConnHandler(res)] + if More(flags) then [] else [SubmitMultishotAccept(t.listenerFd)])))
  }

  /** Likewise for the listener, which ignores completions once it has failed. */
  lemma RefusedByListener(t: TcpServer, event: MachineEvent, listen: ListenResult)
    ensures ProcessTcp(t, event, listen) == Panicked(Unreachable) <==> (event.Spawn? <==> !t.state.Init?)
    ensures t.state.Error? && event.IoCompleted? ==> ProcessTcp(t, event, listen) == Ok(TcpOut(t, []))
  {
  }

  lemma FewRequests(t: TcpServer, event: MachineEvent, listen: ListenResult)
    ensures var r := ProcessTcp(t, event, listen); r.Ok? ==> |r.value.intents| <= 2
  {
  }
}
