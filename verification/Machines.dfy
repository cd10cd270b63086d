/** The two state machines as the executor runs them, over a context that collects their intents. */
module Machines {
  import opened Wrappers
  import opened Protocol
  import opened GenAllocSpec
  import opened MachineSpecs
  import opened BufferPools

  class ExecutorContext {
    const intents: array<MachineIntent>
    const buffers: BufferPool
    var len: nat

    ghost predicate Valid()
      reads this, intents, buffers, buffers.bytes, buffers.alloc, buffers.alloc.generation,
            buffers.alloc.freeList, buffers.alloc.freeList.data
    {
      && buffers.Valid()
      && this !in buffers.Repr && intents !in buffers.Repr
      && len <= intents.Length
    }

    ghost function Submitted(): seq<MachineIntent>
      requires len <= intents.Length
      reads this, intents
    {
      intents[..len]
    }

    constructor (intents: array<MachineIntent>, buffers: BufferPool)
      requires buffers.Valid() && intents !in buffers.Repr
      ensures Valid() && this.intents == intents && this.buffers == buffers && Submitted() == []
    {
      this.intents, this.buffers, len := intents, buffers, 0;
    }

    /** `Some` stands for the failed assertion. */
    method SubmitIntent(intent: MachineIntent) returns (panic: Option<Panic>)
      requires Valid()
      modifies this`len, intents
      ensures Valid()
      ensures panic == if Room(old(len), 1) then None else Some(IntentsFull)
      ensures Submitted() == if panic.None? then old(Submitted()) + [intent] else old(Submitted())
    {
      if len >= intents.Length { return Some(IntentsFull); }
      intents[len] := intent;
      len := len + 1;
      panic := None;
    }

    /** Whether `n` more intents fit behind the first `from`. */
    predicate Room(from: nat, n: nat) { from + n <= intents.Length }
  }

  class ConnHandler {
    var state: ConnState
    const socket: nat
    var bufHandle: Option<GenId>
    var offset: nat

    function View(): Conn
      reads this
    {
      Conn(state, socket, bufHandle, offset)
    }

    constructor (fd: nat)
      ensures View() == NewConn(fd) == Conn(ConnState.Init, fd, None, 0)
    {
      state, socket, bufHandle, offset := ConnState.Init, fd, None, 0;
    }

    /** The handler behind the reference that `get_mut` gives. */
    constructor Borrow(c: Conn)
      ensures View() == c
    {
      state, socket, bufHandle, offset := c.state, c.socket, c.buf, c.offset;
    }

    /** Only a buffer that was handed out is given back. */
    ghost predicate Fits(ctx: ExecutorContext)
      reads this, ctx, ctx.intents, ctx.buffers, ctx.buffers.bytes, ctx.buffers.alloc, ctx.buffers.alloc.generation,
            ctx.buffers.alloc.freeList, ctx.buffers.alloc.freeList.data
    {
      && ctx.Valid() && this !in ctx.buffers.Repr
      && (bufHandle.Some? && ctx.buffers.View().gen.IsValid(bufHandle.value)
          ==> ctx.buffers.View().gen.Live(bufHandle.value))
    }

    /** A handler without a buffer that closes on an error asks for the close before it misses the buffer. */
    predicate CloseFirst(ctx: ExecutorContext, from: nat, c: Conn, res: int) {
      !ctx.Room(from, 1) && c.buf.None? && res < 0 && ClosingErrno(Errno(res))
    }

    /** `Some` is the panic in which the event ends; what it leaves behind is not used again. */
    method ProcessEvent(ctx: ExecutorContext, event: MachineEvent) returns (panic: Option<Panic>)
      requires Fits(ctx)
      modifies this, ctx`len, ctx.intents, ctx.buffers.Repr
      ensures match ProcessConn(old(View()), old(ctx.buffers.View()), event)
        case Panicked(reason) =>
          var full := old(state).Recv? && event.IoCompleted? && CloseFirst(ctx, old(ctx.len), old(View()), event.res);
          panic == Some(if full then IntentsFull else reason)
        case Ok(out) =>
          if !ctx.Room(old(ctx.len), |out.intents|) then panic == Some(IntentsFull)
          else
            && panic.None? && ctx.Valid()
            && View() == out.conn && ctx.buffers.View() == out.bufs
            && ctx.Submitted() == old(ctx.Submitted()) + out.intents
    {
      var next := state;
      panic := None;
      match (event, state) {
        case (Spawn, Init) => panic, next := OnInit(ctx);
        case (IoCompleted(res, _), Recv(_)) => panic, next := OnRecv(ctx, res);
        case (IoCompleted(res, _), Closing) => panic, next := OnClosing(ctx, res);
        case (_, Closed) => next := Closed;
        case (_, _) => return Some(Unreachable);
      }
      if panic.None? { state := next; }
    }

    method OnInit(ctx: ExecutorContext) returns (panic: Option<Panic>, next: ConnState)
      requires Fits(ctx)
      modifies this`bufHandle, ctx`len, ctx.intents, ctx.buffers.Repr
      ensures ctx.Valid() && panic == if ctx.Room(old(ctx.len), 1) then None else Some(IntentsFull)
      ensures var out := AfterInit(old(View()), old(ctx.buffers.View()));
        && out.Ok? && |out.value.intents| == 1
        && View().(state := next) == out.value.conn && ctx.buffers.View() == out.value.bufs
        && (panic.None? ==> ctx.Submitted() == old(ctx.Submitted()) + out.value.intents)
    {
      var handle := ctx.buffers.Alloc();
      match handle {
        case Some(_) =>
          bufHandle := handle;
          panic := this.Recv(ctx);
          next := ConnState.Recv(ReceivingHeader);
        case None =>
          panic := ctx.SubmitIntent(Retry);
          next := ConnState.Init;
      }
    }

    method OnRecv(ctx: ExecutorContext, res: int) returns (panic: Option<Panic>, next: ConnState)
      requires Fits(ctx)
      modifies this`offset, ctx`len, ctx.intents, ctx.buffers.Repr
      ensures match AfterRecv(old(View()), old(ctx.buffers.View()), res)
        case Panicked(reason) =>
          panic == Some(if CloseFirst(ctx, old(ctx.len), old(View()), res) then IntentsFull else reason)
        case Ok(out) =>
          if !ctx.Room(old(ctx.len), |out.intents|) then panic == Some(IntentsFull)
          else
            && panic.None? && ctx.Valid()
            && View().(state := next) == out.conn && ctx.buffers.View() == out.bufs
            && ctx.Submitted() == old(ctx.Submitted()) + out.intents
    {
      NoBytes(View(), ctx.buffers.View(), res);
      if res < 0 { ErrorClasses(res); }
      hide AfterRecv, ReadHeader, Bufs.Get, Gen.Free, Gen.IsValid, Gen.Live;
      hide RetryErrno, FatalErrno, ClosingErrno, Errno;
      next := state;
      if res == 0 {
        panic := Close(ctx);
        next := Closing;
        return;
      }
      if res < 0 {
        panic, next := HandleIoError(res, ctx);
      } else {
        panic, next := CountBytes(ctx, res);
      }
      if panic.Some? { return; }
      if bufHandle.None? { return Some(UncheckedNone), state; }
      panic := this.Recv(ctx);
    }

    /** What a positive result does before the next receive is asked for. */
    method CountBytes(ctx: ExecutorContext, res: nat) returns (panic: Option<Panic>, next: ConnState)
      requires ctx.Valid() && this !in ctx.buffers.Repr && 0 < res
      modifies this`offset
      ensures match AfterRecv(old(View()), ctx.buffers.View(), res)
        case Panicked(reason) => panic == Some(reason)
        case Ok(out) =>
          && panic.None? && ctx.Valid() && ctx.buffers.View() == old(ctx.buffers.View()) && bufHandle.Some?
          && out == ConnOut(View().(state := next), ctx.buffers.View(), [RecvIntent(View())])
    {
      next := state;
      if offset + res > MAX_U32 { return Some(OffsetOverflow), state; }
      offset := offset + res;
      if bufHandle.None? { return Some(UncheckedNone), state; }
      if offset >= HDR_SIZE {
        var bytes := ctx.buffers.Get(bufHandle.value);
        if bytes.None? { return Some(HeaderUnwrap), state; }
        next := ConnState.Recv(ReceivingBody(ReadHeader(bytes.value[..HDR_SIZE])));
      } else {
        next := ConnState.Recv(ReceivingHeader);
      }
      panic := None;
    }

    method OnClosing(ctx: ExecutorContext, res: int) returns (panic: Option<Panic>, next: ConnState)
      requires Fits(ctx)
      modifies this`offset, ctx`len, ctx.intents, ctx.buffers.Repr
      ensures match AfterClosing(old(View()), old(ctx.buffers.View()), res)
        case Panicked(reason) => panic == Some(reason)
        case Ok(out) =>
          if !ctx.Room(old(ctx.len), |out.intents|) then panic == Some(IntentsFull)
          else
            && panic.None? && ctx.Valid()
            && View().(state := next) == out.conn && ctx.buffers.View() == out.bufs
            && ctx.Submitted() == old(ctx.Submitted()) + out.intents
    {
      if res == 0 {
        panic := ctx.SubmitIntent(Terminate);
        next := Closed;
      } else {
        panic := Close(ctx);
        next := Closing;
      }
    }

    /** One receive may be submitted here; `OnRecv` submits one more. */
    method HandleIoError(err: int, ctx: ExecutorContext) returns (panic: Option<Panic>, next: ConnState)
      requires Fits(ctx) && err < 0
      modifies this`offset, ctx`len, ctx.intents, ctx.buffers.Repr
      ensures var before := old(View());
        if err in {-9, -14, -22, -88, -95, -97} then panic == Some(UnexpectedIoError)
        else if err in {-4, -11, -12, -105, -110} then
          if bufHandle.None? then panic == Some(UncheckedNone)
          else if !ctx.Room(old(ctx.len), 1) then panic == Some(IntentsFull)
          else
            && panic.None? && ctx.Valid() && View() == before && next == state
            && ctx.buffers.View() == old(ctx.buffers.View())
            && ctx.Submitted() == old(ctx.Submitted()) + [RecvIntent(before)]
        else if err in {-5, -100, -101, -102, -103, -104, -107, -108} then
          match AfterClose(before, old(ctx.buffers.View()), [])
          case Panicked(reason) => panic == Some(reason)
          case Ok(out) =>
            if !ctx.Room(old(ctx.len), 1) then panic == Some(IntentsFull)
            else
              && panic.None? && ctx.Valid() && View().(state := next) == out.conn
              && ctx.buffers.View() == out.bufs && ctx.Submitted() == old(ctx.Submitted()) + out.intents
        else
          && panic.None? && ctx.Valid() && View() == before && next == state
          && ctx.buffers.View() == old(ctx.buffers.View()) && ctx.Submitted() == old(ctx.Submitted())
      ensures panic.None? ==> ctx.len <= old(ctx.len) + 1
    {
      var e := Errno(err);
      panic, next := None, state;
      if RetryErrno(e) {
        if bufHandle.None? { return Some(UncheckedNone), state; }
        panic := this.Recv(ctx);
      } else if FatalErrno(e) {
        panic := Some(UnexpectedIoError);
      } else if ClosingErrno(e) {
        panic := Close(ctx);
        next := Closing;
      }
    }

    method Close(ctx: ExecutorContext) returns (panic: Option<Panic>)
      requires Fits(ctx)
      modifies this`offset, ctx`len, ctx.intents, ctx.buffers.Repr
      ensures match AfterClose(old(View()), old(ctx.buffers.View()), [])
        case Panicked(reason) => panic == Some(reason)
        case Ok(out) =>
          if !ctx.Room(old(ctx.len), 1) then panic == Some(IntentsFull)
          else
            && panic.None? && ctx.Valid()
            && View().(state := Closing) == out.conn && ctx.buffers.View() == out.bufs
            && ctx.Submitted() == old(ctx.Submitted()) + out.intents
            && ctx.len == old(ctx.len) + 1
    {
      if bufHandle.Some? {
        var freed := ctx.buffers.Free(bufHandle.value);
        match freed {
          case Overflow => return Some(GenerationOverflow);
          case NoRoom => return Some(FreeListFull);
          case _ =>
        }
      }
      offset := 0;
      panic := ctx.SubmitIntent(CloseFixed(socket));
    }

    /** The handle is there: `OnRecv` and `HandleIoError` look before they come here. */
    method Recv(ctx: ExecutorContext) returns (panic: Option<Panic>)
      requires ctx.Valid() && bufHandle.Some?
      modifies ctx`len, ctx.intents
      ensures ctx.Valid() && panic == if ctx.Room(old(ctx.len), 1) then None else Some(IntentsFull)
      ensures panic.None? ==>
                ctx.Submitted() == old(ctx.Submitted()) + [SubmitRecv(socket, bufHandle.value, offset % 0x1_0000)]
    {
      panic := ctx.SubmitIntent(SubmitRecv(socket, bufHandle.value, offset % 0x1_0000));
    }
  }

  class Listener {
    var state: TcpState
    var listenerFd: int

    function View(): TcpServer
      reads this
    {
      TcpServer(state, listenerFd)
    }

    constructor ()
      ensures View() == NEW_SERVER == TcpServer(TcpState.Init, -1)
    {
      state, listenerFd := TcpState.Init, -1;
    }

    constructor Borrow(t: TcpServer)
      ensures View() == t
    {
      state, listenerFd := t.state, t.listenerFd;
    }

    /** `listen` is what the socket calls give when they are made. */
    method ProcessEvent(ctx: ExecutorContext, event: MachineEvent, listen: ListenResult) returns (panic: Option<Panic>)
      requires ctx.Valid()
      modifies this, ctx`len, ctx.intents
      ensures match ProcessTcp(old(View()), event, listen)
        case Panicked(reason) => panic == Some(reason)
        case Ok(out) =>
          if !ctx.Room(old(ctx.len), |out.intents|) then panic == Some(IntentsFull)
          else
            && panic.None? && ctx.Valid() && View() == out.server
            && ctx.Submitted() == old(ctx.Submitted()) + out.intents
      ensures panic.None? && event.Spawn? && listen.Listening? ==>
                listenerFd == listen.fd && ctx.Submitted() == old(ctx.Submitted()) + [SubmitMultishotAccept(listen.fd)]
    {
      panic := None;
      match event {
        case Spawn =>
          if state != TcpState.Init { return Some(Unreachable); }
          match listen {
            case Listening(fd) =>
              listenerFd := fd;
              panic := MultishotAccept(ctx);
              if panic.Some? { return; }
              state := Accepting;
            case ListenFailed(e) => state := TcpState.Error(e);
          }
        case IoCompleted(res, flags) =>
          match state {
            case Accepting =>
              if res < 0 {
                state := TcpState.Error(res);
                return;
              }
              panic := ctx.SubmitIntent(SpawnConnHandler(res));
              if panic.None? && !More(flags) { panic := MultishotAccept(ctx); }
            case Error(_) =>
            case Init => return Some(Unreachable);
          }
      }
    }

    method MultishotAccept(ctx: ExecutorContext) returns (panic: Option<Panic>)
      requires ctx.Valid()
      modifies ctx`len, ctx.intents
      ensures ctx.Valid() && panic == if ctx.Room(old(ctx.len), 1) then None else Some(IntentsFull)
      ensures panic.None? ==> ctx.Submitted() == old(ctx.Submitted()) + [SubmitMultishotAccept(listenerFd)]
    {
      panic := ctx.SubmitIntent(SubmitMultishotAccept(listenerFd));
    }
  }
}
