/** The event loop in place: the two pools, the buffers, the two run queues and the intents it overwrites. */
module Executors {
  import opened Wrappers
  import opened GenAllocSpec
  import opened GenAllocs
  import opened RingBuffers
  import opened ObjectHandles
  import opened Protocol
  import opened PoolSpec
  import opened ObjectPools
  import opened BufferPools
  import opened MachineSpecs
  import opened Machines
  import opened ExecutorModel
  import opened ExecutorInvariant
  import opened ExecutorSteps
  import opened ExecutorRuns
  import opened EventLoop

  ghost function AllocParts(a: GenAlloc): set<object> { {a, a.generation, a.freeList, a.freeList.data} }
  ghost function PoolParts<T>(p: ObjectPool<T>): set<object> { {p, p.data} + AllocParts(p.alloc) }
  ghost function BufferParts(b: BufferPool): set<object> { {b, b.bytes} + AllocParts(b.alloc) }
  ghost function QueueParts(q: RingBuffer<Event>): set<object> { {q, q.data} }

  lemma PoolFootprint<T>(p: ObjectPool<T>)
    requires p.Valid()
    ensures PoolParts(p) == p.Repr && p.alloc.generation.Length == |p.View().gen.generation|
  {
  }

  lemma AllApart(a: set<object>, b: set<object>, c: set<object>, d: set<object>, e: set<object>, f: set<object>)
    requires b !! c !! d && a !! e !! f && b + c + d !! a + e + f
    ensures a !! b !! c !! d !! e !! f
  {
  }

  lemma BufferFootprint(b: BufferPool)
    requires b.Valid()
    ensures BufferParts(b) == b.Repr
  {
  }

  /** The handle was handed out by its pool. */
  ghost predicate Handed(s: Exec, h: ObjectHandle) {
    || (h.poolId == TCP_SERVER && s.listeners.gen.Issued(h.id))
    || (h.poolId == CONN_HANDLER && s.conns.gen.Issued(h.id))
  }

  lemma StillHanded(s: Exec, intent: MachineIntent, h: ObjectHandle)
    requires s.listeners.gen.Wf() && s.conns.gen.Wf() && Handed(s, h)
    ensures Complete(s, intent, h).Ok? ==> Handed(Complete(s, intent, h).value, h)
  {
    AllocFresh(s.conns.gen);
    if h.poolId == TCP_SERVER { FreeIssued(s.listeners.gen, h.id); } else { FreeIssued(s.conns.gen, h.id); }
  }

  lemma DespawnsCurrent<T>(p: Pool<T>, id: GenId)
    ensures p.Despawn(id).1 == Ok(true) ==> p.gen.IsValid(id)
  {
  }

  method DespawnFrom<T>(p: ObjectPool<T>, handle: ObjectHandle) returns (r: Outcome<bool>)
    requires p.Valid() && (p.View().gen.IsValid(handle.id) ==> p.View().gen.Live(handle.id))
    modifies PoolParts(p)
    ensures r == old(p.View()).Despawn(handle.id).1
    ensures r.Ok? ==> p.Valid() && p.View() == old(p.View()).Despawn(handle.id).0
  {
    DespawnsCurrent(p.View(), handle.id);
    hide ObjectPool.Valid, ObjectPool.View, Pool.Despawn, Gen.Live, Gen.IsValid;
    r := p.Despawn(handle);
  }

  method BorrowHandler(intents: array<MachineIntent>, bufs: BufferPool, c: Conn, event: MachineEvent)
    returns (after: Conn, n: nat, panic: Option<Panic>)
    requires bufs.Valid() && intents !in bufs.Repr && 2 <= intents.Length
    requires c.buf.Some? && bufs.View().gen.IsValid(c.buf.value) ==> bufs.View().gen.Live(c.buf.value)
    modifies {intents} + bufs.Repr
    ensures match ProcessConn(c, old(bufs.View()), event)
      case Panicked(reason) => panic == Some(reason)
      case Ok(out) =>
        && panic.None? && bufs.Valid() && bufs.View() == out.bufs
        && after == out.conn && n <= intents.Length && intents[..n] == out.intents
  {
    FewIntents(c, bufs.View(), event);
    hide ProcessConn;
    var handler := new ConnHandler.Borrow(c);
    var ctx := new ExecutorContext(intents, bufs);
    panic := handler.ProcessEvent(ctx, event);
    after, n := handler.View(), ctx.len;
  }

  method BorrowListener(intents: array<MachineIntent>, bufs: BufferPool, t: TcpServer, event: MachineEvent,
                        listen: ListenResult)
    returns (after: TcpServer, n: nat, panic: Option<Panic>)
    requires bufs.Valid() && intents !in bufs.Repr && 2 <= intents.Length
    modifies intents
    ensures match ProcessTcp(t, event, listen)
      case Panicked(reason) => panic == Some(reason)
      case Ok(out) =>
        && panic.None? && after == out.server && n <= intents.Length && intents[..n] == out.intents
  {
    FewRequests(t, event, listen);
    hide ProcessTcp;
    var listener := new Listener.Borrow(t);
    var ctx := new ExecutorContext(intents, bufs);
    panic := listener.ProcessEvent(ctx, event, listen);
    after, n := listener.View(), ctx.len;
  }

  /** The executor as `new` leaves it. */
  ghost function Blank(c: Config): Exec {
    Exec(EmptyPool(c.ListenerSlots()), EmptyPool(c.Slots()), Bufs(GenAllocSpec.New(c.bufs), c.mem), [], [],
         Kernel([], [], {}, map[]), c.handlers)
  }

  /** A handler only gives back a buffer it was handed. */
  ghost predicate KeepsOwnBuffer(s: Exec, id: GenId) {
    s.conns.Get(id).Some? && s.conns.Get(id).value.buf.Some? ==>
      var b := s.conns.Get(id).value.buf.value;
      s.bufs.gen.IsValid(b) ==> s.bufs.gen.Live(b)
  }

  lemma HandedOut(s: Exec, h: ObjectHandle)
    requires Inv(s) && s.cur != []
    ensures h.poolId == TCP_SERVER && s.listeners.Get(h.id).Some? ==> Handed(s.(cur := s.cur[1..]), h)
    ensures h.poolId == CONN_HANDLER && s.conns.Get(h.id).Some? ==>
              Handed(s.(cur := s.cur[1..]), h) && KeepsOwnBuffer(s.(cur := s.cur[1..]), h.id)
  {
    if h.id in s.conns.objects { assert ConnOk(s.bufs, s.conns.objects[h.id]); }
  }

  /** The pools' capacities are 32-bit, and not masked to nothing. */
  predicate Sizes(listeners: nat, connHandlers: nat) {
    listeners <= MAX_U32 && connHandlers <= MAX_U32 && 0 < PoolSlots(listeners) && 0 < PoolSlots(connHandlers)
  }

  class Executor {
    const listeners: ObjectPool<TcpServer>
    const conns: ObjectPool<Conn>
    const ioBufs: BufferPool
    const queue0: RingBuffer<Event>
    const queue1: RingBuffer<Event>
    const intents: array<MachineIntent>
    var currentRunQueue: nat

    /** Stands for the ring and what is behind it. */
    var kernel: Kernel

    /** No part is shared. */
    ghost predicate Apart() {
      {this} !! {intents} !! PoolParts(listeners) !! PoolParts(conns) !! BufferParts(ioBufs)
      !! QueueParts(queue0) !! QueueParts(queue1)
    }

    ghost function Footprint(): set<object> {
      {this} + {intents} + PoolParts(listeners) + PoolParts(conns) + BufferParts(ioBufs)
      + QueueParts(queue0) + QueueParts(queue1)
    }

    ghost predicate Valid()
      reads Footprint()
    {
      && Apart()
      && listeners.Valid() && conns.Valid() && ioBufs.Valid()
      && queue0.Valid() && queue1.Valid()
      && listeners.poolId == TCP_SERVER && conns.poolId == CONN_HANDLER
      && listeners.alloc.generation.Length <= POOL_MASK && conns.alloc.generation.Length <= POOL_MASK
      && queue0.size == queue1.size == 2 * conns.data.Length
      && intents.Length == 16 && currentRunQueue <= 1
    }

    ghost function View(): Exec
      requires Valid()
      reads Footprint()
    {
      Exec(listeners.View(), conns.View(), ioBufs.View(),
           RunQueue(currentRunQueue).Contents(), RunQueue(1 - currentRunQueue).Contents(), kernel, conns.data.Length)
    }

    /** The struct literal: the parts must be whole, of matching sizes, and not shared. */
    constructor (listeners: ObjectPool<TcpServer>, conns: ObjectPool<Conn>, ioBufs: BufferPool,
                 q0: RingBuffer<Event>, q1: RingBuffer<Event>, intents: array<MachineIntent>)
      requires {intents} !! PoolParts(listeners) !! PoolParts(conns) !! BufferParts(ioBufs)
               !! QueueParts(q0) !! QueueParts(q1)
      requires listeners.Valid() && conns.Valid() && ioBufs.Valid() && q0.Valid() && q1.Valid()
      requires listeners.poolId == TCP_SERVER && conns.poolId == CONN_HANDLER
      requires listeners.alloc.generation.Length <= POOL_MASK && conns.alloc.generation.Length <= POOL_MASK
      requires q0.size == q1.size == 2 * conns.data.Length && intents.Length == 16
      ensures this.listeners == listeners && this.conns == conns && this.ioBufs == ioBufs
      ensures queue0 == q0 && queue1 == q1 && this.intents == intents
      ensures Valid() && currentRunQueue == 0 && kernel == Kernel([], [], {}, map[])
    {
      hide ObjectPool.Valid, BufferPool.Valid, RingBuffer.Valid, ObjectPool.View, BufferPool.View;
      this.listeners, this.conns, this.ioBufs, this.intents := listeners, conns, ioBufs, intents;
      queue0, queue1 := q0, q1;
      currentRunQueue, kernel := 0, Kernel([], [], {}, map[]);
    }

    static method Assemble(listeners: nat, connHandlers: nat, bufCount: nat) returns (e: Executor)
      requires Sizes(listeners, connHandlers) && 0 < bufCount <= MAX_U32
      ensures e.Valid() && fresh(e.Footprint())
      ensures e.listeners.View() == EmptyPool(PoolSlots(listeners))
      ensures e.conns.View() == EmptyPool(PoolSlots(connHandlers))
      ensures e.ioBufs.View().gen == GenAllocSpec.New(bufCount) && e.View().cur == [] == e.View().next
      ensures e.kernel == Kernel([], [], {}, map[]) && e.conns.data.Length == connHandlers
    {
      hide ObjectPool.Valid, BufferPool.Valid, ObjectPool.View, BufferPool.View, EmptyPool,
           GenAllocSpec.New, RingBuffer.Contents, RingBuffer.Valid, GenAlloc.Valid, GenAlloc.View;
      var ls, cs, bs, q0, q1, slots := NewParts(listeners, connHandlers, bufCount);
      e := new Executor(ls, cs, bs, q0, q1, slots);
    }

    /** `c` is what the run will have started from. */
    static method New(listeners: nat, connHandlers: nat, bufCount: nat) returns (e: Executor, ghost c: Config)
      requires Sizes(listeners, connHandlers) && 0 < bufCount <= MAX_U32
      ensures e.Valid() && fresh(e.Footprint()) && e.View() == Blank(c)
      ensures c.Valid() && c == Config(listeners, connHandlers, bufCount, c.mem)
    {
      hide PoolSlots, EmptyPool, GenAllocSpec.New, Executor.Valid, Executor.View, Blank;
      e := Assemble(listeners, connHandlers, bufCount);
      c := Config(listeners, connHandlers, bufCount, e.View().bufs.mem);
      e.IsBlank(c);
    }

    lemma IsBlank(c: Config)
      requires Valid() && listeners.View() == EmptyPool(c.ListenerSlots()) && conns.View() == EmptyPool(c.Slots())
      requires ioBufs.View().gen == GenAllocSpec.New(c.bufs) && View().cur == [] == View().next
      requires kernel == Kernel([], [], {}, map[]) && conns.data.Length == c.handlers
      requires Sizes(c.listeners, c.handlers) && c.mem == View().bufs.mem
      ensures View() == Blank(c) && c.Valid()
    {
      BufferShape();
      hide ObjectPool.Valid, ObjectPool.View, BufferPool.Valid, BufferPool.View, RingBuffer.Valid, PoolSlots, EmptyPool;
    }

    static method NewPools(listeners: nat, connHandlers: nat)
      returns (ls: ObjectPool<TcpServer>, cs: ObjectPool<Conn>)
      requires Sizes(listeners, connHandlers)
      ensures fresh(PoolParts(ls)) && fresh(PoolParts(cs)) && PoolParts(ls) !! PoolParts(cs)
      ensures ls.Valid() && ls.View() == EmptyPool(PoolSlots(listeners)) && ls.alloc.generation.Length <= POOL_MASK
      ensures cs.Valid() && cs.View() == EmptyPool(PoolSlots(connHandlers)) && cs.alloc.generation.Length <= POOL_MASK
      ensures cs.data.Length == connHandlers && ls.poolId == TCP_SERVER && cs.poolId == CONN_HANDLER
    {
      hide PoolParts, ObjectPool.Valid, ObjectPool.View, PoolSlots;
      ls := new ObjectPool<TcpServer>(TCP_SERVER, listeners);
      PoolFootprint(ls);
      cs := new ObjectPool<Conn>(CONN_HANDLER, connHandlers);
      PoolFootprint(cs);
    }

    static method NewBuffers(bufCount: nat) returns (b: BufferPool)
      requires 0 < bufCount <= MAX_U32
      ensures fresh(BufferParts(b)) && b.Valid() && b.View().gen == GenAllocSpec.New(bufCount)
    {
      b := new BufferPool(bufCount);
      BufferFootprint(b);
    }

    static method NewTables(listeners: nat, connHandlers: nat, bufCount: nat)
      returns (ls: ObjectPool<TcpServer>, cs: ObjectPool<Conn>, bs: BufferPool)
      requires Sizes(listeners, connHandlers) && 0 < bufCount <= MAX_U32
      ensures fresh(PoolParts(ls)) && fresh(PoolParts(cs)) && fresh(BufferParts(bs))
      ensures PoolParts(ls) !! PoolParts(cs) !! BufferParts(bs)
      ensures ls.Valid() && ls.View() == EmptyPool(PoolSlots(listeners)) && ls.alloc.generation.Length <= POOL_MASK
      ensures cs.Valid() && cs.View() == EmptyPool(PoolSlots(connHandlers)) && cs.alloc.generation.Length <= POOL_MASK
      ensures cs.data.Length == connHandlers && ls.poolId == TCP_SERVER && cs.poolId == CONN_HANDLER
      ensures bs.Valid() && bs.View().gen == GenAllocSpec.New(bufCount)
    {
      hide ObjectPool.Valid, BufferPool.Valid, ObjectPool.View, BufferPool.View, EmptyPool, GenAllocSpec.New;
      ls, cs := NewPools(listeners, connHandlers);
      bs := NewBuffers(bufCount);
    }

    static method NewParts(listeners: nat, connHandlers: nat, bufCount: nat)
      returns (ls: ObjectPool<TcpServer>, cs: ObjectPool<Conn>, bs: BufferPool,
               q0: RingBuffer<Event>, q1: RingBuffer<Event>, slots: array<MachineIntent>)
      requires Sizes(listeners, connHandlers) && 0 < bufCount <= MAX_U32
      ensures fresh(PoolParts(ls)) && fresh(PoolParts(cs)) && fresh(BufferParts(bs))
      ensures fresh(QueueParts(q0)) && fresh(QueueParts(q1)) && fresh(slots)
      ensures {slots} !! PoolParts(ls) !! PoolParts(cs) !! BufferParts(bs) !! QueueParts(q0) !! QueueParts(q1)
      ensures ls.Valid() && ls.View() == EmptyPool(PoolSlots(listeners)) && ls.alloc.generation.Length <= POOL_MASK
      ensures cs.Valid() && cs.View() == EmptyPool(PoolSlots(connHandlers)) && cs.alloc.generation.Length <= POOL_MASK
      ensures cs.data.Length == connHandlers && ls.poolId == TCP_SERVER && cs.poolId == CONN_HANDLER
      ensures bs.Valid() && bs.View().gen == GenAllocSpec.New(bufCount)
      ensures q0.Valid() && q0.Contents() == [] && q1.Valid() && q1.Contents() == []
      ensures q0.size == connHandlers * 2 == q1.size && slots.Length == 16
    {
      hide ObjectPool.Valid, BufferPool.Valid, ObjectPool.View, BufferPool.View, EmptyPool, GenAllocSpec.New,
           RingBuffer.Contents, RingBuffer.Valid, GenAlloc.Valid, GenAlloc.View;
      ls, cs, bs := NewTables(listeners, connHandlers, bufCount);
      ghost var tables := PoolParts(ls) + PoolParts(cs) + BufferParts(bs);
      q0, q1, slots := NewQueues(connHandlers * 2);
      assert tables !! {slots} + QueueParts(q0) + QueueParts(q1);
      AllApart({slots}, PoolParts(ls), PoolParts(cs), BufferParts(bs), QueueParts(q0), QueueParts(q1));
    }

    static method NewQueues(size: nat)
      returns (q0: RingBuffer<Event>, q1: RingBuffer<Event>, slots: array<MachineIntent>)
      requires 0 < size
      ensures fresh(QueueParts(q0)) && fresh(QueueParts(q1)) && fresh(slots)
      ensures {slots} !! QueueParts(q0) !! QueueParts(q1)
      ensures q0.Valid() && q0.Contents() == [] && q0.size == size
      ensures q1.Valid() && q1.Contents() == [] && q1.size == size
      ensures slots.Length == 16
    {
      q0 := new RingBuffer<Event>(size);
      q1 := new RingBuffer<Event>(size);
      slots := new MachineIntent[16](_ => Retry);
    }

    lemma QueueSizes()
      requires Valid()
      ensures queue0.size == queue1.size == View().QueueCapacity()
    {
    }

    lemma HandedFits(handle: ObjectHandle)
      requires Valid() && Handed(View(), handle)
      ensures handle.Packable()
    {
    }

    function RunQueue(i: nat): RingBuffer<Event> { if i == 0 then queue0 else queue1 }

    method PushTo(i: nat, e: Event) returns (ok: bool)
      requires Valid() && i <= 1
      modifies QueueParts(RunQueue(i))
      ensures Valid()
      ensures ok <==> |if i == currentRunQueue then old(View()).cur else old(View()).next| < RunQueue(i).size
      ensures View() == if !ok then old(View())
                        else if i == currentRunQueue then old(View()).(cur := old(View()).cur + [e])
                        else old(View()).(next := old(View()).next + [e])
    {
      hide ObjectPool.Valid, ObjectPool.View, BufferPool.Valid, BufferPool.View;
      ok := RunQueue(i).Push(e);
    }

    /** `false` stands for the panic of `unwrap`. */
    method PushCurrent(e: Event) returns (ok: bool)
      requires Valid()
      modifies QueueParts(RunQueue(currentRunQueue))
      ensures Valid() && (ok <==> |old(View()).cur| < old(View()).QueueCapacity())
      ensures View() == if ok then old(View()).(cur := old(View()).cur + [e]) else old(View())
    {
      QueueSizes();
      hide View, ObjectPool.Valid, BufferPool.Valid, RingBuffer.Valid;
      ok := PushTo(currentRunQueue, e);
    }

    method PushNext(e: Event) returns (ok: bool)
      requires Valid()
      modifies QueueParts(RunQueue(1 - currentRunQueue))
      ensures Valid() && (ok <==> |old(View()).next| < old(View()).QueueCapacity())
      ensures View() == if ok then old(View()).(next := old(View()).next + [e]) else old(View())
    {
      QueueSizes();
      hide View, ObjectPool.Valid, BufferPool.Valid, RingBuffer.Valid;
      ok := PushTo(NextRunQueueIdx(), e);
    }

    method PopCurrent() returns (r: Option<Event>)
      requires Valid()
      modifies QueueParts(RunQueue(currentRunQueue))
      ensures Valid()
      ensures r.None? <==> old(View()).cur == []
      ensures View() == if r.None? then old(View()) else old(View()).(cur := old(View()).cur[1..])
      ensures r.Some? ==> r.value == old(View()).cur[0]
    {
      hide ObjectPool.Valid, ObjectPool.View, BufferPool.Valid, BufferPool.View;
      r := RunQueue(currentRunQueue).Pop();
    }

    function NextRunQueueIdx(): (i: nat)
      requires currentRunQueue <= 1
      reads this
      ensures i <= 1 && i != currentRunQueue
    {
      1 - currentRunQueue
    }

    method SwitchRunQueue()
      requires Valid()
      modifies this`currentRunQueue
      ensures Valid()
      ensures View() == old(View()).(cur := old(View()).next, next := old(View()).cur)
    {
      hide ObjectPool.Valid, ObjectPool.View, BufferPool.Valid, BufferPool.View;
      currentRunQueue := 1 - currentRunQueue;
    }

    /** The request carries the packed handle, and its completion brings it back. */
    method Enqueue(handle: ObjectHandle, kind: OpKind)
      requires Valid() && Handed(View(), handle)
      modifies this`kernel
      ensures Valid() && View() == Submit(old(View()), Op(handle, kind))
    {
      hide ObjectPool.Valid, ObjectPool.View, BufferPool.Valid, BufferPool.View, Pack, Unpack;
      var userData := Pack(handle);
      HandedFits(handle);
      UnpackPack(handle);
      kernel := kernel.(inflight := kernel.inflight + [Op(Unpack(userData), kind)]);
    }

    method SpawnConn(fd: nat) returns (r: Option<ObjectHandle>)
      requires Valid()
      modifies PoolParts(conns)
      ensures Valid()
      ensures var (pool, id) := old(View()).conns.Spawn(NewConn(fd));
        && View() == old(View()).(conns := pool)
        && r == if id.None? then None else Some(ObjectHandle(CONN_HANDLER, id.value))
    {
      hide ObjectPool.Valid, ObjectPool.View, BufferPool.Valid, BufferPool.View, Pool.Spawn;
      r := conns.Spawn(NewConn(fd));
    }

    /** The outcome of the model is the outcome here. */
    ghost predicate Ends(outcome: Outcome<Exec>, panic: Option<Panic>)
      reads Footprint()
    {
      match outcome
      case Panicked(reason) => panic == Some(reason)
      case Ok(s) => panic.None? && Valid() && View() == s
    }

    method DropListener(handle: ObjectHandle) returns (r: Outcome<bool>)
      requires Valid() && (View().listeners.gen.IsValid(handle.id) ==> View().listeners.gen.Live(handle.id))
      modifies PoolParts(listeners)
      ensures r == old(View()).listeners.Despawn(handle.id).1
      ensures r.Ok? ==> Valid() && View() == old(View()).(listeners := old(View()).listeners.Despawn(handle.id).0)
    {
      hide ObjectPool.Valid, ObjectPool.View, BufferPool.Valid, BufferPool.View, RingBuffer.Valid, Pool.Despawn;
      r := DespawnFrom(listeners, handle);
    }

    method DropConn(handle: ObjectHandle) returns (r: Outcome<bool>)
      requires Valid() && (View().conns.gen.IsValid(handle.id) ==> View().conns.gen.Live(handle.id))
      modifies PoolParts(conns)
      ensures r == old(View()).conns.Despawn(handle.id).1
      ensures r.Ok? ==> Valid() && View() == old(View()).(conns := old(View()).conns.Despawn(handle.id).0)
    {
      hide ObjectPool.Valid, ObjectPool.View, BufferPool.Valid, BufferPool.View, RingBuffer.Valid, Pool.Despawn;
      r := DespawnFrom(conns, handle);
    }

    method DespawnMachine(handle: ObjectHandle) returns (panic: Option<Panic>)
      requires Valid() && Handed(View(), handle)
      modifies PoolParts(listeners), PoolParts(conns)
      ensures Ends(Complete(old(View()), Terminate, handle), panic)
    {
      hide ObjectPool.Valid, ObjectPool.View, BufferPool.Valid, BufferPool.View, Valid, View;
      var r;
      if handle.poolId == TCP_SERVER { r := DropListener(handle); } else { r := DropConn(handle); }
      panic := if r.Ok? then None else Some(r.reason);
    }

    method GetBuffer(buffer: GenId) returns (r: Option<seq<byte>>)
      requires Valid()
      ensures Valid() && View() == old(View())
      ensures r == View().bufs.Get(buffer) && (r.Some? <==> View().bufs.gen.IsValid(buffer))
    {
      r := ioBufs.Get(buffer);
    }

    method AcceptConn(fd: nat) returns (panic: Option<Panic>)
      requires Valid()
      modifies PoolParts(conns), QueueParts(RunQueue(currentRunQueue))
      ensures Ends(SpawnHandler(old(View()), fd), panic)
    {
      hide ObjectPool.Valid, ObjectPool.View, BufferPool.Valid, BufferPool.View, Valid, View;
      var spawned := SpawnConn(fd);
      if spawned.None? { return Some(HandlerPoolFull); }
      var ok := PushCurrent(SpawnEvent(spawned.value));
      panic := if ok then None else Some(SpawnQueueFull);
    }

    method SubmitRead(fd: nat, buffer: GenId, offset: nat, handle: ObjectHandle) returns (panic: Option<Panic>)
      requires Valid() && Handed(View(), handle)
      modifies this`kernel
      ensures Ends(Complete(old(View()), SubmitRecv(fd, buffer, offset), handle), panic)
    {
      hide ObjectPool.Valid, ObjectPool.View, BufferPool.Valid, BufferPool.View, Valid, View;
      if offset >= BUF_SIZE { return Some(BufferFull); }
      var bytes := GetBuffer(buffer);
      if bytes.None? { return Some(StaleBuffer); }
      Enqueue(handle, OpKind.Recv(fd, buffer, offset, BUF_SIZE - offset));
      panic := None;
    }

    method CompleteOne(intent: MachineIntent, handle: ObjectHandle) returns (panic: Option<Panic>)
      requires Valid() && Handed(View(), handle)
      modifies Footprint() - {this, intents}, this`kernel
      ensures Ends(Complete(old(View()), intent, handle), panic)
    {
      hide ObjectPool.Valid, ObjectPool.View, BufferPool.Valid, BufferPool.View, Valid, View;
      panic := None;
      match intent {
        case Retry =>
          var ok := PushNext(SpawnEvent(handle));
          if !ok { panic := Some(RetryQueueFull); }
        case SubmitMultishotAccept(fd) =>
          Enqueue(handle, Accept(fd));
        case SpawnConnHandler(fd) =>
          panic := AcceptConn(fd);
        case SubmitRecv(fd, buffer, offset) =>
          panic := SubmitRead(fd, buffer, offset, handle);
        case Terminate =>
          panic := DespawnMachine(handle);
        case CloseFixed(fd) =>
          Enqueue(handle, OpKind.Close(fd));
      }
    }

    /** Carries out the first `n` intents in order. */
    method CompleteIntent(n: nat, handle: ObjectHandle) returns (panic: Option<Panic>)
      requires Valid() && Handed(View(), handle) && n <= intents.Length
      modifies Footprint() - {this, intents}, this`kernel
      ensures Ends(CompleteAll(old(View()), intents[..n], handle), panic)
    {
      hide ObjectPool.Valid, ObjectPool.View, BufferPool.Valid, BufferPool.View, Complete, View;
      ghost var list := intents[..n];
      for i := 0 to n
        invariant Valid() && Handed(View(), handle)
        invariant CompleteAll(old(View()), list, handle) == CompleteAll(View(), list[i..], handle)
      {
        assert list[i..][0] == intents[i] && list[i..][1..] == list[i + 1..];
        TablesWf();
        StillHanded(View(), intents[i], handle);
        panic := CompleteOne(intents[i], handle);
        if panic.Some? { return; }
      }
      panic := None;
    }

    lemma TablesWf()
      requires Valid()
      ensures View().listeners.gen.Wf() && View().conns.gen.Wf() && View().bufs.Wf()
    {
    }

    // ---------- One event ----------

    /** A handler works on the intents and the buffers only. */
    method RunHandler(c: Conn, event: MachineEvent) returns (after: Conn, n: nat, panic: Option<Panic>)
      requires Valid()
      requires c.buf.Some? && View().bufs.gen.IsValid(c.buf.value) ==> View().bufs.gen.Live(c.buf.value)
      modifies {intents} + BufferParts(ioBufs)
      ensures match ProcessConn(c, old(View()).bufs, event)
        case Panicked(reason) => panic == Some(reason)
        case Ok(out) =>
          && panic.None? && Valid() && View() == old(View()).(bufs := out.bufs)
          && after == out.conn && n <= intents.Length && intents[..n] == out.intents
    {
      hide ObjectPool.Valid, ObjectPool.View, BufferPool.Valid, BufferPool.View, ProcessConn;
      BufferFootprint(ioBufs);
      after, n, panic := BorrowHandler(intents, ioBufs, c, event);
    }

    method RunListener(t: TcpServer, event: MachineEvent, listen: ListenResult)
      returns (after: TcpServer, n: nat, panic: Option<Panic>)
      requires Valid()
      modifies intents
      ensures match ProcessTcp(t, event, listen)
        case Panicked(reason) => panic == Some(reason)
        case Ok(out) =>
          && panic.None? && Valid() && View() == old(View())
          && after == out.server && n <= intents.Length && intents[..n] == out.intents
    {
      hide ObjectPool.Valid, ObjectPool.View, BufferPool.Valid, BufferPool.View, ProcessTcp;
      BufferFootprint(ioBufs);
      after, n, panic := BorrowListener(intents, ioBufs, t, event, listen);
    }

    method GetConn(handle: ObjectHandle) returns (r: Option<Conn>)
      requires Valid()
      ensures Valid() && View() == old(View()) && r == View().conns.Get(handle.id)
    {
      r := conns.Get(handle);
    }

    method GetListener(handle: ObjectHandle) returns (r: Option<TcpServer>)
      requires Valid()
      ensures Valid() && View() == old(View()) && r == View().listeners.Get(handle.id)
    {
      r := listeners.Get(handle);
    }

    method UpdateConn(handle: ObjectHandle, c: Conn)
      requires Valid() && View().conns.Get(handle.id).Some?
      modifies PoolParts(conns)
      ensures Valid() && View() == old(View()).(conns := old(View()).conns.Put(handle.id, c))
    {
      hide ObjectPool.Valid, BufferPool.Valid, BufferPool.View, GenAlloc.Valid, GenAlloc.View, RingBuffer.Contents;
      conns.Update(handle, c);
    }

    method UpdateListener(handle: ObjectHandle, t: TcpServer)
      requires Valid() && View().listeners.Get(handle.id).Some?
      modifies PoolParts(listeners)
      ensures Valid() && View() == old(View()).(listeners := old(View()).listeners.Put(handle.id, t))
    {
      hide ObjectPool.Valid, BufferPool.Valid, BufferPool.View, GenAlloc.Valid, GenAlloc.View, RingBuffer.Contents;
      listeners.Update(handle, t);
    }

    /** The listener's arm of the drain loop. */
    method DispatchListener(handle: ObjectHandle, reason: MachineEvent, listen: ListenResult)
      returns (panic: Option<Panic>)
      requires Valid() && handle.poolId == TCP_SERVER
      requires View().listeners.Get(handle.id).Some? ==> Handed(View(), handle)
      modifies Footprint() - {this}, this`kernel
      ensures Ends(match old(View()).listeners.Get(handle.id)
                   case None => Ok(old(View()))
                   case Some(t) => (
                     match ProcessTcp(t, reason, listen)
                     case Panicked(why) => Panicked(why)
                     case Ok(out) =>
                       CompleteAll(old(View()).(listeners := old(View()).listeners.Put(handle.id, out.server)),
                                   out.intents, handle)),
                   panic)
    {
      hide ObjectPool.Valid, ObjectPool.View, BufferPool.Valid, BufferPool.View, RingBuffer.Valid, Valid, View;
      hide CompleteAll, ProcessTcp, Apart, KeepsOwnBuffer;
      panic := None;
      var listener := GetListener(handle);
      if listener.Some? {
        var after, n;
        after, n, panic := RunListener(listener.value, reason, listen);
        if panic.Some? { return; }
        UpdateListener(handle, after);
        assert Handed(View(), handle);
        panic := CompleteIntent(n, handle);
      }
    }

    /** The part of it before the intents are carried out. */
    method HandlerWorks(handle: ObjectHandle, c: Conn, reason: MachineEvent) returns (n: nat, panic: Option<Panic>)
      requires Valid() && View().conns.Get(handle.id) == Some(c) && KeepsOwnBuffer(View(), handle.id)
      modifies {intents} + BufferParts(ioBufs) + PoolParts(conns)
      ensures match ProcessConn(c, old(View()).bufs, reason)
        case Panicked(why) => panic == Some(why)
        case Ok(out) =>
          && panic.None? && Valid() && n <= intents.Length && intents[..n] == out.intents
          && View() == old(View()).(conns := old(View()).conns.Put(handle.id, out.conn), bufs := out.bufs)
    {
      hide ObjectPool.Valid, ObjectPool.View, BufferPool.Valid, BufferPool.View, RingBuffer.Valid, View;
      hide ProcessConn, Apart;
      var after;
      after, n, panic := RunHandler(c, reason);
      if panic.None? { UpdateConn(handle, after); }
    }

    /** The connection handlers' arm. */
    method DispatchHandler(handle: ObjectHandle, reason: MachineEvent) returns (panic: Option<Panic>)
      requires Valid() && handle.poolId == CONN_HANDLER
      requires View().conns.Get(handle.id).Some? ==> Handed(View(), handle) && KeepsOwnBuffer(View(), handle.id)
      modifies Footprint() - {this}, this`kernel
      ensures Ends(match old(View()).conns.Get(handle.id)
                   case None => Ok(old(View()))
                   case Some(c) => (
                     match ProcessConn(c, old(View()).bufs, reason)
                     case Panicked(why) => Panicked(why)
                     case Ok(out) =>
                       CompleteAll(old(View()).(conns := old(View()).conns.Put(handle.id, out.conn), bufs := out.bufs),
                                   out.intents, handle)),
                   panic)
    {
      hide ObjectPool.Valid, ObjectPool.View, BufferPool.Valid, BufferPool.View, RingBuffer.Valid, Valid, View;
      hide CompleteAll, ProcessConn, KeepsOwnBuffer, Apart;
      panic := None;
      var handler := GetConn(handle);
      if handler.Some? {
        var n;
        n, panic := HandlerWorks(handle, handler.value, reason);
        if panic.None? { panic := CompleteIntent(n, handle); }
      }
    }

    /** The body of the drain loop; `more` is whether there was an event. */
    method DispatchNext(listen: ListenResult) returns (more: bool, panic: Option<Panic>)
      requires Valid() && Inv(View())
      modifies Footprint() - {this}, this`kernel
      ensures more <==> old(View()).cur != []
      ensures !more ==> panic.None? && Valid() && View() == old(View())
      ensures more ==> Ends(DispatchEvent(old(View()), listen), panic)
    {
      hide ObjectPool.Valid, ObjectPool.View, BufferPool.Valid, BufferPool.View, RingBuffer.Valid, Valid, View;
      hide CompleteAll, ProcessConn, ProcessTcp, Inv, KeepsOwnBuffer;
      var event := PopCurrent();
      if event.None? { return false, None; }
      more := true;
      var Event(reason, handle, _) := event.value;
      HandedOut(old(View()), handle);
      if handle.poolId == TCP_SERVER {
        panic := DispatchListener(handle, reason, listen);
      } else if handle.poolId == CONN_HANDLER {
        panic := DispatchHandler(handle, reason);
      } else {
        panic := Some(Unreachable);
      }
    }

    // ---------- The kernel ----------

    /** Whether the kernel may answer like this now. */
    predicate CanPost(a: Completion)
      requires ioBufs.count > 0
      reads this
    {
      && a.i < |kernel.inflight|
      && match kernel.inflight[a.i].kind
         case Accept(_) => a.res >= 0 ==> a.res < conns.data.Length && a.res !in kernel.open
         case Recv(_, b, offset, len) =>
           && -0x1000 < a.res <= len && |a.fill| == len
           && b.index < ioBufs.count && offset + len <= BUF_SIZE
         case Close(_) => -0x1000 < a.res <= 0
    }

    lemma PostIsAllowed(a: Completion)
      requires Valid()
      ensures ioBufs.count > 0
      ensures CanPost(a) <==> Answers(View(), a.i, a.res, a.flags, a.fill)
    {
    }

    method SetKernel(k: Kernel)
      requires Valid()
      modifies this`kernel
      ensures Valid() && View() == old(View()).(k := k) && kernel == k
    {
      hide ObjectPool.Valid, ObjectPool.View, BufferPool.Valid, BufferPool.View, RingBuffer.Valid;
      kernel := k;
    }

    method FillBuffer(index: nat, offset: nat, fill: seq<byte>)
      requires Valid() && index < |View().bufs.mem| && offset + |fill| <= |View().bufs.mem[index]|
      modifies ioBufs.bytes
      ensures Valid()
      ensures var m := old(View()).bufs.mem[index];
        View() == old(View()).(bufs := old(View()).bufs.(mem :=
                    old(View()).bufs.mem[index := m[..offset] + fill + m[offset + |fill|..]]))
    {
      BufferShape();
      hide ObjectPool.Valid, ObjectPool.View, BufferPool.Valid, BufferPool.View, RingBuffer.Valid;
      ioBufs.Receive(index, offset, fill);
    }

    lemma BufferShape()
      requires Valid()
      ensures ioBufs.Valid() && View().bufs == ioBufs.View()
      ensures |View().bufs.mem| == ioBufs.count
      ensures forall i :: 0 <= i < ioBufs.count ==> |View().bufs.mem[i]| == BUF_SIZE
    {
    }

    lemma KernelIsShown()
      requires Valid()
      ensures View().k == kernel
    {
    }

    method Post(a: Completion)
      requires Valid() && Answers(View(), a.i, a.res, a.flags, a.fill)
      modifies this`kernel, ioBufs.bytes
      ensures Valid() && View() == PostCompletion(old(View()), a.i, a.res, a.flags, a.fill)
    {
      hide Valid, View;
      KernelIsShown();
      var Completion(i, res, flags, fill) := a;
      var op := kernel.inflight[i];
      var rest := kernel.inflight[..i] + kernel.inflight[i + 1..];
      var cq := kernel.cq + [Event(IoCompleted(res, flags), op.handle, Some(op.kind))];
      match op.kind {
        case Accept(_) =>
          var open := if res >= 0 then kernel.open + {res} else kernel.open;
          var armed := res >= 0 && More(flags);
          SetKernel(kernel.(inflight := if armed then kernel.inflight else rest, cq := cq, open := open));
        case Recv(_, b, offset, len) =>
          var got := if res > 0 then fill[..res] else [];
          var stream := kernel.stream[op.handle.id := kernel.Received(op.handle.id) + got];
          FillBuffer(b.index, offset, fill);
          SetKernel(kernel.(inflight := rest, cq := cq, stream := stream));
        case Close(fd) =>
          SetKernel(kernel.(inflight := rest, cq := cq, open := if res == 0 then kernel.open - {fd} else kernel.open));
      }
    }

    /** The body of the collecting loop. */
    method CollectNext() returns (more: bool, panic: Option<Panic>)
      requires Valid()
      modifies Footprint() - {this}, this`kernel
      ensures more <==> old(View()).k.cq != []
      ensures !more ==> panic.None? && Valid() && View() == old(View())
      ensures more ==> Ends(CollectCompletion(old(View())), panic)
    {
      hide ObjectPool.Valid, ObjectPool.View, BufferPool.Valid, BufferPool.View, RingBuffer.Valid;
      if kernel.cq == [] { return false, None; }
      var cqe := kernel.cq[0];
      kernel := kernel.(cq := kernel.cq[1..]);
      var ok := PushNext(cqe);
      return true, if ok then None else Some(CompletionQueueFull);
    }

    // ---------- The loop ----------

    method SpawnListener(t: TcpServer) returns (r: Option<ObjectHandle>)
      requires Valid()
      modifies PoolParts(listeners)
      ensures Valid()
      ensures var (pool, id) := old(View()).listeners.Spawn(t);
        && View() == old(View()).(listeners := pool)
        && r == if id.None? then None else Some(ObjectHandle(TCP_SERVER, id.value))
    {
      hide ObjectPool.Valid, ObjectPool.View, BufferPool.Valid, BufferPool.View, Pool.Spawn;
      r := listeners.Spawn(t);
    }

    /** The direct descriptor table gets one entry for each unit of the handler pool's capacity. */
    method Setup() returns (files: nat)
      requires Valid()
      ensures Valid() && View() == old(View()) && files == View().files
    {
      files := conns.Capacity();
    }

    /** Neither `unwrap` can fail: the pool and the queue are empty. */
    method SeedRunQueue(ghost c: Config)
      requires Valid() && c.Valid() && View() == Blank(c)
      modifies PoolParts(listeners), QueueParts(RunQueue(currentRunQueue))
      ensures Valid() && View() == c.Begin()
    {
      hide ObjectPool.Valid, ObjectPool.View, BufferPool.Valid, BufferPool.View, RingBuffer.Valid, Valid, View;
      hide PoolSlots;
      AllocFresh(GenAllocSpec.New(c.ListenerSlots()));
      var handle := SpawnListener(NEW_SERVER);
      var ok := PushCurrent(SpawnEvent(handle.value));
    }

    /** The kernel gives these answers, except those it may not give. */
    method KernelTurn(answers: seq<Completion>)
      requires Valid()
      modifies this`kernel, ioBufs.bytes
      ensures Valid() && View() == Answered(old(View()), answers)
    {
      hide ObjectPool.Valid, ObjectPool.View, BufferPool.Valid, BufferPool.View, RingBuffer.Valid, Valid, View;
      hide Answers, PostCompletion;
      for n := 0 to |answers|
        invariant Valid() && Answered(View(), answers[n..]) == Answered(old(View()), answers)
      {
        assert answers[n..][0] == answers[n] && answers[n..][1..] == answers[n + 1..];
        PostIsAllowed(answers[n]);
        if CanPost(answers[n]) { Post(answers[n]); }
      }
      assert answers[|answers|..] == [];
    }

    /** Handles events until the current queue is empty. */
    method DrainCurrent(listen: ListenResult, turns: Turns) returns (left: Turns, panic: Option<Panic>)
      requires Valid() && Inv(View())
      modifies Footprint() - {this}, this`kernel
      ensures var r := DrainAll(old(View()), listen, turns);
        left == r.left && panic == r.panic && (panic.None? ==> Valid() && View() == r.s)
    {
      hide ObjectPool.Valid, ObjectPool.View, BufferPool.Valid, BufferPool.View, RingBuffer.Valid, Valid, View;
      hide Inv, Answered, Posts, DispatchEvent, DrainMeasure;
      left := turns;
      while true
        invariant Valid() && Inv(View())
        invariant DrainAll(old(View()), listen, turns).Ends(DrainAll(View(), listen, left))
        decreases DrainMeasure(View().cur)
      {
        var answers := Now(left);
        left := Later(left);
        AnsweredInv(View(), answers);
        KernelTurn(answers);
        ghost var was := View();
        var more;
        more, panic := DispatchNext(listen);
        if !more || panic.Some? { return; }
        DispatchInv(was, listen);
        DrainTerminates(was, listen);
      }
    }

    /** Moves completions to the next queue until none is left. */
    method CollectCompletions(turns: Turns) returns (left: Turns, panic: Option<Panic>)
      requires Valid() && Inv(View()) && View().cur == []
      modifies Footprint() - {this}, this`kernel
      ensures var r := CollectAll(old(View()), turns);
        left == r.left && panic == r.panic && (panic.None? ==> Valid() && View() == r.s)
    {
      hide ObjectPool.Valid, ObjectPool.View, BufferPool.Valid, BufferPool.View, RingBuffer.Valid, Valid, View;
      hide Inv, Answered, Posts;
      left := turns;
      while true
        invariant Valid() && Inv(View()) && View().cur == []
        invariant CollectAll(old(View()), turns).Ends(CollectAll(View(), left))
        decreases |left|, |View().k.cq|
      {
        var answers := Now(left);
        AnsweredInv(View(), answers);
        if left == [] { assert Answered(View(), answers) == View() by { NoAnswer(View()); } }
        left := Later(left);
        KernelTurn(answers);
        ghost var was := View();
        var more;
        more, panic := CollectNext();
        if !more || panic.Some? { return; }
        StepInv(was, Collect);
      }
    }

    /** The whole run. What it does and when it stops is `LoopStops`. */
    method Run(ghost c: Config, listen: ListenResult, turns: Turns) returns (panic: Option<Panic>)
      requires Valid() && c.Valid() && View() == Blank(c)
      modifies Footprint()
      ensures Inv(c.Begin())
      ensures var r := Loop(c.Begin(), listen, turns);
        panic == r.panic && (panic.None? ==> Valid() && View() == r.s)
    {
      hide ObjectPool.Valid, ObjectPool.View, BufferPool.Valid, BufferPool.View, RingBuffer.Valid, Valid, View;
      hide Inv, Answered, Posts, Blank, Start;
      var _ := Setup();
      SeedRunQueue(c);
      LoopStops(c, listen, turns);
      var left := turns;
      while true
        invariant Valid() && Inv(View())
        invariant Loop(c.Begin(), listen, turns).Ends(Loop(View(), listen, left))
        decreases |left|
      {
        left, panic := DrainCurrent(listen, left);
        if panic.Some? || left == [] { return; }
        AnsweredInv(View(), left[0]);
        KernelTurn(left[0]);
        left, panic := CollectCompletions(left[1..]);
        if panic.Some? { return; }
        StepInv(View(), Switch);
        SwitchRunQueue();
      }
    }
  }
}
