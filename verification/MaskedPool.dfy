/** When a single-flight run can find the handler pool full: exactly when its capacity is over 24 bits. */
module MaskedPool {
  import opened Wrappers
  import opened GenAllocSpec
  import opened ObjectHandles
  import opened Protocol
  import opened MachineSpecs
  import opened PoolSpec
  import opened Sequences
  import opened ExecutorModel
  import opened ExecutorInvariant
  import opened ExecutorSteps
  import opened ExecutorRuns
  import opened SingleFlightRuns
  import opened Overflow

  /** The run reaches an event whose dispatch finds no slot for an accepted connection. */
  ghost predicate FindsNoSlot(c: Config, steps: seq<Step>, s: Exec, listen: ListenResult) {
    ReachedSingly(c, steps, s) && s.cur != [] && DispatchEvent(s, listen) == Panicked(HandlerPoolFull)
  }

  /** An accepted descriptor; the request stays armed. */
  function AcceptOf(h: ObjectHandle, fd: nat): Event { Event(IoCompleted(fd, 2), h, Some(Accept(3))) }

  function Accepts(h: ObjectHandle, n: nat): seq<Event> { seq(n, fd requires 0 <= fd => AcceptOf(h, fd)) }

  /** The listener accepts, and so far `posted` connections have come in, of which `collected` are queued. */
  function Flooded(s: Exec, h: ObjectHandle, posted: nat, collected: nat): Exec
    requires collected <= posted
  {
    s.(next := Accepts(h, collected),
       k := Kernel([Op(h, Accept(3))], Accepts(h, posted)[collected..], Below(posted), map[]))
  }

  ghost predicate Armed(c: Config, steps: seq<Step>, s: Exec) {
    && ReachedSingly(c, steps, s) && Sized(c, s) && Server(s).state.Accepting?
    && s.cur == [] && s == Flooded(s, ObjectHandle(TCP_SERVER, s.ListenerId()), 0, 0) && s.conns == EmptyPool(c.Slots())
  }

  lemma Arm(c: Config) returns (steps: seq<Step>, s: Exec)
    requires c.Valid()
    ensures Armed(c, steps, s)
  {
    var s0 := c.Begin();
    assert ReachedSingly(c, [], s0);
    ReachedInv(c, [], s0);
    ListenerSpawnDispatch(s0, Listening(3));
    Extend(c, [], s0, Dispatch(Listening(3)));
    steps := [] + [Dispatch(Listening(3))];
    s := DispatchEvent(s0, Listening(3)).value;
    assert Below(0) == {};
  }

  lemma ExtendSingly(c: Config, steps: seq<Step>, s: Exec, step: Step)
    requires ReachedSingly(c, steps, s) && Enabled(s, step) && Apply(s, step).Ok? && SingleFlightStep(s, step)
    ensures ReachedSingly(c, steps + [step], Apply(s, step).value)
  {
    hide Apply, Run, SingleFlight;
    Extend(c, steps, s, step);
  }

  lemma PostOne(s0: Exec, h: ObjectHandle, fd: nat)
    requires fd < s0.files
    ensures var s, post := Flooded(s0, h, fd, 0), Post(0, fd, 2, []);
      Enabled(s, post) && SingleFlightStep(s, post) && Apply(s, post) == Ok(Flooded(s0, h, fd + 1, 0))
  {
    assert Accepts(h, fd + 1)[0..] == Accepts(h, fd)[0..] + [AcceptOf(h, fd)];
    assert Below(fd + 1) == Below(fd) + {fd};
  }

  lemma {:induction false} PostAll(c: Config, steps0: seq<Step>, s0: Exec, n: nat) returns (steps: seq<Step>)
    requires Armed(c, steps0, s0) && n <= c.handlers
    ensures ReachedSingly(c, steps, Flooded(s0, ObjectHandle(TCP_SERVER, s0.ListenerId()), n, 0))
  {
    if n == 0 {
      steps := steps0;
    } else {
      steps := PostAll(c, steps0, s0, n - 1);
      hide ReachedSingly, Flooded, Apply, Enabled;
      var h := ObjectHandle(TCP_SERVER, s0.ListenerId());
      PostOne(s0, h, n - 1);
      ExtendSingly(c, steps, Flooded(s0, h, n - 1, 0), Post(0, n - 1, 2, []));
      steps := steps + [Post(0, n - 1, 2, [])];
    }
  }

  lemma {:induction false} CollectMany(c: Config, steps0: seq<Step>, s0: Exec, n: nat, m: nat)
    returns (steps: seq<Step>)
    requires Armed(c, steps0, s0) && m <= n <= c.handlers
    ensures ReachedSingly(c, steps, Flooded(s0, ObjectHandle(TCP_SERVER, s0.ListenerId()), n, m))
    decreases m
  {
    var h := ObjectHandle(TCP_SERVER, s0.ListenerId());
    if m == 0 {
      steps := PostAll(c, steps0, s0, n);
    } else {
      steps := CollectMany(c, steps0, s0, n, m - 1);
      hide Run, SingleFlight;
      var s := Flooded(s0, h, n, m - 1);
      Extend(c, steps, s, Collect);
      assert Accepts(h, m) == Accepts(h, m - 1) + [Accepts(h, n)[m - 1]];
      assert Accepts(h, n)[m - 1..][1..] == Accepts(h, n)[m..];
      assert Apply(s, Collect).value == Flooded(s0, h, n, m);
      steps := steps + [Collect];
    }
  }

  /** `d` of the `n` connections have their handler; the other accepts come first in the current queue. */
  ghost predicate Served(c: Config, steps: seq<Step>, s: Exec, n: nat, d: nat) {
    && ReachedSingly(c, steps, s) && Inv(s) && Sized(c, s) && Server(s).state.Accepting?
    && d <= n && n - d <= |s.cur| && s.cur[..n - d] == Accepts(ObjectHandle(TCP_SERVER, s.ListenerId()), n)[d..]
    && |s.conns.objects| == d
  }

  lemma {:induction false} ServeMany(c: Config, steps0: seq<Step>, s0: Exec, n: nat, d: nat)
    returns (steps: seq<Step>, s: Exec)
    requires Armed(c, steps0, s0) && d <= c.Slots() && d <= n <= c.handlers
    ensures Served(c, steps, s, n, d)
    decreases d
  {
    if d == 0 {
      steps := CollectMany(c, steps0, s0, n, n);
      s := Switched(c, steps, s0, n);
      steps := steps + [Switch];
    } else {
      steps, s := ServeMany(c, steps0, s0, n, d - 1);
      steps, s := ServeOne(c, steps, s, n, d - 1);
    }
  }

  lemma Switched(c: Config, steps: seq<Step>, s0: Exec, n: nat) returns (s: Exec)
    requires Sized(c, s0) && Server(s0).state.Accepting? && s0.conns == EmptyPool(c.Slots()) && s0.cur == []
    requires ReachedSingly(c, steps, Flooded(s0, ObjectHandle(TCP_SERVER, s0.ListenerId()), n, n))
    ensures Served(c, steps + [Switch], s, n, 0)
  {
    hide Run, SingleFlight;
    var h := ObjectHandle(TCP_SERVER, s0.ListenerId());
    var was := Flooded(s0, h, n, n);
    Extend(c, steps, was, Switch);
    s := Apply(was, Switch).value;
    ReachedInv(c, steps + [Switch], s);
    assert s.cur[..n] == Accepts(h, n)[0..];
  }

  /** The accepted connection fills a slot, and its handler's spawn is queued behind. */
  lemma SlotFilled(s: Exec, fd: nat)
    requires Inv(s) && ForListener(s) && s.cur[0].reason == IoCompleted(fd, 2) && |s.conns.objects| < s.N()
    requires Server(s).state.Accepting?
    ensures var r := DispatchEvent(s, Listening(3));
      && r.Ok? && r.value.listeners == s.listeners && |r.value.conns.objects| == |s.conns.objects| + 1
      && s.cur[1..] <= r.value.cur
  {
    hide QuietStart, Addressed, Handlers, OneSpawn, Buffers, DispatchEvent;
    PoolBound(s.conns);
    AllocFresh(s.conns.gen);
    ListenerIoDispatch(s, Listening(3));
    hide Inv, Tables;
    var id := s.conns.gen.Alloc().1.value;
    var s' := SpawnHandler(Dropped(s), fd).value;
    assert s'.conns.objects.Keys == s.conns.objects.Keys + {id};
    assert |s'.conns.objects.Keys| == |s.conns.objects.Keys| + 1;
  }

  lemma ServeOne(c: Config, steps: seq<Step>, s: Exec, n: nat, d: nat) returns (steps': seq<Step>, s': Exec)
    requires Served(c, steps, s, n, d) && d < n && d < c.Slots()
    ensures Served(c, steps', s', n, d + 1)
  {
    hide Tables, QuietStart, Addressed, Handlers, OneSpawn, Buffers, Run, SingleFlight, DispatchEvent;
    var h := ObjectHandle(TCP_SERVER, s.ListenerId());
    assert s.cur[0] == s.cur[..n - d][0] == AcceptOf(h, d);
    SlotFilled(s, d);
    s' := DispatchEvent(s, Listening(3)).value;
    Extend(c, steps, s, Dispatch(Listening(3)));
    steps' := steps + [Dispatch(Listening(3))];
    ReachedInv(c, steps', s');
    assert s'.cur[..n - d - 1] == s.cur[..n - d][1..];
    assert Accepts(h, n)[d..][1..] == Accepts(h, n)[d + 1..];
  }

  /** With more descriptors than slots a run that only accepts overflows the pool. */
  lemma MaskedPoolOverflows(c: Config) returns (steps: seq<Step>, s: Exec)
    requires c.Valid() && POOL_MASK < c.handlers
    ensures FindsNoSlot(c, steps, s, Listening(3))
  {
    var n := c.Slots() + 1;
    var steps0, s0 := Arm(c);
    steps, s := ServeMany(c, steps0, s0, n, n - 1);
    hide QuietStart, Addressed, Handlers, OneSpawn, Buffers, Run, SingleFlight, DispatchEvent;
    var h := ObjectHandle(TCP_SERVER, s.ListenerId());
    assert s.cur[0] == s.cur[..1][0] == AcceptOf(h, n - 1);
    PoolBound(s.conns);
    ListenerIoDispatch(s, Listening(3));
  }

  /** A single-flight run that finds the pool full exists exactly when the pool was masked. */
  lemma PoolOverflowsIff(c: Config)
    requires c.Valid()
    ensures (exists steps, s, listen :: FindsNoSlot(c, steps, s, listen)) <==> 0x100_0000 <= c.handlers
  {
    if POOL_MASK < c.handlers { var steps, s := MaskedPoolOverflows(c); }
    forall steps, s, listen | FindsNoSlot(c, steps, s, listen) ensures POOL_MASK < c.handlers {
      AcceptFindsASlot(c, steps, s);
    }
  }
}
