/** How many queued events and submitted requests concern a given machine. */
module EventCounts {
  import opened GenAllocSpec
  import opened ObjectHandles
  import opened ExecutorModel

  /** 1 when the event concerns `h` and is a `Spawn` or an I/O completion as `spawn` says. */
  function Hits(e: Event, h: ObjectHandle, spawn: bool): nat {
    if e.handle == h && e.reason.Spawn? == spawn then 1 else 0
  }

  function Count(q: seq<Event>, h: ObjectHandle, spawn: bool): nat {
    if q == [] then 0 else Hits(q[0], h, spawn) + Count(q[1..], h, spawn)
  }

  function CountOps(ops: seq<Op>, h: ObjectHandle): nat {
    if ops == [] then 0 else (if ops[0].handle == h then 1 else 0) + CountOps(ops[1..], h)
  }

  lemma {:induction false} CountAppend(q: seq<Event>, r: seq<Event>, h: ObjectHandle, spawn: bool)
    ensures Count(q + r, h, spawn) == Count(q, h, spawn) + Count(r, h, spawn)
  {
    if q == [] {
      assert q + r == r;
    } else {
      CountAppend(q[1..], r, h, spawn);
      assert (q + r)[1..] == q[1..] + r;
    }
  }

  lemma {:induction false} CountOpsAppend(q: seq<Op>, r: seq<Op>, h: ObjectHandle)
    ensures CountOps(q + r, h) == CountOps(q, h) + CountOps(r, h)
  {
    if q == [] {
      assert q + r == r;
    } else {
      CountOpsAppend(q[1..], r, h);
      assert (q + r)[1..] == q[1..] + r;
    }
  }

  lemma {:induction false} CountMember(q: seq<Event>, e: Event)
    requires e in q
    ensures Count(q, e.handle, e.reason.Spawn?) >= 1
  {
    if q[0] != e { CountMember(q[1..], e); }
  }

  lemma {:induction false} CountOpsMember(q: seq<Op>, op: Op)
    requires op in q
    ensures CountOps(q, op.handle) >= 1
  {
    if q[0] != op { CountOpsMember(q[1..], op); }
  }

  lemma {:induction false} CountNone(q: seq<Event>, h: ObjectHandle, spawn: bool)
    requires forall e :: e in q ==> e.handle != h
    ensures Count(q, h, spawn) == 0
  {
    if q != [] { CountNone(q[1..], h, spawn); }
  }

  lemma {:induction false} CountOpsNone(q: seq<Op>, h: ObjectHandle)
    requires forall op :: op in q ==> op.handle != h
    ensures CountOps(q, h) == 0
  {
    if q != [] { CountOpsNone(q[1..], h); }
  }

  /** Completing request `i` removes one of its machine's requests. */
  lemma CountOpsRemove(q: seq<Op>, i: nat, h: ObjectHandle)
    requires i < |q|
    ensures CountOps(q[..i] + q[i + 1..], h) == CountOps(q, h) - if q[i].handle == h then 1 else 0
  {
    assert q == q[..i] + ([q[i]] + q[i + 1..]);
    CountOpsAppend(q[..i], [q[i]] + q[i + 1..], h);
    CountOpsAppend(q[..i], q[i + 1..], h);
  }

  /** Every event not yet processed, in the order in which the loop will process it. */
  function Pending(s: Exec): seq<Event> { s.cur + s.next + s.k.cq }

  function ConnHandle(id: GenId): ObjectHandle { ObjectHandle(CONN_HANDLER, id) }

  function Spawns(s: Exec, id: GenId): nat { Count(Pending(s), ConnHandle(id), true) }

  /** I/O of a connection: requests in flight and completions queued. */
  function Ios(s: Exec, id: GenId): nat {
    Count(Pending(s), ConnHandle(id), false) + CountOps(s.k.inflight, ConnHandle(id))
  }

  /** Popping the head of the current queue and pushing onto the two queues. */
  lemma PendingAfter(s: Exec, s': Exec, newCur: seq<Event>, newNext: seq<Event>)
    requires s.cur != [] && s'.k.cq == s.k.cq
    requires s'.cur == s.cur[1..] + newCur && s'.next == s.next + newNext
    ensures forall h, spawn ::
              Count(Pending(s'), h, spawn) == Count(Pending(s), h, spawn) - Hits(s.cur[0], h, spawn)
                                              + Count(newCur, h, spawn) + Count(newNext, h, spawn)
    ensures forall e :: e in Pending(s') ==> e in Pending(s) || e in newCur || e in newNext
  {
    var e := s.cur[0];
    forall h, spawn
      ensures Count(Pending(s'), h, spawn)
        == Count(Pending(s), h, spawn) - Hits(e, h, spawn) + Count(newCur, h, spawn) + Count(newNext, h, spawn)
    {
      CountAppend(s'.cur + s'.next, s.k.cq, h, spawn);
      CountAppend(s'.cur, s'.next, h, spawn);
      CountAppend(s.cur[1..], newCur, h, spawn);
      CountAppend(s.next, newNext, h, spawn);
      CountAppend(s.cur + s.next, s.k.cq, h, spawn);
      CountAppend(s.cur, s.next, h, spawn);
    }
  }
}
