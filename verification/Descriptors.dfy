/** In single-flight runs no connection's descriptor is ever taken by the close of another. */
module Descriptors {
  import opened Wrappers
  import opened GenAllocSpec
  import opened Protocol
  import opened MachineSpecs
  import opened ExecutorModel
  import opened EventCounts
  import opened Weights
  import opened ExecutorInvariant
  import opened ExecutorSteps
  import opened ExecutorRuns
  import opened SingleFlightInvariant
  import opened SingleFlightSteps
  import opened SingleFlightRuns

  // ---------- Completions that move a descriptor ----------

  /** A connection came in on `e.reason.res`. */
  predicate CameIn(e: Event) { IsAccept(e) && e.reason.res >= 0 }

  /** A connection was closed. */
  predicate WentAway(e: Event) {
    && e.reason.IoCompleted? && e.reason.res == 0 && e.handle.poolId == CONN_HANDLER
    && e.origin.Some? && e.origin.value.Close?
  }

  function Marks(q: seq<Event>): seq<Event> {
    if q == [] then [] else (if CameIn(q[0]) || WentAway(q[0]) then [q[0]] else []) + Marks(q[1..])
  }

  lemma {:induction false} MarksAppend(q: seq<Event>, r: seq<Event>)
    ensures Marks(q + r) == Marks(q) + Marks(r)
  {
    if q == [] {
      assert q + r == r;
    } else {
      assert (q + r)[0] == q[0] && (q + r)[1..] == q[1..] + r;
      MarksAppend(q[1..], r);
    }
  }

  lemma {:induction false} MarksMember(q: seq<Event>, e: Event)
    ensures e in Marks(q) <==> e in q && (CameIn(e) || WentAway(e))
  {
    if q != [] { MarksMember(q[1..], e); }
  }

  lemma {:induction false} NoMarks(q: seq<Event>)
    requires forall e :: e in q ==> !CameIn(e) && !WentAway(e)
    ensures Marks(q) == []
  {
    if q != [] {
      assert q[0] in q;
      NoMarks(q[1..]);
    }
  }

  ghost predicate Closes(m: seq<Event>, id: GenId) {
    exists i :: 0 <= i < |m| && WentAway(m[i]) && m[i].handle.id == id
  }

  // ---------- Who owns a descriptor ----------

  /** Live handlers have different sockets, each open until its close has succeeded. A connection that came in
      and has no handler yet has an open descriptor of its own; a handler that still has it closed it before. */
  ghost predicate Owned(conns: map<GenId, Conn>, open: set<nat>, m: seq<Event>) {
    && (forall x, y :: x in conns && y in conns && x != y ==> conns[x].socket != conns[y].socket)
    && (forall id :: id in conns && !Closes(m, id) ==> conns[id].socket in open)
    && (forall i :: 0 <= i < |m| && CameIn(m[i]) ==> m[i].reason.res in open)
    && (forall i, id :: 0 <= i < |m| && CameIn(m[i]) && id in conns && conns[id].socket == m[i].reason.res ==>
          Closes(m[..i], id))
    && (forall i, j :: 0 <= i < j < |m| && CameIn(m[i]) && CameIn(m[j]) ==> m[i].reason.res != m[j].reason.res)
  }

  ghost predicate DescriptorsOwned(s: Exec) { Owned(s.conns.objects, s.k.open, Marks(Pending(s))) }

  lemma ClosesMore(m: seq<Event>, e: Event, id: GenId)
    ensures Closes(m + [e], id) <==> Closes(m, id) || (WentAway(e) && e.handle.id == id)
  {
    if Closes(m, id) {
      var i :| 0 <= i < |m| && WentAway(m[i]) && m[i].handle.id == id;
      assert (m + [e])[i] == m[i];
    }
    assert (m + [e])[|m|] == e;
  }

  /** The kernel accepts a connection on a descriptor that is not open. */
  lemma OwnedCameIn(conns: map<GenId, Conn>, open: set<nat>, m: seq<Event>, e: Event)
    requires Owned(conns, open, m) && CameIn(e) && e.reason.res !in open
    ensures Owned(conns, open + {e.reason.res}, m + [e])
  {
    var m' := m + [e];
    forall id ensures Closes(m', id) <==> Closes(m, id) { ClosesMore(m, e, id); }
    forall i | 0 <= i < |m'| ensures m'[..i] == m[..i] && (i < |m| ==> m'[i] == m[i]) {}
  }

  /** The kernel closes the descriptor of the one handler that asked for it. */
  lemma OwnedWentAway(conns: map<GenId, Conn>, open: set<nat>, m: seq<Event>, e: Event)
    requires Owned(conns, open, m) && WentAway(e) && e.handle.id in conns && !Closes(m, e.handle.id)
    requires e.origin == Some(OpKind.Close(conns[e.handle.id].socket))
    ensures Owned(conns, open - {conns[e.handle.id].socket}, m + [e])
  {
    var m' := m + [e];
    var fd := conns[e.handle.id].socket;
    forall id ensures Closes(m', id) <==> Closes(m, id) || id == e.handle.id { ClosesMore(m, e, id); }
    forall i | 0 <= i < |m'| ensures m'[..i] == m[..i] && (i < |m| ==> m'[i] == m[i]) {}
    forall i | 0 <= i < |m'| && CameIn(m'[i]) ensures m'[i].reason.res in open - {fd} {
      if m[i].reason.res == fd { ClosesPrefix(m, i, e.handle.id); }
    }
  }

  lemma ClosesPrefix(m: seq<Event>, i: nat, id: GenId)
    requires i <= |m| && Closes(m[..i], id)
    ensures Closes(m, id)
  {
    var k :| 0 <= k < i && WentAway(m[..i][k]) && m[..i][k].handle.id == id;
    assert m[k] == m[..i][k];
  }

  /** Handlers may only leave; a completion at the head is of the one that left, or of one that came. */
  ghost predicate Survive(conns: map<GenId, Conn>, conns': map<GenId, Conn>) {
    forall id :: id in conns' ==> id in conns && conns'[id].socket == conns[id].socket
  }

  lemma OwnedBySurvivors(conns: map<GenId, Conn>, conns': map<GenId, Conn>, open: set<nat>, m: seq<Event>)
    requires Owned(conns, open, m) && Survive(conns, conns')
    ensures Owned(conns', open, m)
  {
  }

  lemma ClosesTail(m: seq<Event>, id: GenId)
    requires m != [] && !(WentAway(m[0]) && m[0].handle.id == id)
    ensures Closes(m[1..], id) <==> Closes(m, id)
  {
    if Closes(m, id) {
      var i :| 0 <= i < |m| && WentAway(m[i]) && m[i].handle.id == id;
      assert m[1..][i - 1] == m[i];
    }
  }

  /** The first completion is processed: the handler it concerns has left, or is there with that descriptor. */
  lemma OwnedAfterHead(conns: map<GenId, Conn>, conns': map<GenId, Conn>, open: set<nat>, m: seq<Event>)
    requires m != [] && Owned(conns, open, m)
    requires if CameIn(m[0]) then
               forall id :: id in conns' ==>
                 if id in conns then conns'[id].socket == conns[id].socket else conns'[id].socket == m[0].reason.res
             else Survive(conns, conns') && (WentAway(m[0]) ==> m[0].handle.id !in conns')
    requires forall x, y :: x in conns' && x !in conns && y in conns' && y !in conns ==> x == y
    ensures Owned(conns', open, m[1..])
  {
    var m' := m[1..];
    forall id | id in conns' ensures Closes(m', id) <==> Closes(m, id) { ClosesTail(m, id); }
    forall i | 0 <= i < |m'| ensures m'[i] == m[i + 1] && m'[..i] == m[..i + 1][1..] {}
    if CameIn(m[0]) {
      forall id | id in conns ensures conns[id].socket != m[0].reason.res { assert !Closes(m[..0], id); }
    }
    forall i, id | 0 <= i < |m'| && CameIn(m'[i]) && id in conns' && conns'[id].socket == m'[i].reason.res
      ensures Closes(m'[..i], id)
    {
      if id in conns {
        assert Closes(m[..i + 1], id);
        ClosesTail(m[..i + 1], id);
      }
    }
  }

  // ---------- Steps ----------

  function Completed(s: Exec, i: nat, res: int, flags: nat): Event
    requires i < |s.k.inflight|
  {
    Event(IoCompleted(res, flags), s.k.inflight[i].handle, Some(s.k.inflight[i].kind))
  }

  lemma PostMarks(s: Exec, i: nat, res: int, flags: nat, fill: seq<byte>)
    requires Answers(s, i, res, flags, fill)
    ensures var e := Completed(s, i, res, flags);
      Marks(Pending(PostCompletion(s, i, res, flags, fill)))
        == Marks(Pending(s)) + if CameIn(e) || WentAway(e) then [e] else []
  {
    var e := Completed(s, i, res, flags);
    PostPending(s, i, res, flags, fill);
    MarksAppend(Pending(s), [e]);
    assert [e][1..] == [];
  }

  lemma PostOpens(s: Exec, i: nat, res: int, flags: nat, fill: seq<byte>)
    requires Answers(s, i, res, flags, fill)
    requires s.k.inflight[i].kind.Close? ==> s.k.inflight[i].handle.poolId == CONN_HANDLER
    ensures var e := Completed(s, i, res, flags);
            var s' := PostCompletion(s, i, res, flags, fill);
      && s'.conns == s.conns
      && (CameIn(e) ==> res !in s.k.open && s'.k.open == s.k.open + {res})
      && (WentAway(e) ==> s'.k.open == s.k.open - {s.k.inflight[i].kind.fd})
      && (!CameIn(e) && !WentAway(e) ==> s'.k.open == s.k.open)
  {
  }

  lemma PostOwned(s: Exec, i: nat, res: int, flags: nat, fill: seq<byte>)
    requires SF(s) && DescriptorsOwned(s) && Answers(s, i, res, flags, fill)
    ensures DescriptorsOwned(PostCompletion(s, i, res, flags, fill))
  {
    var op := s.k.inflight[i];
    var e := Completed(s, i, res, flags);
    assert OpOk(s, op);
    PostMarks(s, i, res, flags, fill);
    PostOpens(s, i, res, flags, fill);
    hide Inv, OneRequest, Capacity, Streams, InStep, Owned, PostCompletion, Answers, Marks;
    if CameIn(e) {
      OwnedCameIn(s.conns.objects, s.k.open, Marks(Pending(s)), e);
    } else if WentAway(e) {
      assert Awaited(s, op.handle.id, op.kind);
      CloseIsFirst(s, i);
      OwnedWentAway(s.conns.objects, s.k.open, Marks(Pending(s)), e);
    } else {
      assert Marks(Pending(s)) + [] == Marks(Pending(s));
    }
  }

  /** While a close is in flight none of the same connection has completed. */
  lemma CloseIsFirst(s: Exec, i: nat)
    requires OneRequest(s) && i < |s.k.inflight| && s.k.inflight[i].handle.poolId == CONN_HANDLER
    ensures !Closes(Marks(Pending(s)), s.k.inflight[i].handle.id)
  {
    OpIsAlone(s, i);
    var m := Marks(Pending(s));
    var id := s.k.inflight[i].handle.id;
    forall j | 0 <= j < |m| && WentAway(m[j]) ensures m[j].handle.id != id {
      MarksMember(Pending(s), m[j]);
      assert m[j].handle == ConnHandle(m[j].handle.id);
    }
  }

  lemma MarksAfter(s: Exec, s': Exec, newCur: seq<Event>, newNext: seq<Event>)
    requires s.cur != [] && s'.k.cq == s.k.cq
    requires s'.cur == s.cur[1..] + newCur && s'.next == s.next + newNext
    requires forall e :: e in newCur || e in newNext ==> e.origin.None?
    ensures Marks(Pending(s))
      == (if CameIn(s.cur[0]) || WentAway(s.cur[0]) then [s.cur[0]] else []) + Marks(Pending(s'))
  {
    NoMarks(newCur);
    NoMarks(newNext);
    MarksAppend(s'.cur + s'.next, s.k.cq);
    MarksAppend(s'.cur, s'.next);
    MarksAppend(s.cur[1..], newCur);
    MarksAppend(s.next, newNext);
    MarksAppend(s.cur + s.next, s.k.cq);
    MarksAppend(s.cur, s.next);
  }

  /** A new handler has the descriptor that came in. */
  lemma ListenerSockets(s: Exec, listen: ListenResult)
    requires Inv(s) && ForListener(s) && DispatchEvent(s, listen).Ok?
    ensures var conns, conns' := s.conns.objects, DispatchEvent(s, listen).value.conns.objects;
      && (CameIn(s.cur[0]) ==> forall id :: id in conns' ==>
            if id in conns then conns'[id].socket == conns[id].socket else conns'[id].socket == s.cur[0].reason.res)
      && (!CameIn(s.cur[0]) ==> Survive(conns, conns'))
      && (forall x, y :: x in conns' && x !in conns && y in conns' && y !in conns ==> x == y)
  {
    ListenerEvent(s);
    hide QuietStart, Addressed, Handlers, OneSpawn, Buffers;
    if s.cur[0].reason.Spawn? { ListenerSpawnDispatch(s, listen); } else { ListenerIoDispatch(s, listen); }
    hide DispatchEvent, Inv;
  }

  /** A handler whose close succeeded leaves at once. */
  lemma HandlerSockets(s: Exec, listen: ListenResult)
    requires SF(s) && ForHandler(s) && DispatchEvent(s, listen).Ok?
    ensures var conns, conns' := s.conns.objects, DispatchEvent(s, listen).value.conns.objects;
      Survive(conns, conns') && (WentAway(s.cur[0]) ==> s.cur[0].handle.id !in conns')
  {
    var s' := DispatchEvent(s, listen).value;
    var _, _ := HandlerShape(s, listen);
    forall id | id in s'.conns.objects ensures s'.conns.objects[id].socket == s.conns.objects[id].socket {
      HandlerOnward(s, listen, id);
    }
    if WentAway(s.cur[0]) {
      assert EventAwaited(s, s.cur[0]) by { assert s.cur[0] in Pending(s); }
      ClosingDispatch(s, listen);
    }
  }

  lemma DispatchOwned(s: Exec, listen: ListenResult)
    requires SF(s) && DescriptorsOwned(s) && s.cur != [] && DispatchEvent(s, listen).Ok?
    ensures DescriptorsOwned(DispatchEvent(s, listen).value)
  {
    var s' := DispatchEvent(s, listen).value;
    var newCur, newNext, _ := DispatchShape(s, listen);
    MarksAfter(s, s', newCur, newNext);
    HeadFits(s);
    if s.cur[0].handle.poolId == TCP_SERVER { ListenerSockets(s, listen); } else { HandlerSockets(s, listen); }
    hide SF, Inv, DispatchEvent, Marks, Owned;
    var m := Marks(Pending(s));
    if CameIn(s.cur[0]) || WentAway(s.cur[0]) {
      OwnedAfterHead(s.conns.objects, s'.conns.objects, s.k.open, m);
      assert m[1..] == Marks(Pending(s'));
    } else {
      assert [] + Marks(Pending(s')) == Marks(Pending(s'));
      OwnedBySurvivors(s.conns.objects, s'.conns.objects, s.k.open, m);
    }
  }

  /** In single-flight runs every event is for a machine that is there. */
  lemma HeadFits(s: Exec)
    requires SF(s) && s.cur != []
    ensures if s.cur[0].handle.poolId == TCP_SERVER then !WentAway(s.cur[0]) else ForHandler(s) && !CameIn(s.cur[0])
  {
    var e := s.cur[0];
    assert e in Pending(s);
    assert EventOk(s, e);
    if e.handle.poolId != TCP_SERVER {
      CountMember(Pending(s), e);
      assert e.handle == ConnHandle(e.handle.id);
      if e.reason.IoCompleted? { assert EventAwaited(s, e); } else { assert Spawns(s, e.handle.id) >= 1; }
    }
  }

  lemma StepOwned(s: Exec, step: Step)
    requires SF(s) && DescriptorsOwned(s) && Enabled(s, step) && Apply(s, step).Ok?
    ensures DescriptorsOwned(Apply(s, step).value)
  {
    hide SF, Inv, DispatchEvent, PostCompletion, Answers, Owned, Marks;
    match step {
      case Dispatch(listen) => DispatchOwned(s, listen);
      case Post(i, res, flags, fill) => PostOwned(s, i, res, flags, fill);
      case Collect => assert Pending(Apply(s, step).value) == Pending(s);
      case Switch => assert Pending(Apply(s, step).value) == Pending(s);
    }
  }

  lemma {:induction false} RunOwned(s: Exec, steps: seq<Step>, s': Exec)
    requires SF(s) && DescriptorsOwned(s) && Run(s, steps, s') && SingleFlight(s, steps)
    ensures DescriptorsOwned(s')
    decreases |steps|
  {
    if steps != [] {
      StepSF(s, steps[0]);
      StepOwned(s, steps[0]);
      RunOwned(Apply(s, steps[0]).value, steps[1..], s');
    }
  }

  /** A successful close of the connection is pending. */
  ghost predicate ClosePending(s: Exec, id: GenId) {
    exists e :: e in Pending(s) && WentAway(e) && e.handle.id == id
  }

  lemma ClosePendingMarks(s: Exec, id: GenId)
    ensures ClosePending(s, id) <==> Closes(Marks(Pending(s)), id)
  {
    var m := Marks(Pending(s));
    if ClosePending(s, id) {
      var e :| e in Pending(s) && WentAway(e) && e.handle.id == id;
      MarksMember(Pending(s), e);
    }
    if Closes(m, id) {
      var i :| 0 <= i < |m| && WentAway(m[i]) && m[i].handle.id == id;
      MarksMember(Pending(s), m[i]);
    }
  }

  lemma CameInMeans(s: Exec, e: Event)
    requires DescriptorsOwned(s) && e in Pending(s) && CameIn(e)
    ensures e.reason.res in s.k.open
    ensures forall id :: id in s.conns.objects && s.conns.objects[id].socket == e.reason.res ==> ClosePending(s, id)
  {
    var m := Marks(Pending(s));
    MarksMember(Pending(s), e);
    var i :| 0 <= i < |m| && m[i] == e;
    forall id | id in s.conns.objects && s.conns.objects[id].socket == e.reason.res ensures ClosePending(s, id) {
      ClosesPrefix(m, i, id);
      ClosePendingMarks(s, id);
    }
  }

  lemma CloseMeans(s: Exec, op: Op)
    requires SF(s) && DescriptorsOwned(s) && op in s.k.inflight && op.kind.Close?
    ensures op.handle.id in s.conns.objects && s.conns.objects[op.handle.id].socket == op.kind.fd
    ensures op.kind.fd in s.k.open && !ClosePending(s, op.handle.id)
  {
    assert OpOk(s, op);
    assert Awaited(s, op.handle.id, op.kind);
    var i :| 0 <= i < |s.k.inflight| && s.k.inflight[i] == op;
    CloseIsFirst(s, i);
    ClosePendingMarks(s, op.handle.id);
  }

  /** In single-flight runs live handlers have different sockets, each open until its close has succeeded, and a
      connection that came in has an open descriptor, which no live handler has that has not closed it. A
      close in flight is for the socket of its own handler, so it takes no other handler's descriptor and
      none that came in. */
  lemma DescriptorsAreOwned(c: Config, steps: seq<Step>, s: Exec)
    requires ReachedSingly(c, steps, s)
    ensures forall x, y :: x in s.conns.objects && y in s.conns.objects && x != y ==>
              s.conns.objects[x].socket != s.conns.objects[y].socket
    ensures forall id :: id in s.conns.objects && !ClosePending(s, id) ==> s.conns.objects[id].socket in s.k.open
    ensures forall e :: e in Pending(s) && CameIn(e) ==>
              && e.reason.res in s.k.open
              && forall id :: id in s.conns.objects && s.conns.objects[id].socket == e.reason.res ==>
                   ClosePending(s, id)
    ensures forall op :: op in s.k.inflight && op.kind.Close? ==>
              && op.handle.id in s.conns.objects && s.conns.objects[op.handle.id].socket == op.kind.fd
              && op.kind.fd in s.k.open
              && forall e :: e in Pending(s) && CameIn(e) ==> e.reason.res != op.kind.fd
  {
    StartSF(c);
    StartOwned(c);
    RunOwned(c.Begin(), steps, s);
    ReachedSF(c, steps, s);
    hide SF, Run, SingleFlight, ClosePending;
    forall id | id in s.conns.objects && !ClosePending(s, id) ensures s.conns.objects[id].socket in s.k.open {
      ClosePendingMarks(s, id);
    }
    forall e | e in Pending(s) && CameIn(e)
      ensures e.reason.res in s.k.open
      ensures forall id :: id in s.conns.objects && s.conns.objects[id].socket == e.reason.res ==> ClosePending(s, id)
    {
      CameInMeans(s, e);
    }
    forall op | op in s.k.inflight && op.kind.Close?
      ensures op.handle.id in s.conns.objects && s.conns.objects[op.handle.id].socket == op.kind.fd
      ensures op.kind.fd in s.k.open && forall e :: e in Pending(s) && CameIn(e) ==> e.reason.res != op.kind.fd
    {
      CloseMeans(s, op);
    }
  }

  lemma StartOwned(c: Config)
    requires c.Valid()
    ensures DescriptorsOwned(c.Begin())
  {
    NoMarks(Pending(c.Begin()));
  }
}
