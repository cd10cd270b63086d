/** How pending events will change the number of live handlers. */
module Weights {
  import opened Sequences
  import opened GenAllocSpec
  import opened Protocol
  import opened ExecutorModel
  import opened EventCounts

  /** A successful accept will add a handler, a successful close will remove one. */
  function Weight(e: Event): int {
    if !e.reason.IoCompleted? || e.origin.None? then 0
    else match e.origin.value
      case Accept(_) => if e.reason.res >= 0 then 1 else 0
      case Close(_) => if e.reason.res == 0 then -1 else 0
      case Recv(_, _, _, _) => 0
  }

  function Net(q: seq<Event>): int {
    if q == [] then 0 else Weight(q[0]) + Net(q[1..])
  }

  /** The largest net change over all prefixes. */
  function Peak(q: seq<Event>): nat {
    if q == [] then 0 else Max(0, Weight(q[0]) + Peak(q[1..]))
  }

  function Max(a: int, b: int): int { if a < b then b else a }

  lemma {:induction false} NetAppend(q: seq<Event>, r: seq<Event>)
    ensures Net(q + r) == Net(q) + Net(r)
  {
    if q == [] {
      assert q + r == r;
    } else {
      NetAppend(q[1..], r);
      assert (q + r)[1..] == q[1..] + r;
    }
  }

  lemma {:induction false} PeakAppend(q: seq<Event>, r: seq<Event>)
    ensures Peak(q + r) == Max(Peak(q), Net(q) + Peak(r))
  {
    if q == [] {
      assert q + r == r;
    } else {
      PeakAppend(q[1..], r);
      assert (q + r)[1..] == q[1..] + r;
    }
  }

  lemma {:induction false} PeakIsBound(q: seq<Event>, k: nat)
    requires k <= |q|
    ensures Net(q[..k]) <= Peak(q)
  {
    if k > 0 {
      PeakIsBound(q[1..], k - 1);
      assert q[..k][1..] == q[1..][..k - 1];
    }
  }

  lemma NetBelowPeak(q: seq<Event>)
    ensures Net(q) <= Peak(q)
  {
    PeakIsBound(q, |q|);
    assert q[..|q|] == q;
  }

  /** An event of weight 0 may be put in anywhere. */
  lemma WeightlessInsert(q: seq<Event>, e: Event, r: seq<Event>)
    requires Weight(e) == 0
    ensures Net(q + [e] + r) == Net(q + r) && Peak(q + [e] + r) == Peak(q + r)
  {
    NetAppend(q + [e], r);
    NetAppend(q, [e]);
    NetAppend(q, r);
    PeakAppend(q + [e], r);
    PeakAppend(q, [e]);
    PeakAppend(q, r);
  }

  // ---------- Lengths ----------

  function ConnIds(q: seq<Event>): seq<GenId> {
    if q == [] then []
    else (if q[0].handle.poolId == CONN_HANDLER then [q[0].handle.id] else []) + ConnIds(q[1..])
  }

  /** A completion of the accept request. */
  predicate IsAccept(e: Event) { e.reason.IoCompleted? && e.origin.Some? && e.origin.value.Accept? }

  /** Failed accepts. */
  function Errors(q: seq<Event>): nat {
    if q == [] then 0
    else
      (if IsAccept(q[0]) && q[0].reason.res < 0 then 1 else 0)
      + Errors(q[1..])
  }

  lemma {:induction false} ConnIdsMember(q: seq<Event>, id: GenId)
    requires id in ConnIds(q)
    ensures Count(q, ConnHandle(id), true) + Count(q, ConnHandle(id), false) >= 1
  {
    if !(q[0].handle.poolId == CONN_HANDLER && q[0].handle.id == id) { ConnIdsMember(q[1..], id); }
  }

  lemma {:induction false} ConnIdsDistinct(q: seq<Event>)
    requires forall id :: Count(q, ConnHandle(id), true) + Count(q, ConnHandle(id), false) <= 1
    ensures Distinct(ConnIds(q))
  {
    if q != [] {
      forall id ensures Count(q[1..], ConnHandle(id), true) + Count(q[1..], ConnHandle(id), false) <= 1 {
        assert Count(q, ConnHandle(id), true) + Count(q, ConnHandle(id), false) <= 1;
      }
      ConnIdsDistinct(q[1..]);
      if q[0].handle.poolId == CONN_HANDLER {
        var id := q[0].handle.id;
        assert q[0].handle == ConnHandle(id);
        assert Count(q, ConnHandle(id), true) + Count(q, ConnHandle(id), false) <= 1;
        if id in ConnIds(q[1..]) { ConnIdsMember(q[1..], id); }
      }
    }
  }

  /** Each event is paid for: one of a handler by 2 less a successful close, an accept by its weight,
      a failed accept by itself. */
  lemma {:induction false} LengthBound(q: seq<Event>)
    requires forall e :: e in q ==>
               e.handle.poolId == CONN_HANDLER || IsAccept(e)
    ensures |q| <= 2 * |ConnIds(q)| + Net(q) + Errors(q)
  {
    if q != [] {
      LengthBound(q[1..]);
      assert q[0] in q;
    }
  }

  // ---------- The accept request ----------

  /** The completion of an accept request that is no longer armed. */
  predicate EndsAccept(e: Event) {
    IsAccept(e) && (e.reason.res < 0 || !More(e.reason.flags))
  }

  function AcceptEnds(q: seq<Event>): nat {
    if q == [] then 0 else (if EndsAccept(q[0]) then 1 else 0) + AcceptEnds(q[1..])
  }

  lemma {:induction false} AcceptEndsAppend(q: seq<Event>, r: seq<Event>)
    ensures AcceptEnds(q + r) == AcceptEnds(q) + AcceptEnds(r)
  {
    if q == [] {
      assert q + r == r;
    } else {
      AcceptEndsAppend(q[1..], r);
      assert (q + r)[1..] == q[1..] + r;
    }
  }

  lemma {:induction false} ErrorsEnd(q: seq<Event>)
    ensures Errors(q) <= AcceptEnds(q)
  {
    if q != [] { ErrorsEnd(q[1..]); }
  }

  lemma {:induction false} NoAcceptEnds(q: seq<Event>)
    requires forall e :: e in q ==> e.origin.None?
    ensures AcceptEnds(q) == 0
  {
    if q != [] { NoAcceptEnds(q[1..]); }
  }

  lemma AcceptEndsAfter(s: Exec, s': Exec, newCur: seq<Event>, newNext: seq<Event>)
    requires s.cur != [] && s'.k.cq == s.k.cq
    requires s'.cur == s.cur[1..] + newCur && s'.next == s.next + newNext
    requires forall e :: e in newCur || e in newNext ==> e.origin.None?
    ensures AcceptEnds(Pending(s')) == AcceptEnds(Pending(s)) - if EndsAccept(s.cur[0]) then 1 else 0
  {
    AcceptEndsAppend(s'.cur + s'.next, s.k.cq);
    AcceptEndsAppend(s'.cur, s'.next);
    AcceptEndsAppend(s.cur[1..], newCur);
    AcceptEndsAppend(s.next, newNext);
    NoAcceptEnds(newCur);
    NoAcceptEnds(newNext);
    AcceptEndsAppend(s.cur + s.next, s.k.cq);
    AcceptEndsAppend(s.cur, s.next);
  }
}
