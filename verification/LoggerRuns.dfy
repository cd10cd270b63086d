/** What the logger promises: every interleaving is a FIFO of whole records. */
module LoggerRuns {
  import opened Protocol
  import opened LoggerModel
  import opened LoggerInvariant

  ghost predicate Run(l: Logger, steps: seq<Step>, l': Logger)
    decreases |steps|
  {
    if steps == [] then l' == l
    else InBounds(l) && Enabled(l, steps[0]) && Run(Apply(l, steps[0]), steps[1..], l')
  }

  ghost predicate Reached(bufs: seq<seq<byte>>, size: nat, steps: seq<Step>, l: Logger) {
    |bufs| == 2 && |bufs[0]| == size && |bufs[1]| == size && Run(Begin(bufs, size), steps, l)
  }

  lemma {:induction false} RunInv(l: Logger, steps: seq<Step>, l': Logger)
    requires Inv(l) && Run(l, steps, l')
    ensures Inv(l')
    decreases |steps|
  {
    if steps != [] {
      StepInv(l, steps[0]);
      RunInv(Apply(l, steps[0]), steps[1..], l');
    }
  }

  lemma ReachedInv(bufs: seq<seq<byte>>, size: nat, steps: seq<Step>, l: Logger)
    requires Reached(bufs, size, steps, l)
    ensures Inv(l)
  {
    BeginInv(bufs, size);
    RunInv(Begin(bufs, size), steps, l);
  }

  lemma {:induction false} RunSnoc(l: Logger, steps: seq<Step>, m: Logger, step: Step)
    requires Run(l, steps, m) && InBounds(m) && Enabled(m, step)
    ensures Run(l, steps + [step], Apply(m, step))
    decreases |steps|
  {
    if steps == [] {
      assert [step][1..] == [];
      assert Run(Apply(m, step), [], Apply(m, step));
      assert [] + [step] == [step];
    } else {
      RunSnoc(Apply(l, steps[0]), steps[1..], m, step);
      assert (steps + [step])[1..] == steps[1..] + [step];
    }
  }

  // ---------- First in, first out ----------

  /** The bytes the consumer took and has not handed over yet. */
  function InHand(l: Logger): seq<byte>
    requires InBounds(l)
  {
    match l.c
    case Sizing(idx) => l.bufs[idx][..l.offsets[idx]]
    case Draining(idx, offset, k) => l.bufs[idx][k..offset]
    case _ => []
  }

  /** Whatever the interleaving: the accepted records end to end are what was delivered, then what the
      consumer has in hand, then the active buffer. */
  lemma NothingLostOrReordered(bufs: seq<seq<byte>>, size: nat, steps: seq<Step>, l: Logger)
    requires Reached(bufs, size, steps, l)
    ensures InBounds(l)
    ensures Flatten(l.h.accepted) == l.h.delivered + InHand(l) + Published(l, Active(l.state))
  {
    ReachedInv(bufs, size, steps, l);
    var n := |l.h.accepted|;
    TextSplit(l, 0, l.h.taken, n);
    TextSplit(l, l.h.taken, l.h.split, n);
    TextSplit(l, 0, l.h.taken, l.h.split);
    assert l.h.accepted[0..n] == l.h.accepted;
    HandIsTaken(l);
  }

  lemma HandIsTaken(l: Logger)
    requires Inv(l)
    ensures l.h.delivered + InHand(l) == Text(l, 0, l.h.taken) + Text(l, l.h.taken, l.h.split)
  {
    match l.c {
      case Draining(idx, offset, k) =>
        assert l.bufs[idx][..offset] == l.bufs[idx][..k] + l.bufs[idx][k..offset];
      case Clearing(idx) => TextSplit(l, 0, l.h.taken, l.h.split);
      case Sizing(idx) =>
      case _ =>
        assert Text(l, l.h.taken, l.h.split) == [];
    }
  }

  /** The specification: records queue up, are taken all at once, and leave byte by byte. */
  datatype Fifo = Fifo(inbox: seq<Record>, outbox: seq<byte>, output: seq<byte>)

  ghost predicate FifoStep(f: Fifo, f': Fifo) {
    || f' == f
    || (exists r :: f' == f.(inbox := f.inbox + [r]))
    || (f.outbox == [] && f' == f.(inbox := [], outbox := Flatten(f.inbox)))
    || (f.outbox != [] && f' == f.(outbox := f.outbox[1..], output := f.output + [f.outbox[0]]))
  }

  function Abstraction(l: Logger): Fifo
    requires InBounds(l) && l.h.split <= |l.h.accepted|
  {
    Fifo(l.h.accepted[l.h.split..], InHand(l), l.h.delivered)
  }

  /** Every atomic operation of either thread is a step of the queue or invisible to it. A record enters
      by the producer's `fetch_add`, the batch is taken by the consumer's successful exchange. */
  lemma RefinesFifo(l: Logger, step: Step)
    requires Inv(l) && Enabled(l, step)
    ensures Inv(Apply(l, step))
    ensures FifoStep(Abstraction(l), Abstraction(Apply(l, step)))
    ensures step.Produce? && l.p.Copying? && l.p.k == |l.p.data| ==>
              Abstraction(Apply(l, step)) == Abstraction(l).(inbox := Abstraction(l).inbox + [l.p.data])
    ensures !(step.Produce? && l.p.Copying? && l.p.k == |l.p.data|) ==> Apply(l, step).h.accepted == l.h.accepted
  {
    StepInv(l, step);
    match step {
      case Produce(spurious) => ProducerRefines(l, spurious);
      case Follow(spurious) => ConsumerRefines(l, spurious);
      case _ =>
    }
  }

  lemma ProducerRefines(l: Logger, spurious: bool)
    requires Inv(l) && !l.p.Resting?
    ensures InBounds(ProducerStep(l, spurious)) && l.h.split <= |ProducerStep(l, spurious).h.accepted|
    ensures Abstraction(ProducerStep(l, spurious)) ==
      if l.p.Copying? && l.p.k == |l.p.data| then Abstraction(l).(inbox := Abstraction(l).inbox + [l.p.data])
      else Abstraction(l)
    ensures !(l.p.Copying? && l.p.k == |l.p.data|) ==> ProducerStep(l, spurious).h.accepted == l.h.accepted
  {
    ProducerInv(l, spurious);
    HandUntouched(l, spurious);
    HistoryAfter(l, spurious);
    hide WordOk, ContentsOk, CopyOk, DeliveryOk, InHand, ProducerStep, InBounds;
  }

  lemma HistoryAfter(l: Logger, spurious: bool)
    requires InBounds(l) && !l.p.Resting?
    ensures var h := ProducerStep(l, spurious).h;
      && ProducerStep(l, spurious).c == l.c
      && h.taken == l.h.taken && h.split == l.h.split && h.delivered == l.h.delivered
      && h.accepted == if l.p.Copying? && l.p.k == |l.p.data| then l.h.accepted + [l.p.data] else l.h.accepted
  {
    match l.p {
      case Copying(_, _, _, _) =>
      case FlushEmitting(_, _, _) =>
      case _ =>
    }
  }

  /** The producer works on the other buffer. */
  lemma HandUntouched(l: Logger, spurious: bool)
    requires InBounds(l) && WordOk(l) && !l.p.Resting? && InBounds(ProducerStep(l, spurious))
    ensures InHand(ProducerStep(l, spurious)) == InHand(l)
  {
    StateBits(l.state);
  }

  lemma ConsumerRefines(l: Logger, spurious: bool)
    requires Inv(l) && !l.c.Waiting?
    ensures InBounds(ConsumerStep(l, spurious))
    ensures ConsumerStep(l, spurious).h.split <= |l.h.accepted| && ConsumerStep(l, spurious).h.accepted == l.h.accepted
    ensures FifoStep(Abstraction(l), Abstraction(ConsumerStep(l, spurious)))
  {
    ConsumerInv(l, spurious);
    SplitBound(l);
    SplitBound(ConsumerStep(l, spurious));
    AcceptedKept(l, spurious);
    hide ConsumerStep, InBounds, WordOk, ContentsOk, CopyOk, DeliveryOk, InHand;
    match l.c {
      case Swapping(_) => SwapRefines(l, spurious);
      case Draining(_, _, _) => DrainRefines(l, spurious);
      case Sizing(_) => SizeRefines(l, spurious);
      case _ => IdleRefines(l, spurious);
    }
  }

  lemma SplitBound(l: Logger)
    requires Inv(l)
    ensures l.h.split <= |l.h.accepted|
  {
  }

  lemma AcceptedKept(l: Logger, spurious: bool)
    requires InBounds(l) && !l.c.Waiting?
    ensures ConsumerStep(l, spurious).h.accepted == l.h.accepted
  {
    match l.c {
      case Draining(_, _, _) =>
      case _ =>
    }
  }

  lemma IdleRefines(l: Logger, spurious: bool)
    requires InBounds(l) && l.h.split <= |l.h.accepted| && (l.c.Watching? || l.c.Clearing?)
    requires InBounds(ConsumerStep(l, spurious))
    ensures ConsumerStep(l, spurious).h.split == l.h.split
    ensures Abstraction(ConsumerStep(l, spurious)) == Abstraction(l)
  {
  }

  lemma SizeRefines(l: Logger, spurious: bool)
    requires InBounds(l) && l.h.split <= |l.h.accepted| && l.c.Sizing? && InBounds(ConsumerStep(l, spurious))
    ensures Abstraction(ConsumerStep(l, spurious)) == Abstraction(l)
  {
    assert InHand(ConsumerStep(l, spurious)) == InHand(l);
  }

  lemma SwapRefines(l: Logger, spurious: bool)
    requires InBounds(l) && ContentsOk(l) && l.c.Swapping? && ContentsOk(ConsumerStep(l, spurious))
    ensures FifoStep(Abstraction(l), Abstraction(ConsumerStep(l, spurious)))
  {
    var l' := ConsumerStep(l, spurious);
    if l'.c.Sizing? {
      assert l.h.accepted[l.h.split..|l.h.accepted|] == l.h.accepted[l.h.split..];
      assert Active(l'.state) == 1 - l'.c.idx;
      assert InHand(l') == Text(l', l'.h.taken, l'.h.split);
      assert Abstraction(l').outbox == Flatten(Abstraction(l).inbox);
    }
  }

  lemma DrainRefines(l: Logger, spurious: bool)
    requires InBounds(l) && l.h.split <= |l.h.accepted| && l.c.Draining?
    requires InBounds(ConsumerStep(l, spurious))
    ensures FifoStep(Abstraction(l), Abstraction(ConsumerStep(l, spurious)))
  {
    var Draining(idx, offset, k) := l.c;
    if k < offset { assert l.bufs[idx][k..offset] == [l.bufs[idx][k]] + l.bufs[idx][k + 1..offset]; }
  }

  /** When `consume` returns, every record accepted before its exchange has been delivered. */
  lemma ConsumeDelivers(l: Logger, spurious: bool)
    requires Inv(l) && l.c.Clearing?
    ensures var l' := ConsumerStep(l, spurious);
      l'.c.Waiting? && l'.h.taken == l.h.split && l'.h.delivered == Flatten(l.h.accepted[..l.h.split])
  {
    assert l.h.accepted[0..l.h.split] == l.h.accepted[..l.h.split];
  }

  // ---------- Exclusion ----------

  /** The two threads are never inside the same buffer, and an idle consumer's buffer is empty. */
  lemma NeverTheSameBuffer(bufs: seq<seq<byte>>, size: nat, steps: seq<Step>, l: Logger)
    requires Reached(bufs, size, steps, l)
    ensures InBounds(l)
    ensures Writing(l.state) <==> l.p.InPush()
    ensures l.p.Measuring? || l.p.Copying? ==> l.p.idx == Active(l.state)
    ensures l.c.Sizing? || l.c.Draining? || l.c.Clearing? ==> l.c.idx == 1 - Active(l.state)
    ensures !l.c.Holds() ==> l.offsets[1 - Active(l.state)] == 0
  {
    ReachedInv(bufs, size, steps, l);
  }
}
