/** In which order a panic flush emits, and that it emits nothing twice. */
module LoggerFlushOrder {
  import opened Protocol
  import opened LoggerModel
  import opened LoggerInvariant
  import opened LoggerRuns
  import opened LoggerFlush

  /** No record is in two ranges. */
  ghost predicate Once(chunks: seq<(nat, nat)>) {
    forall i, j :: 0 <= i < j < |chunks| ==> chunks[i].1 <= chunks[j].0 || chunks[j].1 <= chunks[i].0
  }

  /** The ranges come in the order of their records. */
  ghost predicate Ascending(chunks: seq<(nat, nat)>) {
    forall i, j :: 0 <= i < j < |chunks| ==> chunks[i].1 <= chunks[j].0
  }

  /** Both buffers hold bytes and the newer ones are in buffer 0, which is emitted first. */
  predicate NewerFirst(l: Logger) {
    |l.offsets| == 2 && Active(l.state) == 0 && l.offsets[0] > 0 && l.offsets[1] > 0
  }

  /** A range comes after another, or only beside it. */
  ghost predicate Behind(first: (nat, nat), lo: nat, hi: nat, ordered: bool) {
    first.1 <= lo || (!ordered && hi <= first.0)
  }

  /** What buffer 1 holds comes behind the range emitted from buffer 0. */
  ghost predicate RestBehind(l: Logger, first: (nat, nat), ordered: bool)
    requires InBounds(l)
  {
    l.offsets[1] > 0 ==> Behind(first, Held(l, 1).0, Held(l, 1).1, ordered)
  }

  ghost predicate Shape(l: Logger, ordered: bool)
    requires InBounds(l)
  {
    match l.p
    case FlushLoading(idx) =>
      if idx == 0 then l.h.chunks == [] && (ordered ==> !NewerFirst(l))
      else |l.h.chunks| <= 1 && (l.h.chunks != [] ==> RestBehind(l, l.h.chunks[0], ordered))
    case FlushEmitting(idx, _, _) =>
      if idx == 0 then l.h.chunks == [] && RestBehind(l, (l.h.lo, l.h.hi), ordered)
      else |l.h.chunks| <= 1 && (l.h.chunks != [] ==> Behind(l.h.chunks[0], l.h.lo, l.h.hi, ordered))
    case _ =>
      |l.h.chunks| <= 2 && (|l.h.chunks| == 2 ==> Behind(l.h.chunks[0], l.h.chunks[1].0, l.h.chunks[1].1, ordered))
  }

  lemma ProducerShape(l: Logger, spurious: bool, ordered: bool)
    requires Inv(l) && Shape(l, ordered) && l.p.InFlush() && InBounds(ProducerStep(l, spurious))
    ensures Shape(ProducerStep(l, spurious), ordered)
    ensures ProducerStep(l, spurious).p.InFlush() || ProducerStep(l, spurious).p.Resting?
  {
    match l.p {
      case FlushLoading(idx) =>
      case FlushEmitting(idx, offset, k) =>
    }
  }

  /** The consumer only empties buffers, and takes none while it holds one. */
  lemma ConsumerShape(l: Logger, spurious: bool, ordered: bool)
    requires Inv(l) && Shape(l, ordered) && (l.p.InFlush() || l.p.Resting?) && !l.c.Waiting?
    requires Inv(ConsumerStep(l, spurious))
    ensures Shape(ConsumerStep(l, spurious), ordered) && ConsumerStep(l, spurious).p == l.p
  {
    ConsumerKeeps(l, spurious);
    NoneTurnsNewer(l, spurious);
    forall first | RestBehind(l, first, ordered) ensures RestBehind(ConsumerStep(l, spurious), first, ordered) {
      StaysBehind(l, spurious, first, ordered);
    }
    hide ConsumerStep, WordOk, ContentsOk, CopyOk, DeliveryOk, RestBehind, NewerFirst, Behind;
  }

  lemma NoneTurnsNewer(l: Logger, spurious: bool)
    requires InBounds(l) && WordOk(l) && ContentsOk(l) && !l.c.Waiting?
    ensures NewerFirst(ConsumerStep(l, spurious)) ==> NewerFirst(l)
  {
    StateBits(l.state);
    hide Published, Text;
  }

  lemma StaysBehind(l: Logger, spurious: bool, first: (nat, nat), ordered: bool)
    requires InBounds(l) && WordOk(l) && ContentsOk(l) && !l.c.Waiting? && RestBehind(l, first, ordered)
    requires InBounds(ConsumerStep(l, spurious))
    ensures RestBehind(ConsumerStep(l, spurious), first, ordered)
  {
    HeldStays(l, spurious);
    hide ConsumerStep, Held, WordOk, ContentsOk, Behind;
  }

  /** What is still in buffer 1 after a step was there before. */
  lemma HeldStays(l: Logger, spurious: bool)
    requires InBounds(l) && WordOk(l) && ContentsOk(l) && !l.c.Waiting? && InBounds(ConsumerStep(l, spurious))
    ensures var l' := ConsumerStep(l, spurious);
      l'.offsets[1] > 0 ==> l.offsets[1] > 0 && Held(l', 1) == Held(l, 1)
  {
    StateBits(l.state);
    hide Published, Text;
    match l.c {
      case Swapping(_) =>
      case _ =>
    }
  }

  lemma ShapeStep(l: Logger, step: Step, ordered: bool)
    requires Inv(l) && Shape(l, ordered) && (l.p.InFlush() || l.p.Resting?) && Enabled(l, step)
    requires !step.Push? && !step.PanicFlush?
    ensures var l' := Apply(l, step);
      Inv(l') && Shape(l', ordered) && (l'.p.InFlush() || l'.p.Resting?)
  {
    StepInv(l, step);
    hide Shape, WordOk, ContentsOk, CopyOk, DeliveryOk, ProducerStep, ConsumerStep;
    match step {
      case Produce(spurious) => ProducerShape(l, spurious, ordered);
      case Follow(spurious) => ConsumerShape(l, spurious, ordered);
      case Consume => StartShape(l, ordered);
    }
  }

  lemma StartShape(l: Logger, ordered: bool)
    requires InBounds(l) && Shape(l, ordered) && l.c.Waiting? && InBounds(Apply(l, Consume))
    ensures Shape(Apply(l, Consume), ordered)
  {
  }

  lemma {:induction false} ShapeRun(l: Logger, steps: seq<Step>, l': Logger, ordered: bool)
    requires Inv(l) && Shape(l, ordered) && (l.p.InFlush() || l.p.Resting?) && Flushing(l, steps, l')
    ensures Inv(l') && Shape(l', ordered)
    decreases |steps|
  {
    if steps != [] {
      ShapeStep(l, steps[0], ordered);
      hide Shape, WordOk, ContentsOk, CopyOk, DeliveryOk, Apply;
      ShapeRun(Apply(l, steps[0]), steps[1..], l', ordered);
    }
  }

  /** Whatever the consumer does meanwhile, a flush emits no record twice, and emits them in order unless it
      starts with the newer ones in buffer 0. */
  lemma FlushOnceInOrder(bufs: seq<seq<byte>>, size: nat, before: seq<Step>, l: Logger, steps: seq<Step>, l': Logger)
    requires Reached(bufs, size, before, l) && l.p.Resting?
    requires InBounds(l) && Flushing(Apply(l, PanicFlush), steps, l') && l'.p.Resting?
    ensures Once(l'.h.chunks)
    ensures !NewerFirst(l) ==> Ascending(l'.h.chunks)
  {
    ReachedInv(bufs, size, before, l);
    StepInv(l, PanicFlush);
    ShapeRun(Apply(l, PanicFlush), steps, l', false);
    if !NewerFirst(l) { ShapeRun(Apply(l, PanicFlush), steps, l', true); }
  }

  // ---------- Out of order ----------

  /** The producer hands out the rest of a buffer's bytes while the consumer rests. */
  lemma {:induction false} EmitRest(l: Logger) returns (steps: seq<Step>)
    requires InBounds(l) && l.p.FlushEmitting?
    ensures var l' := l.(p := FlushEmitting(l.p.idx, l.p.offset, l.p.offset),
                         h := l.h.(flushed := l.h.flushed + l.bufs[l.p.idx][l.p.k..l.p.offset]));
      Flushing(l, steps, l')
    decreases l.p.offset - l.p.k
  {
    var FlushEmitting(idx, offset, k) := l.p;
    if k == offset {
      steps := [];
      assert l.h.flushed + l.bufs[idx][k..offset] == l.h.flushed;
    } else {
      var next := ProducerStep(l, false);
      var rest := EmitRest(next);
      steps := [Produce(false)] + rest;
      assert steps[1..] == rest;
      assert next.h.flushed + l.bufs[idx][k + 1..offset] == l.h.flushed + l.bufs[idx][k..offset];
    }
  }

  lemma {:induction false} FlushingConcat(l: Logger, a: seq<Step>, m: Logger, b: seq<Step>, l': Logger)
    requires Flushing(l, a, m) && Flushing(m, b, l')
    ensures Flushing(l, a + b, l')
    decreases |a|
  {
    if a == [] {
      assert a + b == b;
    } else {
      FlushingConcat(Apply(l, a[0]), a[1..], m, b, l');
      assert (a + b)[1..] == a[1..] + b;
    }
  }

  lemma OneMore(l: Logger)
    requires InBounds(l) && l.p.InFlush()
    ensures Flushing(l, [Produce(false)], ProducerStep(l, false))
  {
    assert [Produce(false)][1..] == [];
  }

  /** A whole buffer with published bytes is emitted, from reading its offset on. */
  lemma EmitBuffer(l: Logger) returns (steps: seq<Step>)
    requires InBounds(l) && l.p.FlushLoading? && l.offsets[l.p.idx] > 0
    ensures Flushing(l, steps, Emitting(l))
  {
    var l1 := ProducerStep(l, false);
    OneMore(l);
    var rest := EmitRest(l1);
    var l2 := l1.(p := FlushEmitting(l1.p.idx, l1.p.offset, l1.p.offset),
                  h := l1.h.(flushed := l1.h.flushed + l1.bufs[l1.p.idx][0..l1.p.offset]));
    assert l1.bufs[l1.p.idx][0..l1.p.offset] == Published(l, l.p.idx);
    OneMore(l2);
    FlushingConcat(l, [Produce(false)], l1, rest, l2);
    FlushingConcat(l, [Produce(false)] + rest, l2, [Produce(false)], ProducerStep(l2, false));
    steps := [Produce(false)] + rest + [Produce(false)];
  }

  /** The state after that. */
  function Emitting(l: Logger): Logger
    requires InBounds(l) && l.p.FlushLoading?
  {
    var (lo, hi) := Held(l, l.p.idx);
    l.(p := NextFlush(l.p.idx),
       h := l.h.(lo := lo, hi := hi, chunks := l.h.chunks + [(lo, hi)], flushed := l.h.flushed + Published(l, l.p.idx)))
  }

  lemma HeldTexts(l: Logger)
    requires Inv(l) && NewerFirst(l)
    ensures l.h.taken < l.h.split < |l.h.accepted|
  {
    assert Published(l, 0) == Text(l, l.h.split, |l.h.accepted|);
    assert Published(l, 1) == Text(l, l.h.taken, l.h.split);
  }

  /** Buffer 0 and then buffer 1. */
  lemma BothEmitted(l: Logger)
    requires InBounds(l) && NewerFirst(l) && l.p == FlushLoading(0) && l.h.chunks == [] && l.h.flushed == []
    ensures var l1 := Emitting(l);
      && InBounds(l1) && l1.p == FlushLoading(1) && l1.offsets[1] > 0
      && var l2 := Emitting(l1);
      && l2.p.Resting? && l2.h.chunks == [(l.h.split, |l.h.accepted|), (l.h.taken, l.h.split)]
      && l2.h.flushed == Published(l, 0) + Published(l, 1)
  {
  }

  /** A flush that starts with the newer records in buffer 0, and during which the consumer rests, emits them
      before the older ones. */
  lemma FlushNewerFirst(bufs: seq<seq<byte>>, size: nat, before: seq<Step>, l: Logger)
    returns (steps: seq<Step>, l': Logger)
    requires Reached(bufs, size, before, l) && l.p.Resting? && NewerFirst(l)
    ensures InBounds(l) && Flushing(Apply(l, PanicFlush), steps, l') && l'.p.Resting?
    ensures l'.h.chunks == [(l.h.split, |l.h.accepted|), (l.h.taken, l.h.split)]
    ensures l.h.taken < l.h.split < |l.h.accepted| && !Ascending(l'.h.chunks)
    ensures l'.h.flushed == Published(l, 0) + Published(l, 1)
  {
    ReachedInv(bufs, size, before, l);
    HeldTexts(l);
    hide WordOk, ContentsOk, CopyOk, DeliveryOk, Text, Run;
    var l0 := Apply(l, PanicFlush);
    BothEmitted(l0);
    hide Emitting;
    var first := EmitBuffer(l0);
    var second := EmitBuffer(Emitting(l0));
    l' := Emitting(Emitting(l0));
    FlushingConcat(l0, first, Emitting(l0), second, l');
    steps := first + second;
    assert l'.h.chunks[0].1 > l'.h.chunks[1].0;
  }

  /** Every flush that starts here emits in order. */
  ghost predicate InOrder(l: Logger)
    requires InBounds(l) && l.p.Resting?
  {
    forall steps, l' :: Flushing(Apply(l, PanicFlush), steps, l') && l'.p.Resting? ==> Ascending(l'.h.chunks)
  }

  lemma FlushInOrderIff(bufs: seq<seq<byte>>, size: nat, before: seq<Step>, l: Logger)
    requires Reached(bufs, size, before, l) && l.p.Resting?
    ensures InBounds(l) && (InOrder(l) <==> !NewerFirst(l))
  {
    ReachedInv(bufs, size, before, l);
    hide Ascending, Run, Flushing, Apply;
    if NewerFirst(l) {
      var steps, l' := FlushNewerFirst(bufs, size, before, l);
      assert Flushing(Apply(l, PanicFlush), steps, l') && !Ascending(l'.h.chunks);
    } else {
      forall steps, l' | Flushing(Apply(l, PanicFlush), steps, l') && l'.p.Resting? ensures Ascending(l'.h.chunks) {
        FlushOnceInOrder(bufs, size, before, l, steps, l');
      }
    }
  }

  // ---------- That it happens ----------

  /** The producer pushes one byte while the consumer rests. */
  lemma PushByte(bufs: seq<seq<byte>>, size: nat, steps: seq<Step>, l: Logger, b: byte)
    returns (steps': seq<Step>, l': Logger)
    requires Reached(bufs, size, steps, l) && l.p.Resting? && InBounds(l) && l.offsets[Active(l.state)] < size == l.size
    ensures Reached(bufs, size, steps', l') && l'.p.Resting? && l'.c == l.c && l'.state == l.state && l'.size == size
    ensures InBounds(l') && l'.offsets == l.offsets[Active(l.state) := l.offsets[Active(l.state)] + 1]
  {
    steps', l' := EnterPush(bufs, size, steps, l, b);
    steps', l' := LeavePush(bufs, size, steps', l', b);
    ReachedInv(bufs, size, steps, l);
    StateBits(l.state);
  }

  lemma EnterPush(bufs: seq<seq<byte>>, size: nat, steps: seq<Step>, l: Logger, b: byte)
    returns (steps': seq<Step>, l': Logger)
    requires Reached(bufs, size, steps, l) && l.p.Resting?
    ensures Reached(bufs, size, steps', l') && InBounds(l')
    ensures l' == l.(state := WRITER_BIT | (l.state & INDEX_MASK), p := Measuring([b], Active(l.state)))
  {
    steps', l' := Take(bufs, size, steps, l, Push([b]));
    steps', l' := Take(bufs, size, steps', l', Produce(false));
    steps', l' := Take(bufs, size, steps', l', Produce(false));
  }

  lemma LeavePush(bufs: seq<seq<byte>>, size: nat, steps: seq<Step>, l: Logger, b: byte)
    returns (steps': seq<Step>, l': Logger)
    requires Reached(bufs, size, steps, l) && InBounds(l) && l.p.Measuring? && l.p.data == [b]
    requires l.offsets[l.p.idx] < l.size
    ensures Reached(bufs, size, steps', l') && l'.p.Resting? && l'.c == l.c && l'.size == l.size
    ensures l'.state == l.state & !WRITER_BIT
    ensures InBounds(l') && l'.offsets == l.offsets[l.p.idx := l.offsets[l.p.idx] + 1]
  {
    steps', l' := Take(bufs, size, steps, l, Produce(false));
    steps', l' := Take(bufs, size, steps', l', Produce(false));
    steps', l' := Take(bufs, size, steps', l', Produce(false));
    steps', l' := Take(bufs, size, steps', l', Produce(false));
  }

  lemma Take(bufs: seq<seq<byte>>, size: nat, steps: seq<Step>, l: Logger, step: Step)
    returns (steps': seq<Step>, l': Logger)
    requires Reached(bufs, size, steps, l) && Enabled(l, step)
    ensures InBounds(l) && l' == Apply(l, step) && Reached(bufs, size, steps', l') && InBounds(l')
  {
    ReachedInv(bufs, size, steps, l);
    StepInv(l, step);
    RunSnoc(Begin(bufs, size), steps, l, step);
    steps', l' := steps + [step], Apply(l, step);
  }

  /** The consumer takes the active buffer while the producer rests. */
  lemma TakeBuffer(bufs: seq<seq<byte>>, size: nat, steps: seq<Step>, l: Logger)
    returns (steps': seq<Step>, l': Logger)
    requires Reached(bufs, size, steps, l) && l.p.Resting? && l.c.Waiting?
    ensures Reached(bufs, size, steps', l') && l'.p.Resting? && l'.c == Sizing(Active(l.state))
    ensures InBounds(l') && Active(l'.state) == 1 - Active(l.state)
    ensures l'.offsets == l.offsets && l'.size == l.size
  {
    ReachedInv(bufs, size, steps, l);
    StateBits(l.state);
    steps', l' := Take(bufs, size, steps, l, Consume);
    steps', l' := Take(bufs, size, steps', l', Follow(false));
    steps', l' := Take(bufs, size, steps', l', Follow(false));
  }

  /** It delivers the one byte there and gives the buffer back. */
  lemma DrainByte(bufs: seq<seq<byte>>, size: nat, steps: seq<Step>, l: Logger)
    returns (steps': seq<Step>, l': Logger)
    requires Reached(bufs, size, steps, l) && l.p.Resting? && l.c.Sizing? && InBounds(l) && l.offsets[l.c.idx] == 1
    ensures Reached(bufs, size, steps', l') && l'.p.Resting? && l'.c.Waiting?
    ensures InBounds(l') && l'.state == l.state && l'.offsets == l.offsets[l.c.idx := 0] && l'.size == l.size
  {
    steps', l' := Take(bufs, size, steps, l, Follow(false));
    steps', l' := Take(bufs, size, steps', l', Follow(false));
    steps', l' := Take(bufs, size, steps', l', Follow(false));
    steps', l' := Take(bufs, size, steps', l', Follow(false));
  }

  /** A run after which a flush starts with the newer records in buffer 0. */
  lemma NewerFirstHappens(bufs: seq<seq<byte>>, size: nat) returns (steps: seq<Step>, l: Logger)
    requires |bufs| == 2 && |bufs[0]| == size && |bufs[1]| == size && 0 < size
    ensures Reached(bufs, size, steps, l) && l.p.Resting? && NewerFirst(l)
  {
    l := Begin(bufs, size);
    steps := [];
    steps, l := PushByte(bufs, size, steps, l, 1);
    steps, l := TakeBuffer(bufs, size, steps, l);
    steps, l := DrainByte(bufs, size, steps, l);
    steps, l := PushByte(bufs, size, steps, l, 2);
    steps, l := TakeBuffer(bufs, size, steps, l);
    ReachedInv(bufs, size, steps, l);
    steps, l := PushByte(bufs, size, steps, l, 3);
  }
}
