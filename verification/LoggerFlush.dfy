/** What a panic flush emits while the consumer may still be running. */
module LoggerFlush {
  import opened Protocol
  import opened LoggerModel
  import opened LoggerInvariant
  import opened LoggerRuns

  /** The records of some ranges, end to end. */
  function ChunkText(accepted: seq<Record>, chunks: seq<(nat, nat)>): seq<byte>
    requires forall i :: 0 <= i < |chunks| ==> chunks[i].0 <= chunks[i].1 <= |accepted|
  {
    if chunks == [] then [] else Flatten(accepted[chunks[0].0..chunks[0].1]) + ChunkText(accepted, chunks[1..])
  }

  lemma {:induction false} ChunkTextAppend(accepted: seq<Record>, chunks: seq<(nat, nat)>, c: (nat, nat))
    requires forall i :: 0 <= i < |chunks| ==> chunks[i].0 <= chunks[i].1 <= |accepted|
    requires c.0 <= c.1 <= |accepted|
    ensures ChunkText(accepted, chunks + [c]) == ChunkText(accepted, chunks) + Flatten(accepted[c.0..c.1])
  {
    if chunks == [] {
      assert [c][1..] == [];
    } else {
      ChunkTextAppend(accepted, chunks[1..], c);
      assert (chunks + [c])[1..] == chunks[1..] + [c];
    }
  }

  ghost predicate Emitted(chunks: seq<(nat, nat)>, r: nat) {
    exists i :: 0 <= i < |chunks| && chunks[i].0 <= r < chunks[i].1
  }

  ghost predicate In(l: Logger, idx: nat, r: nat) {
    Held(l, idx).0 <= r < Held(l, idx).1
  }

  /** A record is delivered by now, emitted, or still to be emitted. */
  ghost predicate Covered(l: Logger, r: nat) {
    || r < l.h.taken
    || Emitted(l.h.chunks, r)
    || (match l.p
        case FlushLoading(idx) => In(l, 1, r) || (idx == 0 && In(l, 0, r))
        case FlushEmitting(idx, _, _) => l.h.lo <= r < l.h.hi || (idx == 0 && In(l, 1, r))
        case _ => false)
  }

  ghost predicate Whole(l: Logger) {
    forall i :: 0 <= i < |l.h.chunks| ==> l.h.chunks[i].0 <= l.h.chunks[i].1 <= |l.h.accepted|
  }

  ghost predicate EmittingOk(l: Logger)
    requires InBounds(l)
  {
    l.p.FlushEmitting? ==>
      l.h.lo <= l.h.hi <= |l.h.accepted| && l.bufs[l.p.idx][..l.p.offset] == Text(l, l.h.lo, l.h.hi)
  }

  function Partial(l: Logger): seq<byte>
    requires InBounds(l)
  {
    if l.p.FlushEmitting? then l.bufs[l.p.idx][..l.p.k] else []
  }

  ghost predicate FlushOk(l: Logger)
    requires InBounds(l)
  {
    && Whole(l) && EmittingOk(l)
    && l.h.flushed == ChunkText(l.h.accepted, l.h.chunks) + Partial(l)
    && l.h.flushFrom <= l.h.taken
    && forall r :: l.h.flushFrom <= r < |l.h.accepted| && l.h.accepted[r] != [] ==> Covered(l, r)
  }

  lemma FlushBegins(l: Logger)
    requires Inv(l) && l.p.Resting?
    ensures Inv(Apply(l, PanicFlush)) && FlushOk(Apply(l, PanicFlush))
  {
    StepInv(l, PanicFlush);
    var l' := Apply(l, PanicFlush);
    forall r | l'.h.flushFrom <= r < |l'.h.accepted| && l.h.accepted[r] != [] ensures Covered(l', r) {
      assert In(l', 0, r) || In(l', 1, r);
    }
  }

  /** A record leaves a buffer only by being delivered. */
  lemma StaysUntilDelivered(l: Logger, spurious: bool, idx: nat, r: nat)
    requires Inv(l) && !l.c.Waiting? && idx <= 1 && In(l, idx, r)
    ensures InBounds(ConsumerStep(l, spurious))
    ensures r < ConsumerStep(l, spurious).h.taken || In(ConsumerStep(l, spurious), idx, r)
  {
    ConsumerInv(l, spurious);
    match l.c {
      case Swapping(_) => StaysOverSwap(l, spurious, idx, r);
      case _ => hide ContentsOk, CopyOk, DeliveryOk;
    }
  }

  lemma StaysOverSwap(l: Logger, spurious: bool, idx: nat, r: nat)
    requires InBounds(l) && WordOk(l) && l.c.Swapping? && idx <= 1 && In(l, idx, r)
    requires l.h.taken == l.h.split <= |l.h.accepted|
    ensures r < ConsumerStep(l, spurious).h.taken || In(ConsumerStep(l, spurious), idx, r)
  {
    StateBits(l.state);
  }

  lemma ConsumerKeeps(l: Logger, spurious: bool)
    requires InBounds(l) && !l.c.Waiting? && l.h.taken <= l.h.split
    ensures var l' := ConsumerStep(l, spurious);
      && l'.bufs == l.bufs && l'.p == l.p && l'.h.accepted == l.h.accepted && l'.h.chunks == l.h.chunks
      && l'.h.flushed == l.h.flushed && l'.h.flushFrom == l.h.flushFrom && l.h.taken <= l'.h.taken
      && l'.h.lo == l.h.lo && l'.h.hi == l.h.hi
  {
    match l.c {
      case Watching =>
      case Swapping(_) =>
      case Sizing(_) =>
      case Draining(_, _, _) =>
      case Clearing(_) =>
    }
  }

  lemma ConsumerFlush(l: Logger, spurious: bool)
    requires Inv(l) && FlushOk(l) && !l.c.Waiting?
    ensures Inv(ConsumerStep(l, spurious)) && FlushOk(ConsumerStep(l, spurious))
  {
    ConsumerInv(l, spurious);
    ConsumerKeeps(l, spurious);
    var l' := ConsumerStep(l, spurious);
    hide ConsumerStep, WordOk, ContentsOk, CopyOk, DeliveryOk, Held;
    forall r | l.h.flushFrom <= r < |l.h.accepted| && l.h.accepted[r] != [] ensures Covered(l', r) {
      assert Covered(l, r);
      if In(l, 0, r) { StaysUntilDelivered(l, spurious, 0, r); }
      if In(l, 1, r) { StaysUntilDelivered(l, spurious, 1, r); }
    }
  }

  lemma ProducerFlush(l: Logger, spurious: bool)
    requires Inv(l) && FlushOk(l) && l.p.InFlush()
    ensures Inv(ProducerStep(l, spurious)) && FlushOk(ProducerStep(l, spurious))
  {
    ProducerInv(l, spurious);
    match l.p {
      case FlushLoading(idx) => LoadFlush(l, spurious);
      case FlushEmitting(idx, offset, k) =>
        if k < offset { EmitFlush(l, spurious); } else { NextFlushOk(l, spurious); }
    }
  }

  lemma LoadFlush(l: Logger, spurious: bool)
    requires Inv(l) && FlushOk(l) && l.p.FlushLoading? && Inv(ProducerStep(l, spurious))
    ensures FlushOk(ProducerStep(l, spurious))
  {
    LoadFlushEmits(l, spurious);
    hide WordOk, ContentsOk, CopyOk, DeliveryOk, Covered, Whole, EmittingOk, Partial, ChunkText;
    forall r | l.h.flushFrom <= r < |l.h.accepted| && l.h.accepted[r] != []
      ensures Covered(ProducerStep(l, spurious), r)
    {
      assert Covered(l, r);
      LoadFlushCovers(l, spurious, r);
    }
  }

  lemma LoadFlushEmits(l: Logger, spurious: bool)
    requires InBounds(l) && ContentsOk(l) && l.p.FlushLoading? && InBounds(ProducerStep(l, spurious))
    ensures var l' := ProducerStep(l, spurious);
      && l'.h.accepted == l.h.accepted && l'.h.flushFrom == l.h.flushFrom && l'.h.taken == l.h.taken
      && l'.h.chunks == l.h.chunks && l'.h.flushed == l.h.flushed
      && (Whole(l) ==> Whole(l')) && EmittingOk(l') && Partial(l) == [] == Partial(l')
  {
    hide Covered;
  }

  lemma LoadFlushCovers(l: Logger, spurious: bool, r: nat)
    requires Inv(l) && l.p.FlushLoading? && r < |l.h.accepted| && l.h.accepted[r] != [] && Covered(l, r)
    ensures Covered(ProducerStep(l, spurious), r)
  {
    if l.offsets[l.p.idx] == 0 && In(l, l.p.idx, r) { EmptyHolds(l, l.p.idx, r); }
    hide WordOk, ContentsOk, CopyOk, DeliveryOk;
  }

  /** A buffer without published bytes holds only empty records. */
  lemma EmptyHolds(l: Logger, idx: nat, r: nat)
    requires Inv(l) && idx <= 1 && l.offsets[idx] == 0 && In(l, idx, r)
    ensures l.h.accepted[r] == []
  {
    var (lo, hi) := Held(l, idx);
    assert Published(l, idx) == Text(l, lo, hi);
    EmptyRecords(l.h.accepted[lo..hi], r - lo);
  }

  lemma {:induction false} EmptyRecords(rs: seq<Record>, i: nat)
    requires Flatten(rs) == [] && i < |rs|
    ensures rs[i] == []
  {
    if i > 0 { EmptyRecords(rs[1..], i - 1); }
  }

  lemma EmitFlush(l: Logger, spurious: bool)
    requires Inv(l) && FlushOk(l) && l.p.FlushEmitting? && l.p.k < l.p.offset && Inv(ProducerStep(l, spurious))
    ensures FlushOk(ProducerStep(l, spurious))
  {
    var l' := ProducerStep(l, spurious);
    var FlushEmitting(idx, offset, k) := l.p;
    assert l.bufs[idx][..k + 1] == l.bufs[idx][..k] + [l.bufs[idx][k]];
    hide WordOk, ContentsOk, CopyOk, DeliveryOk;
    forall r | l.h.flushFrom <= r < |l.h.accepted| && l.h.accepted[r] != [] ensures Covered(l', r) {
      assert Covered(l, r);
    }
  }

  lemma NextFlushOk(l: Logger, spurious: bool)
    requires Inv(l) && FlushOk(l) && l.p.FlushEmitting? && l.p.k == l.p.offset && Inv(ProducerStep(l, spurious))
    ensures FlushOk(ProducerStep(l, spurious))
  {
    ChunkEnds(l, spurious);
    hide WordOk, ContentsOk, CopyOk, DeliveryOk, Covered, Whole, EmittingOk, Partial, ChunkText;
    forall r | l.h.flushFrom <= r < |l.h.accepted| && l.h.accepted[r] != []
      ensures Covered(ProducerStep(l, spurious), r)
    {
      assert Covered(l, r);
      NextFlushCovers(l, spurious, r);
    }
  }

  lemma ChunkEnds(l: Logger, spurious: bool)
    requires InBounds(l) && l.p.FlushEmitting? && l.p.k == l.p.offset && Whole(l) && EmittingOk(l)
    requires l.h.flushed == ChunkText(l.h.accepted, l.h.chunks) + Partial(l)
    ensures var l' := ProducerStep(l, spurious);
      && InBounds(l') && Whole(l') && EmittingOk(l') && Partial(l') == []
      && l'.h.flushed == ChunkText(l'.h.accepted, l'.h.chunks)
      && l'.h.flushFrom == l.h.flushFrom && l'.h.taken == l.h.taken && l'.h.accepted == l.h.accepted
  {
    ChunkTextAppend(l.h.accepted, l.h.chunks, (l.h.lo, l.h.hi));
  }

  lemma NextFlushCovers(l: Logger, spurious: bool, r: nat)
    requires InBounds(l) && l.p.FlushEmitting? && l.p.k == l.p.offset && Covered(l, r)
    ensures Covered(ProducerStep(l, spurious), r)
  {
    var l' := ProducerStep(l, spurious);
    if l.h.lo <= r < l.h.hi {
      assert l'.h.chunks[|l.h.chunks|] == (l.h.lo, l.h.hi);
    } else if Emitted(l.h.chunks, r) {
      var i :| 0 <= i < |l.h.chunks| && l.h.chunks[i].0 <= r < l.h.chunks[i].1;
      assert l'.h.chunks[i] == l.h.chunks[i];
    }
  }

  // ---------- The whole flush ----------

  /** Both threads go on, the producer within its flush, until it ends. */
  ghost predicate Flushing(l: Logger, steps: seq<Step>, l': Logger)
    decreases |steps|
  {
    if steps == [] then l' == l
    else
      && InBounds(l) && Enabled(l, steps[0])
      && (!l.p.InFlush() ==> !steps[0].Push? && !steps[0].PanicFlush?)
      && Flushing(Apply(l, steps[0]), steps[1..], l')
  }

  lemma {:induction false} FlushingOk(l: Logger, steps: seq<Step>, l': Logger)
    requires Inv(l) && FlushOk(l) && (l.p.InFlush() || l.p.Resting?) && Flushing(l, steps, l')
    ensures Inv(l') && FlushOk(l') && (l'.p.InFlush() || l'.p.Resting?)
    ensures l'.h.accepted == l.h.accepted && l'.h.flushFrom == l.h.flushFrom
    decreases |steps|
  {
    if steps != [] {
      FlushingStep(l, steps[0]);
      hide FlushOk, WordOk, ContentsOk, CopyOk, DeliveryOk, Apply;
      FlushingOk(Apply(l, steps[0]), steps[1..], l');
    }
  }

  lemma FlushingStep(l: Logger, step: Step)
    requires Inv(l) && FlushOk(l) && (l.p.InFlush() || l.p.Resting?) && Enabled(l, step)
    requires !step.Push? && !step.PanicFlush?
    ensures var l' := Apply(l, step);
      && Inv(l') && FlushOk(l') && (l'.p.InFlush() || l'.p.Resting?)
      && l'.h.accepted == l.h.accepted && l'.h.flushFrom == l.h.flushFrom
  {
    hide FlushOk, WordOk, ContentsOk, CopyOk, DeliveryOk;
    match step {
      case Produce(spurious) => ProducerFlush(l, spurious);
      case Follow(spurious) => ConsumerFlush(l, spurious);
      case Consume => StartConsumeFlush(l);
    }
  }

  lemma StartConsumeFlush(l: Logger)
    requires Inv(l) && FlushOk(l) && l.c.Waiting?
    ensures Inv(Apply(l, Consume)) && FlushOk(Apply(l, Consume))
  {
    StepInv(l, Consume);
    var l' := Apply(l, Consume);
    forall r | l.h.flushFrom <= r < |l.h.accepted| && l.h.accepted[r] != [] ensures Covered(l', r) {
      assert Covered(l, r);
    }
  }

  /** A flush that starts outside `push`, whatever the consumer does meanwhile: when it ends, its output
      is made of whole records in ranges, and every record not delivered at its start is among them or
      has been delivered since. */
  lemma FlushCoversEverything(bufs: seq<seq<byte>>, size: nat, before: seq<Step>, l: Logger,
                              steps: seq<Step>, l': Logger)
    requires Reached(bufs, size, before, l) && l.p.Resting?
    requires InBounds(l) && Flushing(Apply(l, PanicFlush), steps, l') && l'.p.Resting?
    ensures l'.h.accepted == l.h.accepted
    ensures l'.h.taken <= |l'.h.accepted| && Flatten(l'.h.accepted[..l'.h.taken]) <= l'.h.delivered
    ensures Whole(l') && l'.h.flushed == ChunkText(l'.h.accepted, l'.h.chunks)
    ensures forall r :: l.h.taken <= r < |l.h.accepted| && l.h.accepted[r] != [] ==>
              r < l'.h.taken || Emitted(l'.h.chunks, r)
  {
    ReachedInv(bufs, size, before, l);
    FlushBegins(l);
    FlushingOk(Apply(l, PanicFlush), steps, l');
    DeliveredPrefix(l');
    forall r | l.h.taken <= r < |l.h.accepted| && l.h.accepted[r] != []
      ensures r < l'.h.taken || Emitted(l'.h.chunks, r)
    {
      assert Covered(l', r);
    }
  }

  lemma DeliveredPrefix(l: Logger)
    requires Inv(l)
    ensures Flatten(l.h.accepted[..l.h.taken]) <= l.h.delivered
  {
    assert l.h.accepted[0..l.h.taken] == l.h.accepted[..l.h.taken];
    TextSplit(l, 0, l.h.taken, l.h.split);
  }

  // ---------- With the consumer idle ----------

  /** What a flush has emitted so far when the consumer has not moved. */
  ghost predicate AloneOk(l: Logger)
    requires InBounds(l)
  {
    var a := Active(l.state);
    && l.c.Waiting?
    && l.h.flushed == (match l.p
                       case FlushLoading(idx) => if a < idx then Published(l, a) else []
                       case FlushEmitting(_, _, k) => l.bufs[a][..k]
                       case _ => Published(l, a))
    && (l.p.FlushEmitting? ==> l.p.idx == a && l.p.offset == l.offsets[a])
  }

  lemma AloneStep(l: Logger)
    requires Inv(l) && l.p.InFlush() && AloneOk(l)
    ensures var l' := ProducerStep(l, false);
      && Inv(l') && AloneOk(l') && (l'.p.InFlush() || l'.p.Resting?)
      && l'.state == l.state && l'.bufs == l.bufs && l'.offsets == l.offsets && l'.h.accepted == l.h.accepted
      && l'.h.taken == l.h.taken
  {
    ProducerInv(l, false);
    StateBits(l.state);
    hide WordOk, CopyOk, DeliveryOk, Text;
    if l.p.FlushEmitting? && l.p.k < l.p.offset {
      assert l.bufs[l.p.idx][..l.p.k + 1] == l.bufs[l.p.idx][..l.p.k] + [l.bufs[l.p.idx][l.p.k]];
    }
  }

  ghost predicate ProducerOnly(l: Logger, steps: seq<Step>, l': Logger)
    decreases |steps|
  {
    if steps == [] then l' == l
    else InBounds(l) && l.p.InFlush() && steps[0].Produce? && ProducerOnly(ProducerStep(l, false), steps[1..], l')
  }

  lemma {:induction false} AloneRun(l: Logger, steps: seq<Step>, l': Logger)
    requires Inv(l) && (l.p.InFlush() || l.p.Resting?) && AloneOk(l) && ProducerOnly(l, steps, l')
    ensures Inv(l') && AloneOk(l') && l'.state == l.state && l'.bufs == l.bufs && l'.offsets == l.offsets
    ensures l'.h.accepted == l.h.accepted && l'.h.taken == l.h.taken
    decreases |steps|
  {
    if steps != [] {
      AloneStep(l);
      AloneRun(ProducerStep(l, false), steps[1..], l');
    }
  }

  /** With the consumer idle throughout, a flush emits exactly the bytes not delivered yet. */
  lemma FlushAlone(bufs: seq<seq<byte>>, size: nat, before: seq<Step>, l: Logger, steps: seq<Step>, l': Logger)
    requires Reached(bufs, size, before, l) && l.p.Resting? && l.c.Waiting?
    requires InBounds(l) && ProducerOnly(Apply(l, PanicFlush), steps, l') && l'.p.Resting?
    ensures Flatten(l.h.accepted) == l.h.delivered + l'.h.flushed
  {
    ReachedInv(bufs, size, before, l);
    NothingLostOrReordered(bufs, size, before, l);
    StepInv(l, PanicFlush);
    var m := Apply(l, PanicFlush);
    hide WordOk, ContentsOk, CopyOk, DeliveryOk, Text, Flatten, Reached;
    AloneRun(m, steps, l');
    assert Published(l', Active(l'.state)) == Published(l, Active(l.state));
    assert l.h.delivered + [] + Published(l, Active(l.state)) == l.h.delivered + Published(l, Active(l.state));
  }
}
