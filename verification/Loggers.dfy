/** The logger in place: each atomic operation on the shared words and buffers, and the three calls
    built from them, with the other thread running in between. */
module Loggers {
  import opened Protocol
  import opened LoggerModel
  import opened LoggerInvariant
  import opened LoggerRuns
  import opened LoggerFlush

  /** What happens before an operation: the other thread makes some steps, and the weak compare-exchange
      is told whether to fail for no reason. */
  datatype Turn = Turn(others: seq<Step>, spurious: bool)

  /** A step of the producer that the consumer can see: only more records are accepted. */
  lemma ProducerLeaves(l: Logger, step: Step)
    requires Inv(l) && Enabled(l, step) && !step.Consume? && !step.Follow?
    ensures var l' := Apply(l, step);
      && Inv(l') && l'.c == l.c && l.h.accepted <= l'.h.accepted
      && l'.h.taken == l.h.taken && l'.h.split == l.h.split && l'.h.delivered == l.h.delivered
  {
    StepInv(l, step);
    if step.Produce? { HistoryAfter(l, step.spurious); }
    hide Inv, InBounds, ProducerStep;
  }

  /** A step of the consumer that the producer can see: while the writer bit is set, not even the state word
      and the active buffer's offset move, and a flush keeps covering what it has to. */
  lemma ConsumerLeaves(l: Logger, step: Step)
    requires Inv(l) && Enabled(l, step) && (step.Consume? || step.Follow?)
    ensures var l' := Apply(l, step);
      && Inv(l') && InBounds(l') && l'.p == l.p && l'.h.accepted == l.h.accepted && l'.h.flushFrom == l.h.flushFrom
      && (l.p.InPush() ==> l'.state == l.state && l'.offsets[Active(l.state)] == l.offsets[Active(l.state)])
      && (l.p.InFlush() && FlushOk(l) ==> FlushOk(l'))
  {
    StepInv(l, step);
    if step.Follow? {
      ConsumerKeeps(l, step.spurious);
      if l.p.InPush() { WriterHoldsStill(l, step.spurious); }
    }
    hide FlushOk, ContentsOk, CopyOk, DeliveryOk, WordOk, Apply;
    if l.p.InFlush() && FlushOk(l) { FlushingStep(l, step); }
  }

  lemma WriterHoldsStill(l: Logger, spurious: bool)
    requires InBounds(l) && WordOk(l) && l.p.InPush() && !l.c.Waiting?
    ensures var l' := ConsumerStep(l, spurious);
      l'.state == l.state && |l'.offsets| == 2 && l'.offsets[Active(l.state)] == l.offsets[Active(l.state)]
  {
    StateBits(l.state);
  }

  lemma FlattenPrefix(a: seq<Record>, b: seq<Record>)
    requires a <= b
    ensures Flatten(a) <= Flatten(b)
  {
    FlattenAppend(a, b[|a|..]);
    assert a + b[|a|..] == b;
  }

  lemma FlushStepKeeps(l: Logger)
    requires Inv(l) && l.p.InFlush()
    ensures var l' := ProducerStep(l, false);
      && Inv(l') && (FlushOk(l) ==> FlushOk(l')) && (AloneOk(l) ==> AloneOk(l'))
      && l'.h.accepted == l.h.accepted && l'.h.flushFrom == l.h.flushFrom
      && l'.h.taken == l.h.taken && l'.h.delivered == l.h.delivered
  {
    ProducerInv(l, false);
    FlushStepShape(l, false);
    if FlushOk(l) { ProducerFlush(l, false); }
    if AloneOk(l) { AloneStep(l); }
  }

  class SharedLogger {
    const size: nat
    var state: bv16
    const offsets: array<nat>
    const buf0: array<byte>
    const buf1: array<byte>

    /** Where the two threads are, and what their callbacks were given. */
    var p: Producer
    var c: Consumer
    var delivered: seq<byte>
    var flushed: seq<byte>

    ghost var h: History
    ghost var trace: seq<Step>
    ghost const start: seq<seq<byte>>

    ghost function View(): Logger
      requires offsets.Length == 2
      reads this, offsets, buf0, buf1
    {
      Logger(size, state, offsets[..], [buf0[..], buf1[..]], p, c, h)
    }

    /** Everything that happened is a run of the model. */
    ghost predicate Valid()
      reads this, offsets, buf0, buf1
    {
      && offsets.Length == 2 && buf0 != buf1
      && h.delivered == delivered && h.flushed == flushed
      && Reached(start, size, trace, View())
    }

    constructor (size: nat)
      requires 0x1000 <= size && size % 0x1000 == 0
      ensures Valid() && this.size == size && p.Resting? && c.Waiting? && h.accepted == []
      ensures state == 0 && offsets[..] == [0, 0] && delivered == [] && flushed == []
      ensures fresh(offsets) && fresh(buf0) && fresh(buf1)
    {
      var b0 := new byte[size];
      var b1 := new byte[size];
      this.size, state, p, c, delivered, flushed := size, 0, Resting, Waiting, [], [];
      offsets := new nat[2](_ => 0);
      buf0, buf1, trace, start := b0, b1, [], [b0[..], b1[..]];
      h := History([], 0, 0, [], 0, [], 0, 0, []);
      new;
      assert offsets[..] == [0, 0];
    }

    /** This one operation happened, as the model says. */
    twostate predicate Took(step: Step)
      reads this, offsets, buf0, buf1
    {
      && Valid() && old(Valid()) && trace == old(trace) + [step]
      && InBounds(old(View())) && Enabled(old(View()), step) && View() == Apply(old(View()), step)
    }

    /** The model's step matches what was done to the fields. */
    lemma Extended(was: Logger, before: seq<Step>, step: Step)
      requires offsets.Length == 2 && buf0 != buf1 && h.delivered == delivered && h.flushed == flushed
      requires Reached(start, size, before, was) && Enabled(was, step) && trace == before + [step]
      requires InBounds(was) ==> View() == Apply(was, step)
      ensures Valid() && Inv(was)
    {
      ReachedInv(start, size, before, was);
      RunSnoc(Begin(start, size), before, was, step);
    }

    lemma WordFacts()
      requires Valid()
      ensures state in {0, 1, 0x100, 0x101} && h.split <= |h.accepted|
      ensures p.Measuring? ==> p.idx == Active(state)
      ensures c.Clearing? ==> delivered == Flatten(h.accepted[..h.split])
    {
      ReachedInv(start, size, trace, View());
      if c.Clearing? { ConsumeDelivers(View(), false); }
    }

    /** Invariants of a flush: with the consumer running, and with it idle. */
    ghost predicate Covers()
      requires offsets.Length == 2
      reads this, offsets, buf0, buf1
    {
      InBounds(View()) && FlushOk(View())
    }

    ghost predicate Alone()
      requires offsets.Length == 2
      reads this, offsets, buf0, buf1
    {
      InBounds(View()) && AloneOk(View())
    }

    twostate predicate FlushKept()
      requires offsets.Length == 2
      reads this, offsets, buf0, buf1
    {
      && (old(Covers()) ==> Covers()) && (old(Alone()) ==> Alone())
      && h.accepted == old(h.accepted) && h.flushFrom == old(h.flushFrom)
      && h.taken == old(h.taken) && delivered == old(delivered)
    }

    /** What a flush has done once it is over. */
    lemma FlushOver()
      requires Valid() && p.Resting?
      ensures Covers() ==> Whole(View()) && flushed == ChunkText(h.accepted, h.chunks)
      ensures Covers() ==> forall r :: h.flushFrom <= r < |h.accepted| && h.accepted[r] != [] ==>
                             r < h.taken || Emitted(h.chunks, r)
      ensures Alone() ==> Flatten(h.accepted) == delivered + flushed
      ensures h.taken <= |h.accepted| && Flatten(h.accepted[..h.taken]) <= delivered
    {
      ReachedInv(start, size, trace, View());
      DeliveredPrefix(View());
      if Alone() { NothingLostOrReordered(start, size, trace, View()); }
      if Covers() {
        forall r | h.flushFrom <= r < |h.accepted| && h.accepted[r] != []
          ensures r < h.taken || Emitted(h.chunks, r)
        {
          assert Covered(View(), r);
        }
      }
    }

    // ---------- The producer's operations ----------

    method LoadState()
      requires Valid() && p.Loading?
      modifies this`p, this`trace
      ensures Valid() && old(trace) <= trace && Took(Produce(false))
      ensures p == Exchanging(old(p.data), state)
    {
      p := Exchanging(p.data, state);
      trace := trace + [Produce(false)];
      Extended(old(View()), old(trace), Produce(false));
    }

    method CompareExchangeWeak(spurious: bool) returns (won: bool)
      requires Valid() && p.Exchanging?
      modifies this`p, this`state, this`trace
      ensures Valid() && old(trace) <= trace && Took(Produce(spurious))
      ensures won <==> !spurious && old(state) == old(p).curr
      ensures p == if won then Measuring(old(p.data), Active(old(p).curr)) else Loading(old(p.data))
    {
      won := !spurious && state == p.curr;
      if won {
        state := WRITER_BIT | (p.curr & INDEX_MASK);
        p := Measuring(p.data, Active(p.curr));
      } else {
        p := Loading(p.data);
      }
      trace := trace + [Produce(spurious)];
      Extended(old(View()), old(trace), Produce(spurious));
    }

    method LoadOffset()
      requires Valid() && p.Measuring?
      modifies this`p, this`trace
      ensures Valid() && old(trace) <= trace && Took(Produce(false))
      ensures p.Copying? ==> p == Copying(old(p.data), old(p).idx, offsets[old(p).idx], 0)
      ensures !p.Copying? ==> p == Releasing(false) && old(p).idx <= 1 && offsets[old(p).idx] + |old(p.data)| > size
    {
      ReachedInv(start, size, trace, View());
      var offset := offsets[p.idx];
      p := if offset + |p.data| > size then Releasing(false) else Copying(p.data, p.idx, offset, 0);
      trace := trace + [Produce(false)];
      Extended(old(View()), old(trace), Produce(false));
    }

    method CopyByte()
      requires Valid() && p.Copying? && p.k < |p.data|
      modifies this`p, this`trace, buf0, buf1
      ensures Valid() && old(trace) <= trace && Took(Produce(false))
      ensures var Copying(data, idx, offset, k) := old(p); p == Copying(data, idx, offset, k + 1)
    {
      ReachedInv(start, size, trace, View());
      var Copying(data, idx, offset, k) := p;
      assert |View().bufs[0]| == buf0.Length && |View().bufs[1]| == buf1.Length;
      if idx == 0 { buf0[offset + k] := data[k]; } else { buf1[offset + k] := data[k]; }
      p := Copying(data, idx, offset, k + 1);
      trace := trace + [Produce(false)];
      Extended(old(View()), old(trace), Produce(false));
    }

    method FetchAdd()
      requires Valid() && p.Copying? && p.k == |p.data|
      modifies this`p, this`h, this`trace, offsets
      ensures Valid() && old(trace) <= trace && Took(Produce(false))
      ensures p == Releasing(true) && h.accepted == old(h.accepted) + [old(p.data)]
    {
      ReachedInv(start, size, trace, View());
      offsets[p.idx] := offsets[p.idx] + |p.data|;
      h := h.(accepted := h.accepted + [p.data]);
      p := Releasing(true);
      trace := trace + [Produce(false)];
      Extended(old(View()), old(trace), Produce(false));
    }

    method ClearWriter()
      requires Valid() && p.Releasing?
      modifies this`p, this`state, this`trace
      ensures Valid() && old(trace) <= trace && Took(Produce(false))
      ensures p.Resting? && state == old(state) & !WRITER_BIT
    {
      state := state & !WRITER_BIT;
      p := Resting;
      trace := trace + [Produce(false)];
      Extended(old(View()), old(trace), Produce(false));
    }

    method LoadFlushOffset()
      requires Valid() && p.FlushLoading?
      modifies this`p, this`h, this`trace
      ensures Valid() && old(trace) <= trace && Took(Produce(false))
      ensures p == if offsets[old(p).idx] > 0 then FlushEmitting(old(p).idx, offsets[old(p).idx], 0)
                   else NextFlush(old(p).idx)
      ensures FlushKept()
    {
      ReachedInv(start, size, trace, View());
      var idx, offset := p.idx, offsets[p.idx];
      if offset > 0 {
        h := h.(lo := Held(View(), idx).0, hi := Held(View(), idx).1);
        p := FlushEmitting(idx, offset, 0);
      } else {
        p := NextFlush(idx);
      }
      trace := trace + [Produce(false)];
      Extended(old(View()), old(trace), Produce(false));
      FlushStepKeeps(old(View()));
    }

    method FlushByte()
      requires Valid() && p.FlushEmitting? && p.k < p.offset
      modifies this`p, this`h, this`flushed, this`trace
      ensures Valid() && old(trace) <= trace && Took(Produce(false))
      ensures var FlushEmitting(idx, offset, k) := old(p); p == FlushEmitting(idx, offset, k + 1)
      ensures FlushKept()
    {
      ReachedInv(start, size, trace, View());
      var FlushEmitting(idx, offset, k) := p;
      assert |View().bufs[0]| == buf0.Length && |View().bufs[1]| == buf1.Length;
      flushed := flushed + [if idx == 0 then buf0[k] else buf1[k]];
      h := h.(flushed := flushed);
      p := FlushEmitting(idx, offset, k + 1);
      trace := trace + [Produce(false)];
      Extended(old(View()), old(trace), Produce(false));
      FlushStepKeeps(old(View()));
    }

    method EndChunk()
      requires Valid() && p.FlushEmitting? && p.k == p.offset
      modifies this`p, this`h, this`trace
      ensures Valid() && old(trace) <= trace && Took(Produce(false))
      ensures p == NextFlush(old(p).idx)
      ensures FlushKept()
    {
      h := h.(chunks := h.chunks + [(h.lo, h.hi)]);
      p := NextFlush(p.idx);
      trace := trace + [Produce(false)];
      Extended(old(View()), old(trace), Produce(false));
      FlushStepKeeps(old(View()));
    }

    // ---------- The consumer's operations ----------

    method LoadWord()
      requires Valid() && c.Watching?
      modifies this`c, this`trace
      ensures Valid() && old(trace) <= trace && Took(Follow(false))
      ensures c == if Writing(state) then Watching else Swapping(state)
    {
      if !Writing(state) { c := Swapping(state); }
      trace := trace + [Follow(false)];
      Extended(old(View()), old(trace), Follow(false));
    }

    method SwapBuffers(spurious: bool)
      requires Valid() && c.Swapping?
      modifies this`c, this`state, this`h, this`trace
      ensures Valid() && old(trace) <= trace && Took(Follow(spurious))
      ensures h.accepted == old(h.accepted) && delivered == old(delivered)
      ensures if !spurious && old(state) == old(c).curr then c.Sizing? && h.split == |h.accepted| else c.Watching?
    {
      if !spurious && state == c.curr {
        var idx := Active(c.curr);
        state := if idx == 0 then 1 else 0;
        h := h.(taken := h.split, split := |h.accepted|);
        c := Sizing(idx);
      } else {
        c := Watching;
      }
      trace := trace + [Follow(spurious)];
      Extended(old(View()), old(trace), Follow(spurious));
    }

    method LoadTaken()
      requires Valid() && c.Sizing?
      modifies this`c, this`trace
      ensures Valid() && old(trace) <= trace && Took(Follow(false))
      ensures c.Draining? ==> c.k == 0 <= c.offset
      ensures c.Draining? || c.Clearing?
    {
      ReachedInv(start, size, trace, View());
      var idx, offset := c.idx, offsets[c.idx];
      c := if offset > 0 then Draining(idx, offset, 0) else Clearing(idx);
      trace := trace + [Follow(false)];
      Extended(old(View()), old(trace), Follow(false));
    }

    method DeliverByte()
      requires Valid() && c.Draining? && c.k < c.offset
      modifies this`c, this`h, this`delivered, this`trace
      ensures Valid() && old(trace) <= trace && Took(Follow(false))
      ensures var Draining(idx, offset, k) := old(c); c == Draining(idx, offset, k + 1)
      ensures h.accepted == old(h.accepted) && h.split == old(h.split)
    {
      ReachedInv(start, size, trace, View());
      var Draining(idx, offset, k) := c;
      assert |View().bufs[0]| == buf0.Length && |View().bufs[1]| == buf1.Length;
      delivered := delivered + [if idx == 0 then buf0[k] else buf1[k]];
      h := h.(delivered := delivered);
      c := Draining(idx, offset, k + 1);
      trace := trace + [Follow(false)];
      Extended(old(View()), old(trace), Follow(false));
    }

    method EndDelivery()
      requires Valid() && c.Draining? && c.k == c.offset
      modifies this`c, this`trace
      ensures Valid() && old(trace) <= trace && Took(Follow(false))
      ensures c.Clearing?
    {
      c := Clearing(c.idx);
      trace := trace + [Follow(false)];
      Extended(old(View()), old(trace), Follow(false));
    }

    method StoreZero()
      requires Valid() && c.Clearing?
      modifies this`c, this`h, this`trace, offsets
      ensures Valid() && old(trace) <= trace && Took(Follow(false))
      ensures c.Waiting? && h == old(h).(taken := old(h).split)
    {
      ReachedInv(start, size, trace, View());
      offsets[c.idx] := 0;
      h := h.(taken := h.split);
      c := Waiting;
      trace := trace + [Follow(false)];
      Extended(old(View()), old(trace), Follow(false));
    }

    // ---------- The other thread ----------

    /** The producer's next operation, wherever it is. */
    method ProducerMoves(spurious: bool) returns (ghost step: Step)
      requires Valid() && !p.Resting?
      modifies this`p, this`state, this`h, this`flushed, this`trace, offsets, buf0, buf1
      ensures Valid() && old(trace) <= trace && Took(step) && step.Produce?
    {
      ReachedInv(start, size, trace, View());
      step := Produce(if p.Exchanging? then spurious else false);
      match p {
        case Loading(_) => LoadState();
        case Exchanging(_, _) => var _ := CompareExchangeWeak(spurious);
        case Measuring(_, _) => LoadOffset();
        case Copying(data, _, _, k) => if k < |data| { CopyByte(); } else { FetchAdd(); }
        case Releasing(_) => ClearWriter();
        case FlushLoading(_) => LoadFlushOffset();
        case FlushEmitting(_, offset, k) => if k < offset { FlushByte(); } else { EndChunk(); }
      }
    }

    method ConsumerMoves(spurious: bool) returns (ghost step: Step)
      requires Valid() && !c.Waiting?
      modifies this`c, this`state, this`h, this`delivered, this`trace, offsets
      ensures Valid() && old(trace) <= trace && Took(step) && step.Follow?
    {
      ReachedInv(start, size, trace, View());
      step := Follow(if c.Swapping? then spurious else false);
      match c {
        case Watching => LoadWord();
        case Swapping(_) => SwapBuffers(spurious);
        case Sizing(_) => LoadTaken();
        case Draining(_, offset, k) => if k < offset { DeliverByte(); } else { EndDelivery(); }
        case Clearing(_) => StoreZero();
      }
    }

    method StartPush(data: Record)
      requires Valid() && p.Resting?
      modifies this`p, this`trace
      ensures Valid() && old(trace) <= trace && Took(Step.Push(data))
      ensures p == Loading(data)
    {
      p := Loading(data);
      trace := trace + [Step.Push(data)];
      Extended(old(View()), old(trace), Step.Push(data));
    }

    method StartFlush()
      requires Valid() && p.Resting?
      modifies this`p, this`h, this`flushed, this`trace
      ensures Valid() && old(trace) <= trace && Took(Step.PanicFlush)
      ensures p == FlushLoading(0) && Covers() && (c.Waiting? ==> Alone())
      ensures h.flushFrom == old(h.taken) && h.accepted == old(h.accepted)
    {
      p, flushed := FlushLoading(0), [];
      h := h.(flushFrom := h.taken, chunks := [], flushed := []);
      trace := trace + [Step.PanicFlush];
      Extended(old(View()), old(trace), Step.PanicFlush);
      FlushBegins(old(View()));
    }

    method StartConsume()
      requires Valid() && c.Waiting?
      modifies this`c, this`trace
      ensures Valid() && old(trace) <= trace && Took(Step.Consume)
      ensures c.Watching?
    {
      c := Watching;
      trace := trace + [Step.Consume];
      Extended(old(View()), old(trace), Step.Consume);
    }

    /** One step of the consumer, if it can make it now. */
    method ConsumerMakes(other: Step)
      requires Valid()
      modifies this`c, this`state, this`h, this`delivered, this`trace, offsets
      ensures Valid() && old(trace) <= trace && p == old(p)
      ensures h.accepted == old(h.accepted) && h.flushFrom == old(h.flushFrom)
      ensures p.InPush() ==> state == old(state) && offsets[Active(state)] == old(offsets[Active(state)])
      ensures p.InFlush() && old(Covers()) ==> Covers()
    {
      hide Apply, Reached, Enabled, WordOk, ContentsOk, CopyOk, DeliveryOk, FlushOk, Flatten;
      ReachedInv(start, size, trace, View());
      ghost var was := View();
      match other {
        case Consume =>
          if c.Waiting? {
            StartConsume();
            ConsumerLeaves(was, Step.Consume);
          }
        case Follow(spurious) =>
          if !c.Waiting? {
            ghost var step := ConsumerMoves(spurious);
            ConsumerLeaves(was, step);
          }
        case _ =>
      }
    }

    /** The consumer thread runs for a while; steps it cannot make now are skipped. */
    method ConsumerTurn(others: seq<Step>)
      requires Valid()
      modifies this`c, this`state, this`h, this`delivered, this`trace, offsets
      ensures Valid() && old(trace) <= trace && p == old(p)
      ensures h.accepted == old(h.accepted) && h.flushFrom == old(h.flushFrom)
      ensures p.InPush() ==> state == old(state) && offsets[Active(state)] == old(offsets[Active(state)])
      ensures p.InFlush() && old(Covers()) ==> Covers()
      ensures others == [] ==> View() == old(View())
    {
      hide Reached, View, Covers;
      for i := 0 to |others|
        invariant Valid() && old(trace) <= trace && p == old(p)
        invariant h.accepted == old(h.accepted) && h.flushFrom == old(h.flushFrom)
        invariant p.InPush() ==> state == old(state) && offsets[Active(state)] == old(offsets[Active(state)])
        invariant p.InFlush() && old(Covers()) ==> Covers()
        invariant others == [] ==> View() == old(View())
      {
        ConsumerMakes(others[i]);
      }
    }

    method ProducerTurn(others: seq<Step>)
      requires Valid()
      modifies this`p, this`state, this`h, this`flushed, this`trace, offsets, buf0, buf1
      ensures Valid() && old(trace) <= trace && c == old(c) && InBounds(old(View()))
      ensures old(h.accepted) <= h.accepted && h.taken == old(h.taken) && h.split == old(h.split)
      ensures delivered == old(delivered)
      ensures others == [] ==> View() == old(View())
    {
      ReachedInv(start, size, trace, View());
      for i := 0 to |others|
        invariant Valid() && Inv(View()) && old(trace) <= trace && c == old(c)
        invariant old(h.accepted) <= h.accepted && h.taken == old(h.taken) && h.split == old(h.split)
        invariant delivered == old(delivered)
        invariant others == [] ==> View() == old(View())
      {
        ghost var was := View();
        match others[i] {
          case Push(data) => if p.Resting? { StartPush(data); ProducerLeaves(was, Step.Push(data)); }
          case PanicFlush => if p.Resting? { StartFlush(); ProducerLeaves(was, Step.PanicFlush); }
          case Produce(spurious) =>
            if !p.Resting? { ghost var step := ProducerMoves(spurious); ProducerLeaves(was, step); }
          case _ =>
        }
      }
    }

    // ---------- The calls ----------

    /** `turns` says what happens in between; once it is used up nothing interferes any more. */
    method ProducerPauses(turns: seq<Turn>) returns (rest: seq<Turn>, spurious: bool)
      requires Valid()
      modifies this`c, this`state, this`h, this`delivered, this`trace, offsets
      ensures Valid() && old(trace) <= trace && p == old(p) && h.accepted == old(h.accepted)
      ensures p.InFlush() && old(Covers()) ==> Covers() && h.flushFrom == old(h.flushFrom)
      ensures turns == [] ==> (old(Alone()) ==> Alone()) && delivered == old(delivered)
      ensures p.InPush() ==> state == old(state) && offsets[Active(state)] == old(offsets[Active(state)])
      ensures |rest| < |turns| || (rest == turns == [] && !spurious && state == old(state))
    {
      var others;
      rest, others, spurious := if turns == [] then [] else turns[1..],
        if turns == [] then [] else turns[0].others, turns != [] && turns[0].spurious;
      ghost var was := View();
      ConsumerTurn(others);
      assert others == [] ==> View() == was && View().state == was.state && View().h == was.h;
    }

    method ConsumerPauses(turns: seq<Turn>) returns (rest: seq<Turn>, spurious: bool)
      requires Valid()
      modifies this`p, this`state, this`h, this`flushed, this`trace, offsets, buf0, buf1
      ensures Valid() && old(trace) <= trace && c == old(c)
      ensures old(h.accepted) <= h.accepted && h.split == old(h.split) && delivered == old(delivered)
      ensures |rest| < |turns| || (rest == turns == [] && !spurious && state == old(state))
    {
      var others;
      rest, others, spurious := if turns == [] then [] else turns[1..],
        if turns == [] then [] else turns[0].others, turns != [] && turns[0].spurious;
      ghost var was := View();
      ProducerTurn(others);
      assert others == [] ==> View().state == was.state;
    }

    /** Accepts the record whole or not at all, and refuses it only when it does not fit behind what the
        active buffer holds. */
    method Push(data: Record, turns: seq<Turn>) returns (ok: bool)
      requires Valid() && p.Resting?
      modifies this, offsets, buf0, buf1
      ensures Valid() && p.Resting? && old(trace) <= trace
      ensures h.accepted == old(h.accepted) + if ok then [data] else []
      ensures !ok ==> offsets[Active(state)] + |data| > size
    {
      hide Took, View, Apply, Reached, InBounds, Enabled, WordOk, ContentsOk, CopyOk, DeliveryOk, Flatten;
      StartPush(data);
      var left := turns;
      while true
        invariant Valid() && p == Loading(data) && old(trace) <= trace && h.accepted == old(h.accepted)
        decreases |left|
      {
        var spurious;
        left, spurious := ProducerPauses(left);
        LoadState();
        left, spurious := ProducerPauses(left);
        var won := CompareExchangeWeak(spurious);
        if won {
          ok := WriteAndRelease(data, left);
          return;
        }
      }
    }

    /** The part of `push` between setting the writer bit and clearing it. */
    method WriteAndRelease(data: Record, turns: seq<Turn>) returns (ok: bool)
      requires Valid() && p.Measuring? && p.data == data
      modifies this, offsets, buf0, buf1
      ensures Valid() && p.Resting? && old(trace) <= trace
      ensures h.accepted == old(h.accepted) + if ok then [data] else []
      ensures !ok ==> offsets[Active(state)] + |data| > size
    {
      hide Took, View, Apply, Reached, InBounds, Enabled, WordOk, ContentsOk, CopyOk, DeliveryOk, Flatten;
      var left, spurious := ProducerPauses(turns);
      WordFacts();
      LoadOffset();
      ok := p.Copying?;
      if ok {
        while p.k < |data|
          invariant Valid() && p.Copying? && p.data == data && p.k <= |data|
          invariant old(trace) <= trace && h.accepted == old(h.accepted)
          decreases |data| - p.k
        {
          left, spurious := ProducerPauses(left);
          CopyByte();
        }
        left, spurious := ProducerPauses(left);
        FetchAdd();
      }
      left, spurious := ProducerPauses(left);
      WordFacts();
      StateBits(state);
      ClearWriter();
    }

    /** Delivers at least every record accepted before the call; if the turns run out while the producer
        is inside `push` the consumer keeps spinning and has delivered nothing. */
    method Consume(turns: seq<Turn>) returns (done: bool)
      requires Valid() && c.Waiting?
      modifies this, offsets, buf0, buf1
      ensures Valid() && old(trace) <= trace && old(h.accepted) <= h.accepted
      ensures done ==> c.Waiting? && Flatten(old(h.accepted)) <= delivered
      ensures !done ==> c.Watching? && Writing(state) && delivered == old(delivered)
    {
      hide Took, View, Apply, Reached, InBounds, Enabled, WordOk, ContentsOk, CopyOk, DeliveryOk, Flatten;
      StartConsume();
      var left := turns;
      while true
        invariant Valid() && c.Watching? && old(trace) <= trace && old(h.accepted) <= h.accepted
        invariant delivered == old(delivered)
        decreases |left|
      {
        if left == [] && Writing(state) { return false; }
        var spurious;
        left, spurious := ConsumerPauses(left);
        LoadWord();
        if c.Watching? { continue; }
        left, spurious := ConsumerPauses(left);
        SwapBuffers(spurious);
        if c.Sizing? {
          DrainAndReturn(left);
          FlattenPrefix(old(h.accepted), h.accepted[..h.taken]);
          return true;
        }
      }
    }

    /** The part of `consume` that holds a buffer. */
    method DrainAndReturn(turns: seq<Turn>)
      requires Valid() && c.Sizing?
      modifies this, offsets, buf0, buf1
      ensures Valid() && c.Waiting? && old(trace) <= trace && old(h.accepted) <= h.accepted
      ensures h.taken == old(h.split) <= |old(h.accepted)| && delivered == Flatten(h.accepted[..h.taken])
    {
      hide Took, View, Apply, Reached, InBounds, Enabled, WordOk, ContentsOk, CopyOk, DeliveryOk, Flatten;
      WordFacts();
      var left, spurious := ConsumerPauses(turns);
      LoadTaken();
      if c.Draining? {
        while c.k < c.offset
          invariant Valid() && c.Draining? && c.k <= c.offset
          invariant old(trace) <= trace && old(h.accepted) <= h.accepted && h.split == old(h.split)
          decreases c.offset - c.k
        {
          left, spurious := ConsumerPauses(left);
          DeliverByte();
        }
        EndDelivery();
      }
      left, spurious := ConsumerPauses(left);
      WordFacts();
      StoreZero();
    }

    /** Whatever the consumer does meanwhile, every record not delivered at the start has been delivered or
        emitted by the end, and only whole records are emitted; with the consumer idle, exactly the
        undelivered bytes come out. */
    method PanicFlush(turns: seq<Turn>)
      requires Valid() && p.Resting?
      modifies this, offsets, buf0, buf1
      ensures Valid() && p.Resting? && old(trace) <= trace && h.accepted == old(h.accepted)
      ensures Whole(View()) && flushed == ChunkText(h.accepted, h.chunks)
      ensures forall r :: old(h.taken) <= r < |h.accepted| && h.accepted[r] != [] ==>
                r < h.taken || Emitted(h.chunks, r)
      ensures h.taken <= |h.accepted| && Flatten(h.accepted[..h.taken]) <= delivered
      ensures turns == [] && old(c).Waiting? ==>
                delivered == old(delivered) && Flatten(h.accepted) == delivered + flushed
    {
      hide Took, View, Apply, Reached, InBounds, Enabled, WordOk, ContentsOk, CopyOk, DeliveryOk, Flatten;
      hide FlushOk, AloneOk, Covers, Alone, ChunkText;
      StartFlush();
      var left, unused := turns, false;
      for idx := 0 to 2
        invariant Valid() && old(trace) <= trace && h.accepted == old(h.accepted)
        invariant Covers() && h.flushFrom == old(h.taken)
        invariant turns == [] && old(c).Waiting? ==> left == [] && Alone() && delivered == old(delivered)
        invariant p == if idx == 2 then Resting else FlushLoading(idx)
      {
        left, unused := ProducerPauses(left);
        LoadFlushOffset();
        if p == NextFlush(idx) { continue; }
        while p.k < p.offset
          invariant Valid() && old(trace) <= trace && h.accepted == old(h.accepted)
          invariant Covers() && h.flushFrom == old(h.taken)
          invariant turns == [] && old(c).Waiting? ==> left == [] && Alone() && delivered == old(delivered)
          invariant p.FlushEmitting? && p.idx == idx && p.k <= p.offset
          decreases p.offset - p.k
        {
          left, unused := ProducerPauses(left);
          FlushByte();
        }
        left, unused := ProducerPauses(left);
        EndChunk();
      }
      FlushOver();
    }
  }
}
