/** The double-buffered logger: one producer thread, one consumer thread, one atomic operation a step. */
module LoggerModel {
  import opened Protocol

  const WRITER_BIT: bv16 := 0x100
  const INDEX_MASK: bv16 := 1

  type Record = seq<byte>

  function Flatten(rs: seq<Record>): seq<byte> {
    if rs == [] then [] else rs[0] + Flatten(rs[1..])
  }

  function Active(state: bv16): (i: nat)
    ensures i <= 1
  {
    if state & INDEX_MASK == 0 then 0 else 1
  }

  predicate Writing(state: bv16) { state & WRITER_BIT != 0 }

  /** Where the producer thread is. `Copying` writes the record one byte at a time; the two flush states
      are `panic_flush` reading an offset and handing a buffer's bytes to the callback. */
  datatype Producer =
    | Resting
    | Loading(data: Record)
    | Exchanging(data: Record, curr: bv16)
    | Measuring(data: Record, idx: nat)
    | Copying(data: Record, idx: nat, offset: nat, k: nat)
    | Releasing(ok: bool)
    | FlushLoading(idx: nat)
    | FlushEmitting(idx: nat, offset: nat, k: nat)
  {
    /** Between the exchange that sets the writer bit and the operation that clears it. */
    predicate InPush() { Measuring? || Copying? || Releasing? }
    predicate InFlush() { FlushLoading? || FlushEmitting? }
  }

  datatype Consumer =
    | Waiting
    | Watching
    | Swapping(curr: bv16)
    | Sizing(idx: nat)
    | Draining(idx: nat, offset: nat, k: nat)
    | Clearing(idx: nat)
  {
    /** Between the exchange that takes a buffer and the store that gives it back. */
    predicate Holds() { Sizing? || Draining? || Clearing? }
  }

  /** `accepted` is every record pushed so far: those before `taken` are delivered, those from `taken`
      to `split` are in the consumer's buffer, those from `split` on in the active one. A flush
      started when `flushFrom` were delivered, has emitted the record ranges `chunks` in full and is at
      the range from `lo` to `hi`; `flushed` is its output. */
  datatype History = History(accepted: seq<Record>, taken: nat, split: nat, delivered: seq<byte>,
                             flushFrom: nat, chunks: seq<(nat, nat)>, lo: nat, hi: nat, flushed: seq<byte>)

  datatype Logger = Logger(size: nat, state: bv16, offsets: seq<nat>, bufs: seq<seq<byte>>,
                           p: Producer, c: Consumer, h: History)

  function Begin(bufs: seq<seq<byte>>, size: nat): Logger {
    Logger(size, 0, [0, 0], bufs, Resting, Waiting, History([], 0, 0, [], 0, [], 0, 0, []))
  }

  /** Every index and slice a thread is about to use is inside its array. */
  ghost predicate InBounds(l: Logger) {
    && |l.offsets| == 2 == |l.bufs| && |l.bufs[0]| == l.size && |l.bufs[1]| == l.size
    && l.offsets[0] <= l.size && l.offsets[1] <= l.size
    && match l.p {
         case Measuring(_, idx) => idx <= 1
         case Copying(data, idx, offset, k) => idx <= 1 && k <= |data| && offset + |data| <= l.size
         case FlushLoading(idx) => idx <= 1
         case FlushEmitting(idx, offset, k) => idx <= 1 && k <= offset <= l.size
         case _ => true
       }
    && match l.c {
         case Sizing(idx) => idx <= 1
         case Draining(idx, offset, k) => idx <= 1 && k <= offset <= l.size
         case Clearing(idx) => idx <= 1
         case _ => true
       }
  }

  /** What a thread does next. `spurious` is a failure of the weak compare-exchange. */
  datatype Step =
    | Push(data: Record)
    | PanicFlush
    | Produce(spurious: bool)
    | Consume
    | Follow(spurious: bool)

  predicate Enabled(l: Logger, step: Step) {
    match step
    case Push(_) => l.p.Resting?
    case PanicFlush => l.p.Resting?
    case Produce(_) => !l.p.Resting?
    case Consume => l.c.Waiting?
    case Follow(_) => !l.c.Waiting?
  }

  function Apply(l: Logger, step: Step): Logger
    requires InBounds(l) && Enabled(l, step)
  {
    match step
    case Push(data) => l.(p := Loading(data))
    case PanicFlush => l.(p := FlushLoading(0), h := l.h.(flushFrom := l.h.taken, chunks := [], flushed := []))
    case Produce(spurious) => ProducerStep(l, spurious)
    case Consume => l.(c := Watching)
    case Follow(spurious) => ConsumerStep(l, spurious)
  }

  function ProducerStep(l: Logger, spurious: bool): Logger
    requires InBounds(l) && !l.p.Resting?
  {
    match l.p
    case Loading(data) => l.(p := Exchanging(data, l.state))
    case Exchanging(data, curr) =>
      if spurious || l.state != curr then l.(p := Loading(data))
      else l.(state := WRITER_BIT | (curr & INDEX_MASK), p := Measuring(data, Active(curr)))
    case Measuring(data, idx) =>
      if l.offsets[idx] + |data| > l.size then l.(p := Releasing(false))
      else l.(p := Copying(data, idx, l.offsets[idx], 0))
    case Copying(data, idx, offset, k) =>
      if k < |data| then
        l.(bufs := l.bufs[idx := l.bufs[idx][offset + k := data[k]]], p := Copying(data, idx, offset, k + 1))
      else
        l.(offsets := l.offsets[idx := l.offsets[idx] + |data|], p := Releasing(true),
           h := l.h.(accepted := l.h.accepted + [data]))
    case Releasing(_) => l.(state := l.state & !WRITER_BIT, p := Resting)
    case FlushLoading(idx) =>
      if l.offsets[idx] == 0 then l.(p := NextFlush(idx))
      else
        var (lo, hi) := Held(l, idx);
        l.(p := FlushEmitting(idx, l.offsets[idx], 0), h := l.h.(lo := lo, hi := hi))
    case FlushEmitting(idx, offset, k) =>
      if k < offset then
        l.(p := FlushEmitting(idx, offset, k + 1), h := l.h.(flushed := l.h.flushed + [l.bufs[idx][k]]))
      else l.(p := NextFlush(idx), h := l.h.(chunks := l.h.chunks + [(l.h.lo, l.h.hi)]))
  }

  function NextFlush(idx: nat): Producer { if idx == 0 then FlushLoading(1) else Resting }

  /** The records a buffer holds. */
  function Held(l: Logger, idx: nat): (nat, nat) {
    if idx == Active(l.state) then (l.h.split, |l.h.accepted|) else (l.h.taken, l.h.split)
  }

  function ConsumerStep(l: Logger, spurious: bool): Logger
    requires InBounds(l) && !l.c.Waiting?
  {
    match l.c
    case Watching => if Writing(l.state) then l else l.(c := Swapping(l.state))
    case Swapping(curr) =>
      if spurious || l.state != curr then l.(c := Watching)
      else l.(state := if Active(curr) == 0 then 1 else 0, c := Sizing(Active(curr)),
              h := l.h.(taken := l.h.split, split := |l.h.accepted|))
    case Sizing(idx) =>
      if l.offsets[idx] == 0 then l.(c := Clearing(idx))
      else l.(c := Draining(idx, l.offsets[idx], 0))
    case Draining(idx, offset, k) =>
      if k < offset then
        l.(c := Draining(idx, offset, k + 1), h := l.h.(delivered := l.h.delivered + [l.bufs[idx][k]]))
      else l.(c := Clearing(idx))
    case Clearing(idx) =>
      l.(offsets := l.offsets[idx := 0], c := Waiting, h := l.h.(taken := l.h.split))
  }
}
