/** What every interleaving of the two threads keeps. */
module LoggerInvariant {
  import opened Protocol
  import opened LoggerModel

  lemma {:induction false} FlattenAppend(a: seq<Record>, b: seq<Record>)
    ensures Flatten(a + b) == Flatten(a) + Flatten(b)
  {
    if a == [] {
      assert a + b == b;
    } else {
      assert (a + b)[0] == a[0] && (a + b)[1..] == a[1..] + b;
      calc {
        Flatten(a + b);
        a[0] + Flatten(a[1..] + b);
        { FlattenAppend(a[1..], b); }
        a[0] + (Flatten(a[1..]) + Flatten(b));
        Flatten(a) + Flatten(b);
      }
    }
  }

  lemma FlattenOne(r: Record)
    ensures Flatten([r]) == r
  {
    assert [r][1..] == [];
  }

  /** The records between two positions, end to end. */
  function Text(l: Logger, lo: nat, hi: nat): seq<byte>
    requires lo <= hi <= |l.h.accepted|
  {
    Flatten(l.h.accepted[lo..hi])
  }

  lemma TextSplit(l: Logger, lo: nat, mid: nat, hi: nat)
    requires lo <= mid <= hi <= |l.h.accepted|
    ensures Text(l, lo, hi) == Text(l, lo, mid) + Text(l, mid, hi)
  {
    assert l.h.accepted[lo..hi] == l.h.accepted[lo..mid] + l.h.accepted[mid..hi];
    FlattenAppend(l.h.accepted[lo..mid], l.h.accepted[mid..hi]);
  }

  /** A buffer's published bytes. */
  function Published(l: Logger, idx: nat): seq<byte>
    requires InBounds(l) && idx <= 1
  {
    l.bufs[idx][..l.offsets[idx]]
  }

  ghost predicate WordOk(l: Logger) {
    && l.state in {0, 1, 0x100, 0x101}
    && (Writing(l.state) <==> l.p.InPush())
    && (l.p.Exchanging? ==> l.p.curr in {0, 1})
    && (l.c.Swapping? ==> l.c.curr in {0, 1})
    && (l.p.Measuring? || l.p.Copying? ==> l.p.idx == Active(l.state))
    && (l.c.Sizing? || l.c.Draining? || l.c.Clearing? ==> l.c.idx == 1 - Active(l.state))
  }

  ghost predicate ContentsOk(l: Logger)
    requires InBounds(l)
  {
    var a := Active(l.state);
    && l.h.taken <= l.h.split <= |l.h.accepted|
    && Published(l, a) == Text(l, l.h.split, |l.h.accepted|)
    && Published(l, 1 - a) == Text(l, l.h.taken, l.h.split)
    && (!l.c.Holds() ==> l.offsets[1 - a] == 0 && l.h.taken == l.h.split)
  }

  ghost predicate CopyOk(l: Logger)
    requires InBounds(l)
  {
    l.p.Copying? ==>
      && l.p.offset == l.offsets[l.p.idx]
      && l.bufs[l.p.idx][l.p.offset..l.p.offset + l.p.k] == l.p.data[..l.p.k]
  }

  /** What the consumer's callback has been given. */
  ghost predicate DeliveryOk(l: Logger)
    requires InBounds(l) && ContentsOk(l)
  {
    match l.c
    case Draining(idx, offset, k) =>
      offset == l.offsets[idx] && l.h.delivered == Text(l, 0, l.h.taken) + l.bufs[idx][..k]
    case Clearing(idx) => l.h.delivered == Text(l, 0, l.h.split)
    case _ => l.h.delivered == Text(l, 0, l.h.taken)
  }

  ghost predicate Inv(l: Logger) {
    InBounds(l) && WordOk(l) && ContentsOk(l) && CopyOk(l) && DeliveryOk(l)
  }

  lemma BeginInv(bufs: seq<seq<byte>>, size: nat)
    requires |bufs| == 2 && |bufs[0]| == size && |bufs[1]| == size
    ensures Inv(Begin(bufs, size))
  {
  }

  lemma StateBits(s: bv16)
    requires s in {0, 1, 0x100, 0x101}
    ensures Writing(s) <==> s in {0x100, 0x101}
    ensures Active(s) == if s in {0, 0x100} then 0 else 1
    ensures WRITER_BIT | (s & INDEX_MASK) == (if s in {0, 0x100} then 0x100 else 0x101)
    ensures s & !WRITER_BIT == if s in {0, 0x100} then 0 else 1
  {
  }

  lemma ProducerInv(l: Logger, spurious: bool)
    requires Inv(l) && !l.p.Resting?
    ensures Inv(ProducerStep(l, spurious))
  {
    if l.p.Copying? {
      if l.p.k < |l.p.data| { CopyByteInv(l, spurious); } else { PublishInv(l, spurious); }
    } else if l.p.InFlush() {
      FlushStepInv(l, spurious);
    } else {
      WordStepInv(l, spurious);
    }
  }

  /** Steps that leave buffers and offsets alone: only the state word and the producer's place change. */
  lemma WordStepInv(l: Logger, spurious: bool)
    requires Inv(l) && (l.p.Loading? || l.p.Exchanging? || l.p.Measuring? || l.p.Releasing?)
    ensures Inv(ProducerStep(l, spurious))
  {
    StateBits(l.state);
    var l' := ProducerStep(l, spurious);
    StateBits(l'.state);
    SameContents(l, l');
  }

  lemma FlushStepInv(l: Logger, spurious: bool)
    requires Inv(l) && l.p.InFlush()
    ensures Inv(ProducerStep(l, spurious))
  {
    FlushStepShape(l, spurious);
    hide ProducerStep;
    SameContents(l, ProducerStep(l, spurious));
  }

  lemma FlushStepShape(l: Logger, spurious: bool)
    requires InBounds(l) && WordOk(l) && l.p.InFlush()
    ensures var l' := ProducerStep(l, spurious);
      && InBounds(l') && WordOk(l') && CopyOk(l')
      && l'.state == l.state && l'.bufs == l.bufs && l'.offsets == l.offsets && l'.c == l.c
      && l'.h == l.h.(chunks := l'.h.chunks, flushed := l'.h.flushed, lo := l'.h.lo, hi := l'.h.hi)
  {
    match l.p {
      case FlushLoading(idx) =>
      case FlushEmitting(idx, offset, k) =>
    }
  }

  lemma SameContents(l: Logger, l': Logger)
    requires InBounds(l) && InBounds(l') && ContentsOk(l) && DeliveryOk(l)
    requires l'.bufs == l.bufs && l'.offsets == l.offsets && l'.c == l.c && Active(l'.state) == Active(l.state)
    requires l'.h.accepted == l.h.accepted && l'.h.taken == l.h.taken && l'.h.split == l.h.split
    requires l'.h.delivered == l.h.delivered
    ensures ContentsOk(l') && DeliveryOk(l')
  {
  }

  /** A byte past the published ones changes nothing that anyone reads. */
  lemma CopyByteInv(l: Logger, spurious: bool)
    requires Inv(l) && l.p.Copying? && l.p.k < |l.p.data|
    ensures Inv(ProducerStep(l, spurious))
  {
    var l' := ProducerStep(l, spurious);
    var Copying(data, idx, offset, k) := l.p;
    assert l'.bufs[idx][offset..offset + k + 1] == l.bufs[idx][offset..offset + k] + [data[k]];
    assert data[..k + 1] == data[..k] + [data[k]];
    assert Published(l', idx) == Published(l, idx);
    assert Published(l', 1 - idx) == Published(l, 1 - idx);
  }

  /** Publishing appends exactly the record to the active buffer. */
  lemma PublishInv(l: Logger, spurious: bool)
    requires Inv(l) && l.p.Copying? && l.p.k == |l.p.data|
    ensures Inv(ProducerStep(l, spurious))
  {
    var l' := ProducerStep(l, spurious);
    var Copying(data, idx, offset, k) := l.p;
    var n := |l.h.accepted|;
    assert Published(l', idx) == Published(l, idx) + data;
    assert l'.h.accepted[l.h.split..n + 1] == l.h.accepted[l.h.split..n] + [data];
    FlattenAppend(l.h.accepted[l.h.split..n], [data]);
    FlattenOne(data);
    SameText(l, l', 0, l.h.taken);
    SameText(l, l', l.h.taken, l.h.split);
    SameText(l, l', 0, l.h.split);
  }

  lemma SameText(l: Logger, l': Logger, lo: nat, hi: nat)
    requires lo <= hi <= |l.h.accepted| && l.h.accepted <= l'.h.accepted
    ensures Text(l', lo, hi) == Text(l, lo, hi)
  {
    assert l'.h.accepted[lo..hi] == l.h.accepted[lo..hi];
  }

  lemma ConsumerInv(l: Logger, spurious: bool)
    requires Inv(l) && !l.c.Waiting?
    ensures Inv(ConsumerStep(l, spurious))
  {
    match l.c {
      case Watching => StateBits(l.state);
      case Swapping(curr) => SwapInv(l, spurious);
      case Sizing(idx) => SizeInv(l, spurious);
      case Draining(idx, offset, k) => DrainInv(l, spurious);
      case Clearing(idx) => ClearInv(l, spurious);
    }
  }

  /** While the consumer works on its buffer only its place and what it delivered change. */
  lemma StaysHeld(l: Logger, l': Logger)
    requires InBounds(l) && WordOk(l) && ContentsOk(l) && CopyOk(l)
    requires l' == l.(c := l'.c, h := l.h.(delivered := l'.h.delivered))
    requires (l.c.Sizing? || l.c.Draining?) && (l'.c.Draining? || l'.c.Clearing?) && l'.c.idx == l.c.idx
    requires l'.c.Draining? ==> l'.c.k <= l'.c.offset <= l.size
    ensures InBounds(l') && WordOk(l') && ContentsOk(l') && CopyOk(l')
  {
  }

  lemma SizeInv(l: Logger, spurious: bool)
    requires Inv(l) && l.c.Sizing?
    ensures Inv(ConsumerStep(l, spurious))
  {
    StaysHeld(l, ConsumerStep(l, spurious));
    hide WordOk, CopyOk;
    TextSplit(l, 0, l.h.taken, l.h.split);
  }

  lemma DrainInv(l: Logger, spurious: bool)
    requires Inv(l) && l.c.Draining?
    ensures Inv(ConsumerStep(l, spurious))
  {
    StaysHeld(l, ConsumerStep(l, spurious));
    if l.c.k == l.c.offset { TakenIsHeld(l); }
    hide WordOk, CopyOk, ContentsOk;
    DrainDelivers(l, spurious);
  }

  lemma DrainDelivers(l: Logger, spurious: bool)
    requires InBounds(l) && ContentsOk(l) && DeliveryOk(l) && l.c.Draining?
    requires InBounds(ConsumerStep(l, spurious)) && ContentsOk(ConsumerStep(l, spurious))
    requires l.c.k == l.c.offset ==>
               Text(l, 0, l.h.split) == Text(l, 0, l.h.taken) + l.bufs[l.c.idx][..l.offsets[l.c.idx]]
    ensures DeliveryOk(ConsumerStep(l, spurious))
  {
    var Draining(idx, offset, k) := l.c;
    if k < offset { assert l.bufs[idx][..k + 1] == l.bufs[idx][..k] + [l.bufs[idx][k]]; }
  }

  lemma TakenIsHeld(l: Logger)
    requires InBounds(l) && WordOk(l) && ContentsOk(l) && l.c.Draining?
    ensures Text(l, 0, l.h.split) == Text(l, 0, l.h.taken) + l.bufs[l.c.idx][..l.offsets[l.c.idx]]
  {
    TextSplit(l, 0, l.h.taken, l.h.split);
  }

  lemma ClearInv(l: Logger, spurious: bool)
    requires Inv(l) && l.c.Clearing?
    ensures Inv(ConsumerStep(l, spurious))
  {
    var l' := ConsumerStep(l, spurious);
    assert Text(l', l.h.split, l.h.split) == [];
  }

  /** The swap can only succeed while the producer is outside its critical section. */
  lemma SwapInv(l: Logger, spurious: bool)
    requires Inv(l) && l.c.Swapping?
    ensures Inv(ConsumerStep(l, spurious))
  {
    StateBits(l.state);
    var l' := ConsumerStep(l, spurious);
    StateBits(l'.state);
    if l'.c.Sizing? {
      var n := |l.h.accepted|;
      assert Text(l', n, n) == [];
    }
  }

  lemma StepInv(l: Logger, step: Step)
    requires Inv(l) && Enabled(l, step)
    ensures Inv(Apply(l, step))
  {
    match step {
      case Produce(spurious) => ProducerInv(l, spurious);
      case Follow(spurious) => ConsumerInv(l, spurious);
      case _ =>
    }
  }
}
