/** Which buffer is active, and from when on a panic flush can be out of order. */
module LoggerSwaps {
  import opened Protocol
  import opened LoggerModel
  import opened LoggerInvariant
  import opened LoggerRuns
  import opened LoggerFlushOrder

  /** The consumer's exchange succeeds. */
  predicate Swaps(l: Logger, step: Step) {
    step.Follow? && !step.spurious && l.c.Swapping? && l.state == l.c.curr
  }

  /** The number of times it does in a run. */
  ghost function SwapCount(l: Logger, steps: seq<Step>): nat
    decreases |steps|
  {
    if steps == [] || !InBounds(l) || !Enabled(l, steps[0]) then 0
    else (if Swaps(l, steps[0]) then 1 else 0) + SwapCount(Apply(l, steps[0]), steps[1..])
  }

  lemma ProducerKeepsActive(l: Logger, spurious: bool)
    requires InBounds(l) && WordOk(l) && !l.p.Resting?
    ensures Active(ProducerStep(l, spurious).state) == Active(l.state) && ProducerStep(l, spurious).c == l.c
  {
    StateBits(l.state);
    match l.p {
      case FlushLoading(_) =>
      case FlushEmitting(_, _, _) =>
      case _ =>
    }
  }

  lemma ConsumerActive(l: Logger, spurious: bool)
    requires InBounds(l) && WordOk(l) && !l.c.Waiting?
    ensures var l' := ConsumerStep(l, spurious);
      && Active(l'.state) == (if Swaps(l, Follow(spurious)) then 1 - Active(l.state) else Active(l.state))
      && (l'.c.Holds() ==> l.c.Holds() || Swaps(l, Follow(spurious)))
  {
    StateBits(l.state);
  }

  lemma StepActive(l: Logger, step: Step)
    requires InBounds(l) && WordOk(l) && Enabled(l, step)
    ensures Active(Apply(l, step).state) == if Swaps(l, step) then 1 - Active(l.state) else Active(l.state)
    ensures Apply(l, step).c.Holds() ==> l.c.Holds() || Swaps(l, step)
  {
    match step {
      case Produce(spurious) => ProducerKeepsActive(l, spurious);
      case Follow(spurious) => ConsumerActive(l, spurious);
      case _ =>
    }
  }

  lemma {:induction false} RunActive(l: Logger, steps: seq<Step>, l': Logger)
    requires Inv(l) && Run(l, steps, l')
    ensures Active(l'.state) == (Active(l.state) + SwapCount(l, steps)) % 2
    ensures l'.c.Holds() ==> l.c.Holds() || SwapCount(l, steps) > 0
    decreases |steps|
  {
    if steps != [] {
      StepActive(l, steps[0]);
      StepInv(l, steps[0]);
      hide Inv, Apply, Swaps;
      RunActive(Apply(l, steps[0]), steps[1..], l');
    }
  }

  /** The buffer in use is the number of successful exchanges of the consumer, modulo 2: the first record goes
      into buffer 0. */
  lemma ActiveIsParity(bufs: seq<seq<byte>>, size: nat, steps: seq<Step>, l: Logger)
    requires Reached(bufs, size, steps, l)
    ensures Active(l.state) == SwapCount(Begin(bufs, size), steps) % 2
  {
    BeginInv(bufs, size);
    RunActive(Begin(bufs, size), steps, l);
  }

  /** Before the consumer's second successful exchange every flush is in order. */
  lemma EarlyFlushInOrder(bufs: seq<seq<byte>>, size: nat, steps: seq<Step>, l: Logger)
    requires Reached(bufs, size, steps, l) && SwapCount(Begin(bufs, size), steps) < 2
    ensures !NewerFirst(l)
    ensures l.p.Resting? ==> InBounds(l) && InOrder(l)
  {
    ReachedInv(bufs, size, steps, l);
    BeginInv(bufs, size);
    RunActive(Begin(bufs, size), steps, l);
    if l.p.Resting? { FlushInOrderIff(bufs, size, steps, l); }
  }
}
