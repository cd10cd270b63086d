/** Events, intents and the message header that pass between the executor and its machines. */
module Protocol {
  import opened Bits
  import opened GenAllocSpec

  type byte = x: nat | x < 0x100

  const BUF_SIZE: nat := 0x1000

  datatype MachineEvent = Spawn | IoCompleted(res: int, flags: nat)

  datatype MachineIntent =
    | Retry
    | Terminate
    | CloseFixed(fd: nat)
    | SpawnConnHandler(fd: nat)
    | SubmitMultishotAccept(listenFd: int)
    | SubmitRecv(fd: nat, buffer: GenId, offset: nat)

  /** Bit 1 of the completion flags: the multishot request stays armed. */
  predicate More(flags: nat) { (flags / 2) % 2 == 1 }

  lemma MoreIsBit(flags: nat)
    ensures More(flags) <==> BitAnd(flags, 2) != 0
  {
    assert BitAnd(flags / 4, 0) == 0;
    assert BitAnd(flags / 2, 1) == (flags / 2) % 2;
  }

  /** The ways a run stops. `UncheckedNone` is the undefined behaviour of unwrapping unchecked. */
  datatype Panic =
    | Unreachable | UncheckedNone | UnexpectedIoError | HeaderUnwrap | OffsetOverflow
    | GenerationOverflow | FreeListFull
    | RetryQueueFull | SpawnQueueFull | CompletionQueueFull
    | HandlerPoolFull | BufferFull | StaleBuffer
    | IntentsFull

  datatype Outcome<+T> = Ok(value: T) | Panicked(reason: Panic)

  const HDR_SIZE: nat := 5

  /** A packed 32-bit magic, little-endian, and one command byte. */
  datatype MsgHeader = MsgHeader(magic: nat, cmd: nat)

  function ReadHeader(b: seq<byte>): (h: MsgHeader)
    requires |b| == HDR_SIZE
  {
    MsgHeader(LittleEndian(b[0], b[1], b[2], b[3]), b[4])
  }

  function LittleEndian(a: nat, b: nat, c: nat, d: nat): nat {
    a + 0x100 * b + 0x1_0000 * c + 0x100_0000 * d
  }

  function HeaderBytes(h: MsgHeader): (b: seq<byte>)
    requires h.magic <= MAX_U32 && h.cmd < 0x100
    ensures |b| == HDR_SIZE
  {
    [h.magic % 0x100, (h.magic / 0x100) % 0x100, (h.magic / 0x1_0000) % 0x100, (h.magic / 0x100_0000) % 0x100, h.cmd]
  }

  /** Parsing a header and laying it out are inverse to each other; the magic comes first, its least byte in front. */
  lemma HeaderRoundTrip(b: seq<byte>, h: MsgHeader)
    requires |b| == HDR_SIZE
    requires h.magic <= MAX_U32 && h.cmd < 0x100
    ensures ReadHeader(b).magic <= MAX_U32 && HeaderBytes(ReadHeader(b)) == b
    ensures ReadHeader(HeaderBytes(h)) == h
    ensures ReadHeader(b).cmd == b[4]
    ensures ReadHeader(b).magic == b[0] as int + 0x100 * b[1] as int + 0x1_0000 * b[2] as int + 0x100_0000 * b[3] as int
  {
    DigitsOfSum(b[0], b[1], b[2], b[3]);
    SumOfDigits(h.magic);
  }

  lemma DigitsOfSum(a: nat, b: nat, c: nat, d: nat)
    requires a < 0x100 && b < 0x100 && c < 0x100 && d < 0x100
    ensures var m := LittleEndian(a, b, c, d);
      && m % 0x100 == a && (m / 0x100) % 0x100 == b
      && (m / 0x1_0000) % 0x100 == c && m / 0x100_0000 == d
  {
    var m := LittleEndian(a, b, c, d);
    RemainderUnique(m, 0x100, b + 0x100 * c + 0x1_0000 * d, a);
    RemainderUnique(m / 0x100, 0x100, c + 0x100 * d, b);
    RemainderUnique(m, 0x1_0000, c + 0x100 * d, a + 0x100 * b);
    RemainderUnique(m, 0x100_0000, d, a + 0x100 * b + 0x1_0000 * c);
  }

  lemma SumOfDigits(m: nat)
    requires m <= MAX_U32
    ensures m == LittleEndian(m % 0x100, (m / 0x100) % 0x100, (m / 0x1_0000) % 0x100, m / 0x100_0000)
    ensures m / 0x100_0000 < 0x100
  {
    var q := m / 0x100;
    assert m == 0x100 * q + m % 0x100;
    assert q == 0x100 * (q / 0x100) + q % 0x100;
    RemainderUnique(m, 0x1_0000, q / 0x100, 0x100 * (q % 0x100) + m % 0x100);
    var r := m / 0x1_0000;
    assert r == 0x100 * (r / 0x100) + r % 0x100;
    RemainderUnique(m, 0x100_0000, r / 0x100, 0x1_0000 * (r % 0x100) + m % 0x1_0000);
  }
}
