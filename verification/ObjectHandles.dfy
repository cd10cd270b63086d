/** The 64-bit packing of a pool id, a slot index and a generation. */
module ObjectHandles {
  import opened Bits
  import opened GenAllocSpec

  const POOL_MASK: nat := 0x00FF_FFFF
  const TWO_32: nat := 0x1_0000_0000
  const TWO_24: nat := 0x100_0000
  const TWO_56: nat := 0x100_0000_0000_0000
  const TWO_64: nat := 0x1_0000_0000_0000_0000

  /** The slots of an object pool: its capacity masked to the 24 bits of a handle's index. */
  function PoolSlots(capacity: nat): (n: nat)
    ensures n <= capacity && n <= POOL_MASK
    ensures n == capacity <==> capacity <= POOL_MASK
  {
    capacity % TWO_24
  }

  /** The parts of a handle; `Pack` is the word that travels as I/O user data. */
  datatype ObjectHandle = ObjectHandle(poolId: nat, id: GenId) {

    /** Fits the word's three fields of 8, 24 and 32 bits. */
    predicate Packable() {
      poolId < 0x100 && id.index <= POOL_MASK && id.generation <= MAX_U32
    }
  }

  /** Each field is shifted into place and or-ed in; shifting is multiplication by a power of two. */
  function Pack(h: ObjectHandle): nat {
    BitOr(BitOr(h.poolId * TWO_56, h.id.index * TWO_32), h.id.generation)
  }

  function PoolId(w: nat): nat { (w / TWO_56) % 0x100 }
  function Index(w: nat): nat { BitAnd((w / TWO_32) % TWO_32, POOL_MASK) }
  function Generation(w: nat): nat { w % TWO_32 }

  function Unpack(w: nat): ObjectHandle {
    ObjectHandle(PoolId(w), GenId(Index(w), Generation(w)))
  }

  lemma Widths()
    ensures Pow2(24) == TWO_24 && Pow2(32) == TWO_32 && Pow2(56) == TWO_56
  {
    assert Pow2(8) == 0x100;
    assert Pow2(16) == 0x1_0000;
    assert Pow2(24) == TWO_24;
    assert Pow2(32) == TWO_32;
    assert Pow2(40) == 0x100_0000_0000;
    assert Pow2(48) == 0x1_0000_0000_0000;
  }

  lemma PackSum(h: ObjectHandle)
    requires h.Packable()
    ensures Pack(h) == h.poolId * 0x100_0000_0000_0000 + h.id.index * 0x1_0000_0000 + h.id.generation
    ensures Pack(h) < TWO_64
  {
    Widths();
    OrDisjoint(h.poolId, h.id.index * TWO_32, 56);
    var upper := h.poolId * TWO_24 + h.id.index;
    assert upper * TWO_32 == h.poolId * TWO_56 + h.id.index * TWO_32;
    OrDisjoint(upper, h.id.generation, 32);
  }

  lemma IndexIsRemainder(w: nat)
    ensures Index(w) == (w / TWO_32) % TWO_32 % TWO_24
  {
    Widths();
    AndOnes((w / TWO_32) % TWO_32, 24);
  }

  /** The trip through 64-bit user data loses nothing, exactly when the index fits its 24 bits. */
  lemma UnpackPack(h: ObjectHandle)
    requires h.poolId < 0x100 && h.id.generation <= MAX_U32
    ensures Unpack(Pack(h)) == h <==> h.id.index < 0x100_0000
  {
    hide Pack, Index;
    var w := Pack(h);
    IndexIsRemainder(w);
    if h.Packable() {
      PackSum(h);
      FieldsOfSum(h.poolId, h.id.index, h.id.generation);
    }
  }

  lemma FieldsOfSum(p: nat, i: nat, g: nat)
    requires p < 0x100 && i <= POOL_MASK && g < TWO_32
    ensures var w := p * TWO_56 + i * TWO_32 + g;
      w % TWO_32 == g && (w / TWO_32) % TWO_32 % TWO_24 == i && (w / TWO_56) % 0x100 == p
  {
    var w := p * TWO_56 + i * TWO_32 + g;
    RemainderUnique(w, TWO_32, p * TWO_24 + i, g);
    RemainderUnique(w, TWO_56, p, i * TWO_32 + g);
  }

  lemma SumOfFields(w: nat)
    requires w < TWO_64
    ensures w == PoolId(w) * TWO_56 + ((w / TWO_32) % TWO_32 % TWO_24) * TWO_32 + Generation(w)
  {
    var high := w / TWO_32;
    assert w == high * TWO_32 + w % TWO_32;
    assert high == (high / TWO_24) * TWO_24 + high % TWO_24;
    RemainderUnique(w, TWO_56, high / TWO_24, (high % TWO_24) * TWO_32 + w % TWO_32);
  }

  lemma FieldWidths(w: nat)
    ensures Unpack(w).Packable()
  {
    IndexIsRemainder(w);
  }

  /** Every word is the packing of exactly one handle, so distinct handles give distinct words. */
  lemma PackUnpack(w: nat)
    requires w < TWO_64
    ensures Unpack(w).Packable() && Pack(Unpack(w)) == w
  {
    FieldWidths(w);
    PackSum(Unpack(w));
    IndexIsRemainder(w);
    SumOfFields(w);
  }

  lemma PackInjective(a: ObjectHandle, b: ObjectHandle)
    requires a.Packable() && b.Packable() && Pack(a) == Pack(b)
    ensures a == b
  {
    UnpackPack(a);
    UnpackPack(b);
  }
}
