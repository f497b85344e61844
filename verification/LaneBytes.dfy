/** Bytes in and out of lanes, least significant first. */
module LaneBytes {
  import opened LaneBits

  type Byte = bv8

  function Word(b0: Byte, b1: Byte, b2: Byte, b3: Byte): bv32 {
    (b0 as bv32) | ((b1 as bv32) << 8) | ((b2 as bv32) << 16) | ((b3 as bv32) << 24)
  }

  /** Eight bytes as one lane. */
  function Lane(b: seq<Byte>): bv64
    requires |b| == 8
  {
    (b[0] as bv64) | ((b[1] as bv64) << 8) | ((b[2] as bv64) << 16) | ((b[3] as bv64) << 24)
    | ((b[4] as bv64) << 32) | ((b[5] as bv64) << 40) | ((b[6] as bv64) << 48) | ((b[7] as bv64) << 56)
  }

  lemma JoinWords(b0: Byte, b1: Byte, b2: Byte, b3: Byte, b4: Byte, b5: Byte, b6: Byte, b7: Byte)
    ensures Join(Half(Word(b4, b5, b6, b7), Word(b0, b1, b2, b3)))
         == (b0 as bv64) | ((b1 as bv64) << 8) | ((b2 as bv64) << 16) | ((b3 as bv64) << 24)
          | ((b4 as bv64) << 32) | ((b5 as bv64) << 40) | ((b6 as bv64) << 48) | ((b7 as bv64) << 56)
  {
  }

  function ByteOf(w: bv32, k: nat): Byte
    requires k < 4
  {
    match k
    case 0 => (w & 0xff) as Byte
    case 1 => ((w >> 8) & 0xff) as Byte
    case 2 => ((w >> 16) & 0xff) as Byte
    case _ => ((w >> 24) & 0xff) as Byte
  }

  function LaneByte(v: bv64, k: nat): Byte
    requires k < 8
  {
    match k
    case 0 => (v & 0xff) as Byte
    case 1 => ((v >> 8) & 0xff) as Byte
    case 2 => ((v >> 16) & 0xff) as Byte
    case 3 => ((v >> 24) & 0xff) as Byte
    case 4 => ((v >> 32) & 0xff) as Byte
    case 5 => ((v >> 40) & 0xff) as Byte
    case 6 => ((v >> 48) & 0xff) as Byte
    case _ => ((v >> 56) & 0xff) as Byte
  }

  lemma JoinBytes(h: Half, k: nat)
    requires k < 8
    ensures LaneByte(Join(h), k) == if k < 4 then ByteOf(h.lo, k) else ByteOf(h.hi, k - 4)
  {
    match k
    case 0 => case 1 => case 2 => case 3 => case 4 => case 5 => case 6 => case _ =>
  }

  // ----- reading back, and bit by bit

  /** A lane read out is the bytes it was read in from. */
  lemma LaneReadsBack(b: seq<Byte>, k: nat)
    requires |b| == 8 && k < 8
    ensures LaneByte(Lane(b), k) == b[k]
  {
    match k case 0 => case 1 => case 2 => case 3 => case 4 => case 5 => case 6 => case _ =>
  }

  function Mask(k: nat): Byte
    requires k < 8
  {
    match k
    case 0 => 0x01 case 1 => 0x02 case 2 => 0x04 case 3 => 0x08
    case 4 => 0x10 case 5 => 0x20 case 6 => 0x40 case _ => 0x80
  }

  predicate Masked(b: Byte, m: Byte) { b & m != 0 }

  /** Bit k of a byte, least significant first. */
  function BitOf(b: Byte, k: nat): bool
    requires k < 8
  {
    Masked(b, Mask(k))
  }

  function Halve(v: bv64): bv64 { v >> 1 }

  predicate Odd(v: bv64) { v & 1 == 1 }

  /** A lane halved n times. */
  function Shifted(v: bv64, n: nat): bv64
    decreases n
  {
    if n == 0 then v else Shifted(Halve(v), n - 1)
  }

  /** Bit z of a lane, least significant first: the last digit after z halvings. */
  function LaneBit(v: bv64, z: nat): bool { Odd(Shifted(v, z)) }

  lemma {:induction false} ShiftedAdd(v: bv64, a: nat, b: nat)
    ensures Shifted(v, a + b) == Shifted(Shifted(v, a), b)
    decreases a
  {
    hide Halve;
    if a > 0 { ShiftedAdd(Halve(v), a - 1, b); }
  }

  function ShiftBy(v: bv64, n: nat): bv64
    requires n <= 8
  {
    match n
    case 0 => v case 1 => v >> 1 case 2 => v >> 2 case 3 => v >> 3 case 4 => v >> 4
    case 5 => v >> 5 case 6 => v >> 6 case 7 => v >> 7 case _ => v >> 8
  }

  lemma {:induction false} ShiftedBy(v: bv64, n: nat)
    requires n <= 8
    ensures Shifted(v, n) == ShiftBy(v, n)
    decreases n
  {
    if n > 0 {
      ShiftedBy(Halve(v), n - 1);
      match n case 1 => case 2 => case 3 => case 4 => case 5 => case 6 => case 7 => case _ =>
    }
  }

  lemma LowBits(v: bv64, j: nat)
    requires j < 8
    ensures (ShiftBy(v, j) & 1 == 1) == BitOf(LaneByte(v, 0), j)
  {
    match j case 0 => case 1 => case 2 => case 3 => case 4 => case 5 => case 6 => case _ =>
  }

  lemma OddLowBits(v: bv64, j: nat)
    requires j < 8
    ensures Odd(ShiftBy(v, j)) == BitOf(LaneByte(v, 0), j)
  {
    hide ShiftBy, BitOf, LaneByte;
    LowBits(v, j);
  }

  function DropByte(v: bv64): bv64 { v >> 8 }

  lemma NextByte(v: bv64, k: nat)
    requires 0 < k < 8
    ensures LaneByte(v, k) == LaneByte(DropByte(v), k - 1)
  {
    match k case 1 => case 2 => case 3 => case 4 => case 5 => case 6 => case _ =>
  }

  /** Bit j of byte k is bit 8k + j of the lane. */
  lemma {:induction false} LaneByteBits(v: bv64, k: nat, j: nat)
    requires k < 8 && j < 8
    ensures LaneBit(v, 8 * k + j) == BitOf(LaneByte(v, k), j)
    decreases k
  {
    hide LaneByte, BitOf, ShiftBy, Shifted, Odd, DropByte;
    if k == 0 {
      ShiftedBy(v, j);
      OddLowBits(v, j);
    } else {
      EightLess(v);
      ShiftedAdd(v, 8, 8 * (k - 1) + j);
      NextByte(v, k);
      LaneByteBits(DropByte(v), k - 1, j);
    }
  }

  lemma EightLess(v: bv64)
    ensures Shifted(v, 8) == DropByte(v)
  {
    hide Shifted;
    ShiftedBy(v, 8);
  }

  function XorByte(a: Byte, b: Byte): Byte { a ^ b }

  lemma XorBytes(v: bv64, w: bv64, k: nat)
    requires k < 8
    ensures LaneByte(Xor64(v, w), k) == XorByte(LaneByte(v, k), LaneByte(w, k))
  {
    match k case 0 => case 1 => case 2 => case 3 => case 4 => case 5 => case 6 => case _ =>
  }

  lemma XorMasked(a: Byte, b: Byte, m: Byte)
    requires m & (m - 1) == 0
    ensures Masked(XorByte(a, b), m) == (Masked(a, m) != Masked(b, m))
  {
  }

  lemma OneBit(k: nat)
    requires k < 8
    ensures Mask(k) & (Mask(k) - 1) == 0
  {
    match k case 0 => case 1 => case 2 => case 3 => case 4 => case 5 => case 6 => case _ =>
  }

  lemma XorBits(a: Byte, b: Byte, j: nat)
    requires j < 8
    ensures BitOf(XorByte(a, b), j) == (BitOf(a, j) != BitOf(b, j))
  {
    hide Masked, Mask, XorByte;
    OneBit(j);
    XorMasked(a, b, Mask(j));
  }
}
