/** Padding, absorbing and squeezing: Keccak-256 as the sponge of section 4 of FIPS 202 with rate 1088. */
module Sponge {
  import opened LaneBits
  import opened LaneBytes
  import opened KeccakSpec
  import opened Keccak

  const RATE: nat := 136

  // ----- padding

  function Bits(bytes: seq<Byte>): seq<bool> {
    seq(8 * |bytes|, k requires 0 <= k < 8 * |bytes| => BitOf(bytes[k / 8], k % 8))
  }

  /** pad10*1 of section 5.1: a one, as few zeros as fill the block, a one. */
  function Pad101(x: int, m: int): seq<bool>
    requires x > 0 && m >= 0
  {
    [true] + seq((-m - 2) % x, _ => false) + [true]
  }

  /** The bytes a message is padded to. */
  function Padded(m: seq<Byte>): (p: seq<Byte>)
    ensures |m| < |p| <= |m| + RATE && |p| % RATE == 0
  {
    var length := (|m| + RATE) / RATE * RATE;
    assert length == |m| + RATE - (|m| + RATE) % RATE;
    seq(length, i requires 0 <= i < length =>
      if i < |m| then m[i]
      else (if i == |m| then 0x01 else 0x00) | (if i == length - 1 then 0x80 else 0x00))
  }

  method Pad(m: seq<Byte>) returns (padded: array<Byte>)
    ensures fresh(padded) && padded[..] == Padded(m)
  {
    var blocks := (|m| + 1 + RATE - 1) / RATE;
    padded := new Byte[blocks * RATE](i => if 0 <= i < |m| then m[i] else 0);
    padded[|m|] := padded[|m|] | 0x01;
    padded[padded.Length - 1] := padded[padded.Length - 1] | 0x80;
  }

  lemma ByteBits(k: nat)
    requires k < 8
    ensures !BitOf(0x00, k)
    ensures BitOf(0x00 | 0x00, k) == false
    ensures BitOf(0x01 | 0x00, k) == (k == 0)
    ensures BitOf(0x00 | 0x80, k) == (k == 7)
    ensures BitOf(0x01 | 0x80, k) == (k == 0 || k == 7)
  {
    match k case 0 => case 1 => case 2 => case 3 => case 4 => case 5 => case 6 => case _ =>
  }

  lemma ZerosBetween(m: nat, length: nat)
    requires m < length <= m + RATE && length % RATE == 0
    ensures (-(8 * m) - 2) % (8 * RATE) == 8 * length - 8 * m - 2
  {
    var q := length / RATE;
    assert -(8 * m) - 2 == 8 * RATE * (-q) + (8 * length - 8 * m - 2);
  }

  lemma PaddedBit(m: seq<Byte>, k: nat)
    requires k < 8 * |Padded(m)|
    ensures Bits(Padded(m))[k] == if k < 8 * |m| then Bits(m)[k] else k == 8 * |m| || k == 8 * |Padded(m)| - 1
  {
    hide BitOf;
    ByteBits(k % 8);
    assert k == 8 * (k / 8) + k % 8;
  }

  /** The padding is pad10*1 with rate 1088, on the bits of the message. */
  lemma PaddingIsPad101(m: seq<Byte>)
    ensures Bits(Padded(m)) == Bits(m) + Pad101(8 * RATE, 8 * |m|)
  {
    hide BitOf;
    var left, right := Bits(Padded(m)), Bits(m) + Pad101(8 * RATE, 8 * |m|);
    ZerosBetween(|m|, |Padded(m)|);
    assert |left| == |right|;
    forall k | 0 <= k < |left|
      ensures left[k] == right[k]
    {
      hide Bits, Padded;
      PaddedBit(m, k);
    }
  }

  /** No two messages pad to the same bytes. */
  lemma PaddingInjective(a: seq<Byte>, b: seq<Byte>)
    requires Padded(a) == Padded(b)
    ensures a == b
  {
    if |a| < |b| {
      LastMark(a, b);
    } else if |b| < |a| {
      LastMark(b, a);
    }
    assert a == Padded(a)[..|a|] && b == Padded(b)[..|b|];
  }

  lemma LastMark(a: seq<Byte>, b: seq<Byte>)
    requires |a| < |b| < |Padded(a)| == |Padded(b)|
    ensures Padded(a)[|b|] != Padded(b)[|b|]
  {
    assert Padded(a)[|b|] in {0x00 | 0x00, 0x00 | 0x80};
    assert Padded(b)[|b|] in {0x01 | 0x00, 0x01 | 0x80};
  }

  // ----- the sponge over lanes

  function Absorb(a: Lanes, block: seq<Byte>): Lanes
    requires |block| == RATE
  {
    seq(25, i requires 0 <= i < 25 =>
      if i < 17 then Xor64(a[i], Lane(block[8 * i..8 * i + 8])) else a[i])
  }

  function Block(p: seq<Byte>, n: nat): (b: seq<Byte>)
    requires RATE * (n + 1) <= |p|
    ensures |b| == RATE
  {
    p[RATE * n..RATE * n + RATE]
  }

  /** The state after the first n blocks. */
  function Absorbed(p: seq<Byte>, n: nat): Lanes
    requires RATE * n <= |p|
  {
    if n == 0 then seq(25, _ => 0) else Rounds(Absorb(Absorbed(p, n - 1), Block(p, n - 1)), 24)
  }

  function Squeeze(a: Lanes): (out: seq<Byte>)
    ensures |out| == 32
  {
    seq(32, k requires 0 <= k < 32 => LaneByte(a[k / 8], k % 8))
  }

  function Digest(m: seq<Byte>): seq<Byte> {
    Squeeze(Absorbed(Padded(m), |Padded(m)| / RATE))
  }

  // ----- the same on the 1600 bits of section 3.1

  /** Bit z of lane (x, y) is bit 64 * (x + 5 * y) + z of the state. */
  function StateBits(a: Lanes): (s: seq<bool>)
    ensures |s| == 1600
  {
    seq(1600, i requires 0 <= i < 1600 => LaneBit(a[i / 64], i % 64))
  }

  lemma StateBit(a: Lanes, n: nat, j: nat)
    requires n < 200 && j < 8
    ensures StateBits(a)[8 * n + j] == BitOf(LaneByte(a[n / 8], n % 8), j)
  {
    hide LaneBit, LaneByte, BitOf;
    assert (8 * n + j) / 64 == n / 8 && (8 * n + j) % 64 == 8 * (n % 8) + j;
    LaneByteBits(a[n / 8], n % 8, j);
  }

  lemma BitsAt(bytes: seq<Byte>, n: nat, j: nat)
    requires n < |bytes| && j < 8
    ensures Bits(bytes)[8 * n + j] == BitOf(bytes[n], j)
  {
    assert (8 * n + j) / 8 == n && (8 * n + j) % 8 == j;
  }

  /** A squeeze gives the first 256 bits of the state. */
  lemma SqueezeBits(a: Lanes)
    ensures Bits(Squeeze(a)) == StateBits(a)[..256]
  {
    hide LaneByte, BitOf, StateBits, Bits;
    assert |Bits(Squeeze(a))| == 256 by { BitCount(Squeeze(a)); }
    forall i | 0 <= i < 256 ensures Bits(Squeeze(a))[i] == StateBits(a)[i] {
      StateBit(a, i / 8, i % 8);
      BitsAt(Squeeze(a), i / 8, i % 8);
      assert i == 8 * (i / 8) + i % 8;
    }
  }

  lemma BitCount(bytes: seq<Byte>)
    ensures |Bits(bytes)| == 8 * |bytes|
  {
  }

  lemma AbsorbedByte(a: Lanes, block: seq<Byte>, n: nat)
    requires |block| == RATE && n < 200
    ensures LaneByte(Absorb(a, block)[n / 8], n % 8) ==
      if n < RATE then XorByte(LaneByte(a[n / 8], n % 8), block[n]) else LaneByte(a[n / 8], n % 8)
  {
    hide LaneByte, Lane, Xor64, XorByte;
    if n < RATE {
      var l, k := n / 8, n % 8;
      var bytes := block[8 * l..8 * l + 8];
      LaneReadsBack(bytes, k);
      XorBytes(a[l], Lane(bytes), k);
      assert bytes[k] == block[n];
    }
  }

  lemma AbsorbedBit(a: Lanes, block: seq<Byte>, n: nat, j: nat)
    requires |block| == RATE && n < 200 && j < 8
    ensures StateBits(Absorb(a, block))[8 * n + j] ==
      (StateBits(a)[8 * n + j] != (n < RATE && BitOf(block[n], j)))
  {
    hide LaneBit, LaneByte, BitOf, StateBits, Absorb, XorByte;
    StateBit(a, n, j);
    StateBit(Absorb(a, block), n, j);
    AbsorbedByte(a, block, n);
    if n < RATE {
      XorBits(LaneByte(a[n / 8], n % 8), block[n], j);
    }
  }

  /** Absorbing a block flips exactly the state bits its own bits say, and none beyond the rate. */
  lemma AbsorbBits(a: Lanes, block: seq<Byte>, i: nat)
    requires |block| == RATE && i < 1600
    ensures |Bits(block)| == 8 * RATE
    ensures StateBits(Absorb(a, block))[i] == (StateBits(a)[i] != (i < 8 * RATE && Bits(block)[i]))
  {
    hide BitOf, StateBits, Absorb, Bits;
    var n, j := i / 8, i % 8;
    assert i == 8 * n + j;
    BitCount(block);
    AbsorbedBit(a, block, n, j);
    if n < RATE { BitsAt(block, n, j); }
  }

  /** The digest is the first 256 bits of the state all blocks were absorbed into. */
  lemma DigestBits(m: seq<Byte>)
    ensures Bits(Digest(m)) == StateBits(Absorbed(Padded(m), |Padded(m)| / RATE))[..256]
  {
    hide Squeeze, StateBits, Bits, Absorbed, Padded;
    SqueezeBits(Absorbed(Padded(m), |Padded(m)| / RATE));
  }

  // ----- the same on halves

  function HalfLane(b: seq<Byte>): Half
    requires |b| == 8
  {
    Half(Word(b[4], b[5], b[6], b[7]), Word(b[0], b[1], b[2], b[3]))
  }

  lemma HalfLaneJoins(b: seq<Byte>)
    requires |b| == 8
    ensures Join(HalfLane(b)) == Lane(b)
  {
    hide Join, Word;
    JoinWords(b[0], b[1], b[2], b[3], b[4], b[5], b[6], b[7]);
  }

  function HalfAbsorb(s: Halves, block: seq<Byte>): Halves
    requires |block| == RATE
  {
    seq(25, i requires 0 <= i < 25 => if i < 17 then Xor(s[i], HalfLane(block[8 * i..8 * i + 8])) else s[i])
  }

  lemma AbsorbJoins(s: Halves, block: seq<Byte>)
    requires |block| == RATE
    ensures Joined(HalfAbsorb(s, block)) == Absorb(Joined(s), block)
  {
    hide Join, Xor, Xor64, HalfLane, Lane;
    forall i | 0 <= i < 25
      ensures Joined(HalfAbsorb(s, block))[i] == Absorb(Joined(s), block)[i]
    {
      if i < 17 {
        HalfLaneJoins(block[8 * i..8 * i + 8]);
        JoinXor(s[i], HalfLane(block[8 * i..8 * i + 8]));
      }
    }
  }

  method AbsorbInPlace(s: array<Half>, padded: array<Byte>, n: nat)
    requires s.Length == 25 && RATE * (n + 1) <= padded.Length
    modifies s
    ensures s[..] == HalfAbsorb(old(s[..]), Block(padded[..], n))
  {
    hide Xor, Word;
    var off := RATE * n;
    for i := 0 to RATE / 8
      invariant forall k :: 0 <= k < 25 ==>
        s[k] == if k < i then HalfAbsorb(old(s[..]), Block(padded[..], n))[k] else old(s[k])
    {
      var o := off + i * 8;
      ghost var b := Block(padded[..], n)[8 * i..8 * i + 8];
      assert forall j :: 0 <= j < 8 ==> b[j] == padded[o + j];
      s[i] := Xor(s[i], Half(Word(padded[o + 4], padded[o + 5], padded[o + 6], padded[o + 7]),
                             Word(padded[o], padded[o + 1], padded[o + 2], padded[o + 3])));
    }
  }

  function HalfBytes(h: Half): (b: seq<Byte>)
    ensures |b| == 8
  {
    [ByteOf(h.lo, 0), ByteOf(h.lo, 1), ByteOf(h.lo, 2), ByteOf(h.lo, 3),
     ByteOf(h.hi, 0), ByteOf(h.hi, 1), ByteOf(h.hi, 2), ByteOf(h.hi, 3)]
  }

  lemma HalfByteJoins(h: Half, k: nat)
    requires k < 8
    ensures HalfBytes(h)[k] == LaneByte(Join(h), k)
  {
    hide Join, ByteOf, LaneByte;
    JoinBytes(h, k);
  }

  lemma SqueezeStep(s: Halves, i: nat)
    requires i < 4
    ensures Squeeze(Joined(s))[8 * i..8 * i + 8] == HalfBytes(s[i])
  {
    hide Join, LaneByte, HalfBytes;
    forall k | 0 <= k < 8
      ensures Squeeze(Joined(s))[8 * i + k] == HalfBytes(s[i])[k]
    {
      HalfByteJoins(s[i], k);
      assert (8 * i + k) / 8 == i && (8 * i + k) % 8 == k;
    }
  }

  method SqueezeHalves(s: array<Half>) returns (out: seq<Byte>)
    requires s.Length == 25
    ensures out == Squeeze(Joined(s[..]))
  {
    hide Joined, Squeeze, ByteOf;
    out := [];
    for i := 0 to 4
      invariant |out| == 8 * i && out == Squeeze(Joined(s[..]))[..8 * i]
    {
      SqueezeStep(s[..], i);
      out := out + HalfBytes(s[i]);
    }
  }

  /** Keccak-256 of any message. */
  method Keccak256(bytes: seq<Byte>) returns (out: seq<Byte>)
    ensures out == Digest(bytes)
  {
    hide Joined, Padded, Rounds, Absorb, Squeeze, Block;
    var s := new Half[25](_ => ZERO);
    var padded := Pad(bytes);
    ghost var p := padded[..];
    ZeroJoins();
    assert s[..] == seq(25, _ => ZERO);
    for n := 0 to padded.Length / RATE
      invariant padded[..] == p && fresh(s)
      invariant Joined(s[..]) == Absorbed(p, n)
    {
      ghost var before: Halves := s[..];
      AbsorbInPlace(s, padded, n);
      AbsorbJoins(before, Block(p, n));
      Permute(s);
    }
    out := SqueezeHalves(s);
  }

  lemma ZeroJoins()
    ensures Joined(seq(25, _ => ZERO)) == seq(25, _ => 0 as bv64)
  {
  }
}
