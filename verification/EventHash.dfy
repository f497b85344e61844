/** The key an event pair is processed under: the Keccak-256 digest of its RLP pre-image. */
module EventHash {
  import opened Arithmetic
  import opened KeccakBits
  import opened LaneBytes
  import opened Options
  import opened Rlp
  import opened Sponge

  function Pow2(k: nat): nat { if k == 0 then 1 else 2 * Pow2(k - 1) }

  /** The low k binary digits, least significant first. */
  function BitsOf(n: nat, k: nat): (b: seq<bool>)
    ensures |b| == k
  {
    if k == 0 then [] else [n % 2 == 1] + BitsOf(n / 2, k - 1)
  }

  lemma {:induction false} BitsOfInjective(a: nat, b: nat, k: nat)
    requires a < Pow2(k) && b < Pow2(k) && BitsOf(a, k) == BitsOf(b, k)
    ensures a == b
  {
    if k > 0 {
      assert BitsOf(a, k)[1..] == BitsOf(a / 2, k - 1) && BitsOf(b, k)[1..] == BitsOf(b / 2, k - 1);
      BitsOfInjective(a / 2, b / 2, k - 1);
      assert BitsOf(a, k)[0] == BitsOf(b, k)[0];
    }
  }

  function Pack(b0: bool, b1: bool, b2: bool, b3: bool, b4: bool, b5: bool, b6: bool, b7: bool): Byte {
    (if b0 then 0x01 else 0) | (if b1 then 0x02 else 0) | (if b2 then 0x04 else 0) | (if b3 then 0x08 else 0)
    | (if b4 then 0x10 else 0) | (if b5 then 0x20 else 0) | (if b6 then 0x40 else 0) | (if b7 then 0x80 else 0)
  }

  lemma Unpack(b0: bool, b1: bool, b2: bool, b3: bool, b4: bool, b5: bool, b6: bool, b7: bool)
    ensures var b := Pack(b0, b1, b2, b3, b4, b5, b6, b7);
      BitOf(b, 0) == b0 && BitOf(b, 1) == b1 && BitOf(b, 2) == b2 && BitOf(b, 3) == b3 &&
      BitOf(b, 4) == b4 && BitOf(b, 5) == b5 && BitOf(b, 6) == b6 && BitOf(b, 7) == b7
  {
  }

  function PackBits(b: seq<bool>): Byte
    requires |b| == 8
  {
    Pack(b[0], b[1], b[2], b[3], b[4], b[5], b[6], b[7])
  }

  /** A number below 256 as a byte. */
  function AsByte(n: nat): Byte
    requires n < 256
  {
    PackBits(BitsOf(n, 8))
  }

  lemma DivideTwice(n: nat, p: nat)
    requires p > 0
    ensures n / 2 / p == n / (2 * p)
  {
    var q := n / 2 / p;
    assert q * p <= n / 2 < q * p + p by { DivisionBounds(n / 2, p); }
    assert q * (2 * p) == 2 * (q * p);
    QuotientIs(n, 2 * p, q);
  }

  lemma QuotientIs(n: nat, d: nat, q: nat)
    requires d > 0 && q * d <= n < q * d + d
    ensures n / d == q
  {
    var r := n / d;
    DivisionBounds(n, d);
    if r < q { Scale(r + 1, q, d); }
    if q < r { Scale(q + 1, r, d); }
  }

  lemma {:induction false} BitsOfAt(n: nat, k: nat, i: nat)
    requires i < k
    ensures Pow2(i) > 0 && BitsOf(n, k)[i] == (n / Pow2(i) % 2 == 1)
  {
    if i > 0 {
      BitsOfAt(n / 2, k - 1, i - 1);
      DivideTwice(n, Pow2(i - 1));
    }
  }

  /** Bit k of the byte is binary digit k of the number. */
  lemma AsByteDigit(n: nat, k: nat)
    requires n < 256 && k < 8
    ensures Pow2(k) > 0 && BitOf(AsByte(n), k) == (n / Pow2(k) % 2 == 1)
  {
    hide Pack, BitOf, BitsOf, Pow2;
    var d := BitsOf(n, 8);
    BitsOfAt(n, 8, k);
    Unpack(d[0], d[1], d[2], d[3], d[4], d[5], d[6], d[7]);
  }

  lemma PackBitsInjective(a: seq<bool>, b: seq<bool>)
    requires |a| == |b| == 8 && PackBits(a) == PackBits(b)
    ensures a == b
  {
    hide Pack, BitOf;
    Unpack(a[0], a[1], a[2], a[3], a[4], a[5], a[6], a[7]);
    Unpack(b[0], b[1], b[2], b[3], b[4], b[5], b[6], b[7]);
  }

  lemma AsByteInjective(a: nat, b: nat)
    requires a < 256 && b < 256 && AsByte(a) == AsByte(b)
    ensures a == b
  {
    hide PackBits, BitsOf;
    PackBitsInjective(BitsOf(a, 8), BitsOf(b, 8));
    assert Pow2(8) == 256;
    BitsOfInjective(a, b, 8);
  }

  function AsBytes(s: seq<nat>): seq<Byte>
    requires Octets(s)
  {
    seq(|s|, i requires 0 <= i < |s| => AsByte(s[i]))
  }

  lemma AsBytesInjective(s: seq<nat>, t: seq<nat>)
    requires Octets(s) && Octets(t) && AsBytes(s) == AsBytes(t)
    ensures s == t
  {
    hide AsByte;
    assert |s| == |AsBytes(s)| == |AsBytes(t)| == |t|;
    forall i | 0 <= i < |s|
      ensures s[i] == t[i]
    {
      assert AsBytes(s)[i] == AsBytes(t)[i];
      AsByteInjective(s[i], t[i]);
    }
  }

  lemma PreimageOctets(blockNumber: int, eventIndex: int)
    requires Preimage(blockNumber, eventIndex).Some?
    ensures Octets(Preimage(blockNumber, eventIndex).value)
  {
    hide Encode;
    EncodedOctets(blockNumber);
    EncodedOctets(eventIndex);
  }

  lemma EncodedOctets(n: int)
    requires |Encode(n)| <= 55
    ensures Octets(Encode(n))
  {
    hide BigEndian;
  }

  /** The 32 key bytes of a pair, or the script's refusal of an over-long payload. */
  function Hash(blockNumber: int, eventIndex: int): Option<seq<Byte>> {
    var s := Preimage(blockNumber, eventIndex);
    if s.None? then None
    else
      PreimageOctets(blockNumber, eventIndex);
      Some(Digest(AsBytes(s.value)))
  }

  /** The bits of a string of octets, each one's binary digits from the lowest up. */
  function OctetBits(s: seq<nat>): seq<bool> {
    seq(8 * |s|, i requires 0 <= i < 8 * |s| => s[i / 8] / (Pow2Positive(i % 8); Pow2(i % 8)) % 2 == 1)
  }

  lemma Pow2Positive(k: nat)
    ensures Pow2(k) > 0
  {
  }

  lemma BitsOfOctets(s: seq<nat>)
    requires Octets(s)
    ensures Bits(AsBytes(s)) == OctetBits(s)
  {
    hide AsByte, BitOf, Pow2;
    BitCount(AsBytes(s));
    forall i | 0 <= i < 8 * |s| ensures Bits(AsBytes(s))[i] == OctetBits(s)[i] { AsByteDigit(s[i / 8], i % 8); }
  }

  /** A byte string that an RLP decoder reads as the pair. */
  ghost predicate Spells(s: seq<nat>, blockNumber: int, eventIndex: int) {
    Octets(s) && DecodePair(s) == Some((NonNegative(blockNumber), NonNegative(eventIndex)))
  }

  /**
   * The key of a pair is the standard's Keccak-256 of the byte string that spells it, of which there
   * is at most one; the refused pairs are those no short list spells.
   */
  lemma HashMeans(blockNumber: int, eventIndex: int, s: seq<nat>)
    ensures var hash := Hash(blockNumber, eventIndex);
      && (Spells(s, blockNumber, eventIndex) ==> hash.Some? && Bits(hash.value) == Keccak256On(OctetBits(s)))
      && (hash.Some? ==> exists t :: Spells(t, blockNumber, eventIndex))
  {
    hide Digest, Keccak256On, OctetBits, AsBytes, DecodePair, Encode;
    SamePreimage(blockNumber, eventIndex);
    if Spells(s, blockNumber, eventIndex) {
      PreimageIff(s, NonNegative(blockNumber), NonNegative(eventIndex));
      DigestIsKeccak(AsBytes(s));
      BitsOfOctets(s);
    }
    if Hash(blockNumber, eventIndex).Some? {
      var t := Preimage(blockNumber, eventIndex).value;
      PreimageOctets(blockNumber, eventIndex);
      PreimageDecodes(blockNumber, eventIndex);
      assert Spells(t, blockNumber, eventIndex);
    }
  }

  lemma SamePreimage(blockNumber: int, eventIndex: int)
    ensures Preimage(blockNumber, eventIndex) == Preimage(NonNegative(blockNumber), NonNegative(eventIndex))
  {
  }

  method EventHash(blockNumber: int, eventIndex: int) returns (hash: Option<seq<Byte>>)
    ensures hash == Hash(blockNumber, eventIndex)
    ensures forall s :: Spells(s, blockNumber, eventIndex) ==>
      hash.Some? && Bits(hash.value) == Keccak256On(OctetBits(s))
    ensures hash.Some? ==> exists s :: Spells(s, blockNumber, eventIndex)
  {
    hide Digest, Keccak256On, Spells, Bits, OctetBits, Encode;
    forall s
      ensures Spells(s, blockNumber, eventIndex) ==>
        Hash(blockNumber, eventIndex).Some? &&
        Bits(Hash(blockNumber, eventIndex).value) == Keccak256On(OctetBits(s))
    {
      HashMeans(blockNumber, eventIndex, s);
    }
    HashMeans(blockNumber, eventIndex, []);
    var first := RlpUint(blockNumber);
    var second := RlpUint(eventIndex);
    var payload := first + second;
    if |payload| > 55 { return None; }
    PreimageOctets(blockNumber, eventIndex);
    var out := Keccak256(AsBytes([0xc0 + |payload|] + payload));
    return Some(out);
  }

  /** What the sponge absorbs for a pair. */
  function Absorption(blockNumber: int, eventIndex: int): seq<Byte>
    requires Preimage(blockNumber, eventIndex).Some?
  {
    PreimageOctets(blockNumber, eventIndex);
    Padded(AsBytes(Preimage(blockNumber, eventIndex).value))
  }

  /** Two accepted pairs are absorbed alike exactly when they agree, so distinct keys collide only inside Keccak. */
  lemma PairsAbsorbApart(b0: nat, i0: nat, b1: nat, i1: nat)
    requires Preimage(b0, i0).Some? && Preimage(b1, i1).Some?
    ensures Absorption(b0, i0) == Absorption(b1, i1) <==> b0 == b1 && i0 == i1
  {
    hide AsBytes, Preimage, Padded;
    PreimageInjective(b0, i0, b1, i1);
    PreimageOctets(b0, i0);
    PreimageOctets(b1, i1);
    if Absorption(b0, i0) == Absorption(b1, i1) {
      PaddingInjective(AsBytes(Preimage(b0, i0).value), AsBytes(Preimage(b1, i1).value));
      AsBytesInjective(Preimage(b0, i0).value, Preimage(b1, i1).value);
    }
  }
}
