/** Keccak-256 on bit strings, as FIPS 202 writes it, and the sponge over lanes against it. */
module KeccakBits {
  import opened KeccakSpec
  import opened LaneBits
  import opened LaneBytes
  import opened Sponge
  import opened StepBits

  type BitState = s: seq<bool> | |s| == 1600 witness seq(1600, _ => false)

  /** Section 3.1.2: the bit A[x, y, z]. */
  function At(s: BitState, x: nat, y: nat, z: nat): bool
    requires x < 5 && y < 5 && z < 64
  {
    s[64 * (5 * y + x) + z]
  }

  function X(i: nat): nat { i / 64 % 5 }
  function Y(i: nat): nat { i / 320 }
  function Z(i: nat): nat { i % 64 }

  lemma Position(i: nat)
    requires i < 1600
    ensures X(i) < 5 && Y(i) < 5 && Z(i) < 64 && i == 64 * (5 * Y(i) + X(i)) + Z(i)
    ensures i / 64 == X(i) + 5 * Y(i)
  {
  }

  /** C[x, z], the parity of a column. */
  function ColumnParity(s: BitState, x: nat, z: nat): bool
    requires x < 5 && z < 64
  {
    (((At(s, x, 0, z) != At(s, x, 1, z)) != At(s, x, 2, z)) != At(s, x, 3, z)) != At(s, x, 4, z)
  }

  // ----- the step mappings of section 3.2

  function ThetaAt(s: BitState, x: nat, y: nat, z: nat): bool
    requires x < 5 && y < 5 && z < 64
  {
    At(s, x, y, z) != (ColumnParity(s, (x + 4) % 5, z) != ColumnParity(s, (x + 1) % 5, (z + 63) % 64))
  }

  function RhoAt(s: BitState, x: nat, y: nat, z: nat): bool
    requires x < 5 && y < 5 && z < 64
  {
    At(s, x, y, (z + 64 - Turn(x + 5 * y)) % 64)
  }

  function PiAt(s: BitState, x: nat, y: nat, z: nat): bool
    requires x < 5 && y < 5 && z < 64
  {
    At(s, (x + 3 * y) % 5, x, z)
  }

  function ChiAt(s: BitState, x: nat, y: nat, z: nat): bool
    requires x < 5 && y < 5 && z < 64
  {
    At(s, x, y, z) != (!At(s, (x + 1) % 5, y, z) && At(s, (x + 2) % 5, y, z))
  }

  function IotaAt(s: BitState, ir: nat, x: nat, y: nat, z: nat): bool
    requires ir < 24 && x < 5 && y < 5 && z < 64
  {
    At(s, x, y, z) != (x == 0 && y == 0 && LaneBit(RoundConstant(ir), z))
  }

  function ThetaOn(s: BitState): BitState {
    seq(1600, i requires 0 <= i < 1600 => (Position(i); ThetaAt(s, X(i), Y(i), Z(i))))
  }

  function RhoOn(s: BitState): BitState {
    seq(1600, i requires 0 <= i < 1600 => (Position(i); RhoAt(s, X(i), Y(i), Z(i))))
  }

  function PiOn(s: BitState): BitState {
    seq(1600, i requires 0 <= i < 1600 => (Position(i); PiAt(s, X(i), Y(i), Z(i))))
  }

  function ChiOn(s: BitState): BitState {
    seq(1600, i requires 0 <= i < 1600 => (Position(i); ChiAt(s, X(i), Y(i), Z(i))))
  }

  function IotaOn(s: BitState, ir: nat): BitState
    requires ir < 24
  {
    seq(1600, i requires 0 <= i < 1600 => (Position(i); IotaAt(s, ir, X(i), Y(i), Z(i))))
  }

  /** Section 3.3: the first n rounds of Keccak-f[1600]. */
  function RoundsOn(s: BitState, n: nat): BitState
    requires n <= 24
  {
    if n == 0 then s else IotaOn(ChiOn(PiOn(RhoOn(ThetaOn(RoundsOn(s, n - 1))))), n - 1)
  }

  // ----- the sponge of section 4, rate 1088

  function AbsorbOn(s: BitState, block: seq<bool>): BitState
    requires |block| == 1088
  {
    seq(1600, i requires 0 <= i < 1600 => s[i] != (i < 1088 && block[i]))
  }

  function AbsorbedOn(p: seq<bool>, n: nat): BitState
    requires 1088 * n <= |p|
  {
    if n == 0 then seq(1600, _ => false)
    else RoundsOn(AbsorbOn(AbsorbedOn(p, n - 1), p[1088 * (n - 1)..1088 * n]), 24)
  }

  /** Pad, absorb every block, and take the first 256 bits. */
  function Keccak256On(m: seq<bool>): (digest: seq<bool>)
    ensures |digest| == 256
  {
    var p := m + Pad101(1088, |m|);
    AbsorbedOn(p, |p| / 1088)[..256]
  }

  // ----- the lanes do the same

  lemma BitIs(a: Lanes, x: nat, y: nat, z: nat)
    requires x < 5 && y < 5 && z < 64
    ensures At(StateBits(a), x, y, z) == Bit(a, x, y, z)
  {
    hide LaneBit;
    var i := 64 * (5 * y + x) + z;
    assert i / 64 == x + 5 * y && i % 64 == z;
  }

  lemma ParityIs(a: Lanes, x: nat, z: nat)
    requires x < 5 && z < 64
    ensures ColumnParity(StateBits(a), x, z) == Parity(a, x, z)
  {
    hide At, Bit, StateBits;
    BitIs(a, x, 0, z);
    BitIs(a, x, 1, z);
    BitIs(a, x, 2, z);
    BitIs(a, x, 3, z);
    BitIs(a, x, 4, z);
  }

  lemma AtPosition(s: BitState, i: nat)
    requires i < 1600
    ensures X(i) < 5 && Y(i) < 5 && Z(i) < 64 && s[i] == At(s, X(i), Y(i), Z(i))
  {
    Position(i);
  }

  lemma ThetaOnBits(a: Lanes)
    ensures StateBits(Theta(a)) == ThetaOn(StateBits(a))
  {
    hide At, Bit, StateBits, ColumnParity, Parity, X, Y, Z, Theta;
    forall i | 0 <= i < 1600 ensures StateBits(Theta(a))[i] == ThetaOn(StateBits(a))[i] {
      AtPosition(StateBits(Theta(a)), i);
      var x, y, z := X(i), Y(i), Z(i);
      BitIs(Theta(a), x, y, z);
      ThetaBits(a, x, y, z);
      BitIs(a, x, y, z);
      ParityIs(a, (x + 4) % 5, z);
      ParityIs(a, (x + 1) % 5, (z + 63) % 64);
    }
  }

  lemma RhoOnBits(a: Lanes)
    ensures StateBits(Rho(a)) == RhoOn(StateBits(a))
  {
    hide At, Bit, StateBits, X, Y, Z, Rho, Turn;
    forall i | 0 <= i < 1600 ensures StateBits(Rho(a))[i] == RhoOn(StateBits(a))[i] {
      AtPosition(StateBits(Rho(a)), i);
      var x, y, z := X(i), Y(i), Z(i);
      BitIs(Rho(a), x, y, z);
      RhoBits(a, x, y, z);
      BitIs(a, x, y, (z + 64 - Turn(x + 5 * y)) % 64);
    }
  }

  lemma PiOnBits(a: Lanes)
    ensures StateBits(Pi(a)) == PiOn(StateBits(a))
  {
    hide At, Bit, StateBits, X, Y, Z, Pi;
    forall i | 0 <= i < 1600 ensures StateBits(Pi(a))[i] == PiOn(StateBits(a))[i] {
      AtPosition(StateBits(Pi(a)), i);
      var x, y, z := X(i), Y(i), Z(i);
      BitIs(Pi(a), x, y, z);
      PiBits(a, x, y, z);
      BitIs(a, (x + 3 * y) % 5, x, z);
    }
  }

  lemma ChiOnBits(a: Lanes)
    ensures StateBits(Chi(a)) == ChiOn(StateBits(a))
  {
    hide At, Bit, StateBits, X, Y, Z, Chi;
    forall i | 0 <= i < 1600 ensures StateBits(Chi(a))[i] == ChiOn(StateBits(a))[i] {
      AtPosition(StateBits(Chi(a)), i);
      var x, y, z := X(i), Y(i), Z(i);
      BitIs(Chi(a), x, y, z);
      ChiBits(a, x, y, z);
      BitIs(a, x, y, z);
      BitIs(a, (x + 1) % 5, y, z);
      BitIs(a, (x + 2) % 5, y, z);
    }
  }

  lemma IotaOnBits(a: Lanes, ir: nat)
    requires ir < 24
    ensures StateBits(Iota(a, ir)) == IotaOn(StateBits(a), ir)
  {
    hide At, Bit, StateBits, X, Y, Z, Iota, LaneBit, RoundConstant;
    forall i | 0 <= i < 1600 ensures StateBits(Iota(a, ir))[i] == IotaOn(StateBits(a), ir)[i] {
      AtPosition(StateBits(Iota(a, ir)), i);
      var x, y, z := X(i), Y(i), Z(i);
      BitIs(Iota(a, ir), x, y, z);
      IotaBits(a, ir, x, y, z);
      BitIs(a, x, y, z);
    }
  }

  lemma {:induction false} RoundsOnBits(a: Lanes, n: nat)
    requires n <= 24
    ensures StateBits(Rounds(a, n)) == RoundsOn(StateBits(a), n)
  {
    hide Theta, Rho, Pi, Chi, Iota, ThetaOn, RhoOn, PiOn, ChiOn, IotaOn, StateBits;
    if n > 0 {
      var b := Rounds(a, n - 1);
      RoundsOnBits(a, n - 1);
      ThetaOnBits(b);
      RhoOnBits(Theta(b));
      PiOnBits(Rho(Theta(b)));
      ChiOnBits(Pi(Rho(Theta(b))));
      IotaOnBits(Chi(Pi(Rho(Theta(b)))), n - 1);
    }
  }

  lemma AbsorbOnBits(a: Lanes, block: seq<Byte>)
    requires |block| == RATE
    ensures |Bits(block)| == 1088 && StateBits(Absorb(a, block)) == AbsorbOn(StateBits(a), Bits(block))
  {
    hide StateBits, Bits, Absorb;
    BitCount(block);
    forall i | 0 <= i < 1600 ensures StateBits(Absorb(a, block))[i] == AbsorbOn(StateBits(a), Bits(block))[i] {
      AbsorbBits(a, block, i);
    }
  }

  lemma BlockBits(p: seq<Byte>, n: nat)
    requires RATE * (n + 1) <= |p|
    ensures |Bits(p)| == 8 * |p| && Bits(Block(p, n)) == Bits(p)[1088 * n..1088 * (n + 1)]
  {
    hide BitOf;
    forall i | 0 <= i < 1088 ensures Bits(Block(p, n))[i] == Bits(p)[1088 * n + i] {
      assert (1088 * n + i) / 8 == RATE * n + i / 8 && (1088 * n + i) % 8 == i % 8;
    }
  }

  lemma NothingSet()
    ensures StateBits(seq(25, _ => 0)) == seq(1600, _ => false)
  {
    hide LaneBit;
    var zero: Lanes := seq(25, _ => 0);
    forall i | 0 <= i < 1600 ensures StateBits(zero)[i] == false { FewBits(i % 64); }
  }

  lemma {:induction false} AbsorbedOnBits(p: seq<Byte>, n: nat)
    requires RATE * n <= |p|
    ensures |Bits(p)| == 8 * |p| && StateBits(Absorbed(p, n)) == AbsorbedOn(Bits(p), n)
  {
    hide StateBits, Bits, Absorb, AbsorbOn, Rounds, RoundsOn, Block;
    BitCount(p);
    if n == 0 {
      NothingSet();
    } else {
      AbsorbedOnBits(p, n - 1);
      BlockBits(p, n - 1);
      AbsorbOnBits(Absorbed(p, n - 1), Block(p, n - 1));
      RoundsOnBits(Absorb(Absorbed(p, n - 1), Block(p, n - 1)), 24);
    }
  }

  /** The bits of a digest are the standard's Keccak-256 of the bits of the message. */
  lemma DigestIsKeccak(m: seq<Byte>)
    ensures Bits(Digest(m)) == Keccak256On(Bits(m))
  {
    hide StateBits, Bits, Absorbed, AbsorbedOn, Padded, Squeeze, Pad101;
    DigestBits(m);
    PaddingIsPad101(m);
    AbsorbedOnBits(Padded(m), |Padded(m)| / RATE);
    BitCount(m);
    assert |Bits(Padded(m))| / 1088 == |Padded(m)| / RATE;
  }
}
