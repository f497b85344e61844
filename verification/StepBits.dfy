/** The step mappings of section 3.2 of FIPS 202 bit by bit: what the operations on lanes do to A[x, y, z]. */
module StepBits {
  import opened KeccakSpec
  import opened LaneBits
  import opened LaneBytes

  // ----- bitwise operations

  function Or64(a: bv64, b: bv64): bv64 { a | b }

  lemma HalvedXor(a: bv64, b: bv64)
    ensures (a ^ b) >> 1 == (a >> 1) ^ (b >> 1)
    ensures ((a ^ b) & 1 == 1) == ((a & 1 == 1) != (b & 1 == 1))
  {
  }

  lemma XorStep(a: bv64, b: bv64)
    ensures Halve(Xor64(a, b)) == Xor64(Halve(a), Halve(b))
    ensures Odd(Xor64(a, b)) == (Odd(a) != Odd(b))
  {
    HalvedXor(a, b);
  }

  lemma {:induction false} XorBit(a: bv64, b: bv64, z: nat)
    ensures LaneBit(Xor64(a, b), z) == (LaneBit(a, z) != LaneBit(b, z))
    decreases z
  {
    hide Xor64, Halve, Odd;
    XorStep(a, b);
    if z > 0 { XorBit(Halve(a), Halve(b), z - 1); }
  }

  lemma HalvedNotAnd(a: bv64, b: bv64)
    ensures (!a & b) >> 1 == !(a >> 1) & (b >> 1)
    ensures ((!a & b) & 1 == 1) == (a & 1 != 1 && b & 1 == 1)
  {
  }

  lemma NotAndStep(a: bv64, b: bv64)
    ensures Halve(NotAnd64(a, b)) == NotAnd64(Halve(a), Halve(b))
    ensures Odd(NotAnd64(a, b)) == (!Odd(a) && Odd(b))
  {
    HalvedNotAnd(a, b);
  }

  lemma {:induction false} NotAndBit(a: bv64, b: bv64, z: nat)
    ensures LaneBit(NotAnd64(a, b), z) == (!LaneBit(a, z) && LaneBit(b, z))
    decreases z
  {
    hide NotAnd64, Halve, Odd;
    NotAndStep(a, b);
    if z > 0 { NotAndBit(Halve(a), Halve(b), z - 1); }
  }

  lemma HalvedOr(a: bv64, b: bv64)
    ensures (a | b) >> 1 == (a >> 1) | (b >> 1)
    ensures ((a | b) & 1 == 1) == (a & 1 == 1 || b & 1 == 1)
  {
  }

  lemma OrStep(a: bv64, b: bv64)
    ensures Halve(Or64(a, b)) == Or64(Halve(a), Halve(b))
    ensures Odd(Or64(a, b)) == (Odd(a) || Odd(b))
  {
    HalvedOr(a, b);
    OddOr(a, b);
  }

  lemma OddOr(a: bv64, b: bv64)
    ensures Odd(Or64(a, b)) == (Odd(a) || Odd(b))
  {
    hide Halve;
    HalvedOr(a, b);
  }

  lemma {:induction false} OrBit(a: bv64, b: bv64, z: nat)
    ensures LaneBit(Or64(a, b), z) == (LaneBit(a, z) || LaneBit(b, z))
    decreases z
  {
    hide Or64, Halve, Odd;
    OrStep(a, b);
    if z > 0 { OrBit(Halve(a), Halve(b), z - 1); }
  }

  // ----- rotation

  const TOP: bv64 := 0x8000000000000000

  /** The top bit is bit 63. */
  lemma TopBit(z: nat)
    requires z < 64
    ensures LaneBit(TOP, z) == (z == 63)
  {
    hide LaneBit;
    LaneByteBits(TOP, z / 8, z % 8);
    TopByte(z / 8, z % 8);
  }

  lemma TopByte(k: nat, j: nat)
    requires k < 8 && j < 8
    ensures BitOf(LaneByte(TOP, k), j) == (k == 7 && j == 7)
  {
    match k case 0 => case 1 => case 2 => case 3 => case 4 => case 5 => case 6 => case _ => TopMask(j);
  }

  lemma TopMask(j: nat)
    requires j < 8
    ensures BitOf(0x80, j) == (j == 7)
  {
    match j case 0 => case 1 => case 2 => case 3 => case 4 => case 5 => case 6 => case _ =>
  }

  function Double(v: bv64): bv64 { v << 1 }

  /** Doubling moves every bit up by one and drops the top one. */
  lemma DoubledBit(v: bv64, z: nat)
    requires z < 64
    ensures LaneBit(Double(v), z) == (z > 0 && LaneBit(v, z - 1))
  {
    hide Halve, Odd, NotAnd64, Double;
    LowCleared(v);
    if z > 0 {
      NotAndBit(TOP, v, z - 1);
      TopBit(z - 1);
    }
  }

  lemma LowCleared(v: bv64)
    ensures !Odd(Double(v)) && Halve(Double(v)) == NotAnd64(TOP, v)
  {
  }

  /** The top bit alone comes down to bit 0. */
  lemma CarriedBit(v: bv64, z: nat)
    ensures LaneBit(v >> 63, z) == (z == 0 && LaneBit(v, 63))
  {
    hide LaneBit;
    TopDown(v);
    TopOfByte(v);
    LaneByteBits(v, 7, 7);
    FewBits(z);
  }

  lemma TopDown(v: bv64)
    ensures v >> 63 == if v & TOP != 0 then 1 else 0
  {
  }

  lemma TopOfByte(v: bv64)
    ensures BitOf(LaneByte(v, 7), 7) == (v & TOP != 0)
  {
  }

  lemma FewBits(z: nat)
    ensures LaneBit(0, z) == false && LaneBit(1, z) == (z == 0)
  {
    NothingShifted(z);
    if z > 0 {
      assert Halve(1) == 0;
      NothingShifted(z - 1);
    }
  }

  lemma {:induction false} NothingShifted(n: nat)
    ensures Shifted(0, n) == 0
  {
    if n > 0 { NothingShifted(n - 1); }
  }

  lemma TurnParts(v: bv64)
    ensures Rot(v, 1) == Or64(Double(v), v >> 63)
  {
  }

  /** One turn moves every bit up by one and the top one to the bottom. */
  lemma TurnBit(v: bv64, z: nat)
    requires z < 64
    ensures LaneBit(Rot(v, 1), z) == LaneBit(v, (z + 63) % 64)
  {
    hide LaneBit, Rot, Or64, Double;
    TurnParts(v);
    OrBit(Double(v), v >> 63, z);
    DoubledBit(v, z);
    CarriedBit(v, z);
  }

  // Turns by powers of two, and by the amounts of the table out of these.

  lemma Twice2(v: bv64) ensures Rot(v, 2) == Rot(Rot(v, 1), 1) {}
  lemma Twice4(v: bv64) ensures Rot(v, 4) == Rot(Rot(v, 2), 2) {}
  lemma Twice8(v: bv64) ensures Rot(v, 8) == Rot(Rot(v, 4), 4) {}
  lemma Twice16(v: bv64) ensures Rot(v, 16) == Rot(Rot(v, 8), 8) {}
  lemma Twice32(v: bv64) ensures Rot(v, 32) == Rot(Rot(v, 16), 16) {}
  lemma Sum3(v: bv64) ensures Rot(v, 3) == Rot(Rot(v, 2), 1) {}
  lemma Sum6(v: bv64) ensures Rot(v, 6) == Rot(Rot(v, 4), 2) {}
  lemma Sum10(v: bv64) ensures Rot(v, 10) == Rot(Rot(v, 8), 2) {}
  lemma Sum14(v: bv64) ensures Rot(v, 14) == Rot(Rot(Rot(v, 8), 4), 2) {}
  lemma Sum15(v: bv64) ensures Rot(v, 15) == Rot(Rot(Rot(Rot(v, 8), 4), 2), 1) {}
  lemma Sum18(v: bv64) ensures Rot(v, 18) == Rot(Rot(v, 16), 2) {}
  lemma Sum20(v: bv64) ensures Rot(v, 20) == Rot(Rot(v, 16), 4) {}
  lemma Sum21(v: bv64) ensures Rot(v, 21) == Rot(Rot(Rot(v, 16), 4), 1) {}
  lemma Sum25(v: bv64) ensures Rot(v, 25) == Rot(Rot(Rot(v, 16), 8), 1) {}
  lemma Sum27(v: bv64) ensures Rot(v, 27) == Rot(Rot(Rot(Rot(v, 16), 8), 2), 1) {}
  lemma Sum28(v: bv64) ensures Rot(v, 28) == Rot(Rot(Rot(v, 16), 8), 4) {}
  lemma Sum36(v: bv64) ensures Rot(v, 36) == Rot(Rot(v, 32), 4) {}
  lemma Sum39(v: bv64) ensures Rot(v, 39) == Rot(Rot(Rot(Rot(v, 32), 4), 2), 1) {}
  lemma Sum41(v: bv64) ensures Rot(v, 41) == Rot(Rot(Rot(v, 32), 8), 1) {}
  lemma Sum43(v: bv64) ensures Rot(v, 43) == Rot(Rot(Rot(Rot(v, 32), 8), 2), 1) {}
  lemma Sum44(v: bv64) ensures Rot(v, 44) == Rot(Rot(Rot(v, 32), 8), 4) {}
  lemma Sum45(v: bv64) ensures Rot(v, 45) == Rot(Rot(Rot(Rot(v, 32), 8), 4), 1) {}
  lemma Sum55(v: bv64) ensures Rot(v, 55) == Rot(Rot(Rot(Rot(Rot(v, 32), 16), 4), 2), 1) {}
  lemma Sum56(v: bv64) ensures Rot(v, 56) == Rot(Rot(Rot(v, 32), 16), 8) {}
  lemma Sum61(v: bv64) ensures Rot(v, 61) == Rot(Rot(Rot(Rot(Rot(v, 32), 16), 8), 4), 1) {}
  lemma Sum62(v: bv64) ensures Rot(v, 62) == Rot(Rot(Rot(Rot(Rot(v, 32), 16), 8), 4), 2) {}

  lemma PowerBits(v: bv64, z: nat)
    requires z < 64
    ensures LaneBit(Rot(v, 2), z) == LaneBit(v, (z + 62) % 64) && LaneBit(Rot(v, 4), z) == LaneBit(v, (z + 60) % 64)
    ensures LaneBit(Rot(v, 8), z) == LaneBit(v, (z + 56) % 64) && LaneBit(Rot(v, 16), z) == LaneBit(v, (z + 48) % 64)
    ensures LaneBit(Rot(v, 32), z) == LaneBit(v, (z + 32) % 64)
  {
    hide LaneBit, Rot;
    TwoTurns(v, z);
    FourTurns(v, z);
    EightTurns(v, z);
    SixteenTurns(v, z);
    SixteenTurns(Rot(v, 16), z);
    SixteenTurns(v, (z + 48) % 64);
    Twice32(v);
  }

  lemma TwoTurns(v: bv64, z: nat)
    requires z < 64
    ensures LaneBit(Rot(v, 2), z) == LaneBit(v, (z + 62) % 64)
  {
    hide LaneBit, Rot;
    Twice2(v);
    TurnBit(Rot(v, 1), z);
    TurnBit(v, (z + 63) % 64);
  }

  lemma FourTurns(v: bv64, z: nat)
    requires z < 64
    ensures LaneBit(Rot(v, 4), z) == LaneBit(v, (z + 60) % 64)
  {
    hide LaneBit, Rot;
    Twice4(v);
    TwoTurns(Rot(v, 2), z);
    TwoTurns(v, (z + 62) % 64);
  }

  lemma EightTurns(v: bv64, z: nat)
    requires z < 64
    ensures LaneBit(Rot(v, 8), z) == LaneBit(v, (z + 56) % 64)
  {
    hide LaneBit, Rot;
    Twice8(v);
    FourTurns(Rot(v, 4), z);
    FourTurns(v, (z + 60) % 64);
  }

  lemma SixteenTurns(v: bv64, z: nat)
    requires z < 64
    ensures LaneBit(Rot(v, 16), z) == LaneBit(v, (z + 48) % 64)
  {
    hide LaneBit, Rot;
    Twice16(v);
    EightTurns(Rot(v, 8), z);
    EightTurns(v, (z + 56) % 64);
  }

  function TurnIf(on: bool, v: bv64, n: bv8): bv64
    requires n < 64
  {
    if on then Rot(v, n) else v
  }

  /** Turns by 32, 16, 8, 4, 2 and 1, each if wanted. */
  function Spun(v: bv64, b5: bool, b4: bool, b3: bool, b2: bool, b1: bool, b0: bool): bv64 {
    TurnIf(b0, TurnIf(b1, TurnIf(b2, TurnIf(b3, TurnIf(b4, TurnIf(b5, v, 32), 16), 8), 4), 2), 1)
  }

  function Amount(b5: bool, b4: bool, b3: bool, b2: bool, b1: bool, b0: bool): nat {
    (if b5 then 32 else 0) + (if b4 then 16 else 0) + (if b3 then 8 else 0)
    + (if b2 then 4 else 0) + (if b1 then 2 else 0) + (if b0 then 1 else 0)
  }

  lemma TurnIfBits(on: bool, v: bv64, z: nat)
    requires z < 64
    ensures LaneBit(TurnIf(on, v, 1), z) == LaneBit(v, Back(on, z, 1))
    ensures LaneBit(TurnIf(on, v, 2), z) == LaneBit(v, Back(on, z, 2))
    ensures LaneBit(TurnIf(on, v, 4), z) == LaneBit(v, Back(on, z, 4))
    ensures LaneBit(TurnIf(on, v, 8), z) == LaneBit(v, Back(on, z, 8))
    ensures LaneBit(TurnIf(on, v, 16), z) == LaneBit(v, Back(on, z, 16))
    ensures LaneBit(TurnIf(on, v, 32), z) == LaneBit(v, Back(on, z, 32))
  {
    hide LaneBit, Rot;
    TurnBit(v, z);
    PowerBits(v, z);
  }

  function Back(on: bool, z: nat, n: nat): (r: nat)
    requires z < 64 && n < 64
    ensures r < 64
  {
    if on then (z + 64 - n) % 64 else z
  }

  lemma SpunBit(v: bv64, b5: bool, b4: bool, b3: bool, b2: bool, b1: bool, b0: bool, z: nat)
    requires z < 64
    ensures LaneBit(Spun(v, b5, b4, b3, b2, b1, b0), z)
      == LaneBit(v, (z + 64 - Amount(b5, b4, b3, b2, b1, b0)) % 64)
  {
    hide LaneBit, TurnIf, Back;
    var v5 := TurnIf(b5, v, 32);
    var v4 := TurnIf(b4, v5, 16);
    var v3 := TurnIf(b3, v4, 8);
    var v2 := TurnIf(b2, v3, 4);
    var z0 := Back(b0, z, 1);
    var z1 := Back(b1, z0, 2);
    var z2 := Back(b2, z1, 4);
    var z3 := Back(b3, z2, 8);
    var z4 := Back(b4, z3, 16);
    TurnIfBits(b0, TurnIf(b1, v2, 2), z);
    TurnIfBits(b1, v2, z0);
    TurnIfBits(b2, v3, z1);
    TurnIfBits(b3, v4, z2);
    TurnIfBits(b4, v5, z3);
    TurnIfBits(b5, v, z4);
    AllBack(b5, b4, b3, b2, b1, b0, z);
  }

  lemma AllBack(b5: bool, b4: bool, b3: bool, b2: bool, b1: bool, b0: bool, z: nat)
    requires z < 64
    ensures Back(b5, Back(b4, Back(b3, Back(b2, Back(b1, Back(b0, z, 1), 2), 4), 8), 16), 32)
      == (z + 64 - Amount(b5, b4, b3, b2, b1, b0)) % 64
  {
    hide Back;
    var z0 := Back(b0, z, 1);
    var z1 := Back(b1, z0, 2);
    var z2 := Back(b2, z1, 4);
    var z3 := Back(b3, z2, 8);
    var z4 := Back(b4, z3, 16);
    var k0 := BackOnce(b0, z, 1);
    var k1 := BackOnce(b1, z0, 2);
    var k2 := BackOnce(b2, z1, 4);
    var k3 := BackOnce(b3, z2, 8);
    var k4 := BackOnce(b4, z3, 16);
    var k5 := BackOnce(b5, z4, 32);
    Around(Back(b5, z4, 32), z, Amount(b5, b4, b3, b2, b1, b0), k0 + k1 + k2 + k3 + k4 + k5);
  }

  /** Going back may go around the lane. */
  lemma BackOnce(on: bool, z: nat, n: nat) returns (k: nat)
    requires z < 64 && n < 64
    ensures Back(on, z, n) == z - (if on then n else 0) + 64 * k
  {
    k := if on && z < n then 1 else 0;
  }

  lemma Around(r: nat, z: nat, n: nat, k: nat)
    requires r < 64 && z < 64 && n < 64 && r == z - n + 64 * k
    ensures r == (z + 64 - n) % 64
  {
  }

  lemma OffsetSpins0(v: bv64, i: nat) returns (b5: bool, b4: bool, b3: bool, b2: bool, b1: bool, b0: bool)
    requires 0 <= i < 7
    ensures Rot(v, Offset(i)) == Spun(v, b5, b4, b3, b2, b1, b0) && Turn(i) == Amount(b5, b4, b3, b2, b1, b0)
  {
    hide Rot;
    match i
    case 0 => NoTurn(v);
      return false, false, false, false, false, false;
    case 1 =>
      return false, false, false, false, false, true;
    case 2 => Sum62(v);
      return true, true, true, true, true, false;
    case 3 => Sum28(v);
      return false, true, true, true, false, false;
    case 4 => Sum27(v);
      return false, true, true, false, true, true;
    case 5 => Sum36(v);
      return true, false, false, true, false, false;
    case _ => Sum44(v);
      return true, false, true, true, false, false;
  }

  lemma OffsetSpins1(v: bv64, i: nat) returns (b5: bool, b4: bool, b3: bool, b2: bool, b1: bool, b0: bool)
    requires 7 <= i < 13
    ensures Rot(v, Offset(i)) == Spun(v, b5, b4, b3, b2, b1, b0) && Turn(i) == Amount(b5, b4, b3, b2, b1, b0)
  {
    hide Rot;
    match i
    case 7 => Sum6(v);
      return false, false, false, true, true, false;
    case 8 => Sum55(v);
      return true, true, false, true, true, true;
    case 9 => Sum20(v);
      return false, true, false, true, false, false;
    case 10 => Sum3(v);
      return false, false, false, false, true, true;
    case 11 => Sum10(v);
      return false, false, true, false, true, false;
    case _ => Sum43(v);
      return true, false, true, false, true, true;
  }

  lemma OffsetSpins2(v: bv64, i: nat) returns (b5: bool, b4: bool, b3: bool, b2: bool, b1: bool, b0: bool)
    requires 13 <= i < 19
    ensures Rot(v, Offset(i)) == Spun(v, b5, b4, b3, b2, b1, b0) && Turn(i) == Amount(b5, b4, b3, b2, b1, b0)
  {
    hide Rot;
    match i
    case 13 => Sum25(v);
      return false, true, true, false, false, true;
    case 14 => Sum39(v);
      return true, false, false, true, true, true;
    case 15 => Sum41(v);
      return true, false, true, false, false, true;
    case 16 => Sum45(v);
      return true, false, true, true, false, true;
    case 17 => Sum15(v);
      return false, false, true, true, true, true;
    case _ => Sum21(v);
      return false, true, false, true, false, true;
  }

  lemma OffsetSpins3(v: bv64, i: nat) returns (b5: bool, b4: bool, b3: bool, b2: bool, b1: bool, b0: bool)
    requires 19 <= i < 25
    ensures Rot(v, Offset(i)) == Spun(v, b5, b4, b3, b2, b1, b0) && Turn(i) == Amount(b5, b4, b3, b2, b1, b0)
  {
    hide Rot;
    match i
    case 19 =>
      return false, false, true, false, false, false;
    case 20 => Sum18(v);
      return false, true, false, false, true, false;
    case 21 =>
      return false, false, false, false, true, false;
    case 22 => Sum61(v);
      return true, true, true, true, false, true;
    case 23 => Sum56(v);
      return true, true, true, false, false, false;
    case _ => Sum14(v);
      return false, false, true, true, true, false;
  }

  lemma NoTurn(v: bv64)
    ensures Rot(v, 0) == v
  {
  }

  lemma OffsetBit(v: bv64, i: nat, z: nat)
    requires i < 25 && z < 64
    ensures LaneBit(Rot(v, Offset(i)), z) == LaneBit(v, (z + 64 - Turn(i)) % 64)
  {
    hide LaneBit, Rot, Offset, Spun, Amount, Turn;
    var b5, b4, b3, b2, b1, b0;
    if i < 7 { b5, b4, b3, b2, b1, b0 := OffsetSpins0(v, i); }
    else if i < 13 { b5, b4, b3, b2, b1, b0 := OffsetSpins1(v, i); }
    else if i < 19 { b5, b4, b3, b2, b1, b0 := OffsetSpins2(v, i); }
    else { b5, b4, b3, b2, b1, b0 := OffsetSpins3(v, i); }
    SpunBit(v, b5, b4, b3, b2, b1, b0, z);
  }

  // ----- the step mappings

  /** The bit A[x, y, z] of a state. */
  function Bit(a: Lanes, x: nat, y: nat, z: nat): bool
    requires x < 5 && y < 5
  {
    LaneBit(a[x + 5 * y], z)
  }

  /** The parity C[x, z] of a column. */
  function Parity(a: Lanes, x: nat, z: nat): bool
    requires x < 5
  {
    ((((Bit(a, x, 0, z) != Bit(a, x, 1, z)) != Bit(a, x, 2, z)) != Bit(a, x, 3, z)) != Bit(a, x, 4, z))
  }

  lemma ColumnBit(a: Lanes, x: nat, z: nat)
    requires x < 5
    ensures LaneBit(Column(a, x), z) == Parity(a, x, z)
  {
    hide LaneBit, Xor64;
    var one := Xor64(a[x], a[x + 5]);
    var two := Xor64(one, a[x + 10]);
    XorBit(a[x], a[x + 5], z);
    XorBit(one, a[x + 10], z);
    XorBit(two, a[x + 15], z);
    XorBit(Xor64(two, a[x + 15]), a[x + 20], z);
  }

  lemma MixBit(a: Lanes, x: nat, z: nat)
    requires x < 5 && z < 64
    ensures LaneBit(Mix(a, x), z) == (Parity(a, (x + 4) % 5, z) != Parity(a, (x + 1) % 5, (z + 63) % 64))
  {
    hide LaneBit, Xor64, Rot, Column, Parity;
    var before, after := Column(a, (x + 4) % 5), Column(a, (x + 1) % 5);
    ColumnBit(a, (x + 4) % 5, z);
    ColumnBit(a, (x + 1) % 5, (z + 63) % 64);
    TurnBit(after, z);
    XorBit(before, Rot(after, 1), z);
  }

  lemma ThetaLane(a: Lanes, i: nat)
    requires i < 25
    ensures Theta(a)[i] == Xor64(a[i], Mix(a, i % 5))
  {
    hide Xor64, Mix;
  }

  /** Algorithm 1: theta flips a bit by the parities of the column before, and of the column after one bit back. */
  lemma ThetaBits(a: Lanes, x: nat, y: nat, z: nat)
    requires x < 5 && y < 5 && z < 64
    ensures Bit(Theta(a), x, y, z) ==
      (Bit(a, x, y, z) != (Parity(a, (x + 4) % 5, z) != Parity(a, (x + 1) % 5, (z + 63) % 64)))
  {
    hide LaneBit, Xor64, Parity, Mix, Theta;
    assert (x + 5 * y) % 5 == x;
    ThetaLane(a, x + 5 * y);
    MixBit(a, x, z);
    XorBit(a[x + 5 * y], Mix(a, x), z);
  }

  /** Algorithm 2: rho moves the bits of a lane up by its offset, around the lane. */
  lemma RhoBits(a: Lanes, x: nat, y: nat, z: nat)
    requires x < 5 && y < 5 && z < 64
    ensures Bit(Rho(a), x, y, z) == Bit(a, x, y, (z + 64 - Turn(x + 5 * y)) % 64)
  {
    hide LaneBit, Rot, Offset, Turn;
    OffsetBit(a[x + 5 * y], x + 5 * y, z);
  }

  /** Algorithm 3: pi moves lane (x + 3y, x) to (x, y). */
  lemma PiBits(a: Lanes, x: nat, y: nat, z: nat)
    requires x < 5 && y < 5
    ensures Bit(Pi(a), x, y, z) == Bit(a, (x + 3 * y) % 5, x, z)
  {
    hide LaneBit;
    assert (x + 5 * y) % 5 == x && (x + 5 * y) / 5 == y;
  }

  /** Algorithm 4: chi flips a bit where the next in its row is clear and the one after set. */
  lemma ChiBits(a: Lanes, x: nat, y: nat, z: nat)
    requires x < 5 && y < 5
    ensures Bit(Chi(a), x, y, z) ==
      (Bit(a, x, y, z) != (!Bit(a, (x + 1) % 5, y, z) && Bit(a, (x + 2) % 5, y, z)))
  {
    hide LaneBit, Xor64, NotAnd64;
    assert (x + 5 * y) % 5 == x && (x + 5 * y) / 5 == y;
    var one, two := a[(x + 1) % 5 + 5 * y], a[(x + 2) % 5 + 5 * y];
    NotAndBit(one, two, z);
    XorBit(a[x + 5 * y], NotAnd64(one, two), z);
  }

  /** Algorithm 6: iota flips the bits of lane (0, 0) that the round constant has set. */
  lemma IotaBits(a: Lanes, ir: nat, x: nat, y: nat, z: nat)
    requires x < 5 && y < 5 && ir < 24
    ensures Bit(Iota(a, ir), x, y, z) == (Bit(a, x, y, z) != (x == 0 && y == 0 && LaneBit(RoundConstant(ir), z)))
  {
    hide LaneBit, Xor64, RoundConstant;
    XorBit(a[0], RoundConstant(ir), z);
  }
}
