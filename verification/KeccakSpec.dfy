/** Keccak-f[1600] over 64-bit lanes, by section 3 of FIPS 202; lane (x, y) is element x + 5 * y. */
module KeccakSpec {
  import opened LaneBits

  type Lanes = a: seq<bv64> | |a| == 25 witness seq(25, _ => 0)

  function Column(a: Lanes, x: nat): bv64
    requires x < 5
  {
    Xor64(Xor64(Xor64(Xor64(a[x], a[x + 5]), a[x + 10]), a[x + 15]), a[x + 20])
  }

  function Mix(a: Lanes, x: nat): bv64
    requires x < 5
  {
    Xor64(Column(a, (x + 4) % 5), Rot(Column(a, (x + 1) % 5), 1))
  }

  function Theta(a: Lanes): Lanes {
    seq(25, i requires 0 <= i < 25 => Xor64(a[i], Mix(a, i % 5)))
  }

  /** How far rho turns each lane. */
  function Offset(i: nat): (r: bv8)
    requires i < 25
    ensures r < 64
  {
    match i
    case 0 => 0 case 1 => 1 case 2 => 62 case 3 => 28 case 4 => 27 case 5 => 36 case 6 => 44 case 7 => 6 case 8 => 55
    case 9 => 20 case 10 => 3 case 11 => 10 case 12 => 43 case 13 => 25 case 14 => 39 case 15 => 41 case 16 => 45
    case 17 => 15
    case 18 => 21 case 19 => 8 case 20 => 18 case 21 => 2 case 22 => 61 case 23 => 56 case _ => 14
  }

  function Rho(a: Lanes): Lanes {
    seq(25, i requires 0 <= i < 25 => Rot(a[i], Offset(i)))
  }

  /** Lane (x, y) comes from lane (x + 3y, x). */
  function Pi(a: Lanes): Lanes {
    seq(25, i requires 0 <= i < 25 => a[(i % 5 + 3 * (i / 5)) % 5 + 5 * (i % 5)])
  }

  function Blend(a: Lanes, x: nat, y: nat): bv64
    requires x < 5 && y < 5
  {
    Xor64(a[x + 5 * y], NotAnd64(a[(x + 1) % 5 + 5 * y], a[(x + 2) % 5 + 5 * y]))
  }

  function Chi(a: Lanes): Lanes {
    seq(25, i requires 0 <= i < 25 => Blend(a, i % 5, i / 5))
  }

  /** The constant iota adds in each round. */
  function RoundConstant(ir: nat): (r: bv64)
    requires ir < 24
  {
    match ir
    case 0 => 0x0000000000000001 case 1 => 0x0000000000008082 case 2 => 0x800000000000808a
    case 3 => 0x8000000080008000 case 4 => 0x000000000000808b case 5 => 0x0000000080000001
    case 6 => 0x8000000080008081 case 7 => 0x8000000000008009 case 8 => 0x000000000000008a
    case 9 => 0x0000000000000088 case 10 => 0x0000000080008009 case 11 => 0x000000008000000a
    case 12 => 0x000000008000808b case 13 => 0x800000000000008b case 14 => 0x8000000000008089
    case 15 => 0x8000000000008003 case 16 => 0x8000000000008002 case 17 => 0x8000000000000080
    case 18 => 0x000000000000800a case 19 => 0x800000008000000a case 20 => 0x8000000080008081
    case 21 => 0x8000000000008080 case 22 => 0x0000000080000001 case _ => 0x8000000080008008
  }

  function Iota(a: Lanes, ir: nat): Lanes
    requires ir < 24
  {
    a[0 := Xor64(a[0], RoundConstant(ir))]
  }

  function Round(a: Lanes, ir: nat): Lanes
    requires ir < 24
  {
    Iota(Chi(Pi(Rho(Theta(a)))), ir)
  }

  function Rounds(a: Lanes, n: nat): Lanes
    requires n <= 24
  {
    if n == 0 then a else Round(Rounds(a, n - 1), n - 1)
  }

  // ----- the two tables, from their definitions in the standard

  /** One turn of the rho walk: (x, y) becomes (y, 2x + 3y). */
  function NextLane(i: nat): nat
    requires i < 25
  {
    i / 5 + 5 * ((2 * (i % 5) + 3 * (i / 5)) % 5)
  }

  /** The lane visited at step t, from (1, 0). */
  function VisitedLane(t: nat): (i: nat)
    ensures i < 25
  {
    if t == 0 then 1 else NextLane(VisitedLane(t - 1))
  }

  /** The visits, listed. */
  function Visit(t: nat): (r: nat)
    requires t < 24
  {
    match t
    case 0 => 1 case 1 => 10 case 2 => 7 case 3 => 11 case 4 => 17 case 5 => 18 case 6 => 3 case 7 => 5 case 8 => 16
    case 9 => 8 case 10 => 21 case 11 => 24 case 12 => 4 case 13 => 15 case 14 => 23 case 15 => 19 case 16 => 13
    case 17 => 12
    case 18 => 2 case 19 => 20 case 20 => 14 case 21 => 22 case 22 => 9 case _ => 6
  }

  function Turn(i: nat): nat
    requires i < 25
  {
    Offset(i) as nat
  }

  /** 1 + 2 + ... + n, which is n (n + 1) / 2. */
  function Triangular(n: nat): nat { if n == 0 then 0 else n + Triangular(n - 1) }

  lemma WalkBegins()
    ensures Visit(0) == 1 && Turn(1) == 1 && Triangular(1) == 1
  {
  }

  lemma VisitStep(t: nat)
    requires t < 23
    ensures Visit(t) < 25 && Visit(t + 1) == NextLane(Visit(t))
  {
    if t < 3 { VisitBefore3(t); }
    else if t < 6 { VisitBefore6(t); }
    else if t < 9 { VisitBefore9(t); }
    else if t < 12 { VisitBefore12(t); }
    else if t < 15 { VisitBefore15(t); }
    else if t < 18 { VisitBefore18(t); }
    else if t < 21 { VisitBefore21(t); }
    else { VisitBefore23(t); }
  }

  lemma VisitBefore3(t: nat)
    requires t < 3
    ensures Visit(t) < 25 && Visit(t + 1) == NextLane(Visit(t))
  {
    match t case 0 => case 1 => case _ =>
  }

  lemma VisitBefore6(t: nat)
    requires 3 <= t < 6
    ensures Visit(t) < 25 && Visit(t + 1) == NextLane(Visit(t))
  {
    match t case 3 => case 4 => case _ =>
  }

  lemma VisitBefore9(t: nat)
    requires 6 <= t < 9
    ensures Visit(t) < 25 && Visit(t + 1) == NextLane(Visit(t))
  {
    match t case 6 => case 7 => case _ =>
  }

  lemma VisitBefore12(t: nat)
    requires 9 <= t < 12
    ensures Visit(t) < 25 && Visit(t + 1) == NextLane(Visit(t))
  {
    match t case 9 => case 10 => case _ =>
  }

  lemma VisitBefore15(t: nat)
    requires 12 <= t < 15
    ensures Visit(t) < 25 && Visit(t + 1) == NextLane(Visit(t))
  {
    match t case 12 => case 13 => case _ =>
  }

  lemma VisitBefore18(t: nat)
    requires 15 <= t < 18
    ensures Visit(t) < 25 && Visit(t + 1) == NextLane(Visit(t))
  {
    match t case 15 => case 16 => case _ =>
  }

  lemma VisitBefore21(t: nat)
    requires 18 <= t < 21
    ensures Visit(t) < 25 && Visit(t + 1) == NextLane(Visit(t))
  {
    match t case 18 => case 19 => case _ =>
  }

  lemma VisitBefore23(t: nat)
    requires 21 <= t < 23
    ensures Visit(t) < 25 && Visit(t + 1) == NextLane(Visit(t))
  {
    match t case 21 => case _ =>
  }

  lemma TurnStep(t: nat)
    requires t < 23
    ensures Visit(t) < 25 && Visit(t + 1) < 25 && Turn(Visit(t + 1)) == (Turn(Visit(t)) + t + 2) % 64
  {
    if t < 12 { EarlyTurn(t); } else { LateTurn(t); }
  }

  lemma EarlyTurn(t: nat)
    requires t < 12
    ensures Visit(t) < 25 && Visit(t + 1) < 25 && Turn(Visit(t + 1)) == (Turn(Visit(t)) + t + 2) % 64
  {
    match t
    case 0 => case 1 => case 2 => case 3 => case 4 => case 5 => case 6 => case 7 => case 8 =>
    case 9 => case 10 => case _ =>
  }

  lemma LateTurn(t: nat)
    requires 12 <= t < 23
    ensures Visit(t) < 25 && Visit(t + 1) < 25 && Turn(Visit(t + 1)) == (Turn(Visit(t)) + t + 2) % 64
  {
    match t
    case 12 => case 13 => case 14 => case 15 => case 16 => case 17 =>
    case 18 => case 19 => case 20 => case 21 => case _ =>
  }

  lemma {:induction false} TurnsByWalk(t: nat)
    requires t < 24
    ensures VisitedLane(t) == Visit(t) && Turn(VisitedLane(t)) == Triangular(t + 1) % 64
  {
    hide Turn, Visit, NextLane;
    WalkBegins();
    if t > 0 {
      TurnsByWalk(t - 1);
      VisitStep(t - 1);
      TurnStep(t - 1);
      WrapAdd(Triangular(t), t + 1);
    }
  }

  lemma WrapAdd(a: nat, b: nat)
    ensures (a % 64 + b) % 64 == (a + b) % 64
  {
    assert a == 64 * (a / 64) + a % 64;
  }

  /** Section 3.2.2: the visited lanes turn by the triangular numbers, lane (0, 0) not at all. */
  lemma OffsetsByWalk(t: nat)
    requires t < 24
    ensures Offset(0) == 0 && Offset(VisitedLane(t)) as int == Triangular(t + 1) % 64
  {
    TurnsByWalk(t);
  }

  /** One step of the shift register of algorithm 5. */
  function Shift(r: bv8): bv8 {
    (r << 1) ^ (if r & 0x80 != 0 then 0x71 else 0)
  }

  function Shift7(r: bv8): bv8 {
    var r1 := Shift(r); var r2 := Shift(r1); var r3 := Shift(r2);
    var r4 := Shift(r3); var r5 := Shift(r4); var r6 := Shift(r5);
    Shift(r6)
  }

  /** Seven register bits, placed at positions 2^j - 1. */
  function ConstantFrom(r: bv8): bv64 {
    var r1 := Shift(r); var r2 := Shift(r1); var r3 := Shift(r2);
    var r4 := Shift(r3); var r5 := Shift(r4); var r6 := Shift(r5);
    (r & 1) as bv64 | (((r1 & 1) as bv64) << 1) | (((r2 & 1) as bv64) << 3) | (((r3 & 1) as bv64) << 7)
    | (((r4 & 1) as bv64) << 15) | (((r5 & 1) as bv64) << 31) | (((r6 & 1) as bv64) << 63)
  }

  /** The register after 7 * ir steps from 1. */
  function Register(ir: nat): bv8 { if ir == 0 then 1 else Shift7(Register(ir - 1)) }

  /** The registers, listed. */
  function RegisterAt(ir: nat): (r: bv8)
    requires ir < 24
  {
    match ir
    case 0 => 1 case 1 => 128 case 2 => 216 case 3 => 26 case 4 => 223 case 5 => 9 case 6 => 53 case 7 => 79
    case 8 => 202
    case 9 => 112 case 10 => 65 case 11 => 236 case 12 => 213 case 13 => 205 case 14 => 99 case 15 => 171
    case 16 => 170 case 17 => 42
    case 18 => 242 case 19 => 232 case 20 => 55 case 21 => 62 case 22 => 11 case _ => 68
  }

  lemma RegisterStep(ir: nat)
    requires ir < 24
    ensures RoundConstant(ir) == ConstantFrom(RegisterAt(ir))
    ensures ir < 23 ==> RegisterAt(ir + 1) == Shift7(RegisterAt(ir))
  {
    if ir < 12 { if ir < 6 {} else {} } else { if ir < 18 {} else {} }
  }

  /** Section 3.2.5: each round constant is spelled by the shift register. */
  lemma {:induction false} ConstantsByRegister(ir: nat)
    requires ir < 24
    ensures Register(ir) == RegisterAt(ir) && RoundConstant(ir) == ConstantFrom(Register(ir))
  {
    RegisterStep(ir);
    if ir > 0 {
      ConstantsByRegister(ir - 1);
      RegisterStep(ir - 1);
    }
  }
}
