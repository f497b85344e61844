/** A 64-bit lane as two 32-bit halves, and what each bit operation on the halves does to the lane. */
module LaneBits {
  datatype Half = Half(hi: bv32, lo: bv32)

  const ZERO := Half(0, 0)

  function Join(h: Half): bv64 { ((h.hi as bv64) << 32) | (h.lo as bv64) }

  function Rot(v: bv64, n: bv8): bv64
    requires n < 64
  {
    (v << n) | (v >> (64 - n))
  }

  function Xor64(a: bv64, b: bv64): bv64 { a ^ b }

  function NotAnd64(a: bv64, b: bv64): bv64 { !a & b }

  function Xor(a: Half, b: Half): Half { Half(a.hi ^ b.hi, a.lo ^ b.lo) }

  function NotAnd(a: Half, b: Half): Half { Half(!a.hi & b.hi, !a.lo & b.lo) }

  /** The split rotation: halves swap at 32 and feed each other around it. */
  function Rotl(x: Half, n: bv8): Half
    requires n < 64
  {
    if n == 0 then x
    else if n < 32 then Half((x.hi << n) | (x.lo >> (32 - n)), (x.lo << n) | (x.hi >> (32 - n)))
    else if n == 32 then Half(x.lo, x.hi)
    else
      var m := n - 32;
      Half((x.lo << m) | (x.hi >> (32 - m)), (x.hi << m) | (x.lo >> (32 - m)))
  }

  // ----- halves against lanes, bit by bit

  lemma JoinXor(a: Half, b: Half)
    ensures Join(Xor(a, b)) == Xor64(Join(a), Join(b))
  {
  }

  lemma JoinNotAnd(a: Half, b: Half)
    ensures Join(NotAnd(a, b)) == NotAnd64(Join(a), Join(b))
  {
  }

  // The split rotation is the 64-bit one, for each amount the permutation uses.

  lemma Turn0(x: Half) ensures Join(Rotl(x, 0)) == Rot(Join(x), 0) {}
  lemma Turn1(x: Half) ensures Join(Rotl(x, 1)) == Rot(Join(x), 1) {}
  lemma Turn2(x: Half) ensures Join(Rotl(x, 2)) == Rot(Join(x), 2) {}
  lemma Turn3(x: Half) ensures Join(Rotl(x, 3)) == Rot(Join(x), 3) {}
  lemma Turn6(x: Half) ensures Join(Rotl(x, 6)) == Rot(Join(x), 6) {}
  lemma Turn8(x: Half) ensures Join(Rotl(x, 8)) == Rot(Join(x), 8) {}
  lemma Turn10(x: Half) ensures Join(Rotl(x, 10)) == Rot(Join(x), 10) {}
  lemma Turn14(x: Half) ensures Join(Rotl(x, 14)) == Rot(Join(x), 14) {}
  lemma Turn15(x: Half) ensures Join(Rotl(x, 15)) == Rot(Join(x), 15) {}
  lemma Turn18(x: Half) ensures Join(Rotl(x, 18)) == Rot(Join(x), 18) {}
  lemma Turn20(x: Half) ensures Join(Rotl(x, 20)) == Rot(Join(x), 20) {}
  lemma Turn21(x: Half) ensures Join(Rotl(x, 21)) == Rot(Join(x), 21) {}
  lemma Turn25(x: Half) ensures Join(Rotl(x, 25)) == Rot(Join(x), 25) {}
  lemma Turn27(x: Half) ensures Join(Rotl(x, 27)) == Rot(Join(x), 27) {}
  lemma Turn28(x: Half) ensures Join(Rotl(x, 28)) == Rot(Join(x), 28) {}
  lemma Turn36(x: Half) ensures Join(Rotl(x, 36)) == Rot(Join(x), 36) {}
  lemma Turn39(x: Half) ensures Join(Rotl(x, 39)) == Rot(Join(x), 39) {}
  lemma Turn41(x: Half) ensures Join(Rotl(x, 41)) == Rot(Join(x), 41) {}
  lemma Turn43(x: Half) ensures Join(Rotl(x, 43)) == Rot(Join(x), 43) {}
  lemma Turn44(x: Half) ensures Join(Rotl(x, 44)) == Rot(Join(x), 44) {}
  lemma Turn45(x: Half) ensures Join(Rotl(x, 45)) == Rot(Join(x), 45) {}
  lemma Turn55(x: Half) ensures Join(Rotl(x, 55)) == Rot(Join(x), 55) {}
  lemma Turn56(x: Half) ensures Join(Rotl(x, 56)) == Rot(Join(x), 56) {}
  lemma Turn61(x: Half) ensures Join(Rotl(x, 61)) == Rot(Join(x), 61) {}
  lemma Turn62(x: Half) ensures Join(Rotl(x, 62)) == Rot(Join(x), 62) {}
}
