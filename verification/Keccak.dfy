/** The in-place permutation on 32-bit halves, and that it is Keccak-f[1600] on the joined lanes. */
module Keccak {
  import opened LaneBits
  import opened KeccakSpec

  type Halves = s: seq<Half> | |s| == 25 witness seq(25, _ => ZERO)

  ghost function Joined(s: Halves): Lanes { seq(25, i requires 0 <= i < 25 => Join(s[i])) }

  // ----- each step on halves

  function HalfColumn(s: Halves, x: nat): Half
    requires x < 5
  {
    Xor(Xor(Xor(Xor(s[x], s[x + 5]), s[x + 10]), s[x + 15]), s[x + 20])
  }

  function HalfMix(s: Halves, x: nat): Half
    requires x < 5
  {
    Xor(HalfColumn(s, (x + 4) % 5), Rotl(HalfColumn(s, (x + 1) % 5), 1))
  }

  function HalfTheta(s: Halves): Halves {
    seq(25, i requires 0 <= i < 25 => Xor(s[i], HalfMix(s, i % 5)))
  }

  /** The element the rho and pi loop moves to i. */
  function Source(i: nat): (r: nat)
    requires i < 25
    ensures r < 25 && r % 5 == (i % 5 + 3 * (i / 5)) % 5 && r / 5 == i % 5
  {
    (i % 5 + 3 * (i / 5)) % 5 + 5 * (i % 5)
  }

  function HalfRhoPi(s: Halves): Halves {
    seq(25, i requires 0 <= i < 25 => Rotl(s[Source(i)], Offset(Source(i))))
  }

  function HalfBlend(s: Halves, x: nat, y: nat): Half
    requires x < 5 && y < 5
  {
    Xor(s[x + 5 * y], NotAnd(s[(x + 1) % 5 + 5 * y], s[(x + 2) % 5 + 5 * y]))
  }

  function HalfChi(s: Halves): Halves {
    seq(25, i requires 0 <= i < 25 => HalfBlend(s, i % 5, i / 5))
  }

  function RoundPair(ir: nat): Half
    requires ir < 24
  {
    match ir
    case 0 => Half(0x00000000, 0x00000001) case 1 => Half(0x00000000, 0x00008082) case 2 => Half(0x80000000, 0x0000808a)
    case 3 => Half(0x80000000, 0x80008000) case 4 => Half(0x00000000, 0x0000808b) case 5 => Half(0x00000000, 0x80000001)
    case 6 => Half(0x80000000, 0x80008081) case 7 => Half(0x80000000, 0x00008009) case 8 => Half(0x00000000, 0x0000008a)
    case 9 => Half(0x00000000, 0x00000088) case 10 => Half(0x00000000, 0x80008009)
    case 11 => Half(0x00000000, 0x8000000a)
    case 12 => Half(0x00000000, 0x8000808b) case 13 => Half(0x80000000, 0x0000008b)
    case 14 => Half(0x80000000, 0x00008089)
    case 15 => Half(0x80000000, 0x00008003) case 16 => Half(0x80000000, 0x00008002)
    case 17 => Half(0x80000000, 0x00000080)
    case 18 => Half(0x00000000, 0x0000800a) case 19 => Half(0x80000000, 0x8000000a)
    case 20 => Half(0x80000000, 0x80008081)
    case 21 => Half(0x80000000, 0x00008080) case 22 => Half(0x00000000, 0x80000001)
    case _ => Half(0x80000000, 0x80008008)
  }

  function HalfIota(s: Halves, ir: nat): Halves
    requires ir < 24
  {
    s[0 := Xor(s[0], RoundPair(ir))]
  }

  function HalfRound(s: Halves, ir: nat): Halves
    requires ir < 24
  {
    HalfIota(HalfChi(HalfRhoPi(HalfTheta(s))), ir)
  }

  // ----- each step joins to its lane form

  lemma RotlJoins(x: Half, i: nat)
    requires i < 25
    ensures Join(Rotl(x, Offset(i))) == Rot(Join(x), Offset(i))
  {
    hide Join, Rotl, Rot;
    match i
    case 0 => Turn0(x); case 1 => Turn1(x); case 2 => Turn62(x); case 3 => Turn28(x); case 4 => Turn27(x);
    case 5 => Turn36(x); case 6 => Turn44(x); case 7 => Turn6(x); case 8 => Turn55(x); case 9 => Turn20(x);
    case 10 => Turn3(x); case 11 => Turn10(x); case 12 => Turn43(x); case 13 => Turn25(x); case 14 => Turn39(x);
    case 15 => Turn41(x); case 16 => Turn45(x); case 17 => Turn15(x); case 18 => Turn21(x); case 19 => Turn8(x);
    case 20 => Turn18(x); case 21 => Turn2(x); case 22 => Turn61(x); case 23 => Turn56(x); case _ => Turn14(x);
  }

  lemma ColumnJoins(s: Halves, x: nat)
    requires x < 5
    ensures Join(HalfColumn(s, x)) == Column(Joined(s), x)
  {
    hide Join, Xor, Xor64;
    var one := Xor(s[x], s[x + 5]);
    var two := Xor(one, s[x + 10]);
    var three := Xor(two, s[x + 15]);
    JoinXor(s[x], s[x + 5]);
    JoinXor(one, s[x + 10]);
    JoinXor(two, s[x + 15]);
    JoinXor(three, s[x + 20]);
  }

  lemma MixJoins(s: Halves, x: nat)
    requires x < 5
    ensures Join(HalfMix(s, x)) == Mix(Joined(s), x)
  {
    hide Join, Xor, Xor64, Rotl, Rot, Column, HalfColumn, Joined;
    var left, right := HalfColumn(s, (x + 4) % 5), HalfColumn(s, (x + 1) % 5);
    ColumnJoins(s, (x + 4) % 5);
    ColumnJoins(s, (x + 1) % 5);
    Turn1(right);
    JoinXor(left, Rotl(right, 1));
  }

  lemma ThetaJoins(s: Halves)
    ensures Joined(HalfTheta(s)) == Theta(Joined(s))
  {
    hide Join, Xor, Xor64, Mix, HalfMix;
    forall i | 0 <= i < 25
      ensures Joined(HalfTheta(s))[i] == Theta(Joined(s))[i]
    {
      MixJoins(s, i % 5);
      JoinXor(s[i], HalfMix(s, i % 5));
    }
  }

  lemma RhoPiJoins(s: Halves)
    ensures Joined(HalfRhoPi(s)) == Pi(Rho(Joined(s)))
  {
    hide Join, Rotl, Rot, Offset;
    forall i | 0 <= i < 25
      ensures Joined(HalfRhoPi(s))[i] == Pi(Rho(Joined(s)))[i]
    {
      LaneMoves(s, i);
    }
  }

  lemma LaneMoves(s: Halves, i: nat)
    requires i < 25
    ensures Joined(HalfRhoPi(s))[i] == Pi(Rho(Joined(s)))[i]
  {
    hide Join, Rotl, Rot, Offset;
    RotlJoins(s[Source(i)], Source(i));
  }

  lemma BlendJoins(s: Halves, x: nat, y: nat)
    requires x < 5 && y < 5
    ensures Join(HalfBlend(s, x, y)) == Blend(Joined(s), x, y)
  {
    hide Join, Xor, Xor64, NotAnd, NotAnd64;
    var one, two := s[(x + 1) % 5 + 5 * y], s[(x + 2) % 5 + 5 * y];
    JoinNotAnd(one, two);
    JoinXor(s[x + 5 * y], NotAnd(one, two));
  }

  lemma ChiJoins(s: Halves)
    ensures Joined(HalfChi(s)) == Chi(Joined(s))
  {
    hide Join, Blend, HalfBlend;
    forall i | 0 <= i < 25
      ensures Joined(HalfChi(s))[i] == Chi(Joined(s))[i]
    {
      BlendJoins(s, i % 5, i / 5);
    }
  }

  lemma RoundPairJoins(ir: nat)
    requires ir < 24
    ensures Join(RoundPair(ir)) == RoundConstant(ir)
  {
    if ir < 12 { if ir < 6 {} else {} } else { if ir < 18 {} else {} }
  }

  lemma IotaJoins(s: Halves, ir: nat)
    requires ir < 24
    ensures Joined(HalfIota(s, ir)) == Iota(Joined(s), ir)
  {
    hide Join, Xor, Xor64, RoundPair, RoundConstant;
    RoundPairJoins(ir);
    JoinXor(s[0], RoundPair(ir));
  }

  /** A round on halves is the round of section 3.3 on the joined lanes. */
  lemma RoundJoins(s: Halves, ir: nat)
    requires ir < 24
    ensures Joined(HalfRound(s, ir)) == Round(Joined(s), ir)
  {
    hide Joined, HalfTheta, HalfRhoPi, HalfChi, HalfIota, Theta, Pi, Rho, Chi, Iota;
    ThetaJoins(s);
    RhoPiJoins(HalfTheta(s));
    ChiJoins(HalfRhoPi(HalfTheta(s)));
    IotaJoins(HalfChi(HalfRhoPi(HalfTheta(s))), ir);
  }

  // ----- the loops

  /** The coordinates of an element. */
  function X(i: nat): nat { i % 5 }

  function Y(i: nat): nat { i / 5 }

  lemma Coordinates(x: nat, y: nat)
    requires x < 5 && y < 5
    ensures x + 5 * y < 25
    ensures forall i :: 0 <= i < 25 ==> (X(i) == x && Y(i) == y <==> i == x + 5 * y)
  {
  }

  lemma InRange()
    ensures forall i :: 0 <= i < 25 ==> X(i) < 5 && Y(i) < 5
  {
  }

  /** The element (x, y) lands on, and nothing else does. */
  lemma Landing(x: nat, y: nat)
    requires x < 5 && y < 5
    ensures x + 5 * y < 25 && y + 5 * ((2 * x + 3 * y) % 5) < 25
    ensures forall i :: 0 <= i < 25 ==>
      (X(Source(i)) == x && Y(Source(i)) == y <==> i == y + 5 * ((2 * x + 3 * y) % 5))
  {
    hide *;
    forall i | 0 <= i < 25
      ensures X(Source(i)) == x && Y(Source(i)) == y <==> i == y + 5 * ((2 * x + 3 * y) % 5)
    {
      LandingOf(x, y, i);
    }
  }

  lemma LandingOf(x: nat, y: nat, i: nat)
    requires x < 5 && y < 5 && i < 25
    ensures X(Source(i)) == x && Y(Source(i)) == y <==> i == y + 5 * ((2 * x + 3 * y) % 5)
  {
    var u, v := i % 5, i / 5;
    Solve(u, v, x);
    Split(u, v, y, (2 * x + 3 * y) % 5);
  }

  lemma Solve(u: nat, v: nat, x: nat)
    requires v < 5 && x < 5
    ensures (u + 3 * v) % 5 == x <==> v == (2 * x + 3 * u) % 5
  {
    if (u + 3 * v) % 5 == x { SolveForV(u, v, x); }
    if v == (2 * x + 3 * u) % 5 { SolveForX(u, v, x); }
  }

  lemma SolveForV(u: nat, v: nat, x: nat)
    requires v < 5 && (u + 3 * v) % 5 == x
    ensures v == (2 * x + 3 * u) % 5
  {
    assert 2 * x + 3 * u == 5 * (u + v - 2 * ((u + 3 * v) / 5)) + v;
  }

  lemma SolveForX(u: nat, v: nat, x: nat)
    requires x < 5 && v == (2 * x + 3 * u) % 5
    ensures (u + 3 * v) % 5 == x
  {
    assert u + 3 * v == 5 * (2 * u + x - 3 * ((2 * x + 3 * u) / 5)) + x;
  }

  lemma Split(u: nat, v: nat, y: nat, w: nat)
    requires u < 5 && y < 5
    ensures u + 5 * v == y + 5 * w <==> u == y && v == w
  {
  }

  lemma ThetaAt(s: Halves, i: nat)
    requires i < 25
    ensures HalfTheta(s)[i] == Xor(s[i], HalfMix(s, X(i)))
  {
    hide Xor, HalfMix;
  }

  method Columns(s: array<Half>) returns (c: seq<Half>)
    requires s.Length == 25
    ensures |c| == 5 && forall x :: 0 <= x < 5 ==> c[x] == HalfColumn(s[..], x)
  {
    hide Xor;
    c := [];
    for x := 0 to 5
      invariant |c| == x && forall k :: 0 <= k < x ==> c[k] == HalfColumn(s[..], k)
    {
      c := c + [Xor(Xor(Xor(Xor(s[x], s[x + 5]), s[x + 10]), s[x + 15]), s[x + 20])];
    }
  }

  method ThetaInPlace(s: array<Half>)
    requires s.Length == 25
    modifies s
    ensures s[..] == HalfTheta(old(s[..]))
  {
    hide Xor, Rotl, HalfColumn, HalfTheta, X, Y;
    ghost var was: Halves := s[..];
    var c := Columns(s);
    InRange();
    for x := 0 to 5
      invariant forall i :: 0 <= i < 25 ==> s[i] == if X(i) < x then HalfTheta(was)[i] else was[i]
    {
      var d := Xor(c[(x + 4) % 5], Rotl(c[(x + 1) % 5], 1));
      for y := 0 to 5
        invariant forall i :: 0 <= i < 25 ==>
          s[i] == if X(i) < x || (X(i) == x && Y(i) < y) then HalfTheta(was)[i] else was[i]
      {
        Coordinates(x, y);
        ThetaAt(was, x + 5 * y);
        s[x + 5 * y] := Xor(s[x + 5 * y], d);
      }
    }
  }

  method RhoPi(s: array<Half>) returns (b: array<Half>)
    requires s.Length == 25
    ensures fresh(b) && b.Length == 25 && b[..] == HalfRhoPi(s[..])
  {
    hide Rotl, Offset, X, Y;
    ghost var target := HalfRhoPi(s[..]);
    b := new Half[25](_ => ZERO);
    InRange();
    for x := 0 to 5
      invariant forall i :: 0 <= i < 25 && X(Source(i)) < x ==> b[i] == target[i]
    {
      for y := 0 to 5
        invariant forall i :: 0 <= i < 25 && (X(Source(i)) < x || (X(Source(i)) == x && Y(Source(i)) < y)) ==>
          b[i] == target[i]
      {
        Coordinates(x, y);
        Landing(x, y);
        b[y + 5 * ((2 * x + 3 * y) % 5)] := Rotl(s[x + 5 * y], Offset(x + 5 * y));
      }
    }
  }

  lemma ChiAt(s: Halves, x: nat, y: nat)
    requires x < 5 && y < 5
    ensures x + 5 * y < 25 && HalfChi(s)[x + 5 * y] == HalfBlend(s, x, y)
  {
    hide HalfBlend;
  }

  method ChiInto(b: array<Half>, s: array<Half>)
    requires b.Length == 25 && s.Length == 25 && b != s
    modifies s
    ensures s[..] == HalfChi(b[..])
  {
    hide Xor, NotAnd, HalfChi, X, Y;
    ghost var target := HalfChi(b[..]);
    InRange();
    for x := 0 to 5
      invariant forall i :: 0 <= i < 25 && X(i) < x ==> s[i] == target[i]
    {
      for y := 0 to 5
        invariant forall i :: 0 <= i < 25 && (X(i) < x || (X(i) == x && Y(i) < y)) ==> s[i] == target[i]
      {
        Coordinates(x, y);
        ChiAt(b[..], x, y);
        var i := x + 5 * y;
        s[i] := Xor(b[i], NotAnd(b[(x + 1) % 5 + 5 * y], b[(x + 2) % 5 + 5 * y]));
      }
    }
  }

  /** 24 rounds in place. */
  method Permute(s: array<Half>)
    requires s.Length == 25
    modifies s
    ensures Joined(s[..]) == Rounds(Joined(old(s[..])), 24)
  {
    hide Joined, HalfTheta, HalfRhoPi, HalfChi, Xor, RoundPair, Round;
    for ir := 0 to 24
      invariant Joined(s[..]) == Rounds(Joined(old(s[..])), ir)
    {
      ghost var before: Halves := s[..];
      ThetaInPlace(s);
      var b := RhoPi(s);
      ChiInto(b, s);
      s[0] := Xor(s[0], RoundPair(ir));
      assert s[..] == HalfRound(before, ir);
      RoundJoins(before, ir);
    }
  }
}
