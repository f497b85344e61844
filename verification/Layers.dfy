/** The per-layer split of a budget by percentage weights, in whole basis points. */
module Layers {
  import opened Arithmetic
  import opened Sums

  /** Within half a basis point of the weight, a half going up. */
  function BasisPoints(pct: real): (bps: int)
    ensures bps as real - 0.5 <= pct * 100.0 < bps as real + 0.5
  {
    (pct * 100.0 + 0.5).Floor
  }

  /** The share of a budget, rounded towards zero. */
  function PctOf(wei: nat, bps: int): int {
    if bps >= 0 then wei * bps / 10000 else -(wei * -bps / 10000)
  }

  lemma RoundsTowardsZero(wei: nat, bps: int)
    ensures bps >= 0 ==> 10000 * PctOf(wei, bps) <= wei * bps < 10000 * PctOf(wei, bps) + 10000
    ensures bps < 0 ==> 10000 * PctOf(wei, bps) - 10000 < wei * bps <= 10000 * PctOf(wei, bps)
  {
    if bps < 0 {
      NegatedProduct(wei, bps);
    }
  }

  lemma NegatedProduct(a: int, b: int)
    ensures a * -b == -(a * b)
  {
  }

  function Weight(weights: seq<real>): real {
    if weights == [] then 0.0 else Weight(weights[..|weights| - 1]) + weights[|weights| - 1]
  }

  /** The weights the script accepts: any that sum to 100 within a thousandth, negative ones among them. */
  predicate Accepted(weights: seq<real>) { -0.001 <= Weight(weights) - 100.0 <= 0.001 }

  function Shares(weights: seq<real>): seq<int> {
    seq(|weights|, i requires 0 <= i < |weights| => BasisPoints(weights[i]))
  }

  function Amounts(wei: nat, bps: seq<int>): seq<int> {
    seq(|bps|, i requires 0 <= i < |bps| => PctOf(wei, bps[i]))
  }

  /** What the layers that take anything take. */
  function Positive(s: seq<int>): seq<nat> {
    seq(|s|, i requires 0 <= i < |s| => if s[i] > 0 then s[i] else 0)
  }

  function Asked(wei: nat, bps: seq<int>): nat { SumSeq(Positive(Amounts(wei, bps))) }

  datatype Layer = Layer(amount0Desired: int, amount1Desired: int)

  method PlanLayers(budget0: nat, budget1: nat, weights: seq<real>) returns (layers: seq<Layer>)
    ensures |layers| == |weights|
    ensures forall i :: 0 <= i < |layers| ==>
      layers[i] == Layer(Amounts(budget0, Shares(weights))[i], Amounts(budget1, Shares(weights))[i])
  {
    layers := [];
    for i := 0 to |weights|
      invariant |layers| == i
      invariant forall k :: 0 <= k < i ==>
        layers[k] == Layer(Amounts(budget0, Shares(weights))[k], Amounts(budget1, Shares(weights))[k])
    {
      var bps := BasisPoints(weights[i]);
      layers := layers + [Layer(PctOf(budget0, bps), PctOf(budget1, bps))];
    }
  }

  lemma PctBounds(wei: nat, bps: int)
    ensures var asked, share := (if PctOf(wei, bps) > 0 then PctOf(wei, bps) else 0), (if bps > 0 then bps else 0);
      10000 * asked <= share * wei < 10000 * asked + 10000
  {
    if bps >= 0 { Scale(0, bps, wei); } else { Scale(0, -bps, wei); }
  }

  /** The layers that take anything take their basis points of the budget, less than one unit short each. */
  lemma {:induction false} AskedBounds(wei: nat, bps: seq<int>)
    ensures 10000 * Asked(wei, bps) <= SumSeq(Positive(bps)) * wei <= 10000 * Asked(wei, bps) + 9999 * |bps|
  {
    hide PctOf;
    if bps != [] {
      var n := |bps| - 1;
      AskedBounds(wei, bps[..n]);
      assert Positive(Amounts(wei, bps))[..n] == Positive(Amounts(wei, bps[..n]));
      assert Positive(bps)[..n] == Positive(bps[..n]);
      PctBounds(wei, bps[n]);
      Distribute(SumSeq(Positive(bps[..n])), Positive(bps)[n], wei);
    }
  }

  lemma AskedOfTenThousand(bps: seq<int>)
    ensures Asked(10000, bps) == SumSeq(Positive(bps))
  {
    assert Amounts(10000, bps) == bps;
  }

  /** No budget is overspent exactly when the shares above zero do not pass 10000 basis points. */
  lemma NeverOverspends(bps: seq<int>)
    ensures (forall wei: nat :: Asked(wei, bps) <= wei) <==> SumSeq(Positive(bps)) <= 10000
  {
    hide Asked, Positive, SumSeq;
    AskedOfTenThousand(bps);
    if SumSeq(Positive(bps)) <= 10000 {
      forall wei: nat ensures Asked(wei, bps) <= wei {
        AskedBounds(wei, bps);
        Scale(SumSeq(Positive(bps)), 10000, wei);
      }
    }
  }

  function Net(s: seq<int>): int { if s == [] then 0 else Net(s[..|s| - 1]) + s[|s| - 1] }

  lemma {:induction false} WeightOfHundredths(weights: seq<real>, bps: seq<int>)
    requires |weights| == |bps| && forall i :: 0 <= i < |bps| ==> weights[i] * 100.0 == bps[i] as real
    ensures Weight(weights) * 100.0 == Net(bps) as real
  {
    if bps != [] {
      var n := |bps| - 1;
      WeightOfHundredths(weights[..n], bps[..n]);
    }
  }

  lemma {:induction false} NetBelowPositive(s: seq<int>)
    ensures Net(s) <= SumSeq(Positive(s))
    ensures Net(s) == SumSeq(Positive(s)) <==> forall i :: 0 <= i < |s| ==> s[i] >= 0
  {
    if s != [] {
      var n := |s| - 1;
      NetBelowPositive(s[..n]);
      assert Positive(s)[..n] == Positive(s[..n]);
      assert forall i :: 0 <= i < n ==> s[..n][i] == s[i];
    }
  }

  lemma WholeShares(weights: seq<real>, bps: seq<int>)
    requires |weights| == |bps| && forall i :: 0 <= i < |bps| ==> weights[i] * 100.0 == bps[i] as real
    ensures Shares(weights) == bps
  {
    hide BasisPoints;
    forall i | 0 <= i < |bps| ensures BasisPoints(weights[i]) == bps[i] { WholeBasisPoints(weights[i], bps[i]); }
  }

  lemma WholeBasisPoints(pct: real, n: int)
    requires pct * 100.0 == n as real
    ensures BasisPoints(pct) == n
  {
  }

  lemma NearTenThousand(weight: real, net: int)
    requires -0.001 <= weight - 100.0 <= 0.001 && weight * 100.0 == net as real
    ensures net == 10000
  {
    assert -0.1 <= net as real - 10000.0 <= 0.1;
  }

  /** Accepted weights of whole hundredths are safe exactly when none is negative. */
  lemma HundredthsSafeIffNotNegative(weights: seq<real>, bps: seq<int>)
    requires |weights| == |bps| && forall i :: 0 <= i < |bps| ==> weights[i] * 100.0 == bps[i] as real
    requires Accepted(weights)
    ensures Shares(weights) == bps
    ensures (forall wei: nat :: Asked(wei, Shares(weights)) <= wei) <==> forall i :: 0 <= i < |bps| ==> bps[i] >= 0
  {
    hide Asked, Positive, Weight, Net, SumSeq;
    WeightOfHundredths(weights, bps);
    WholeShares(weights, bps);
    NearTenThousand(Weight(weights), Net(bps));
    NetBelowPositive(bps);
    NeverOverspends(bps);
  }

  /** The weight check does not ask for hundredths: three weights summing to 100 round to 10001 basis points. */
  lemma AcceptedWeightsCanOverspend()
    ensures var weights := [33.335, 33.335, 33.33];
      Accepted(weights) && Shares(weights) == [3334, 3334, 3333] && Asked(10000, Shares(weights)) == 10001
  {
    var weights := [33.335, 33.335, 33.33];
    assert weights[..2] == [33.335, 33.335] && weights[..2][..1] == [33.335] && weights[..2][..1][..0] == [];
    assert Weight([33.335]) == 33.335;
    assert Weight(weights[..2]) == 66.67;
    var bps := Shares(weights);
    assert bps == [3334, 3334, 3333] && Positive(bps) == [3334, 3334, 3333];
    AskedOfTenThousand(bps);
    assert [3334, 3334, 3333][..2] == [3334, 3334] && [3334, 3334][..1] == [3334];
    assert SumSeq([3334]) == 3334 && SumSeq([3334, 3334]) == 6668;
  }

  /**
   * Nor for weights above zero: 150 and -50 are accepted, and the first layer alone asks for one
   * and a half budgets.
   */
  lemma NegativeWeightOverspends()
    ensures var weights := [150.0, -50.0];
      && Accepted(weights) && Shares(weights) == [15000, -5000]
      && Amounts(10000, Shares(weights)) == [15000, -5000] && Asked(10000, Shares(weights)) == 15000
  {
    var weights := [150.0, -50.0];
    assert weights[..1] == [150.0] && [150.0][..0] == [];
    assert Weight([150.0]) == 150.0;
    var bps := Shares(weights);
    assert bps == [15000, -5000] && Positive(bps) == [15000, 0];
    AskedOfTenThousand(bps);
    assert [15000, 0][..1] == [15000] && SumSeq([15000]) == 15000;
  }
}
