/** Greedy batching of contract actions: contiguous, one contract method a batch. */
module Batches {
  datatype Call = HandleAction | HandleTransfer

  /** A chain event is identified by its block and its index in the block. */
  datatype Key = Key(blockNumber: nat, eventIndex: nat)

  type Addr = nat

  datatype Action = Action(call: Call, eventName: string, user: Addr, recipient: Addr, amount: nat, key: Key)

  type Batch = seq<Action>

  function Flatten(batches: seq<Batch>): Batch {
    if batches == [] then [] else Flatten(batches[..|batches| - 1]) + batches[|batches| - 1]
  }

  ghost predicate Postable(batch: Batch, size: nat) {
    && 0 < |batch| <= size
    && forall i :: 0 <= i < |batch| ==> batch[i].call == batch[0].call
  }

  ghost predicate AllPostable(batches: seq<Batch>, size: nat) {
    forall i :: 0 <= i < |batches| ==> Postable(batches[i], size)
  }

  /** The contiguous splits a batch size and the two contract methods allow. */
  ghost predicate Splits(batches: seq<Batch>, items: Batch, size: nat) {
    && Flatten(batches) == items
    && AllPostable(batches, size)
  }

  function Greedy(items: Batch, size: nat): (batches: seq<Batch>)
    requires size > 0
    ensures AllPostable(batches, size)
  {
    if items == [] then [] else Place(Greedy(items[..|items| - 1], size), items[|items| - 1], size)
  }

  lemma {:induction false} GreedySplits(items: Batch, size: nat)
    requires size > 0
    ensures Splits(Greedy(items, size), items, size)
  {
    hide Place, Flatten, Postable;
    if items == [] {
      NothingSplits(size);
    } else {
      GreedySplits(items[..|items| - 1], size);
      assert items[..|items| - 1] + [items[|items| - 1]] == items;
    }
  }

  lemma NothingSplits(size: nat)
    requires size > 0
    ensures Splits(Greedy([], size), [], size)
  {
  }

  /** One turn of the loop: the item joins the last batch or opens a new one. */
  function Place(batches: seq<Batch>, item: Action, size: nat): (placed: seq<Batch>)
    requires size > 0
    requires AllPostable(batches, size)
    ensures Splits(placed, Flatten(batches) + [item], size)
  {
    var n := |batches|;
    if n > 0 && |batches[n - 1]| < size && batches[n - 1][0].call == item.call then
      var grown := batches[..n - 1] + [batches[n - 1] + [item]];
      assert grown[..n] == grown && grown[..n - 1] == batches[..n - 1];
      assert Flatten(grown) == Flatten(batches) + [item];
      grown
    else
      assert (batches + [[item]])[..n] == batches;
      batches + [[item]]
  }

  method SplitBatches(items: Batch, size: nat) returns (batches: seq<Batch>)
    requires size > 0
    ensures batches == Greedy(items, size)
    ensures Splits(batches, items, size)
    ensures forall other :: Splits(other, items, size) ==> |batches| <= |other|
  {
    batches := [];
    for i := 0 to |items|
      invariant batches == Greedy(items[..i], size)
    {
      assert items[..i + 1][..i] == items[..i];
      var n := |batches|;
      if n > 0 && |batches[n - 1]| < size && batches[n - 1][0].call == items[i].call {
        batches := batches[..n - 1] + [batches[n - 1] + [items[i]]];
      } else {
        batches := batches + [[items[i]]];
      }
    }
    assert items[..|items|] == items;
    GreedySplits(items, size);
    forall other | Splits(other, items, size) ensures |batches| <= |other| {
      GreedyIsShortest(items, other, size);
    }
  }

  /** A split without its last item, the last batch dropped when it becomes empty. */
  ghost function Unplace(batches: seq<Batch>): seq<Batch>
    requires batches != [] && batches[|batches| - 1] != []
  {
    var n := |batches|;
    var last := batches[n - 1];
    if |last| == 1 then batches[..n - 1] else batches[..n - 1] + [last[..|last| - 1]]
  }

  lemma UnplaceSplits(batches: seq<Batch>, items: Batch, size: nat)
    requires Splits(batches, items, size) && items != []
    ensures batches != [] && Postable(batches[|batches| - 1], size)
    ensures Splits(Unplace(batches), items[..|items| - 1], size)
  {
    var n := |batches|;
    var last := batches[n - 1];
    var shorter := Unplace(batches);
    if |last| > 1 {
      assert shorter[..n - 1] == batches[..n - 1];
      assert Flatten(shorter) == Flatten(batches[..n - 1]) + last[..|last| - 1];
    }
    assert items[..|items| - 1] == Flatten(shorter);
  }

  /** No allowed split has fewer batches; one with as many leaves at least as much in its last batch. */
  lemma {:induction false} GreedyIsShortest(items: Batch, other: seq<Batch>, size: nat)
    requires size > 0 && Splits(other, items, size)
    ensures |Greedy(items, size)| <= |other|
    ensures items != [] && |Greedy(items, size)| == |other| ==>
      |Greedy(items, size)[|other| - 1]| <= |other[|other| - 1]|
  {
    hide Place, Unplace, Flatten;
    if items != [] {
      var n := |items|;
      UnplaceSplits(other, items, size);
      GreedyIsShortest(items[..n - 1], Unplace(other), size);
      GreedySplits(items[..n - 1], size);
      PlaceIsShortest(items, Greedy(items[..n - 1], size), other, size);
    }
  }

  /** One turn: placing an item never costs a batch that an allowed split saves. */
  lemma PlaceIsShortest(items: Batch, rest: seq<Batch>, other: seq<Batch>, size: nat)
    requires size > 0 && items != [] && Splits(other, items, size) && Splits(rest, items[..|items| - 1], size)
    requires other != [] && Postable(other[|other| - 1], size) && |rest| <= |Unplace(other)|
    requires rest != [] && |rest| == |Unplace(other)| ==> |rest[|rest| - 1]| <= |Unplace(other)[|rest| - 1]|
    ensures var placed := Place(rest, items[|items| - 1], size);
      && 0 < |placed| <= |other|
      && (|placed| == |other| ==> |placed[|other| - 1]| <= |other[|other| - 1]|)
  {
    var last := other[|other| - 1];
    if |last| > 1 && rest != [] { SharedMethod(items, rest, other, size); }
    if |last| > 1 && rest == [] { NothingLeft(items, rest, other, size); }
  }

  /** The last two items share a batch of `other`, so they share a method, and `rest` ends in the first of them. */
  lemma SharedMethod(items: Batch, rest: seq<Batch>, other: seq<Batch>, size: nat)
    requires items != [] && rest != [] && Splits(other, items, size) && Splits(rest, items[..|items| - 1], size)
    requires other != [] && |other[|other| - 1]| > 1
    ensures rest[|rest| - 1] != [] && rest[|rest| - 1][0].call == items[|items| - 1].call
  {
    var n, last, tail := |items|, other[|other| - 1], rest[|rest| - 1];
    assert Flatten(other) == Flatten(other[..|other| - 1]) + last;
    assert items[n - 2] == last[|last| - 2] && items[n - 1] == last[|last| - 1];
    assert Flatten(rest) == Flatten(rest[..|rest| - 1]) + tail;
    assert tail[|tail| - 1] == items[..n - 1][n - 2];
  }

  lemma NothingLeft(items: Batch, rest: seq<Batch>, other: seq<Batch>, size: nat)
    requires items != [] && Splits(other, items, size) && Splits(rest, items[..|items| - 1], size)
    requires other != [] && |other[|other| - 1]| > 1
    ensures rest != []
  {
    assert |Flatten(other)| == |Flatten(other[..|other| - 1])| + |other[|other| - 1]|;
  }

  /** Every item is in some batch and every batch holds items only. */
  lemma {:induction false} FlattenMembers(batches: seq<Batch>, a: Action)
    ensures a in Flatten(batches) <==> exists b :: b in batches && a in b
  {
    if batches != [] {
      var n := |batches|;
      FlattenMembers(batches[..n - 1], a);
      assert batches == batches[..n - 1] + [batches[n - 1]];
    }
  }
}
