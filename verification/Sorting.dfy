/** Sorting the keys of an object: the strictly increasing sequence of a finite set. */
module Sorting {
  function Sorted(s: set<nat>): (r: seq<nat>)
    ensures forall u :: u in r <==> u in s
    ensures forall i, j :: 0 <= i < j < |r| ==> r[i] < r[j]
  {
    if s == {} then [] else
      LeastExists(s);
      var least :| IsLeast(least, s);
      [least] + Sorted(s - {least})
  }

  predicate IsLeast(least: nat, s: set<nat>) {
    least in s && forall u :: u in s ==> least <= u
  }

  lemma {:induction false} LeastExists(s: set<nat>)
    requires s != {}
    ensures exists least :: IsLeast(least, s)
  {
    var x :| x in s;
    if s - {x} == {} {
      assert forall u :: u in s ==> u == x || u in s - {x};
      assert IsLeast(x, s);
    } else {
      LeastExists(s - {x});
      var y :| IsLeast(y, s - {x});
      assert forall u :: u in s ==> u == x || u in s - {x};
      assert IsLeast(if x < y then x else y, s);
    }
  }
}
