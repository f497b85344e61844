/** Totals over finite maps, read with a default of zero for a missing key. */
module Sums {
  function Get<K>(m: map<K, nat>, k: K): nat {
    if k in m then m[k] else 0
  }

  ghost function Sum<K>(m: map<K, nat>): nat {
    if m == map[] then 0 else
      var k :| k in m;
      m[k] + Sum(m - {k})
  }

  lemma {:induction false} SumRemove<K>(m: map<K, nat>, k: K)
    requires k in m
    ensures Sum(m) == m[k] + Sum(m - {k})
    decreases |m|
  {
    var j :| j in m && Sum(m) == m[j] + Sum(m - {j});
    if j != k {
      assert (m - {j}).Keys == m.Keys - {j};
      assert (m - {k}).Keys == m.Keys - {k};
      SumRemove(m - {j}, k);
      SumRemove(m - {k}, j);
      assert m - {j} - {k} == m - {k} - {j};
    }
  }

  lemma SumUpdate<K>(m: map<K, nat>, k: K, v: nat)
    ensures Sum(m[k := v]) == Sum(m) - Get(m, k) + v
  {
    SumRemove(m[k := v], k);
    if k in m {
      SumRemove(m, k);
      assert m[k := v] - {k} == m - {k};
    } else {
      assert m[k := v] - {k} == m;
    }
  }

  lemma SumAtLeast<K>(m: map<K, nat>, k: K)
    ensures Get(m, k) <= Sum(m)
  {
    if k in m {
      SumRemove(m, k);
    }
  }

  /** Dropping one key takes its reading out of the total and leaves every other reading. */
  lemma SumDrop<K>(m: map<K, nat>, k: K)
    ensures Sum(m - {k}) == Sum(m) - Get(m, k)
    ensures Get(m - {k}, k) == 0
    ensures forall j :: j != k ==> Get(m - {k}, j) == Get(m, j)
    ensures (m - {k}).Keys == m.Keys - {k}
  {
    if k in m {
      SumRemove(m, k);
    } else {
      assert m - {k} == m;
    }
  }

  /** Totals add where readings add. */
  lemma {:induction false} SumPointwise<K>(a: map<K, nat>, b: map<K, nat>, c: map<K, nat>)
    requires forall k :: Get(c, k) == Get(a, k) + Get(b, k)
    ensures Sum(c) == Sum(a) + Sum(b)
    decreases a.Keys + b.Keys + c.Keys
  {
    if k :| k in a.Keys + b.Keys + c.Keys {
      SumDrop(a, k);
      SumDrop(b, k);
      SumDrop(c, k);
      SumPointwise(a - {k}, b - {k}, c - {k});
    } else {
      var keys := a.Keys + b.Keys + c.Keys;
      assert forall k :: k in a || k in b || k in c ==> k in keys;
      assert a == map[] && b == map[] && c == map[];
    }
  }

  /** Two maps that read the same everywhere have the same total. */
  lemma SumExtensional<K>(a: map<K, nat>, b: map<K, nat>)
    requires forall k :: Get(a, k) == Get(b, k)
    ensures Sum(a) == Sum(b)
  {
    var none: map<K, nat> := map[];
    SumPointwise(a, none, b);
  }

  /** A total is zero exactly when every entry is. */
  lemma SumZero<K>(m: map<K, nat>)
    ensures Sum(m) == 0 <==> forall k :: k in m ==> m[k] == 0
  {
    if forall k :: k in m ==> m[k] == 0 {
      SumExtensional(m, map[]);
    }
    forall k | k in m && m[k] != 0 ensures Sum(m) != 0 {
      SumAtLeast(m, k);
    }
  }

  /** Signed totals over a map. */
  ghost function IntSum<K>(m: map<K, int>): int {
    if m == map[] then 0 else
      var k :| k in m;
      m[k] + IntSum(m - {k})
  }

  lemma {:induction false} IntSumRemove<K>(m: map<K, int>, k: K)
    requires k in m
    ensures IntSum(m) == m[k] + IntSum(m - {k})
    decreases |m|
  {
    var j :| j in m && IntSum(m) == m[j] + IntSum(m - {j});
    if j != k {
      assert (m - {j}).Keys == m.Keys - {j};
      assert (m - {k}).Keys == m.Keys - {k};
      IntSumRemove(m - {j}, k);
      IntSumRemove(m - {k}, j);
      assert m - {j} - {k} == m - {k} - {j};
    }
  }

  lemma IntSumUpdate<K>(m: map<K, int>, k: K, v: int)
    ensures IntSum(m[k := v]) == IntSum(m) - (if k in m then m[k] else 0) + v
  {
    IntSumRemove(m[k := v], k);
    if k in m {
      IntSumRemove(m, k);
      assert m[k := v] - {k} == m - {k};
    } else {
      assert m[k := v] - {k} == m;
    }
  }

  function SumSeq(s: seq<nat>): nat { if s == [] then 0 else SumSeq(s[..|s| - 1]) + s[|s| - 1] }
}
