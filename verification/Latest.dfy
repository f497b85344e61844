/** Last-write-wins folds: the entry with the greatest block number wins, a later one on ties. */
module Latest {
  import opened Options

  datatype Entry<K, V> = Entry(key: K, value: V, block: int)

  function Put<K, V>(m: map<K, Entry<K, V>>, e: Option<Entry<K, V>>): map<K, Entry<K, V>> {
    if e.None? then m
    else if e.value.key !in m || e.value.block >= m[e.value.key].block then m[e.value.key := e.value]
    else m
  }

  function Fold<K, V>(es: seq<Option<Entry<K, V>>>): map<K, Entry<K, V>> {
    if es == [] then map[] else Put(Fold(es[..|es| - 1]), es[|es| - 1])
  }

  predicate Concerns<K(==), V>(e: Option<Entry<K, V>>, k: K) { e.Some? && e.value.key == k }

  /**
   * Entry i concerns k, beats every earlier one on its block number or by coming later, and every
   * later one outright.
   */
  ghost predicate IsLatest<K, V>(es: seq<Option<Entry<K, V>>>, k: K, i: int) {
    && 0 <= i < |es| && Concerns(es[i], k)
    && forall j :: 0 <= j < |es| && Concerns(es[j], k) ==> Beats(es[i], i, es[j], j)
  }

  predicate Beats<K, V>(e: Option<Entry<K, V>>, i: int, f: Option<Entry<K, V>>, j: int)
    requires e.Some? && f.Some?
  {
    f.value.block < e.value.block || (f.value.block == e.value.block && j <= i)
  }

  /** The fold keeps exactly the latest entry of every key. */
  lemma {:induction false} FoldIsLatest<K, V>(es: seq<Option<Entry<K, V>>>, k: K)
    ensures k in Fold(es) <==> exists i :: 0 <= i < |es| && Concerns(es[i], k)
    ensures k in Fold(es) ==> exists i :: IsLatest(es, k, i) && es[i] == Some(Fold(es)[k])
  {
    if es != [] {
      var n := |es| - 1;
      FoldIsLatest(es[..n], k);
      LatestGrows(es[..n], es[n], k);
      assert es[..n] + [es[n]] == es;
    }
  }

  lemma LatestGrows<K, V>(rest: seq<Option<Entry<K, V>>>, e: Option<Entry<K, V>>, k: K)
    requires k in Fold(rest) <==> exists i :: 0 <= i < |rest| && Concerns(rest[i], k)
    requires k in Fold(rest) ==> exists i :: IsLatest(rest, k, i) && rest[i] == Some(Fold(rest)[k])
    ensures var es, m := rest + [e], Put(Fold(rest), e);
      && (k in m <==> exists i :: 0 <= i < |es| && Concerns(es[i], k))
      && (k in m ==> exists i :: IsLatest(es, k, i) && es[i] == Some(m[k]))
  {
    hide Fold;
    var es, n := rest + [e], |rest|;
    if Concerns(e, k) { assert Concerns(es[n], k); }
    if k in Fold(rest) {
      var i :| IsLatest(rest, k, i) && rest[i] == Some(Fold(rest)[k]);
      assert Concerns(es[i], k);
      if Concerns(e, k) && e.value.block >= rest[i].value.block {
        assert IsLatest(es, k, n);
      } else {
        assert IsLatest(es, k, i);
      }
    } else if Concerns(e, k) {
      assert IsLatest(es, k, n);
    }
  }

  predicate Tied<K(==), V>(e: Option<Entry<K, V>>, f: Option<Entry<K, V>>) {
    e.Some? && f.Some? && e.value.key == f.value.key && e.value.block == f.value.block
  }

  /** Entries of one key and one block number say the same. */
  ghost predicate TiesAgree<K, V>(es: seq<Option<Entry<K, V>>>) {
    forall e, f :: e in es && f in es && Tied(e, f) ==> e == f
  }

  ghost predicate SameEntries<K(!new), V(!new)>(a: seq<Option<Entry<K, V>>>, b: seq<Option<Entry<K, V>>>) {
    forall e: Entry<K, V> :: Some(e) in a <==> Some(e) in b
  }

  /** The kept entry is one of them, and none of its key has a greater block number. */
  lemma FoldIsGreatest<K, V>(es: seq<Option<Entry<K, V>>>, e: Entry<K, V>)
    requires Some(e) in es
    ensures e.key in Fold(es)
    ensures var kept := Fold(es)[e.key]; Some(kept) in es && kept.key == e.key && kept.block >= e.block
  {
    hide Fold;
    FoldIsLatest(es, e.key);
    var j :| 0 <= j < |es| && es[j] == Some(e);
    assert Concerns(es[j], e.key);
    var i :| IsLatest(es, e.key, i) && es[i] == Some(Fold(es)[e.key]);
  }

  lemma FoldIsEntry<K, V>(es: seq<Option<Entry<K, V>>>, k: K)
    requires k in Fold(es)
    ensures Some(Fold(es)[k]) in es && Fold(es)[k].key == k
  {
    hide Fold;
    FoldIsLatest(es, k);
  }

  lemma LatestCarries<K(!new), V(!new)>(a: seq<Option<Entry<K, V>>>, b: seq<Option<Entry<K, V>>>, k: K)
    requires SameEntries(a, b) && TiesAgree(a) && k in Fold(a)
    ensures k in Fold(b) && Fold(b)[k] == Fold(a)[k]
  {
    hide Fold;
    FoldIsEntry(a, k);
    var e := Fold(a)[k];
    FoldIsGreatest(b, e);
    var f := Fold(b)[k];
    FoldIsGreatest(a, f);
    assert Tied(Some(e), Some(f));
  }

  /** Order does not matter when same-key entries have distinct block numbers. */
  lemma OrderIrrelevant<K(!new), V(!new)>(a: seq<Option<Entry<K, V>>>, b: seq<Option<Entry<K, V>>>)
    requires SameEntries(a, b) && TiesAgree(a)
    ensures Fold(a) == Fold(b)
  {
    forall k | k in Fold(a) ensures k in Fold(b) && Fold(b)[k] == Fold(a)[k] { LatestCarries(a, b, k); }
    forall k | k in Fold(b) ensures k in Fold(a) {
      FoldIsEntry(b, k);
      FoldIsGreatest(a, Fold(b)[k]);
    }
  }

  /** It does matter on a tie that disagrees. */
  lemma TieFollowsOrder<K, V>(k: K, v: V, w: V, block: int)
    requires v != w
    ensures var e, f := Some(Entry(k, v, block)), Some(Entry(k, w, block));
      Fold([e, f])[k].value == w && Fold([f, e])[k].value == v
  {
    var e, f := Some(Entry(k, v, block)), Some(Entry(k, w, block));
    assert [e, f][..1] == [e] && [f, e][..1] == [f];
    assert Fold([e]) == Put(Fold([]), e) && Fold([f]) == Put(Fold([]), f) by {
      assert [e][..0] == [] && [f][..0] == [];
    }
  }
}
