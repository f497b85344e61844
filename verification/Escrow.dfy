/** The genesis balances' escrow move into the CDP vault, and what gold gram conversion rounds away. */
module Escrow {
  import opened Arithmetic
  import opened Sums

  type Addr = nat

  /** One owner's balance, in the order the dictionary holds them. */
  datatype Entry = Entry(owner: Addr, qty: nat)

  /** The BlockApps address before and after its migration, and the vault. */
  datatype Config = Config(oldAddress: Addr, newAddress: Addr, vault: Addr)

  function Migrated(c: Config, owner: Addr): Addr { if owner == c.oldAddress then c.newAddress else owner }

  function MaxZero(n: int): nat { if n > 0 then n else 0 }

  /** One turn of the loop: an assignment overwrites what an earlier turn left under the same owner. */
  function Step(c: Config, escrow: map<Addr, nat>, final: map<Addr, nat>, entry: Entry): map<Addr, nat> {
    var owner := Migrated(c, entry.owner);
    var e := Get(escrow, owner);
    if e > 0 then
      var left := MaxZero(entry.qty - e);
      var kept := if left > 0 then final[owner := left] else final;
      kept[c.vault := Get(kept, c.vault) + e]
    else final[owner := entry.qty]
  }

  function Final(c: Config, escrow: map<Addr, nat>, entries: seq<Entry>): map<Addr, nat> {
    if entries == [] then map[] else Step(c, escrow, Final(c, escrow, entries[..|entries| - 1]), entries[|entries| - 1])
  }

  method ApplyEscrows(c: Config, escrow: map<Addr, nat>, entries: seq<Entry>) returns (final: map<Addr, nat>)
    ensures final == Final(c, escrow, entries)
    ensures Sum(final) + Lost(c, escrow, entries) == Total(entries) + Excess(c, escrow, entries)
  {
    final := map[];
    for i := 0 to |entries|
      invariant final == Final(c, escrow, entries[..i])
    {
      assert entries[..i + 1][..i] == entries[..i];
      var owner := if entries[i].owner == c.oldAddress then c.newAddress else entries[i].owner;
      var escrowBalance := if owner in escrow then escrow[owner] else 0;
      if escrowBalance > 0 {
        var userBalance := if entries[i].qty > escrowBalance then entries[i].qty - escrowBalance else 0;
        if userBalance > 0 { final := final[owner := userBalance]; }
        if c.vault in final {
          final := final[c.vault := final[c.vault] + escrowBalance];
        } else {
          final := final[c.vault := escrowBalance];
        }
      } else {
        final := final[owner := entries[i].qty];
      }
    }
    assert entries[..|entries|] == entries;
    Accounting(c, escrow, entries);
  }

  // ----- accounting

  function Total(entries: seq<Entry>): nat {
    if entries == [] then 0 else Total(entries[..|entries| - 1]) + entries[|entries| - 1].qty
  }

  function EscrowOf(c: Config, escrow: map<Addr, nat>, entry: Entry): nat { Get(escrow, Migrated(c, entry.owner)) }

  /** What the vault receives beyond the balances it is taken from. */
  function Excess(c: Config, escrow: map<Addr, nat>, entries: seq<Entry>): nat {
    if entries == [] then 0 else
      var last := entries[|entries| - 1];
      Excess(c, escrow, entries[..|entries| - 1]) + MaxZero(EscrowOf(c, escrow, last) - last.qty)
  }

  /** What a turn overwrites. */
  function Overwritten(c: Config, escrow: map<Addr, nat>, final: map<Addr, nat>, entry: Entry): nat {
    var e := EscrowOf(c, escrow, entry);
    if e == 0 || entry.qty > e then Get(final, Migrated(c, entry.owner)) else 0
  }

  function Lost(c: Config, escrow: map<Addr, nat>, entries: seq<Entry>): nat {
    if entries == [] then 0 else
      var rest := entries[..|entries| - 1];
      Lost(c, escrow, rest) + Overwritten(c, escrow, Final(c, escrow, rest), entries[|entries| - 1])
  }

  lemma StepSum(c: Config, escrow: map<Addr, nat>, final: map<Addr, nat>, entry: Entry)
    ensures Sum(Step(c, escrow, final, entry)) + Overwritten(c, escrow, final, entry)
      == Sum(final) + entry.qty + MaxZero(EscrowOf(c, escrow, entry) - entry.qty)
  {
    var owner := Migrated(c, entry.owner);
    var e := Get(escrow, owner);
    if e > 0 {
      var left := MaxZero(entry.qty - e);
      var kept := if left > 0 then final[owner := left] else final;
      SumUpdate(final, owner, left);
      SumUpdate(kept, c.vault, Get(kept, c.vault) + e);
    } else {
      SumUpdate(final, owner, entry.qty);
    }
  }

  /** For all inputs: the total grows by the escrow excesses and shrinks by what is overwritten. */
  lemma {:induction false} Accounting(c: Config, escrow: map<Addr, nat>, entries: seq<Entry>)
    ensures Sum(Final(c, escrow, entries)) + Lost(c, escrow, entries) == Total(entries) + Excess(c, escrow, entries)
  {
    hide Step, Overwritten;
    if entries != [] {
      var rest := entries[..|entries| - 1];
      Accounting(c, escrow, rest);
      StepSum(c, escrow, Final(c, escrow, rest), entries[|entries| - 1]);
    } else {
      var none: map<Addr, nat> := map[];
      assert Final(c, escrow, entries) == none && Sum(none) == 0;
    }
  }

  // ----- exactly when something is overwritten

  predicate Assigns(c: Config, escrow: map<Addr, nat>, entry: Entry) {
    EscrowOf(c, escrow, entry) == 0 || entry.qty > EscrowOf(c, escrow, entry)
  }

  /** A turn leaves something under a: its own remaining balance, or escrow in the vault. */
  predicate LeavesAt(c: Config, escrow: map<Addr, nat>, entry: Entry, a: Addr) {
    || (Migrated(c, entry.owner) == a && entry.qty > EscrowOf(c, escrow, entry))
    || (a == c.vault && EscrowOf(c, escrow, entry) > 0)
  }

  predicate Collides(c: Config, escrow: map<Addr, nat>, entries: seq<Entry>) {
    exists i, j :: 0 <= i < j < |entries| && Assigns(c, escrow, entries[j]) &&
      LeavesAt(c, escrow, entries[i], Migrated(c, entries[j].owner))
  }

  lemma StepLeaves(c: Config, escrow: map<Addr, nat>, final: map<Addr, nat>, entry: Entry, a: Addr)
    ensures var next := Step(c, escrow, final, entry);
      && (Get(next, a) > 0 ==> Get(final, a) > 0 || LeavesAt(c, escrow, entry, a))
      && (LeavesAt(c, escrow, entry, a) ==> Get(next, a) > 0)
      && (Get(final, a) > 0 ==> Get(next, a) > 0 || Overwritten(c, escrow, final, entry) > 0)
  {
  }

  lemma {:induction false} SomethingLeft(c: Config, escrow: map<Addr, nat>, entries: seq<Entry>, a: Addr)
    ensures Get(Final(c, escrow, entries), a) > 0 ==>
      exists i :: 0 <= i < |entries| && LeavesAt(c, escrow, entries[i], a)
    ensures (exists i :: 0 <= i < |entries| && LeavesAt(c, escrow, entries[i], a)) ==>
      Get(Final(c, escrow, entries), a) > 0 || Lost(c, escrow, entries) > 0
  {
    hide Step, Overwritten, LeavesAt;
    if entries != [] {
      var n := |entries| - 1;
      SomethingLeft(c, escrow, entries[..n], a);
      StepLeaves(c, escrow, Final(c, escrow, entries[..n]), entries[n], a);
      assert forall i :: 0 <= i < n ==> entries[..n][i] == entries[i];
    }
  }

  lemma {:induction false} LostIffCollides(c: Config, escrow: map<Addr, nat>, entries: seq<Entry>)
    ensures Lost(c, escrow, entries) > 0 <==> Collides(c, escrow, entries)
  {
    hide Final, LeavesAt;
    if entries != [] {
      var n := |entries| - 1;
      var rest := entries[..n];
      LostIffCollides(c, escrow, rest);
      SomethingLeft(c, escrow, rest, Migrated(c, entries[n].owner));
      assert forall i :: 0 <= i < n ==> rest[i] == entries[i];
    }
  }

  /** The total grows by exactly the excesses if and only if no turn assigns where an earlier one left something. */
  lemma GrowsByExcessIffNoCollision(c: Config, escrow: map<Addr, nat>, entries: seq<Entry>)
    ensures Sum(Final(c, escrow, entries)) == Total(entries) + Excess(c, escrow, entries) <==>
      !Collides(c, escrow, entries)
  {
    hide Collides, Lost, Final;
    Accounting(c, escrow, entries);
    LostIffCollides(c, escrow, entries);
  }

  // ----- when nothing is overwritten

  predicate Apart(c: Config, entries: seq<Entry>) {
    && (forall i, j :: 0 <= i < j < |entries| ==> Migrated(c, entries[i].owner) != Migrated(c, entries[j].owner))
    && forall i :: 0 <= i < |entries| ==> Migrated(c, entries[i].owner) != c.vault
  }

  function EscrowTotal(c: Config, escrow: map<Addr, nat>, entries: seq<Entry>): nat {
    if entries == [] then 0 else
      EscrowTotal(c, escrow, entries[..|entries| - 1]) + EscrowOf(c, escrow, entries[|entries| - 1])
  }

  predicate Owns(c: Config, entries: seq<Entry>, a: Addr) {
    exists i :: 0 <= i < |entries| && Migrated(c, entries[i].owner) == a
  }

  lemma StepMeans(c: Config, escrow: map<Addr, nat>, final: map<Addr, nat>, entry: Entry)
    requires Migrated(c, entry.owner) != c.vault && Get(final, Migrated(c, entry.owner)) == 0
    ensures var owner, e, next := Migrated(c, entry.owner), EscrowOf(c, escrow, entry), Step(c, escrow, final, entry);
      && Get(next, owner) == MaxZero(entry.qty - e)
      && Get(next, c.vault) == Get(final, c.vault) + e
      && (forall a :: a != owner && a != c.vault ==> Get(next, a) == Get(final, a))
      && Overwritten(c, escrow, final, entry) == 0
  {
  }

  lemma OwnsAppend(c: Config, rest: seq<Entry>, last: Entry)
    ensures forall a :: Owns(c, rest + [last], a) <==> Owns(c, rest, a) || a == Migrated(c, last.owner)
    ensures Apart(c, rest + [last]) ==>
      Apart(c, rest) && !Owns(c, rest, Migrated(c, last.owner)) && Migrated(c, last.owner) != c.vault
  {
    var all, n := rest + [last], |rest|;
    assert all[n] == last && forall i :: 0 <= i < n ==> all[i] == rest[i];
    forall a | Owns(c, rest, a) ensures Owns(c, all, a) {
      var i :| 0 <= i < n && Migrated(c, rest[i].owner) == a;
      assert Migrated(c, all[i].owner) == a;
    }
    assert Migrated(c, all[n].owner) == Migrated(c, last.owner);
  }

  /** Every owner keeps the balance less its escrow, the vault holds all escrows of owners, and nothing is lost. */
  lemma {:induction false} FinalMeans(c: Config, escrow: map<Addr, nat>, entries: seq<Entry>)
    requires Apart(c, entries)
    ensures forall i :: 0 <= i < |entries| ==>
      Get(Final(c, escrow, entries), Migrated(c, entries[i].owner)) ==
        MaxZero(entries[i].qty - EscrowOf(c, escrow, entries[i]))
    ensures Get(Final(c, escrow, entries), c.vault) == EscrowTotal(c, escrow, entries)
    ensures forall a :: a != c.vault && !Owns(c, entries, a) ==> Get(Final(c, escrow, entries), a) == 0
    ensures Lost(c, escrow, entries) == 0
  {
    hide Step, Overwritten, Owns, Get, EscrowOf, MaxZero;
    if entries != [] {
      var n := |entries| - 1;
      var rest, last := entries[..n], entries[n];
      assert entries == rest + [last];
      OwnsAppend(c, rest, last);
      FinalMeans(c, escrow, rest);
      StepMeans(c, escrow, Final(c, escrow, rest), last);
    } else {
      NothingYet();
    }
  }

  /** The same of one owner, on the balances and the escrow table alone. */
  lemma OwnerKeeps(c: Config, escrow: map<Addr, nat>, entries: seq<Entry>, i: nat)
    requires Apart(c, entries) && i < |entries|
    ensures var owner := if entries[i].owner == c.oldAddress then c.newAddress else entries[i].owner;
      var escrowed := if owner in escrow then escrow[owner] else 0;
      Get(Final(c, escrow, entries), owner) + escrowed ==
        if entries[i].qty > escrowed then entries[i].qty else escrowed
  {
    hide Final;
    FinalMeans(c, escrow, entries);
  }

  lemma NothingYet()
    ensures forall a: Addr :: Get(map[], a) == 0
  {
  }

  /** With distinct migrated owners and the vault not among them the total grows by exactly the excesses. */
  lemma MoveAddsExcess(c: Config, escrow: map<Addr, nat>, entries: seq<Entry>)
    requires Apart(c, entries)
    ensures Sum(Final(c, escrow, entries)) == Total(entries) + Excess(c, escrow, entries)
  {
    FinalMeans(c, escrow, entries);
    Accounting(c, escrow, entries);
  }

  /** ...and no balance depends on the iteration order. */
  lemma MoveIgnoresOrder(c: Config, escrow: map<Addr, nat>, entries: seq<Entry>, other: seq<Entry>, a: Addr)
    requires Apart(c, entries) && Apart(c, other) && multiset(entries) == multiset(other)
    ensures Get(Final(c, escrow, entries), a) == Get(Final(c, escrow, other), a)
  {
    FinalMeans(c, escrow, entries);
    FinalMeans(c, escrow, other);
    OwnsCarries(c, other, entries, a);
    if a == c.vault {
      SameEscrowTotal(c, escrow, entries, other);
    } else if Owns(c, entries, a) {
      var i :| 0 <= i < |entries| && Migrated(c, entries[i].owner) == a;
      assert entries[i] in multiset(other);
      var j :| 0 <= j < |other| && other[j] == entries[i];
    }
  }

  lemma OwnsCarries(c: Config, entries: seq<Entry>, other: seq<Entry>, a: Addr)
    requires multiset(entries) == multiset(other)
    ensures Owns(c, entries, a) ==> Owns(c, other, a)
  {
    if Owns(c, entries, a) {
      var i :| 0 <= i < |entries| && Migrated(c, entries[i].owner) == a;
      assert entries[i] in multiset(other);
      var j :| 0 <= j < |other| && other[j] == entries[i];
    }
  }

  lemma WithoutOne(s: seq<Entry>, i: nat)
    requires i < |s|
    ensures multiset(s[..i] + s[i + 1..]) == multiset(s) - multiset{s[i]}
  {
    assert s == s[..i] + [s[i]] + s[i + 1..];
    assert multiset(s) == multiset(s[..i]) + multiset{s[i]} + multiset(s[i + 1..]);
  }

  lemma {:induction false} EscrowTotalSplit(c: Config, escrow: map<Addr, nat>, entries: seq<Entry>, i: nat)
    requires i < |entries|
    ensures EscrowTotal(c, escrow, entries) ==
      EscrowTotal(c, escrow, entries[..i] + entries[i + 1..]) + EscrowOf(c, escrow, entries[i])
  {
    var n := |entries| - 1;
    if i == n {
      assert entries[..i] + entries[i + 1..] == entries[..n];
    } else {
      EscrowTotalSplit(c, escrow, entries[..n], i);
      var shorter := entries[..i] + entries[i + 1..];
      assert shorter[..n - 1] == entries[..n][..i] + entries[..n][i + 1..];
      assert shorter[n - 1] == entries[n];
    }
  }

  lemma {:induction false} SameEscrowTotal(c: Config, escrow: map<Addr, nat>, entries: seq<Entry>, other: seq<Entry>)
    requires multiset(entries) == multiset(other)
    ensures EscrowTotal(c, escrow, entries) == EscrowTotal(c, escrow, other)
  {
    if entries != [] {
      var n := |entries| - 1;
      assert entries[n] in multiset(other);
      var i :| 0 <= i < |other| && other[i] == entries[n];
      WithoutOne(other, i);
      WithoutOne(entries, n);
      assert entries[..n] + entries[n + 1..] == entries[..n];
      SameEscrowTotal(c, escrow, entries[..n], other[..i] + other[i + 1..]);
      EscrowTotalSplit(c, escrow, other, i);
    } else {
      assert |multiset(other)| == |other|;
    }
  }

  /** Both BlockApps addresses as owners: the later balance replaces the earlier, so order decides. */
  lemma MigrationOverwrites(c: Config, p: nat, q: nat)
    requires c.oldAddress != c.newAddress
    ensures var one, two := Entry(c.oldAddress, p), Entry(c.newAddress, q);
      Final(c, map[], [one, two]) == map[c.newAddress := q] && Final(c, map[], [two, one]) == map[c.newAddress := p]
  {
    var one, two := Entry(c.oldAddress, p), Entry(c.newAddress, q);
    assert [one, two][..1] == [one] && [two, one][..1] == [two] && [one][..0] == [] && [two][..0] == [];
    assert Final(c, map[], [one]) == map[c.newAddress := p];
    assert Final(c, map[], [two]) == map[c.newAddress := q];
  }

  /** The vault as an owner: its own balance replaces what it had received, or is added to, by order. */
  lemma VaultOwnerOverwrites(c: Config, a: Addr, q: nat, e: nat, v: nat)
    requires a != c.vault && Migrated(c, a) == a && Migrated(c, c.vault) == c.vault && 0 < e < q
    ensures var one, two, escrow := Entry(a, q), Entry(c.vault, v), map[a := e];
      && Get(Final(c, escrow, [one, two]), c.vault) == v
      && Get(Final(c, escrow, [two, one]), c.vault) == v + e
  {
    var one, two, escrow := Entry(a, q), Entry(c.vault, v), map[a := e];
    assert [one, two][..1] == [one] && [two, one][..1] == [two] && [one][..0] == [] && [two][..0] == [];
    assert Final(c, escrow, [two]) == map[c.vault := v];
    assert Final(c, escrow, [one]) == map[a := q - e, c.vault := e];
  }

  // ----- gold grams

  function GramsToOz(grams: nat): nat { 10000 * grams / 283495 }

  /** A quantity scaled to 18 decimals by its declared ones. */
  function CorrectQuantity(factor: nat, quantity: nat): nat { quantity * factor }

  /** Each balance entry converted on its own, as consolidation does. */
  method ConsolidateGrams(user: Addr, balances: seq<Entry>, factor: nat) returns (total: nat)
    ensures total == ConvertedEach(GramsOf(user, balances), factor)
  {
    total := 0;
    for i := 0 to |balances|
      invariant total == ConvertedEach(GramsOf(user, balances[..i]), factor)
    {
      assert balances[..i + 1][..i] == balances[..i];
      if balances[i].owner == user {
        ghost var before := GramsOf(user, balances[..i]);
        assert (before + [balances[i].qty])[..|before|] == before;
        total := total + GramsToOz(CorrectQuantity(factor, balances[i].qty));
      }
    }
    assert balances[..|balances|] == balances;
  }

  function GramsOf(user: Addr, balances: seq<Entry>): seq<nat> {
    if balances == [] then [] else
      var rest, last := GramsOf(user, balances[..|balances| - 1]), balances[|balances| - 1];
      if last.owner == user then rest + [last.qty] else rest
  }

  /** Exactly the user's balances, each as often as it occurs. */
  lemma {:induction false} GramsOfUser(user: Addr, balances: seq<Entry>, qty: nat)
    ensures multiset(GramsOf(user, balances))[qty] == multiset(balances)[Entry(user, qty)]
  {
    if balances != [] {
      var n := |balances| - 1;
      GramsOfUser(user, balances[..n], qty);
      assert balances == balances[..n] + [balances[n]];
    }
  }

  function ConvertedEach(s: seq<nat>, factor: nat): nat {
    if s == [] then 0 else ConvertedEach(s[..|s| - 1], factor) + GramsToOz(CorrectQuantity(factor, s[|s| - 1]))
  }

  /** The escrow side converts the sum at once. */
  function ConvertedSum(s: seq<nat>, factor: nat): nat { GramsToOz(CorrectQuantity(factor, SumSeq(s))) }

  lemma GramBounds(grams: nat)
    ensures 283495 * GramsToOz(grams) <= 10000 * grams < 283495 * GramsToOz(grams) + 283495
  {
  }

  lemma {:induction false} EachBounds(s: seq<nat>, factor: nat)
    ensures 283495 * ConvertedEach(s, factor) <= 10000 * CorrectQuantity(factor, SumSeq(s))
    ensures s != [] ==> 10000 * CorrectQuantity(factor, SumSeq(s)) <= 283495 * ConvertedEach(s, factor) + 283494 * |s|
  {
    if s != [] {
      var n := |s| - 1;
      EachBounds(s[..n], factor);
      GramBounds(CorrectQuantity(factor, s[n]));
      Distribute(SumSeq(s[..n]), s[n], factor);
    }
  }

  /** Converting k gram balances one by one loses between 0 and k - 1 units against converting their sum. */
  lemma ConversionLoss(s: seq<nat>, factor: nat)
    requires s != []
    ensures ConvertedEach(s, factor) <= ConvertedSum(s, factor) <= ConvertedEach(s, factor) + |s| - 1
  {
    hide ConvertedEach, GramsToOz, CorrectQuantity;
    EachBounds(s, factor);
    GramBounds(CorrectQuantity(factor, SumSeq(s)));
  }

  /** The balance is a gram holding converted one by one, and its escrow the same holding converted at once. */
  predicate FullyEscrowed(c: Config, escrow: map<Addr, nat>, entry: Entry, s: seq<nat>, factor: nat) {
    s != [] && entry.qty == ConvertedEach(s, factor) && EscrowOf(c, escrow, entry) == ConvertedSum(s, factor)
  }

  /**
   * Among any other owners, a fully escrowed gram holding leaves no balance; the vault gains at
   * most k - 1 units more.
   */
  lemma FullyEscrowedGrams(c: Config, escrow: map<Addr, nat>, entries: seq<Entry>, i: nat, s: seq<nat>, factor: nat)
    requires Apart(c, entries) && i < |entries| && FullyEscrowed(c, escrow, entries[i], s, factor)
    ensures Get(Final(c, escrow, entries), Migrated(c, entries[i].owner)) == 0
    ensures entries[i].qty <= EscrowOf(c, escrow, entries[i]) <= entries[i].qty + |s| - 1
    ensures EscrowOf(c, escrow, entries[i]) <= Get(Final(c, escrow, entries), c.vault)
  {
    hide ConvertedEach, ConvertedSum, Final, EscrowTotal;
    ConversionLoss(s, factor);
    FinalMeans(c, escrow, entries);
    EscrowTotalSplit(c, escrow, entries, i);
  }

  /** One unit for each gram balance of a holding but the first. */
  function Spare(holdings: seq<seq<nat>>): nat {
    if holdings == [] then 0 else
      Spare(holdings[..|holdings| - 1]) + MaxZero(|holdings[|holdings| - 1]| - 1)
  }

  lemma {:induction false} GramsExcess(c: Config, escrow: map<Addr, nat>, entries: seq<Entry>, holdings: seq<seq<nat>>,
    factor: nat)
    requires |holdings| == |entries|
    requires forall i :: 0 <= i < |entries| ==>
      || EscrowOf(c, escrow, entries[i]) <= entries[i].qty
      || FullyEscrowed(c, escrow, entries[i], holdings[i], factor)
    ensures Excess(c, escrow, entries) <= Spare(holdings)
  {
    hide EscrowOf, ConvertedEach, ConvertedSum;
    if entries != [] {
      var n := |entries| - 1;
      GramsExcess(c, escrow, entries[..n], holdings[..n], factor);
      if FullyEscrowed(c, escrow, entries[n], holdings[n], factor) { ConversionLoss(holdings[n], factor); }
    }
  }

  /** So if every escrow above its balance comes from converting grams, the total grows by no more than that. */
  lemma GramsGrowTotal(c: Config, escrow: map<Addr, nat>, entries: seq<Entry>, holdings: seq<seq<nat>>, factor: nat)
    requires Apart(c, entries) && |holdings| == |entries|
    requires forall i :: 0 <= i < |entries| ==>
      || EscrowOf(c, escrow, entries[i]) <= entries[i].qty
      || FullyEscrowed(c, escrow, entries[i], holdings[i], factor)
    ensures Total(entries) <= Sum(Final(c, escrow, entries)) <= Total(entries) + Spare(holdings)
  {
    hide Excess, Spare, Final, Total, EscrowOf, ConvertedEach;
    MoveAddsExcess(c, escrow, entries);
    GramsExcess(c, escrow, entries, holdings, factor);
  }

  /** The loss bound is reached. */
  lemma LossReached()
    ensures ConvertedSum([15, 15], 1) == ConvertedEach([15, 15], 1) + 1
  {
    assert [15, 15][..1] == [15] && [15][..0] == [];
    assert ConvertedEach([15], 1) == 0 && SumSeq([15]) == 15;
  }
}
