/** The deposit-router route table: event rows folded into latest assets and flags, then listed per chain. */
module Routes {
  import opened Options
  import opened Latest

  /** A column after trimming: nothing, something that is no address, or an address. */
  datatype Field = Blank | Malformed | Hex(address: nat)

  function Normalize(f: Field, zeroIfEmpty: bool): Option<nat> {
    match f
    case Blank => if zeroIfEmpty then Some(0) else None
    case Malformed => None
    case Hex(a) => Some(a)
  }

  function OrElse(first: Option<nat>, second: Option<nat>): Option<nat> { if first.Some? then first else second }

  datatype Collection = Assets | AssetRouteEnabled | Other

  /** The flags are the parsed booleans of value.enabled and of the row's mapping value. */
  datatype Row = Row(collection: Collection, chainId: nat, key: Field, key3: Field, targetColumn: Field,
                     externalToken: Field, stratoToken: Field, targetStratoToken: Field,
                     enabled: bool, mapping: bool, block: int)

  datatype Pair = Pair(chainId: nat, token: nat)
  datatype Route = Route(chainId: nat, token: nat, target: nat)
  datatype Asset = Asset(stratoToken: nat, enabled: bool)
  datatype Update = Update(token: nat, target: nat, minAmount: nat, isPermitted: bool)

  type AssetMap = map<Pair, Entry<Pair, Asset>>
  type FlagMap = map<Route, Entry<Route, bool>>

  // ----- what a row says

  function AssetEntry(row: Row, selected: set<nat>): Option<Entry<Pair, Asset>> {
    var token := OrElse(Normalize(row.key, true), Normalize(row.externalToken, true));
    var strato := Normalize(row.stratoToken, false);
    if row.collection == Assets && row.chainId in selected && token.Some? && strato.Some?
    then Some(Entry(Pair(row.chainId, token.value), Asset(strato.value, row.enabled), row.block))
    else None
  }

  function Target(row: Row): Option<nat> {
    OrElse(Normalize(row.key3, false), OrElse(Normalize(row.targetColumn, false),
      OrElse(Normalize(row.targetStratoToken, false), Normalize(row.stratoToken, false))))
  }

  function FlagEntry(row: Row, selected: set<nat>): Option<Entry<Route, bool>> {
    var token := Normalize(row.key, true);
    if row.collection == AssetRouteEnabled && row.chainId in selected && token.Some? && Target(row).Some?
    then Some(Entry(Route(row.chainId, token.value, Target(row).value), row.mapping, row.block))
    else None
  }

  /** The target of a flag row is the first of its four columns that holds an address. */
  lemma TargetIsFirstAddress(row: Row)
    ensures var columns := [row.key3, row.targetColumn, row.targetStratoToken, row.stratoToken];
      && (Target(row).None? <==> forall i :: 0 <= i < 4 ==> !columns[i].Hex?)
      && (forall i :: 0 <= i < 4 && columns[i].Hex? && (forall j :: 0 <= j < i ==> !columns[j].Hex?) ==>
            Target(row) == Some(columns[i].address))
  {
    var columns := [row.key3, row.targetColumn, row.targetStratoToken, row.stratoToken];
    assert columns[0] == row.key3 && columns[1] == row.targetColumn && columns[2] == row.targetStratoToken;
    assert columns[3] == row.stratoToken;
  }

  /** A blank key means the native token; only a malformed one falls back to the row's value. */
  lemma TokenOfAssetRow(row: Row, selected: set<nat>)
    requires AssetEntry(row, selected).Some?
    ensures var token := AssetEntry(row, selected).value.key.token;
      match row.key
      case Blank => token == 0
      case Hex(a) => token == a
      case Malformed => row.externalToken == Hex(token) || (row.externalToken == Blank && token == 0)
  {
  }

  function AssetEntries(rows: seq<Row>, selected: set<nat>): seq<Option<Entry<Pair, Asset>>> {
    seq(|rows|, i requires 0 <= i < |rows| => AssetEntry(rows[i], selected))
  }

  function FlagEntries(rows: seq<Row>, selected: set<nat>): seq<Option<Entry<Route, bool>>> {
    seq(|rows|, i requires 0 <= i < |rows| => FlagEntry(rows[i], selected))
  }

  function Members<T>(s: seq<T>): set<T> { set x | x in s }

  // ----- the declarative meaning

  /** An asset row of the pair: a blank key is the native token, a malformed one leaves it to the row's value. */
  ghost predicate AssetRowOf(row: Row, selected: set<nat>, p: Pair) {
    && row.collection == Assets && row.chainId == p.chainId && p.chainId in selected && row.stratoToken.Hex?
    && match row.key
       case Hex(a) => a == p.token
       case Blank => p.token == 0
       case Malformed => row.externalToken == Hex(p.token) || (row.externalToken == Blank && p.token == 0)
  }

  /** An explicit row of the route: its target is in the first of four columns that holds an address. */
  ghost predicate FlagRowOf(row: Row, selected: set<nat>, r: Route) {
    && row.collection == AssetRouteEnabled && row.chainId == r.chainId && r.chainId in selected
    && (row.key == Hex(r.token) || (row.key == Blank && r.token == 0))
    && var columns := [row.key3, row.targetColumn, row.targetStratoToken, row.stratoToken];
       exists i :: 0 <= i < 4 && columns[i] == Hex(r.target) && forall j :: 0 <= j < i ==> !columns[j].Hex?
  }

  /** The last of the pair's asset rows with the greatest block number. */
  ghost predicate LatestAssetRow(rows: seq<Row>, selected: set<nat>, p: Pair, i: int) {
    && 0 <= i < |rows| && AssetRowOf(rows[i], selected, p)
    && forall j :: 0 <= j < |rows| && AssetRowOf(rows[j], selected, p) ==>
         rows[j].block < rows[i].block || (rows[j].block == rows[i].block && j <= i)
  }

  ghost predicate LatestFlagRow(rows: seq<Row>, selected: set<nat>, r: Route, i: int) {
    && 0 <= i < |rows| && FlagRowOf(rows[i], selected, r)
    && forall j :: 0 <= j < |rows| && FlagRowOf(rows[j], selected, r) ==>
         rows[j].block < rows[i].block || (rows[j].block == rows[i].block && j <= i)
  }

  /**
   * The pair's latest asset row exists, and the route is enabled: by that row's enabled value if its
   * stratoToken is the target, otherwise by the mapping value of the route's latest explicit row.
   */
  ghost predicate Listed(rows: seq<Row>, selected: set<nat>, r: Route) {
    exists i :: LatestAssetRow(rows, selected, Pair(r.chainId, r.token), i) &&
      if rows[i].stratoToken == Hex(r.target) then rows[i].enabled
      else exists j :: LatestFlagRow(rows, selected, r, j) && rows[j].mapping
  }

  predicate Before(a: Update, b: Update) { a.token < b.token || (a.token == b.token && a.target < b.target) }

  predicate StrictlySorted(list: seq<Update>) { forall i, j :: 0 <= i < j < |list| ==> Before(list[i], list[j]) }

  predicate Permits(u: Update) { u.minAmount == 0 && u.isPermitted }

  /** One strictly sorted list for each selected chain, holding exactly the listed routes. */
  ghost predicate ConfigOf(rows: seq<Row>, chains: seq<nat>, byChain: map<nat, seq<Update>>) {
    && byChain.Keys == Members(chains)
    && forall c :: c in byChain ==> StrictlySorted(byChain[c]) && forall u ::
      u in byChain[c] <==> Permits(u) && Listed(rows, Members(chains), Route(c, u.token, u.target))
  }

  // ----- from the two folds to the declarative meaning

  /** What the merged route map says of a route. */
  function Flag(assets: AssetMap, flags: FlagMap, r: Route): Option<bool> {
    var p := Pair(r.chainId, r.token);
    if p !in assets then None
    else if r.target == assets[p].value.stratoToken then Some(assets[p].value.enabled)
    else if r in flags then Some(flags[r].value)
    else None
  }

  lemma LatestIsUnique<K, V>(es: seq<Option<Entry<K, V>>>, k: K, i: int, j: int)
    requires IsLatest(es, k, i) && IsLatest(es, k, j)
    ensures i == j
  {
  }

  /** What a row enters: the pair's default target and enabled value, or the route's mapping value. */
  lemma RowsMean(row: Row, selected: set<nat>, p: Pair, r: Route)
    ensures Concerns(AssetEntry(row, selected), p) <==> AssetRowOf(row, selected, p)
    ensures AssetRowOf(row, selected, p) ==>
      AssetEntry(row, selected) == Some(Entry(p, Asset(row.stratoToken.address, row.enabled), row.block))
    ensures Concerns(FlagEntry(row, selected), r) <==> FlagRowOf(row, selected, r)
    ensures FlagRowOf(row, selected, r) ==> FlagEntry(row, selected) == Some(Entry(r, row.mapping, row.block))
  {
    hide Target;
    TargetIsFirstAddress(row);
  }

  lemma LatestRows(rows: seq<Row>, selected: set<nat>, p: Pair, r: Route, i: int)
    ensures LatestAssetRow(rows, selected, p, i) <==> IsLatest(AssetEntries(rows, selected), p, i)
    ensures LatestFlagRow(rows, selected, r, i) <==> IsLatest(FlagEntries(rows, selected), r, i)
  {
    hide AssetRowOf, FlagRowOf, AssetEntry, FlagEntry, Concerns;
    var es, fs := AssetEntries(rows, selected), FlagEntries(rows, selected);
    forall j | 0 <= j < |rows|
      ensures Concerns(es[j], p) <==> AssetRowOf(rows[j], selected, p)
      ensures AssetRowOf(rows[j], selected, p) ==> es[j].Some? && es[j].value.block == rows[j].block
      ensures Concerns(fs[j], r) <==> FlagRowOf(rows[j], selected, r)
      ensures FlagRowOf(rows[j], selected, r) ==> fs[j].Some? && fs[j].value.block == rows[j].block
    {
      RowsMean(rows[j], selected, p, r);
    }
  }

  /** The folds hold what the latest rows say, and nothing without one. */
  lemma FoldsHoldLatestRows(rows: seq<Row>, selected: set<nat>, p: Pair, r: Route)
    ensures var assets := Fold(AssetEntries(rows, selected));
      && (p in assets ==> exists i :: LatestAssetRow(rows, selected, p, i))
      && forall i :: LatestAssetRow(rows, selected, p, i) ==>
           p in assets && assets[p].value == Asset(rows[i].stratoToken.address, rows[i].enabled)
    ensures var flags := Fold(FlagEntries(rows, selected));
      && (r in flags ==> exists i :: LatestFlagRow(rows, selected, r, i))
      && forall i :: LatestFlagRow(rows, selected, r, i) ==> r in flags && flags[r].value == rows[i].mapping
  {
    hide Fold, AssetEntry, FlagEntry, IsLatest, FlagRowOf;
    var es, fs := AssetEntries(rows, selected), FlagEntries(rows, selected);
    FoldIsLatest(es, p);
    FoldIsLatest(fs, r);
    forall i
      ensures LatestAssetRow(rows, selected, p, i) <==> IsLatest(es, p, i)
      ensures LatestFlagRow(rows, selected, r, i) <==> IsLatest(fs, r, i)
    {
      LatestRows(rows, selected, p, r, i);
    }
    forall i | LatestAssetRow(rows, selected, p, i)
      ensures p in Fold(es) && Fold(es)[p].value == Asset(rows[i].stratoToken.address, rows[i].enabled)
    {
      LatestInFold(es, p, i);
      RowsMean(rows[i], selected, p, r);
    }
    forall i | LatestFlagRow(rows, selected, r, i) ensures r in Fold(fs) && Fold(fs)[r].value == rows[i].mapping {
      LatestInFold(fs, r, i);
      RowsMean(rows[i], selected, p, r);
    }
  }

  lemma FlagIsListed(rows: seq<Row>, selected: set<nat>, r: Route)
    ensures Listed(rows, selected, r) <==>
      Flag(Fold(AssetEntries(rows, selected)), Fold(FlagEntries(rows, selected)), r) == Some(true)
  {
    hide Fold, AssetEntries, FlagEntries, LatestFlagRow;
    FoldsHoldLatestRows(rows, selected, Pair(r.chainId, r.token), r);
  }

  lemma LatestInFold<K, V>(es: seq<Option<Entry<K, V>>>, k: K, i: int)
    requires IsLatest(es, k, i)
    ensures k in Fold(es) && es[i] == Some(Fold(es)[k])
  {
    hide Fold;
    FoldIsLatest(es, k);
    var j :| IsLatest(es, k, j) && es[j] == Some(Fold(es)[k]);
    LatestIsUnique(es, k, i, j);
  }

  // ----- the loops

  lemma OneRowMore(rows: seq<Row>, n: nat, selected: set<nat>)
    requires n < |rows|
    ensures Fold(AssetEntries(rows[..n + 1], selected))
      == Put(Fold(AssetEntries(rows[..n], selected)), AssetEntry(rows[n], selected))
    ensures Fold(FlagEntries(rows[..n + 1], selected))
      == Put(Fold(FlagEntries(rows[..n], selected)), FlagEntry(rows[n], selected))
  {
    hide Put, AssetEntry, FlagEntry;
    assert AssetEntries(rows[..n + 1], selected)[..n] == AssetEntries(rows[..n], selected);
    assert FlagEntries(rows[..n + 1], selected)[..n] == FlagEntries(rows[..n], selected);
  }

  method CollectLatest(rows: seq<Row>, selected: set<nat>) returns (assets: AssetMap, flags: FlagMap)
    ensures assets == Fold(AssetEntries(rows, selected)) && flags == Fold(FlagEntries(rows, selected))
  {
    assets, flags := map[], map[];
    for n := 0 to |rows|
      invariant assets == Fold(AssetEntries(rows[..n], selected))
      invariant flags == Fold(FlagEntries(rows[..n], selected))
    {
      hide Fold, AssetEntries, FlagEntries;
      var row := rows[n];
      OneRowMore(rows, n, selected);
      if row.chainId !in selected { continue; }
      if row.collection == Assets {
        var token := OrElse(Normalize(row.key, true), Normalize(row.externalToken, true));
        var strato := Normalize(row.stratoToken, false);
        if token.None? || strato.None? { continue; }
        var key := Pair(row.chainId, token.value);
        if key !in assets || row.block >= assets[key].block {
          assets := assets[key := Entry(key, Asset(strato.value, row.enabled), row.block)];
        }
      } else if row.collection == AssetRouteEnabled {
        var token := Normalize(row.key, true);
        var target := Target(row);
        if token.None? || target.None? { continue; }
        var key := Route(row.chainId, token.value, target.value);
        if key !in flags || row.block >= flags[key].block {
          flags := flags[key := Entry(key, row.mapping, row.block)];
        }
      }
    }
    assert rows[..|rows|] == rows;
  }

  /** The default targets of all assets, then the explicit rows over them, in any order. */
  method MergeRoutes(assets: AssetMap, flags: FlagMap) returns (routes: map<Route, bool>)
    ensures forall r :: r in routes <==> Flag(assets, flags, r).Some?
    ensures forall r :: r in routes ==> Some(routes[r]) == Flag(assets, flags, r)
  {
    routes := map[];
    var pairs := assets.Keys;
    while pairs != {}
      invariant pairs <= assets.Keys
      invariant forall r :: r in routes <==>
        (var p := Pair(r.chainId, r.token); p in assets && p !in pairs && r.target == assets[p].value.stratoToken)
      invariant forall r :: r in routes ==> routes[r] == assets[Pair(r.chainId, r.token)].value.enabled
    {
      var p :| p in pairs;
      routes := routes[Route(p.chainId, p.token, assets[p].value.stratoToken) := assets[p].value.enabled];
      pairs := pairs - {p};
    }
    var explicit := flags.Keys;
    while explicit != {}
      invariant explicit <= flags.Keys
      invariant forall r :: r in routes <==>
        (var p := Pair(r.chainId, r.token);
         p in assets && (r.target == assets[p].value.stratoToken || (r in flags && r !in explicit)))
      invariant forall r :: r in routes ==> Some(routes[r]) == Flag(assets, flags, r)
    {
      var r :| r in explicit;
      explicit := explicit - {r};
      var p := Pair(r.chainId, r.token);
      if p in assets {
        var isDefault := assets[p].value.stratoToken == r.target;
        routes := routes[r := if isDefault then assets[p].value.enabled else flags[r].value];
      }
    }
  }

  lemma HeadBefore(list: seq<Update>)
    requires StrictlySorted(list) && list != []
    ensures forall v :: v in list[1..] ==> Before(list[0], v)
  {
  }

  lemma SomeOrder(a: Update, b: Update)
    requires Permits(a) && Permits(b) && a != b
    ensures Before(a, b) || Before(b, a)
  {
    assert a == Update(a.token, a.target, 0, true);
    assert b == Update(b.token, b.target, 0, true);
  }

  function Insert(list: seq<Update>, u: Update): (r: seq<Update>)
    requires StrictlySorted(list) && (forall v :: v in list ==> Permits(v)) && Permits(u) && u !in list
    ensures StrictlySorted(r) && forall v :: v in r <==> v == u || v in list
  {
    if list == [] || Before(u, list[0]) then [u] + list
    else
      var rest := Insert(list[1..], u);
      assert list[0] in list;
      SomeOrder(u, list[0]);
      HeadBefore(list);
      [list[0]] + rest
  }

  /** Sorting by token, then target. */
  method Sort(list: seq<Update>) returns (sorted: seq<Update>)
    requires forall i, j :: 0 <= i < j < |list| ==> list[i] != list[j]
    requires forall u :: u in list ==> Permits(u)
    ensures StrictlySorted(sorted) && forall u :: u in sorted <==> u in list
  {
    sorted := [];
    for n := 0 to |list|
      invariant StrictlySorted(sorted) && forall u :: u in sorted <==> u in list[..n]
    {
      sorted := Insert(sorted, list[n]);
    }
  }

  /** Each chain lists its enabled routes. */
  ghost predicate Lists(
    routes: map<Route, bool>, skipped: set<Route>, chains: seq<nat>, byChain: map<nat, seq<Update>>)
  {
    && byChain.Keys == Members(chains)
    && forall c :: c in byChain ==> ListsChain(routes, skipped, c, byChain[c])
  }

  ghost predicate ListsChain(routes: map<Route, bool>, skipped: set<Route>, c: nat, list: seq<Update>) {
    && (forall i, j :: 0 <= i < j < |list| ==> list[i] != list[j])
    && forall u :: u in list <==> Permits(u) && Shown(routes, skipped, Route(c, u.token, u.target))
  }

  predicate Shown(routes: map<Route, bool>, skipped: set<Route>, r: Route) { r in routes && r !in skipped && routes[r] }

  method ListByChain(routes: map<Route, bool>, chains: seq<nat>) returns (byChain: map<nat, seq<Update>>)
    requires forall r :: r in routes ==> r.chainId in chains
    ensures Lists(routes, {}, chains, byChain)
  {
    byChain := map c | c in chains :: [];
    var rest := routes.Keys;
    while rest != {}
      invariant rest <= routes.Keys && Lists(routes, rest, chains, byChain)
    {
      var r :| r in rest;
      if routes[r] {
        var u := Update(r.token, r.target, 0, true);
        byChain := byChain[r.chainId := byChain[r.chainId] + [u]];
      }
      rest := rest - {r};
    }
  }

  method SortLists(routes: map<Route, bool>, chains: seq<nat>, lists: map<nat, seq<Update>>)
    returns (byChain: map<nat, seq<Update>>)
    requires Lists(routes, {}, chains, lists)
    ensures Lists(routes, {}, chains, byChain)
    ensures forall c :: c in byChain ==> StrictlySorted(byChain[c])
  {
    byChain := lists;
    for n := 0 to |chains|
      invariant Lists(routes, {}, chains, byChain)
      invariant forall k :: 0 <= k < n ==> StrictlySorted(byChain[chains[k]])
    {
      var sorted := Sort(byChain[chains[n]]);
      byChain := byChain[chains[n] := sorted];
    }
  }

  method BuildSetterConfig(rows: seq<Row>, chains: seq<nat>) returns (byChain: map<nat, seq<Update>>)
    ensures ConfigOf(rows, chains, byChain)
  {
    hide Fold, AssetEntries, FlagEntries, Flag;
    var assets, flags := CollectLatest(rows, Members(chains));
    var routes := MergeRoutes(assets, flags);
    forall r | r in routes ensures r.chainId in chains { FlagSelected(rows, Members(chains), r); }
    var lists := ListByChain(routes, chains);
    byChain := SortLists(routes, chains, lists);
    forall r ensures Listed(rows, Members(chains), r) <==> r in routes && routes[r] {
      FlagIsListed(rows, Members(chains), r);
    }
  }

  lemma FlagSelected(rows: seq<Row>, selected: set<nat>, r: Route)
    requires Flag(Fold(AssetEntries(rows, selected)), Fold(FlagEntries(rows, selected)), r).Some?
    ensures r.chainId in selected
  {
    hide Fold;
    FoldIsLatest(AssetEntries(rows, selected), Pair(r.chainId, r.token));
  }

  // ----- row order

  /** Rows that write the same key at the same block agree, as when same-key rows have distinct block numbers. */
  ghost predicate RowsAgree(rows: seq<Row>, selected: set<nat>) {
    TiesAgree(AssetEntries(rows, selected)) && TiesAgree(FlagEntries(rows, selected))
  }

  lemma SameRowsSameEntries(rows: seq<Row>, other: seq<Row>, selected: set<nat>)
    requires multiset(rows) == multiset(other)
    ensures SameEntries(AssetEntries(rows, selected), AssetEntries(other, selected))
    ensures SameEntries(FlagEntries(rows, selected), FlagEntries(other, selected))
  {
    EntriesCarry(rows, other, selected);
    EntriesCarry(other, rows, selected);
  }

  lemma EntriesCarry(rows: seq<Row>, other: seq<Row>, selected: set<nat>)
    requires multiset(rows) == multiset(other)
    ensures forall e :: e in AssetEntries(rows, selected) ==> e in AssetEntries(other, selected)
    ensures forall e :: e in FlagEntries(rows, selected) ==> e in FlagEntries(other, selected)
  {
    hide AssetEntry, FlagEntry;
    forall i | 0 <= i < |rows|
      ensures AssetEntries(rows, selected)[i] in AssetEntries(other, selected)
      ensures FlagEntries(rows, selected)[i] in FlagEntries(other, selected)
    {
      assert rows[i] in multiset(rows);
      assert rows[i] in other;
      var j :| 0 <= j < |other| && other[j] == rows[i];
      assert AssetEntries(other, selected)[j] == AssetEntry(rows[i], selected);
      assert FlagEntries(other, selected)[j] == FlagEntry(rows[i], selected);
    }
  }

  lemma {:induction false} SortedUnique(a: seq<Update>, b: seq<Update>)
    requires StrictlySorted(a) && StrictlySorted(b) && forall u :: u in a <==> u in b
    ensures a == b
  {
    assert a != [] ==> a[0] in b;
    assert b != [] ==> b[0] in a;
    if a != [] && b != [] {
      assert a[0] == b[0];
      assert a == [a[0]] + a[1..] && b == [b[0]] + b[1..];
      forall u ensures u in a[1..] <==> u in b[1..] {
        if u in a[1..] { assert u in a && u != a[0]; }
        if u in b[1..] { assert u in b && u != b[0]; }
      }
      SortedUnique(a[1..], b[1..]);
    }
  }

  /** Any two runs over permuted rows give the same configuration. */
  lemma ConfigIgnoresRowOrder(rows: seq<Row>, other: seq<Row>, chains: seq<nat>,
                              one: map<nat, seq<Update>>, two: map<nat, seq<Update>>)
    requires multiset(rows) == multiset(other) && RowsAgree(rows, Members(chains))
    requires ConfigOf(rows, chains, one) && ConfigOf(other, chains, two)
    ensures one == two
  {
    hide Fold, AssetEntries, FlagEntries, Flag, Listed, StrictlySorted, Permits;
    var selected := Members(chains);
    SameRowsSameEntries(rows, other, selected);
    OrderIrrelevant(AssetEntries(rows, selected), AssetEntries(other, selected));
    OrderIrrelevant(FlagEntries(rows, selected), FlagEntries(other, selected));
    forall c | c in one
      ensures one[c] == two[c]
    {
      forall u ensures u in one[c] <==> u in two[c] {
        var r := Route(c, u.token, u.target);
        FlagIsListed(rows, selected, r);
        FlagIsListed(other, selected, r);
      }
      SortedUnique(one[c], two[c]);
    }
  }
}
