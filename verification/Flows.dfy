/** An address's cumulative flows by section and purpose, against its per-transaction timeline. */
module Flows {
  import opened Options
  import opened Sums

  type Addr = nat
  type Hash = nat
  const ZERO: Addr := 0

  datatype Transfer = Transfer(tx: Hash, from: Addr, to: Addr, token: Addr, value: nat)

  /** A call behind a transaction: its target, its function, and whether the address sent it. */
  datatype Call = Call(to: Addr, func: string, own: bool)

  /**
   * What is known around the transfers: labels of addresses and how an address is written, calls,
   * and the bridge deposits' and withdrawals' descriptions by transaction.
   */
  datatype Context = Context(addr: Addr, labels: map<Addr, string>, text: Addr -> string, calls: map<Hash, Call>,
                             deposits: map<Hash, string>, withdrawals: map<Hash, string>)

  datatype AutoSave =
    AutoSave(tx: Hash, chain: string, sourceToken: Addr, sourceAmount: nat, saveToken: Addr, usdstAmount: nat)

  datatype Section = Funding | Borrowing | Activity | BridgeOuts
  datatype Direction = Received | Spent
  datatype Amounts = Amounts(received: nat, spent: nat)
  datatype Flow = Flow(section: Section, purpose: string, token: Addr, direction: Direction, amount: nat)

  type Groups = map<string, map<Addr, Amounts>>

  /** The four sections' tables: purpose to token to amounts. */
  datatype Sections = Sections(funding: Groups, borrowing: Groups, activity: Groups, bridgeOuts: Groups)

  const NO_SECTIONS := Sections(map[], map[], map[], map[])

  function At(ss: Sections, s: Section): Groups {
    match s
    case Funding => ss.funding
    case Borrowing => ss.borrowing
    case Activity => ss.activity
    case BridgeOuts => ss.bridgeOuts
  }

  function With(ss: Sections, s: Section, g: Groups): Sections {
    match s
    case Funding => ss.(funding := g)
    case Borrowing => ss.(borrowing := g)
    case Activity => ss.(activity := g)
    case BridgeOuts => ss.(bridgeOuts := g)
  }

  // ----- classification

  function LabelOf(c: Context, a: Addr): string { if a in c.labels then c.labels[a] else "" }

  function CallOf(c: Context, tx: Hash): Option<Call> { if tx in c.calls then Some(c.calls[tx]) else None }

  /** Transfers to oneself and of nothing are skipped. */
  predicate Counts(x: Transfer) { x.from != x.to && x.value != 0 }

  predicate Incoming(c: Context, x: Transfer) { x.to == c.addr }

  function Other(c: Context, x: Transfer): Addr { if Incoming(c, x) then x.from else x.to }

  /** A label, or the start of the address. */
  function Shown(c: Context, a: Addr): string {
    if a == ZERO then "0x0"
    else if LabelOf(c, a) != "" then LabelOf(c, a)
    else if |c.text(a)| > 10 then c.text(a)[..10] + "\U{2026}" else c.text(a) + "\U{2026}"
  }

  function ActivityPurpose(c: Context, x: Transfer): string {
    var call, other := CallOf(c, x.tx), Other(c, x);
    var contract :=
      if call.Some? && LabelOf(c, call.value.to) != "" then LabelOf(c, call.value.to) else LabelOf(c, other);
    if contract in ["Market", "Offer", "Bid", "OrderBook"] then "Prediction markets"
    else if call.Some? && (call.value.func in ["swap", "exchange"] || contract == "DirectMintPSM") then
      "Swaps and conversions"
    else if contract in ["Pool", "StablePool", "PoolV3"] then "Liquidity pools"
    else if contract == "CDPEngine" then "CDP collateral and repayments"
    else if contract != "" then contract
    else if other == ZERO then "Token issuance (source unidentified)"
    else (if Incoming(c, x) then "Transfer from " else "Transfer to ") + c.text(other)
  }

  function Classify(c: Context, x: Transfer): (Section, string) {
    var call, other, incoming := CallOf(c, x.tx), Other(c, x), Incoming(c, x);
    if LabelOf(c, other) == "FeeCollector" then (Activity, "Network transaction fees")
    else if x.tx in c.deposits then (Funding, "Bridged in from " + c.deposits[x.tx])
    else if x.tx in c.withdrawals then (BridgeOuts, c.withdrawals[x.tx])
    else if LabelOf(c, other) in ["MercataBridge", "StratoNativeBridge"] then (BridgeOuts, "Other bridge transfers")
    else if incoming && call.Some? && LabelOf(c, call.value.to) == "CDPEngine" && call.value.func == "mint" then
      (Borrowing, "Borrowed from CDPEngine (debt, not earnings)")
    else if incoming && !(call.Some? && call.value.own) && other != ZERO && LabelOf(c, other) == ""
      && (call.None? || call.value.to == x.token) then (Funding, "Transfer from " + c.text(other))
    else (Activity, ActivityPurpose(c, x))
  }

  function FlowsOf(c: Context, x: Transfer): seq<Flow> {
    if !Counts(x) then []
    else [Flow(Classify(c, x).0, Classify(c, x).1, x.token, if Incoming(c, x) then Received else Spent, x.value)]
  }

  // ----- what a transfer's one flow says, read off the labels, calls, deposits and withdrawals

  predicate Labelled(c: Context, a: Addr, name: string) { name != "" && a in c.labels && c.labels[a] == name }

  predicate Unlabelled(c: Context, a: Addr) { a in c.labels ==> c.labels[a] == "" }

  /** The transfer pays a fee to the collector, or gets one back from it. */
  predicate IsFee(c: Context, x: Transfer) {
    Labelled(c, if x.to == c.addr then x.from else x.to, "FeeCollector")
  }

  predicate WithBridge(c: Context, x: Transfer) {
    var other := if x.to == c.addr then x.from else x.to;
    Labelled(c, other, "MercataBridge") || Labelled(c, other, "StratoNativeBridge")
  }

  /** Neither fee, deposit, withdrawal nor other bridge transfer. */
  predicate Ordinary(c: Context, x: Transfer) {
    !IsFee(c, x) && x.tx !in c.deposits && x.tx !in c.withdrawals && !WithBridge(c, x)
  }

  /** An incoming transfer of a call that mints at the CDP engine. */
  predicate IsBorrowed(c: Context, x: Transfer) {
    x.to == c.addr && x.tx in c.calls && Labelled(c, c.calls[x.tx].to, "CDPEngine") && c.calls[x.tx].func == "mint"
  }

  /** Someone unlabelled sent the tokens, in a call of the token itself or in none that is known. */
  predicate IsGift(c: Context, x: Transfer) {
    && x.to == c.addr && x.from != ZERO && Unlabelled(c, x.from)
    && (x.tx in c.calls ==> !c.calls[x.tx].own && c.calls[x.tx].to == x.token)
  }

  /** A self-transfer or an empty one gives no flow; any other gives one, of its token and amount, in its section. */
  lemma SectionsMean(c: Context, x: Transfer)
    ensures FlowsOf(c, x) == [] <==> x.from == x.to || x.value == 0
    ensures x.from != x.to && x.value != 0 ==>
      var f := FlowsOf(c, x)[0];
      && FlowsOf(c, x) == [f] && f.token == x.token && f.amount == x.value
      && (f.direction == Received <==> x.to == c.addr)
      && (f.section == BridgeOuts <==>
            !IsFee(c, x) && x.tx !in c.deposits && (x.tx in c.withdrawals || WithBridge(c, x)))
      && (f.section == Borrowing <==> Ordinary(c, x) && IsBorrowed(c, x))
      && (f.section == Funding <==>
            (!IsFee(c, x) && x.tx in c.deposits) || (Ordinary(c, x) && !IsBorrowed(c, x) && IsGift(c, x)))
  {
    hide ActivityPurpose;
  }

  /** The label an activity goes by: the called contract's, or else the other side's. */
  predicate DealsWith(c: Context, x: Transfer, name: string) {
    if x.tx in c.calls && !Unlabelled(c, c.calls[x.tx].to) then Labelled(c, c.calls[x.tx].to, name)
    else Labelled(c, if x.to == c.addr then x.from else x.to, name)
  }

  predicate CallsFor(c: Context, x: Transfer, func: string) { x.tx in c.calls && c.calls[x.tx].func == func }

  const MARKETS := ["Market", "Offer", "Bid", "OrderBook"]
  const POOLS := ["Pool", "StablePool", "PoolV3"]

  predicate Trades(c: Context, x: Transfer) {
    CallsFor(c, x, "swap") || CallsFor(c, x, "exchange") || (x.tx in c.calls && DealsWith(c, x, "DirectMintPSM"))
  }

  /** The purpose of each kind of flow other than activity, fees among them. */
  lemma PurposesMean(c: Context, x: Transfer)
    requires x.from != x.to && x.value != 0
    ensures var f := FlowsOf(c, x)[0];
      && (IsFee(c, x) ==> f.purpose == "Network transaction fees")
      && (!IsFee(c, x) && x.tx in c.deposits ==> f.purpose == "Bridged in from " + c.deposits[x.tx])
      && (f.section == Funding && x.tx !in c.deposits ==> f.purpose == "Transfer from " + c.text(x.from))
      && (f.section == BridgeOuts && x.tx in c.withdrawals ==> f.purpose == c.withdrawals[x.tx])
      && (f.section == BridgeOuts && x.tx !in c.withdrawals ==> f.purpose == "Other bridge transfers")
      && (f.section == Borrowing ==> f.purpose == "Borrowed from CDPEngine (debt, not earnings)")
  {
    hide ActivityPurpose;
  }

  /** Activity goes by what it deals with, markets first, then trades, pools and the CDP engine. */
  lemma ActivitiesMean(c: Context, x: Transfer, name: string)
    requires x.from != x.to && x.value != 0 && FlowsOf(c, x)[0].section == Activity && !IsFee(c, x)
    ensures var purpose := FlowsOf(c, x)[0].purpose;
      && (DealsWith(c, x, name) && name in MARKETS ==> purpose == "Prediction markets")
      && (DealsWith(c, x, name) && name !in MARKETS ==>
            (Trades(c, x) ==> purpose == "Swaps and conversions")
            && (!Trades(c, x) && name in POOLS ==> purpose == "Liquidity pools")
            && (!Trades(c, x) && name == "CDPEngine" ==> purpose == "CDP collateral and repayments")
            && (!Trades(c, x) && name !in POOLS && name != "CDPEngine" ==> purpose == name))
  {
    var call, other := CallOf(c, x.tx), Other(c, x);
    assert FlowsOf(c, x)[0].purpose == ActivityPurpose(c, x);
    var contract :=
      if call.Some? && LabelOf(c, call.value.to) != "" then LabelOf(c, call.value.to) else LabelOf(c, other);
    assert DealsWith(c, x, name) ==> name == contract;
  }

  /** Activity with nothing labelled on either side. */
  lemma OtherActivitiesMean(c: Context, x: Transfer)
    requires x.from != x.to && x.value != 0 && FlowsOf(c, x)[0].section == Activity
    requires forall name :: !DealsWith(c, x, name)
    ensures FlowsOf(c, x)[0].purpose ==
      if CallsFor(c, x, "swap") || CallsFor(c, x, "exchange") then "Swaps and conversions"
      else if (if x.to == c.addr then x.from else x.to) == ZERO then "Token issuance (source unidentified)"
      else if x.to == c.addr then "Transfer from " + c.text(x.from) else "Transfer to " + c.text(x.to)
  {
    var call, other := CallOf(c, x.tx), Other(c, x);
    var contract :=
      if call.Some? && LabelOf(c, call.value.to) != "" then LabelOf(c, call.value.to) else LabelOf(c, other);
    assert !DealsWith(c, x, contract) && !DealsWith(c, x, "FeeCollector");
    assert contract == "";
    assert FlowsOf(c, x)[0].purpose == ActivityPurpose(c, x);
  }

  function TransferFlows(c: Context, xs: seq<Transfer>): seq<Flow> {
    if xs == [] then [] else TransferFlows(c, xs[..|xs| - 1]) + FlowsOf(c, xs[|xs| - 1])
  }

  /** An auto-save is a bridge-in, a swap unless it arrived in the vault's asset, and a payment into the vault. */
  function FlowsOfSave(s: AutoSave, asset: Addr, vaultLabel: string): seq<Flow> {
    [Flow(Funding, "Bridged in from " + s.chain, s.sourceToken, Received, s.sourceAmount)]
    + (if s.sourceToken == asset then [] else
         [Flow(Activity, "Swaps and conversions", s.sourceToken, Spent, s.sourceAmount),
          Flow(Activity, "Swaps and conversions", asset, Received, s.usdstAmount)])
    + [Flow(Activity, vaultLabel, asset, Spent, s.usdstAmount)]
  }

  /** How a vault is named: zero, by its label, or by the first ten characters of its address and an ellipsis. */
  lemma ShownMeans(c: Context, a: Addr, name: string)
    ensures a == ZERO ==> Shown(c, a) == "0x0"
    ensures a != ZERO && Labelled(c, a, name) ==> Shown(c, a) == name
    ensures a != ZERO && Unlabelled(c, a) ==>
      var n, text := |Shown(c, a)| - 1, c.text(a);
      0 <= n && Shown(c, a)[n] == '\U{2026}' && Shown(c, a)[..n] <= text && n <= 10 && (n < 10 ==> n == |text|)
  {
  }

  lemma NoSaves(c: Context, assets: map<Addr, Addr>, ss: Sections)
    ensures PutAll(ss, SaveFlows(c, [], assets)) == ss
  {
  }

  /** What an auto-save adds to each cell. */
  lemma SaveMeans(s: AutoSave, asset: Addr, vaultLabel: string, section: Section, purpose: string, token: Addr,
                  d: Direction)
    ensures CellSum(FlowsOfSave(s, asset, vaultLabel), section, purpose, token, d)
      == Counted(section == Funding && purpose == "Bridged in from " + s.chain && token == s.sourceToken
                 && d == Received, s.sourceAmount)
       + Counted(s.sourceToken != asset && section == Activity && purpose == "Swaps and conversions"
                 && token == s.sourceToken && d == Spent, s.sourceAmount)
       + Counted(s.sourceToken != asset && section == Activity && purpose == "Swaps and conversions"
                 && token == asset && d == Received, s.usdstAmount)
       + Counted(section == Activity && purpose == vaultLabel && token == asset && d == Spent, s.usdstAmount)
  {
    hide CellSum;
    var first := Flow(Funding, "Bridged in from " + s.chain, s.sourceToken, Received, s.sourceAmount);
    var out := Flow(Activity, "Swaps and conversions", s.sourceToken, Spent, s.sourceAmount);
    var back := Flow(Activity, "Swaps and conversions", asset, Received, s.usdstAmount);
    var last := Flow(Activity, vaultLabel, asset, Spent, s.usdstAmount);
    CellOfOne(last, section, purpose, token, d);
    CellOfOne(first, section, purpose, token, d);
    if s.sourceToken == asset {
      assert FlowsOfSave(s, asset, vaultLabel) == [first] + [last];
      CellConcat([first], [last], section, purpose, token, d);
    } else {
      assert FlowsOfSave(s, asset, vaultLabel) == [first] + [out] + [back] + [last];
      CellOfOne(out, section, purpose, token, d);
      CellOfOne(back, section, purpose, token, d);
      CellConcat([first], [out], section, purpose, token, d);
      CellConcat([first] + [out], [back], section, purpose, token, d);
      CellConcat([first] + [out] + [back], [last], section, purpose, token, d);
    }
  }

  lemma CellOfOne(f: Flow, s: Section, purpose: string, token: Addr, d: Direction)
    ensures CellSum([f], s, purpose, token, d) == Counted(InCell(f, s, purpose, token, d), f.amount)
  {
    assert [f][..0] == [];
  }

  lemma {:induction false} CellConcat(a: seq<Flow>, b: seq<Flow>, s: Section, purpose: string, token: Addr,
                                      d: Direction)
    ensures CellSum(a + b, s, purpose, token, d) == CellSum(a, s, purpose, token, d) + CellSum(b, s, purpose, token, d)
  {
    if b == [] {
      assert a + b == a;
    } else {
      assert (a + b)[..|a + b| - 1] == a + b[..|b| - 1];
      CellConcat(a, b[..|b| - 1], s, purpose, token, d);
    }
  }

  function Counted(when: bool, amount: nat): nat { if when then amount else 0 }

  predicate AssetsKnown(saves: seq<AutoSave>, assets: map<Addr, Addr>) {
    forall i :: 0 <= i < |saves| ==> saves[i].saveToken in assets
  }

  function SaveFlows(c: Context, saves: seq<AutoSave>, assets: map<Addr, Addr>): seq<Flow>
    requires AssetsKnown(saves, assets)
  {
    if saves == [] then [] else
      var s := saves[|saves| - 1];
      SaveFlows(c, saves[..|saves| - 1], assets) + FlowsOfSave(s, assets[s.saveToken], Shown(c, s.saveToken))
  }

  lemma OneSaveMore(c: Context, saves: seq<AutoSave>, assets: map<Addr, Addr>, i: nat)
    requires i < |saves| && AssetsKnown(saves[..i], assets) && saves[i].saveToken in assets
    ensures AssetsKnown(saves[..i + 1], assets)
    ensures var s := saves[i];
      SaveFlows(c, saves[..i + 1], assets)
        == SaveFlows(c, saves[..i], assets) + FlowsOfSave(s, assets[s.saveToken], Shown(c, s.saveToken))
  {
    hide FlowsOfSave, Shown;
    assert saves[..i + 1][..i] == saves[..i];
    forall k | 0 <= k < i ensures saves[k].saveToken in assets { assert saves[..i][k] == saves[k]; }
  }

  // ----- the nested tables

  function AmountsAt(g: Groups, purpose: string, token: Addr): Amounts {
    if purpose in g && token in g[purpose] then g[purpose][token] else Amounts(0, 0)
  }

  function Part(a: Amounts, d: Direction): nat { if d == Received then a.received else a.spent }

  function Read(ss: Sections, s: Section, purpose: string, token: Addr, d: Direction): nat {
    Part(AmountsAt(At(ss, s), purpose, token), d)
  }

  function Add(a: Amounts, d: Direction, amount: nat): Amounts {
    if d == Received then a.(received := a.received + amount) else a.(spent := a.spent + amount)
  }

  function PutIn(groups: Groups, f: Flow): Groups {
    var group := if f.purpose in groups then groups[f.purpose] else map[];
    groups[f.purpose := group[f.token := Add(AmountsAt(groups, f.purpose, f.token), f.direction, f.amount)]]
  }

  function Put(ss: Sections, f: Flow): Sections {
    With(ss, f.section, PutIn(At(ss, f.section), f))
  }

  function PutAll(ss: Sections, fs: seq<Flow>): Sections {
    if fs == [] then ss else Put(PutAll(ss, fs[..|fs| - 1]), fs[|fs| - 1])
  }

  lemma {:induction false} PutAllConcat(ss: Sections, a: seq<Flow>, b: seq<Flow>)
    ensures PutAll(ss, a + b) == PutAll(PutAll(ss, a), b)
  {
    if b == [] {
      assert a + b == a;
    } else {
      assert (a + b)[..|a + b| - 1] == a + b[..|b| - 1];
      PutAllConcat(ss, a, b[..|b| - 1]);
    }
  }

  /** The flows of one cell, added up. */
  function CellSum(fs: seq<Flow>, s: Section, purpose: string, token: Addr, d: Direction): nat {
    if fs == [] then 0 else
      var f := fs[|fs| - 1];
      CellSum(fs[..|fs| - 1], s, purpose, token, d)
      + if InCell(f, s, purpose, token, d) then f.amount else 0
  }

  predicate InCell(f: Flow, s: Section, purpose: string, token: Addr, d: Direction) {
    f.section == s && f.purpose == purpose && f.token == token && f.direction == d
  }

  lemma PutInCell(g: Groups, f: Flow, purpose: string, token: Addr, d: Direction)
    ensures Part(AmountsAt(PutIn(g, f), purpose, token), d) == Part(AmountsAt(g, purpose, token), d)
      + if f.purpose == purpose && f.token == token && f.direction == d then f.amount else 0
  {
  }

  lemma PutCell(ss: Sections, f: Flow, s: Section, purpose: string, token: Addr, d: Direction)
    ensures Read(Put(ss, f), s, purpose, token, d)
      == Read(ss, s, purpose, token, d) + if InCell(f, s, purpose, token, d) then f.amount else 0
  {
    hide AmountsAt, PutIn, Part;
    PutInCell(At(ss, s), f, purpose, token, d);
  }

  /** Every cell holds exactly its flows: each flow is counted once and nowhere else. */
  lemma {:induction false} CellsHoldTheirFlows(fs: seq<Flow>, s: Section, purpose: string, token: Addr, d: Direction)
    ensures Read(PutAll(NO_SECTIONS, fs), s, purpose, token, d) == CellSum(fs, s, purpose, token, d)
  {
    if fs != [] {
      hide Put, Read, InCell;
      CellsHoldTheirFlows(fs[..|fs| - 1], s, purpose, token, d);
      PutCell(PutAll(NO_SECTIONS, fs[..|fs| - 1]), fs[|fs| - 1], s, purpose, token, d);
    }
  }

  /** Flows that come in unless they are activity, a bridge-out or, in funding, part of a deposit. */
  predicate ComesIn(f: Flow, deposits: bool) {
    f.section == Borrowing || (f.section == Funding && !deposits) ==> f.direction == Received
  }

  predicate HasDeposit(c: Context, xs: seq<Transfer>) { exists i :: 0 <= i < |xs| && xs[i].tx in c.deposits }

  lemma {:induction false} TransfersComeIn(c: Context, xs: seq<Transfer>, deposits: bool)
    requires HasDeposit(c, xs) ==> deposits
    ensures forall f :: f in TransferFlows(c, xs) ==> ComesIn(f, deposits)
  {
    hide Classify;
    if xs != [] {
      var n := |xs| - 1;
      assert HasDeposit(c, xs[..n]) ==> HasDeposit(c, xs);
      TransfersComeIn(c, xs[..n], deposits);
      SectionsMean(c, xs[n]);
    }
  }

  lemma {:induction false} SavesComeIn(c: Context, saves: seq<AutoSave>, assets: map<Addr, Addr>)
    requires AssetsKnown(saves, assets)
    ensures forall f :: f in SaveFlows(c, saves, assets) ==> ComesIn(f, false)
  {
    hide Shown;
    if saves != [] { SavesComeIn(c, saves[..|saves| - 1], assets); }
  }

  lemma {:induction false} EmptyCell(fs: seq<Flow>, s: Section, purpose: string, token: Addr, d: Direction)
    requires forall f :: f in fs ==> !InCell(f, s, purpose, token, d)
    ensures CellSum(fs, s, purpose, token, d) == 0
  {
    if fs != [] { EmptyCell(fs[..|fs| - 1], s, purpose, token, d); }
  }

  /** In the finished tables borrowing only receives, and so does funding unless a transfer is part of a deposit. */
  lemma NothingSpentOutside(
      c: Context, xs: seq<Transfer>, saves: seq<AutoSave>, assets: map<Addr, Addr>, purpose: string, token: Addr)
    requires AssetsKnown(saves, assets)
    ensures var ss := PutAll(NO_SECTIONS, TransferFlows(c, xs) + SaveFlows(c, saves, assets));
      && Read(ss, Borrowing, purpose, token, Spent) == 0
      && (!HasDeposit(c, xs) ==> Read(ss, Funding, purpose, token, Spent) == 0)
  {
    hide PutAll, Read, TransferFlows, SaveFlows;
    var fs := TransferFlows(c, xs) + SaveFlows(c, saves, assets);
    TransfersComeIn(c, xs, HasDeposit(c, xs));
    SavesComeIn(c, saves, assets);
    CellsHoldTheirFlows(fs, Borrowing, purpose, token, Spent);
    EmptyCell(fs, Borrowing, purpose, token, Spent);
    if !HasDeposit(c, xs) {
      CellsHoldTheirFlows(fs, Funding, purpose, token, Spent);
      EmptyCell(fs, Funding, purpose, token, Spent);
    }
  }

  // ----- totals of a token

  ghost function ByPurpose(g: Groups, token: Addr, d: Direction): map<string, nat> {
    map p | p in g :: Part(AmountsAt(g, p, token), d)
  }

  ghost function GroupsTotal(g: Groups, token: Addr, d: Direction): nat { Sum(ByPurpose(g, token, d)) }

  ghost function SectionTotal(ss: Sections, s: Section, token: Addr, d: Direction): nat {
    GroupsTotal(At(ss, s), token, d)
  }

  /** All a token's amounts in one direction, over all sections and purposes. */
  ghost function TokenTotal(ss: Sections, token: Addr, d: Direction): nat {
    SectionTotal(ss, Funding, token, d) + SectionTotal(ss, Borrowing, token, d)
    + SectionTotal(ss, Activity, token, d) + SectionTotal(ss, BridgeOuts, token, d)
  }

  function TokenSum(fs: seq<Flow>, token: Addr, d: Direction): nat {
    if fs == [] then 0 else
      var f := fs[|fs| - 1];
      TokenSum(fs[..|fs| - 1], token, d) + if f.token == token && f.direction == d then f.amount else 0
  }

  lemma PutInTotal(g: Groups, f: Flow, token: Addr, d: Direction)
    ensures GroupsTotal(PutIn(g, f), token, d)
      == GroupsTotal(g, token, d) + if f.token == token && f.direction == d then f.amount else 0
  {
    hide AmountsAt, Part;
    var before, after := ByPurpose(g, token, d), ByPurpose(PutIn(g, f), token, d);
    var v := Part(AmountsAt(PutIn(g, f), f.purpose, token), d);
    forall p ensures Part(AmountsAt(PutIn(g, f), p, token), d)
      == Part(AmountsAt(g, p, token), d)
        + if f.purpose == p && f.token == token && f.direction == d then f.amount else 0
    {
      PutInCell(g, f, p, token, d);
    }
    assert after == before[f.purpose := v];
    SumUpdate(before, f.purpose, v);
    NoGroup(g, f.purpose, token, d);
  }

  lemma NoGroup(g: Groups, purpose: string, token: Addr, d: Direction)
    ensures purpose !in g ==> Part(AmountsAt(g, purpose, token), d) == 0
  {
  }

  lemma WithTotal(ss: Sections, s: Section, g: Groups, token: Addr, d: Direction)
    ensures TokenTotal(With(ss, s, g), token, d)
      == TokenTotal(ss, token, d) - GroupsTotal(At(ss, s), token, d) + GroupsTotal(g, token, d)
  {
    hide GroupsTotal;
    match s case Funding => case Borrowing => case Activity => case BridgeOuts =>
  }

  lemma PutTotal(ss: Sections, f: Flow, token: Addr, d: Direction)
    ensures TokenTotal(Put(ss, f), token, d)
      == TokenTotal(ss, token, d) + if f.token == token && f.direction == d then f.amount else 0
  {
    hide GroupsTotal, PutIn, With, TokenTotal;
    PutInTotal(At(ss, f.section), f, token, d);
    WithTotal(ss, f.section, PutIn(At(ss, f.section), f), token, d);
  }

  lemma {:induction false} TotalIsTokenSum(fs: seq<Flow>, token: Addr, d: Direction)
    ensures TokenTotal(PutAll(NO_SECTIONS, fs), token, d) == TokenSum(fs, token, d)
  {
    hide Put, TokenTotal;
    if fs != [] {
      TotalIsTokenSum(fs[..|fs| - 1], token, d);
      PutTotal(PutAll(NO_SECTIONS, fs[..|fs| - 1]), fs[|fs| - 1], token, d);
    } else {
      NothingTotal(token, d);
    }
  }

  lemma NothingTotal(token: Addr, d: Direction)
    ensures TokenTotal(NO_SECTIONS, token, d) == 0
  {
    var none: Groups := map[];
    var empty: map<string, nat> := map[];
    assert ByPurpose(none, token, d) == empty && Sum(empty) == 0;
  }

  function Net(fs: seq<Flow>, token: Addr): int { TokenSum(fs, token, Received) - TokenSum(fs, token, Spent) }

  lemma {:induction false} NetConcat(a: seq<Flow>, b: seq<Flow>, token: Addr)
    ensures Net(a + b, token) == Net(a, token) + Net(b, token)
  {
    if b == [] {
      assert a + b == a;
    } else {
      assert (a + b)[..|a + b| - 1] == a + b[..|b| - 1];
      NetConcat(a, b[..|b| - 1], token);
    }
  }

  // ----- the timeline

  type Moves = map<Addr, int>

  function MoveOf(moves: Moves, token: Addr): int { if token in moves then moves[token] else 0 }

  function MovesAt(byTx: map<Hash, Moves>, tx: Hash): Moves { if tx in byTx then byTx[tx] else map[] }

  /** Entries are made for own transactions and auto-saves too, without moves. */
  function Touch(byTx: map<Hash, Moves>, tx: Hash): map<Hash, Moves> { byTx[tx := MovesAt(byTx, tx)] }

  function Move(moves: Moves, addr: Addr, x: Transfer): Moves {
    var received := if x.to == addr then moves[x.token := MoveOf(moves, x.token) + x.value] else moves;
    if x.from == addr then received[x.token := MoveOf(received, x.token) - x.value] else received
  }

  function TimelineStep(byTx: map<Hash, Moves>, addr: Addr, x: Transfer): map<Hash, Moves> {
    byTx[x.tx := Move(MovesAt(byTx, x.tx), addr, x)]
  }

  function Timeline(byTx: map<Hash, Moves>, addr: Addr, xs: seq<Transfer>): map<Hash, Moves> {
    if xs == [] then byTx else TimelineStep(Timeline(byTx, addr, xs[..|xs| - 1]), addr, xs[|xs| - 1])
  }

  lemma OneMoveMore(byTx: map<Hash, Moves>, addr: Addr, xs: seq<Transfer>)
    ensures Timeline(byTx, addr, xs[..0]) == byTx
    ensures forall i: nat {:trigger xs[i]} :: i < |xs| ==>
      Timeline(byTx, addr, xs[..i + 1]) == TimelineStep(Timeline(byTx, addr, xs[..i]), addr, xs[i])
  {
    hide TimelineStep;
    forall i: nat | i < |xs|
      ensures Timeline(byTx, addr, xs[..i + 1]) == TimelineStep(Timeline(byTx, addr, xs[..i]), addr, xs[i])
    {
      assert xs[..i + 1][..i] == xs[..i];
    }
  }

  ghost function TokenMoves(byTx: map<Hash, Moves>, token: Addr): map<Hash, int> {
    map tx | tx in byTx :: MoveOf(byTx[tx], token)
  }

  /** A token's net over all transactions of the timeline. */
  ghost function NetMoves(byTx: map<Hash, Moves>, token: Addr): int { IntSum(TokenMoves(byTx, token)) }

  /** What one transfer does to a token of the address. */
  function Effect(addr: Addr, x: Transfer, token: Addr): int {
    if x.token != token then 0
    else (if x.to == addr then x.value else 0) - (if x.from == addr then x.value else 0)
  }

  lemma UpdateNet(byTx: map<Hash, Moves>, tx: Hash, moves: Moves, token: Addr)
    ensures NetMoves(byTx[tx := moves], token) ==
      NetMoves(byTx, token) - MoveOf(MovesAt(byTx, tx), token) + MoveOf(moves, token)
  {
    var before := TokenMoves(byTx, token);
    assert TokenMoves(byTx[tx := moves], token) == before[tx := MoveOf(moves, token)];
    IntSumUpdate(before, tx, MoveOf(moves, token));
    assert MoveOf(map[], token) == 0;
  }

  lemma MoveEffect(moves: Moves, addr: Addr, x: Transfer, token: Addr)
    ensures MoveOf(Move(moves, addr, x), token) == MoveOf(moves, token) + Effect(addr, x, token)
  {
  }

  lemma TimelineNet(byTx: map<Hash, Moves>, addr: Addr, x: Transfer, token: Addr)
    ensures NetMoves(TimelineStep(byTx, addr, x), token) == NetMoves(byTx, token) + Effect(addr, x, token)
  {
    hide NetMoves, Move, MoveOf, Effect;
    MoveEffect(MovesAt(byTx, x.tx), addr, x, token);
    UpdateNet(byTx, x.tx, Move(MovesAt(byTx, x.tx), addr, x), token);
  }

  // ----- the two agree

  /** The query returns transfers to or from the address. */
  predicate Touches(addr: Addr, xs: seq<Transfer>) {
    forall i :: 0 <= i < |xs| ==> xs[i].to == addr || xs[i].from == addr
  }

  function Signed(f: Flow, token: Addr): int {
    if f.token != token then 0 else if f.direction == Received then f.amount else 0 - f.amount
  }

  lemma OneNet(f: Flow, token: Addr)
    ensures Net([f], token) == Signed(f, token)
  {
    assert [f][..0] == [];
    assert TokenSum([f], token, Received) == if f.token == token && f.direction == Received then f.amount else 0;
    assert TokenSum([f], token, Spent) == if f.token == token && f.direction == Spent then f.amount else 0;
  }

  lemma FlowIsEffect(c: Context, x: Transfer, token: Addr)
    requires x.to == c.addr || x.from == c.addr
    ensures Net(FlowsOf(c, x), token) == Effect(c.addr, x, token)
  {
    hide Classify, Net;
    if Counts(x) {
      OneNet(FlowsOf(c, x)[0], token);
    } else {
      NoNet(token);
    }
  }

  /** Transfers: every non-self, nonzero one is a single flow, so the nets agree token by token. */
  lemma {:induction false} TransfersAgree(c: Context, xs: seq<Transfer>, byTx: map<Hash, Moves>, token: Addr)
    requires Touches(c.addr, xs)
    ensures NetMoves(Timeline(byTx, c.addr, xs), token) == NetMoves(byTx, token) + Net(TransferFlows(c, xs), token)
  {
    hide Net, NetMoves, TimelineStep, FlowsOf, Effect;
    if xs != [] {
      var n := |xs| - 1;
      TransfersAgree(c, xs[..n], byTx, token);
      TimelineNet(Timeline(byTx, c.addr, xs[..n]), c.addr, xs[n], token);
      NetConcat(TransferFlows(c, xs[..n]), FlowsOf(c, xs[n]), token);
      FlowIsEffect(c, xs[n], token);
    } else {
      NoNet(token);
    }
  }

  lemma NoNet(token: Addr)
    ensures Net([], token) == 0
  {
  }

  /** What auto-saves add: the source amount less the saved one, where the source token is the vault's asset. */
  function Drift(saves: seq<AutoSave>, assets: map<Addr, Addr>, token: Addr): int
    requires AssetsKnown(saves, assets)
  {
    if saves == [] then 0 else
      var s := saves[|saves| - 1];
      Drift(saves[..|saves| - 1], assets, token)
      + if s.sourceToken == assets[s.saveToken] == token then s.sourceAmount - s.usdstAmount else 0
  }

  lemma SaveNet(s: AutoSave, asset: Addr, vaultLabel: string, token: Addr)
    ensures Net(FlowsOfSave(s, asset, vaultLabel), token)
      == if s.sourceToken == asset == token then s.sourceAmount - s.usdstAmount else 0
  {
    hide Net;
    var fs := FlowsOfSave(s, asset, vaultLabel);
    var first := Flow(Funding, "Bridged in from " + s.chain, s.sourceToken, Received, s.sourceAmount);
    var last := Flow(Activity, vaultLabel, asset, Spent, s.usdstAmount);
    OneNet(first, token);
    OneNet(last, token);
    if s.sourceToken == asset {
      assert fs == [first] + [last];
      NetConcat([first], [last], token);
    } else {
      var out := Flow(Activity, "Swaps and conversions", s.sourceToken, Spent, s.sourceAmount);
      var back := Flow(Activity, "Swaps and conversions", asset, Received, s.usdstAmount);
      assert fs == [first] + [out] + [back] + [last];
      OneNet(out, token);
      OneNet(back, token);
      NetConcat([first], [out], token);
      NetConcat([first] + [out], [back], token);
      NetConcat([first] + [out] + [back], [last], token);
    }
  }

  lemma {:induction false} SavesDrift(c: Context, saves: seq<AutoSave>, assets: map<Addr, Addr>, token: Addr)
    requires AssetsKnown(saves, assets)
    ensures Net(SaveFlows(c, saves, assets), token) == Drift(saves, assets, token)
  {
    hide Net, FlowsOfSave;
    if saves != [] {
      var n := |saves| - 1;
      var s := saves[n];
      SavesDrift(c, saves[..n], assets, token);
      SaveNet(s, assets[s.saveToken], Shown(c, s.saveToken), token);
      NetConcat(SaveFlows(c, saves[..n], assets), FlowsOfSave(s, assets[s.saveToken], Shown(c, s.saveToken)), token);
    } else {
      NoNet(token);
    }
  }

  function Entries(byTx: map<Hash, Moves>, hashes: seq<Hash>): map<Hash, Moves> {
    if hashes == [] then byTx else Touch(Entries(byTx, hashes[..|hashes| - 1]), hashes[|hashes| - 1])
  }

  lemma {:induction false} EntriesMoveNothing(byTx: map<Hash, Moves>, hashes: seq<Hash>, token: Addr)
    ensures NetMoves(Entries(byTx, hashes), token) == NetMoves(byTx, token)
  {
    hide NetMoves;
    if hashes != [] {
      var n := |hashes| - 1;
      EntriesMoveNothing(byTx, hashes[..n], token);
      var before := Entries(byTx, hashes[..n]);
      UpdateNet(before, hashes[n], MovesAt(before, hashes[n]), token);
    }
  }

  /** What the transfers of one transaction do to a token of the address. */
  function TxEffect(addr: Addr, xs: seq<Transfer>, tx: Hash, token: Addr): int {
    if xs == [] then 0 else
      var x := xs[|xs| - 1];
      TxEffect(addr, xs[..|xs| - 1], tx, token) + if x.tx == tx then Effect(addr, x, token) else 0
  }

  lemma {:induction false} EntriesAre(byTx: map<Hash, Moves>, hashes: seq<Hash>, tx: Hash)
    ensures tx in Entries(byTx, hashes) <==> tx in byTx || tx in hashes
    ensures MovesAt(Entries(byTx, hashes), tx) == MovesAt(byTx, tx)
  {
    if hashes != [] {
      EntriesAre(byTx, hashes[..|hashes| - 1], tx);
      assert hashes == hashes[..|hashes| - 1] + [hashes[|hashes| - 1]];
    }
  }

  lemma {:induction false} TimelineIs(byTx: map<Hash, Moves>, addr: Addr, xs: seq<Transfer>, tx: Hash, token: Addr)
    ensures tx in Timeline(byTx, addr, xs) <==> tx in byTx || exists i :: 0 <= i < |xs| && xs[i].tx == tx
    ensures MoveOf(MovesAt(Timeline(byTx, addr, xs), tx), token)
      == MoveOf(MovesAt(byTx, tx), token) + TxEffect(addr, xs, tx, token)
  {
    hide Move, MoveOf, Effect;
    if xs != [] {
      var n := |xs| - 1;
      TimelineIs(byTx, addr, xs[..n], tx, token);
      MoveEffect(MovesAt(Timeline(byTx, addr, xs[..n]), xs[n].tx), addr, xs[n], token);
      assert forall i :: 0 <= i < n ==> xs[..n][i] == xs[i];
    }
  }

  function Hashes(saves: seq<AutoSave>): seq<Hash> { seq(|saves|, i requires 0 <= i < |saves| => saves[i].tx) }

  lemma NoMoves(token: Addr)
    ensures NetMoves(map[], token) == 0
  {
    var none: map<Hash, Moves> := map[];
    var empty: map<Hash, int> := map[];
    assert TokenMoves(none, token) == empty;
  }

  /** The two tables of a report. */
  class History {
    const context: Context
    var sections: Sections
    var byTx: map<Hash, Moves>

    constructor (context: Context)
      ensures this.context == context && sections == NO_SECTIONS && byTx == map[]
    {
      this.context, sections, byTx := context, NO_SECTIONS, map[];
    }

    method AddFlow(f: Flow)
      modifies `sections
      ensures sections == Put(old(sections), f)
    {
      hide With, At;
      var groups := At(sections, f.section);
      var group := if f.purpose in groups then groups[f.purpose] else map[];
      var amounts := if f.token in group then group[f.token] else Amounts(0, 0);
      if f.direction == Received {
        amounts := amounts.(received := amounts.received + f.amount);
      } else {
        amounts := amounts.(spent := amounts.spent + f.amount);
      }
      assert amounts == Add(AmountsAt(groups, f.purpose, f.token), f.direction, f.amount);
      sections := With(sections, f.section, groups[f.purpose := group[f.token := amounts]]);
    }

    method ClassifyTransfers(xs: seq<Transfer>)
      modifies `sections
      ensures sections == PutAll(old(sections), TransferFlows(context, xs))
    {
      hide FlowsOf;
      for i := 0 to |xs|
        invariant sections == PutAll(old(sections), TransferFlows(context, xs[..i]))
      {
        assert xs[..i + 1][..i] == xs[..i];
        PutAllConcat(old(sections), TransferFlows(context, xs[..i]), FlowsOf(context, xs[i]));
        ClassifyTransfer(xs[i]);
      }
      assert xs[..|xs|] == xs;
    }

    method ClassifyTransfer(x: Transfer)
      modifies `sections
      ensures sections == PutAll(old(sections), FlowsOf(context, x))
    {
      hide Put, Classify;
      if x.from == x.to || x.value == 0 { return; }
      assert FlowsOf(context, x)[..0] == [];
      var (section, purpose) := Classify(context, x);
      AddFlow(Flow(section, purpose, x.token, if x.to == context.addr then Received else Spent, x.value));
    }

    /** A save into a vault of unknown asset is the thrown error. */
    method AddAutoSaves(saves: seq<AutoSave>, assets: map<Addr, Addr>) returns (ok: bool)
      modifies `sections
      ensures ok <==> AssetsKnown(saves, assets)
      ensures ok ==> sections == PutAll(old(sections), SaveFlows(context, saves, assets))
    {
      hide Put, PutAll, FlowsOfSave, Shown, SaveFlows;
      NoSaves(context, assets, sections);
      for i := 0 to |saves|
        invariant AssetsKnown(saves[..i], assets)
        invariant sections == PutAll(old(sections), SaveFlows(context, saves[..i], assets))
      {
        var s := saves[i];
        if s.saveToken !in assets { return false; }
        var asset := assets[s.saveToken];
        OneSaveMore(context, saves, assets, i);
        PutAllConcat(old(sections), SaveFlows(context, saves[..i], assets),
          FlowsOfSave(s, asset, Shown(context, s.saveToken)));
        AddSave(s, asset);
      }
      assert saves[..|saves|] == saves;
      return true;
    }

    method AddSave(s: AutoSave, asset: Addr)
      modifies `sections
      ensures sections == PutAll(old(sections), FlowsOfSave(s, asset, Shown(context, s.saveToken)))
    {
      hide Put;
      ghost var fs := FlowsOfSave(s, asset, Shown(context, s.saveToken));
      AddFlow(Flow(Funding, "Bridged in from " + s.chain, s.sourceToken, Received, s.sourceAmount));
      assert fs[..1][..0] == [] && sections == PutAll(old(sections), fs[..1]);
      if s.sourceToken != asset {
        AddFlow(Flow(Activity, "Swaps and conversions", s.sourceToken, Spent, s.sourceAmount));
        assert fs[..2][..1] == fs[..1] && sections == PutAll(old(sections), fs[..2]);
        AddFlow(Flow(Activity, "Swaps and conversions", asset, Received, s.usdstAmount));
        assert fs[..3][..2] == fs[..2] && sections == PutAll(old(sections), fs[..3]);
      }
      AddFlow(Flow(Activity, Shown(context, s.saveToken), asset, Spent, s.usdstAmount));
    }

    method TouchAll(hashes: seq<Hash>)
      modifies `byTx
      ensures byTx == Entries(old(byTx), hashes)
    {
      for i := 0 to |hashes|
        invariant byTx == Entries(old(byTx), hashes[..i])
      {
        assert hashes[..i + 1][..i] == hashes[..i];
        byTx := byTx[hashes[i] := if hashes[i] in byTx then byTx[hashes[i]] else map[]];
      }
      assert hashes[..|hashes|] == hashes;
    }

    method RecordMoves(xs: seq<Transfer>)
      modifies `byTx
      ensures byTx == Timeline(old(byTx), context.addr, xs)
    {
      hide Timeline;
      OneMoveMore(old(byTx), context.addr, xs);
      for i := 0 to |xs|
        invariant byTx == Timeline(old(byTx), context.addr, xs[..i])
      {
        var x := xs[i];
        var moves := if x.tx in byTx then byTx[x.tx] else map[];
        if x.to == context.addr {
          moves := moves[x.token := (if x.token in moves then moves[x.token] else 0) + x.value];
        }
        if x.from == context.addr {
          moves := moves[x.token := (if x.token in moves then moves[x.token] else 0) - x.value];
        }
        byTx := byTx[x.tx := moves];
      }
      assert xs[..|xs|] == xs;
    }

    method BuildTimeline(own: seq<Hash>, xs: seq<Transfer>, saves: seq<AutoSave>)
      modifies `byTx
      ensures byTx == Entries(Timeline(Entries(old(byTx), own), context.addr, xs), Hashes(saves))
    {
      TouchAll(own);
      RecordMoves(xs);
      TouchAll(Hashes(saves));
    }

    /**
     * Received less spent, over all sections and purposes, is the timeline's net plus the drift of
     * saves in the vault's own asset.
     */
    method Report(own: seq<Hash>, xs: seq<Transfer>, saves: seq<AutoSave>, assets: map<Addr, Addr>) returns (ok: bool)
      requires sections == NO_SECTIONS && byTx == map[] && Touches(context.addr, xs)
      modifies this
      ensures ok ==> forall tx :: tx in byTx <==> InTimeline(own, xs, saves, tx)
      ensures ok ==> forall tx, token :: MoveOf(MovesAt(byTx, tx), token) == TxEffect(context.addr, xs, tx, token)
      ensures ok <==> AssetsKnown(saves, assets)
      ensures ok ==> forall token ::
        TokenTotal(sections, token, Received) - TokenTotal(sections, token, Spent) ==
          NetMoves(byTx, token) + Drift(saves, assets, token)
      ensures ok ==> forall s, purpose, token, d ::
        Read(sections, s, purpose, token, d)
          == CellSum(TransferFlows(context, xs) + SaveFlows(context, saves, assets), s, purpose, token, d)
    {
      hide Put, PutAll, TokenTotal, NetMoves, Read, CellSum, TransferFlows, SaveFlows, Timeline, Entries,
        TxEffect, MoveOf, MovesAt, InTimeline;
      ClassifyTransfers(xs);
      ok := AddAutoSaves(saves, assets);
      if !ok { return; }
      BuildTimeline(own, xs, saves);
      ghost var transfers, saved := TransferFlows(context, xs), SaveFlows(context, saves, assets);
      PutAllConcat(NO_SECTIONS, transfers, saved);
      forall tx ensures tx in byTx <==> InTimeline(own, xs, saves, tx) {
        TimelineMeans(own, context.addr, xs, saves, tx, 0);
      }
      forall tx, token
        ensures MoveOf(MovesAt(byTx, tx), token) == TxEffect(context.addr, xs, tx, token)
      {
        TimelineMeans(own, context.addr, xs, saves, tx, token);
      }
      forall token ensures TokenTotal(sections, token, Received) - TokenTotal(sections, token, Spent)
        == NetMoves(byTx, token) + Drift(saves, assets, token)
      {
        Agree(context, own, xs, saves, assets, token);
      }
      forall s, purpose, token, d
        ensures Read(sections, s, purpose, token, d) == CellSum(transfers + saved, s, purpose, token, d)
      {
        CellsHoldTheirFlows(transfers + saved, s, purpose, token, d);
      }
    }
  }

  /** The address sent the transaction, or it holds a transfer or an auto-save. */
  predicate InTimeline(own: seq<Hash>, xs: seq<Transfer>, saves: seq<AutoSave>, tx: Hash) {
    || tx in own || (exists i :: 0 <= i < |xs| && xs[i].tx == tx)
    || exists i :: 0 <= i < |saves| && saves[i].tx == tx
  }

  lemma TimelineMeans(own: seq<Hash>, addr: Addr, xs: seq<Transfer>, saves: seq<AutoSave>, tx: Hash, token: Addr)
    ensures var byTx := Entries(Timeline(Entries(map[], own), addr, xs), Hashes(saves));
      && (tx in byTx <==> InTimeline(own, xs, saves, tx))
      && MoveOf(MovesAt(byTx, tx), token) == TxEffect(addr, xs, tx, token)
  {
    hide Entries, Timeline, TxEffect;
    EntriesAre(map[], own, tx);
    TimelineIs(Entries(map[], own), addr, xs, tx, token);
    EntriesAre(Timeline(Entries(map[], own), addr, xs), Hashes(saves), tx);
    assert forall i :: 0 <= i < |saves| ==> Hashes(saves)[i] == saves[i].tx;
  }

  lemma Agree(c: Context, own: seq<Hash>, xs: seq<Transfer>, saves: seq<AutoSave>, assets: map<Addr, Addr>, token: Addr)
    requires Touches(c.addr, xs) && AssetsKnown(saves, assets)
    ensures var ss := PutAll(NO_SECTIONS, TransferFlows(c, xs) + SaveFlows(c, saves, assets));
      var byTx := Entries(Timeline(Entries(map[], own), c.addr, xs), Hashes(saves));
      TokenTotal(ss, token, Received) - TokenTotal(ss, token, Spent) ==
        NetMoves(byTx, token) + Drift(saves, assets, token)
  {
    hide PutAll, TokenTotal, NetMoves, TransferFlows, SaveFlows, Timeline, Entries, TokenSum;
    var fs := TransferFlows(c, xs) + SaveFlows(c, saves, assets);
    TotalIsTokenSum(fs, token, Received);
    TotalIsTokenSum(fs, token, Spent);
    NetConcat(TransferFlows(c, xs), SaveFlows(c, saves, assets), token);
    SavesDrift(c, saves, assets, token);
    NoMoves(token);
    EntriesMoveNothing(map[], own, token);
    TransfersAgree(c, xs, Entries(map[], own), token);
    EntriesMoveNothing(Timeline(Entries(map[], own), c.addr, xs), Hashes(saves), token);
  }
}
