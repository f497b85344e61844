/**
 * The reconciliation plan a snapshot fixes, and the one invariant every action
 * of that plan keeps on the Rewards ledger.
 */
module Reconcile {
  import opened Arithmetic
  import opened Batches
  import opened Options
  import opened Rewards
  import opened Sums

  /** Seed keys start this far above the first withdraw key. */
  const SEED_INDEX_OFFSET: nat := 100000

  datatype VaultKind = Yield | Save

  /** A vault event that no processed key covers yet. */
  datatype VaultEvent =
    | OwnerEvent(key: Key, eventName: string, owner: Option<Addr>)
    | ShareTransfer(key: Key, sender: Addr, recipient: Addr)

  datatype Snapshot = Snapshot(
    kind: VaultKind,
    vault: Addr,
    stakes: map<Addr, nat>,
    targets: map<Addr, nat>,
    withdrawUsers: seq<Addr>,
    seedUsers: seq<Addr>,
    historical: seq<VaultEvent>,
    block: nat,
    indexBase: nat,
    batchSize: nat,
    restoreRate: nat)

  function ExpectedRoutes(kind: VaultKind): seq<Route> {
    [Route("Deposit", Deposit), Route("Withdraw", Withdraw)]
    + (if kind == Yield then [Route("QueueProcessed", Withdraw)] else [])
    + [Route("Transfer", Transfer)]
  }

  predicate Distinct<T(==)>(s: seq<T>) {
    forall i, j :: 0 <= i < j < |s| ==> s[i] != s[j]
  }

  function IndexOf(s: seq<Addr>, u: Addr): (i: nat)
    requires u in s
    ensures i < |s| && s[i] == u
  {
    if s[|s| - 1] == u then |s| - 1 else IndexOf(s[..|s| - 1], u)
  }

  function WithdrawKey(snap: Snapshot, i: nat): Key { Key(snap.block, snap.indexBase + i) }

  function SeedKey(snap: Snapshot, i: nat): Key { Key(snap.block, snap.indexBase + SEED_INDEX_OFFSET + i) }

  function WithdrawActions(snap: Snapshot): Batch {
    seq(|snap.withdrawUsers|, i requires 0 <= i < |snap.withdrawUsers| =>
      Action(HandleAction, "Withdraw", snap.withdrawUsers[i], 0,
             Get(snap.stakes, snap.withdrawUsers[i]), WithdrawKey(snap, i)))
  }

  function SeedActions(snap: Snapshot): Batch {
    seq(|snap.seedUsers|, i requires 0 <= i < |snap.seedUsers| =>
      Action(HandleAction, "Deposit", snap.seedUsers[i], 0,
             Get(snap.targets, snap.seedUsers[i]), SeedKey(snap, i)))
  }

  /** The recorded rate is no part of the reservations. */
  lemma RateAside(snap: Snapshot, rate: nat)
    ensures WithdrawActions(snap.(restoreRate := rate)) == WithdrawActions(snap)
    ensures SeedActions(snap.(restoreRate := rate)) == SeedActions(snap)
  {
    hide Get;
    var other := snap.(restoreRate := rate);
    forall i | 0 <= i < |snap.withdrawUsers| ensures WithdrawActions(other)[i] == WithdrawActions(snap)[i] {}
    forall i | 0 <= i < |snap.seedUsers| ensures SeedActions(other)[i] == SeedActions(snap)[i] {}
  }

  /** Marking a vault event consumes its key with amount zero. */
  function MarkerFor(snap: Snapshot, e: VaultEvent): Action {
    match e
    case OwnerEvent(key, name, owner) =>
      Action(HandleAction, name, if owner.Some? then owner.value else snap.vault, 0, 0, key)
    case ShareTransfer(key, sender, recipient) =>
      Action(HandleTransfer, "Transfer", sender, recipient, 0, key)
  }

  function Markers(snap: Snapshot, events: seq<VaultEvent>, transfers: bool): (r: Batch)
    ensures forall a :: a in r ==> exists e :: e in events && a == MarkerFor(snap, e)
    ensures forall e :: e in events && e.ShareTransfer? == transfers ==> MarkerFor(snap, e) in r
  {
    if events == [] then [] else
      var rest := Markers(snap, events[1..], transfers);
      if events[0].ShareTransfer? == transfers then [MarkerFor(snap, events[0])] + rest else rest
  }

  /** Actions sort before transfers, each group in event order. */
  function MarkActions(snap: Snapshot): Batch {
    Markers(snap, snap.historical, false) + Markers(snap, snap.historical, true)
  }

  /** What a marker is for an event, stated on its parts: nothing is moved, and the event's own pair is consumed. */
  lemma MarkersMean(snap: Snapshot, e: VaultEvent)
    ensures var a := MarkerFor(snap, e);
      && a.key == e.key && a.amount == 0 && (a.call == HandleTransfer <==> e.ShareTransfer?)
      && (e.ShareTransfer? ==> a.eventName == "Transfer" && a.user == e.sender && a.recipient == e.recipient)
      && (e.OwnerEvent? ==> a.eventName == e.eventName)
      && (e.OwnerEvent? ==> e.owner == Some(a.user) || (e.owner.None? && a.user == snap.vault))
  {
  }

  lemma {:induction false} MarkersOf(snap: Snapshot, events: seq<VaultEvent>, transfers: bool)
    ensures var r := Markers(snap, events, transfers);
      forall a :: a in r ==> (a.call == HandleTransfer <==> transfers)
  {
    if events != [] { MarkersOf(snap, events[1..], transfers); }
  }

  /** One marker for each event, those of actions before those of transfers. */
  lemma MarksInOrder(snap: Snapshot)
    ensures var r := MarkActions(snap);
      && |r| == |snap.historical|
      && forall i, j :: 0 <= i < j < |r| && r[j].call == HandleAction ==> r[i].call == HandleAction
  {
    var actions, transfers := Markers(snap, snap.historical, false), Markers(snap, snap.historical, true);
    assert forall i :: 0 <= i < |actions| ==> actions[i] in actions;
    assert forall i :: 0 <= i < |transfers| ==> transfers[i] in transfers;
    MarkersOf(snap, snap.historical, false);
    MarkersOf(snap, snap.historical, true);
    MarkersCount(snap, snap.historical);
  }

  lemma {:induction false} MarkersCount(snap: Snapshot, events: seq<VaultEvent>)
    ensures |Markers(snap, events, false)| + |Markers(snap, events, true)| == |events|
  {
    if events != [] { MarkersCount(snap, events[1..]); }
  }

  function Keys(batch: Batch): set<Key> { set a | a in batch :: a.key }

  function PlanKeys(snap: Snapshot): set<Key> {
    Keys(WithdrawActions(snap)) + Keys(MarkActions(snap)) + Keys(SeedActions(snap))
  }

  predicate DistinctKeys(events: seq<VaultEvent>) {
    forall i, j :: 0 <= i < j < |events| ==> events[i].key != events[j].key
  }

  /** What the snapshot phase guarantees about the file it writes. */
  ghost predicate WellFormed(snap: Snapshot) {
    && Distinct(snap.withdrawUsers) && Distinct(snap.seedUsers)
    && (forall u :: u in snap.withdrawUsers <==> Get(snap.stakes, u) > 0)
    && (forall u :: u in snap.seedUsers <==> Get(snap.targets, u) > 0)
    && DistinctKeys(snap.historical)
    && (forall e :: e in snap.historical && e.key.blockNumber == snap.block ==> e.key.eventIndex < snap.indexBase)
    && snap.batchSize > 0
  }

  /** At most this many withdrawals leave the seed keys free. */
  predicate KeysFit(snap: Snapshot) {
    |snap.withdrawUsers| <= SEED_INDEX_OFFSET || snap.seedUsers == []
  }

  ghost predicate ReservedDisjoint(snap: Snapshot) {
    forall i, j :: 0 <= i < |snap.withdrawUsers| && 0 <= j < |snap.seedUsers| ==>
      WithdrawKey(snap, i) != SeedKey(snap, j)
  }

  /** The reserved keys are pairwise different exactly when the withdrawals fit below the seed offset. */
  lemma ReservedDisjointIffFit(snap: Snapshot)
    ensures ReservedDisjoint(snap) <==> KeysFit(snap)
    ensures ReservedDisjoint(snap) <==> |snap.withdrawUsers| <= 100000 || |snap.seedUsers| == 0
  {
    if !KeysFit(snap) {
      assert WithdrawKey(snap, SEED_INDEX_OFFSET) == SeedKey(snap, 0);
    }
  }

  /** The reservations are one run of indices each in the snapshot's block, in the order of the users. */
  lemma ReservedRanges(snap: Snapshot, k: Key)
    ensures k in Keys(WithdrawActions(snap)) <==>
      k.blockNumber == snap.block && snap.indexBase <= k.eventIndex < snap.indexBase + |snap.withdrawUsers|
    ensures k in Keys(SeedActions(snap)) <==>
      k.blockNumber == snap.block && 0 <= k.eventIndex - snap.indexBase - 100000 < |snap.seedUsers|
    ensures forall i :: 0 <= i < |snap.withdrawUsers| ==>
      var a := WithdrawActions(snap)[i];
      a.user == snap.withdrawUsers[i] && a.amount == Get(snap.stakes, a.user) && a.key.eventIndex == snap.indexBase + i
    ensures forall i :: 0 <= i < |snap.seedUsers| ==>
      var a := SeedActions(snap)[i];
      a.user == snap.seedUsers[i] && a.amount == Get(snap.targets, a.user)
      && a.key.eventIndex == snap.indexBase + 100000 + i
  {
    hide Get;
    var ws, ss := WithdrawActions(snap), SeedActions(snap);
    if k.blockNumber == snap.block && 0 <= k.eventIndex - snap.indexBase < |snap.withdrawUsers| {
      assert ws[k.eventIndex - snap.indexBase] in ws && ws[k.eventIndex - snap.indexBase].key == k;
    }
    if k.blockNumber == snap.block && 0 <= k.eventIndex - snap.indexBase - SEED_INDEX_OFFSET < |snap.seedUsers| {
      var i := k.eventIndex - snap.indexBase - SEED_INDEX_OFFSET;
      assert ss[i] in ss && ss[i].key == k;
    }
  }

  predicate Withdrawn(snap: Snapshot, done: set<Key>, u: Addr) {
    u in snap.withdrawUsers && WithdrawKey(snap, IndexOf(snap.withdrawUsers, u)) in done
  }

  predicate Seeded(snap: Snapshot, done: set<Key>, u: Addr) {
    u in snap.seedUsers && SeedKey(snap, IndexOf(snap.seedUsers, u)) in done
  }

  /** What is left of the snapshot stake; an ignored withdrawal leaves all of it. */
  function Residual(snap: Snapshot, done: set<Key>, minAmount: nat, u: Addr): nat {
    if Withdrawn(snap, done, u) && !Ignored(minAmount, Get(snap.stakes, u)) then 0 else Get(snap.stakes, u)
  }

  function Regained(snap: Snapshot, done: set<Key>, minAmount: nat, u: Addr): nat {
    if Seeded(snap, done, u) && !Ignored(minAmount, Get(snap.targets, u)) then Get(snap.targets, u) else 0
  }

  ghost predicate AllWithdrawn(snap: Snapshot, done: set<Key>) {
    forall i :: 0 <= i < |snap.withdrawUsers| ==> WithdrawKey(snap, i) in done
  }

  predicate NoneSeeded(snap: Snapshot, done: set<Key>) {
    forall i :: 0 <= i < |snap.seedUsers| ==> SeedKey(snap, i) !in done
  }

  /** The ledger as the snapshot phase found it, emission already off. */
  ghost predicate Starts(snap: Snapshot, start: Ledger) {
    && Books(start, start, map[]) && start.emissionRate == 0
    && (forall u :: start.Stake(u) == Get(snap.stakes, u))
    && (forall i :: 0 <= i < |snap.withdrawUsers| ==> WithdrawKey(snap, i) !in start.processed)
    && NoneSeeded(snap, start.processed)
  }

  /** Whether withdrawing lowers a stake: nothing checks the routes before the withdraw phase. */
  predicate WithdrawLowers(snap: Snapshot, routes: seq<Route>) {
    snap.withdrawUsers == [] || RouteOf(routes, "Withdraw") != Some(Deposit)
  }

  predicate WithdrawRouted(snap: Snapshot, routes: seq<Route>) {
    snap.withdrawUsers == [] || RouteOf(routes, "Withdraw") == Some(Withdraw)
  }

  /** A user's rewards since the start, `paid` being what was claimed meanwhile. */
  predicate EarnedGrows(start: Ledger, l: Ledger, paid: map<Addr, nat>, u: Addr) {
    && start.Earned(u) <= l.Earned(u) + Get(paid, u)
    && (l.acc == start.acc ==> l.Earned(u) + Get(paid, u) == start.Earned(u))
  }

  /**
   * The books balance: the total is the sum of stakes, and nothing earned
   * before is ever lost, nor gained while the index stands still.
   */
  ghost predicate Books(start: Ledger, l: Ledger, paid: map<Addr, nat>) {
    && l.minAmount == start.minAmount && l.maxBatchSize == start.maxBatchSize
    && l.totalStake == Sum(l.stake)
    && start.acc <= l.acc
    && (forall u :: Get(l.index, u) <= l.acc)
    && (forall u :: EarnedGrows(start, l, paid, u))
  }

  /** Every stake is what the consumed keys say it is. */
  ghost predicate Progress(snap: Snapshot, l: Ledger) {
    && (NoneSeeded(snap, l.processed) || AllWithdrawn(snap, l.processed))
    && (forall u ::
          l.Stake(u) == Residual(snap, l.processed, l.minAmount, u) + Regained(snap, l.processed, l.minAmount, u))
  }

  /** What every action of the plan keeps. */
  ghost predicate Inv(snap: Snapshot, start: Ledger, l: Ledger, paid: map<Addr, nat>) {
    && Books(start, l, paid)
    && Progress(snap, l)
    && start.processed <= l.processed
    && (l.routes == start.routes || l.routes == ExpectedRoutes(snap.kind))
  }

  lemma TotalZeroIff(l: Ledger)
    requires l.totalStake == Sum(l.stake)
    ensures l.totalStake == 0 <==> forall u :: l.Stake(u) == 0
  {
    SumZero(l.stake);
    if forall u :: l.Stake(u) == 0 {
      assert forall u :: u in l.stake ==> l.stake[u] == l.Stake(u);
    }
  }

  // ----- what one action does to the bookkeeping

  /** The index never falls, and stands still with emission off. */
  lemma AccrueGrows(l: Ledger, now: nat)
    ensures var r := Accrue(l, now);
      && r == l.(acc := r.acc, lastUpdate := r.lastUpdate) && l.acc <= r.acc
      && (l.emissionRate == 0 ==> r.acc == l.acc)
      && forall u :: EarnedGrows(l, r, map[], u)
  {
    var r := Accrue(l, now);
    if now > l.lastUpdate && l.totalStake != 0 {
      assert l.emissionRate == 0 ==> l.emissionRate * (now - l.lastUpdate) == 0;
    }
    forall u ensures EarnedGrows(l, r, map[], u) { PendingGrows(l, r, u); }
  }

  lemma PendingGrows(l: Ledger, r: Ledger, u: Addr)
    requires r == l.(acc := r.acc, lastUpdate := r.lastUpdate) && l.acc <= r.acc
    ensures EarnedGrows(l, r, map[], u)
  {
    if Get(l.index, u) <= l.acc {
      Share(l.Stake(u), l.acc - Get(l.index, u), r.acc - Get(l.index, u));
    }
  }

  lemma Share(stake: nat, a: nat, b: nat)
    requires a <= b
    ensures stake * a / PRECISION_MULTIPLIER <= stake * b / PRECISION_MULTIPLIER
  {
    Scale(a, b, stake);
    Smaller(stake * a, stake * b);
  }

  lemma Smaller(a: int, b: int)
    requires a <= b
    ensures a / PRECISION_MULTIPLIER <= b / PRECISION_MULTIPLIER
  {
  }

  /** What one user's settlement does, the index brought up first. */
  lemma SettleSound(l: Ledger, u: Addr, now: nat)
    requires Get(l.index, u) <= l.acc
    ensures var s := Settle(Accrue(l, now), u);
      && s.Some?
      && (var r := s.value;
          r == l.(acc := r.acc, lastUpdate := r.lastUpdate, unclaimed := r.unclaimed, index := r.index))
      && l.acc <= s.value.acc && (l.emissionRate == 0 ==> s.value.acc == l.acc)
      && Get(s.value.index, u) == (if l.Stake(u) == 0 then Get(l.index, u) else s.value.acc)
      && (forall v :: v != u ==> Get(s.value.index, v) == Get(l.index, v))
      && (forall v :: EarnedGrows(l, s.value, map[], v))
  {
    hide Accrue, Settle;
    AccrueGrows(l, now);
    var grown := Accrue(l, now);
    SettleDefined(grown, u);
    SettleKeepsEarned(grown, u);
    var s := Settle(grown, u).value;
    forall v ensures EarnedGrows(l, s, map[], v) {
      assert EarnedGrows(l, grown, map[], v) && s.Earned(v) == grown.Earned(v);
    }
  }

  lemma SettleDefined(l: Ledger, u: Addr)
    requires Get(l.index, u) <= l.acc
    ensures Settle(l, u).Some? && (l.Stake(u) == 0 ==> Settle(l, u) == Some(l))
  {
  }

  lemma RestakeSound(l: Ledger, u: Addr, newStake: nat)
    requires l.totalStake == Sum(l.stake)
    requires l.Stake(u) == 0 || Get(l.index, u) == l.acc
    ensures var r := Restake(l, u, newStake);
      && r.Some?
      && r.value == l.(stake := r.value.stake, index := r.value.index, totalStake := r.value.totalStake)
      && r.value.totalStake == Sum(r.value.stake)
      && r.value.Stake(u) == newStake
      && (forall v :: v != u ==> r.value.Stake(v) == l.Stake(v) && Get(r.value.index, v) == Get(l.index, v))
      && Get(r.value.index, u) == l.acc
      && (forall v :: r.value.Earned(v) == l.Earned(v))
  {
    SumAtLeast(l.stake, u);
    SumUpdate(l.stake, u, newStake);
    var r := Restake(l, u, newStake).value;
    NothingPending(l, u);
    NothingPending(r, u);
  }

  /** A deposit or withdrawal that is not ignored, once its key is new. */
  lemma RestakingAction(l: Ledger, a: Action, now: nat)
    requires a.call == HandleAction && a.user != 0 && a.key !in l.processed && !Ignored(l.minAmount, a.amount)
    requires RouteOf(l.routes, a.eventName) == Some(Deposit) || RouteOf(l.routes, a.eventName) == Some(Withdraw)
    requires l.totalStake == Sum(l.stake) && Get(l.index, a.user) <= l.acc
    ensures var r := Apply(l, a, now);
      && r.Some?
      && r.value == l.(processed := l.processed + {a.key}, acc := r.value.acc, lastUpdate := r.value.lastUpdate,
                       unclaimed := r.value.unclaimed, stake := r.value.stake, index := r.value.index,
                       totalStake := r.value.totalStake)
      && l.acc <= r.value.acc && (l.emissionRate == 0 ==> r.value.acc == l.acc)
      && r.value.totalStake == Sum(r.value.stake)
      && r.value.Stake(a.user) == Moved(RouteOf(l.routes, a.eventName).value, l.Stake(a.user), a.amount)
      && (forall v :: v != a.user ==> r.value.Stake(v) == l.Stake(v) && Get(r.value.index, v) == Get(l.index, v))
      && Get(r.value.index, a.user) == r.value.acc
      && (forall v :: EarnedGrows(l, r.value, map[], v))
  {
    hide Settle, Accrue, Restake;
    var marked := l.(processed := l.processed + {a.key});
    assert forall v :: marked.Earned(v) == l.Earned(v);
    SettleSound(marked, a.user, now);
    var settled := Settle(Accrue(marked, now), a.user).value;
    RestakeSound(settled, a.user, Moved(RouteOf(l.routes, a.eventName).value, settled.Stake(a.user), a.amount));
    var r := Apply(l, a, now).value;
    forall v ensures EarnedGrows(l, r, map[], v) {
      assert EarnedGrows(marked, settled, map[], v) && r.Earned(v) == settled.Earned(v);
    }
  }

  // ----- one action of the plan

  /** A historical key is never one of the reserved ones. */
  lemma MarkerKeyApart(snap: Snapshot, a: Action)
    requires WellFormed(snap) && a in MarkActions(snap)
    ensures a.amount == 0
    ensures forall i: nat :: a.key != WithdrawKey(snap, i) && a.key != SeedKey(snap, i)
  {
  }

  /** The ledger after consuming one key: books that still balance, and an index that stands still with emission off. */
  ghost predicate Advances(l: Ledger, r: Ledger, k: Key) {
    && r.processed == l.processed + {k}
    && r.routes == l.routes && r.emissionRate == l.emissionRate
    && r.minAmount == l.minAmount
    && Books(l, r, map[])
    && (l.emissionRate == 0 ==> r.acc == l.acc)
  }

  /** Books carry on from step to step. */
  lemma BooksCarry(start: Ledger, l: Ledger, r: Ledger, paid: map<Addr, nat>)
    requires Books(start, l, paid) && Books(l, r, map[])
    ensures Books(start, r, paid)
  {
    forall u ensures EarnedGrows(start, r, paid, u) {
      assert EarnedGrows(start, l, paid, u) && EarnedGrows(l, r, map[], u);
    }
  }

  /** What the first use of a key does to the ledger, for a deposit or a withdrawal. */
  lemma FirstUse(l: Ledger, a: Action, now: nat)
    requires a.call == HandleAction && a.user != 0 && a.key !in l.processed && Books(l, l, map[])
    requires RouteOf(l.routes, a.eventName) == Some(Deposit) || RouteOf(l.routes, a.eventName) == Some(Withdraw)
    ensures var r := Apply(l, a, now);
      && r.Some?
      && Advances(l, r.value, a.key)
      && (forall v :: v != a.user ==> r.value.Stake(v) == l.Stake(v))
      && r.value.Stake(a.user) == if Ignored(l.minAmount, a.amount) then l.Stake(a.user)
                                  else Moved(RouteOf(l.routes, a.eventName).value, l.Stake(a.user), a.amount)
  {
    if Ignored(l.minAmount, a.amount) {
      var r := l.(processed := l.processed + {a.key});
      assert ApplyAction(l, a, now) == Some(r);
      assert forall v :: r.Earned(v) == l.Earned(v) && r.Stake(v) == l.Stake(v);
    } else {
      RestakingAction(l, a, now);
    }
  }

  /**
   * An action that is new and does not revert: nothing or too little only consumes the pair; otherwise
   * a deposit adds, and a withdrawal takes away as much of the stake as there is.
   */
  lemma ActionMeans(l: Ledger, a: Action, now: nat)
    requires Books(l, l, map[]) && a.call == HandleAction && a.key !in l.processed && Apply(l, a, now).Some?
    ensures var r := Apply(l, a, now).value; var ignored := a.amount == 0 || a.amount < l.minAmount;
      && r.processed == l.processed + {a.key} && r.totalStake == Sum(r.stake)
      && (forall v :: v != a.user ==> r.Stake(v) == l.Stake(v))
      && (ignored ==> r == l.(processed := r.processed))
      && (!ignored && RouteOf(l.routes, a.eventName) == Some(Deposit) ==> r.Stake(a.user) == l.Stake(a.user) + a.amount)
      && (!ignored && RouteOf(l.routes, a.eventName) != Some(Deposit) ==>
            && RouteOf(l.routes, a.eventName) == Some(Withdraw)
            && r.Stake(a.user) + Lesser(a.amount, l.Stake(a.user)) == l.Stake(a.user))
  {
    if Ignored(l.minAmount, a.amount) {
      IgnoredMarks(l, a, now);
    } else {
      FirstUse(l, a, now);
    }
  }

  /**
   * What the contract takes: an action of a real user routed as anything but a transfer, where an
   * occurrence must not move stake, and a transfer of two real users routed as one. A pair taken
   * before changes nothing.
   */
  lemma TakenIff(l: Ledger, a: Action, now: nat)
    requires Books(l, l, map[])
    ensures var kind := RouteOf(l.routes, a.eventName);
      Apply(l, a, now).Some? <==>
        if a.call == HandleAction then
          && a.user != 0 && kind.Some? && kind != Some(Transfer)
          && (kind == Some(Occurred) ==> a.key in l.processed || a.amount == 0 || a.amount < l.minAmount)
        else
          a.user != 0 && a.recipient != 0 && kind == Some(Transfer)
    ensures a.key in l.processed && Apply(l, a, now).Some? ==> Apply(l, a, now) == Some(l)
  {
    hide Settle, Accrue, Restake, TransferStake;
    var marked := l.(processed := l.processed + {a.key});
    if a.key !in l.processed && !Ignored(l.minAmount, a.amount) {
      MarkedBooks(l, l.processed + {a.key});
      if a.call == HandleTransfer {
        if a.user != a.recipient { TransferTaken(marked, a, now); }
      } else if RouteOf(l.routes, a.eventName) == Some(Deposit) || RouteOf(l.routes, a.eventName) == Some(Withdraw) {
        if a.user != 0 { RestakingAction(l, a, now); }
      }
    }
  }

  lemma MarkedBooks(l: Ledger, processed: set<Key>)
    requires Books(l, l, map[])
    ensures var marked := l.(processed := processed); Books(marked, marked, map[])
  {
    var marked := l.(processed := processed);
    assert forall u :: marked.Earned(u) == l.Earned(u);
  }

  lemma TransferTaken(l: Ledger, a: Action, now: nat)
    requires Books(l, l, map[])
    ensures TransferStake(l, a, now).Some?
  {
    hide Settle, Accrue;
    SettleSound(l, a.user, now);
    SettleSound(Settle(Accrue(l, now), a.user).value, a.recipient, now);
  }

  /** Whatever is not new and does not revert changes nothing. */
  lemma Repeat(snap: Snapshot, l: Ledger, a: Action, now: nat)
    requires Progress(snap, l) && Books(l, l, map[]) && a.key in l.processed
    ensures var r := Apply(l, a, now); r.Some? ==> Advances(l, r.value, a.key) && Progress(snap, r.value)
  {
    assert l.processed == l.processed + {a.key};
  }

  lemma ZeroAmountOnlyMarks(l: Ledger, a: Action, now: nat)
    requires a.amount == 0 && a.key !in l.processed && Apply(l, a, now).Some?
    ensures Apply(l, a, now).value == l.(processed := l.processed + {a.key})
  {
  }

  lemma MarkKeeps(snap: Snapshot, l: Ledger, a: Action, now: nat)
    requires WellFormed(snap) && Progress(snap, l) && Books(l, l, map[]) && a in MarkActions(snap)
    ensures var r := Apply(l, a, now); r.Some? ==> Advances(l, r.value, a.key) && Progress(snap, r.value)
  {
    var r := Apply(l, a, now);
    if r.Some? && a.key in l.processed {
      Repeat(snap, l, a, now);
    } else if r.Some? {
      MarkerKeyApart(snap, a);
      ZeroAmountOnlyMarks(l, a, now);
      OtherKeyKeeps(snap, l, a.key);
    }
  }

  lemma OtherKeyKeeps(snap: Snapshot, l: Ledger, k: Key)
    requires Progress(snap, l) && Books(l, l, map[])
    requires forall i: nat :: k != WithdrawKey(snap, i) && k != SeedKey(snap, i)
    ensures var r := l.(processed := l.processed + {k}); Advances(l, r, k) && Progress(snap, r)
  {
    var r := l.(processed := l.processed + {k});
    assert forall u :: r.Earned(u) == l.Earned(u) && r.Stake(u) == l.Stake(u);
    assert forall u :: Withdrawn(snap, r.processed, u) == Withdrawn(snap, l.processed, u);
    assert forall u :: Seeded(snap, r.processed, u) == Seeded(snap, l.processed, u);
  }

  lemma WithdrawProgress(snap: Snapshot, l: Ledger, r: Ledger, i: nat)
    requires WellFormed(snap) && KeysFit(snap) && Progress(snap, l) && i < |snap.withdrawUsers|
    requires WithdrawKey(snap, i) !in l.processed && r.processed == l.processed + {WithdrawKey(snap, i)}
    requires r.minAmount == l.minAmount
    requires var u := snap.withdrawUsers[i]; var amount := Get(snap.stakes, u);
      && (forall v :: v != u ==> r.Stake(v) == l.Stake(v))
      && r.Stake(u) == if Ignored(l.minAmount, amount) then l.Stake(u) else Moved(Withdraw, l.Stake(u), amount)
    ensures Progress(snap, r)
  {
    var u := snap.withdrawUsers[i];
    assert IndexOf(snap.withdrawUsers, u) == i;
    ReservedDisjointIffFit(snap);
    forall v ensures Seeded(snap, r.processed, v) == Seeded(snap, l.processed, v) {}
    forall v ensures Withdrawn(snap, r.processed, v) == (v == u || Withdrawn(snap, l.processed, v)) {}
  }

  lemma SeedProgress(snap: Snapshot, l: Ledger, r: Ledger, i: nat)
    requires WellFormed(snap) && KeysFit(snap) && Progress(snap, l) && i < |snap.seedUsers|
    requires AllWithdrawn(snap, l.processed)
    requires SeedKey(snap, i) !in l.processed && r.processed == l.processed + {SeedKey(snap, i)}
    requires r.minAmount == l.minAmount
    requires var u := snap.seedUsers[i]; var amount := Get(snap.targets, u);
      && (forall v :: v != u ==> r.Stake(v) == l.Stake(v))
      && r.Stake(u) == if Ignored(l.minAmount, amount) then l.Stake(u) else Moved(Deposit, l.Stake(u), amount)
    ensures Progress(snap, r)
  {
    var u := snap.seedUsers[i];
    assert IndexOf(snap.seedUsers, u) == i;
    ReservedDisjointIffFit(snap);
    forall v ensures Withdrawn(snap, r.processed, v) == Withdrawn(snap, l.processed, v) {}
    forall v ensures Seeded(snap, r.processed, v) == (v == u || Seeded(snap, l.processed, v)) {}
  }

  lemma SameStakes(snap: Snapshot, l: Ledger, r: Ledger)
    requires Progress(snap, l) && r.stake == l.stake && r.processed == l.processed && r.minAmount == l.minAmount
    ensures Progress(snap, r)
  {
    assert forall v :: r.Stake(v) == l.Stake(v);
  }

  /** Setting any rate at any time only lets the index grow. */
  lemma RateBooks(start: Ledger, l: Ledger, paid: map<Addr, nat>, rate: nat, now: nat)
    requires Books(start, l, paid)
    ensures var r := Accrue(l, now).(emissionRate := rate);
      && r == l.(acc := r.acc, lastUpdate := r.lastUpdate, emissionRate := rate)
      && Books(start, r, paid)
  {
    hide Accrue;
    AccrueGrows(l, now);
    var r := Accrue(l, now).(emissionRate := rate);
    forall u ensures EarnedGrows(start, r, paid, u) {
      assert EarnedGrows(l, Accrue(l, now), map[], u) && EarnedGrows(start, l, paid, u);
      assert r.Earned(u) == Accrue(l, now).Earned(u);
    }
  }

  lemma RateAsideBooks(start: Ledger, l: Ledger, paid: map<Addr, nat>, rate: nat)
    requires Books(start, l, paid)
    ensures Books(start, l.(emissionRate := rate), paid)
  {
    forall u ensures EarnedGrows(start, l.(emissionRate := rate), paid, u) {
      assert EarnedGrows(start, l, paid, u) && l.(emissionRate := rate).Earned(u) == l.Earned(u);
    }
  }

  lemma RerouteBooks(start: Ledger, l: Ledger, paid: map<Addr, nat>, routes: seq<Route>)
    requires Books(start, l, paid)
    ensures Books(start, l.(routes := routes), paid)
  {
    forall u ensures EarnedGrows(start, l.(routes := routes), paid, u) {
      assert EarnedGrows(start, l, paid, u) && l.(routes := routes).Earned(u) == l.Earned(u);
    }
  }

  /** A withdrawal that adds to the stake it should take away. */
  predicate Doubles(snap: Snapshot, l: Ledger, a: Action) {
    && a in WithdrawActions(snap) && a.key !in l.processed
    && RouteOf(l.routes, "Withdraw") == Some(Deposit) && !Ignored(l.minAmount, a.amount)
  }

  /** A withdrawal keeps every stake in step with the keys, unless its event is routed as a deposit. */
  lemma WithdrawKeeps(snap: Snapshot, l: Ledger, i: nat, now: nat)
    requires WellFormed(snap) && KeysFit(snap) && Progress(snap, l) && Books(l, l, map[]) && i < |snap.withdrawUsers|
    ensures var a := WithdrawActions(snap)[i]; var r := Apply(l, a, now);
      r.Some? ==> Advances(l, r.value, a.key) && (Progress(snap, r.value) <==> !Doubles(snap, l, a))
  {
    var a := WithdrawActions(snap)[i];
    var r := Apply(l, a, now);
    if a.key in l.processed {
      Repeat(snap, l, a, now);
    } else if r.Some? {
      assert a in WithdrawActions(snap);
      if Ignored(l.minAmount, a.amount) {
        IgnoredMarks(l, a, now);
        WithdrawProgress(snap, l, r.value, i);
      } else {
        FirstUse(l, a, now);
        if RouteOf(l.routes, "Withdraw") == Some(Withdraw) {
          WithdrawProgress(snap, l, r.value, i);
        } else {
          DoubledStake(snap, l, r.value, i);
        }
      }
    }
  }

  lemma IgnoredMarks(l: Ledger, a: Action, now: nat)
    requires Books(l, l, map[]) && a.key !in l.processed && Ignored(l.minAmount, a.amount) && Apply(l, a, now).Some?
    ensures var r := l.(processed := l.processed + {a.key}); Apply(l, a, now) == Some(r) && Advances(l, r, a.key)
  {
    var r := l.(processed := l.processed + {a.key});
    assert Apply(l, a, now) == Some(r);
    assert forall u :: r.Earned(u) == l.Earned(u);
  }

  lemma DoubledStake(snap: Snapshot, l: Ledger, r: Ledger, i: nat)
    requires WellFormed(snap) && KeysFit(snap) && Progress(snap, l) && i < |snap.withdrawUsers|
    requires WithdrawKey(snap, i) !in l.processed && r.processed == l.processed + {WithdrawKey(snap, i)}
    requires r.minAmount == l.minAmount && !Ignored(l.minAmount, Get(snap.stakes, snap.withdrawUsers[i]))
    requires var u := snap.withdrawUsers[i]; r.Stake(u) == l.Stake(u) + Get(snap.stakes, u)
    ensures !Progress(snap, r)
  {
    var u := snap.withdrawUsers[i];
    assert IndexOf(snap.withdrawUsers, u) == i && u in snap.withdrawUsers;
    ReservedDisjointIffFit(snap);
    assert Seeded(snap, r.processed, u) == Seeded(snap, l.processed, u);
    assert Withdrawn(snap, r.processed, u) && !Withdrawn(snap, l.processed, u);
  }

  lemma SeedKeeps(snap: Snapshot, l: Ledger, i: nat, now: nat)
    requires WellFormed(snap) && KeysFit(snap) && Progress(snap, l) && Books(l, l, map[])
    requires i < |snap.seedUsers| && AllWithdrawn(snap, l.processed) && l.routes == ExpectedRoutes(snap.kind)
    ensures var a := SeedActions(snap)[i]; var r := Apply(l, a, now);
      r.Some? ==> Advances(l, r.value, a.key) && Progress(snap, r.value)
  {
    var a := SeedActions(snap)[i];
    var r := Apply(l, a, now);
    ExpectedRouteOf(snap.kind);
    if a.key in l.processed {
      Repeat(snap, l, a, now);
    } else if a.user != 0 {
      FirstUse(l, a, now);
      SeedProgress(snap, l, r.value, i);
    }
  }

  lemma ExpectedRouteOf(kind: VaultKind)
    ensures var r := ExpectedRoutes(kind);
      && RouteOf(r, "Deposit") == Some(Deposit) && RouteOf(r, "Withdraw") == Some(Withdraw)
      && RouteOf(r, "Transfer") == Some(Transfer)
      && (kind == Yield ==> RouteOf(r, "QueueProcessed") == Some(Withdraw))
      && (forall name :: RouteOf(r, name).Some? ==>
            name in ["Deposit", "Withdraw", "Transfer"] || (kind == Yield && name == "QueueProcessed"))
      && PositionRoutes(r)
  {
    var r := ExpectedRoutes(kind);
    var deposit, withdraw := Route("Deposit", Deposit), Route("Withdraw", Withdraw);
    forall name | RouteOf(r, name).Some?
      ensures name in ["Deposit", "Withdraw", "Transfer"] || (kind == Yield && name == "QueueProcessed")
    {
      RouteOfLast(r, name, RouteOf(r, name).value);
    }
    assert "Transfer"[0] == 'T' && "Withdraw"[0] == 'W' && "Deposit"[0] == 'D' && "QueueProcessed"[0] == 'Q';
    assert [deposit, withdraw][..1] == [deposit];
    assert RouteOf([deposit], "Deposit") == Some(Deposit);
    assert RouteOf([deposit, withdraw], "Deposit") == Some(Deposit);
    assert RouteOf([deposit, withdraw], "Withdraw") == Some(Withdraw);
    if kind == Yield {
      var queue := Route("QueueProcessed", Withdraw);
      assert r[..3] == [deposit, withdraw, queue] && [deposit, withdraw, queue][..2] == [deposit, withdraw];
    } else {
      assert r[..2] == [deposit, withdraw];
    }
  }

  datatype Phase = WithdrawPhase | MarkPhase | SeedPhase

  function Actions(snap: Snapshot, phase: Phase): Batch {
    match phase
    case WithdrawPhase => WithdrawActions(snap)
    case MarkPhase => MarkActions(snap)
    case SeedPhase => SeedActions(snap)
  }

  predicate IsPlanned(snap: Snapshot, a: Action) {
    a in WithdrawActions(snap) || a in MarkActions(snap) || a in SeedActions(snap)
  }

  lemma BooksSelf(start: Ledger, l: Ledger, paid: map<Addr, nat>)
    requires Books(start, l, paid)
    ensures Books(l, l, map[])
  {
  }

  /**
   * Any action of the plan keeps the invariant, seeds once every withdrawal and
   * the opt-in have landed, if and only if it is no withdrawal routed as a deposit.
   */
  lemma PlanKeeps(snap: Snapshot, start: Ledger, l: Ledger, paid: map<Addr, nat>, a: Action, now: nat)
    requires WellFormed(snap) && KeysFit(snap) && Starts(snap, start) && Inv(snap, start, l, paid)
    requires IsPlanned(snap, a) && Apply(l, a, now).Some?
    requires a in SeedActions(snap) ==> AllWithdrawn(snap, l.processed) && l.routes == ExpectedRoutes(snap.kind)
    ensures Inv(snap, start, Apply(l, a, now).value, paid) <==> !Doubles(snap, l, a)
    ensures Advances(l, Apply(l, a, now).value, a.key)
  {
    hide Books, Progress, Apply, WithdrawActions, SeedActions, MarkActions, ExpectedRoutes, Starts, WellFormed, KeysFit;
    var r := Apply(l, a, now).value;
    BooksSelf(start, l, paid);
    if a in WithdrawActions(snap) {
      var i :| 0 <= i < |WithdrawActions(snap)| && WithdrawActions(snap)[i] == a;
      PlannedCount(snap);
      WithdrawKeeps(snap, l, i, now);
    } else if a in MarkActions(snap) {
      MarkKeeps(snap, l, a, now);
    } else {
      var i :| 0 <= i < |SeedActions(snap)| && SeedActions(snap)[i] == a;
      PlannedCount(snap);
      SeedKeeps(snap, l, i, now);
    }
    BooksCarry(start, l, r, paid);
  }

  lemma PlannedCount(snap: Snapshot)
    ensures |WithdrawActions(snap)| == |snap.withdrawUsers| && |SeedActions(snap)| == |snap.seedUsers|
  {
  }

  /** An amount the contract ignores leaves a consumed key without its effect. */
  predicate AmountsCount(snap: Snapshot, minAmount: nat) {
    && (forall i :: 0 <= i < |snap.withdrawUsers| ==> !Ignored(minAmount, Get(snap.stakes, snap.withdrawUsers[i])))
    && (forall i :: 0 <= i < |snap.seedUsers| ==> !Ignored(minAmount, Get(snap.targets, snap.seedUsers[i])))
  }

  ghost predicate WithdrawalsCount(snap: Snapshot, minAmount: nat) {
    forall i :: 0 <= i < |snap.withdrawUsers| ==> !Ignored(minAmount, Get(snap.stakes, snap.withdrawUsers[i]))
  }

  lemma ResidualGone(snap: Snapshot, l: Ledger, u: Addr)
    requires WellFormed(snap) && AllWithdrawn(snap, l.processed) && WithdrawalsCount(snap, l.minAmount)
    ensures Residual(snap, l.processed, l.minAmount, u) == 0
  {
    if u in snap.withdrawUsers {
      var k := IndexOf(snap.withdrawUsers, u);
      assert !Ignored(l.minAmount, Get(snap.stakes, snap.withdrawUsers[k]));
    }
  }

  /** The stake a user must have, by the reserved keys consumed so far. */
  function StakeByKeys(snap: Snapshot, done: set<Key>, u: Addr): nat {
    if Seeded(snap, done, u) then Get(snap.targets, u)
    else if u in snap.withdrawUsers && !Withdrawn(snap, done, u) then Get(snap.stakes, u)
    else 0
  }

  ghost predicate StakesByKeys(snap: Snapshot, l: Ledger) {
    forall u :: l.Stake(u) == StakeByKeys(snap, l.processed, u)
  }

  lemma InvGivesStakesByKeys(snap: Snapshot, l: Ledger)
    requires WellFormed(snap) && Progress(snap, l) && AmountsCount(snap, l.minAmount)
    ensures StakesByKeys(snap, l)
  {
    forall u ensures l.Stake(u) == StakeByKeys(snap, l.processed, u) {
      if u in snap.withdrawUsers {
        var i := IndexOf(snap.withdrawUsers, u);
        assert !Ignored(l.minAmount, Get(snap.stakes, snap.withdrawUsers[i]));
      }
      if u in snap.seedUsers {
        var i := IndexOf(snap.seedUsers, u);
        assert !Ignored(l.minAmount, Get(snap.targets, snap.seedUsers[i]));
      }
    }
  }

  // ----- whole batches

  /** The contract takes the action: it is routed and names real users. */
  predicate Accepts(routes: seq<Route>, a: Action) {
    var kind := RouteOf(routes, a.eventName);
    if a.call == HandleAction then a.user != 0 && (kind == Some(Deposit) || kind == Some(Withdraw))
    else a.user != 0 && a.recipient != 0 && kind == Some(Transfer) && a.amount == 0
  }

  /** Users exist, and every historical event is one the vault kind can emit. */
  ghost predicate Deliverable(snap: Snapshot) {
    && snap.vault != 0
    && 0 !in snap.withdrawUsers && 0 !in snap.seedUsers
    && forall e :: e in snap.historical ==>
         match e
         case OwnerEvent(_, name, owner) =>
           && owner != Some(0)
           && (name == "Deposit" || name == "Withdraw" || (snap.kind == Yield && name == "QueueProcessed"))
         case ShareTransfer(_, sender, recipient) => sender != 0 && recipient != 0
  }

  lemma PlanAccepted(snap: Snapshot, a: Action)
    requires Deliverable(snap) && IsPlanned(snap, a)
    ensures Accepts(ExpectedRoutes(snap.kind), a)
  {
    ExpectedRouteOf(snap.kind);
  }

  /** Batches made only of planned, accepted actions, withdrawals that withdraw and seeds not before their turn. */
  ghost predicate Sendable(snap: Snapshot, l: Ledger, batch: Batch) {
    forall a :: a in batch ==>
      && IsPlanned(snap, a) && Accepts(l.routes, a)
      && (a in WithdrawActions(snap) ==> RouteOf(l.routes, "Withdraw") == Some(Withdraw))
      && (a in SeedActions(snap) ==> AllWithdrawn(snap, l.processed) && l.routes == ExpectedRoutes(snap.kind))
  }

  lemma AcceptedApplies(l: Ledger, a: Action, now: nat)
    requires Books(l, l, map[]) && Accepts(l.routes, a)
    ensures Apply(l, a, now).Some?
  {
    if a.call == HandleAction && a.key !in l.processed {
      FirstUse(l, a, now);
    }
  }

  lemma {:induction false} BatchKeeps(snap: Snapshot, start: Ledger, l: Ledger, paid: map<Addr, nat>, batch: Batch,
    now: nat)
    requires WellFormed(snap) && KeysFit(snap) && Starts(snap, start) && Inv(snap, start, l, paid)
    requires Sendable(snap, l, batch)
    ensures NoFailure(l, batch, now)
    ensures var r := ApplyBatch(l, batch, now);
      && Inv(snap, start, r, paid) && r.processed == l.processed + Keys(batch)
      && r.routes == l.routes && r.emissionRate == l.emissionRate
  {
    if batch != [] {
      var n := |batch| - 1;
      BatchKeeps(snap, start, l, paid, batch[..n], now);
      var before := ApplyBatch(l, batch[..n], now);
      assert batch[n] in batch;
      AcceptedApplies(before, batch[n], now);
      PlanKeeps(snap, start, before, paid, batch[n], now);
      KeysSnoc(batch);
    }
  }

  lemma KeysSnoc(batch: Batch)
    requires batch != []
    ensures Keys(batch) == Keys(batch[..|batch| - 1]) + {batch[|batch| - 1].key}
  {
    assert batch == batch[..|batch| - 1] + [batch[|batch| - 1]];
  }

  /** A resent batch finds its keys consumed and changes nothing. */
  lemma {:induction false} ResendIsIdle(l: Ledger, batch: Batch, now: nat)
    requires Keys(batch) <= l.processed
    ensures ApplyBatch(l, batch, now) == l
  {
    if batch != [] {
      ResendIsIdle(l, batch[..|batch| - 1], now);
      assert batch[|batch| - 1] in batch;
      KeysSnoc(batch);
    }
  }
}
