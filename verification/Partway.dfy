/**
 * A snapshot's plan part-way: its batches, what delivering them keeps whatever
 * the plan is worth, and what a workable plan adds.
 */
module Partway {
  import opened Batches
  import opened Options
  import opened Reconcile
  import opened Rewards
  import opened Sums

  function BatchesOf(snap: Snapshot, phase: Phase): seq<Batch>
    requires snap.batchSize > 0
  {
    Greedy(Actions(snap, phase), snap.batchSize)
  }

  /** What nothing checks before the first withdrawal: free seed keys, and withdrawals routed as such. */
  predicate Workable(snap: Snapshot, routes: seq<Route>) {
    KeysFit(snap) && WithdrawRouted(snap, routes)
  }

  /** Withdrawals that do not withdraw: no stake has fallen, so the opt-in is still to come. */
  ghost predicate Unlowered(start: Ledger, l: Ledger) {
    l.routes == start.routes && forall u :: start.Stake(u) <= l.Stake(u)
  }

  /** Any snapshot's plan part-way: the phases can count on no more. */
  ghost predicate Underway(snap: Snapshot, start: Ledger, l: Ledger) {
    && snap.batchSize > 0 && WellFormed(snap) && Deliverable(snap) && Starts(snap, start)
    && Books(start, l, map[]) && start.processed <= l.processed
    && (l.routes == start.routes || l.routes == ExpectedRoutes(snap.kind))
    && snap.batchSize <= l.maxBatchSize && l.emissionRate == 0
    && (Workable(snap, start.routes) ==> Progress(snap, l))
    && (WithdrawRouted(snap, start.routes) || Unlowered(start, l))
  }

  /** A workable plan part-way. */
  ghost predicate Sound(snap: Snapshot, start: Ledger, l: Ledger) {
    Underway(snap, start, l) && Workable(snap, start.routes)
  }

  /** Whether a plan is workable can be read off the live routes at any time. */
  lemma WorkableNow(snap: Snapshot, start: Ledger, l: Ledger)
    requires Underway(snap, start, l)
    ensures WithdrawRouted(snap, l.routes) <==> WithdrawRouted(snap, start.routes)
    ensures Workable(snap, l.routes) <==> Sound(snap, start, l)
  {
    ExpectedRouteOf(snap.kind);
  }

  // ----- whole batches

  ghost predicate WholeOrOpen(batch: Batch, done: set<Key>) {
    Keys(batch) <= done || Keys(batch) !! done
  }

  /** Every batch of the phase either landed as a whole or not at all. */
  ghost predicate Aligned(snap: Snapshot, phase: Phase, done: set<Key>)
    requires snap.batchSize > 0
  {
    forall n :: 0 <= n < |BatchesOf(snap, phase)| ==> WholeOrOpen(BatchesOf(snap, phase)[n], done)
  }

  /** What a phase has achieved once it reports a batch as complete. */
  ghost predicate BatchDone(snap: Snapshot, phase: Phase, batch: Batch, l: Ledger) {
    match phase
    case WithdrawPhase => forall a :: a in batch ==> l.Stake(a.user) == 0
    case MarkPhase => Keys(batch) <= l.processed
    case SeedPhase => Keys(batch) <= l.processed && forall a :: a in batch ==> l.Stake(a.user) == a.amount
  }

  /** From here every batch of the phase goes through. */
  ghost predicate CanFinish(snap: Snapshot, phase: Phase, l: Ledger)
    requires snap.batchSize > 0
  {
    && Workable(snap, l.routes)
    && match phase
       case WithdrawPhase => NoneSeeded(snap, l.processed) && WithdrawalsCount(snap, l.minAmount)
       case MarkPhase =>
         && NoneSeeded(snap, l.processed) && AllWithdrawn(snap, l.processed)
         && l.totalStake == 0 && l.routes == ExpectedRoutes(snap.kind) && Aligned(snap, phase, l.processed)
       case SeedPhase =>
         && AllWithdrawn(snap, l.processed) && Keys(MarkActions(snap)) <= l.processed
         && l.routes == ExpectedRoutes(snap.kind) && AmountsCount(snap, l.minAmount)
         && snap.seedUsers != [] && Aligned(snap, phase, l.processed)
  }

  ghost predicate KeyedApart(r: Batch) {
    forall p, q :: 0 <= p < q < |r| ==> r[p].key != r[q].key
  }

  lemma KeyedApartConcat(a: Batch, b: Batch)
    requires KeyedApart(a) && KeyedApart(b) && forall x, y :: x in a && y in b ==> x.key != y.key
    ensures KeyedApart(a + b)
  {
    forall p, q | 0 <= p < q < |a + b| ensures (a + b)[p].key != (a + b)[q].key {
      if p < |a| <= q {
        assert (a + b)[p] in a && (a + b)[q] in b;
      }
    }
  }

  /** Keys of different batches never meet. */
  lemma {:induction false} BatchKeysApart(batches: seq<Batch>, i: nat, j: nat)
    requires i < j < |batches|
    requires KeyedApart(Flatten(batches))
    ensures Keys(batches[i]) !! Keys(batches[j])
  {
    var n := |batches| - 1;
    var front := Flatten(batches[..n]);
    assert Flatten(batches) == front + batches[n];
    if j < n {
      assert forall p :: 0 <= p < |front| ==> front[p] == Flatten(batches)[p];
      BatchKeysApart(batches[..n], i, j);
    } else {
      forall a, b | a in batches[i] && b in batches[j] ensures a.key != b.key {
        assert batches[i] == batches[..n][i];
        FlattenMembers(batches[..n], a);
        var p :| 0 <= p < |front| && front[p] == a;
        var q :| 0 <= q < |batches[n]| && batches[n][q] == b;
        assert Flatten(batches)[p] == a && Flatten(batches)[|front| + q] == b;
      }
    }
  }

  lemma MarkersDistinct(snap: Snapshot, events: seq<VaultEvent>, transfers: bool)
    requires DistinctKeys(events)
    ensures KeyedApart(Markers(snap, events, transfers))
  {
    if events != [] {
      MarkersDistinct(snap, events[1..], transfers);
      var rest := Markers(snap, events[1..], transfers);
      forall a | a in rest ensures a.key != events[0].key {
        var e :| e in events[1..] && a == MarkerFor(snap, e);
        var i :| 0 <= i < |events[1..]| && events[1..][i] == e;
        assert events[i + 1] == e;
      }
    }
  }

  lemma ActionKeysDistinct(snap: Snapshot, phase: Phase)
    requires WellFormed(snap)
    ensures KeyedApart(Actions(snap, phase))
  {
    if phase == MarkPhase { MarkKeysDistinct(snap); }
  }

  lemma MarkKeysDistinct(snap: Snapshot)
    requires DistinctKeys(snap.historical)
    ensures KeyedApart(MarkActions(snap))
  {
    hide KeyedApart;
    MarkersDistinct(snap, snap.historical, false);
    MarkersDistinct(snap, snap.historical, true);
    var owners, transfers := Markers(snap, snap.historical, false), Markers(snap, snap.historical, true);
    forall a, b | a in owners && b in transfers ensures a.key != b.key {
      var e :| e in snap.historical && a == MarkerFor(snap, e);
      var f :| f in snap.historical && b == MarkerFor(snap, f);
      MarkersOf(snap, snap.historical, false);
      MarkersOf(snap, snap.historical, true);
      var i :| 0 <= i < |snap.historical| && snap.historical[i] == e;
      var j :| 0 <= j < |snap.historical| && snap.historical[j] == f;
      assert e.ShareTransfer? != f.ShareTransfer?;
    }
    KeyedApartConcat(owners, transfers);
  }

  /** Landing one whole batch keeps every phase aligned. */
  lemma LandingAligns(snap: Snapshot, phase: Phase, n: nat, done: set<Key>)
    requires WellFormed(snap) && Aligned(snap, phase, done) && n < |BatchesOf(snap, phase)|
    ensures Aligned(snap, phase, done + Keys(BatchesOf(snap, phase)[n]))
  {
    OthersApart(snap, phase, n);
  }

  lemma OthersApart(snap: Snapshot, phase: Phase, n: nat)
    requires WellFormed(snap) && n < |BatchesOf(snap, phase)|
    ensures forall m :: 0 <= m < |BatchesOf(snap, phase)| && m != n ==>
      Keys(BatchesOf(snap, phase)[m]) !! Keys(BatchesOf(snap, phase)[n])
  {
    var batches := BatchesOf(snap, phase);
    GreedySplits(Actions(snap, phase), snap.batchSize);
    ActionKeysDistinct(snap, phase);
    forall m | 0 <= m < |batches| && m != n ensures Keys(batches[m]) !! Keys(batches[n]) {
      BatchKeysApart(batches, if m < n then m else n, if m < n then n else m);
    }
  }

  lemma BatchMembers(snap: Snapshot, phase: Phase, n: nat)
    requires snap.batchSize > 0 && n < |BatchesOf(snap, phase)|
    ensures Postable(BatchesOf(snap, phase)[n], snap.batchSize)
    ensures forall a :: a in BatchesOf(snap, phase)[n] ==> a in Actions(snap, phase)
    ensures Keys(BatchesOf(snap, phase)[n]) <= Keys(Actions(snap, phase))
  {
    GreedySplits(Actions(snap, phase), snap.batchSize);
    forall a | a in BatchesOf(snap, phase)[n] ensures a in Actions(snap, phase) {
      FlattenMembers(BatchesOf(snap, phase), a);
    }
  }

  lemma WithdrawKeysListed(snap: Snapshot, done: set<Key>)
    ensures AllWithdrawn(snap, done) <==> Keys(WithdrawActions(snap)) <= done
  {
    forall i | 0 <= i < |snap.withdrawUsers| ensures WithdrawKey(snap, i) in Keys(WithdrawActions(snap)) {
      assert WithdrawActions(snap)[i] in WithdrawActions(snap);
    }
  }

  // ----- what any action does, of whatever plan

  /** Moves stake only by an amount: all that is planned is of this kind. */
  predicate Plain(a: Action) { a.call == HandleAction || a.amount == 0 }

  lemma ActionAdvances(l: Ledger, a: Action, now: nat)
    requires Books(l, l, map[]) && Plain(a) && Apply(l, a, now).Some?
    ensures var r := Apply(l, a, now).value;
      && Advances(l, r, a.key)
      && (forall v :: v != a.user ==> r.Stake(v) == l.Stake(v))
      && (a.amount == 0 || a.key in l.processed ==> r.Stake(a.user) == l.Stake(a.user))
      && (RouteOf(l.routes, a.eventName) == Some(Withdraw) ==> r.Stake(a.user) <= l.Stake(a.user))
      && (RouteOf(l.routes, a.eventName) != Some(Withdraw) ==> l.Stake(a.user) <= r.Stake(a.user))
  {
    var r := Apply(l, a, now).value;
    if a.key in l.processed {
      assert l.processed == l.processed + {a.key};
    } else if Ignored(l.minAmount, a.amount) {
      IgnoredMarks(l, a, now);
      assert forall v :: r.Stake(v) == l.Stake(v);
    } else {
      FirstUse(l, a, now);
    }
  }

  lemma {:induction false} BatchAdvances(l: Ledger, batch: Batch, now: nat)
    requires Books(l, l, map[]) && forall a :: a in batch ==> Plain(a)
    ensures var r := ApplyBatch(l, batch, now);
      && Books(l, r, map[]) && Books(r, r, map[]) && r.routes == l.routes && r.emissionRate == l.emissionRate
      && l.processed <= r.processed <= l.processed + Keys(batch)
      && (NoFailure(l, batch, now) ==> r.processed == l.processed + Keys(batch))
  {
    hide Books, Apply, Keys;
    if batch != [] {
      var n := |batch| - 1;
      BatchAdvances(l, batch[..n], now);
      KeysSnoc(batch);
      assert batch[n] in batch;
      var before := ApplyBatch(l, batch[..n], now);
      if Apply(before, batch[n], now).Some? {
        ActionAdvances(before, batch[n], now);
        var r := Apply(before, batch[n], now).value;
        BooksCarry(l, before, r, map[]);
        BooksSelf(before, r, map[]);
      }
    } else {
      assert Keys(batch) == {} by { NoKeys(batch); }
    }
  }

  lemma NoKeys(batch: Batch)
    ensures batch == [] ==> Keys(batch) == {}
  {
  }

  /** One user's stake over a batch: idle if none of its actions is live, otherwise moved as they are routed. */
  lemma {:induction false} BatchShifts(l: Ledger, batch: Batch, now: nat, u: Addr)
    requires Books(l, l, map[]) && forall a :: a in batch ==> Plain(a)
    ensures var r := ApplyBatch(l, batch, now);
      && ((forall a :: a in batch && a.user == u ==> a.amount == 0 || a.key in l.processed) ==>
            r.Stake(u) == l.Stake(u))
      && ((forall a :: a in batch ==> RouteOf(l.routes, a.eventName) == Some(Withdraw)) ==> r.Stake(u) <= l.Stake(u))
      && ((forall a :: a in batch ==> RouteOf(l.routes, a.eventName) != Some(Withdraw)) ==> l.Stake(u) <= r.Stake(u))
  {
    hide Books, Apply, Keys;
    if batch != [] {
      var n := |batch| - 1;
      BatchAdvances(l, batch[..n], now);
      BatchShifts(l, batch[..n], now, u);
      assert batch[n] in batch;
      var before := ApplyBatch(l, batch[..n], now);
      if Apply(before, batch[n], now).Some? {
        ActionAdvances(before, batch[n], now);
      }
    }
  }

  lemma {:induction false} AcceptedLands(l: Ledger, batch: Batch, now: nat)
    requires Books(l, l, map[]) && forall a :: a in batch ==> Plain(a) && Accepts(l.routes, a)
    ensures NoFailure(l, batch, now)
  {
    hide Books, Apply, Keys, Accepts;
    if batch != [] {
      var n := |batch| - 1;
      AcceptedLands(l, batch[..n], now);
      BatchAdvances(l, batch[..n], now);
      assert batch[n] in batch;
      AcceptedApplies(ApplyBatch(l, batch[..n], now), batch[n], now);
    }
  }

  // ----- one batch of one phase

  /** How a phase may move stakes: down or not at all, not at all, and only those still to be seeded. */
  ghost predicate Shifts(snap: Snapshot, phase: Phase, l: Ledger, r: Ledger) {
    match phase
    case WithdrawPhase =>
      if RouteOf(l.routes, "Withdraw") == Some(Withdraw) then forall u :: r.Stake(u) <= l.Stake(u)
      else forall u :: l.Stake(u) <= r.Stake(u)
    case MarkPhase => forall u :: r.Stake(u) == l.Stake(u)
    case SeedPhase => forall a :: a in SeedActions(snap) && a.key in l.processed ==> r.Stake(a.user) == l.Stake(a.user)
  }

  /** A phase only ever consumes its own keys, and idles once they are all consumed. */
  ghost predicate Kept(snap: Snapshot, start: Ledger, phase: Phase, l: Ledger, r: Ledger) {
    && Underway(snap, start, r)
    && l.processed <= r.processed <= l.processed + Keys(Actions(snap, phase))
    && r.routes == l.routes
    && (Keys(Actions(snap, phase)) <= l.processed ==> r.stake == l.stake)
    && Shifts(snap, phase, l, r)
  }

  /** Only batch `n` was touched, and as a whole if the plan is workable. */
  ghost predicate Landed(snap: Snapshot, phase: Phase, n: nat, l: Ledger, r: Ledger)
    requires snap.batchSize > 0
  {
    || r.processed == l.processed
    || (1 <= n <= |BatchesOf(snap, phase)|
        && var keys := Keys(BatchesOf(snap, phase)[n - 1]);
           l.processed <= r.processed <= l.processed + keys
           && (Workable(snap, l.routes) ==> r.processed == l.processed + keys))
  }

  lemma KeptTransitive(snap: Snapshot, start: Ledger, phase: Phase, l: Ledger, m: Ledger, r: Ledger)
    requires Kept(snap, start, phase, l, m) && Kept(snap, start, phase, m, r)
    ensures Kept(snap, start, phase, l, r)
  {
  }

  /** Before the opt-in every action route stays a withdrawal route, after it the expected ones. */
  lemma PhaseSendable(snap: Snapshot, start: Ledger, l: Ledger, phase: Phase, n: nat)
    requires Sound(snap, start, l) && n < |BatchesOf(snap, phase)|
    requires phase != WithdrawPhase ==> l.routes == ExpectedRoutes(snap.kind)
    requires phase == SeedPhase ==> AllWithdrawn(snap, l.processed)
    ensures Sendable(snap, l, BatchesOf(snap, phase)[n])
  {
    BatchMembers(snap, phase, n);
    ExpectedRouteOf(snap.kind);
    forall a | a in BatchesOf(snap, phase)[n]
      ensures IsPlanned(snap, a) && Accepts(l.routes, a) && (a in SeedActions(snap) ==> phase == SeedPhase)
    {
      if phase == WithdrawPhase {
        assert "Withdraw"[0] != "Deposit"[0];
      } else {
        PlanAccepted(snap, a);
        if phase == MarkPhase {
          MarkerKeyApart(snap, a);
        }
      }
    }
  }

  lemma PlannedPlain(snap: Snapshot, phase: Phase, n: nat)
    requires WellFormed(snap) && n < |BatchesOf(snap, phase)|
    ensures forall a :: a in BatchesOf(snap, phase)[n] ==> Plain(a)
    ensures phase == MarkPhase ==> forall a :: a in BatchesOf(snap, phase)[n] ==> a.amount == 0
    ensures phase == WithdrawPhase ==> forall a :: a in BatchesOf(snap, phase)[n] ==> a.eventName == "Withdraw"
  {
    BatchMembers(snap, phase, n);
    if phase == MarkPhase {
      forall a | a in BatchesOf(snap, phase)[n] ensures a.amount == 0 { MarkerKeyApart(snap, a); }
    }
  }

  lemma BatchMoves(snap: Snapshot, start: Ledger, l: Ledger, phase: Phase, n: nat, now: nat)
    requires WellFormed(snap) && Books(l, l, map[]) && n < |BatchesOf(snap, phase)|
    ensures Shifts(snap, phase, l, ApplyBatch(l, BatchesOf(snap, phase)[n], now))
  {
    hide Books, Keys, ApplyBatch, BatchesOf;
    var batch := BatchesOf(snap, phase)[n];
    var r := ApplyBatch(l, batch, now);
    PlannedPlain(snap, phase, n);
    match phase
    case WithdrawPhase =>
      forall u
        ensures RouteOf(l.routes, "Withdraw") == Some(Withdraw) ==> r.Stake(u) <= l.Stake(u)
        ensures RouteOf(l.routes, "Withdraw") != Some(Withdraw) ==> l.Stake(u) <= r.Stake(u)
      {
        BatchShifts(l, batch, now, u);
      }
    case MarkPhase =>
      forall u ensures r.Stake(u) == l.Stake(u) { BatchShifts(l, batch, now, u); }
    case SeedPhase =>
      BatchMembers(snap, phase, n);
      forall a | a in SeedActions(snap) && a.key in l.processed ensures r.Stake(a.user) == l.Stake(a.user) {
        forall b | b in batch && b.user == a.user ensures b == a { SeedUsersApart(snap, a, b); }
        BatchShifts(l, batch, now, a.user);
      }
  }

  lemma SeedUsersApart(snap: Snapshot, a: Action, b: Action)
    requires WellFormed(snap) && a in SeedActions(snap) && b in SeedActions(snap) && a.user == b.user
    ensures a == b
  {
    var i :| 0 <= i < |SeedActions(snap)| && SeedActions(snap)[i] == a;
    var j :| 0 <= j < |SeedActions(snap)| && SeedActions(snap)[j] == b;
    assert snap.seedUsers[i] == snap.seedUsers[j];
  }

  /** Delivering a batch, of whatever plan, keeps what the phases count on. */
  lemma BatchKept(snap: Snapshot, start: Ledger, l: Ledger, phase: Phase, n: nat, now: nat)
    requires Underway(snap, start, l) && n < |BatchesOf(snap, phase)|
    requires phase != WithdrawPhase ==> l.routes == ExpectedRoutes(snap.kind)
    requires phase == SeedPhase ==> AllWithdrawn(snap, l.processed)
    ensures var batch := BatchesOf(snap, phase)[n]; var r := ApplyBatch(l, batch, now);
      && Kept(snap, start, phase, l, r) && r.processed <= l.processed + Keys(batch)
      && (NoFailure(l, batch, now) ==> r.processed == l.processed + Keys(batch))
  {
    hide Deliverable, Starts, Books, Progress, ExpectedRoutes, ApplyBatch, NoFailure, Keys, BatchesOf, Shifts;
    hide WithdrawActions, SeedActions, MarkActions;
    var batch := BatchesOf(snap, phase)[n];
    var r := ApplyBatch(l, batch, now);
    BooksSelf(start, l, map[]);
    PlannedPlain(snap, phase, n);
    BatchMembers(snap, phase, n);
    BatchAdvances(l, batch, now);
    BooksCarry(start, l, r, map[]);
    BatchMoves(snap, start, l, phase, n, now);
    if Keys(batch) <= l.processed { ResendIsIdle(l, batch, now); }
    if Sound(snap, start, l) {
      PhaseSendable(snap, start, l, phase, n);
      BatchKeeps(snap, start, l, map[], batch, now);
    }
    if !WithdrawRouted(snap, start.routes) { NeverLowered(snap, start, l, phase, r); }
    SameLimits(start, l, r);
  }

  lemma SameLimits(start: Ledger, l: Ledger, r: Ledger)
    requires Books(start, l, map[]) && Books(start, r, map[])
    ensures r.maxBatchSize == l.maxBatchSize && r.minAmount == l.minAmount
  {
  }

  lemma NeverLowered(snap: Snapshot, start: Ledger, l: Ledger, phase: Phase, r: Ledger)
    requires Underway(snap, start, l) && !WithdrawRouted(snap, start.routes)
    requires phase != WithdrawPhase ==> l.routes == ExpectedRoutes(snap.kind)
    requires Shifts(snap, phase, l, r) && r.routes == l.routes
    ensures Unlowered(start, r)
  {
    ExpectedRouteOf(snap.kind);
    assert phase == WithdrawPhase && RouteOf(l.routes, "Withdraw") != Some(Withdraw);
  }

  /** An accepted batch has no failure: any after the opt-in, and withdrawals that are routed as such. */
  lemma BatchLands(snap: Snapshot, start: Ledger, l: Ledger, phase: Phase, n: nat, now: nat)
    requires Underway(snap, start, l) && n < |BatchesOf(snap, phase)|
    requires if phase == WithdrawPhase then WithdrawRouted(snap, l.routes) else l.routes == ExpectedRoutes(snap.kind)
    ensures NoFailure(l, BatchesOf(snap, phase)[n], now)
  {
    hide Books, ApplyBatch, NoFailure, Keys, BatchesOf, MarkActions, Starts, Unlowered;
    var batch := BatchesOf(snap, phase)[n];
    BooksSelf(start, l, map[]);
    PlannedPlain(snap, phase, n);
    BatchMembers(snap, phase, n);
    forall a | a in batch ensures Accepts(l.routes, a) {
      if phase == WithdrawPhase {
        var i :| 0 <= i < |WithdrawActions(snap)| && WithdrawActions(snap)[i] == a;
      } else {
        PlanAccepted(snap, a);
      }
    }
    AcceptedLands(l, batch, now);
  }

  // ----- what a phase leaves as it was

  /** Nothing but seeding seeds. */
  lemma StaysUnseeded(snap: Snapshot, start: Ledger, phase: Phase, l: Ledger, r: Ledger)
    requires WellFormed(snap) && KeysFit(snap) && Kept(snap, start, phase, l, r) && phase != SeedPhase
    ensures NoneSeeded(snap, r.processed) <==> NoneSeeded(snap, l.processed)
  {
    ReservedDisjointIffFit(snap);
    forall i | 0 <= i < |snap.seedUsers| ensures SeedKey(snap, i) !in Keys(Actions(snap, phase)) {
      if phase == MarkPhase {
        forall a | a in MarkActions(snap) ensures a.key != SeedKey(snap, i) {
          MarkerKeyApart(snap, a);
        }
      }
    }
  }

  lemma MarksKeepTotal(snap: Snapshot, start: Ledger, l: Ledger, r: Ledger)
    requires Underway(snap, start, l) && Kept(snap, start, MarkPhase, l, r)
    ensures r.totalStake == 0 <==> l.totalStake == 0
  {
    TotalZeroIff(l);
    TotalZeroIff(r);
  }

  /** A user to be withdrawn is at zero only if withdrawals withdraw. */
  lemma ZeroMeansRouted(snap: Snapshot, start: Ledger, l: Ledger, u: Addr)
    requires Underway(snap, start, l) && u in snap.withdrawUsers && l.Stake(u) == 0
    ensures RouteOf(l.routes, "Withdraw") == Some(Withdraw)
  {
    WorkableNow(snap, start, l);
    assert start.Stake(u) == Get(snap.stakes, u) > 0;
  }

  /** A batch once complete stays complete. */
  lemma DoneStays(snap: Snapshot, start: Ledger, phase: Phase, batch: Batch, l: Ledger, r: Ledger)
    requires Underway(snap, start, l) && Kept(snap, start, phase, l, r) && BatchDone(snap, phase, batch, l)
    requires forall a :: a in batch ==> a in Actions(snap, phase)
    ensures BatchDone(snap, phase, batch, r)
  {
    match phase
    case WithdrawPhase =>
      forall a | a in batch ensures r.Stake(a.user) == 0 {
        var i :| 0 <= i < |snap.withdrawUsers| && WithdrawActions(snap)[i] == a;
        ZeroMeansRouted(snap, start, l, a.user);
      }
    case MarkPhase =>
    case SeedPhase =>
      forall a | a in batch ensures a.key in l.processed {}
  }

  /** The phase can still finish after one of its batches landed. */
  lemma CanFinishStays(snap: Snapshot, start: Ledger, phase: Phase, n: nat, l: Ledger, r: Ledger)
    requires Underway(snap, start, l) && Kept(snap, start, phase, l, r) && Landed(snap, phase, n, l, r)
    requires CanFinish(snap, phase, l)
    ensures CanFinish(snap, phase, r)
  {
    hide Starts, Deliverable, Greedy, ExpectedRoutes, WithdrawActions, MarkActions, SeedActions;
    hide AmountsCount, WithdrawalsCount, BatchesOf, Aligned, Progress, Shifts;
    if r.processed != l.processed && phase != WithdrawPhase {
      LandingAligns(snap, phase, n - 1, l.processed);
    }
    if phase != SeedPhase {
      StaysUnseeded(snap, start, phase, l, r);
    }
    if phase == MarkPhase {
      MarksKeepTotal(snap, start, l, r);
    }
  }
}
