/** The run command: freeze to unfreeze, killed and restarted at will. */
module OperatorRun {
  import opened Batches
  import opened Operator
  import opened Options
  import opened Partway
  import opened Reconcile
  import opened Rewards
  import opened Sums
  import opened Targets

  /** What the script reads off the vault and its event log, and which block it takes for the last. */
  datatype World = World(v: Vault, log: seq<Logged>, tip: nat, maxIndexAtTip: int)

  /** The chain and the operator's machine; shares and the event log stand still while the vault is paused. */
  class Host {
    const c: Contract
    const batchSize: nat
    const indexBase: nat
    var world: World
    var paused: bool
    var file: Option<Snapshot>
    ghost var start: Ledger

    constructor (c: Contract, world: World, batchSize: nat, indexBase: nat, paused: bool)
      ensures this.c == c && this.world == world && this.batchSize == batchSize && this.indexBase == indexBase
      ensures this.paused == paused && file == None
    {
      this.c, this.world, this.batchSize, this.indexBase, this.paused := c, world, batchSize, indexBase, paused;
      file := None;
    }

    function Plan(w: World, l: Ledger, restoreRate: nat): Snapshot {
      SnapshotOf(l, w.v, w.log, w.tip, indexBase, batchSize, restoreRate)
    }

    /** What the chain and the indexer guarantee whatever the script does. */
    ghost predicate Observed(w: World, l: Ledger) {
      && VaultSound(w.v) && LogSound(w.v, w.log) && batchSize > 0 && LedgerSound(l)
      && forall row :: row in w.log && row.event.key.blockNumber == w.tip ==>
           row.event.key.eventIndex <= w.maxIndexAtTip
    }

    /** What holds before a snapshot exists, and what the file on disk stands for once it does, at any emission rate. */
    ghost predicate Grounded()
      reads this, c
    {
      match file
      case None => Observed(world, c.View())
      case Some(snap) =>
        && Underway(snap, start, c.View().(emissionRate := 0)) && Fresh(snap, world.v)
        && snap.kind == world.v.kind && snap.historical == Unprocessed(world.v, world.log, start.processed)
    }

    /** The checks of the snapshot phase beyond the freeze. */
    ghost predicate Passes(w: World, l: Ledger) {
      && c.source == w.v.self && c.isPosition
      && w.v.SumsAgree() && Sum(w.v.Targets()) == w.v.totalSupply - w.v.NonPositionSupply()
      && w.maxIndexAtTip < indexBase
      && l.processed !! (Keys(WithdrawActions(Plan(w, l, 0))) + Keys(SeedActions(Plan(w, l, 0))))
    }

    /** The accounting checks: stakes, share balances, queue, targets. */
    method CheckSums() returns (ok: bool)
      requires c.totalStake == Sum(c.stake)
      ensures ok <==>
        world.v.SumsAgree() && Sum(world.v.Targets()) == world.v.totalSupply - world.v.NonPositionSupply()
    {
      var v := world.v;
      var sumStakes := Total(c.stake);
      if sumStakes != c.totalStake { return false; }
      var sumBalances := Total(v.balances);
      if sumBalances != v.totalSupply { return false; }
      if v.kind == Yield {
        var sumQueued := Total(v.queued);
        if Get(v.balances, v.self) != v.totalQueuedShares || sumQueued != v.totalQueuedShares { return false; }
      } else if v.queued != map[] {
        return false;
      }
      var targets := ComputeTargets(v);
      ok := SupplyExplained(targets, v);
    }

    lemma PlanStarts(w: World, l: Ledger, restoreRate: nat)
      requires Observed(w, l) && Passes(w, l) && l.emissionRate == 0
      ensures var snap := Plan(w, l, restoreRate);
        && Underway(snap, l, l)
        && Fresh(snap, w.v) && snap.kind == w.v.kind && snap.historical == Unprocessed(w.v, w.log, l.processed)
    {
      var snap := Plan(w, l, restoreRate);
      PlanButRate(w, l, restoreRate);
      SnapshotWellFormed(l, w.v, w.log, w.tip, indexBase, batchSize, restoreRate);
      SnapshotStarts(snap, l);
      SnapshotDeliverable(l, w.v, w.log, w.tip, indexBase, batchSize, restoreRate);
    }

    lemma PlanButRate(w: World, l: Ledger, restoreRate: nat)
      ensures Plan(w, l, restoreRate) == Plan(w, l, 0).(restoreRate := restoreRate)
      ensures WithdrawActions(Plan(w, l, restoreRate)) == WithdrawActions(Plan(w, l, 0))
      ensures SeedActions(Plan(w, l, restoreRate)) == SeedActions(Plan(w, l, 0))
    {
      hide Positive, Unprocessed, WithdrawActions, SeedActions;
      RateAside(Plan(w, l, 0), restoreRate);
    }

    /** The snapshot is taken whether or not its plan is workable; it then records where the ledger starts. */
    method PhaseSnapshot(restoreRate: nat, fuel: Fuel) returns (out: Outcome, left: Fuel)
      requires Observed(world, c.View()) && file.None?
      modifies this`file, this`start
      ensures out.Done? <==> file.Some?
      ensures out.Died? <==> !(paused && c.emissionRate == 0 && Passes(world, c.View()))
      ensures out.Killed? <==> !out.Died? && fuel == Some(0)
      ensures left.Some? ==> fuel.Some?
      ensures out.Done? ==> file == Some(Plan(world, c.View(), restoreRate)) && start == c.View()
      ensures out.Done? ==> file.value.restoreRate == restoreRate
      ensures Grounded()
    {
      hide VaultSound, LogSound, SnapshotOf, Underway, Fresh, Unprocessed;
      left := fuel;
      if c.source != world.v.self || !c.isPosition { return Died, left; }
      if !paused || c.emissionRate != 0 { return Died, left; }
      var sums := CheckSums();
      if !sums || world.maxIndexAtTip >= indexBase { return Died, left; }
      var snap := Plan(world, c.View(), restoreRate);
      PlanButRate(world, c.View(), restoreRate);
      if !(c.processed !! (Keys(WithdrawActions(snap)) + Keys(SeedActions(snap)))) { return Died, left; }
      PlanStarts(world, c.View(), restoreRate);
      if fuel == Some(0) { return Killed, left; }
      if fuel.Some? { left := Some(fuel.value - 1); }
      assert c.View().(emissionRate := 0) == c.View();
      file := Some(snap);
      start := c.View();
      out := Done(0);
    }
  }

  /** The end the reconciliation is for. */
  ghost predicate Goal(snap: Snapshot, l: Ledger) {
    && (forall u :: l.Stake(u) == Get(snap.targets, u))
    && PlanKeys(snap) <= l.processed
    && l.routes == ExpectedRoutes(snap.kind)
  }

  /** A plan with something to seed and no amount the contract would ignore. */
  ghost predicate Feasible(snap: Snapshot, minAmount: nat) {
    snap.seedUsers != [] && AmountsCount(snap, minAmount)
  }

  /** Where a stopped run can be taken up again: by `run` before the first seed, by the seed phase after it. */
  ghost predicate BeforeSeeding(snap: Snapshot, l: Ledger)
    requires snap.batchSize > 0
  {
    NoneSeeded(snap, l.processed) && Aligned(snap, MarkPhase, l.processed)
  }

  lemma InSomeBatch(snap: Snapshot, phase: Phase, a: Action)
    requires snap.batchSize > 0 && a in Actions(snap, phase)
    ensures exists n :: 0 <= n < |BatchesOf(snap, phase)| && a in BatchesOf(snap, phase)[n]
  {
    GreedySplits(Actions(snap, phase), snap.batchSize);
    FlattenMembers(BatchesOf(snap, phase), a);
  }

  ghost predicate AllDone(snap: Snapshot, phase: Phase, l: Ledger)
    requires snap.batchSize > 0
  {
    forall m :: 0 <= m < |BatchesOf(snap, phase)| ==> BatchDone(snap, phase, BatchesOf(snap, phase)[m], l)
  }

  /** Zero stakes for every withdrawn user mean every withdrawal landed and counted. */
  lemma WithdrawalsLanded(snap: Snapshot, start: Ledger, l: Ledger)
    requires Sound(snap, start, l) && AllDone(snap, WithdrawPhase, l)
    ensures AllWithdrawn(snap, l.processed) && WithdrawalsCount(snap, l.minAmount)
    ensures forall i :: 0 <= i < |snap.withdrawUsers| ==> l.Stake(snap.withdrawUsers[i]) == 0
  {
    forall i | 0 <= i < |snap.withdrawUsers|
      ensures WithdrawKey(snap, i) in l.processed && !Ignored(l.minAmount, Get(snap.stakes, snap.withdrawUsers[i]))
      ensures l.Stake(snap.withdrawUsers[i]) == 0
    {
      var u := snap.withdrawUsers[i];
      assert IndexOf(snap.withdrawUsers, u) == i && u in snap.withdrawUsers;
      InSomeBatch(snap, WithdrawPhase, WithdrawActions(snap)[i]);
      assert l.Stake(u) == Residual(snap, l.processed, l.minAmount, u) + Regained(snap, l.processed, l.minAmount, u);
    }
  }

  /** Every withdrawal done, in a plan that has any, shows withdrawals to withdraw. */
  lemma DoneMeansRouted(snap: Snapshot, start: Ledger, l: Ledger)
    requires Underway(snap, start, l) && AllDone(snap, WithdrawPhase, l)
    ensures WithdrawRouted(snap, l.routes)
  {
    if snap.withdrawUsers != [] {
      InSomeBatch(snap, WithdrawPhase, WithdrawActions(snap)[0]);
      ZeroMeansRouted(snap, start, l, snap.withdrawUsers[0]);
    }
  }

  lemma NothingStaked(snap: Snapshot, start: Ledger, l: Ledger)
    requires Sound(snap, start, l) && AllDone(snap, WithdrawPhase, l) && NoneSeeded(snap, l.processed)
    ensures l.totalStake == 0
  {
    WithdrawalsLanded(snap, start, l);
    forall u ensures l.Stake(u) == 0 {
      if u in snap.withdrawUsers {
        assert snap.withdrawUsers[IndexOf(snap.withdrawUsers, u)] == u;
      } else {
        UnseededStake(snap, l, u);
      }
    }
    TotalZeroIff(l);
  }

  lemma KeysLanded(snap: Snapshot, phase: Phase, l: Ledger)
    requires snap.batchSize > 0 && phase != WithdrawPhase && AllDone(snap, phase, l)
    ensures Keys(Actions(snap, phase)) <= l.processed
  {
    forall a | a in Actions(snap, phase) ensures a.key in l.processed {
      InSomeBatch(snap, phase, a);
      var n :| 0 <= n < |BatchesOf(snap, phase)| && a in BatchesOf(snap, phase)[n];
      assert BatchDone(snap, phase, BatchesOf(snap, phase)[n], l);
    }
  }

  /** Withdrawing never touches a marker key. */
  lemma MarksStayAligned(snap: Snapshot, start: Ledger, l: Ledger, r: Ledger)
    requires WellFormed(snap) && Kept(snap, start, WithdrawPhase, l, r)
    ensures Aligned(snap, MarkPhase, r.processed) <==> Aligned(snap, MarkPhase, l.processed)
  {
    forall n | 0 <= n < |BatchesOf(snap, MarkPhase)|
      ensures WholeOrOpen(BatchesOf(snap, MarkPhase)[n], r.processed)
        <==> WholeOrOpen(BatchesOf(snap, MarkPhase)[n], l.processed)
    {
      BatchMembers(snap, MarkPhase, n);
      forall a | a in BatchesOf(snap, MarkPhase)[n] ensures a.key !in Keys(WithdrawActions(snap)) {
        MarkerKeyApart(snap, a);
      }
      SameBesides(BatchesOf(snap, MarkPhase)[n], Keys(WithdrawActions(snap)), l.processed, r.processed);
    }
  }

  lemma SameBesides(batch: Batch, others: set<Key>, before: set<Key>, now: set<Key>)
    requires before <= now <= before + others && Keys(batch) !! others
    ensures WholeOrOpen(batch, now) <==> WholeOrOpen(batch, before)
  {
  }

  lemma UnseededAligned(snap: Snapshot, done: set<Key>)
    requires snap.batchSize > 0
    ensures NoneSeeded(snap, done) ==> Aligned(snap, SeedPhase, done)
    ensures Keys(MarkActions(snap)) <= done ==> Aligned(snap, MarkPhase, done)
  {
    forall n | 0 <= n < |BatchesOf(snap, SeedPhase)| && NoneSeeded(snap, done)
      ensures Keys(BatchesOf(snap, SeedPhase)[n]) !! done
    {
      BatchMembers(snap, SeedPhase, n);
    }
    forall n | 0 <= n < |BatchesOf(snap, MarkPhase)| && Keys(MarkActions(snap)) <= done
      ensures Keys(BatchesOf(snap, MarkPhase)[n]) <= done
    {
      BatchMembers(snap, MarkPhase, n);
    }
  }

  /** The final checks, as the verify phase prints them. */
  ghost predicate Verified(snap: Snapshot, v: Vault, log: seq<Logged>, paused: bool, l: Ledger) {
    && l.routes == ExpectedRoutes(v.kind)
    && Sum(l.stake) == l.totalStake
    && l.totalStake == v.totalSupply - v.NonPositionSupply()
    && (forall u :: l.Stake(u) == Get(v.Targets(), u))
    && (!paused || l.emissionRate == 0)
    && forall e :: e in Unprocessed(v, log, l.processed) ==> e.key.blockNumber > snap.block
  }

  method PhaseVerify(c: Contract, snap: Snapshot, v: Vault, log: seq<Logged>, paused: bool) returns (ok: bool)
    ensures ok <==> Verified(snap, v, log, paused, c.View())
  {
    var targets := ComputeTargets(v);
    var totalStake := Total(c.stake);
    var explained := SupplyIs(c.totalStake, v);
    var perUser := forall u :: u in c.stake.Keys + targets.Keys ==> Get(c.stake, u) == Get(targets, u);
    assert perUser ==> forall u :: Get(c.stake, u) == Get(targets, u) by {
      if perUser {
        forall u ensures Get(c.stake, u) == Get(targets, u) {
          if u in c.stake.Keys + targets.Keys {}
        }
      }
    }
    var unprocessed := Unprocessed(v, log, c.processed);
    var drained := forall i :: 0 <= i < |unprocessed| ==> unprocessed[i].key.blockNumber > snap.block;
    ok := c.routes == ExpectedRoutes(v.kind) && totalStake == c.totalStake && explained && perUser
          && (!paused || c.emissionRate == 0) && drained;
  }

  /** The goal passes every final check. */
  lemma GoalVerifies(snap: Snapshot, start: Ledger, v: Vault, log: seq<Logged>, paused: bool, l: Ledger)
    requires Underway(snap, start, l) && Fresh(snap, v) && Goal(snap, l)
    requires snap.kind == v.kind && snap.historical == Unprocessed(v, log, start.processed)
    ensures Verified(snap, v, log, paused, l)
  {
    SumExtensional(l.stake, v.Targets());
    forall e | e in snap.historical ensures e.key in l.processed {
      assert MarkerFor(snap, e) in MarkActions(snap);
    }
  }

  // ----- the reconciliation proper

  /** The contract would take the expected events, or already has them. */
  predicate CanOptIn(c: Contract, kind: VaultKind)
    reads c
  {
    Registrable(c, c.routes, kind)
  }

  predicate Registrable(c: Contract, routes: seq<Route>, kind: VaultKind) {
    routes == ExpectedRoutes(kind) || c.CanRegister(ExpectedRoutes(kind))
  }

  /** Opting in succeeds only with nothing staked and the names free; governance waits forever otherwise. */
  method OptIn(c: Contract, snap: Snapshot, fuel: Fuel, ghost start: Ledger) returns (out: Outcome, left: Fuel)
    requires Underway(snap, start, c.View())
    modifies c
    ensures Underway(snap, start, c.View()) && c.processed == old(c.processed) && c.stake == old(c.stake)
    ensures c.totalStake == old(c.totalStake) && c.minAmount == old(c.minAmount)
    ensures c.routes == if out.Done? then ExpectedRoutes(snap.kind) else old(c.routes)
    ensures (out.Killed? || left.Some?) ==> fuel.Some?
    ensures out.Done? ==> old(CanOptIn(c, snap.kind))
    ensures out.Died? ==> !old(CanOptIn(c, snap.kind)) || old(c.totalStake) != 0
  {
    left := fuel;
    if c.routes == ExpectedRoutes(snap.kind) { return Done(0), left; }
    if fuel == Some(0) { return Killed, left; }
    if fuel.Some? { left := Some(fuel.value - 1); }
    ghost var entry := c.View();
    var ok := c.SetPositionActivityEvents(ExpectedRoutes(snap.kind));
    if ok { Rerouted(snap, start, entry); }
    out := if ok then Done(0) else Died;
  }

  /** Nothing staked means that withdrawals, if there were any, withdrew. */
  lemma Rerouted(snap: Snapshot, start: Ledger, l: Ledger)
    requires Underway(snap, start, l) && l.totalStake == 0
    ensures Underway(snap, start, l.(routes := ExpectedRoutes(snap.kind)))
  {
    hide WellFormed, Deliverable, KeysFit, Progress, Books, ExpectedRoutes;
    RerouteBooks(start, l, map[], ExpectedRoutes(snap.kind));
    if Workable(snap, start.routes) {
      SameStakes(snap, l, l.(routes := ExpectedRoutes(snap.kind)));
    }
    if snap.withdrawUsers != [] {
      NobodyStaked(start, l);
      WithdrawnAtZero(snap, start, l, snap.withdrawUsers[0]);
    }
  }

  lemma NobodyStaked(start: Ledger, l: Ledger)
    requires Books(start, l, map[]) && l.totalStake == 0
    ensures forall u :: l.Stake(u) == 0
  {
    TotalZeroIff(l);
  }

  lemma WithdrawnAtZero(snap: Snapshot, start: Ledger, l: Ledger, u: Addr)
    requires Underway(snap, start, l) && u in snap.withdrawUsers && l.Stake(u) == 0
    ensures WithdrawRouted(snap, start.routes)
  {
    ZeroMeansRouted(snap, start, l, u);
    WorkableNow(snap, start, l);
  }

  /** The withdraw phase leaves markers and seeds alone, and moves nothing once seeding began. */
  lemma WithdrawLeaves(snap: Snapshot, start: Ledger, l: Ledger, r: Ledger)
    requires Sound(snap, start, l) && Kept(snap, start, WithdrawPhase, l, r)
    ensures NoneSeeded(snap, r.processed) <==> NoneSeeded(snap, l.processed)
    ensures !NoneSeeded(snap, l.processed) ==>
      r.stake == l.stake && r.processed == l.processed && r.totalStake == l.totalStake
  {
    StaysUnseeded(snap, start, WithdrawPhase, l, r);
    WithdrawKeysListed(snap, l.processed);
  }

  lemma MarkLeaves(snap: Snapshot, start: Ledger, l: Ledger, r: Ledger)
    requires Underway(snap, start, l) && Kept(snap, start, MarkPhase, l, r)
    ensures KeysFit(snap) ==> (NoneSeeded(snap, r.processed) <==> NoneSeeded(snap, l.processed))
    ensures l.totalStake == 0 <==> r.totalStake == 0
    ensures ReadyToMark(snap, l) ==> ReadyToMark(snap, r)
  {
    if KeysFit(snap) { StaysUnseeded(snap, start, MarkPhase, l, r); }
    MarksKeepTotal(snap, start, l, r);
  }

  lemma MarkCanFinish(snap: Snapshot, l: Ledger)
    requires snap.batchSize > 0
    ensures CanFinish(snap, MarkPhase, l) <==> BeforeSeeding(snap, l) && ReadyToMark(snap, l) && KeysFit(snap)
  {
    WithdrawKeysListed(snap, l.processed);
    ExpectedRouteOf(snap.kind);
  }

  /** A plan that goes through as long as nothing is seeded and the opt-in is open. */
  ghost predicate Promising(c: Contract, snap: Snapshot, l: Ledger)
    requires snap.batchSize > 0
  {
    Workable(snap, l.routes) && BeforeSeeding(snap, l) && Registrable(c, l.routes, snap.kind)
  }

  /** Withdraw and opt in: getting through shows the withdrawals to withdraw and the names to be free. */
  method WithdrawAndOptIn(c: Contract, snap: Snapshot, v: Vault, fuel: Fuel, ghost start: Ledger)
    returns (out: Outcome, left: Fuel)
    requires Underway(snap, start, c.View())
    modifies c
    ensures Underway(snap, start, c.View()) && old(c.processed) <= c.processed && c.minAmount == old(c.minAmount)
    ensures (out.Killed? || left.Some?) ==> fuel.Some?
    ensures c.routes == if out.Done? then ExpectedRoutes(snap.kind) else old(c.routes)
    ensures out.Done? ==> WithdrawRouted(snap, old(c.routes)) && old(CanOptIn(c, snap.kind))
    ensures out.Done? && KeysFit(snap) ==> WithdrawalsCount(snap, c.minAmount)
    ensures Aligned(snap, MarkPhase, c.processed) <==> Aligned(snap, MarkPhase, old(c.processed))
    ensures Promising(c, snap, old(c.View())) && WithdrawalsCount(snap, c.minAmount) && Fresh(snap, v) ==>
      !out.Died? && Promising(c, snap, c.View()) && (out.Done? ==> ReadyToMark(snap, c.View()))
    ensures Workable(snap, old(c.routes)) && !NoneSeeded(snap, old(c.processed)) ==>
      c.stake == old(c.stake) && c.processed == old(c.processed) && c.totalStake == old(c.totalStake)
    ensures PlanKeys(snap) <= old(c.processed) ==> c.stake == old(c.stake) && c.processed == old(c.processed)
  {
    hide Starts, Deliverable, Greedy, Aligned, ExpectedRoutes, WithdrawActions, MarkActions, SeedActions;
    hide Progress, Books, Shifts;
    ghost var l0 := c.View();
    ExpectedRouteOf(snap.kind);
    out, left := RunBatches(c, snap, v, true, WithdrawPhase, fuel, start);
    ghost var l1 := c.View();
    SameLimits(start, l0, l1);
    AfterWithdrawing(c, snap, start, l0, l1);
    if !out.Done? { return; }
    AllWithdrawnNow(snap, start, l1);
    WithdrawKeysListed(snap, l1.processed);
    out, left := OptIn(c, snap, left, start);
  }

  /**
   * Withdraw, opt in, mark: all that comes before the first seed. Whatever the plan, getting through
   * shows the withdrawals to withdraw, the names to be free and no marker batch to have been torn.
   */
  method RunToSeeding(c: Contract, snap: Snapshot, v: Vault, fuel: Fuel, ghost start: Ledger)
    returns (out: Outcome, left: Fuel)
    requires Underway(snap, start, c.View())
    modifies c
    ensures Underway(snap, start, c.View()) && old(c.processed) <= c.processed && c.minAmount == old(c.minAmount)
    ensures (out.Killed? || left.Some?) ==> fuel.Some?
    ensures out.Done? ==>
      && c.totalStake == 0 && ReadyToSeed(snap, c.View())
      && WithdrawRouted(snap, old(c.routes)) && old(CanOptIn(c, snap.kind))
      && Aligned(snap, MarkPhase, old(c.processed))
    ensures out.Done? && KeysFit(snap) ==> WithdrawalsCount(snap, c.minAmount)
    ensures c.routes == old(c.routes) || c.routes == ExpectedRoutes(snap.kind)
    ensures Promising(c, snap, old(c.View())) && WithdrawalsCount(snap, c.minAmount) && Fresh(snap, v) ==>
      !out.Died? && Promising(c, snap, c.View())
    ensures Workable(snap, old(c.routes)) && !NoneSeeded(snap, old(c.processed)) && old(c.totalStake) > 0 ==>
      !out.Done? && c.stake == old(c.stake) && c.processed == old(c.processed)
    ensures PlanKeys(snap) <= old(c.processed) ==> c.stake == old(c.stake) && c.processed == old(c.processed)
  {
    hide Starts, Deliverable, Greedy, Aligned, ExpectedRoutes, WithdrawActions, MarkActions, SeedActions;
    hide Progress, Books, Shifts, KeysFit, WithdrawalsCount;
    out, left := WithdrawAndOptIn(c, snap, v, fuel, start);
    if !out.Done? { return; }
    ghost var l2 := c.View();
    MarkCanFinish(snap, l2);
    out, left := RunBatches(c, snap, v, true, MarkPhase, left, start);
    ghost var l3 := c.View();
    SameLimits(start, l2, l3);
    MarkLeaves(snap, start, l2, l3);
    MarkCanFinish(snap, l3);
    if out.Done? {
      KeysLanded(snap, MarkPhase, l3);
      MarksLanded(snap, l3);
    }
  }

  /** What the withdraw phase, finished or not, leaves of where it began. */
  lemma AfterWithdrawing(c: Contract, snap: Snapshot, start: Ledger, l: Ledger, r: Ledger)
    requires Underway(snap, start, l) && Kept(snap, start, WithdrawPhase, l, r)
    ensures Aligned(snap, MarkPhase, r.processed) <==> Aligned(snap, MarkPhase, l.processed)
    ensures Promising(c, snap, l) <==> Promising(c, snap, r)
    ensures Workable(snap, l.routes) && !NoneSeeded(snap, l.processed) ==>
      r.stake == l.stake && r.processed == l.processed && r.totalStake == l.totalStake
  {
    hide Starts, Deliverable, Greedy, Aligned, ExpectedRoutes, WithdrawActions, MarkActions, SeedActions;
    hide Progress, Books, Shifts;
    MarksStayAligned(snap, start, l, r);
    if Workable(snap, l.routes) {
      WorkableNow(snap, start, l);
      WithdrawLeaves(snap, start, l, r);
    }
  }

  /** The withdraw phase being through, the plan is shown to withdraw. */
  lemma AllWithdrawnNow(snap: Snapshot, start: Ledger, l: Ledger)
    requires Underway(snap, start, l) && AllDone(snap, WithdrawPhase, l)
    ensures WithdrawRouted(snap, l.routes)
    ensures KeysFit(snap) ==> WithdrawalsCount(snap, l.minAmount) && AllWithdrawn(snap, l.processed)
    ensures KeysFit(snap) && NoneSeeded(snap, l.processed) ==> l.totalStake == 0
  {
    DoneMeansRouted(snap, start, l);
    if KeysFit(snap) {
      WorkableNow(snap, start, l);
      WithdrawalsLanded(snap, start, l);
      if NoneSeeded(snap, l.processed) { NothingStaked(snap, start, l); }
    }
  }

  lemma MarksLanded(snap: Snapshot, l: Ledger)
    requires snap.batchSize > 0 && Keys(MarkActions(snap)) <= l.processed
    ensures Aligned(snap, MarkPhase, l.processed)
  {
    UnseededAligned(snap, l.processed);
  }

  lemma SeedingLooms(snap: Snapshot, start: Ledger, l: Ledger)
    requires Underway(snap, start, l) && Workable(snap, l.routes) && ReadyToSeed(snap, l)
    requires NoneSeeded(snap, l.processed) && Feasible(snap, l.minAmount)
    ensures CanFinish(snap, SeedPhase, l)
  {
    WithdrawKeysListed(snap, l.processed);
    UnseededAligned(snap, l.processed);
  }

  /** Targets reached with every withdrawal counted: every seed counted too. */
  lemma SeedsCounted(snap: Snapshot, start: Ledger, l: Ledger)
    requires Sound(snap, start, l) && Goal(snap, l) && WithdrawalsCount(snap, l.minAmount)
    ensures AmountsCount(snap, l.minAmount)
  {
    WithdrawKeysListed(snap, l.processed);
    forall i | 0 <= i < |snap.seedUsers| ensures !Ignored(l.minAmount, Get(snap.targets, snap.seedUsers[i])) {
      var u := snap.seedUsers[i];
      assert u in snap.seedUsers;
      ResidualGone(snap, l, u);
      assert l.Stake(u) == Residual(snap, l.processed, l.minAmount, u) + Regained(snap, l.processed, l.minAmount, u);
    }
  }

  /** A landed seed holds stake. */
  lemma SeededHoldsStake(snap: Snapshot, start: Ledger, l: Ledger)
    requires Sound(snap, start, l) && AmountsCount(snap, l.minAmount) && !NoneSeeded(snap, l.processed)
    ensures l.totalStake > 0
  {
    var i :| 0 <= i < |snap.seedUsers| && SeedKey(snap, i) in l.processed;
    var u := snap.seedUsers[i];
    assert IndexOf(snap.seedUsers, u) == i && u in snap.seedUsers;
    InvGivesStakesByKeys(snap, l);
    assert l.Stake(u) == StakeByKeys(snap, l.processed, u);
    SumAtLeast(l.stake, u);
  }

  /** Nothing staked and every seed in its state means no seed key was consumed, by whatever action. */
  lemma NoneSeededYet(snap: Snapshot, l: Ledger)
    requires WellFormed(snap) && (forall u :: l.Stake(u) == 0) && SeedStateAgrees(snap, l.stake, l.processed)
    ensures NoneSeeded(snap, l.processed)
  {
    forall i | 0 <= i < |snap.seedUsers| ensures SeedKey(snap, i) !in l.processed {
      var u := snap.seedUsers[i];
      assert u in snap.seedUsers && SeedActions(snap)[i].amount > 0;
      assert Get(l.stake, SeedActions(snap)[i].user) == l.Stake(u) == 0;
    }
  }

  /**
   * Too many withdrawals: with all of them landed and nothing staked the first seed's key is
   * consumed without its stake, so the seed phase refuses every batch.
   */
  lemma CrowdedSeedFails(snap: Snapshot, l: Ledger)
    requires WellFormed(snap) && !KeysFit(snap) && Keys(WithdrawActions(snap)) <= l.processed
    requires l.totalStake == 0 == Sum(l.stake)
    ensures !SeedStateAgrees(snap, l.stake, l.processed)
  {
    TotalZeroIff(l);
    var w := WithdrawActions(snap)[SEED_INDEX_OFFSET];
    assert w in WithdrawActions(snap) && w.key == SeedKey(snap, 0);
    if SeedStateAgrees(snap, l.stake, l.processed) { NoneSeededYet(snap, l); }
  }

  /**
   * The whole reconciliation under an existing snapshot. It is done only from a workable plan that
   * can go through, and dies from no such plan: what `CanRun` asks for is exact.
   */
  method RunPlan(c: Contract, snap: Snapshot, v: Vault, log: seq<Logged>, fuel: Fuel, ghost start: Ledger)
    returns (out: Outcome, left: Fuel)
    requires Underway(snap, start, c.View()) && Fresh(snap, v)
    requires snap.kind == v.kind && snap.historical == Unprocessed(v, log, start.processed)
    modifies c
    ensures Underway(snap, start, c.View()) && c.minAmount == old(c.minAmount)
    ensures (out.Killed? || left.Some?) ==> fuel.Some?
    ensures out.Done? ==> Goal(snap, c.View())
    ensures out.Done? ==> Promising(c, snap, old(c.View())) && Feasible(snap, c.minAmount)
    ensures c.routes == old(c.routes) || c.routes == ExpectedRoutes(snap.kind)
    ensures Promising(c, snap, old(c.View())) && Feasible(snap, c.minAmount) ==>
      !out.Died? && (Promising(c, snap, c.View()) || CanFinish(snap, SeedPhase, c.View()))
    ensures Workable(snap, old(c.routes)) && !NoneSeeded(snap, old(c.processed)) && AmountsCount(snap, c.minAmount) ==>
      c.stake == old(c.stake) && c.processed == old(c.processed)
    ensures PlanKeys(snap) <= old(c.processed) ==> c.stake == old(c.stake) && c.processed == old(c.processed)
  {
    hide Starts, Deliverable, Greedy, Aligned, ExpectedRoutes, Actions, CanFinish, Progress, Books;
    ghost var l0 := c.View();
    if Workable(snap, l0.routes) && !NoneSeeded(snap, l0.processed) && AmountsCount(snap, l0.minAmount) {
      WorkableNow(snap, start, l0);
      SeededHoldsStake(snap, start, l0);
    }
    out, left := RunToSeeding(c, snap, v, fuel, start);
    if !out.Done? { return; }
    ghost var l1 := c.View();
    if Promising(c, snap, l1) && Feasible(snap, l1.minAmount) {
      SeedingLooms(snap, start, l1);
    }
    out, left := SeedAndVerify(c, snap, v, log, left, start);
    if out.Done? {
      ThroughMeansPromising(snap, start, l0, l1);
      WorkableNow(snap, start, c.View());
      SeedsCounted(snap, start, c.View());
    }
  }

  /** Seeding entered with nothing staked: the keys fit, and no seed had landed before. */
  lemma ThroughMeansPromising(snap: Snapshot, start: Ledger, l: Ledger, r: Ledger)
    requires Underway(snap, start, r) && l.processed <= r.processed && r.totalStake == 0
    requires Keys(WithdrawActions(snap)) <= r.processed && SeedStateAgrees(snap, r.stake, r.processed)
    ensures KeysFit(snap) && NoneSeeded(snap, l.processed)
  {
    NobodyStaked(start, r);
    NoneSeededYet(snap, r);
    if !KeysFit(snap) { CrowdedSeedFails(snap, r); }
  }

  /** What finishes a run once its first seed has landed. */
  method SeedAndVerify(c: Contract, snap: Snapshot, v: Vault, log: seq<Logged>, fuel: Fuel, ghost start: Ledger)
    returns (out: Outcome, left: Fuel)
    requires Underway(snap, start, c.View()) && Fresh(snap, v)
    requires snap.kind == v.kind && snap.historical == Unprocessed(v, log, start.processed)
    modifies c
    ensures Underway(snap, start, c.View()) && c.routes == old(c.routes) && c.minAmount == old(c.minAmount)
    ensures old(c.processed) <= c.processed
    ensures (out.Killed? || left.Some?) ==> fuel.Some?
    ensures out.Done? ==> Goal(snap, c.View()) && snap.seedUsers != []
    ensures out.Done? ==> SeedStateAgrees(snap, old(c.stake), old(c.processed))
    ensures Keys(SeedActions(snap)) <= old(c.processed) ==> c.stake == old(c.stake) && c.processed == old(c.processed)
    ensures CanFinish(snap, SeedPhase, old(c.View())) ==> !out.Died? && CanFinish(snap, SeedPhase, c.View())
    ensures Goal(snap, old(c.View())) ==> Goal(snap, c.View())
  {
    hide Starts, Deliverable, Greedy, Aligned, ExpectedRoutes, CanFinish, Progress, SeedStateAgrees;
    ghost var l0 := c.View();
    out, left := RunBatches(c, snap, v, true, SeedPhase, fuel, start);
    if !out.Done? { return; }
    KeysLanded(snap, SeedPhase, c.View());
    SeedsReachGoal(snap, start, l0, c.View());
    if Goal(snap, c.View()) {
      GoalVerifies(snap, start, v, log, true, c.View());
    }
    var ok := PhaseVerify(c, snap, v, log, true);
    out := if ok then Done(out.batches) else Died;
  }

  lemma SeedsReachGoal(snap: Snapshot, start: Ledger, l: Ledger, r: Ledger)
    requires Underway(snap, start, l) && Kept(snap, start, SeedPhase, l, r)
    requires ReadyToSeed(snap, l) && Keys(SeedActions(snap)) <= r.processed
    ensures PlanKeys(snap) <= r.processed && r.routes == ExpectedRoutes(snap.kind)
    ensures CanFinish(snap, SeedPhase, l) ==> Goal(snap, r)
  {
    if CanFinish(snap, SeedPhase, l) {
      WorkableNow(snap, start, r);
      InvGivesStakesByKeys(snap, r);
      WithdrawKeysListed(snap, r.processed);
      forall u ensures r.Stake(u) == Get(snap.targets, u) {
        if u in snap.seedUsers {
          assert SeedActions(snap)[IndexOf(snap.seedUsers, u)] in SeedActions(snap);
          assert Seeded(snap, r.processed, u);
        }
        assert r.Stake(u) == StakeByKeys(snap, r.processed, u);
      }
    }
  }

  // ----- the run command

  /** A first start that can reach the goal: it knows the rate to restore, and its plan passes and goes through. */
  ghost predicate CanStart(h: Host, w: World, l: Ledger, restoreEnv: Option<nat>) {
    && h.Observed(w, l) && h.Passes(w, l) && Registrable(h.c, l.routes, w.v.kind)
    && (restoreEnv.Some? || l.emissionRate != 0)
    && Workable(h.Plan(w, l, 0), l.routes) && Feasible(h.Plan(w, l, 0), l.minAmount)
  }

  /** The run can reach the goal from here, by a first start or under the snapshot on file. */
  ghost predicate CanRun(h: Host, restoreEnv: Option<nat>)
    requires h.Grounded()
    reads h, h.c
  {
    match h.file
    case None => CanStart(h, h.world, h.c.View(), restoreEnv)
    case Some(snap) =>
      h.c.source == h.world.v.self && Promising(h.c, snap, h.c.View()) && Feasible(snap, h.c.minAmount)
  }

  /** Where a stopped run leaves things, when it could have finished. */
  ghost predicate CanResume(h: Host, restoreEnv: Option<nat>)
    requires h.Grounded()
    reads h, h.c
  {
    || CanRun(h, restoreEnv)
    || (h.c.source == h.world.v.self && h.file.Some? && h.paused && h.c.emissionRate == 0
        && CanFinish(h.file.value, SeedPhase, h.c.View()))
    || (h.c.source == h.world.v.self && h.file.Some? && h.file.value.seedUsers != []
        && Goal(h.file.value, h.c.View()))
  }

  /** The one place a run cannot be taken up from: the rate is gone and was written down nowhere. */
  predicate RateForgotten(h: Host, restoreEnv: Option<nat>)
    reads h, h.c
  {
    restoreEnv.None? && h.file.None? && h.c.emissionRate == 0
  }

  /** Setting a rate accrues first and moves no stake. */
  lemma RateChangeKeepsGround(h: Host, w: World, l: Ledger, rate: nat, now: nat)
    ensures var r := Accrue(l, now).(emissionRate := rate);
      && r == l.(acc := r.acc, lastUpdate := r.lastUpdate, emissionRate := rate) && r.acc >= l.acc
      && h.Plan(w, r, 0) == h.Plan(w, l, 0)
      && (h.Passes(w, r) <==> h.Passes(w, l))
      && (h.Observed(w, l) ==> h.Observed(w, r))
  {
    var r := Accrue(l, now).(emissionRate := rate);
    assert forall u :: r.Stake(u) == l.Stake(u);
  }

  lemma RateChangeKeepsPlan(snap: Snapshot, start: Ledger, l: Ledger, rate: nat, now: nat)
    requires Underway(snap, start, l.(emissionRate := 0))
    ensures var r := Accrue(l, now).(emissionRate := rate);
      && Underway(snap, start, r.(emissionRate := 0))
      && r == l.(acc := r.acc, lastUpdate := r.lastUpdate, emissionRate := rate)
      && (Goal(snap, l) ==> Goal(snap, r))
  {
    hide WellFormed, Starts, Deliverable, KeysFit, Progress, Books, Accrue, WithdrawRouted;
    var frozen := l.(emissionRate := 0);
    assert frozen.(emissionRate := l.emissionRate) == l;
    RateAsideBooks(start, frozen, map[], l.emissionRate);
    RateBooks(start, l, map[], rate, now);
    var r := Accrue(l, now).(emissionRate := rate);
    RateAsideBooks(start, r, map[], 0);
    if Workable(snap, start.routes) { SameStakes(snap, frozen, r.(emissionRate := 0)); }
    assert forall u :: r.Stake(u) == l.Stake(u);
    assert forall u :: r.(emissionRate := 0).Stake(u) == frozen.Stake(u);
  }

  /** One transaction on the vault, unless it already stands as wanted. */
  method SetPaused(h: Host, paused: bool, fuel: Fuel) returns (alive: bool, left: Fuel)
    requires h.Grounded()
    modifies h`paused
    ensures h.Grounded()
    ensures alive <==> old(h.paused) == paused || fuel != Some(0)
    ensures h.paused == if alive then paused else old(h.paused)
    ensures left == if fuel.Some? && alive && old(h.paused) != paused then Some(fuel.value - 1) else fuel
  {
    hide Underway, Fresh, Unprocessed, LedgerSound, VaultSound, LogSound;
    left := fuel;
    if h.paused != paused {
      if left == Some(0) { return false, left; }
      if left.Some? { left := Some(left.value - 1); }
      h.paused := paused;
    }
    return true, left;
  }

  /** Setting the rate accrues once and moves nothing a plan is made of. */
  method SetRate(h: Host, rate: nat, fuel: Fuel) returns (alive: bool, left: Fuel)
    requires h.Grounded()
    modifies h.c
    ensures h.Grounded()
    ensures alive <==> fuel != Some(0)
    ensures left == if fuel.Some? && alive then Some(fuel.value - 1) else fuel
    ensures var l, r := old(h.c.View()), h.c.View();
      r == if alive then l.(acc := r.acc, lastUpdate := r.lastUpdate, emissionRate := rate) else l
    ensures h.Plan(h.world, h.c.View(), 0) == old(h.Plan(h.world, h.c.View(), 0))
    ensures h.Passes(h.world, h.c.View()) == old(h.Passes(h.world, h.c.View()))
    ensures h.file.Some? && old(Goal(h.file.value, h.c.View())) ==> Goal(h.file.value, h.c.View())
  {
    hide Underway, LogSound, VaultSound, SnapshotOf, LedgerSound, Fresh, Unprocessed, Accrue, Goal;
    left := fuel;
    if left == Some(0) { return false, left; }
    if left.Some? { left := Some(left.value - 1); }
    var now: nat := *;
    RateChangeKeepsGround(h, h.world, h.c.View(), rate, now);
    if h.file.Some? { RateChangeKeepsPlan(h.file.value, h.start, h.c.View(), rate, now); }
    h.c.SetEmissionRate(rate, now);
    return true, left;
  }

  /** The transactions a freeze takes. */
  function FreezeSteps(h: Host): nat
    reads h, h.c
  {
    (if h.c.emissionRate != 0 then 1 else 0) + (if h.paused then 0 else 1)
  }

  /** Stop the emission, then pause. A host that can run still can, unless the rate it would restore is now nowhere. */
  method Freeze(h: Host, fuel: Fuel, ghost restoreEnv: Option<nat>) returns (alive: bool, left: Fuel)
    requires h.Grounded()
    modifies h`paused, h.c
    ensures h.Grounded()
    ensures alive <==> fuel.None? || fuel.value >= old(FreezeSteps(h))
    ensures alive ==> h.paused && h.c.emissionRate == 0
    ensures alive ==> left == if fuel.Some? then Some(fuel.value - old(FreezeSteps(h))) else None
    ensures left.Some? ==> fuel.Some?
    ensures var l, r := old(h.c.View()), h.c.View();
      r == l.(acc := r.acc, lastUpdate := r.lastUpdate, emissionRate := r.emissionRate)
    ensures fuel == Some(0) ==> h.c.emissionRate == old(h.c.emissionRate)
    ensures fuel != Some(0) ==> h.c.emissionRate == 0
    ensures h.Plan(h.world, h.c.View(), 0) == old(h.Plan(h.world, h.c.View(), 0))
    ensures h.Passes(h.world, h.c.View()) == old(h.Passes(h.world, h.c.View()))
    ensures h.file.Some? && old(Goal(h.file.value, h.c.View())) ==> Goal(h.file.value, h.c.View())
    ensures old(CanRun(h, restoreEnv)) ==> (CanRun(h, restoreEnv) <==> !RateForgotten(h, restoreEnv))
    ensures CanRun(h, restoreEnv) && (h.file.Some? || restoreEnv.Some? || old(h.c.emissionRate) != 0) ==>
      old(CanRun(h, restoreEnv))
  {
    hide SnapshotOf, BeforeSeeding, Feasible, Underway, Fresh, LedgerSound;
    hide VaultSound, LogSound, Goal, Unprocessed, KeysFit;
    left := fuel;
    ghost var l := h.c.View();
    alive := true;
    if h.c.emissionRate != 0 {
      alive, left := SetRate(h, 0, left);
      if !alive { return; }
    }
    if h.file.Some? { SeedingUnmoved(h.file.value, h.start, l, h.c.View()); }
    alive, left := SetPaused(h, true, left);
  }

  lemma SeedingUnmoved(snap: Snapshot, start: Ledger, l: Ledger, r: Ledger)
    requires Underway(snap, start, l.(emissionRate := 0)) && r.processed == l.processed
    ensures BeforeSeeding(snap, r) <==> BeforeSeeding(snap, l)
  {
  }

  /** A fresh snapshot starts before seeding, every marker outstanding. */
  lemma FreshPlan(h: Host, w: World, l: Ledger, restoreRate: nat)
    requires Underway(h.Plan(w, l, restoreRate), l, l)
    requires h.Plan(w, l, restoreRate).historical == Unprocessed(w.v, w.log, l.processed)
    ensures var snap, plan := h.Plan(w, l, restoreRate), h.Plan(w, l, 0);
      && BeforeSeeding(snap, l)
      && (Feasible(snap, l.minAmount) <==> Feasible(plan, l.minAmount))
      && (Workable(snap, l.routes) <==> Workable(plan, l.routes))
  {
    hide h.Plan, BatchesOf, Deliverable;
    h.PlanButRate(w, l, restoreRate);
    StartsUnmarked(h.Plan(w, l, restoreRate), w.v, w.log, l);
  }

  lemma StartsUnmarked(snap: Snapshot, v: Vault, log: seq<Logged>, start: Ledger)
    requires snap.batchSize > 0 && Starts(snap, start) && snap.historical == Unprocessed(v, log, start.processed)
    ensures BeforeSeeding(snap, start)
  {
    hide Unprocessed, BatchesOf;
    forall a | a in MarkActions(snap) ensures a.key !in start.processed {
      UnprocessedOutstanding(snap, v, log, start.processed, a);
    }
    forall n | 0 <= n < |BatchesOf(snap, MarkPhase)|
      ensures Keys(BatchesOf(snap, MarkPhase)[n]) !! start.processed
    {
      BatchMembers(snap, MarkPhase, n);
    }
  }

  lemma UnprocessedOutstanding(snap: Snapshot, v: Vault, log: seq<Logged>, done: set<Key>, a: Action)
    requires snap.historical == Unprocessed(v, log, done) && a in MarkActions(snap)
    ensures a.key !in done
  {
    var e :| e in snap.historical && a == MarkerFor(snap, e);
  }

  method Unfreeze(h: Host, restore: nat, fuel: Fuel) returns (alive: bool, left: Fuel)
    requires h.Grounded() && h.file.Some? && Goal(h.file.value, h.c.View()) && h.c.emissionRate == 0
    modifies h`paused, h.c
    ensures h.Grounded() && h.file == old(h.file) && h.c.minAmount == old(h.c.minAmount)
    ensures h.c.stake == old(h.c.stake) && h.c.processed == old(h.c.processed)
    ensures Goal(h.file.value, h.c.View())
    ensures (!alive || left.Some?) ==> fuel.Some?
    ensures h.c.emissionRate == if alive then restore else 0
    ensures alive ==> !h.paused
  {
    hide Underway, Goal, LedgerSound, VaultSound, LogSound, SnapshotOf, Fresh, Unprocessed, KeysFit;
    alive, left := SetPaused(h, false, fuel);
    if !alive { return; }
    if restore > 0 {
      alive, left := SetRate(h, restore, left);
    }
  }

  /** The rate found live, or the one recorded, or the one given; without any of them the run refuses to guess. */
  function RestoreRate(restoreEnv: Option<nat>, liveRate: nat, file: Option<Snapshot>): Option<nat> {
    if restoreEnv.Some? then restoreEnv
    else if liveRate != 0 then Some(liveRate)
    else if file.Some? then Some(file.value.restoreRate)
    else None
  }

  /** Whether the run gets past its opening checks. */
  predicate Opens(h: Host, restoreEnv: Option<nat>)
    reads h, h.c
  {
    h.c.source == h.world.v.self && RestoreRate(restoreEnv, h.c.emissionRate, h.file).Some?
  }

  /** Freeze, then take the snapshot if none is on file. */
  method FreezeAndSnapshot(h: Host, restoreEnv: Option<nat>, known: nat, fuel: Fuel)
    returns (out: Outcome, left: Fuel)
    requires h.Grounded() && h.c.source == h.world.v.self
    requires RestoreRate(restoreEnv, h.c.emissionRate, h.file) == Some(known)
    modifies h`paused, h`file, h`start, h.c
    ensures h.Grounded()
    ensures (out.Killed? || left.Some?) ==> fuel.Some?
    ensures !out.Killed? ==> h.paused && h.c.emissionRate == 0
    ensures h.c.emissionRate == 0 || h.c.emissionRate == old(h.c.emissionRate)
    ensures out.Done? ==> h.file.Some?
    ensures old(h.file.None?) && h.file.Some? ==> out.Done? && h.file.value.restoreRate == known
    ensures old(h.file.Some?) ==> h.file == old(h.file) && !out.Died?
    ensures var l, r := old(h.c.View()), h.c.View();
      r == l.(acc := r.acc, lastUpdate := r.lastUpdate, emissionRate := r.emissionRate)
    ensures out.Done? ==> (CanRun(h, restoreEnv) <==> old(CanRun(h, restoreEnv)))
    ensures old(CanRun(h, restoreEnv)) ==> !out.Died?
    ensures old(CanRun(h, restoreEnv)) && out.Killed? ==> (CanRun(h, restoreEnv) <==> !RateForgotten(h, restoreEnv))
    ensures old(CanRun(h, restoreEnv)) ==> (RateForgotten(h, restoreEnv) <==>
      restoreEnv.None? && old(h.file.None?) && fuel.Some? && 1 <= fuel.value <= old(FreezeSteps(h)))
  {
    hide Starts, Deliverable, WellFormed, Underway, Fresh, LedgerSound, VaultSound, LogSound;
    hide SnapshotOf, KeysFit, Unprocessed, Feasible, BeforeSeeding, Workable, Goal;
    var alive;
    alive, left := Freeze(h, fuel, restoreEnv);
    if !alive { return Killed, left; }
    if h.file.Some? { return Done(0), left; }
    out, left := h.PhaseSnapshot(known, left);
    if out.Done? {
      assert h.c.View().(emissionRate := 0) == h.c.View();
      FreshPlan(h, h.world, h.c.View(), known);
    }
  }

  /**
   * One process running the whole command. Left alone it is done exactly from where it can run; done
   * means reconciled and live again at the restored rate. Killed where it could run, it can be taken
   * up again exactly unless the rate is forgotten. Past its opening checks a dead run leaves the
   * vault frozen, and once a seed of a workable plan has landed no run moves anything.
   */
  method PhaseRun(h: Host, restoreEnv: Option<nat>, fuel: Fuel) returns (out: Outcome, left: Fuel)
    requires h.Grounded()
    modifies h`paused, h`file, h`start, h.c
    ensures h.Grounded()
    ensures (out.Killed? || left.Some?) ==> fuel.Some?
    ensures out.Done? ==>
      && h.file.Some? && Goal(h.file.value, h.c.View()) && Feasible(h.file.value, h.c.minAmount) && !h.paused
    ensures out.Done? && restoreEnv.Some? ==> h.c.emissionRate == restoreEnv.value
    ensures out.Done? && restoreEnv.None? && old(h.c.emissionRate) != 0 ==> h.c.emissionRate == old(h.c.emissionRate)
    ensures out.Done? && restoreEnv.None? && old(h.c.emissionRate) == 0 ==>
      old(h.file.Some?) && h.c.emissionRate == old(h.file).value.restoreRate
    ensures !out.Done? ==> h.c.emissionRate == 0 || h.c.emissionRate == old(h.c.emissionRate)
    ensures old(h.file.None?) && h.file.Some? ==>
      h.file.value.restoreRate == if restoreEnv.Some? then restoreEnv.value else old(h.c.emissionRate)
    ensures !old(Opens(h, restoreEnv)) ==>
      out.Died? && h.c.View() == old(h.c.View()) && h.paused == old(h.paused) && h.file == old(h.file)
    ensures old(Opens(h, restoreEnv)) && out.Died? ==> h.paused && h.c.emissionRate == 0
    ensures old(h.file.Some?) ==> h.file == old(h.file)
    ensures fuel.None? ==> (out.Done? <==> old(CanRun(h, restoreEnv)))
    ensures out.Done? ==> old(CanRun(h, restoreEnv))
    ensures old(CanRun(h, restoreEnv)) ==> !out.Died?
    ensures old(CanRun(h, restoreEnv)) && out.Killed? ==> (CanResume(h, restoreEnv) <==> !RateForgotten(h, restoreEnv))
    ensures old(CanRun(h, restoreEnv)) ==> (RateForgotten(h, restoreEnv) <==>
      restoreEnv.None? && old(h.file.None?) && fuel.Some? && 1 <= fuel.value <= old(FreezeSteps(h)))
    ensures old(h.file.Some?) ==>
      && (Workable(old(h.file).value, old(h.c.routes)) && !NoneSeeded(old(h.file).value, old(h.c.processed))
          && AmountsCount(old(h.file).value, old(h.c.minAmount)) ==>
            h.c.stake == old(h.c.stake) && h.c.processed == old(h.c.processed))
      && (PlanKeys(old(h.file).value) <= old(h.c.processed) ==>
            h.c.stake == old(h.c.stake) && h.c.processed == old(h.c.processed))
  {
    hide Underway, Fresh, CanFinish, LedgerSound, VaultSound, LogSound;
    hide SnapshotOf, Goal, Unprocessed, AmountsCount, Promising, Workable, PlanKeys;
    if h.c.source != h.world.v.self { return Died, fuel; }
    var known := RestoreRate(restoreEnv, h.c.emissionRate, h.file);
    if known.None? { return Died, fuel; }
    out, left := FreezeAndSnapshot(h, restoreEnv, known.value, fuel);
    if !out.Done? { return; }
    assert h.c.View().(emissionRate := 0) == h.c.View();
    out, left := RunPlan(h.c, h.file.value, h.world.v, h.world.log, left, h.start);
    PlanIsFrozen(h.file.value, h.start, h.c.View());
    if !out.Done? { return; }
    var alive;
    alive, left := Unfreeze(h, known.value, left);
    if !alive { out := Killed; }
  }

  lemma PlanIsFrozen(snap: Snapshot, start: Ledger, l: Ledger)
    requires Underway(snap, start, l)
    ensures l.emissionRate == 0 && l.(emissionRate := 0) == l
  {
  }

  /**
   * An ordinary first start, one that could finish, killed anywhere between stopping the emission
   * and writing the snapshot: the rate is forgotten, and running again without RESTORE_EMISSION_RATE
   * dies at once, however long it is let live.
   */
  method KilledFirstStart(h: Host, steps: nat, fuel: Fuel) returns (first: Outcome, second: Outcome)
    requires h.Grounded() && h.file.None? && CanRun(h, None) && 1 <= steps <= FreezeSteps(h)
    modifies h`paused, h`file, h`start, h.c
    ensures first.Killed? && second.Died? && RateForgotten(h, None)
    ensures h.Grounded() && !CanResume(h, None)
  {
    var left;
    first, left := PhaseRun(h, None, Some(steps));
    second, left := PhaseRun(h, None, fuel);
  }

  /**
   * Killed and run again any number of times without RESTORE_EMISSION_RATE, whichever run is done at
   * last leaves the rate that was live before the first.
   */
  method RunUntilDone(h: Host, kills: seq<nat>, fuel: Fuel) returns (out: Outcome)
    requires h.Grounded() && h.file.None? && h.c.emissionRate > 0
    modifies h`paused, h`file, h`start, h.c
    ensures out.Done? ==> h.c.emissionRate == old(h.c.emissionRate) && !h.paused
  {
    var left;
    ghost var rate := h.c.emissionRate;
    for i := 0 to |kills|
      invariant h.Grounded() && (h.c.emissionRate == 0 || h.c.emissionRate == rate)
      invariant h.file.Some? ==> h.file.value.restoreRate == rate
    {
      out, left := PhaseRun(h, None, Some(kills[i]));
      if out.Done? { return; }
    }
    out, left := PhaseRun(h, None, fuel);
  }

  /** Running the command again after it was done: it freezes the live vault and dies, or is killed on the way. */
  method RunAfterGoal(h: Host, restoreEnv: Option<nat>, fuel: Fuel) returns (out: Outcome)
    requires h.Grounded() && h.c.source == h.world.v.self
    requires h.file.Some? && Goal(h.file.value, h.c.View()) && h.file.value.seedUsers != []
    modifies h`paused, h`file, h`start, h.c
    ensures !out.Done? && h.c.stake == old(h.c.stake) && h.c.processed == old(h.c.processed)
    ensures fuel.None? ==> out.Died?
    ensures out.Died? ==> h.paused && h.c.emissionRate == 0
  {
    GoalIsSeeded(h.file.value, h.c.View());
    var left;
    out, left := PhaseRun(h, restoreEnv, fuel);
  }

  /** The seed phase batch by batch, then verify. */
  method FinishSeeding(h: Host, fuel: Fuel) returns (out: Outcome, left: Fuel)
    requires h.Grounded() && h.file.Some?
    modifies h.c
    ensures h.Grounded()
    ensures (out.Killed? || left.Some?) ==> fuel.Some?
    ensures out.Done? ==> Goal(h.file.value, h.c.View())
    ensures h.paused && old(h.c.emissionRate) == 0 ==> h.c.emissionRate == 0
    ensures !h.paused || old(h.c.emissionRate) != 0 ==> out.Died? && h.c.View() == old(h.c.View())
    ensures h.paused && old(h.c.emissionRate) == 0 && CanFinish(h.file.value, SeedPhase, old(h.c.View())) ==>
      !out.Died? && CanFinish(h.file.value, SeedPhase, h.c.View())
    ensures Goal(h.file.value, old(h.c.View())) ==> Goal(h.file.value, h.c.View())
  {
    hide Underway, CanFinish, Goal;
    if !h.paused || h.c.emissionRate != 0 { return Died, fuel; }
    assert h.c.View().(emissionRate := 0) == h.c.View();
    out, left := SeedAndVerify(h.c, h.file.value, h.world.v, h.world.log, fuel, h.start);
    PlanIsFrozen(h.file.value, h.start, h.c.View());
  }

  lemma UnseededCanRun(h: Host, restoreEnv: Option<nat>)
    requires h.Grounded() && CanResume(h, restoreEnv) && h.file.Some?
    ensures if NoneSeeded(h.file.value, h.c.processed) then CanRun(h, restoreEnv)
            else (h.paused && h.c.emissionRate == 0 && CanFinish(h.file.value, SeedPhase, h.c.View()))
                 || (h.file.value.seedUsers != [] && Goal(h.file.value, h.c.View()))
  {
    hide Starts, Deliverable, WellFormed, Fresh, Unprocessed;
    var snap := h.file.value;
    if NoneSeeded(snap, h.c.processed) {
      UnseededAligned(snap, h.c.processed);
      GoalIsSeeded(snap, h.c.View());
    }
  }

  lemma GoalIsSeeded(snap: Snapshot, l: Ledger)
    ensures snap.seedUsers != [] && Goal(snap, l) ==> !NoneSeeded(snap, l.processed)
  {
    if snap.seedUsers != [] && Goal(snap, l) {
      assert SeedActions(snap)[0] in SeedActions(snap);
      assert SeedKey(snap, 0) in l.processed;
    }
  }

  /** One attempt, by the run command before the first seed and by the seed phase after it. */
  method Attempt(h: Host, restoreEnv: Option<nat>, fuel: Fuel) returns (reached: bool)
    requires h.Grounded() && CanResume(h, restoreEnv)
    modifies h`paused, h`file, h`start, h.c
    ensures h.Grounded()
    ensures reached ==> h.file.Some? && Goal(h.file.value, h.c.View())
    ensures !reached ==> fuel.Some? && (CanResume(h, restoreEnv) <==> !RateForgotten(h, restoreEnv))
    ensures old(h.file.Some?) ==> h.file.Some?
  {
    hide Starts, Underway, CanFinish, Goal, Aligned, LedgerSound, VaultSound, LogSound, SnapshotOf, Fresh;
    var out, left;
    if h.file.Some? {
      UnseededCanRun(h, restoreEnv);
    }
    if h.file.None? || NoneSeeded(h.file.value, h.c.processed) {
      out, left := PhaseRun(h, restoreEnv, fuel);
      return out.Done?;
    }
    out, left := FinishSeeding(h, fuel);
    // A seed phase that could finish does not die: this one found the goal reached, and the vault perhaps live again.
    if out.Died? { return true; }
    return out.Done?;
  }

  /** A process and how many steps it gets, and what the next one finds unless a snapshot is on file by then. */
  datatype Turn = Turn(steps: nat, world: World, ledger: Ledger, paused: bool)

  /** Until the snapshot is written the vault may be live: shares, log, stakes and rate move on. */
  method MoveOn(h: Host, turn: Turn, ghost restoreEnv: Option<nat>)
    requires h.file.None? && CanStart(h, turn.world, turn.ledger, restoreEnv)
    modifies h`world, h`paused, h.c
    ensures h.world == turn.world && h.paused == turn.paused && h.c.View() == turn.ledger
    ensures h.Grounded() && CanRun(h, restoreEnv)
  {
    hide Workable, Feasible, Registrable, SnapshotOf, LedgerSound, VaultSound, LogSound;
    h.world, h.paused := turn.world, turn.paused;
    h.c.Write(turn.ledger);
  }

  /**
   * Killed and restarted any number of times, whatever happens on the chain before the snapshot is
   * written, the reconciliation ends with every stake at its target, unless a kill on a first start
   * without RESTORE_EMISSION_RATE left the rate forgotten.
   */
  method Recover(h: Host, restoreEnv: Option<nat>, turns: seq<Turn>)
    requires h.Grounded() && CanResume(h, restoreEnv)
    requires forall i :: 0 <= i < |turns| ==> CanStart(h, turns[i].world, turns[i].ledger, restoreEnv)
    modifies h, h.c
    ensures h.Grounded()
    ensures (h.file.Some? && Goal(h.file.value, h.c.View())) || RateForgotten(h, restoreEnv)
    ensures restoreEnv.Some? || old(h.file.Some?) || turns == [] ==> h.file.Some? && Goal(h.file.value, h.c.View())
  {
    hide CanStart, CanRun, Goal;
    var reached := false;
    for i := 0 to |turns|
      invariant h.Grounded() && CanResume(h, restoreEnv) && (old(h.file.Some?) ==> h.file.Some?)
    {
      reached := Attempt(h, restoreEnv, Some(turns[i].steps));
      if reached || RateForgotten(h, restoreEnv) { return; }
      if h.file.None? { MoveOn(h, turns[i], restoreEnv); }
    }
    reached := Attempt(h, restoreEnv, None);
  }
}
