/**
 * The operator's phases against a live contract, batch by batch, under any
 * snapshot. A process may be killed before any transaction; a posted batch may
 * land several times.
 */
module Operator {
  import opened Batches
  import opened Options
  import opened Partway
  import opened Reconcile
  import opened Rewards
  import opened Sorting
  import opened Sums
  import opened Targets

  /** A row of the vault's event log; `value` is the share amount of a transfer. */
  datatype Logged = Logged(event: VaultEvent, value: nat)

  /** A phase ends with its batch count, stops on a failed check, or dies with its process. */
  datatype Outcome = Done(batches: nat) | Died | Killed

  /** Steps that outlive the process and that it still gets to take, transactions above all; None is no limit. */
  type Fuel = Option<nat>

  predicate IsActionEvent(kind: VaultKind, name: string) {
    name == "Deposit" || name == "Withdraw" || (kind == Yield && name == "QueueProcessed")
  }

  /** Mint, burn, custody, self and zero-value transfers are never relayed. */
  predicate Relayed(v: Vault, row: Logged) {
    match row.event
    case OwnerEvent(_, name, _) => IsActionEvent(v.kind, name)
    case ShareTransfer(_, sender, recipient) =>
      v.IsUserHolder(sender) && v.IsUserHolder(recipient) && sender != recipient && row.value > 0
  }

  /** What is relayed, row by row, in terms of the parties' addresses and the vault kind. */
  lemma RelayedIff(v: Vault, row: Logged)
    ensures row.event.ShareTransfer? ==>
      (Relayed(v, row) <==>
         row.value > 0 && row.event.sender != row.event.recipient
         && {row.event.sender, row.event.recipient} !! v.custody + {v.self, 0})
    ensures row.event.OwnerEvent? ==>
      (Relayed(v, row) <==>
         row.event.eventName in ["Deposit", "Withdraw"] + (if v.kind == Yield then ["QueueProcessed"] else []))
  {
  }

  function Unprocessed(v: Vault, log: seq<Logged>, done: set<Key>): (r: seq<VaultEvent>)
    ensures forall e :: e in r <==> exists row :: row in log && row.event == e && Relayed(v, row) && e.key !in done
  {
    if log == [] then [] else
      var rest := Unprocessed(v, log[1..], done);
      if Relayed(v, log[0]) && log[0].event.key !in done then [log[0].event] + rest else rest
  }

  function Positive(m: map<Addr, nat>): set<Addr> { set u | u in m && m[u] > 0 }

  function SnapshotOf(l: Ledger, v: Vault, log: seq<Logged>, block: nat, indexBase: nat, batchSize: nat,
    restoreRate: nat): Snapshot
  {
    Snapshot(v.kind, v.self, l.stake, v.Targets(), Sorted(Positive(l.stake)), Sorted(v.Targets().Keys),
             Unprocessed(v, log, l.processed), block, indexBase,
             if batchSize < l.maxBatchSize then batchSize else l.maxBatchSize, restoreRate)
  }

  /**
   * What the snapshot writes down: stakes and targets as they are, both sides' users in rising order,
   * and the smaller of the configured and the contract's batch size.
   */
  lemma SnapshotRecords(l: Ledger, v: Vault, log: seq<Logged>, block: nat, indexBase: nat, batchSize: nat,
    restoreRate: nat)
    requires v.QueueLive()
    ensures var snap := SnapshotOf(l, v, log, block, indexBase, batchSize, restoreRate);
      && snap.kind == v.kind && snap.vault == v.self && snap.stakes == l.stake
      && (forall u :: Get(snap.targets, u) == v.Held(u) + Get(v.queued, u))
      && (forall u :: u in snap.withdrawUsers <==> l.Stake(u) > 0)
      && (forall u :: u in snap.seedUsers <==> v.Held(u) + Get(v.queued, u) > 0)
      && (forall i, j :: 0 <= i < j < |snap.withdrawUsers| ==> snap.withdrawUsers[i] < snap.withdrawUsers[j])
      && (forall i, j :: 0 <= i < j < |snap.seedUsers| ==> snap.seedUsers[i] < snap.seedUsers[j])
      && (forall e :: e in snap.historical <==>
            exists row :: row in log && row.event == e && Relayed(v, row) && e.key !in l.processed)
      && snap.block == block && snap.indexBase == indexBase && snap.restoreRate == restoreRate
      && snap.batchSize <= batchSize && snap.batchSize <= l.maxBatchSize
      && (snap.batchSize == batchSize || snap.batchSize == l.maxBatchSize)
  {
    TargetsPositive(v);
  }

  /** What the indexer and the chain guarantee about the vault's event log. */
  ghost predicate LogSound(v: Vault, log: seq<Logged>) {
    && (forall i, j :: 0 <= i < j < |log| ==> log[i].event.key != log[j].event.key)
    && (forall row :: row in log && row.event.OwnerEvent? ==> row.event.owner != Some(0))
  }

  lemma UnprocessedDistinct(v: Vault, log: seq<Logged>, done: set<Key>)
    requires forall i, j :: 0 <= i < j < |log| ==> log[i].event.key != log[j].event.key
    ensures DistinctKeys(Unprocessed(v, log, done))
  {
    if log != [] {
      UnprocessedDistinct(v, log[1..], done);
      var rest := Unprocessed(v, log[1..], done);
      forall e | e in rest ensures e.key != log[0].event.key {
        var row :| row in log[1..] && row.event == e;
        var i :| 0 <= i < |log[1..]| && log[1..][i] == row;
        assert log[i + 1] == row;
      }
    }
  }

  /** What the contract's own bookkeeping guarantees. */
  ghost predicate LedgerSound(l: Ledger) {
    l.totalStake == Sum(l.stake) && (forall u :: Get(l.index, u) <= l.acc) && l.Stake(0) == 0 && l.maxBatchSize > 0
  }

  ghost predicate VaultSound(v: Vault) {
    v.QueueLive() && 0 !in v.queued && v.self != ZERO
  }

  lemma SnapshotWellFormed(l: Ledger, v: Vault, log: seq<Logged>, block: nat, indexBase: nat, batchSize: nat,
    restoreRate: nat)
    requires v.QueueLive() && batchSize > 0 && l.maxBatchSize > 0 && LogSound(v, log)
    requires forall row :: row in log && row.event.key.blockNumber == block ==> row.event.key.eventIndex < indexBase
    ensures WellFormed(SnapshotOf(l, v, log, block, indexBase, batchSize, restoreRate))
  {
    TargetsPositive(v);
    UnprocessedDistinct(v, log, l.processed);
    var historical := Unprocessed(v, log, l.processed);
    assert SnapshotOf(l, v, log, block, indexBase, batchSize, restoreRate).historical == historical;
    forall e | e in historical && e.key.blockNumber == block ensures e.key.eventIndex < indexBase {
      var row :| row in log && row.event == e;
    }
  }

  lemma SnapshotStarts(snap: Snapshot, l: Ledger)
    requires LedgerSound(l) && l.emissionRate == 0 && snap.stakes == l.stake
    requires l.processed !! Keys(WithdrawActions(snap)) && l.processed !! Keys(SeedActions(snap))
    ensures Starts(snap, l) && Inv(snap, l, l, map[])
  {
    forall i | 0 <= i < |snap.withdrawUsers| ensures WithdrawKey(snap, i) !in l.processed {
      assert WithdrawActions(snap)[i] in WithdrawActions(snap);
    }
    forall i | 0 <= i < |snap.seedUsers| ensures SeedKey(snap, i) !in l.processed {
      assert SeedActions(snap)[i] in SeedActions(snap);
    }
    assert forall u :: !Withdrawn(snap, l.processed, u) && !Seeded(snap, l.processed, u);
  }

  lemma SnapshotDeliverable(l: Ledger, v: Vault, log: seq<Logged>, block: nat, indexBase: nat, batchSize: nat,
    restoreRate: nat)
    requires VaultSound(v) && l.Stake(0) == 0 && LogSound(v, log)
    ensures Deliverable(SnapshotOf(l, v, log, block, indexBase, batchSize, restoreRate))
  {
    forall e | e in Unprocessed(v, log, l.processed)
      ensures match e
        case OwnerEvent(_, name, owner) => owner != Some(0) && IsActionEvent(v.kind, name)
        case ShareTransfer(_, sender, recipient) => sender != 0 && recipient != 0
    {
      var row :| row in log && row.event == e && Relayed(v, row);
    }
  }

  // ----- transactions

  /** A posted batch reaches the contract, at whatever time. */
  method Deliver(c: Contract, snap: Snapshot, phase: Phase, n: nat, ghost start: Ledger) returns (failures: Batch)
    requires Underway(snap, start, c.View()) && n < |BatchesOf(snap, phase)|
    requires phase != WithdrawPhase ==> c.routes == ExpectedRoutes(snap.kind)
    requires phase == SeedPhase ==> AllWithdrawn(snap, c.processed)
    modifies c
    ensures Kept(snap, start, phase, old(c.View()), c.View())
    ensures c.processed <= old(c.processed) + Keys(BatchesOf(snap, phase)[n])
    ensures failures == [] ==> c.processed == old(c.processed) + Keys(BatchesOf(snap, phase)[n])
    ensures (phase == WithdrawPhase ==> WithdrawRouted(snap, old(c.routes))) ==> failures == []
  {
    assert snap.batchSize > 0;
    hide Underway, Kept, BatchesOf, ExpectedRoutes, ApplyBatch, NoFailure, Keys, WithdrawRouted, AllWithdrawn;
    var now: nat := *;
    ghost var before := c.View();
    FitsContract(snap, start, before, phase, n);
    BatchKept(snap, start, before, phase, n, now);
    if phase == WithdrawPhase ==> WithdrawRouted(snap, before.routes) {
      BatchLands(snap, start, before, phase, n, now);
    }
    failures := c.BatchHandle(BatchesOf(snap, phase)[n], now);
  }

  /**
   * Post a batch. The request may be delivered up to three times, and the answer is that of the
   * last delivery; a process out of fuel was killed before it.
   */
  method Send(c: Contract, snap: Snapshot, phase: Phase, n: nat, fuel: Fuel, ghost start: Ledger)
    returns (sent: bool, failures: Batch, left: Fuel)
    requires Underway(snap, start, c.View()) && n < |BatchesOf(snap, phase)|
    requires phase != WithdrawPhase ==> c.routes == ExpectedRoutes(snap.kind)
    requires phase == SeedPhase ==> AllWithdrawn(snap, c.processed)
    modifies c
    ensures Kept(snap, start, phase, old(c.View()), c.View())
    ensures (!sent || left.Some?) ==> fuel.Some?
    ensures !sent ==> c.View() == old(c.View())
    ensures c.processed <= old(c.processed) + Keys(BatchesOf(snap, phase)[n])
    ensures sent && failures == [] ==> c.processed == old(c.processed) + Keys(BatchesOf(snap, phase)[n])
    ensures (phase == WithdrawPhase ==> WithdrawRouted(snap, old(c.routes))) ==> failures == []
  {
    assert snap.batchSize > 0;
    hide Underway, Kept, BatchesOf, ExpectedRoutes, Keys, WithdrawRouted, AllWithdrawn;
    failures, left := [], fuel;
    ghost var entry := c.View();
    KeptAtFirst(snap, start, phase, entry);
    if fuel == Some(0) { return false, failures, left; }
    if fuel.Some? { left := Some(fuel.value - 1); }
    var copies :| 1 <= copies <= 3;
    for i := 0 to copies
      invariant Kept(snap, start, phase, entry, c.View())
      invariant c.processed <= entry.processed + Keys(BatchesOf(snap, phase)[n])
      invariant i > 0 && failures == [] ==> Keys(BatchesOf(snap, phase)[n]) <= c.processed
      invariant (phase == WithdrawPhase ==> WithdrawRouted(snap, entry.routes)) ==> failures == []
    {
      ghost var before := c.View();
      KeptSays(snap, start, phase, entry, before);
      failures := Deliver(c, snap, phase, n, start);
      KeptTransitive(snap, start, phase, entry, before, c.View());
    }
    KeptSays(snap, start, phase, entry, c.View());
    return true, failures, left;
  }

  lemma KeptAtFirst(snap: Snapshot, start: Ledger, phase: Phase, l: Ledger)
    requires Underway(snap, start, l)
    ensures Kept(snap, start, phase, l, l)
  {
  }

  lemma KeptSays(snap: Snapshot, start: Ledger, phase: Phase, l: Ledger, r: Ledger)
    requires Kept(snap, start, phase, l, r)
    ensures Underway(snap, start, r) && l.processed <= r.processed && r.routes == l.routes
    ensures AllWithdrawn(snap, l.processed) ==> AllWithdrawn(snap, r.processed)
  {
  }

  lemma FitsContract(snap: Snapshot, start: Ledger, l: Ledger, phase: Phase, n: nat)
    requires Underway(snap, start, l) && n < |BatchesOf(snap, phase)|
    ensures |BatchesOf(snap, phase)[n]| <= l.maxBatchSize
  {
    BatchMembers(snap, phase, n);
  }

  // ----- one batch of one phase

  predicate InRange(snap: Snapshot, phase: Phase, n: nat)
    requires snap.batchSize > 0
  {
    Actions(snap, phase) == [] || 1 <= n <= |BatchesOf(snap, phase)|
  }

  /** Every stake is the snapshot's or already zero. */
  predicate StakesMatch(snap: Snapshot, stake: map<Addr, nat>) {
    forall u :: u in stake.Keys + snap.stakes.Keys ==> Get(stake, u) == 0 || Get(stake, u) == Get(snap.stakes, u)
  }

  predicate AllZero(stake: map<Addr, nat>, batch: Batch) {
    forall i :: 0 <= i < |batch| ==> Get(stake, batch[i].user) == 0
  }

  /**
   * What stops a withdraw batch before anything is posted: a live vault, a batch number that is none,
   * or a stake that is neither gone nor the snapshot's.
   */
  ghost predicate WithdrawRefused(snap: Snapshot, paused: bool, n: nat, l: Ledger)
    requires snap.batchSize > 0
  {
    || !paused || l.emissionRate != 0
    || (WithdrawActions(snap) != [] &&
          (!(1 <= n <= |BatchesOf(snap, WithdrawPhase)|) ||
           exists u :: l.Stake(u) != 0 && l.Stake(u) != Get(snap.stakes, u)))
  }

  lemma MatchEverywhere(snap: Snapshot, l: Ledger)
    ensures StakesMatch(snap, l.stake) <==> forall u :: l.Stake(u) == 0 || l.Stake(u) == Get(snap.stakes, u)
  {
    if StakesMatch(snap, l.stake) {
      forall u ensures l.Stake(u) == 0 || l.Stake(u) == Get(snap.stakes, u) {
        if u in l.stake.Keys + snap.stakes.Keys {}
      }
    }
  }

  method PhaseWithdraw(c: Contract, snap: Snapshot, paused: bool, n: nat, fuel: Fuel, ghost start: Ledger)
    returns (out: Outcome, left: Fuel)
    requires Underway(snap, start, c.View())
    modifies c
    ensures Kept(snap, start, WithdrawPhase, old(c.View()), c.View())
    ensures Landed(snap, WithdrawPhase, n, old(c.View()), c.View())
    ensures (out.Killed? || left.Some?) ==> fuel.Some?
    ensures out.Done? ==> out.batches == |BatchesOf(snap, WithdrawPhase)|
    ensures out.Done? && out.batches > 0 ==>
      && 1 <= n <= out.batches && BatchDone(snap, WithdrawPhase, BatchesOf(snap, WithdrawPhase)[n - 1], c.View())
      && StrangersEmpty(snap, c.View())
    ensures WithdrawRefused(snap, paused, n, old(c.View())) ==> out.Died? && c.View() == old(c.View())
    ensures paused && CanFinish(snap, WithdrawPhase, old(c.View())) && InRange(snap, WithdrawPhase, n) ==> !out.Died?
  {
    hide WithdrawRefused;
    hide Starts, Deliverable, WellFormed, Greedy, Progress, Books, WithdrawalsCount, NoneSeeded;
    hide ExpectedRoutes, WithdrawActions, MarkActions, SeedActions;
    var early := CheckWithdraw(c, snap, paused, n, start);
    if early.Some? { return early.value, fuel; }
    ghost var entry := c.View();
    var sent, failures;
    sent, failures, left := Send(c, snap, WithdrawPhase, n - 1, fuel, start);
    if !sent { return Killed, left; }
    if failures != [] { return Died, left; }
    WithdrawEffect(snap, start, entry, c.View(), n);
    var batches := BatchesOf(snap, WithdrawPhase);
    ZeroIsDone(snap, batches[n - 1], c.View());
    if !AllZero(c.stake, batches[n - 1]) { return Died, left; }
    StrangersStay(snap, start, entry, c.View(), n);
    return Done(|batches|), left;
  }

  /**
   * Without a withdrawal route no batch of withdrawals lowers anything, so the withdraw phase,
   * whose last check wants every user of the batch at zero, cannot report one with stake left.
   */
  lemma MisroutedWithdrawFails(l: Ledger, batch: Batch, now: nat)
    requires Books(l, l, map[]) && RouteOf(l.routes, "Withdraw") != Some(Withdraw)
    requires forall a :: a in batch ==> a.call == HandleAction && a.eventName == "Withdraw"
    requires !AllZero(l.stake, batch)
    ensures !AllZero(ApplyBatch(l, batch, now).stake, batch)
  {
    var i :| 0 <= i < |batch| && Get(l.stake, batch[i].user) != 0;
    BatchShifts(l, batch, now, batch[i].user);
    assert l.Stake(batch[i].user) <= ApplyBatch(l, batch, now).Stake(batch[i].user);
  }

  /** Everything the withdraw phase reads before it posts; Some is an early end. */
  method CheckWithdraw(c: Contract, snap: Snapshot, paused: bool, n: nat, ghost start: Ledger)
    returns (early: Option<Outcome>)
    requires Underway(snap, start, c.View())
    ensures early.Some? ==> !early.value.Killed?
    ensures early.None? ==> 1 <= n <= |BatchesOf(snap, WithdrawPhase)| && StrangersEmpty(snap, c.View())
    ensures early.Some? && early.value.Done? ==> early.value.batches == |BatchesOf(snap, WithdrawPhase)|
    ensures early.Some? && early.value.Done? && early.value.batches > 0 ==>
      && 1 <= n <= |BatchesOf(snap, WithdrawPhase)|
      && BatchDone(snap, WithdrawPhase, BatchesOf(snap, WithdrawPhase)[n - 1], c.View())
      && StrangersEmpty(snap, c.View())
    ensures early == Some(Died) <==> WithdrawRefused(snap, paused, n, c.View())
    ensures early.None? ==> !AllZero(c.stake, BatchesOf(snap, WithdrawPhase)[n - 1])
    ensures early == Some(Died) ==>
      !paused || !CanFinish(snap, WithdrawPhase, c.View()) || !InRange(snap, WithdrawPhase, n)
  {
    MatchEverywhere(snap, c.View());
    if !paused || c.emissionRate != 0 { return Some(Died); }
    var actions := WithdrawActions(snap);
    if actions == [] { return Some(Done(0)); }
    var batches := SplitBatches(actions, snap.batchSize);
    if n < 1 || n > |batches| { return Some(Died); }
    WithdrawCheckPasses(snap, start, c.View());
    if !StakesMatch(snap, c.stake) { return Some(Died); }
    StrangersHoldNothing(snap, c.View());
    ZeroIsDone(snap, batches[n - 1], c.View());
    return if AllZero(c.stake, batches[n - 1]) then Some(Done(|batches|)) else None;
  }

  lemma ZeroIsDone(snap: Snapshot, batch: Batch, l: Ledger)
    ensures AllZero(l.stake, batch) <==> BatchDone(snap, WithdrawPhase, batch, l)
  {
    forall i | 0 <= i < |batch| ensures batch[i] in batch {}
  }

  ghost predicate StrangersEmpty(snap: Snapshot, l: Ledger) {
    forall u :: u !in snap.withdrawUsers ==> l.Stake(u) == 0
  }

  /** A user without a snapshot stake passes the check only with none now. */
  lemma StrangersHoldNothing(snap: Snapshot, l: Ledger)
    requires WellFormed(snap)
    requires StakesMatch(snap, l.stake)
    ensures StrangersEmpty(snap, l)
  {
    forall u | u !in snap.withdrawUsers ensures l.Stake(u) == 0 {
      assert Get(snap.stakes, u) == 0;
      if u in l.stake {
        assert u in l.stake.Keys + snap.stakes.Keys;
      }
    }
  }

  /** Until a seed lands every live stake is the snapshot's or gone. */
  lemma WithdrawCheckPasses(snap: Snapshot, start: Ledger, l: Ledger)
    requires Underway(snap, start, l)
    ensures CanFinish(snap, WithdrawPhase, l) ==> StakesMatch(snap, l.stake)
  {
    if CanFinish(snap, WithdrawPhase, l) {
      WorkableNow(snap, start, l);
      assert forall u :: !Seeded(snap, l.processed, u);
      assert forall u :: l.Stake(u) == 0 || l.Stake(u) == Get(snap.stakes, u);
    }
  }

  lemma WithdrawEffect(snap: Snapshot, start: Ledger, l: Ledger, r: Ledger, n: nat)
    requires Underway(snap, start, l) && Kept(snap, start, WithdrawPhase, l, r)
    requires 1 <= n <= |BatchesOf(snap, WithdrawPhase)|
    requires Keys(BatchesOf(snap, WithdrawPhase)[n - 1]) <= r.processed
    ensures CanFinish(snap, WithdrawPhase, l) ==>
      BatchDone(snap, WithdrawPhase, BatchesOf(snap, WithdrawPhase)[n - 1], r)
  {
    hide BatchesOf, WithdrawActions, WellFormed, Progress, Books, Starts;
    hide NoneSeeded, WithdrawalsCount, Deliverable, KeysFit;
    if CanFinish(snap, WithdrawPhase, l) {
      WorkableNow(snap, start, l);
      StaysUnseeded(snap, start, WithdrawPhase, l, r);
      SameLimits(start, l, r);
      BatchMembers(snap, WithdrawPhase, n - 1);
      forall a | a in BatchesOf(snap, WithdrawPhase)[n - 1] ensures r.Stake(a.user) == 0 {
        assert a.key in Keys(BatchesOf(snap, WithdrawPhase)[n - 1]);
        LandedAtZero(snap, r, a);
      }
    }
  }

  lemma LandedAtZero(snap: Snapshot, l: Ledger, a: Action)
    requires WellFormed(snap) && Progress(snap, l) && NoneSeeded(snap, l.processed)
    requires WithdrawalsCount(snap, l.minAmount) && a in WithdrawActions(snap) && a.key in l.processed
    ensures l.Stake(a.user) == 0
  {
    var i :| 0 <= i < |snap.withdrawUsers| && WithdrawActions(snap)[i] == a;
    assert IndexOf(snap.withdrawUsers, a.user) == i;
    UnseededStake(snap, l, a.user);
  }

  /** A completed batch shows that withdrawals withdraw, so nobody else came to hold stake either. */
  lemma StrangersStay(snap: Snapshot, start: Ledger, l: Ledger, r: Ledger, n: nat)
    requires Kept(snap, start, WithdrawPhase, l, r) && 1 <= n <= |BatchesOf(snap, WithdrawPhase)|
    requires BatchDone(snap, WithdrawPhase, BatchesOf(snap, WithdrawPhase)[n - 1], r) && StrangersEmpty(snap, l)
    ensures StrangersEmpty(snap, r)
  {
    assert snap.batchSize > 0;
    hide Underway, BatchesOf, WithdrawActions, Keys, RouteOf;
    BatchMembers(snap, WithdrawPhase, n - 1);
    var a := BatchesOf(snap, WithdrawPhase)[n - 1][0];
    assert a in BatchesOf(snap, WithdrawPhase)[n - 1];
    WithdrawnUser(snap, a);
    ZeroMeansRouted(snap, start, r, a.user);
  }

  lemma WithdrawnUser(snap: Snapshot, a: Action)
    requires a in WithdrawActions(snap)
    ensures a.user in snap.withdrawUsers
  {
    var i :| 0 <= i < |snap.withdrawUsers| && WithdrawActions(snap)[i] == a;
  }

  lemma UnseededStake(snap: Snapshot, l: Ledger, u: Addr)
    requires Progress(snap, l) && NoneSeeded(snap, l.processed)
    ensures l.Stake(u) == Residual(snap, l.processed, l.minAmount, u)
  {
    assert !Seeded(snap, l.processed, u);
  }

  /** What stops a marker batch: a live vault, withdrawals or opt-in missing, a number that is none, a torn batch. */
  ghost predicate MarkRefused(snap: Snapshot, paused: bool, n: nat, l: Ledger)
    requires snap.batchSize > 0
  {
    || !paused || l.emissionRate != 0 || !ReadyToMark(snap, l)
    || (MarkActions(snap) != [] &&
          (!(1 <= n <= |BatchesOf(snap, MarkPhase)|) || !WholeOrOpen(BatchesOf(snap, MarkPhase)[n - 1], l.processed)))
  }

  method PhaseMarkHistorical(c: Contract, snap: Snapshot, paused: bool, n: nat, fuel: Fuel, ghost start: Ledger)
    returns (out: Outcome, left: Fuel)
    requires Underway(snap, start, c.View())
    modifies c
    ensures Kept(snap, start, MarkPhase, old(c.View()), c.View())
    ensures Landed(snap, MarkPhase, n, old(c.View()), c.View())
    ensures (out.Killed? || left.Some?) ==> fuel.Some?
    ensures out.Done? ==> out.batches == |BatchesOf(snap, MarkPhase)| && ReadyToMark(snap, old(c.View()))
    ensures out.Done? && out.batches > 0 ==>
      && 1 <= n <= out.batches && BatchDone(snap, MarkPhase, BatchesOf(snap, MarkPhase)[n - 1], c.View())
      && WholeOrOpen(BatchesOf(snap, MarkPhase)[n - 1], old(c.processed))
    ensures MarkRefused(snap, paused, n, old(c.View())) ==> out.Died? && c.View() == old(c.View())
    ensures !ReadyToMark(snap, old(c.View())) ==> out.Died? && c.View() == old(c.View())
    ensures paused && CanFinish(snap, MarkPhase, old(c.View())) && InRange(snap, MarkPhase, n) ==> !out.Died?
  {
    hide Starts, Deliverable, WellFormed, Greedy, CanFinish, Progress, Books;
    hide ExpectedRoutes, WithdrawActions, MarkActions, SeedActions;
    var early := CheckMark(c, snap, paused, n);
    if early.Some? { return early.value, fuel; }
    ghost var entry := c.View();
    var sent, failures;
    sent, failures, left := Send(c, snap, MarkPhase, n - 1, fuel, start);
    if !sent { return Killed, left; }
    if failures != [] { return Died, left; }
    MarksKeepTotal(snap, start, entry, c.View());
    return if c.totalStake == 0 then Done(|BatchesOf(snap, MarkPhase)|) else Died, left;
  }

  /** The withdrawals are done, nothing is staked and the new events are registered. */
  predicate ReadyToMark(snap: Snapshot, l: Ledger) {
    l.totalStake == 0 && Keys(WithdrawActions(snap)) <= l.processed && l.routes == ExpectedRoutes(snap.kind)
  }

  method CheckMark(c: Contract, snap: Snapshot, paused: bool, n: nat) returns (early: Option<Outcome>)
    requires snap.batchSize > 0
    ensures early.Some? ==> !early.value.Killed?
    ensures early != Some(Died) ==> ReadyToMark(snap, c.View())
    ensures early.None? ==>
      1 <= n <= |BatchesOf(snap, MarkPhase)| && WholeOrOpen(BatchesOf(snap, MarkPhase)[n - 1], c.processed)
    ensures early.Some? && early.value.Done? ==> early.value.batches == |BatchesOf(snap, MarkPhase)|
    ensures early.Some? && early.value.Done? && early.value.batches > 0 ==>
      1 <= n <= |BatchesOf(snap, MarkPhase)| && BatchDone(snap, MarkPhase, BatchesOf(snap, MarkPhase)[n - 1], c.View())
    ensures early == Some(Died) <==> MarkRefused(snap, paused, n, c.View())
    ensures early.None? ==> !(Keys(BatchesOf(snap, MarkPhase)[n - 1]) <= c.processed)
    ensures early == Some(Died) ==>
      !paused || c.emissionRate != 0 || !CanFinish(snap, MarkPhase, c.View()) || !InRange(snap, MarkPhase, n)
  {
    WithdrawKeysListed(snap, c.processed);
    if !paused || c.emissionRate != 0 { return Some(Died); }
    if !ReadyToMark(snap, c.View()) { return Some(Died); }
    var actions := MarkActions(snap);
    if actions == [] { return Some(Done(0)); }
    var batches := SplitBatches(actions, snap.batchSize);
    if n < 1 || n > |batches| { return Some(Died); }
    if Keys(batches[n - 1]) <= c.processed { return Some(Done(|batches|)); }
    return if Keys(batches[n - 1]) !! c.processed then None else Some(Died);
  }

  /** Everybody's live target is the snapshot's. */
  ghost predicate TargetsAgree(snap: Snapshot, v: Vault) { forall u :: Get(v.Targets(), u) == Get(snap.targets, u) }

  /** The live vault still explains the snapshot's targets, in full. */
  ghost predicate Fresh(snap: Snapshot, v: Vault) {
    snap.targets == v.Targets() && Sum(v.Targets()) == v.totalSupply - v.NonPositionSupply()
  }

  /**
   * What stops a seed batch: a live vault, earlier phases missing, live targets that moved, nothing to
   * seed or a batch number that is none, a seed whose stake and pair disagree, a torn batch, or targets
   * that do not explain the supply.
   */
  ghost predicate SeedRefused(snap: Snapshot, v: Vault, paused: bool, n: nat, l: Ledger)
    requires snap.batchSize > 0
  {
    || !paused || l.emissionRate != 0 || !ReadyToSeed(snap, l) || !SeedStateAgrees(snap, l.stake, l.processed)
    || !TargetsAgree(snap, v)
    || !(1 <= n <= |BatchesOf(snap, SeedPhase)|)
    || !WholeOrOpen(BatchesOf(snap, SeedPhase)[n - 1], l.processed)
    || (!(Keys(BatchesOf(snap, SeedPhase)[n - 1]) <= l.processed)
        && Sum(snap.targets) != v.totalSupply - v.NonPositionSupply())
  }

  method PhaseSeed(c: Contract, snap: Snapshot, v: Vault, paused: bool, n: nat, fuel: Fuel, ghost start: Ledger)
    returns (out: Outcome, left: Fuel)
    requires Underway(snap, start, c.View())
    modifies c
    ensures Kept(snap, start, SeedPhase, old(c.View()), c.View())
    ensures Landed(snap, SeedPhase, n, old(c.View()), c.View())
    ensures (out.Killed? || left.Some?) ==> fuel.Some?
    ensures out.Done? ==>
      && out.batches == |BatchesOf(snap, SeedPhase)| && 1 <= n <= out.batches
      && ReadyToSeed(snap, old(c.View())) && SeedStateAgrees(snap, old(c.stake), old(c.processed))
      && BatchDone(snap, SeedPhase, BatchesOf(snap, SeedPhase)[n - 1], c.View())
    ensures SeedRefused(snap, v, paused, n, old(c.View())) ==> out.Died? && c.View() == old(c.View())
    ensures paused && Fresh(snap, v) && CanFinish(snap, SeedPhase, old(c.View())) && InRange(snap, SeedPhase, n) ==>
      !out.Died?
  {
    hide SeedRefused;
    hide Starts, Deliverable, WellFormed, Greedy, CanFinish, Progress, Books;
    hide ExpectedRoutes, WithdrawActions, MarkActions, SeedActions;
    var early := CheckSeed(c, snap, v, paused, n, start);
    if early.Some? { return early.value, fuel; }
    ghost var entry := c.View();
    var sent, failures;
    WithdrawKeysListed(snap, c.processed);
    sent, failures, left := Send(c, snap, SeedPhase, n - 1, fuel, start);
    if !sent { return Killed, left; }
    if failures != [] { return Died, left; }
    SeedEffect(snap, start, entry, c.View(), n);
    var batch := BatchesOf(snap, SeedPhase)[n - 1];
    assert AllAtTarget(c.stake, batch) ==> BatchDone(snap, SeedPhase, batch, c.View());
    return if AllAtTarget(c.stake, batch) then Done(|BatchesOf(snap, SeedPhase)|) else Died, left;
  }

  predicate ReadyToSeed(snap: Snapshot, l: Ledger) {
    && l.routes == ExpectedRoutes(snap.kind)
    && Keys(WithdrawActions(snap)) <= l.processed && Keys(MarkActions(snap)) <= l.processed
  }

  predicate AllAtTarget(stake: map<Addr, nat>, batch: Batch) {
    forall i :: 0 <= i < |batch| ==> Get(stake, batch[i].user) == batch[i].amount
  }

  /** No stake outside the targets, and every seed user's stake agrees with the seed's key. */
  predicate SeedStateAgrees(snap: Snapshot, stake: map<Addr, nat>, done: set<Key>) {
    && (forall u :: u in stake ==> Get(snap.targets, u) == 0 ==> stake[u] == 0)
    && var seeds := SeedActions(snap);
       forall i :: 0 <= i < |seeds| ==> Get(stake, seeds[i].user) == if seeds[i].key in done then seeds[i].amount else 0
  }

  /** A ledger from which seeding can finish passes every check on it. */
  lemma SeedChecksHold(snap: Snapshot, start: Ledger, l: Ledger, n: nat)
    requires Underway(snap, start, l)
    ensures snap.batchSize > 0 && l.emissionRate == 0 && l.totalStake == Sum(l.stake)
    ensures CanFinish(snap, SeedPhase, l) ==>
      && ReadyToSeed(snap, l) && SeedActions(snap) != [] && SeedStateAgrees(snap, l.stake, l.processed)
      && (1 <= n <= |BatchesOf(snap, SeedPhase)| ==>
            var keys := Keys(BatchesOf(snap, SeedPhase)[n - 1]); keys <= l.processed || keys !! l.processed)
  {
    hide BatchesOf, SeedStateAgrees;
    WithdrawKeysListed(snap, l.processed);
    if CanFinish(snap, SeedPhase, l) {
      WorkableNow(snap, start, l);
      SeedStateHolds(snap, start, l);
    }
  }

  lemma FreshSays(snap: Snapshot, v: Vault)
    ensures Fresh(snap, v) ==> TargetsAgree(snap, v)
    ensures Fresh(snap, v) ==> Sum(snap.targets) == v.totalSupply - v.NonPositionSupply()
  {
  }

  /** A refusal shows a live vault, moved shares, a seeding that cannot finish or a batch number that is none. */
  lemma SeedRefusedMeans(snap: Snapshot, start: Ledger, v: Vault, paused: bool, n: nat, l: Ledger)
    requires Underway(snap, start, l)
    ensures snap.batchSize > 0
    ensures SeedRefused(snap, v, paused, n, l) ==>
      !paused || !Fresh(snap, v) || !CanFinish(snap, SeedPhase, l) || !InRange(snap, SeedPhase, n)
  {
    EmptySplit(snap, SeedPhase);
    FreshSays(snap, v);
    hide CanFinish, Greedy, ReadyToSeed, SeedActions, SeedStateAgrees, BatchesOf, Fresh, Underway, TargetsAgree;
    SeedChecksHold(snap, start, l, n);
  }

  /** The refusals one by one, in the order they are checked. */
  lemma SeedRefusals(snap: Snapshot, v: Vault, paused: bool, n: nat, l: Ledger)
    requires snap.batchSize > 0
    ensures !paused || l.emissionRate != 0 || !ReadyToSeed(snap, l) ==> SeedRefused(snap, v, paused, n, l)
    ensures !TargetsAgree(snap, v) || !SeedStateAgrees(snap, l.stake, l.processed) ==>
      SeedRefused(snap, v, paused, n, l)
    ensures !(1 <= n <= |BatchesOf(snap, SeedPhase)|) ==> SeedRefused(snap, v, paused, n, l)
    ensures
      && paused && l.emissionRate == 0 && ReadyToSeed(snap, l) && TargetsAgree(snap, v)
      && SeedStateAgrees(snap, l.stake, l.processed) && 1 <= n <= |BatchesOf(snap, SeedPhase)| ==>
        var keys := Keys(BatchesOf(snap, SeedPhase)[n - 1]);
        SeedRefused(snap, v, paused, n, l) <==>
          !(keys <= l.processed)
          && (!(keys !! l.processed) || Sum(snap.targets) != v.totalSupply - v.NonPositionSupply())
  {
    hide ReadyToSeed, TargetsAgree, SeedStateAgrees, BatchesOf, Keys, Sum;
  }

  method CheckSeed(c: Contract, snap: Snapshot, v: Vault, paused: bool, n: nat, ghost start: Ledger)
    returns (early: Option<Outcome>)
    requires Underway(snap, start, c.View())
    ensures early.Some? ==> !early.value.Killed?
    ensures early != Some(Died) ==>
      && ReadyToSeed(snap, c.View()) && SeedStateAgrees(snap, c.stake, c.processed)
      && 1 <= n <= |BatchesOf(snap, SeedPhase)|
    ensures early == Some(Died) <==> SeedRefused(snap, v, paused, n, c.View())
    ensures early.Some? && early.value.Done? ==>
      && early.value.batches == |BatchesOf(snap, SeedPhase)|
      && BatchDone(snap, SeedPhase, BatchesOf(snap, SeedPhase)[n - 1], c.View())
    ensures early.None? ==> !(Keys(BatchesOf(snap, SeedPhase)[n - 1]) <= c.processed)
    ensures early == Some(Died) ==>
      !paused || !Fresh(snap, v) || !CanFinish(snap, SeedPhase, c.View()) || !InRange(snap, SeedPhase, n)
  {
    hide CanFinish, Greedy, ReadyToSeed, SeedActions, SeedStateAgrees, BatchDone;
    hide SeedRefused, TargetsAgree, Fresh;
    SeedChecksHold(snap, start, c.View(), n);
    SeedRefusals(snap, v, paused, n, c.View());
    SeedRefusedMeans(snap, start, v, paused, n, c.View());
    if !paused || c.emissionRate != 0 { return Some(Died); }
    if !ReadyToSeed(snap, c.View()) { return Some(Died); }
    var current := TargetsCurrent(snap, v);
    if !current { return Some(Died); }
    var actions := SeedActions(snap);
    if actions == [] {
      EmptySplit(snap, SeedPhase);
      return Some(Died);
    }
    var batches := SplitBatches(actions, snap.batchSize);
    if n < 1 || n > |batches| { return Some(Died); }
    var summed := Total(c.stake);
    if summed != c.totalStake || !SeedStateAgrees(snap, c.stake, c.processed) { return Some(Died); }
    if Keys(batches[n - 1]) <= c.processed {
      SeededAtTarget(snap, c.View(), n - 1);
      return Some(Done(|batches|));
    }
    if !(Keys(batches[n - 1]) !! c.processed) { return Some(Died); }
    var explained := SupplyExplained(snap.targets, v);
    return if explained then None else Some(Died);
  }

  /** The freshness check: shares can move while the vault is paused. */
  method TargetsCurrent(snap: Snapshot, v: Vault) returns (ok: bool)
    ensures ok <==> TargetsAgree(snap, v)
  {
    var live := ComputeTargets(v);
    ok := forall u :: u in live.Keys + snap.targets.Keys ==> Get(live, u) == Get(snap.targets, u);
    if ok {
      forall u ensures Get(live, u) == Get(snap.targets, u) {
        if u in live.Keys + snap.targets.Keys {}
      }
    }
  }

  method SupplyExplained(targets: map<Addr, nat>, v: Vault) returns (ok: bool)
    ensures ok <==> Sum(targets) == v.totalSupply - v.NonPositionSupply()
  {
    var total := Total(targets);
    ok := SupplyIs(total, v);
  }

  method SupplyIs(total: nat, v: Vault) returns (ok: bool)
    ensures ok <==> total == v.totalSupply - v.NonPositionSupply()
  {
    var custody := Total(v.CustodyShares());
    var nonPosition := custody + if v.kind == Yield then 0 else Get(v.balances, v.self);
    ok := total == v.totalSupply - nonPosition;
  }

  lemma SeededAtTarget(snap: Snapshot, l: Ledger, n: nat)
    requires snap.batchSize > 0 && n < |BatchesOf(snap, SeedPhase)| && SeedStateAgrees(snap, l.stake, l.processed)
    requires Keys(BatchesOf(snap, SeedPhase)[n]) <= l.processed
    ensures BatchDone(snap, SeedPhase, BatchesOf(snap, SeedPhase)[n], l)
  {
    BatchMembers(snap, SeedPhase, n);
    forall a | a in BatchesOf(snap, SeedPhase)[n] ensures l.Stake(a.user) == a.amount {
      var i :| 0 <= i < |SeedActions(snap)| && SeedActions(snap)[i] == a;
      assert a.key in Keys(BatchesOf(snap, SeedPhase)[n]);
    }
  }

  /** While every amount counts, the seed-state check agrees with the ledger. */
  lemma SeedStateHolds(snap: Snapshot, start: Ledger, l: Ledger)
    requires Sound(snap, start, l)
    ensures AllWithdrawn(snap, l.processed) && AmountsCount(snap, l.minAmount) ==>
      SeedStateAgrees(snap, l.stake, l.processed)
  {
    if AllWithdrawn(snap, l.processed) && AmountsCount(snap, l.minAmount) {
      InvGivesStakesByKeys(snap, l);
      forall u ensures l.Stake(u) == if Seeded(snap, l.processed, u) then Get(snap.targets, u) else 0 {
        if u in snap.withdrawUsers {
          assert WithdrawKey(snap, IndexOf(snap.withdrawUsers, u)) in l.processed;
        }
      }
      forall i | 0 <= i < |snap.seedUsers| ensures IndexOf(snap.seedUsers, snap.seedUsers[i]) == i {}
      forall u | u in l.stake && Get(snap.targets, u) == 0 ensures l.stake[u] == 0 {
        assert l.stake[u] == l.Stake(u);
      }
    }
  }

  lemma SeedEffect(snap: Snapshot, start: Ledger, l: Ledger, r: Ledger, n: nat)
    requires Underway(snap, start, l) && Kept(snap, start, SeedPhase, l, r) && 1 <= n <= |BatchesOf(snap, SeedPhase)|
    requires Keys(BatchesOf(snap, SeedPhase)[n - 1]) <= r.processed && Keys(WithdrawActions(snap)) <= l.processed
    ensures CanFinish(snap, SeedPhase, l) ==> AllAtTarget(r.stake, BatchesOf(snap, SeedPhase)[n - 1])
  {
    hide Starts, Deliverable, WellFormed, KeysFit, BatchesOf, Progress;
    hide ExpectedRoutes, AmountsCount, Aligned, WithdrawActions, SeedActions;
    if CanFinish(snap, SeedPhase, l) {
      WorkableNow(snap, start, r);
      WithdrawKeysListed(snap, r.processed);
      SeedStateHolds(snap, start, r);
      SeededAtTarget(snap, r, n - 1);
      var batch := BatchesOf(snap, SeedPhase)[n - 1];
      assert forall i :: 0 <= i < |batch| ==> batch[i] in batch && r.Stake(batch[i].user) == batch[i].amount;
    }
  }

  // ----- every batch of a phase

  /** What a phase must have found to report success. */
  ghost predicate Entered(snap: Snapshot, phase: Phase, l: Ledger, r: Ledger) {
    match phase
    case WithdrawPhase => WithdrawActions(snap) == [] || StrangersEmpty(snap, r)
    case MarkPhase => ReadyToMark(snap, l)
    case SeedPhase => ReadyToSeed(snap, l) && SeedActions(snap) != [] && SeedStateAgrees(snap, l.stake, l.processed)
  }

  method RunPhase(c: Contract, snap: Snapshot, v: Vault, paused: bool, phase: Phase, n: nat, fuel: Fuel,
    ghost start: Ledger)
    returns (out: Outcome, left: Fuel)
    requires Underway(snap, start, c.View())
    modifies c
    ensures Kept(snap, start, phase, old(c.View()), c.View())
    ensures Landed(snap, phase, n, old(c.View()), c.View())
    ensures (out.Killed? || left.Some?) ==> fuel.Some?
    ensures out.Done? ==> out.batches == |BatchesOf(snap, phase)| && Entered(snap, phase, old(c.View()), c.View())
    ensures out.Done? && out.batches > 0 ==>
      1 <= n <= out.batches && BatchDone(snap, phase, BatchesOf(snap, phase)[n - 1], c.View())
    ensures out.Done? && out.batches > 0 && phase == MarkPhase ==>
      WholeOrOpen(BatchesOf(snap, phase)[n - 1], old(c.processed))
    ensures phase == MarkPhase && !ReadyToMark(snap, old(c.View())) ==> out.Died? && c.View() == old(c.View())
    ensures !paused ==> out.Died? && c.View() == old(c.View())
    ensures paused && Fresh(snap, v) && CanFinish(snap, phase, old(c.View())) && InRange(snap, phase, n) ==> !out.Died?
  {
    match phase
    case WithdrawPhase =>
      EmptySplit(snap, phase);
      out, left := PhaseWithdraw(c, snap, paused, n, fuel, start);
    case MarkPhase => out, left := PhaseMarkHistorical(c, snap, paused, n, fuel, start);
    case SeedPhase =>
      EmptySplit(snap, phase);
      out, left := PhaseSeed(c, snap, v, paused, n, fuel, start);
  }

  lemma EmptySplit(snap: Snapshot, phase: Phase)
    requires snap.batchSize > 0
    ensures BatchesOf(snap, phase) == [] <==> Actions(snap, phase) == []
  {
    GreedySplits(Actions(snap, phase), snap.batchSize);
  }

  lemma EnteredStays(snap: Snapshot, start: Ledger, phase: Phase, l: Ledger, m: Ledger, r: Ledger, later: bool)
    requires Kept(snap, start, phase, l, m) && Entered(snap, phase, m, r)
    requires if later then Entered(snap, phase, l, m) else l == m
    ensures Entered(snap, phase, l, r)
  {
  }

  /** From batch `n` on the keys consumed are still those consumed at the start of the phase. */
  ghost predicate Untouched(batches: seq<Batch>, n: nat, before: set<Key>, now: set<Key>) {
    forall m :: n <= m < |batches| ==> Keys(batches[m]) * now == Keys(batches[m]) * before
  }

  /** A phase that got from l to r reporting its first n batches complete. */
  ghost predicate Through(snap: Snapshot, start: Ledger, phase: Phase, n: nat, l: Ledger, r: Ledger)
    requires snap.batchSize > 0
  {
    var batches := BatchesOf(snap, phase);
    && Kept(snap, start, phase, l, r) && n <= |batches|
    && (forall m :: 0 <= m < n ==> BatchDone(snap, phase, batches[m], r))
    && (phase == MarkPhase ==> forall m :: 0 <= m < n ==> WholeOrOpen(batches[m], l.processed))
    && Untouched(batches, n, l.processed, r.processed)
    && (CanFinish(snap, phase, l) ==> CanFinish(snap, phase, r))
    && if n > 0 then Entered(snap, phase, l, r) else l == r
  }

  lemma ThroughNone(snap: Snapshot, start: Ledger, phase: Phase, l: Ledger)
    requires Underway(snap, start, l)
    ensures Through(snap, start, phase, 0, l, l)
  {
    hide Underway, CanFinish;
    KeptAtFirst(snap, start, phase, l);
  }

  /** One more call, however it ended. */
  lemma StillKept(snap: Snapshot, start: Ledger, phase: Phase, n: nat, l: Ledger, m: Ledger, r: Ledger)
    requires snap.batchSize > 0 && 1 <= n && Through(snap, start, phase, n - 1, l, m)
    requires Kept(snap, start, phase, m, r) && Landed(snap, phase, n, m, r)
    ensures Kept(snap, start, phase, l, r)
    ensures CanFinish(snap, phase, l) ==> CanFinish(snap, phase, r)
  {
    hide Underway, CanFinish, Landed, Shifts, Untouched, Entered, BatchesOf;
    KeptTransitive(snap, start, phase, l, m, r);
    if CanFinish(snap, phase, m) {
      CanFinishStays(snap, start, phase, n, m, r);
    }
  }

  /** One more call that reported its batch complete. */
  lemma OneBatchMore(snap: Snapshot, start: Ledger, phase: Phase, n: nat, l: Ledger, m: Ledger, r: Ledger)
    requires snap.batchSize > 0 && 1 <= n <= |BatchesOf(snap, phase)| && Through(snap, start, phase, n - 1, l, m)
    requires Kept(snap, start, phase, m, r) && Landed(snap, phase, n, m, r) && Entered(snap, phase, m, r)
    requires BatchDone(snap, phase, BatchesOf(snap, phase)[n - 1], r)
    requires phase == MarkPhase ==> WholeOrOpen(BatchesOf(snap, phase)[n - 1], m.processed)
    ensures Through(snap, start, phase, n, l, r)
  {
    hide Underway, CanFinish, Landed, Shifts, Untouched, Entered, BatchesOf, BatchDone, WholeOrOpen, WellFormed;
    var batches := BatchesOf(snap, phase);
    StillKept(snap, start, phase, n, l, m, r);
    KeptUnderway(snap, start, phase, l, m);
    StaysUntouched(snap, phase, n, l.processed, m, r);
    EnteredStays(snap, start, phase, l, m, r, n > 1);
    if phase == MarkPhase { WholeAtFirst(batches, n, l.processed, m.processed); }
    forall k | 0 <= k < n - 1 ensures BatchDone(snap, phase, batches[k], r) {
      BatchMembers(snap, phase, k);
      DoneStays(snap, start, phase, batches[k], m, r);
    }
  }

  lemma KeptUnderway(snap: Snapshot, start: Ledger, phase: Phase, l: Ledger, r: Ledger)
    requires Kept(snap, start, phase, l, r)
    ensures Underway(snap, start, r) && WellFormed(snap)
  {
  }

  lemma StaysUntouched(snap: Snapshot, phase: Phase, n: nat, before: set<Key>, l: Ledger, r: Ledger)
    requires WellFormed(snap) && 1 <= n && Untouched(BatchesOf(snap, phase), n - 1, before, l.processed)
    requires Landed(snap, phase, n, l, r)
    ensures Untouched(BatchesOf(snap, phase), n, before, r.processed)
  {
    if r.processed != l.processed {
      OthersApart(snap, phase, n - 1);
    }
  }

  lemma WholeAtFirst(batches: seq<Batch>, n: nat, before: set<Key>, now: set<Key>)
    requires 1 <= n <= |batches| && Untouched(batches, n - 1, before, now) && WholeOrOpen(batches[n - 1], now)
    ensures WholeOrOpen(batches[n - 1], before)
  {
    var keys := Keys(batches[n - 1]);
    assert keys * now == keys * before;
    forall k | k in keys ensures k in now <==> k in before {
      assert k in keys * now <==> k in keys * before;
    }
  }

  method RunBatches(c: Contract, snap: Snapshot, v: Vault, paused: bool, phase: Phase, fuel: Fuel, ghost start: Ledger)
    returns (out: Outcome, left: Fuel)
    requires Underway(snap, start, c.View())
    modifies c
    ensures Kept(snap, start, phase, old(c.View()), c.View())
    ensures (out.Killed? || left.Some?) ==> fuel.Some?
    ensures out.Done? ==> Entered(snap, phase, old(c.View()), c.View())
    ensures out.Done? ==>
      forall m :: 0 <= m < |BatchesOf(snap, phase)| ==> BatchDone(snap, phase, BatchesOf(snap, phase)[m], c.View())
    ensures CanFinish(snap, phase, old(c.View())) ==> CanFinish(snap, phase, c.View())
    ensures out.Done? && phase == MarkPhase ==> Aligned(snap, phase, old(c.processed))
    ensures phase == MarkPhase && !ReadyToMark(snap, old(c.View())) ==> out.Died? && c.View() == old(c.View())
    ensures paused && Fresh(snap, v) && CanFinish(snap, phase, old(c.View())) ==> !out.Died?
  {
    hide Kept, Landed, CanFinish, Entered, BatchDone, WholeOrOpen, Untouched, Fresh;
    ghost var entry := c.View();
    ghost var batches := BatchesOf(snap, phase);
    EmptySplit(snap, phase);
    ThroughNone(snap, start, phase, entry);
    var n := 1;
    left := fuel;
    while true
      invariant 1 <= n && (n == 1 || n <= |batches|)
      invariant Through(snap, start, phase, n - 1, entry, c.View())
      invariant left.Some? ==> fuel.Some?
      invariant n > 1 && phase == MarkPhase ==> ReadyToMark(snap, entry)
      decreases |batches| - n
    {
      ghost var before := c.View();
      KeptUnderway(snap, start, phase, entry, before);
      out, left := RunPhase(c, snap, v, paused, phase, n, left, start);
      StillKept(snap, start, phase, n, entry, before, c.View());
      if !out.Done? { return; }
      if out.batches == 0 { return; }
      OneBatchMore(snap, start, phase, n, entry, before, c.View());
      if phase == MarkPhase { EnteredMarking(snap, entry, c.View()); }
      if n >= out.batches { return; }
      n := n + 1;
    }
  }

  lemma EnteredMarking(snap: Snapshot, l: Ledger, r: Ledger)
    requires Entered(snap, MarkPhase, l, r)
    ensures ReadyToMark(snap, l)
  {
  }
}
