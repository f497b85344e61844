/**
 * Every run of the single phases: any order, any batch number, any number of
 * operators sharing one snapshot file. Each check is read on its own, at any
 * time before the post that relies on it; a posted action lands any number of
 * times, at any later moment, or is lost or swallowed; operators may stop
 * anywhere; users claim and move shares, and governance sets any emission
 * rate, meanwhile.
 */
module ReconcileRuns {
  import opened Batches
  import opened Options
  import opened Rewards
  import opened Reconcile
  import opened Sums

  datatype Check =
    | Frozen | StakesMatchSnapshot | TotalStakeZero | WithdrawsProcessed
    | EventsExpected | MarkersProcessed | TargetsCurrent | SeedsConsistent

  datatype State = State(
    l: Ledger, paid: map<Addr, nat>, paused: bool, liveTargets: map<Addr, nat>, seen: set<Check>, posted: set<Action>)

  datatype Step =
    | Observe(check: Check)
    | Post(phase: Phase, batchNumber: nat)
    | Deliver(action: Action, now: nat)
    | Claiming(user: Addr, now: nat)
    | OptIn
    | SetPaused(paused: bool)
    | SetRate(rate: nat, now: nat)
    | MoveShares(liveTargets: map<Addr, nat>)

  function AsSet(batch: Batch): set<Action> { set a | a in batch }

  /** The checks a phase makes before it posts. */
  function Required(phase: Phase): set<Check> {
    match phase
    case WithdrawPhase => {Frozen, StakesMatchSnapshot}
    case MarkPhase => {Frozen, TotalStakeZero, WithdrawsProcessed, EventsExpected}
    case SeedPhase => {Frozen, EventsExpected, WithdrawsProcessed, MarkersProcessed, TargetsCurrent, SeedsConsistent}
  }

  ghost predicate Holds(snap: Snapshot, s: State, c: Check) {
    match c
    case Frozen => s.paused && s.l.emissionRate == 0
    case StakesMatchSnapshot => forall u :: u in s.l.stake || u in snap.stakes ==>
      s.l.Stake(u) == 0 || s.l.Stake(u) == Get(snap.stakes, u)
    case TotalStakeZero => s.l.totalStake == 0
    case WithdrawsProcessed => forall a :: a in WithdrawActions(snap) ==> a.key in s.l.processed
    case EventsExpected => s.l.routes == ExpectedRoutes(snap.kind)
    case MarkersProcessed => forall a :: a in MarkActions(snap) ==> a.key in s.l.processed
    case TargetsCurrent => forall u :: u in s.liveTargets || u in snap.targets ==>
      Get(s.liveTargets, u) == Get(snap.targets, u)
    case SeedsConsistent =>
      && s.l.totalStake == Sum(s.l.stake)
      && (forall u :: u in s.l.stake && Get(snap.targets, u) == 0 ==> s.l.Stake(u) == 0)
      && forall a :: a in SeedActions(snap) ==> s.l.Stake(a.user) == if a.key in s.l.processed then a.amount else 0
  }

  ghost predicate Enabled(snap: Snapshot, s: State, step: Step) {
    match step
    case Observe(c) => Holds(snap, s, c)
    case Post(phase, n) =>
      snap.batchSize > 0 && Required(phase) <= s.seen && 1 <= n <= |Greedy(Actions(snap, phase), snap.batchSize)|
    case Deliver(a, now) => a in s.posted && Apply(s.l, a, now).Some?
    case Claiming(u, now) => Claim(s.l, u, now).Some?
    case OptIn => s.l.totalStake == 0
    case SetPaused(_) => true
    case SetRate(_, _) => true
    case MoveShares(_) => true
  }

  ghost function After(snap: Snapshot, s: State, step: Step): State
    requires Enabled(snap, s, step)
  {
    match step
    case Observe(c) => s.(seen := s.seen + {c})
    case Post(phase, n) =>
      var batch := Greedy(Actions(snap, phase), snap.batchSize)[n - 1];
      s.(posted := s.posted + AsSet(batch))
    case Deliver(a, now) => s.(l := Apply(s.l, a, now).value)
    case Claiming(u, now) =>
      var settled := Settle(Accrue(s.l, now), u).value;
      s.(l := Claim(s.l, u, now).value, paid := s.paid[u := Get(s.paid, u) + Get(settled.unclaimed, u)])
    case OptIn => s.(l := s.l.(routes := ExpectedRoutes(snap.kind)))
    case SetPaused(p) => s.(paused := p)
    case SetRate(rate, now) => s.(l := Accrue(s.l, now).(emissionRate := rate))
    case MoveShares(t) => s.(liveTargets := t)
  }

  /** The state a run leads to, when every step of it is possible. */
  ghost function Run(snap: Snapshot, s: State, steps: seq<Step>): Option<State> {
    if steps == [] then Some(s)
    else
      var before := Run(snap, s, steps[..|steps| - 1]);
      if before.Some? && Enabled(snap, before.value, steps[|steps| - 1])
      then Some(After(snap, before.value, steps[|steps| - 1]))
      else None
  }

  function Initial(start: Ledger): State { State(start, map[], false, map[], {}, {}) }

  /** Only plan actions are ever posted, seeds only after the two checks that make them safe. */
  ghost predicate PostedInOrder(snap: Snapshot, posted: set<Action>, seen: set<Check>) {
    forall a :: a in posted ==>
      IsPlanned(snap, a) && (a in SeedActions(snap) ==> WithdrawsProcessed in seen && EventsExpected in seen)
  }

  ghost predicate SystemInv(snap: Snapshot, start: Ledger, s: State) {
    && Inv(snap, start, s.l, s.paid)
    && PostedInOrder(snap, s.posted, s.seen)
    && (WithdrawsProcessed in s.seen ==> AllWithdrawn(snap, s.l.processed))
    && (EventsExpected in s.seen ==> s.l.routes == ExpectedRoutes(snap.kind))
    && s.l.processed <= start.processed + PlanKeys(snap)
  }

  /** A claim pays out what it takes from the books. */
  lemma ClaimBooks(start: Ledger, l: Ledger, paid: map<Addr, nat>, u: Addr, now: nat)
    requires Books(start, l, paid) && Claim(l, u, now).Some?
    ensures var r := Claim(l, u, now).value;
      && r == l.(acc := r.acc, lastUpdate := r.lastUpdate, unclaimed := r.unclaimed, index := r.index)
      && (l.emissionRate == 0 ==> r.acc == l.acc)
      && Books(start, r, paid[u := Get(paid, u) + Get(Settle(Accrue(l, now), u).value.unclaimed, u)])
  {
    hide Settle, Accrue, IndexGain;
    SettleSound(l, u, now);
    var settled := Settle(Accrue(l, now), u).value;
    var r := Claim(l, u, now).value;
    var paid' := paid[u := Get(paid, u) + Get(settled.unclaimed, u)];
    forall v ensures EarnedGrows(start, r, paid', v) {
      assert EarnedGrows(l, settled, map[], v) && EarnedGrows(start, l, paid, v);
      PaidOut(settled, u, v);
    }
  }

  /** Emptying one unclaimed balance takes exactly that much from what its owner has earned. */
  lemma PaidOut(l: Ledger, u: Addr, v: Addr)
    ensures var r := l.(unclaimed := l.unclaimed[u := 0]);
      r.Earned(v) + (if v == u then Get(l.unclaimed, u) else 0) == l.Earned(v)
  {
    assert l.(unclaimed := l.unclaimed[u := 0]).Pending(v) == l.Pending(v);
  }

  lemma ClaimKeeps(snap: Snapshot, start: Ledger, s: State, u: Addr, now: nat)
    requires SystemInv(snap, start, s) && Claim(s.l, u, now).Some?
    ensures SystemInv(snap, start, After(snap, s, Claiming(u, now)))
  {
    hide Books, Progress, Accrue, Settle, PostedInOrder, PlanKeys, ExpectedRoutes;
    ClaimBooks(start, s.l, s.paid, u, now);
    SameStakes(snap, s.l, Claim(s.l, u, now).value);
  }

  lemma BatchIsPlanned(snap: Snapshot, phase: Phase, n: nat, a: Action)
    requires WellFormed(snap) && n < |Greedy(Actions(snap, phase), snap.batchSize)|
    requires a in Greedy(Actions(snap, phase), snap.batchSize)[n]
    ensures a in Actions(snap, phase)
    ensures phase != SeedPhase ==> a !in SeedActions(snap)
  {
    GreedySplits(Actions(snap, phase), snap.batchSize);
    FlattenMembers(Greedy(Actions(snap, phase), snap.batchSize), a);
    if phase != SeedPhase {
      SeedsApart(snap, phase, a);
    }
  }

  lemma PostKeeps(snap: Snapshot, posted: set<Action>, seen: set<Check>, phase: Phase, n: nat)
    requires WellFormed(snap) && PostedInOrder(snap, posted, seen) && Required(phase) <= seen
    requires n < |Greedy(Actions(snap, phase), snap.batchSize)|
    ensures PostedInOrder(snap, posted + AsSet(Greedy(Actions(snap, phase), snap.batchSize)[n]), seen)
  {
    forall a | a in Greedy(Actions(snap, phase), snap.batchSize)[n]
      ensures IsPlanned(snap, a) && (a in SeedActions(snap) ==> WithdrawsProcessed in seen && EventsExpected in seen)
    {
      BatchIsPlanned(snap, phase, n, a);
    }
  }

  lemma PostStepKeeps(snap: Snapshot, start: Ledger, s: State, phase: Phase, n: nat)
    requires WellFormed(snap) && SystemInv(snap, start, s) && Enabled(snap, s, Post(phase, n))
    ensures SystemInv(snap, start, After(snap, s, Post(phase, n)))
  {
    PostKeeps(snap, s.posted, s.seen, phase, n - 1);
    var t := After(snap, s, Post(phase, n));
    assert t == s.(posted := s.posted + AsSet(Greedy(Actions(snap, phase), snap.batchSize)[n - 1]));
    EnvironmentKeeps(snap, start, s, t);
  }

  lemma DeliverKeeps(snap: Snapshot, start: Ledger, s: State, a: Action, now: nat)
    requires WellFormed(snap) && KeysFit(snap) && Starts(snap, start) && WithdrawLowers(snap, start.routes)
    requires SystemInv(snap, start, s) && Enabled(snap, s, Deliver(a, now))
    ensures SystemInv(snap, start, After(snap, s, Deliver(a, now)))
    ensures Advances(s.l, After(snap, s, Deliver(a, now)).l, a.key)
  {
    hide WellFormed, KeysFit, Starts, Books, Progress, Apply, PlanKeys, ExpectedRoutes, IsPlanned;
    PlannedKey(snap, a);
    NeverDoubles(snap, start, s.l, a);
    PlanKeeps(snap, start, s.l, s.paid, a, now);
    DeliveredKey(s.l, After(snap, s, Deliver(a, now)).l, a.key);
  }

  lemma PlannedKey(snap: Snapshot, a: Action)
    ensures IsPlanned(snap, a) ==> a.key in PlanKeys(snap)
  {
  }

  lemma NeverDoubles(snap: Snapshot, start: Ledger, l: Ledger, a: Action)
    requires WithdrawLowers(snap, start.routes) && (l.routes == start.routes || l.routes == ExpectedRoutes(snap.kind))
    ensures !Doubles(snap, l, a)
  {
    ExpectedRouteOf(snap.kind);
  }

  lemma DeliveredKey(l: Ledger, r: Ledger, k: Key)
    requires Advances(l, r, k)
    ensures r.processed == l.processed + {k} && r.routes == l.routes && r.minAmount == l.minAmount
  {
  }

  lemma StepKeeps(snap: Snapshot, start: Ledger, s: State, step: Step)
    requires WellFormed(snap) && KeysFit(snap) && Starts(snap, start) && WithdrawLowers(snap, start.routes)
    requires SystemInv(snap, start, s) && Enabled(snap, s, step)
    ensures SystemInv(snap, start, After(snap, s, step))
  {
    match step
    case Post(phase, n) => PostStepKeeps(snap, start, s, phase, n);
    case Deliver(a, now) => DeliverKeeps(snap, start, s, a, now);
    case Claiming(u, now) => ClaimKeeps(snap, start, s, u, now);
    case Observe(c) => ObserveKeeps(snap, start, s, c);
    case OptIn => OptInKeeps(snap, start, s);
    case SetPaused(_) => EnvironmentKeeps(snap, start, s, After(snap, s, step));
    case SetRate(rate, now) => RateKeeps(snap, start, s, rate, now);
    case MoveShares(_) => EnvironmentKeeps(snap, start, s, After(snap, s, step));
  }

  lemma EnvironmentKeeps(snap: Snapshot, start: Ledger, s: State, t: State)
    requires SystemInv(snap, start, s) && PostedInOrder(snap, t.posted, s.seen)
    requires t == s.(posted := t.posted, paused := t.paused, liveTargets := t.liveTargets)
    ensures SystemInv(snap, start, t)
  {
  }

  lemma RateKeeps(snap: Snapshot, start: Ledger, s: State, rate: nat, now: nat)
    requires SystemInv(snap, start, s)
    ensures SystemInv(snap, start, After(snap, s, SetRate(rate, now)))
  {
    hide Books, Progress, Accrue, PostedInOrder, PlanKeys, ExpectedRoutes;
    RateBooks(start, s.l, s.paid, rate, now);
    SameStakes(snap, s.l, Accrue(s.l, now).(emissionRate := rate));
  }

  lemma OptInKeeps(snap: Snapshot, start: Ledger, s: State)
    requires SystemInv(snap, start, s) && s.l.totalStake == 0
    ensures SystemInv(snap, start, After(snap, s, OptIn))
  {
    RerouteBooks(start, s.l, s.paid, ExpectedRoutes(snap.kind));
    SameStakes(snap, s.l, s.l.(routes := ExpectedRoutes(snap.kind)));
  }

  lemma ObserveKeeps(snap: Snapshot, start: Ledger, s: State, c: Check)
    requires SystemInv(snap, start, s) && Holds(snap, s, c)
    ensures SystemInv(snap, start, After(snap, s, Observe(c)))
  {
    if c == WithdrawsProcessed {
      forall i | 0 <= i < |snap.withdrawUsers| ensures WithdrawKey(snap, i) in s.l.processed {
        assert WithdrawActions(snap)[i] in WithdrawActions(snap);
      }
    }
  }

  lemma SeedsApart(snap: Snapshot, phase: Phase, a: Action)
    requires WellFormed(snap) && a in Actions(snap, phase) && phase != SeedPhase
    ensures a !in SeedActions(snap)
  {
    if phase == MarkPhase {
      MarkerKeyApart(snap, a);
    } else {
      assert "Withdraw"[0] != "Deposit"[0];
    }
  }

  lemma {:induction false} RunKeeps(snap: Snapshot, start: Ledger, steps: seq<Step>)
    requires WellFormed(snap) && KeysFit(snap) && Starts(snap, start) && WithdrawLowers(snap, start.routes)
    requires Run(snap, Initial(start), steps).Some?
    ensures SystemInv(snap, start, Run(snap, Initial(start), steps).value)
  {
    if steps != [] {
      RunKeeps(snap, start, steps[..|steps| - 1]);
      StepKeeps(snap, start, Run(snap, Initial(start), steps[..|steps| - 1]).value, steps[|steps| - 1]);
    }
  }

  /** While nobody sets a rate, the index stands still. */
  lemma {:induction false} QuietRun(snap: Snapshot, start: Ledger, steps: seq<Step>)
    requires WellFormed(snap) && KeysFit(snap) && Starts(snap, start) && WithdrawLowers(snap, start.routes)
    requires Run(snap, Initial(start), steps).Some?
    requires forall i :: 0 <= i < |steps| ==> !steps[i].SetRate?
    ensures var l := Run(snap, Initial(start), steps).value.l; l.emissionRate == 0 && l.acc == start.acc
  {
    hide SystemInv, WellFormed, KeysFit, Enabled;
    if steps != [] {
      var n := |steps| - 1;
      QuietRun(snap, start, steps[..n]);
      RunKeeps(snap, start, steps[..n]);
      QuietStep(snap, start, Run(snap, Initial(start), steps[..n]).value, steps[n]);
    }
  }

  lemma QuietStep(snap: Snapshot, start: Ledger, s: State, step: Step)
    requires WellFormed(snap) && KeysFit(snap) && Starts(snap, start) && WithdrawLowers(snap, start.routes)
    requires SystemInv(snap, start, s) && Enabled(snap, s, step) && !step.SetRate? && s.l.emissionRate == 0
    ensures After(snap, s, step).l.emissionRate == 0 && After(snap, s, step).l.acc == s.l.acc
  {
    match step
    case Deliver(a, now) => DeliverKeeps(snap, start, s, a, now);
    case Claiming(u, now) => ClaimBooks(start, s.l, s.paid, u, now);
    case Post(_, _) =>
    case Observe(_) =>
    case OptIn =>
    case SetPaused(_) =>
    case MoveShares(_) =>
    case SetRate(_, _) =>
  }

  /**
   * Safety over every run. Each stake is the snapshot stake, zero or the
   * target, by its consumed keys alone; the total is their sum; nothing but
   * planned keys is consumed; and what users had earned is still theirs, to the
   * unit while nobody sets an emission rate.
   */
  lemma EveryRunIsSafe(snap: Snapshot, start: Ledger, steps: seq<Step>)
    requires WellFormed(snap) && KeysFit(snap) && Starts(snap, start) && WithdrawLowers(snap, start.routes)
    requires AmountsCount(snap, start.minAmount)
    requires Run(snap, Initial(start), steps).Some?
    ensures var s := Run(snap, Initial(start), steps).value;
      && StakesByKeys(snap, s.l)
      && s.l.totalStake == Sum(s.l.stake)
      && start.processed <= s.l.processed <= start.processed + PlanKeys(snap)
      && forall u :: start.Earned(u) <= s.l.Earned(u) + Get(s.paid, u)
    ensures (forall i :: 0 <= i < |steps| ==> !steps[i].SetRate?) ==>
      var s := Run(snap, Initial(start), steps).value; forall u :: s.l.Earned(u) + Get(s.paid, u) == start.Earned(u)
  {
    hide WellFormed, StakesByKeys, AmountsCount, Run, SystemInv, Starts;
    RunKeeps(snap, start, steps);
    var s := Run(snap, Initial(start), steps).value;
    WhatSystemInvSays(snap, start, s);
    InvGivesStakesByKeys(snap, s.l);
    if forall i :: 0 <= i < |steps| ==> !steps[i].SetRate? {
      QuietRun(snap, start, steps);
    }
  }

  lemma WhatSystemInvSays(snap: Snapshot, start: Ledger, s: State)
    requires SystemInv(snap, start, s)
    ensures Progress(snap, s.l) && s.l.minAmount == start.minAmount && s.l.totalStake == Sum(s.l.stake)
    ensures start.processed <= s.l.processed <= start.processed + PlanKeys(snap)
    ensures forall u :: start.Earned(u) <= s.l.Earned(u) + Get(s.paid, u)
    ensures s.l.acc == start.acc ==> forall u :: s.l.Earned(u) + Get(s.paid, u) == start.Earned(u)
  {
    forall u
      ensures start.Earned(u) <= s.l.Earned(u) + Get(s.paid, u)
      ensures s.l.acc == start.acc ==> s.l.Earned(u) + Get(s.paid, u) == start.Earned(u)
    {
      assert EarnedGrows(start, s.l, s.paid, u);
    }
  }

  // ----- the conditions are needed: runs that go wrong without them

  ghost predicate Reachable(snap: Snapshot, start: Ledger, s: State) {
    exists steps :: Run(snap, Initial(start), steps) == Some(s)
  }

  lemma Continue(snap: Snapshot, start: Ledger, s: State, step: Step)
    requires Reachable(snap, start, s) && Enabled(snap, s, step)
    ensures Reachable(snap, start, After(snap, s, step))
  {
    var steps :| Run(snap, Initial(start), steps) == Some(s);
    assert (steps + [step])[..|steps|] == steps;
    assert Run(snap, Initial(start), steps + [step]) == Some(After(snap, s, step));
  }

  lemma {:induction false} PostUpTo(snap: Snapshot, start: Ledger, s: State, phase: Phase, n: nat) returns (t: State)
    requires snap.batchSize > 0 && Required(phase) <= s.seen && Reachable(snap, start, s)
    requires n <= |Greedy(Actions(snap, phase), snap.batchSize)|
    ensures Reachable(snap, start, t) && t == s.(posted := t.posted) && s.posted <= t.posted
    ensures forall a :: a in Flatten(Greedy(Actions(snap, phase), snap.batchSize)[..n]) ==> a in t.posted
  {
    t := s;
    if n > 0 {
      hide Reachable, Greedy, Actions;
      var batches := Greedy(Actions(snap, phase), snap.batchSize);
      var before := PostUpTo(snap, start, s, phase, n - 1);
      PostOne(snap, start, before, phase, n);
      t := s.(posted := before.posted + AsSet(batches[n - 1]));
      assert batches[..n][..n - 1] == batches[..n - 1];
    }
  }

  lemma PostOne(snap: Snapshot, start: Ledger, s: State, phase: Phase, n: nat)
    requires snap.batchSize > 0 && Required(phase) <= s.seen && Reachable(snap, start, s)
    requires 1 <= n <= |Greedy(Actions(snap, phase), snap.batchSize)|
    ensures Reachable(snap, start, s.(posted := s.posted + AsSet(Greedy(Actions(snap, phase), snap.batchSize)[n - 1])))
  {
    hide Reachable, Greedy, Actions;
    Continue(snap, start, s, Post(phase, n));
  }

  lemma PostAll(snap: Snapshot, start: Ledger, s: State, phase: Phase) returns (t: State)
    requires snap.batchSize > 0 && Required(phase) <= s.seen && Reachable(snap, start, s)
    ensures Reachable(snap, start, t) && t == s.(posted := t.posted)
    ensures forall a :: a in Actions(snap, phase) ==> a in t.posted
  {
    var batches := Greedy(Actions(snap, phase), snap.batchSize);
    t := PostUpTo(snap, start, s, phase, |batches|);
    GreedySplits(Actions(snap, phase), snap.batchSize);
    assert batches[..|batches|] == batches;
  }

  /** Posted actions delivered one after the other, none failing, act like a batch. */
  lemma {:induction false} DeliverAll(snap: Snapshot, start: Ledger, s: State, batch: Batch)
    requires Reachable(snap, start, s) && (forall a :: a in batch ==> a in s.posted) && NoFailure(s.l, batch, 0)
    ensures Reachable(snap, start, s.(l := ApplyBatch(s.l, batch, 0)))
  {
    if batch != [] {
      var n := |batch| - 1;
      DeliverAll(snap, start, s, batch[..n]);
      var before := s.(l := ApplyBatch(s.l, batch[..n], 0));
      Continue(snap, start, before, Deliver(batch[n], 0));
    }
  }

  lemma Seen(snap: Snapshot, start: Ledger, s: State, c: Check) returns (t: State)
    requires Reachable(snap, start, s) && Holds(snap, s, c)
    ensures t == s.(seen := s.seen + {c}) && Reachable(snap, start, t)
  {
    Continue(snap, start, s, Observe(c));
    t := After(snap, s, Observe(c));
  }

  /** The same plan without seeds. */
  function WithdrawOnly(snap: Snapshot): Snapshot {
    snap.(seedUsers := [], targets := map[])
  }

  lemma SameWithdrawals(snap: Snapshot)
    ensures WithdrawActions(WithdrawOnly(snap)) == WithdrawActions(snap) && SeedActions(WithdrawOnly(snap)) == []
  {
  }

  /** All withdrawals posted and landed, whatever the seed keys look like. */
  lemma ReachWithdrawn(snap: Snapshot, start: Ledger) returns (s: State)
    requires WellFormed(snap) && Starts(snap, start) && Deliverable(snap)
    requires WithdrawRouted(snap, start.routes)
    ensures Reachable(snap, start, s) && s.paused && Frozen in s.seen && s.paid == map[]
    ensures s.seen <= {Frozen, StakesMatchSnapshot}
    ensures s.l == ApplyBatch(start, WithdrawActions(snap), 0)
    ensures s.l.processed == start.processed + Keys(WithdrawActions(snap)) && s.l.routes == start.routes
    ensures Inv(WithdrawOnly(snap), start, s.l, map[])
  {
    s := Initial(start);
    assert Run(snap, s, []) == Some(s);
    Continue(snap, start, s, SetPaused(true));
    s := s.(paused := true);
    s := Seen(snap, start, s, Frozen);
    s := Seen(snap, start, s, StakesMatchSnapshot);
    s := PostAll(snap, start, s, WithdrawPhase);
    var alone := WithdrawOnly(snap);
    StartsAlone(snap, start);
    BatchKeeps(alone, start, start, map[], WithdrawActions(snap), 0);
    DeliverAll(snap, start, s, WithdrawActions(snap));
    s := s.(l := ApplyBatch(s.l, WithdrawActions(snap), 0));
  }

  lemma StartsAlone(snap: Snapshot, start: Ledger)
    requires WellFormed(snap) && Starts(snap, start) && Deliverable(snap)
    requires WithdrawRouted(snap, start.routes)
    ensures var alone := WithdrawOnly(snap);
      && WellFormed(alone) && KeysFit(alone) && Starts(alone, start) && Inv(alone, start, start, map[])
      && Sendable(alone, start, WithdrawActions(snap))
  {
    var alone := WithdrawOnly(snap);
    SameWithdrawals(snap);
    forall i | 0 <= i < |snap.withdrawUsers| ensures WithdrawKey(alone, i) !in start.processed {
      assert WithdrawKey(alone, i) == WithdrawKey(snap, i);
    }
    assert forall u :: !Withdrawn(alone, start.processed, u);
  }

  /** One withdraw too many and a seed key is consumed before its seed: that stake is not the target. */
  lemma TooManyWithdrawals(snap: Snapshot, start: Ledger) returns (s: State)
    requires WellFormed(snap) && Starts(snap, start) && Deliverable(snap)
    requires WithdrawRouted(snap, start.routes)
    requires AmountsCount(snap, start.minAmount) && !KeysFit(snap)
    ensures Reachable(snap, start, s) && !StakesByKeys(snap, s.l)
  {
    hide Starts, Books, Reachable, ApplyBatch, ExpectedRoutes, StakesByKeys, Run;
    s := ReachWithdrawn(snap, start);
    var alone := WithdrawOnly(snap);
    SameWithdrawals(snap);
    SameMinimum(start, s.l);
    assert s.l.Stake(snap.seedUsers[0]) == 0 by {
      AllGone(alone, s.l, snap.seedUsers[0]);
    }
    SharedKey(snap, s.l);
  }

  lemma SharedKey(snap: Snapshot, l: Ledger)
    requires WellFormed(snap) && !KeysFit(snap) && Keys(WithdrawActions(snap)) <= l.processed
    requires l.Stake(snap.seedUsers[0]) == 0
    ensures !StakesByKeys(snap, l)
  {
    var u := snap.seedUsers[0];
    var w := WithdrawActions(snap)[SEED_INDEX_OFFSET];
    assert w in WithdrawActions(snap) && w.key == SeedKey(snap, 0);
    assert IndexOf(snap.seedUsers, u) == 0;
    assert Seeded(snap, l.processed, u) && u in snap.seedUsers;
  }

  lemma AllGone(snap: Snapshot, l: Ledger, u: Addr)
    requires WellFormed(snap) && Progress(snap, l) && NoneSeeded(snap, l.processed)
    requires Keys(WithdrawActions(snap)) <= l.processed
    requires forall i :: 0 <= i < |snap.withdrawUsers| ==>
      !Ignored(l.minAmount, Get(snap.stakes, snap.withdrawUsers[i]))
    ensures l.Stake(u) == 0
  {
    if u in snap.withdrawUsers {
      var i := IndexOf(snap.withdrawUsers, u);
      assert WithdrawActions(snap)[i] in WithdrawActions(snap);
    }
  }

  /** With room for the seed keys, the withdrawn state is one the invariant describes. */
  lemma WithdrawnIsOrderly(snap: Snapshot, start: Ledger, l: Ledger)
    requires WellFormed(snap) && Starts(snap, start) && KeysFit(snap)
    requires l.processed == start.processed + Keys(WithdrawActions(snap))
    requires Inv(WithdrawOnly(snap), start, l, map[])
    ensures Inv(snap, start, l, map[]) && NoneSeeded(snap, l.processed) && AllWithdrawn(snap, l.processed)
  {
    var alone := WithdrawOnly(snap);
    assert NoneSeeded(snap, l.processed) by {
      ReservedDisjointIffFit(snap);
    }
    forall i | 0 <= i < |snap.withdrawUsers| ensures WithdrawKey(snap, i) in l.processed {
      assert WithdrawActions(snap)[i] in WithdrawActions(snap);
    }
    forall u ensures Withdrawn(alone, l.processed, u) == Withdrawn(snap, l.processed, u) {}
    assert forall u :: !Seeded(snap, l.processed, u);
  }

  /** One withdrawal posted and delivered straight away. */
  lemma OneDelivery(snap: Snapshot, start: Ledger, i: nat) returns (s: State)
    requires WellFormed(snap) && Starts(snap, start) && i < |snap.withdrawUsers|
    requires Apply(start, WithdrawActions(snap)[i], 0).Some?
    ensures Reachable(snap, start, s) && s.l == Apply(start, WithdrawActions(snap)[i], 0).value
  {
    s := Initial(start);
    assert Run(snap, s, []) == Some(s);
    Continue(snap, start, s, SetPaused(true));
    s := s.(paused := true);
    s := Seen(snap, start, s, Frozen);
    s := Seen(snap, start, s, StakesMatchSnapshot);
    s := PostAll(snap, start, s, WithdrawPhase);
    Continue(snap, start, s, Deliver(WithdrawActions(snap)[i], 0));
    s := After(snap, s, Deliver(WithdrawActions(snap)[i], 0));
  }

  /**
   * A withdrawal that does not lower the stake, being ignored or routed as a deposit: key consumed,
   * stake still there.
   */
  lemma Unlowered(snap: Snapshot, start: Ledger, i: nat) returns (s: State)
    requires WellFormed(snap) && Starts(snap, start) && Deliverable(snap) && i < |snap.withdrawUsers|
    requires forall j :: 0 <= j < |snap.seedUsers| ==> SeedKey(snap, j) != WithdrawKey(snap, i)
    requires var kind := RouteOf(start.routes, "Withdraw");
      || kind == Some(Deposit)
      || ((kind == Some(Withdraw) || kind == Some(Occurred))
          && Ignored(start.minAmount, Get(snap.stakes, snap.withdrawUsers[i])))
    ensures Reachable(snap, start, s) && !StakesByKeys(snap, s.l)
  {
    var a := WithdrawActions(snap)[i];
    var u := snap.withdrawUsers[i];
    assert u in snap.withdrawUsers && Get(snap.stakes, u) > 0 && start.Stake(u) == Get(snap.stakes, u);
    BooksSelf(start, start, map[]);
    if Ignored(start.minAmount, a.amount) {
      assert Apply(start, a, 0).Some?;
      IgnoredMarks(start, a, 0);
    } else {
      FirstUse(start, a, 0);
    }
    s := OneDelivery(snap, start, i);
    assert s.l.processed == start.processed + {WithdrawKey(snap, i)} && s.l.Stake(u) > 0;
    assert IndexOf(snap.withdrawUsers, u) == i;
    assert !Seeded(snap, s.l.processed, u) && Withdrawn(snap, s.l.processed, u);
    assert s.l.Stake(u) != StakeByKeys(snap, s.l.processed, u);
  }

  /** A withdrawal below the activity's minimum. */
  lemma IgnoredWithdrawal(snap: Snapshot, start: Ledger, i: nat) returns (s: State)
    requires WellFormed(snap) && Starts(snap, start) && Deliverable(snap) && KeysFit(snap)
    requires RouteOf(start.routes, "Withdraw") == Some(Withdraw) || RouteOf(start.routes, "Withdraw") == Some(Occurred)
    requires i < |snap.withdrawUsers| && Ignored(start.minAmount, Get(snap.stakes, snap.withdrawUsers[i]))
    ensures Reachable(snap, start, s) && !StakesByKeys(snap, s.l)
  {
    ReservedDisjointIffFit(snap);
    s := Unlowered(snap, start, i);
  }

  /** The first withdrawal where that event is routed as a deposit, as no check before the withdraw phase refuses. */
  lemma WithdrawalAsDeposit(snap: Snapshot, start: Ledger) returns (s: State)
    requires WellFormed(snap) && Starts(snap, start) && Deliverable(snap) && !WithdrawLowers(snap, start.routes)
    ensures Reachable(snap, start, s) && !StakesByKeys(snap, s.l)
    ensures var u := snap.withdrawUsers[0];
      !Ignored(start.minAmount, Get(snap.stakes, u)) ==>
        s.l.Stake(u) == 2 * Get(snap.stakes, u) && StakeByKeys(snap, s.l.processed, u) == 0
  {
    var a := WithdrawActions(snap)[0];
    var u := snap.withdrawUsers[0];
    s := Unlowered(snap, start, 0);
    BooksSelf(start, start, map[]);
    if !Ignored(start.minAmount, a.amount) {
      FirstUse(start, a, 0);
      s := OneDelivery(snap, start, 0);
      assert u in snap.withdrawUsers && IndexOf(snap.withdrawUsers, u) == 0;
      assert !Seeded(snap, s.l.processed, u) && Withdrawn(snap, s.l.processed, u);
      assert s.l.Stake(u) != StakeByKeys(snap, s.l.processed, u);
    }
  }

  lemma ReachOptedIn(snap: Snapshot, start: Ledger) returns (s: State)
    requires WellFormed(snap) && Starts(snap, start) && Deliverable(snap) && KeysFit(snap)
    requires WithdrawRouted(snap, start.routes)
    requires forall i :: 0 <= i < |snap.withdrawUsers| ==>
      !Ignored(start.minAmount, Get(snap.stakes, snap.withdrawUsers[i]))
    ensures Reachable(snap, start, s) && {Frozen, TotalStakeZero, WithdrawsProcessed, EventsExpected} <= s.seen
    ensures Inv(snap, start, s.l, map[]) && s.l.routes == ExpectedRoutes(snap.kind)
    ensures NoneSeeded(snap, s.l.processed) && AllWithdrawn(snap, s.l.processed)
    ensures forall u :: s.l.Stake(u) == 0
  {
    s := ReachWithdrawn(snap, start);
    WithdrawnIsOrderly(snap, start, s.l);
    forall u ensures s.l.Stake(u) == 0 {
      AllGone(snap, s.l, u);
    }
    TotalZeroIff(s.l);
    s := Seen(snap, start, s, TotalStakeZero);
    s := Seen(snap, start, s, WithdrawsProcessed);
    Continue(snap, start, s, OptIn);
    RerouteBooks(start, s.l, map[], ExpectedRoutes(snap.kind));
    SameStakes(snap, s.l, s.l.(routes := ExpectedRoutes(snap.kind)));
    s := After(snap, s, OptIn);
    s := Seen(snap, start, s, EventsExpected);
  }

  /** Past the withdrawals, when all of them counted: opted in, markers landed, every seed check passed. */
  lemma ReachSeeding(snap: Snapshot, start: Ledger) returns (s: State)
    requires WellFormed(snap) && Starts(snap, start) && Deliverable(snap) && KeysFit(snap)
    requires WithdrawRouted(snap, start.routes)
    requires forall i :: 0 <= i < |snap.withdrawUsers| ==>
      !Ignored(start.minAmount, Get(snap.stakes, snap.withdrawUsers[i]))
    ensures Reachable(snap, start, s) && Required(SeedPhase) <= s.seen
    ensures Inv(snap, start, s.l, map[]) && AllWithdrawn(snap, s.l.processed) && s.l.routes == ExpectedRoutes(snap.kind)
  {
    hide Starts, Deliverable, KeysFit, ExpectedRoutes, WithdrawActions, MarkActions, Reachable, Run, Greedy;
    s := ReachOptedIn(snap, start);
    s := PostAll(snap, start, s, MarkPhase);
    s := LandMarkers(snap, start, s);
    Continue(snap, start, s, MoveShares(snap.targets));
    s := After(snap, s, MoveShares(snap.targets));
    s := Seen(snap, start, s, TargetsCurrent);
    s := Seen(snap, start, s, SeedsConsistent);
  }

  lemma LandMarkers(snap: Snapshot, start: Ledger, s: State) returns (t: State)
    requires WellFormed(snap) && Starts(snap, start) && Deliverable(snap) && KeysFit(snap)
    requires Reachable(snap, start, s) && (forall a :: a in MarkActions(snap) ==> a in s.posted)
    requires Inv(snap, start, s.l, map[]) && s.l.routes == ExpectedRoutes(snap.kind)
    requires NoneSeeded(snap, s.l.processed) && AllWithdrawn(snap, s.l.processed)
    requires forall u :: s.l.Stake(u) == 0
    ensures Reachable(snap, start, t) && t == s.(l := t.l, seen := s.seen + {MarkersProcessed})
    ensures Inv(snap, start, t.l, map[]) && t.l.routes == s.l.routes
    ensures NoneSeeded(snap, t.l.processed) && AllWithdrawn(snap, t.l.processed)
    ensures forall u :: t.l.Stake(u) == 0
  {
    hide Inv, Starts, Deliverable, WellFormed, KeysFit, MarkActions, ExpectedRoutes, ApplyBatch, NoFailure, Reachable;
    MarkersLeave(snap, start, s.l);
    DeliverAll(snap, start, s, MarkActions(snap));
    t := s.(l := ApplyBatch(s.l, MarkActions(snap), 0));
    t := Seen(snap, start, t, MarkersProcessed);
  }

  lemma MarkersLeave(snap: Snapshot, start: Ledger, l: Ledger)
    requires WellFormed(snap) && Starts(snap, start) && Deliverable(snap) && KeysFit(snap)
    requires Inv(snap, start, l, map[]) && l.routes == ExpectedRoutes(snap.kind)
    requires NoneSeeded(snap, l.processed) && AllWithdrawn(snap, l.processed) && forall u :: l.Stake(u) == 0
    ensures NoFailure(l, MarkActions(snap), 0)
    ensures var r := ApplyBatch(l, MarkActions(snap), 0);
      && Inv(snap, start, r, map[]) && r.routes == l.routes
      && NoneSeeded(snap, r.processed) && AllWithdrawn(snap, r.processed) && (forall u :: r.Stake(u) == 0)
      && forall a :: a in MarkActions(snap) ==> a.key in r.processed
  {
    hide Deliverable, WithdrawActions, SeedActions, ExpectedRoutes, ApplyBatch, NoFailure, EarnedGrows;
    ExpectedRouteOf(snap.kind);
    var marks := MarkActions(snap);
    forall a | a in marks ensures Accepts(l.routes, a) && a !in SeedActions(snap) {
      PlanAccepted(snap, a);
      SeedsApart(snap, MarkPhase, a);
    }
    BatchKeeps(snap, start, l, map[], marks, 0);
    var r := ApplyBatch(l, marks, 0);
    forall i | 0 <= i < |snap.seedUsers| ensures SeedKey(snap, i) !in r.processed {
      forall a | a in marks ensures a.key != SeedKey(snap, i) { MarkerKeyApart(snap, a); }
    }
    forall u ensures r.Stake(u) == 0 {
      assert Withdrawn(snap, l.processed, u) ==> Withdrawn(snap, r.processed, u);
      assert l.Stake(u) == Residual(snap, l.processed, l.minAmount, u) + Regained(snap, l.processed, l.minAmount, u);
    }
  }

  /** A seed below the activity's minimum: key consumed, nothing staked. */
  lemma IgnoredSeed(snap: Snapshot, start: Ledger, i: nat) returns (s: State)
    requires WellFormed(snap) && Starts(snap, start) && Deliverable(snap) && KeysFit(snap)
    requires WithdrawRouted(snap, start.routes)
    requires forall k :: 0 <= k < |snap.withdrawUsers| ==>
      !Ignored(start.minAmount, Get(snap.stakes, snap.withdrawUsers[k]))
    requires i < |snap.seedUsers| && Ignored(start.minAmount, Get(snap.targets, snap.seedUsers[i]))
    ensures Reachable(snap, start, s) && !StakesByKeys(snap, s.l)
  {
    hide Reachable, ApplyBatch, NoFailure, Books, Starts, Deliverable, ExpectedRoutes, StakesByKeys, Sendable, Progress;
    s := ReachSeeding(snap, start);
    s := PostAll(snap, start, s, SeedPhase);
    var seeds := SeedActions(snap);
    SeedsSendable(snap, s.l);
    BatchKeeps(snap, start, s.l, map[], seeds, 0);
    DeliverAll(snap, start, s, seeds);
    s := s.(l := ApplyBatch(s.l, seeds, 0));
    assert seeds[i] in seeds && SeedKey(snap, i) == seeds[i].key;
    assert s.l.minAmount == start.minAmount by { SameMinimum(start, s.l); }
    SeedWithoutEffect(snap, s.l, i);
  }

  lemma SeedsSendable(snap: Snapshot, l: Ledger)
    requires Deliverable(snap) && AllWithdrawn(snap, l.processed) && l.routes == ExpectedRoutes(snap.kind)
    ensures Sendable(snap, l, SeedActions(snap))
  {
    ExpectedRouteOf(snap.kind);
    forall a | a in SeedActions(snap) ensures Accepts(l.routes, a) {
      PlanAccepted(snap, a);
    }
  }

  lemma SameMinimum(start: Ledger, l: Ledger)
    requires Books(start, l, map[])
    ensures l.minAmount == start.minAmount
  {
  }

  /** A seed's key consumed, but its amount ignored: nothing is staked where the target should be. */
  lemma SeedWithoutEffect(snap: Snapshot, l: Ledger, i: nat)
    requires WellFormed(snap) && Progress(snap, l)
    requires AllWithdrawn(snap, l.processed) && WithdrawalsCount(snap, l.minAmount)
    requires i < |snap.seedUsers| && SeedKey(snap, i) in l.processed
    requires Ignored(l.minAmount, Get(snap.targets, snap.seedUsers[i]))
    ensures !StakesByKeys(snap, l)
  {
    var u := snap.seedUsers[i];
    assert IndexOf(snap.seedUsers, u) == i && u in snap.seedUsers && Seeded(snap, l.processed, u);
    ResidualGone(snap, l, u);
    assert l.Stake(u) == 0 && StakeByKeys(snap, l.processed, u) > 0;
  }

  ghost predicate AllRunsSafe(snap: Snapshot, start: Ledger) {
    forall s :: Reachable(snap, start, s) ==> StakesByKeys(snap, s.l)
  }

  // ----- when no withdrawal can land at all

  /** Every withdrawal reverts: its event has no action route, or one that a Position refuses. */
  ghost predicate Stalled(snap: Snapshot, start: Ledger) {
    var kind := RouteOf(start.routes, "Withdraw");
    && snap.withdrawUsers != []
    && (kind.None? || kind == Some(Transfer)
        || (kind == Some(Occurred)
            && forall i :: 0 <= i < |snap.withdrawUsers| ==>
              !Ignored(start.minAmount, Get(snap.stakes, snap.withdrawUsers[i]))))
  }

  /** Then no run gets past posting withdrawals: no pair is consumed and no stake moves. */
  ghost predicate Idle(snap: Snapshot, start: Ledger, s: State) {
    && s.l.stake == start.stake && s.l.totalStake == start.totalStake && s.l.processed == start.processed
    && s.l.routes == start.routes && s.l.minAmount == start.minAmount
    && TotalStakeZero !in s.seen && WithdrawsProcessed !in s.seen
    && forall a :: a in s.posted ==> a in WithdrawActions(snap)
  }

  lemma StalledStake(snap: Snapshot, start: Ledger)
    requires WellFormed(snap) && Starts(snap, start) && Stalled(snap, start)
    ensures start.totalStake > 0
  {
    var u := snap.withdrawUsers[0];
    assert u in snap.withdrawUsers && start.Stake(u) == Get(snap.stakes, u);
    SumAtLeast(start.stake, u);
  }

  lemma WithdrawalsRevert(snap: Snapshot, start: Ledger, l: Ledger, a: Action, now: nat)
    requires WellFormed(snap) && Starts(snap, start) && Stalled(snap, start) && a in WithdrawActions(snap)
    requires l.processed == start.processed && l.routes == start.routes && l.minAmount == start.minAmount
    ensures Apply(l, a, now).None?
  {
    var i :| 0 <= i < |snap.withdrawUsers| && WithdrawActions(snap)[i] == a;
    assert a.key !in start.processed;
  }

  lemma NeverObserved(snap: Snapshot, start: Ledger, s: State)
    requires WellFormed(snap) && Starts(snap, start) && Stalled(snap, start) && Idle(snap, start, s)
    ensures !Holds(snap, s, WithdrawsProcessed) && !Holds(snap, s, TotalStakeZero)
  {
    StalledStake(snap, start);
    var a := WithdrawActions(snap)[0];
    assert a in WithdrawActions(snap) && a.key == WithdrawKey(snap, 0);
  }

  lemma IdleStep(snap: Snapshot, start: Ledger, s: State, step: Step)
    requires WellFormed(snap) && Starts(snap, start) && Stalled(snap, start) && Idle(snap, start, s)
    requires Enabled(snap, s, step)
    ensures Idle(snap, start, After(snap, s, step))
  {
    hide WithdrawActions, MarkActions, SeedActions, Greedy, Stalled, Starts;
    NeverObserved(snap, start, s);
    match step
    case Post(phase, n) =>
      forall a | a in Greedy(Actions(snap, phase), snap.batchSize)[n - 1] ensures a in WithdrawActions(snap) {
        BatchIsPlanned(snap, phase, n - 1, a);
      }
    case Deliver(a, now) => WithdrawalsRevert(snap, start, s.l, a, now);
    case Observe(c) =>
    case Claiming(u, now) =>
    case OptIn =>
    case SetPaused(_) =>
    case SetRate(_, _) =>
    case MoveShares(_) =>
  }

  lemma {:induction false} StalledRuns(snap: Snapshot, start: Ledger, steps: seq<Step>)
    requires WellFormed(snap) && Starts(snap, start) && Stalled(snap, start)
    requires Run(snap, Initial(start), steps).Some?
    ensures Idle(snap, start, Run(snap, Initial(start), steps).value)
  {
    hide Idle, Enabled, Starts, WellFormed, Stalled;
    if steps != [] {
      var n := |steps| - 1;
      StalledRuns(snap, start, steps[..n]);
      IdleStep(snap, start, Run(snap, Initial(start), steps[..n]).value, steps[n]);
    } else {
      StartsIdle(snap, start);
    }
  }

  lemma StartsIdle(snap: Snapshot, start: Ledger)
    ensures Idle(snap, start, Initial(start))
  {
  }

  lemma IdleIsSafe(snap: Snapshot, start: Ledger, s: State)
    requires WellFormed(snap) && Starts(snap, start) && Idle(snap, start, s)
    ensures StakesByKeys(snap, s.l)
  {
    forall u ensures s.l.Stake(u) == StakeByKeys(snap, s.l.processed, u) {
      assert s.l.Stake(u) == start.Stake(u) == Get(snap.stakes, u);
      assert !Withdrawn(snap, s.l.processed, u) && !Seeded(snap, s.l.processed, u);
    }
  }

  lemma StalledIsSafe(snap: Snapshot, start: Ledger)
    requires WellFormed(snap) && Starts(snap, start) && Stalled(snap, start)
    ensures AllRunsSafe(snap, start)
  {
    forall s | Reachable(snap, start, s) ensures StakesByKeys(snap, s.l) {
      var steps :| Run(snap, Initial(start), steps) == Some(s);
      StalledRuns(snap, start, steps);
      IdleIsSafe(snap, start, s);
    }
  }

  lemma RoutedIsSafe(snap: Snapshot, start: Ledger)
    requires WellFormed(snap) && Starts(snap, start) && KeysFit(snap) && WithdrawLowers(snap, start.routes)
    requires AmountsCount(snap, start.minAmount)
    ensures AllRunsSafe(snap, start)
  {
    forall s | Reachable(snap, start, s) ensures StakesByKeys(snap, s.l) {
      var steps :| Run(snap, Initial(start), steps) == Some(s);
      EveryRunIsSafe(snap, start, steps);
    }
  }

  // ----- exactly when every run is safe

  /** What a caller can look up: how withdrawals are routed, and whether the amounts that can land count. */
  ghost predicate PlanCounts(snap: Snapshot, start: Ledger) {
    if WithdrawRouted(snap, start.routes) then AmountsCount(snap, start.minAmount) else Stalled(snap, start)
  }

  /**
   * Stakes follow the keys on every run exactly when withdrawals are routed as such and no planned
   * amount is below the activity's minimum, or when no withdrawal can land at all.
   */
  lemma SafeIffAmountsCount(snap: Snapshot, start: Ledger)
    requires WellFormed(snap) && Starts(snap, start) && Deliverable(snap) && KeysFit(snap)
    ensures AllRunsSafe(snap, start) <==> PlanCounts(snap, start)
  {
    hide WellFormed, Starts, Deliverable, KeysFit, Reachable, StakesByKeys, AllRunsSafe;
    FiveKinds(RouteOf(start.routes, "Withdraw"));
    if WithdrawRouted(snap, start.routes) {
      if AmountsCount(snap, start.minAmount) {
        RoutedIsSafe(snap, start);
      } else {
        AmountsMatter(snap, start);
      }
    } else if Stalled(snap, start) {
      StalledIsSafe(snap, start);
    } else if !WithdrawLowers(snap, start.routes) {
      var s := WithdrawalAsDeposit(snap, start);
      Unsafe(snap, start, s);
    } else {
      var i :| 0 <= i < |snap.withdrawUsers| && Ignored(start.minAmount, Get(snap.stakes, snap.withdrawUsers[i]));
      var s := IgnoredWithdrawal(snap, start, i);
      Unsafe(snap, start, s);
    }
  }

  lemma FiveKinds(kind: Option<ActionType>)
    ensures kind.None? || kind == Some(Deposit) || kind == Some(Withdraw) || kind == Some(Occurred) ||
      kind == Some(Transfer)
  {
    if kind.Some? {
      match kind.value case Deposit => case Withdraw => case Occurred => case Transfer =>
    }
  }

  lemma Unsafe(snap: Snapshot, start: Ledger, s: State)
    requires Reachable(snap, start, s) && !StakesByKeys(snap, s.l)
    ensures !AllRunsSafe(snap, start)
  {
  }

  lemma AmountsMatter(snap: Snapshot, start: Ledger)
    requires WellFormed(snap) && Starts(snap, start) && Deliverable(snap) && KeysFit(snap)
    requires WithdrawRouted(snap, start.routes) && !AmountsCount(snap, start.minAmount)
    ensures !AllRunsSafe(snap, start)
  {
    hide WellFormed, Starts, Deliverable, KeysFit, Reachable, StakesByKeys, AllRunsSafe;
    if i :| 0 <= i < |snap.withdrawUsers| && Ignored(start.minAmount, Get(snap.stakes, snap.withdrawUsers[i])) {
      var s := IgnoredWithdrawal(snap, start, i);
      Unsafe(snap, start, s);
    } else {
      var i :| 0 <= i < |snap.seedUsers| && Ignored(start.minAmount, Get(snap.targets, snap.seedUsers[i]));
      var s := IgnoredSeed(snap, start, i);
      Unsafe(snap, start, s);
    }
  }

  /** Amounts and keys being fine, exactly when withdrawing is not routed as depositing. */
  lemma SafeIffWithdrawLowers(snap: Snapshot, start: Ledger)
    requires WellFormed(snap) && Starts(snap, start) && Deliverable(snap) && KeysFit(snap)
    requires AmountsCount(snap, start.minAmount)
    ensures AllRunsSafe(snap, start) <==> WithdrawLowers(snap, start.routes)
  {
    FiveKinds(RouteOf(start.routes, "Withdraw"));
    SafeIffAmountsCount(snap, start);
  }

  /** Amounts being fine, exactly when withdrawing lowers stakes and, where it can land, leaves the seed keys free. */
  lemma SafeIffKeysFit(snap: Snapshot, start: Ledger)
    requires WellFormed(snap) && Starts(snap, start) && Deliverable(snap) && AmountsCount(snap, start.minAmount)
    ensures AllRunsSafe(snap, start) <==>
      WithdrawLowers(snap, start.routes) && (WithdrawRouted(snap, start.routes) ==> KeysFit(snap))
  {
    hide WellFormed, Starts, Deliverable, Reachable, StakesByKeys, AllRunsSafe;
    FiveKinds(RouteOf(start.routes, "Withdraw"));
    if !WithdrawLowers(snap, start.routes) {
      var s := WithdrawalAsDeposit(snap, start);
      Unsafe(snap, start, s);
    } else if !WithdrawRouted(snap, start.routes) {
      StalledIsSafe(snap, start);
    } else if KeysFit(snap) {
      RoutedIsSafe(snap, start);
    } else {
      var s := TooManyWithdrawals(snap, start);
      Unsafe(snap, start, s);
    }
  }
}
