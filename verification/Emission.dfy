/** What the rewards add up to: nobody is ever paid or owed more than was emitted. */
module Emission {
  import opened Arithmetic
  import opened Batches
  import opened Options
  import opened Reconcile
  import opened ReconcileRuns
  import opened Rewards
  import opened Sums

  /** Over a span the index takes the emitted reward per staked unit, rounded down; nothing without stake or time. */
  lemma AccrualLaw(l: Ledger, now: nat)
    ensures var r := Accrue(l, now);
      && (now <= l.lastUpdate ==> r == l)
      && (now > l.lastUpdate && l.totalStake == 0 ==> r == l.(lastUpdate := now))
      && (now > l.lastUpdate && l.totalStake > 0 ==>
            && r == l.(acc := r.acc, lastUpdate := now) && r.acc >= l.acc
            && var reward := l.emissionRate * (now - l.lastUpdate) * PRECISION_MULTIPLIER;
               (r.acc - l.acc) * l.totalStake <= reward < (r.acc - l.acc + 1) * l.totalStake)
  {
    if now > l.lastUpdate && l.totalStake > 0 {
      var reward: nat := l.emissionRate * (now - l.lastUpdate);
      DivisionBounds(reward * PRECISION_MULTIPLIER, l.totalStake);
    }
  }

  // ----- what all users are owed, to the fraction of a unit

  /** Unclaimed and pending rewards of a user before any rounding. */
  function Due(l: Ledger, u: Addr): nat {
    Get(l.unclaimed, u) * PRECISION_MULTIPLIER
    + if Get(l.index, u) <= l.acc then l.Stake(u) * (l.acc - Get(l.index, u)) else 0
  }

  lemma DueIsEarned(l: Ledger, u: Addr)
    ensures PRECISION_MULTIPLIER * l.Earned(u) <= Due(l, u) < PRECISION_MULTIPLIER * l.Earned(u) + PRECISION_MULTIPLIER
    ensures l.Stake(u) == 0 ==> Due(l, u) == PRECISION_MULTIPLIER * l.Earned(u)
  {
    if Get(l.index, u) <= l.acc {
      DivisionBounds(l.Stake(u) * (l.acc - Get(l.index, u)), PRECISION_MULTIPLIER);
    }
  }

  ghost function Dues(l: Ledger): map<Addr, nat> { map u | u in l.stake.Keys + l.unclaimed.Keys :: Due(l, u) }

  ghost function Owed(l: Ledger): nat { Sum(Dues(l)) }

  lemma DuesAt(l: Ledger)
    ensures forall u :: Get(Dues(l), u) == Due(l, u)
  {
    forall u ensures Get(Dues(l), u) == Due(l, u) {
      if u !in l.stake && u !in l.unclaimed {
        assert l.Stake(u) == 0 && Get(l.unclaimed, u) == 0;
      }
    }
  }

  lemma SameOwed(l: Ledger, r: Ledger)
    requires forall u :: Due(r, u) == Due(l, u)
    ensures Owed(r) == Owed(l)
  {
    DuesAt(l);
    DuesAt(r);
    SumExtensional(Dues(l), Dues(r));
  }

  lemma OneUserOwed(l: Ledger, r: Ledger, u: Addr)
    requires forall v :: v != u ==> Due(r, v) == Due(l, v)
    ensures Owed(r) == Owed(l) - Due(l, u) + Due(r, u)
  {
    hide Due;
    DuesAt(l);
    DuesAt(r);
    SumUpdate(Dues(l), u, Due(r, u));
    SumExtensional(Dues(r), Dues(l)[u := Due(r, u)]);
  }

  // ----- accrual

  function Times(m: map<Addr, nat>, k: nat): map<Addr, nat> { map u | u in m :: m[u] * k }

  lemma {:induction false} SumTimes(m: map<Addr, nat>, k: nat)
    ensures Sum(Times(m, k)) == Sum(m) * k
    decreases |m|
  {
    hide Times, Sum;
    if m == map[] {
      NothingTimes(k);
    } else {
      var u :| u in m;
      TimesDrop(m, k, u);
      SumRemove(m, u);
      SumRemove(Times(m, k), u);
      SumTimes(m - {u}, k);
      Distribute(m[u], Sum(m - {u}), k);
    }
  }

  lemma NothingTimes(k: nat)
    ensures Sum(Times(map[], k)) == 0 && Sum<Addr>(map[]) == 0
  {
    assert Times(map[], k) == map[];
  }

  lemma TimesDrop(m: map<Addr, nat>, k: nat, u: Addr)
    requires u in m
    ensures u in Times(m, k) && Times(m, k)[u] == m[u] * k && Times(m, k) - {u} == Times(m - {u}, k)
  {
  }

  /** An index rise owes every staker its stake times the rise: the whole stake times the rise in all. */
  lemma RiseOwes(l: Ledger, r: Ledger)
    requires r == l.(acc := r.acc, lastUpdate := r.lastUpdate) && l.acc <= r.acc
    requires l.totalStake == Sum(l.stake) && forall u :: Get(l.index, u) <= l.acc
    ensures Owed(r) == Owed(l) + l.totalStake * (r.acc - l.acc)
  {
    var rise := r.acc - l.acc;
    forall u ensures Get(Dues(r), u) == Get(Dues(l), u) + Get(Times(l.stake, rise), u) {
      DuesAt(l);
      DuesAt(r);
      DueRises(l, r, u);
    }
    SumPointwise(Dues(l), Times(l.stake, rise), Dues(r));
    SumTimes(l.stake, rise);
  }

  lemma DueRises(l: Ledger, r: Ledger, u: Addr)
    requires r == l.(acc := r.acc, lastUpdate := r.lastUpdate) && l.acc <= r.acc && Get(l.index, u) <= l.acc
    ensures Due(r, u) == Due(l, u) + Get(Times(l.stake, r.acc - l.acc), u)
  {
    var a, b := l.acc - Get(l.index, u), r.acc - l.acc;
    Distribute(a, b, l.Stake(u));
  }

  /** An accrual owes what was emitted, short of it by less than the stake in fractions of a unit, and never more. */
  lemma AccrueOwes(l: Ledger, now: nat)
    requires Books(l, l, map[])
    ensures var r := Accrue(l, now); var emitted := l.emissionRate * (r.lastUpdate - l.lastUpdate);
      && r.lastUpdate >= l.lastUpdate && emitted >= 0
      && Owed(r) <= Owed(l) + PRECISION_MULTIPLIER * emitted
      && (l.totalStake > 0 ==> Owed(l) + PRECISION_MULTIPLIER * emitted < Owed(r) + l.totalStake)
  {
    hide Owed;
    var r := Accrue(l, now);
    AccrualLaw(l, now);
    RiseOwes(l, r);
    assert l.emissionRate * (r.lastUpdate - l.lastUpdate) >= 0 by {
      Scale(0, l.emissionRate, r.lastUpdate - l.lastUpdate);
    }
    if now > l.lastUpdate && l.totalStake > 0 {
      Distribute(r.acc - l.acc, 1, l.totalStake);
    }
  }

  // ----- the other steps of the contract owe nobody more

  lemma SettleOwes(l: Ledger, u: Addr)
    requires Settle(l, u).Some? && Get(l.index, u) <= l.acc
    ensures var s := Settle(l, u).value;
      Owed(s) <= Owed(l) < Owed(s) + PRECISION_MULTIPLIER
  {
    var s := Settle(l, u).value;
    SettleKeepsEarned(l, u);
    DueIsEarned(l, u);
    assert forall v :: v != u ==> Due(s, v) == Due(l, v);
    if l.Stake(u) > 0 {
      assert l.Stake(u) * (s.acc - Get(s.index, u)) == 0;
      assert s.Pending(u) == 0;
    }
    OneUserOwed(l, s, u);
  }

  lemma RestakeOwes(l: Ledger, u: Addr, newStake: nat)
    requires Restake(l, u, newStake).Some? && (l.Stake(u) == 0 || Get(l.index, u) == l.acc)
    ensures Owed(Restake(l, u, newStake).value) == Owed(l)
  {
    var r := Restake(l, u, newStake).value;
    forall v ensures Due(r, v) == Due(l, v) {
      if v == u {
        assert newStake * (r.acc - Get(r.index, u)) == 0;
        assert Get(l.index, u) <= l.acc ==> l.Stake(u) * (l.acc - Get(l.index, u)) == 0;
      }
    }
    SameOwed(l, r);
  }

  lemma MoveOwes(l: Ledger, a: Action)
    requires a.user != a.recipient
    requires l.Stake(a.user) == 0 || Get(l.index, a.user) == l.acc
    requires l.Stake(a.recipient) == 0 || Get(l.index, a.recipient) == l.acc
    ensures Owed(MoveStake(l, a)) == Owed(l)
  {
    var r := MoveStake(l, a);
    forall v ensures Due(r, v) == Due(l, v) {
      if v == a.user || v == a.recipient {
        SettledDue(l, v);
        SettledDue(r, v);
      }
    }
    SameOwed(l, r);
  }

  lemma SettledDue(l: Ledger, u: Addr)
    requires l.Stake(u) == 0 || Get(l.index, u) == l.acc
    ensures Due(l, u) == Get(l.unclaimed, u) * PRECISION_MULTIPLIER
  {
  }

  /** What accrues and settles, in the order the contract does. */
  lemma SettledAccrualOwes(l: Ledger, u: Addr, now: nat)
    requires Books(l, l, map[])
    ensures var s := Settle(Accrue(l, now), u);
      && s.Some? && s.value.emissionRate == l.emissionRate && s.value.lastUpdate >= l.lastUpdate
      && l.emissionRate * (s.value.lastUpdate - l.lastUpdate) >= 0
      && Owed(s.value) <= Owed(l) + PRECISION_MULTIPLIER * (l.emissionRate * (s.value.lastUpdate - l.lastUpdate))
  {
    hide Owed, Accrue, Settle, Books;
    AccrueOwes(l, now);
    IndicesBelow(l, now, u);
    SettleSound(l, u, now);
    SettleKeepsEarned(Accrue(l, now), u);
    SettleOwes(Accrue(l, now), u);
  }

  lemma IndicesBelow(l: Ledger, now: nat, u: Addr)
    requires Books(l, l, map[])
    ensures Get(l.index, u) <= l.acc && Get(Accrue(l, now).index, u) <= Accrue(l, now).acc
    ensures Accrue(l, now).emissionRate == l.emissionRate
  {
  }

  /** The reward emitted over the time a step of the contract accounts for, at the rate in force. */
  function EmittedBetween(l: Ledger, r: Ledger): int { l.emissionRate * (r.lastUpdate - l.lastUpdate) }

  /** From l to r no more came to be owed than was emitted. */
  ghost predicate OwesNoMore(l: Ledger, r: Ledger) {
    && r.lastUpdate >= l.lastUpdate && EmittedBetween(l, r) >= 0
    && Owed(r) <= Owed(l) + PRECISION_MULTIPLIER * EmittedBetween(l, r)
  }

  lemma MarkOwes(l: Ledger, processed: set<Key>)
    requires Books(l, l, map[])
    ensures var marked := l.(processed := processed);
      Books(marked, marked, map[]) && Owed(marked) == Owed(l) && OwesNoMore(l, marked)
  {
    var marked := l.(processed := processed);
    assert forall u :: marked.Earned(u) == l.Earned(u);
    SameOwed(l, marked);
  }

  lemma MovedActionOwes(l: Ledger, u: Addr, newStake: nat, now: nat)
    requires Books(l, l, map[]) && Settle(Accrue(l, now), u).Some?
    requires Restake(Settle(Accrue(l, now), u).value, u, newStake).Some?
    ensures OwesNoMore(l, Restake(Settle(Accrue(l, now), u).value, u, newStake).value)
  {
    hide Owed, Accrue, Settle, Books;
    IndicesBelow(l, now, u);
    SettleSound(l, u, now);
    SettledAccrualOwes(l, u, now);
    RestakeOwes(Settle(Accrue(l, now), u).value, u, newStake);
  }

  lemma MovedTransferOwes(l: Ledger, a: Action, now: nat)
    requires Books(l, l, map[]) && a.user != a.recipient && TransferStake(l, a, now).Some?
    ensures OwesNoMore(l, TransferStake(l, a, now).value)
  {
    hide Owed, Accrue, Settle, Books, MoveStake;
    IndicesBelow(l, now, a.user);
    IndicesBelow(l, now, a.recipient);
    SettleSound(l, a.user, now);
    SettledAccrualOwes(l, a.user, now);
    var grown := Accrue(l, now);
    SettleKeepsEarned(grown, a.user);
    var one := Settle(grown, a.user).value;
    AccrueTwice(l, one, now);
    SettleKeepsEarned(one, a.recipient);
    SettleOwes(one, a.recipient);
    var both := Settle(one, a.recipient).value;
    MoveOwes(both, a);
    MoveMeans(both, a);
  }

  /** Whatever action the contract takes, known or new, of a plan or not. */
  lemma ApplyOwes(l: Ledger, a: Action, now: nat)
    requires Books(l, l, map[]) && Apply(l, a, now).Some?
    ensures OwesNoMore(l, Apply(l, a, now).value)
  {
    hide Owed, Accrue, Settle, Books, Restake, TransferStake;
    var marked := l.(processed := l.processed + {a.key});
    MarkOwes(l, l.processed + {a.key});
    MarkOwes(l, l.processed);
    if a.key !in l.processed && !Ignored(l.minAmount, a.amount) {
      if a.call == HandleAction {
        var settled := Settle(Accrue(marked, now), a.user).value;
        var kind := RouteOf(l.routes, a.eventName).value;
        MovedActionOwes(marked, a.user, Moved(kind, settled.Stake(a.user), a.amount), now);
      } else if a.user != a.recipient {
        MovedTransferOwes(marked, a, now);
      }
    }
  }

  /** A claim pays its user what it takes from the books. */
  lemma ClaimOwes(l: Ledger, u: Addr, now: nat)
    requires Books(l, l, map[]) && Claim(l, u, now).Some?
    ensures var r := Claim(l, u, now).value; var paid := Get(Settle(Accrue(l, now), u).value.unclaimed, u);
      && r.lastUpdate >= l.lastUpdate && EmittedBetween(l, r) >= 0
      && Owed(r) + PRECISION_MULTIPLIER * paid <= Owed(l) + PRECISION_MULTIPLIER * EmittedBetween(l, r)
  {
    hide Owed, Accrue, Settle, Books;
    SettledAccrualOwes(l, u, now);
    var settled := Settle(Accrue(l, now), u).value;
    var r := Claim(l, u, now).value;
    OneUserOwed(settled, r, u);
  }

  // ----- in whole units

  ghost function Earnings(l: Ledger): map<Addr, nat> { map u | u in l.stake.Keys + l.unclaimed.Keys :: l.Earned(u) }

  /** What rounding holds back from each user: less than a unit, and only from stakers. */
  ghost function Dust(l: Ledger): map<Addr, nat> {
    map u | u in l.stake :: (DueIsEarned(l, u); Due(l, u) - PRECISION_MULTIPLIER * l.Earned(u))
  }

  lemma {:induction false} SumBelow(m: map<Addr, nat>, bound: nat)
    requires forall u :: u in m ==> m[u] <= bound
    ensures Sum(m) <= bound * |m|
    decreases |m|
  {
    hide Sum;
    if m == map[] {
      NothingTimes(0);
      assert |m| == 0;
    } else {
      var u :| u in m;
      SumRemove(m, u);
      OneLess(m, u);
      SumBelow(m - {u}, bound);
      OneMoreBelow(m[u], Sum(m - {u}), |m - {u}|, bound);
    }
  }

  lemma OneMoreBelow(a: nat, rest: nat, n: nat, bound: nat)
    requires a <= bound && rest <= bound * n
    ensures a + rest <= bound * (n + 1)
  {
  }

  lemma OneLess(m: map<Addr, nat>, u: Addr)
    requires u in m
    ensures |m - {u}| + 1 == |m| && forall v :: v in m - {u} ==> v in m && (m - {u})[v] == m[v]
  {
    assert (m - {u}).Keys == m.Keys - {u};
  }

  /** All users' due rewards are their earned ones, up to less than a unit for each staker. */
  lemma OwedIsEarned(l: Ledger)
    ensures PRECISION_MULTIPLIER * Sum(Earnings(l)) <= Owed(l)
    ensures Owed(l) <= PRECISION_MULTIPLIER * Sum(Earnings(l)) + (PRECISION_MULTIPLIER - 1) * |l.stake|
  {
    hide Due, Sum, Times, Dues, Earnings;
    var scaled := Times(Earnings(l), PRECISION_MULTIPLIER);
    forall u ensures Get(Dues(l), u) == Get(scaled, u) + Get(Dust(l), u) {
      DuesAt(l);
      DueIsEarned(l, u);
      EarningsAt(l, u);
      DustAt(l, u);
    }
    SumPointwise(scaled, Dust(l), Dues(l));
    SumTimes(Earnings(l), PRECISION_MULTIPLIER);
    forall u | u in Dust(l) ensures Dust(l)[u] <= PRECISION_MULTIPLIER - 1 { DueIsEarned(l, u); }
    SumBelow(Dust(l), PRECISION_MULTIPLIER - 1);
    assert |Dust(l)| == |l.stake| by { assert Dust(l).Keys == l.stake.Keys; }
  }

  lemma DustAt(l: Ledger, u: Addr)
    ensures Get(Dust(l), u) == Due(l, u) - PRECISION_MULTIPLIER * l.Earned(u)
  {
    DueIsEarned(l, u);
  }

  lemma EarningsAt(l: Ledger, u: Addr)
    ensures Get(Earnings(l), u) == l.Earned(u)
    ensures Get(Times(Earnings(l), PRECISION_MULTIPLIER), u) == PRECISION_MULTIPLIER * l.Earned(u)
  {
    if u !in l.stake && u !in l.unclaimed { assert l.Earned(u) == 0; }
  }

  /** Over all users an accrual earns at most what was emitted, and one unit a staker where rounding held some back. */
  lemma AccruedInAll(l: Ledger, now: nat)
    requires Books(l, l, map[])
    ensures var r := Accrue(l, now);
      Sum(Earnings(r)) <= Sum(Earnings(l)) + l.emissionRate * (r.lastUpdate - l.lastUpdate) + |l.stake|
  {
    hide Owed, Earnings, Accrue;
    AccrueOwes(l, now);
    OwedIsEarned(l);
    OwedIsEarned(Accrue(l, now));
  }

  // ----- over every run

  ghost function EmittedOver(snap: Snapshot, s: State, steps: seq<Step>): int {
    if steps == [] then 0
    else
      var n := |steps| - 1;
      var before := Run(snap, s, steps[..n]);
      EmittedOver(snap, s, steps[..n])
      + if before.Some? && Enabled(snap, before.value, steps[n])
        then EmittedBetween(before.value.l, After(snap, before.value, steps[n]).l) else 0
  }

  lemma RateOwes(l: Ledger, rate: nat, now: nat)
    requires Books(l, l, map[])
    ensures OwesNoMore(l, Accrue(l, now).(emissionRate := rate))
  {
    AccrueOwes(l, now);
    SameOwed(Accrue(l, now), Accrue(l, now).(emissionRate := rate));
  }

  /** One step owes and pays no more than was emitted meanwhile. */
  lemma StepOwes(snap: Snapshot, s: State, step: Step)
    requires Books(s.l, s.l, map[]) && Enabled(snap, s, step)
    ensures var t := After(snap, s, step);
      && EmittedBetween(s.l, t.l) >= 0
      && Owed(t.l) + PRECISION_MULTIPLIER * Sum(t.paid)
           <= Owed(s.l) + PRECISION_MULTIPLIER * (Sum(s.paid) + EmittedBetween(s.l, t.l))
  {
    hide Owed, Accrue, Settle, Books, Apply, Sum;
    match step
    case Deliver(a, now) => ApplyOwes(s.l, a, now);
    case Claiming(u, now) =>
      ClaimOwes(s.l, u, now);
      SumUpdate(s.paid, u, Get(s.paid, u) + Get(Settle(Accrue(s.l, now), u).value.unclaimed, u));
    case OptIn => SameOwed(s.l, After(snap, s, step).l);
    case SetRate(rate, now) => RateOwes(s.l, rate, now);
    case Observe(_) =>
    case Post(_, _) =>
    case SetPaused(_) =>
    case MoveShares(_) =>
  }

  lemma {:induction false} RunOwes(snap: Snapshot, start: Ledger, steps: seq<Step>)
    requires WellFormed(snap) && KeysFit(snap) && Starts(snap, start) && WithdrawLowers(snap, start.routes)
    requires Run(snap, Initial(start), steps).Some?
    ensures var s := Run(snap, Initial(start), steps).value;
      Owed(s.l) + PRECISION_MULTIPLIER * Sum(s.paid)
        <= Owed(start) + PRECISION_MULTIPLIER * EmittedOver(snap, Initial(start), steps)
  {
    hide Owed, Enabled, After, Starts, WellFormed, KeysFit, WithdrawLowers, EmittedBetween;
    if steps == [] {
      NothingPaid();
    } else {
      var n := |steps| - 1;
      RunOwes(snap, start, steps[..n]);
      RunKeeps(snap, start, steps[..n]);
      var before := Run(snap, Initial(start), steps[..n]).value;
      SystemBooks(snap, start, before);
      StepOwes(snap, before, steps[n]);
    }
  }

  lemma NothingPaid()
    ensures Sum<Addr>(map[]) == 0
  {
  }

  lemma SystemBooks(snap: Snapshot, start: Ledger, s: State)
    requires SystemInv(snap, start, s)
    ensures Books(s.l, s.l, map[])
  {
    BooksSelf(start, s.l, s.paid);
  }

  /**
   * However many operators, deliveries, claims and rate changes there are, what was paid and what is
   * earned together exceed what had been earned before by no more than was emitted since, and one
   * unit a staker where rounding had held some back.
   */
  lemma PaidAtMostEmitted(snap: Snapshot, start: Ledger, steps: seq<Step>)
    requires WellFormed(snap) && KeysFit(snap) && Starts(snap, start) && WithdrawLowers(snap, start.routes)
    requires Run(snap, Initial(start), steps).Some?
    ensures var s := Run(snap, Initial(start), steps).value;
      Sum(Earnings(s.l)) + Sum(s.paid)
        <= Sum(Earnings(start)) + EmittedOver(snap, Initial(start), steps) + |start.stake|
  {
    hide Owed, Earnings, Run, EmittedOver;
    RunOwes(snap, start, steps);
    OwedIsEarned(start);
    OwedIsEarned(Run(snap, Initial(start), steps).value.l);
  }
}
