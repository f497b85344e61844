/**
 * The Rewards contract as seen by one Position activity: an event key set that
 * never shrinks, stakes, the reward index and the rewards settled from it.
 */
module Rewards {
  import opened Batches
  import opened Options
  import opened Sums

  datatype ActionType = Deposit | Withdraw | Occurred | Transfer

  datatype Route = Route(eventName: string, actionType: ActionType)

  const PRECISION_MULTIPLIER: nat := 1_000_000_000_000_000_000

  datatype Ledger = Ledger(
    processed: set<Key>,
    stake: map<Addr, nat>,
    index: map<Addr, nat>,
    unclaimed: map<Addr, nat>,
    totalStake: nat,
    acc: nat,
    lastUpdate: nat,
    emissionRate: nat,
    minAmount: nat,
    routes: seq<Route>,
    maxBatchSize: nat)
  {
    function Stake(u: Addr): nat { Get(stake, u) }

    /** The part of the index a user has not been settled for, times the stake. */
    function Pending(u: Addr): nat {
      if Get(index, u) <= acc then Stake(u) * (acc - Get(index, u)) / PRECISION_MULTIPLIER else 0
    }

    /** What a user could claim now if the index stood still. */
    function Earned(u: Addr): nat { Get(unclaimed, u) + Pending(u) }
  }

  /** Routes are registered in order, so a later one with the same name wins. */
  function RouteOf(routes: seq<Route>, name: string): Option<ActionType> {
    if routes == [] then None
    else
      var last := routes[|routes| - 1];
      if last.eventName == name then Some(last.actionType) else RouteOf(routes[..|routes| - 1], name)
  }

  /** Index growth over a time span: the reward emitted, spread over the stake. */
  function IndexGain(rate: nat, elapsed: nat, totalStake: nat): nat
    requires totalStake > 0
  {
    var reward: nat := rate * elapsed;
    reward * PRECISION_MULTIPLIER / totalStake
  }

  function Accrue(l: Ledger, now: nat): Ledger {
    if now <= l.lastUpdate then l
    else if l.totalStake == 0 then l.(lastUpdate := now)
    else
      l.(acc := l.acc + IndexGain(l.emissionRate, now - l.lastUpdate, l.totalStake), lastUpdate := now)
  }

  /** Pay the pending rewards into the unclaimed balance and move the user's index up. */
  function Settle(l: Ledger, u: Addr): Option<Ledger> {
    if l.Stake(u) == 0 then Some(l)
    else if l.acc < Get(l.index, u) then None
    else
      var paid := if l.Pending(u) > 0 then l.unclaimed[u := Get(l.unclaimed, u) + l.Pending(u)] else l.unclaimed;
      Some(l.(unclaimed := paid, index := l.index[u := l.acc]))
  }

  /** Give a settled user a new stake. */
  function Restake(l: Ledger, u: Addr, newStake: nat): Option<Ledger> {
    if l.totalStake + newStake < l.Stake(u) then None
    else Some(l.(stake := l.stake[u := newStake], index := l.index[u := l.acc],
                 totalStake := l.totalStake + newStake - l.Stake(u)))
  }

  /** Below the activity's minimum an event is consumed without moving any stake. */
  predicate Ignored(minAmount: nat, amount: nat) {
    amount == 0 || (minAmount > 0 && amount < minAmount)
  }

  /** Deposits add; a withdrawal larger than the stake stops at zero. */
  function Moved(kind: ActionType, held: nat, amount: nat): nat {
    if kind == Deposit then held + amount else if held >= amount then held - amount else 0
  }

  /** One action for a Position activity; None is a revert, which leaves no trace. */
  function ApplyAction(l: Ledger, a: Action, now: nat): Option<Ledger> {
    var kind := RouteOf(l.routes, a.eventName);
    if kind.None? || kind.value == Transfer || a.user == 0 then None
    else if a.key in l.processed then Some(l)
    else
      var marked := l.(processed := l.processed + {a.key});
      if Ignored(l.minAmount, a.amount) then Some(marked)
      else if kind.value == Occurred then None
      else
        var settled := Settle(Accrue(marked, now), a.user);
        if settled.None? then None
        else Restake(settled.value, a.user, Moved(kind.value, settled.value.Stake(a.user), a.amount))
  }

  function ApplyTransfer(l: Ledger, a: Action, now: nat): Option<Ledger> {
    if RouteOf(l.routes, a.eventName) != Some(Transfer) || a.user == 0 || a.recipient == 0 then None
    else if a.key in l.processed then Some(l)
    else
      var marked := l.(processed := l.processed + {a.key});
      if a.user == a.recipient || Ignored(l.minAmount, a.amount) then Some(marked)
      else
        TransferStake(marked, a, now)
  }

  /** Settle both users at the same index, then move the stake. */
  function TransferStake(l: Ledger, a: Action, now: nat): Option<Ledger> {
    var one := Settle(Accrue(l, now), a.user);
    if one.None? then None
    else
      var both := Settle(Accrue(one.value, now), a.recipient);
      if both.None? then None else Some(MoveStake(both.value, a))
  }

  function Lesser(a: nat, b: nat): nat { if a < b then a else b }

  /** Move at most the sender's stake; the total is left alone. */
  function MoveStake(l: Ledger, a: Action): Ledger {
    var moved := Lesser(a.amount, l.Stake(a.user));
    l.(stake := l.stake[a.user := l.Stake(a.user) - moved][a.recipient := l.Stake(a.recipient) + moved],
       index := l.index[a.user := l.acc][a.recipient := l.acc])
  }

  function Apply(l: Ledger, a: Action, now: nat): Option<Ledger> {
    if a.call == HandleAction then ApplyAction(l, a, now) else ApplyTransfer(l, a, now)
  }

  /** A batch goes on after a failed action, which changes nothing. */
  function ApplyBatch(l: Ledger, batch: Batch, now: nat): Ledger {
    if batch == [] then l
    else
      var before := ApplyBatch(l, batch[..|batch| - 1], now);
      var step := Apply(before, batch[|batch| - 1], now);
      if step.Some? then step.value else before
  }

  /** Actions take effect one after the other, and one that fails is as if it were not there. */
  lemma {:induction false} BatchInOrder(l: Ledger, batch: Batch, rest: Batch, now: nat)
    ensures ApplyBatch(l, batch + rest, now) == ApplyBatch(ApplyBatch(l, batch, now), rest, now)
    ensures |rest| == 1 ==>
      ApplyBatch(l, rest, now) == if Apply(l, rest[0], now).Some? then Apply(l, rest[0], now).value else l
  {
    hide Apply;
    if rest == [] {
      assert batch + rest == batch;
    } else {
      var n := |rest| - 1;
      BatchInOrder(l, batch, rest[..n], now);
      assert (batch + rest)[..|batch + rest| - 1] == batch + rest[..n];
    }
  }

  predicate LastAt(routes: seq<Route>, name: string, kind: ActionType, i: int) {
    && 0 <= i < |routes| && routes[i] == Route(name, kind)
    && forall j :: i < j < |routes| ==> routes[j].eventName != name
  }

  /** The last route of a name decides. */
  lemma {:induction false} RouteOfLast(routes: seq<Route>, name: string, kind: ActionType)
    ensures RouteOf(routes, name) == Some(kind) <==> exists i :: LastAt(routes, name, kind, i)
  {
    if routes != [] {
      var n := |routes| - 1;
      RouteOfLast(routes[..n], name, kind);
      LastAtFront(routes[..n], routes[n], name, kind);
      assert routes == routes[..n] + [routes[n]];
    }
  }

  lemma LastAtFront(front: seq<Route>, last: Route, name: string, kind: ActionType)
    ensures forall i :: i < |front| ==>
      (LastAt(front + [last], name, kind, i) <==> LastAt(front, name, kind, i) && last.eventName != name)
    ensures LastAt(front + [last], name, kind, |front|) <==> last == Route(name, kind)
  {
    var all := front + [last];
    assert all[|front|] == last && forall j :: 0 <= j < |front| ==> all[j] == front[j];
  }

  predicate NoFailure(l: Ledger, batch: Batch, now: nat) {
    batch == [] ||
    var shorter := batch[..|batch| - 1];
    NoFailure(l, shorter, now) && Apply(ApplyBatch(l, shorter, now), batch[|batch| - 1], now).Some?
  }

  /** Claiming settles the user and empties the unclaimed balance. */
  function Claim(l: Ledger, u: Addr, now: nat): Option<Ledger> {
    match Settle(Accrue(l, now), u)
    case None => None
    case Some(settled) =>
      if Get(settled.unclaimed, u) == 0 then None else Some(settled.(unclaimed := settled.unclaimed[u := 0]))
  }

  predicate PositionRoutes(routes: seq<Route>) {
    routes != [] && forall i :: 0 <= i < |routes| ==> routes[i].actionType != Occurred
  }

  /** No event name of the routes is registered to another activity of the same source. */
  predicate NamesFree(routes: seq<Route>, foreign: set<string>) {
    forall i :: 0 <= i < |routes| ==> routes[i].eventName !in foreign
  }

  // ----- what a transfer that is not ignored does

  /** The pair is new and the transfer is neither to oneself nor ignored. */
  predicate MovesStake(l: Ledger, a: Action) {
    a.key !in l.processed && a.user != a.recipient && !Ignored(l.minAmount, a.amount)
  }

  /**
   * At most the sender's stake changes hands and nobody else's; the total and
   * the sum of stakes stand; both users end settled at one index; and all that
   * anybody has earned by now is kept.
   */
  ghost predicate Transferred(l: Ledger, r: Ledger, a: Action, now: nat) {
    var moved := Lesser(a.amount, l.Stake(a.user));
    && r.processed == l.processed + {a.key}
    && r.totalStake == l.totalStake && Sum(r.stake) == Sum(l.stake)
    && r.Stake(a.user) == l.Stake(a.user) - moved
    && r.Stake(a.recipient) == l.Stake(a.recipient) + moved
    && (forall v :: v != a.user && v != a.recipient ==> r.Stake(v) == l.Stake(v))
    && Get(r.index, a.user) == Get(r.index, a.recipient) == r.acc == Accrue(l, now).acc
    && forall v :: r.Earned(v) == Accrue(l, now).Earned(v)
  }

  /** Settling pays out exactly what was pending. */
  lemma SettleKeepsEarned(l: Ledger, u: Addr)
    requires Settle(l, u).Some?
    ensures var s := Settle(l, u).value;
      && s == l.(unclaimed := s.unclaimed, index := s.index)
      && (l.Stake(u) > 0 ==> Get(s.index, u) == l.acc)
      && (forall v :: v != u ==> Get(s.index, v) == Get(l.index, v))
      && forall v :: s.Earned(v) == l.Earned(v)
  {
    var s := Settle(l, u).value;
    forall v ensures s.Earned(v) == l.Earned(v) {
      if v == u && l.Stake(u) > 0 {
        assert s.Pending(u) == l.Stake(u) * 0 / PRECISION_MULTIPLIER == 0;
      }
    }
  }

  lemma AccrueMarked(l: Ledger, processed: set<Key>, now: nat)
    ensures var grown, marked := Accrue(l, now), Accrue(l.(processed := processed), now);
      && marked == grown.(processed := processed)
      && grown == l.(acc := grown.acc, lastUpdate := grown.lastUpdate)
      && forall v :: marked.Earned(v) == grown.Earned(v)
  {
    var grown, marked := Accrue(l, now), Accrue(l.(processed := processed), now);
    assert marked == grown.(processed := processed);
  }

  lemma AccrueTwice(l: Ledger, s: Ledger, now: nat)
    requires s == Accrue(l, now).(unclaimed := s.unclaimed, index := s.index)
    ensures Accrue(s, now) == s
  {
  }

  lemma MoveMeans(l: Ledger, a: Action)
    requires a.user != a.recipient
    requires l.Stake(a.user) == 0 || Get(l.index, a.user) == l.acc
    requires l.Stake(a.recipient) == 0 || Get(l.index, a.recipient) == l.acc
    ensures var r, moved := MoveStake(l, a), Lesser(a.amount, l.Stake(a.user));
      && r == l.(stake := r.stake, index := r.index) && Sum(r.stake) == Sum(l.stake)
      && r.Stake(a.user) == l.Stake(a.user) - moved && r.Stake(a.recipient) == l.Stake(a.recipient) + moved
      && (forall v :: v != a.user && v != a.recipient ==> r.Stake(v) == l.Stake(v))
      && Get(r.index, a.user) == Get(r.index, a.recipient) == l.acc
      && forall v :: r.Earned(v) == l.Earned(v)
  {
    hide Sum;
    MoveKeepsSum(l, a);
    forall v ensures MoveStake(l, a).Earned(v) == l.Earned(v) { MoveKeepsEarned(l, a, v); }
  }

  lemma MoveKeepsSum(l: Ledger, a: Action)
    requires a.user != a.recipient
    ensures Sum(MoveStake(l, a).stake) == Sum(l.stake)
  {
    hide Sum;
    var moved := Lesser(a.amount, l.Stake(a.user));
    var less := l.stake[a.user := l.Stake(a.user) - moved];
    SumUpdate(l.stake, a.user, l.Stake(a.user) - moved);
    SumUpdate(less, a.recipient, l.Stake(a.recipient) + moved);
  }

  lemma NothingPending(l: Ledger, u: Addr)
    requires l.Stake(u) == 0 || Get(l.index, u) == l.acc
    ensures l.Pending(u) == 0
  {
    assert l.Stake(u) * 0 / PRECISION_MULTIPLIER == 0;
  }

  lemma MoveKeepsEarned(l: Ledger, a: Action, v: Addr)
    requires l.Stake(a.user) == 0 || Get(l.index, a.user) == l.acc
    requires l.Stake(a.recipient) == 0 || Get(l.index, a.recipient) == l.acc
    ensures MoveStake(l, a).Earned(v) == l.Earned(v)
  {
    if v == a.user || v == a.recipient {
      NothingPending(l, v);
      NothingPending(MoveStake(l, a), v);
    }
  }

  lemma TransferMoves(l: Ledger, a: Action, now: nat)
    requires ApplyTransfer(l, a, now).Some? && MovesStake(l, a)
    ensures Transferred(l, ApplyTransfer(l, a, now).value, a, now)
  {
    hide Settle, MoveStake, Accrue;
    var marked := l.(processed := l.processed + {a.key});
    var grown := Accrue(marked, now);
    AccrueMarked(l, l.processed + {a.key}, now);
    var one := Settle(grown, a.user).value;
    SettleKeepsEarned(grown, a.user);
    AccrueTwice(marked, one, now);
    var both := Settle(one, a.recipient).value;
    SettleKeepsEarned(one, a.recipient);
    MoveMeans(both, a);
  }

  class Contract {
    var processed: set<Key>
    var stake: map<Addr, nat>
    var index: map<Addr, nat>
    var unclaimed: map<Addr, nat>
    var totalStake: nat
    var acc: nat
    var lastUpdate: nat
    var emissionRate: nat
    var minAmount: nat
    var routes: seq<Route>
    var maxBatchSize: nat
    /** The event source of the activity, whether it is a Position, and the event names other activities of it hold. */
    const source: Addr
    const isPosition: bool
    const foreign: set<string>

    constructor (l: Ledger, source: Addr, isPosition: bool, foreign: set<string>)
      ensures View() == l
      ensures this.source == source && this.isPosition == isPosition && this.foreign == foreign
    {
      this.source, this.isPosition, this.foreign := source, isPosition, foreign;
      processed, stake, index, unclaimed := l.processed, l.stake, l.index, l.unclaimed;
      totalStake, acc, lastUpdate, emissionRate := l.totalStake, l.acc, l.lastUpdate, l.emissionRate;
      minAmount, routes, maxBatchSize := l.minAmount, l.routes, l.maxBatchSize;
    }

    /** What registering event names needs beside an empty activity. */
    predicate CanRegister(newRoutes: seq<Route>) {
      isPosition && PositionRoutes(newRoutes) && NamesFree(newRoutes, foreign)
    }

    function View(): Ledger
      reads this
    {
      Ledger(processed, stake, index, unclaimed, totalStake, acc, lastUpdate, emissionRate, minAmount, routes,
        maxBatchSize)
    }

    method Write(l: Ledger)
      modifies this
      ensures View() == l
    {
      processed, stake, index, unclaimed := l.processed, l.stake, l.index, l.unclaimed;
      totalStake, acc, lastUpdate, emissionRate := l.totalStake, l.acc, l.lastUpdate, l.emissionRate;
      minAmount, routes, maxBatchSize := l.minAmount, l.routes, l.maxBatchSize;
    }

    method UpdateActivityIndex(now: nat)
      modifies this
      ensures View() == Accrue(old(View()), now)
    {
      if now <= lastUpdate { return; }
      if totalStake == 0 {
        lastUpdate := now;
        return;
      }
      acc := acc + IndexGain(emissionRate, now - lastUpdate, totalStake);
      lastUpdate := now;
    }

    /** A failed require rolls the call back, as the batch's catch sees it. */
    method HandleAction(a: Action, now: nat) returns (ok: bool)
      modifies this
      ensures ok == ApplyAction(old(View()), a, now).Some?
      ensures View() == if ok then ApplyAction(old(View()), a, now).value else old(View())
    {
      var entry := View();
      var kind := RouteOf(routes, a.eventName);
      if kind.None? || kind.value == Transfer || a.user == 0 { return false; }
      if a.key in processed { return true; }
      processed := processed + {a.key};
      if a.amount == 0 { return true; }
      if minAmount > 0 && a.amount < minAmount { return true; }
      if kind.value == Occurred {
        Write(entry);
        return false;
      }
      ok := SettlePendingRewards(a.user, now);
      if ok { ok := SetStake(a.user, Moved(kind.value, Get(stake, a.user), a.amount)); }
      if !ok { Write(entry); }
    }

    method SettlePendingRewards(u: Addr, now: nat) returns (ok: bool)
      modifies this
      ensures ok == Settle(Accrue(old(View()), now), u).Some?
      ensures ok ==> View() == Settle(Accrue(old(View()), now), u).value
    {
      UpdateActivityIndex(now);
      if Get(stake, u) == 0 { return true; }
      if acc < Get(index, u) { return false; }
      var pending := Get(stake, u) * (acc - Get(index, u)) / PRECISION_MULTIPLIER;
      if pending > 0 {
        unclaimed := unclaimed[u := Get(unclaimed, u) + pending];
      }
      index := index[u := acc];
      return true;
    }

    method SetStake(u: Addr, newStake: nat) returns (ok: bool)
      modifies this
      ensures ok == Restake(old(View()), u, newStake).Some?
      ensures View() == if ok then Restake(old(View()), u, newStake).value else old(View())
    {
      if totalStake + newStake < Get(stake, u) { return false; }
      totalStake := totalStake + newStake - Get(stake, u);
      stake := stake[u := newStake];
      index := index[u := acc];
      return true;
    }

    method Move(a: Action)
      modifies this
      ensures View() == MoveStake(old(View()), a)
    {
      var oldSenderStake, oldRecipientStake := Get(stake, a.user), Get(stake, a.recipient);
      var moved := if a.amount < oldSenderStake then a.amount else oldSenderStake;
      stake := stake[a.user := oldSenderStake - moved];
      index := index[a.user := acc];
      stake := stake[a.recipient := oldRecipientStake + moved];
      index := index[a.recipient := acc];
    }

    method TransferTail(a: Action, now: nat) returns (ok: bool)
      modifies this
      ensures ok == TransferStake(old(View()), a, now).Some?
      ensures ok ==> View() == TransferStake(old(View()), a, now).value
    {
      ok := SettlePendingRewards(a.user, now);
      if ok { ok := SettlePendingRewards(a.recipient, now); }
      if ok { Move(a); }
    }

    /** A transfer that moves stake moves it as `Transferred` says; any other only marks its pair or changes nothing. */
    method HandleTransfer(a: Action, now: nat) returns (ok: bool)
      modifies this
      ensures ok == ApplyTransfer(old(View()), a, now).Some?
      ensures View() == if ok then ApplyTransfer(old(View()), a, now).value else old(View())
      ensures ok && MovesStake(old(View()), a) ==> Transferred(old(View()), View(), a, now)
      ensures ok && !MovesStake(old(View()), a) ==> View() == old(View()).(processed := old(processed) + {a.key})
    {
      var entry := View();
      if RouteOf(routes, a.eventName) != Some(Transfer) || a.user == 0 || a.recipient == 0 { return false; }
      if a.key in processed {
        assert processed == processed + {a.key};
        return true;
      }
      processed := processed + {a.key};
      if a.amount == 0 || a.user == a.recipient { return true; }
      if minAmount > 0 && a.amount < minAmount { return true; }
      ok := TransferTail(a, now);
      if ok { TransferMoves(entry, a, now); }
      if !ok { Write(entry); }
    }

    /** Batch calls swallow per-action failures and report them. */
    method BatchHandle(batch: Batch, now: nat) returns (failures: Batch)
      requires |batch| <= maxBatchSize
      modifies this
      ensures View() == ApplyBatch(old(View()), batch, now)
      ensures failures == [] <==> NoFailure(old(View()), batch, now)
    {
      failures := [];
      ghost var entry := View();
      for i := 0 to |batch|
        invariant View() == ApplyBatch(entry, batch[..i], now)
        invariant failures == [] <==> NoFailure(entry, batch[..i], now)
      {
        assert batch[..i + 1][..i] == batch[..i];
        var ok;
        if batch[i].call == Call.HandleAction {
          ok := HandleAction(batch[i], now);
        } else {
          ok := HandleTransfer(batch[i], now);
        }
        if !ok { failures := failures + [batch[i]]; }
      }
      assert batch[..|batch|] == batch;
    }

    /** Refused while anything is staked, for a route no Position can have, and for a name another activity holds. */
    method SetPositionActivityEvents(newRoutes: seq<Route>) returns (ok: bool)
      modifies this
      ensures ok <==> old(totalStake) == 0 && CanRegister(newRoutes)
      ensures View() == if ok then old(View()).(routes := newRoutes) else old(View())
    {
      ok := isPosition && totalStake == 0 && newRoutes != [];
      var i := 0;
      while ok && i < |newRoutes|
        invariant i <= |newRoutes|
        invariant ok ==> isPosition && totalStake == 0 && newRoutes != []
        invariant ok ==> forall k :: 0 <= k < i ==> newRoutes[k].eventName !in foreign
        invariant !ok ==> !(totalStake == 0 && CanRegister(newRoutes))
      {
        ok := newRoutes[i].eventName !in foreign;
        i := i + 1;
      }
      i := 0;
      while ok && i < |newRoutes|
        invariant i <= |newRoutes|
        invariant ok ==> isPosition && totalStake == 0 && newRoutes != [] && NamesFree(newRoutes, foreign)
        invariant ok ==> forall k :: 0 <= k < i ==> newRoutes[k].actionType != Occurred
        invariant !ok ==> !(totalStake == 0 && CanRegister(newRoutes))
      {
        ok := newRoutes[i].actionType != Occurred;
        i := i + 1;
      }
      if ok { routes := newRoutes; }
    }

    method SetEmissionRate(newRate: nat, now: nat)
      modifies this
      ensures View() == Accrue(old(View()), now).(emissionRate := newRate)
    {
      UpdateActivityIndex(now);
      emissionRate := newRate;
    }
  }
}
