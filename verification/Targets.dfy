/** What every user's stake should be, and how the targets add up against the share supply. */
module Targets {
  import opened Batches
  import opened Reconcile
  import opened Sums

  const ZERO: Addr := 0

  datatype Vault = Vault(
    kind: VaultKind, self: Addr, custody: set<Addr>,
    balances: map<Addr, nat>, queued: map<Addr, nat>,
    totalSupply: nat, totalQueuedShares: nat)
  {
    predicate IsUserHolder(h: Addr) { h != self && h != ZERO && h !in custody }

    /** Shares a user holds as a position. */
    function Held(h: Addr): nat { if IsUserHolder(h) then Get(balances, h) else 0 }

    function CustodyShares(): map<Addr, nat> { map h | h in custody :: Get(balances, h) }

    /** Custody holdings, and the vault's own balance unless queued shares explain it. */
    ghost function NonPositionSupply(): nat {
      Sum(CustodyShares()) + if kind == Yield then 0 else Get(balances, self)
    }

    /** The snapshot's three accounting checks before targets are compared. */
    ghost predicate SumsAgree() {
      && Sum(balances) == totalSupply
      && (kind == Yield ==> Get(balances, self) == totalQueuedShares && Sum(queued) == totalQueuedShares)
      && (kind == Save ==> queued == map[])
    }

    /** The reader only reports owners with live shares. */
    predicate QueueLive() { forall u :: u in queued ==> queued[u] > 0 }

    /** Balance plus queued shares, of everyone who has any. */
    function Targets(): map<Addr, nat> {
      map u | u in balances.Keys + queued.Keys && (Held(u) > 0 || u in queued) :: Held(u) + Get(queued, u)
    }
  }

  method ComputeTargets(v: Vault) returns (targets: map<Addr, nat>)
    ensures targets == v.Targets()
  {
    targets := HoldersWithShares(v);
    ghost var held := targets;
    targets := AddQueued(targets, v.queued);
    assert forall u :: Get(held, u) == v.Held(u);
  }

  /** The second loop: queued shares go back to their owners. */
  method AddQueued(held: map<Addr, nat>, queued: map<Addr, nat>) returns (targets: map<Addr, nat>)
    ensures targets.Keys == held.Keys + queued.Keys
    ensures forall u :: u in targets ==> targets[u] == Get(held, u) + Get(queued, u)
  {
    targets := held;
    var todo := queued.Keys;
    while todo != {}
      invariant todo <= queued.Keys
      invariant forall u :: u in targets <==> u in held || (u in queued && u !in todo)
      invariant forall u :: u in targets && u in todo ==> targets[u] == Get(held, u)
      invariant forall u :: u in targets && u !in todo ==> targets[u] == Get(held, u) + Get(queued, u)
      decreases todo
    {
      var owner :| owner in todo;
      todo := todo - {owner};
      targets := targets[owner := Get(targets, owner) + queued[owner]];
    }
  }

  /** The first loop of the computation: user holders with a positive balance. */
  method HoldersWithShares(v: Vault) returns (targets: map<Addr, nat>)
    ensures forall u :: u in targets <==> v.Held(u) > 0
    ensures forall u :: u in targets ==> targets[u] == v.Held(u)
  {
    targets := map[];
    var todo := v.balances.Keys;
    while todo != {}
      invariant todo <= v.balances.Keys
      invariant forall u :: u in targets <==> v.Held(u) > 0 && u !in todo
      invariant forall u :: u in targets ==> targets[u] == v.Held(u)
      decreases todo
    {
      var holder :| holder in todo;
      todo := todo - {holder};
      if v.IsUserHolder(holder) && v.balances[holder] > 0 {
        targets := targets[holder := v.balances[holder]];
      }
    }
  }

  lemma TargetsPositive(v: Vault)
    requires v.QueueLive()
    ensures forall u :: u in v.Targets() <==> Get(v.Targets(), u) > 0
    ensures forall u :: Get(v.Targets(), u) == v.Held(u) + Get(v.queued, u)
  {
  }

  /** Shares at the zero address that nothing else accounts for. */
  function StrayAtZero(v: Vault): nat {
    if ZERO in v.custody || v.self == ZERO then 0 else Get(v.balances, ZERO)
  }

  /** The vault's own shares when it is also listed as a custody vault. */
  function CountedTwice(v: Vault): nat {
    if v.self in v.custody then Get(v.balances, v.self) else 0
  }

  lemma SumSingle(k: Addr, n: nat)
    ensures Sum(map[k := n]) == n
  {
    var none: map<Addr, nat> := map[];
    SumUpdate(none, k, n);
    assert none[k := n] == map[k := n];
  }

  function HeldShares(v: Vault): map<Addr, nat> { map h | h in v.balances :: v.Held(h) }

  /** Balances outside both user positions and the custody vaults. */
  function ApartShares(v: Vault): map<Addr, nat> {
    (if v.self in v.custody then map[] else map[v.self := Get(v.balances, v.self)])
    + (if ZERO in v.custody || v.self == ZERO then map[] else map[ZERO := StrayAtZero(v)])
  }

  lemma SumApart(v: Vault)
    ensures Sum(ApartShares(v)) == (if v.self in v.custody then 0 else Get(v.balances, v.self)) + StrayAtZero(v)
  {
    var own: map<Addr, nat> := if v.self in v.custody then map[] else map[v.self := Get(v.balances, v.self)];
    var stray: map<Addr, nat> := if ZERO in v.custody || v.self == ZERO then map[] else map[ZERO := StrayAtZero(v)];
    SumSingle(v.self, Get(v.balances, v.self));
    SumSingle(ZERO, StrayAtZero(v));
    assert ApartShares(v) == own + stray;
    SumPointwise(own, stray, own + stray);
  }

  lemma SumTargets(v: Vault)
    requires v.QueueLive()
    ensures Sum(v.Targets()) == Sum(HeldShares(v)) + Sum(v.queued)
  {
    TargetsPositive(v);
    assert forall h :: Get(HeldShares(v), h) == v.Held(h);
    SumPointwise(HeldShares(v), v.queued, v.Targets());
  }

  lemma SumBalances(v: Vault)
    ensures Sum(v.balances) == Sum(HeldShares(v)) + Sum(v.CustodyShares())
                               + (if v.self in v.custody then 0 else Get(v.balances, v.self)) + StrayAtZero(v)
  {
    var rest := v.CustodyShares() + ApartShares(v);
    SumApart(v);
    forall h ensures Get(rest, h) == Get(v.CustodyShares(), h) + Get(ApartShares(v), h) {}
    SumPointwise(v.CustodyShares(), ApartShares(v), rest);
    forall h ensures Get(v.balances, h) == Get(HeldShares(v), h) + Get(rest, h) {}
    SumPointwise(HeldShares(v), rest, v.balances);
  }

  /**
   * Once the sums agree, targets cover the position supply up to two terms:
   * shares at the zero address, and a vault that is its own custody vault.
   */
  lemma TargetsConserveSupply(v: Vault)
    requires v.SumsAgree() && v.QueueLive()
    ensures Sum(v.Targets()) + StrayAtZero(v) == v.totalSupply - v.NonPositionSupply() + CountedTwice(v)
  {
    SumTargets(v);
    SumBalances(v);
  }

  /** With a proper custody list the snapshot's target check fails exactly when the zero address holds shares. */
  lemma TargetCheckFailsIffZeroHolds(v: Vault)
    requires v.SumsAgree() && v.QueueLive() && v.self != ZERO && v.self !in v.custody && ZERO !in v.custody
    ensures Sum(v.Targets()) == v.totalSupply - v.NonPositionSupply() <==> Get(v.balances, ZERO) == 0
  {
    TargetsConserveSupply(v);
  }

  method Total(m: map<Addr, nat>) returns (sum: nat)
    ensures sum == Sum(m)
  {
    sum := 0;
    var rest := m;
    while rest != map[]
      invariant sum + Sum(rest) == Sum(m)
      decreases |rest|
    {
      var k :| k in rest;
      SumDrop(rest, k);
      sum := sum + rest[k];
      rest := rest - {k};
    }
  }
}
