# Proofs about the migration, deployment and monitoring scripts

This project models the scripts of the repository that carry real algorithms, and proves what they are for.
`dafny verify dfyconfig.toml` checks all of it. Modules follow the scripts:

* **Rewards reconciliation** (`Batches`, `Rewards`, `Reconcile`, `ReconcileRuns`, `Targets`, `Partway`, `Operator`,
  `OperatorRun`, `Emission`). `Rewards.Contract` is the on-chain side for one Position activity: the once-only set of
  (block, index) pairs, stakes, the reward index, settlement. `Reconcile` is the plan a snapshot fixes and the
  invariant each of its actions keeps. `ReconcileRuns` is a state machine in which any number of operators check and
  post in any order while posted actions land late, repeatedly or never, users claim and shares move. `Partway` is any
  snapshot's plan part-way, workable or not; `Operator` and `OperatorRun` are the phases and the run command themselves,
  with a kill budget and up to three deliveries a post.
  `Emission` bounds what users are owed and paid by what was emitted, over every run.
* **Hashing** (`LaneBits`, `LaneBytes`, `KeccakSpec`, `Keccak`, `Sponge`, `StepBits`, `KeccakBits`, `Rlp`,
  `EventHash`): the in-place Keccak-256 on 32-bit halves against the sponge over 64-bit lanes, that sponge against the
  one FIPS 202 writes over bit strings, and the RLP pre-image of a pair against a strict decoder.
* **Import combiner** (`Combine`), **route table** (`Latest`, `Routes`), **worker pools** (`Pool`), **numeric kernels**
  (`Liquidity`, `Decimal`, `Layers`, `Escrow`), **address history** (`Flows`), **health checks** (`Health`),
  **paging** (`Paging`).
* `Sums`, `Sorting`, `Arithmetic` and `Options` are shared helpers.

Network answers, clocks, governance votes and files are parameters or fields of an environment. Where a script
updates things in place the model does too: classes for the contract, the host, the combiner, the pool's shared
variables and the history tables, arrays for the Keccak state and the padded buffer.

## What turned out to be false of the code

* The script reads the activity's `minAmount` (reconcileVaultRewardsActivity.js:776) and records it, but never compares
  it with an amount. An amount below it consumes its pair without moving stake, so stakes stop following the pairs.
  `ReconcileRuns.SafeIffAmountsCount` gives the exact condition for safe stakes, and `OperatorRun.PhaseRun`, where it is
  part of `Feasible`, for a run that is done.
* Neither the snapshot nor the withdraw phase looks at how the activity routes its events. Where "Withdraw" is routed
  as a deposit, the first withdrawal consumes its pair and doubles the stake (`ReconcileRuns.WithdrawalAsDeposit`);
  `ReconcileRuns.SafeIffWithdrawLowers` gives the exact condition. Where it is routed as anything but a withdrawal,
  the withdraw phase cannot finish (`Operator.MisroutedWithdrawFails`).
* From 100001 withdrawals on, withdraw pairs run into seed pairs; the snapshot's unused-pair check does not see it.
  `ReconcileRuns.SafeIffKeysFit` gives the exact condition. The run then withdraws everybody and dies at the first seed
  batch (`OperatorRun.CrowdedSeedFails`).
* So "a run whose transactions all succeed ends at the goal" is false: of a small amount, a misrouted "Withdraw", too
  many withdrawals, an event name another activity holds, or nobody to seed. `OperatorRun.PhaseRun` gives the exact
  condition, `CanRun`, for a first start and for a snapshot on file, from any host; a run left alone that does not meet
  it dies, and past its opening checks leaves the vault frozen.
* An ordinary first start (live emission, no snapshot, no `RESTORE_EMISSION_RATE`) killed between `setEmissionRate(0)`
  and writing the snapshot cannot be taken up again: the rate is nowhere to be found and the command refuses
  (`OperatorRun.KilledFirstStart`, with the vault live or already paused). `OperatorRun.PhaseRun` and
  `OperatorRun.Recover` show this to be the only such case.
* Running the command again after it was done takes the live vault down: it stops the emission, pauses, dies at the
  withdraw or marker checks and leaves it that way (`OperatorRun.RunAfterGoal`).
* Once a seed has landed, `run` always stops at the withdraw or marker checks; only the seed phase finishes the job
  (`OperatorRun.RunPlan`, `OperatorRun.Recover`).
* The snapshot's target check can fail although all sums agree: with a proper custody list, exactly when the zero
  address holds shares
  (`Targets.TargetCheckFailsIffZeroHolds`).
* `rlpUint` encodes every negative number like zero, so the pre-image is injective on pairs of naturals only
  (`Rlp.PreimageInjective`).
* The ladder's weight check lets weights through that overspend the budget: 33.335, 33.335, 33.33 by rounding to 10001
  basis points (`Layers.AcceptedWeightsCanOverspend`), and 150, -50 because nothing refuses a negative weight
  (`Layers.NegativeWeightOverspends`). `Layers.NeverOverspends` gives the exact condition.
* The genesis escrow move depends on dictionary order when both BlockApps addresses or the vault own balances
  (`Escrow.GrowsByExcessIffNoCollision` is the exact condition).
* `page` returns a prefix, unnoticed, when an answer is no list, while `cirrusGetAll` fails (`Paging.Page`,
  `Paging.GetAll`).

## Model

| member | source | states |
|---|---|---|
| Batches.SplitBatches | app/scripts/reconcileVaultRewardsActivity.js:1106-1117 | The batches concatenate back to the items, each is nonempty, single-method and at most the batch size long, and no other contiguous split like that has fewer |
| Batches.GreedyIsShortest | app/scripts/reconcileVaultRewardsActivity.js:1104-1117 | Against every allowed split: never more batches, and with equally many, no more in the last one |
| Batches.GreedySplits | app/scripts/reconcileVaultRewardsActivity.js:1106-1117 | The greedy split is an allowed one for every item list |
| Batches.FlattenMembers | app/scripts/reconcileVaultRewardsActivity.js:1119-1125 | An item is posted exactly when some batch holds it |
| Rewards.Contract.HandleAction | app/contracts/concrete/Rewards/Rewards.sol:873-1028 | A known pair, a zero amount or one below the minimum moves no stake; otherwise the index is brought up, the user settled and the stake moved; a failed require leaves no trace |
| Reconcile.ActionMeans | app/contracts/concrete/Rewards/Rewards.sol:917-1025 | A new action that does not revert, in terms of stakes alone: below the minimum it only consumes its pair; otherwise a deposit adds its amount and a withdrawal takes as much as there is, of that user only |
| Reconcile.TakenIff | app/contracts/concrete/Rewards/Rewards.sol:873-1028 | The contract takes an action if and only if its user is real and its name is routed as no transfer (an occurrence must not move stake), and a transfer if and only if both users are real and its name is routed as one; a pair taken before changes nothing |
| Rewards.RouteOfLast | app/contracts/concrete/Rewards/Rewards.sol:434-481 | The last route registered under a name decides its action type |
| Rewards.Contract.HandleTransfer | app/contracts/concrete/Rewards/Rewards.sol:1039-1109 | A known pair changes nothing; a transfer to oneself, of nothing or below the minimum only marks its pair; any other moves at most the tracked stake of the sender to the recipient and nobody else, leaves the total, settles both at one index and keeps what everybody has earned; a failed require leaves no trace |
| Rewards.TransferMoves | app/contracts/concrete/Rewards/Rewards.sol:1071-1109 | The moving branch: the sender loses and the recipient gains the smaller of amount and tracked stake, the total and the sum of stakes stand, both indices are the accrued one, and nobody loses or gains earned reward |
| Rewards.SettleKeepsEarned | app/contracts/concrete/Rewards/Rewards.sol:1116-1136 | Settling turns pending into unclaimed reward and changes what nobody has earned |
| Rewards.Contract.BatchHandle | app/contracts/concrete/Rewards/Rewards.sol:666-704 | Per-action failures are swallowed: the ledger is that of applying the actions one by one, and failures are reported exactly when one of them failed |
| Rewards.BatchInOrder | app/contracts/concrete/Rewards/Rewards.sol:666-704 | Actions take effect one after the other, and one that fails is as if it were not there |
| Rewards.Contract.SettlePendingRewards | app/contracts/concrete/Rewards/Rewards.sol:1116-1136 | Pending rewards go to the unclaimed balance and the user index moves up |
| Rewards.Contract.UpdateActivityIndex | app/contracts/concrete/Rewards/Rewards.sol:1142-1168 | The in-place accrual is the ledger step that Emission.AccrualLaw bounds from both sides |
| Emission.AccrualLaw | app/contracts/concrete/Rewards/Rewards.sol:1142-1168 | With stake and time the index grows by g with g * totalStake <= rate * elapsed * PRECISION_MULTIPLIER < (g + 1) * totalStake; without stake only the clock moves, without time nothing does |
| Emission.AccruedInAll | app/contracts/concrete/Rewards/Rewards.sol:1116-1168 | Over all users an accrual adds at most rate * elapsed to what is earned, and one unit a staker where rounding had held some back |
| Emission.ApplyOwes | app/contracts/concrete/Rewards/Rewards.sol:873-1109 | No action, of a plan or not, makes users be owed more than was emitted since the last accrual, to the fraction of a unit |
| Emission.ClaimOwes | app/contracts/concrete/Rewards/Rewards.sol:607-625 | Nor does a claim, what it pays included |
| Emission.PaidAtMostEmitted | app/contracts/concrete/Rewards/Rewards.sol:607-625 | Over every run of operators, deliveries, claims and rate changes: what is paid and earned exceeds what had been earned by no more than was emitted since, and one unit a staker |
| Rewards.Contract.SetStake | app/contracts/concrete/Rewards/Rewards.sol:1019-1025 | A new stake changes the total by the difference |
| Rewards.Contract.SetPositionActivityEvents | app/contracts/concrete/Rewards/Rewards.sol:434-481 | Refused exactly while anything is staked, for an activity that is no Position, for a route list a Position cannot have, or for an event name that another activity of the same source holds |
| Rewards.Contract.SetEmissionRate | app/contracts/concrete/Rewards/Rewards.sol:293-307 | The old rate is accrued before the new one is set |
| Reconcile.ReservedDisjointIffFit | app/scripts/reconcileVaultRewardsActivity.js:1350-1359 | The reserved withdraw and seed pairs are pairwise different if and only if at most 100000 users are withdrawn (or nobody is seeded) |
| Reconcile.ReservedRanges | app/scripts/reconcileVaultRewardsActivity.js:1350-1359 | The withdraw pairs are a run of indices from the base in the order of the users, and the seed pairs one from 100000 above it, with the amounts of the snapshot |
| Reconcile.FirstUse | app/contracts/concrete/Rewards/Rewards.sol:917-1025 | The first use of a pair marks it and moves only that user, by the routed action; earned reward is never lost, and stands while the index does |
| Reconcile.SettleSound | app/contracts/concrete/Rewards/Rewards.sol:1116-1168 | Settling anyone at any time loses nobody any earned reward, and changes none while emission is off |
| Reconcile.MarkKeeps | app/scripts/reconcileVaultRewardsActivity.js:1531-1558 | A zero-amount marker only consumes its pair |
| Reconcile.MarkersMean | app/scripts/reconcileVaultRewardsActivity.js:1531-1558 | A marker carries the event pair, amount zero and the event parties, the vault standing in for a missing owner |
| Reconcile.MarksInOrder | app/scripts/reconcileVaultRewardsActivity.js:1531-1558 | One marker for each outstanding event, actions before transfers |
| Reconcile.WithdrawKeeps | app/scripts/reconcileVaultRewardsActivity.js:1438-1446 | A withdrawal keeps every stake what the consumed pairs say if and only if it is not a new pair with a counting amount whose event is routed as a deposit |
| Reconcile.SeedKeeps | app/scripts/reconcileVaultRewardsActivity.js:1637-1652 | A seed does too, once all withdrawals and the opt-in have landed |
| Reconcile.PlanKeeps | app/scripts/reconcileVaultRewardsActivity.js:1433-1736 | Any action of the plan, delivered at any time and any number of times, keeps stakes, total, reward books and routes consistent if and only if it is no withdrawal that doubles a stake because its event is routed as a deposit |
| Reconcile.InvGivesStakesByKeys | app/scripts/reconcileVaultRewardsActivity.js:1433-1736 | When no planned amount is below the minimum, each stake is the snapshot stake, zero or the target, decided by its two pairs alone |
| Reconcile.BatchKeeps | app/scripts/reconcileVaultRewardsActivity.js:1137-1157 | A batch of accepted plan actions has no failure, consumes exactly its pairs and keeps the invariant |
| Reconcile.ResendIsIdle | app/scripts/reconcileVaultRewardsActivity.js:507-534 | A batch whose pairs are consumed changes nothing, so a retried request is harmless |
| Reconcile.PlanAccepted | app/scripts/reconcileVaultRewardsActivity.js:290-296 | After the opt-in every planned action is routed and names real users |
| Reconcile.ExpectedRouteOf | app/scripts/reconcileVaultRewardsActivity.js:286-296 | The expected routes give each event name the action type the plan counts on, and no other name any |
| ReconcileRuns.EveryRunIsSafe | app/scripts/reconcileVaultRewardsActivity.js:1433-1736 | In every state any interleaving of checks, posts, deliveries (none, one or many each, at any later moment), claims, share moves, pauses, rate changes and crashes can reach: stakes follow the consumed pairs, the total is their sum, only planned pairs are consumed, nobody has lost earned reward, and nobody gained any if the rate was never set |
| ReconcileRuns.RunKeeps | app/scripts/reconcileVaultRewardsActivity.js:1433-1736 | The inductive invariant behind it, over every run, also with governance setting the rate at any moment |
| ReconcileRuns.QuietRun | app/scripts/reconcileVaultRewardsActivity.js:1433-1736 | On a run without a rate change the index stands still |
| ReconcileRuns.ClaimKeeps | app/contracts/concrete/Rewards/Rewards.sol:607-625 | A claim in the middle keeps it: paid and unclaimed rewards together do not change |
| ReconcileRuns.SafeIffAmountsCount | app/scripts/reconcileVaultRewardsActivity.js:1433-1736 | Where the keys fit, all runs are safe if and only if the Withdraw event is routed as a withdrawal (or nobody is withdrawn) and no withdrawn or seeded amount is below the minimum amount of the activity, or no withdrawal can land at all because its event has no route or a reverting one |
| ReconcileRuns.SafeIffWithdrawLowers | app/scripts/reconcileVaultRewardsActivity.js:1433-1503 | Where the keys fit and the amounts count, all runs are safe if and only if the Withdraw event is not routed as a deposit, or nobody is withdrawn |
| ReconcileRuns.WithdrawalAsDeposit | app/scripts/reconcileVaultRewardsActivity.js:1433-1503 | A reachable state in which a withdrawal routed as a deposit has consumed its pair and doubled the stake |
| ReconcileRuns.StalledRuns | app/scripts/reconcileVaultRewardsActivity.js:1433-1503 | If every withdrawal reverts, no run consumes a pair, moves a stake or gets past posting withdrawals |
| ReconcileRuns.SafeIffKeysFit | app/scripts/reconcileVaultRewardsActivity.js:1355-1359 | With counting amounts and no doubling route, all runs are safe if and only if the withdrawals leave the seed pairs free, wherever withdrawals land at all |
| ReconcileRuns.TooManyWithdrawals | app/scripts/reconcileVaultRewardsActivity.js:197-198 | A reachable state in which the 100001st withdrawal has consumed a seed pair |
| ReconcileRuns.IgnoredWithdrawal | app/contracts/concrete/Rewards/Rewards.sol:943-947 | A reachable state in which a withdrawal pair is consumed and the stake still there |
| ReconcileRuns.IgnoredSeed | app/contracts/concrete/Rewards/Rewards.sol:943-947 | A reachable state in which a seed pair is consumed and nothing staked |
| Targets.ComputeTargets | app/scripts/reconcileVaultRewardsActivity.js:1071-1081 | Targets are exactly balance plus queued shares of everyone who has any |
| Targets.AddQueued | app/scripts/reconcileVaultRewardsActivity.js:1077-1079 | The second loop adds queued shares to their owners |
| Targets.HoldersWithShares | app/scripts/reconcileVaultRewardsActivity.js:1073-1076 | The first loop keeps user holders with a positive balance |
| Targets.TargetsConserveSupply | app/scripts/reconcileVaultRewardsActivity.js:1059-1081 | For both vault kinds, once the sums agree: targets plus stray zero-address shares equal supply less non-position supply, plus the vault shares if it is its own custody vault |
| Targets.TargetCheckFailsIffZeroHolds | app/scripts/reconcileVaultRewardsActivity.js:1330-1335 | With a proper custody list the target check of the snapshot fails if and only if the zero address holds shares |
| Operator.Send | app/scripts/reconcileVaultRewardsActivity.js:702-737 | Under any plan: a posted batch, delivered once to three times, consumes only its own pairs, and all of them unless an action failed, which none does that is routed; or the process was killed first and nothing happened |
| Operator.PhaseWithdraw | app/scripts/reconcileVaultRewardsActivity.js:1433-1503 | One withdraw batch of any plan: success means its users are at zero and nobody else holds stake; a workable plan lands it as a whole or not at all |
| Operator.PhaseMarkHistorical | app/scripts/reconcileVaultRewardsActivity.js:1505-1598 | One marker batch of any plan: refused before the withdrawals and opt-in, moves no stake; success means its pairs are consumed and were all consumed or all open before |
| Operator.PhaseSeed | app/scripts/reconcileVaultRewardsActivity.js:1600-1736 | One seed batch of any plan: success means its users are at target and every seed agreed with its pair before; it never dies when the plan can still finish |
| Operator.CheckWithdraw | app/scripts/reconcileVaultRewardsActivity.js:1436-1481 | The checks before a withdraw batch stop it if and only if the vault is live, the number is none, or some stake is neither gone nor that of the snapshot; else they skip it as complete or let it through |
| Operator.CheckMark | app/scripts/reconcileVaultRewardsActivity.js:1505-1570 | The checks before a marker batch stop it if and only if the vault is live, withdrawals or opt-in are missing, the number is none, or the batch is torn |
| Operator.CheckSeed | app/scripts/reconcileVaultRewardsActivity.js:1600-1716 | The checks before a seed batch stop it if and only if the vault is live, an earlier phase is missing, a live target moved, a seed and its stake disagree, the number is none, the batch is torn, or the targets do not explain the supply |
| Operator.SeedChecksHold | app/scripts/reconcileVaultRewardsActivity.js:1655-1710 | Whenever seeding can finish, the stake sum, the seed-state check and the whole-batch check all pass |
| Operator.TargetsCurrent | app/scripts/reconcileVaultRewardsActivity.js:1621-1635 | The freshness check passes if and only if every live target equals the snapshot target |
| Operator.SupplyExplained | app/scripts/reconcileVaultRewardsActivity.js:1712-1716 | The seed total check is equality with the live position supply |
| Operator.MisroutedWithdrawFails | app/scripts/reconcileVaultRewardsActivity.js:1483-1503 | Unless the Withdraw event is routed as a withdrawal, a batch whose users hold stake ends with one of them above zero, so the check that ends the withdraw phase does not pass |
| Operator.Unprocessed | app/scripts/reconcileVaultRewardsActivity.js:950-983 | The listed events are exactly the relayable ones whose pair is not consumed |
| Operator.RelayedIff | app/scripts/reconcileVaultRewardsActivity.js:950-983 | Relayed are Deposit and Withdraw, QueueProcessed of yield vaults, and positive transfers between two different addresses neither of which is the vault, zero or custody |
| Operator.SnapshotWellFormed | app/scripts/reconcileVaultRewardsActivity.js:1344-1401 | The written snapshot has distinct users, positive amounts, distinct historical events and reserved indices above them |
| Operator.SnapshotRecords | app/scripts/reconcileVaultRewardsActivity.js:1344-1401 | What the file holds, field by field: stakes and targets as found, users in rising order, exactly the outstanding events, the smaller batch size |
| Partway.BatchKeysApart | app/scripts/reconcileVaultRewardsActivity.js:1106-1117 | No pair is in two batches, so batch numbers address disjoint slices |
| Partway.LandingAligns | app/scripts/reconcileVaultRewardsActivity.js:1560-1570 | A landed batch leaves every batch of the phase wholly processed or wholly open, so "partially processed" never appears |
| Partway.BatchKept | app/scripts/reconcileVaultRewardsActivity.js:1137-1157 | Delivering a batch of any plan keeps the books, consumes only its pairs, lowers stakes only where withdrawals withdraw, and leaves seeded users alone |
| Partway.BatchLands | app/scripts/reconcileVaultRewardsActivity.js:1147-1155 | No action fails that comes after the opt-in, or that is a withdrawal routed as such |
| Partway.WorkableNow | app/scripts/reconcileVaultRewardsActivity.js:1350-1359 | Whether a plan part-way is workable (free seed pairs, withdrawals routed as such) can be read off the live routes at any time |
| Operator.RunPhase | app/scripts/reconcileVaultRewardsActivity.js:1822-1827 | One phase call of any plan consumes only its own pairs and idles when they are all consumed |
| Operator.RunBatches | app/scripts/reconcileVaultRewardsActivity.js:1842-1847 | Running all batch numbers, of any plan: success means every batch complete and no marker batch torn before; it never dies from a state the phase can finish from |
| OperatorRun.Host.PhaseSnapshot | app/scripts/reconcileVaultRewardsActivity.js:1280-1401 | Succeeds exactly when the target is a Position of this vault, frozen, the sums agree, the targets explain the supply, the indices are free and the pairs unused, unless killed before the file is written; whether or not the plan is workable, the file then stands for it |
| OperatorRun.Host.CheckSums | app/scripts/reconcileVaultRewardsActivity.js:1306-1335 | The four accounting checks hold exactly when sums, queue and targets agree |
| OperatorRun.PhaseVerify | app/scripts/reconcileVaultRewardsActivity.js:1738-1807 | The printed checks all pass exactly when routes, totals, per-user stakes, rate and drained events are right |
| OperatorRun.GoalVerifies | app/scripts/reconcileVaultRewardsActivity.js:1738-1794 | The goal (every stake at target, all planned pairs consumed, routes as expected) passes every final check |
| OperatorRun.OptIn | app/scripts/reconcileVaultRewardsActivity.js:1868-1873 | Succeeds only with the names free, dies only with something staked or a name taken; moves no stake and consumes no pair, under any plan |
| OperatorRun.RunToSeeding | app/scripts/reconcileVaultRewardsActivity.js:1863-1876 | Under any plan: getting through means nothing staked and everything ready to seed, and shows that the withdrawals were routed as such, the names free and no marker batch torn; a plan with all that never dies on the way |
| OperatorRun.SeedAndVerify | app/scripts/reconcileVaultRewardsActivity.js:1877-1880 | Seeding and verifying end at the goal, from where every seed agreed with its pair |
| OperatorRun.RunPlan | app/scripts/reconcileVaultRewardsActivity.js:1863-1880 | Under any existing snapshot: success is the goal, and comes only from a workable, feasible plan before its first seed, untorn and with the names free; no such plan dies; once a seed of a workable plan has landed nothing moves |
| OperatorRun.CrowdedSeedFails | app/scripts/reconcileVaultRewardsActivity.js:1655-1690 | With 100001 withdrawals or more, all landed and nothing staked, the first seed pair is consumed without its stake, so the seed phase refuses every batch |
| OperatorRun.WithdrawLeaves | app/scripts/reconcileVaultRewardsActivity.js:1459-1475 | Once seeding began, the withdraw phase changes nothing |
| OperatorRun.SeededHoldsStake | app/scripts/reconcileVaultRewardsActivity.js:1513-1515 | Once a seed has landed the marker phase finds a nonzero total, so a second run stops there |
| OperatorRun.SetRate | app/scripts/reconcileVaultRewardsActivity.js:1850-1851 | Setting any rate changes the index and the rate only, and nothing a snapshot or the goal is made of |
| OperatorRun.Freeze | app/scripts/reconcileVaultRewardsActivity.js:1849-1852 | Gets through with as many steps as are needed; a frozen host keeps its plan, and its ability to run exactly unless the rate is now nowhere to be found |
| OperatorRun.Unfreeze | app/scripts/reconcileVaultRewardsActivity.js:1882-1891 | The goal survives unpausing and restoring the rate |
| OperatorRun.PhaseRun | app/scripts/reconcileVaultRewardsActivity.js:1809-1892 | The whole command, from any host: left alone it is done if and only if it can run (own vault, rate known, names free, snapshot checks passing or a plan on file before its first seed and untorn, seed pairs free, withdrawals routed as such, amounts counting, somebody to seed); done means goal, unpaused, and the emission rate at the value of RESTORE_EMISSION_RATE if given, else at the rate found live, else at the one on file; a foreign source or unknown rate dies at once and changes nothing, and any later death leaves the vault paused and the emission off; killed where it could run, it can be taken up again if and only if the rate is not forgotten, which takes a first start without RESTORE_EMISSION_RATE and a kill after stopping the emission and before the file is written |
| OperatorRun.KilledFirstStart | app/scripts/reconcileVaultRewardsActivity.js:1816-1858 | Every first start that could finish, without RESTORE_EMISSION_RATE, on a live or a paused vault, killed at any step from stopping the emission to writing the file: the rate is forgotten, the next start dies at once and no command can resume |
| OperatorRun.RunUntilDone | app/scripts/reconcileVaultRewardsActivity.js:1816-1891 | Killed and restarted any number of times without RESTORE_EMISSION_RATE, the run that is done at last leaves the emission rate that was live before the first |
| OperatorRun.RunAfterGoal | app/scripts/reconcileVaultRewardsActivity.js:1849-1863 | Running again after a finished run moves no stake, is never done, and unless killed dies with the live vault paused and its emission off |
| OperatorRun.Attempt | app/scripts/reconcileVaultRewardsActivity.js:1809-1892 | One attempt with either command reaches the goal or was killed, and then can be resumed exactly unless the rate is forgotten |
| OperatorRun.FinishSeeding | app/scripts/reconcileVaultRewardsActivity.js:1600-1736 | After the first seed the seed phase finishes what the run cannot |
| OperatorRun.UnseededCanRun | app/scripts/reconcileVaultRewardsActivity.js:1809-1892 | Which of the two commands takes a stopped run up is decided by whether a seed pair is consumed |
| OperatorRun.Recover | app/scripts/reconcileVaultRewardsActivity.js:1809-1892 | Killed at any step, any number of times, and resumed, while before the file is written shares, log, stakes, rate and pause move on to anything a run could start from: every stake ends at its target with all pairs consumed, unless a kill forgot the rate; never that with RESTORE_EMISSION_RATE, with a snapshot on file or without kills |
| LaneBits.JoinXor | app/scripts/reconcileVaultRewardsActivity.js:365-379 | XOR on halves is XOR on the joined lane |
| LaneBits.JoinNotAnd | app/scripts/reconcileVaultRewardsActivity.js:386-394 | AND-NOT on halves is that on the joined lane |
| Keccak.RotlJoins | app/scripts/reconcileVaultRewardsActivity.js:348-357 | The split rotation is the 64-bit rotation, for every amount the tables hold |
| Keccak.ThetaInPlace | app/scripts/reconcileVaultRewardsActivity.js:365-379 | The in-place theta loops compute theta on the old state |
| Keccak.RhoPi | app/scripts/reconcileVaultRewardsActivity.js:380-385 | The rho and pi loops write every element once, rotated from its source |
| Keccak.ChiInto | app/scripts/reconcileVaultRewardsActivity.js:386-394 | The chi loops combine the rotated rows into the state |
| Keccak.RoundJoins | app/scripts/reconcileVaultRewardsActivity.js:364-397 | A round on halves is the round of section 3.3 of FIPS 202 on 64-bit lanes, for every state and round |
| Keccak.Landing | app/scripts/reconcileVaultRewardsActivity.js:383 | The rho and pi index formula is a permutation of the 25 elements |
| Keccak.Permute | app/scripts/reconcileVaultRewardsActivity.js:364-397 | Twenty-four rounds in place are Keccak-f[1600] on the joined lanes |
| KeccakSpec.OffsetsByWalk | app/scripts/reconcileVaultRewardsActivity.js:340 | The rotation table is the one the walk of section 3.2.2 of FIPS 202 gives |
| KeccakSpec.ConstantsByRegister | app/scripts/reconcileVaultRewardsActivity.js:332-339 | The round constants are spelled by the shift register of section 3.2.5 of FIPS 202 |
| Keccak.RoundPairJoins | app/scripts/reconcileVaultRewardsActivity.js:332-339 | Each pair of halves in the table joins to its 64-bit constant |
| Sponge.Pad | app/scripts/reconcileVaultRewardsActivity.js:342-346 | The padded buffer is the message, a 0x01, zeros, and a last 0x80 bit, to a multiple of 136 bytes |
| Sponge.PaddingIsPad101 | app/scripts/reconcileVaultRewardsActivity.js:342-346 | On the bits, for every message: the padding is pad10*1 of section 5.1 of FIPS 202 with rate 1088 |
| Sponge.PaddingInjective | app/scripts/reconcileVaultRewardsActivity.js:342-346 | Two messages of any lengths that pad to the same bytes are the same |
| Sponge.AbsorbInPlace | app/scripts/reconcileVaultRewardsActivity.js:358-363 | A block is absorbed into the first 17 elements, little-endian, the rest untouched |
| Sponge.AbsorbJoins | app/scripts/reconcileVaultRewardsActivity.js:358-363 | Absorbing on halves is absorbing on lanes |
| LaneBytes.LaneReadsBack | app/scripts/reconcileVaultRewardsActivity.js:358-363 | Reading the bytes of a lane undoes reading them in, for every eight bytes |
| LaneBytes.LaneByteBits | app/scripts/reconcileVaultRewardsActivity.js:403-404 | Bit j of byte k of a lane is bit 8k + j of the lane |
| Sponge.AbsorbBits | app/scripts/reconcileVaultRewardsActivity.js:358-363 | Absorbing a block flips exactly the first 1088 state bits that the block has set |
| Sponge.SqueezeHalves | app/scripts/reconcileVaultRewardsActivity.js:399-406 | The output bytes are those of the first four joined lanes |
| Sponge.SqueezeBits | app/scripts/reconcileVaultRewardsActivity.js:399-406 | On the bits: a squeeze gives the first 256 bits of the state string |
| Sponge.Keccak256 | app/scripts/reconcileVaultRewardsActivity.js:331-407 | For every message the in-place loops compute the sponge digest on joined lanes, which KeccakBits.DigestIsKeccak identifies bit by bit |
| StepBits.ThetaBits | app/scripts/reconcileVaultRewardsActivity.js:365-379 | Algorithm 1 of FIPS 202 on every bit of every state |
| StepBits.RhoBits | app/scripts/reconcileVaultRewardsActivity.js:380-385 | Algorithm 2 on every bit |
| StepBits.PiBits | app/scripts/reconcileVaultRewardsActivity.js:380-385 | Algorithm 3 on every bit |
| StepBits.ChiBits | app/scripts/reconcileVaultRewardsActivity.js:386-394 | Algorithm 4 on every bit |
| StepBits.IotaBits | app/scripts/reconcileVaultRewardsActivity.js:395-396 | Algorithm 6 on every bit |
| KeccakBits.RoundsOnBits | app/scripts/reconcileVaultRewardsActivity.js:364-397 | Any number of rounds on lanes are those rounds of section 3.3 on the 1600-bit state string |
| KeccakBits.AbsorbedOnBits | app/scripts/reconcileVaultRewardsActivity.js:358-398 | Absorbing any number of blocks is absorbing their bits by section 4 |
| KeccakBits.DigestIsKeccak | app/scripts/reconcileVaultRewardsActivity.js:331-407 | For every message the bits of the digest are Keccak-256 of the bits of the message, the sponge written over bit strings as FIPS 202 does |
| Rlp.RlpUint | app/scripts/reconcileVaultRewardsActivity.js:411-418 | The byte loop gives the Appendix B encoding of the Ethereum Yellow Paper, and that of zero for anything not above zero |
| Rlp.NumberOfDigits | apex/api/lib/redis-block-db.js:100-103 | The decoder reads the big-endian digits back to the number |
| Rlp.PreimageDecodes | app/scripts/reconcileVaultRewardsActivity.js:420-424 | Every accepted pre-image decodes to its pair (negative numbers read as zero) |
| Rlp.DigitsOfNumber | app/scripts/reconcileVaultRewardsActivity.js:411-418 | A byte string without leading zeros is the digits of the number it spells |
| Rlp.PreimageIff | app/scripts/reconcileVaultRewardsActivity.js:420-424 | A byte string is the pre-image of a pair if and only if a strict Appendix B decoder, which refuses a small byte behind a length and leading zeros, reads that pair from it |
| Rlp.PreimageInjective | app/scripts/reconcileVaultRewardsActivity.js:420-424 | Two accepted pairs share a pre-image exactly when they agree, negative numbers read as zero |
| Rlp.SafeIntegersAccepted | app/scripts/reconcileVaultRewardsActivity.js:422 | The over-long refusal never meets numbers below 256^26 |
| Rlp.ReservedPreimagesApart | app/scripts/reconcileVaultRewardsActivity.js:1350-1359 | The reserved pairs have different pre-images if and only if the withdrawals fit below the seed offset |
| EventHash.EventHash | app/scripts/reconcileVaultRewardsActivity.js:420-424 | The key of a pair is Keccak-256, on bit strings, of the byte string a strict RLP decoder reads as the pair; refused are exactly the pairs that no short list spells |
| EventHash.HashMeans | app/scripts/reconcileVaultRewardsActivity.js:420-424 | The same for the function the loop is proved against |
| EventHash.AsByteDigit | app/scripts/reconcileVaultRewardsActivity.js:423 | Bit k of the byte made of a number below 256 is its binary digit k |
| EventHash.PairsAbsorbApart | app/scripts/reconcileVaultRewardsActivity.js:420-424 | Two accepted pairs are absorbed as the same padded blocks exactly when they are equal |
| Combine.CombineFiles | app/contracts/deploy/strato.js:149-170 | Terminates on every finite import graph; when it returns, the bundle is a completed walk and every text, cut at its newlines, has one line for each line of its file: an import behind two slashes, any other unchanged but for a space in place of its first carriage return; it throws exactly when a reachable file is missing or has an import without a quoted name, if base names identify files |
| Combine.Combiner.Read | app/contracts/deploy/strato.js:152-167 | The recursion: keeps the walk invariant, emits the file last, and fails only through a reachable bad file |
| Combine.Combiner.Emit | app/contracts/deploy/strato.js:166 | A file goes out after every import that is not still open above it |
| Combine.WalkReachesAll | app/contracts/deploy/strato.js:149-170 | With identifying base names the bundle holds each reachable file exactly once and nothing else |
| Combine.ImportsFirst | app/contracts/deploy/strato.js:149-170 | Also with cycles: an imported file comes first unless it leads back to its importer |
| Combine.TopologicalOrder | app/contracts/deploy/strato.js:148-170 | On acyclic imports each file comes after everything it imports, directly or not |
| Combine.EmittedImportsNothing | app/contracts/deploy/strato.js:156-164 | No emitted line is an import, so combining a bundle again follows nothing |
| Combine.SpaceKeepsRest | app/contracts/deploy/strato.js:163 | Rewriting a line turns exactly its first carriage return into a space |
| Combine.BufferMirrors | app/contracts/deploy/strato.js:152-167 | The text of a file, cut at its newlines, has one line for each source line: an import behind two slashes, any other with the same characters but a space for its first carriage return |
| Combine.QuotedMeans | app/contracts/deploy/strato.js:158 | The import name is the leftmost nonempty quoted run, and the match fails exactly when there is none |
| Latest.FoldIsLatest | app/ethereum/scripts/depositRouterQueueSetters.js:371-375 | The fold keeps, per key, exactly the entry no other beats by block number, later rows winning ties |
| Latest.OrderIrrelevant | app/ethereum/scripts/depositRouterQueueSetters.js:351-404 | Folding the same entries in another order gives the same map if same-key entries of equal block agree |
| Latest.TieFollowsOrder | app/ethereum/scripts/depositRouterQueueSetters.js:373 | It does not if two entries of one key and block disagree: the later one wins |
| Routes.TargetIsFirstAddress | app/ethereum/scripts/depositRouterQueueSetters.js:381-385 | The target of a flag row is the first of its four columns holding an address |
| Routes.TokenOfAssetRow | app/ethereum/scripts/depositRouterQueueSetters.js:356-360 | A blank key is the native token; only a malformed key falls back to the value of the row |
| Routes.RowsMean | app/ethereum/scripts/depositRouterQueueSetters.js:351-404 | Column by column: which rows are asset rows of a pair or explicit rows of a route, and that these enter stratoToken and enabled, and the mapping value |
| Routes.FoldsHoldLatestRows | app/ethereum/scripts/depositRouterQueueSetters.js:351-404 | The folds hold what the last row of greatest block says, and nothing without one |
| Routes.CollectLatest | app/ethereum/scripts/depositRouterQueueSetters.js:351-404 | Both folds over the rows, with every skipped row and fallback of the normalisation |
| Routes.MergeRoutes | app/ethereum/scripts/depositRouterQueueSetters.js:406-438 | The merged flag of a route is the asset flag on the default target, otherwise the explicit one, and only for known assets, in any map order |
| Routes.FlagIsListed | app/ethereum/scripts/depositRouterQueueSetters.js:346-466 | The merged flag is true exactly when the declarative meaning lists the route |
| Routes.ListByChain | app/ethereum/scripts/depositRouterQueueSetters.js:440-456 | Every chain lists its enabled routes, each once |
| Routes.Sort | app/ethereum/scripts/depositRouterQueueSetters.js:457-463 | Sorting gives a strictly increasing list of the same updates |
| Routes.BuildSetterConfig | app/ethereum/scripts/depositRouterQueueSetters.js:346-466 | On the columns of the rows: a route is listed exactly when its pair has a latest asset row and, if its stratoToken is the target, that row is enabled, otherwise the latest explicit row of the route has a true mapping value; lists are strictly sorted without duplicates |
| Routes.ConfigIgnoresRowOrder | app/ethereum/scripts/depositRouterQueueSetters.js:346-466 | Permuting rows changes nothing when rows of the same key and block agree, as with distinct block numbers |
| Liquidity.Isqrt | app/contracts/deploy/strato-gas-helium.js:34 | Terminates for every integer; from zero up the result r has r*r <= n < (r+1)*(r+1), below zero it is the argument |
| Liquidity.StepStaysAbove | app/contracts/deploy/strato-gas-helium.js:34 | A Newton step never lands below the true root |
| Liquidity.StepStopsAtRoot | app/contracts/deploy/strato-gas-helium.js:34 | A step that no longer decreases stands at the root |
| Liquidity.RootIsUnique | app/contracts/deploy/strato-gas-helium.js:34 | No other integer meets that bound |
| Liquidity.InitialSqrtPrice | app/contracts/deploy/strato-gas-helium.js:151-152 | The starting price is the greatest square-root price whose square does not exceed the price |
| Liquidity.SeedPool | app/contracts/deploy/strato-gas-helium.js:161-178 | In either token order the USDST amount never exceeds the budget and falls short by less than the stated ratio plus one; amounts are those of the liquidity rounded down; each maximum is 101 percent of its amount rounded down |
| Liquidity.FloorTwice | app/contracts/deploy/strato-gas-helium.js:167-169 | Scaling down and back loses less than one unit of each rounding, for every factor pair |
| Pool.RunIsSafe | load-testing/src/concurrency.ts:9-91 | At every moment of every interleaving: no index started twice, none before startAt + i * spacing, no timer set beyond that moment, in index order without timers, at most min(concurrency, total) in flight |
| Pool.ResultsAreOutcomes | load-testing/src/concurrency.ts:15-75 | In every run, slot i holds an outcome if and only if task i ended with it, and an error only with timers |
| Pool.TargetsDivideWindow | load-testing/src/concurrency.ts:42-54 | The start targets divide the time window evenly, the last one spacing before its end |
| Pool.RunKeeps | load-testing/src/concurrency.ts:9-91 | Every claimed index is held by exactly one worker or has its result, over every schedule of steps |
| Pool.AwaitedIsComplete | load-testing/src/concurrency.ts:26-27 | When all workers have returned, every index was started and every slot is set, if and only if there was a worker or nothing to do |
| Pool.RunsEnd | load-testing/src/concurrency.ts:18-24 | No schedule has more steps, beside time passing, than three per task and one per worker |
| Pool.WholeRunEnds | load-testing/src/concurrency.ts:18-24 | So a whole run takes at most three steps a task and one a worker |
| Pool.NeverStuck | load-testing/src/concurrency.ts:79-85 | From any reachable state with a live worker some step is possible, at once or when its timer is due |
| Pool.Shared.TakeNext | load-testing/src/concurrency.ts:20-22 | Taking the next index: start, timer or return |
| Pool.Shared.TimerFires | load-testing/src/concurrency.ts:55-59 | A due timer starts its task |
| Pool.Shared.TaskSettles | load-testing/src/concurrency.ts:57-74 | A result is stored; a thrown error is stored with timers and rejects the worker without |
| Decimal.RoundTrip | app/scripts/positionV3Liquidity.js:122-135 | toWei(fromWei(w, d, dp), d) is w - w mod 10^max(0, d - dp), hence w itself when dp >= d, for all w, d and dp |
| Decimal.ParsePrinted | app/scripts/positionV3Liquidity.js:122-135 | Parsing a printed amount refills the cut or stripped digits with zeros |
| Decimal.SplitBack | app/scripts/positionV3Liquidity.js:124-125 | The pattern splits a printed amount back into its two digit runs |
| Decimal.SplitIff | app/scripts/positionV3Liquidity.js:124-125 | Exactly the digit strings, with an optional point and more digits, are accepted, and the parts are those runs |
| Decimal.ToWeiMeans | app/scripts/positionV3Liquidity.js:123-128 | The parsed number is the whole part in units plus the fraction digits up to the decimals |
| Decimal.PrintedIsCanonical | app/scripts/positionV3Liquidity.js:130-135 | A printed amount has no needless leading or trailing zero and at most dp fraction digits |
| Decimal.PrintedIff | app/scripts/positionV3Liquidity.js:122-135 | The printed string is the only one of that form that parses to the amount shown: both directions, for every string |
| Decimal.StripIsPrefix | app/scripts/positionV3Liquidity.js:133 | Stripping removes trailing zeros and nothing else |
| Layers.PlanLayers | app/scripts/positionV3Liquidity.js:416-431 | Each layer gets its share of both budgets, rounded towards zero, negative shares among them |
| Layers.BasisPoints | app/scripts/positionV3Liquidity.js:137 | Within half a basis point of the weight, a half going up |
| Layers.RoundsTowardsZero | app/scripts/positionV3Liquidity.js:137 | A share is off its basis points of the budget by less than one unit, towards zero |
| Layers.AskedBounds | app/scripts/positionV3Liquidity.js:137 | The layers that take anything take their basis points of the budget, less than one unit short each, negative weights among them or not |
| Layers.NeverOverspends | app/scripts/positionV3Liquidity.js:428-429 | No budget is overspent if and only if the rounded weights above zero do not pass 10000 basis points |
| Layers.HundredthsSafeIffNotNegative | app/scripts/positionV3Liquidity.js:111-112 | Accepted weights of whole hundredths of a percent never overspend if and only if none is negative |
| Layers.NegativeWeightOverspends | app/scripts/positionV3Liquidity.js:111-112 | Weights 150, -50 pass the sum check and the first layer asks for one and a half budgets |
| Layers.AcceptedWeightsCanOverspend | app/scripts/positionV3Liquidity.js:111-112 | Weights 33.335, 33.335, 33.33 pass the sum check and overspend |
| Escrow.ApplyEscrows | ConfirmHeliumGenesisBlock.py:599-622 | The move loop, and its accounting: the new total plus what was overwritten is the old total plus the escrow excesses |
| Escrow.GrowsByExcessIffNoCollision | ConfirmHeliumGenesisBlock.py:599-622 | The total grows by exactly the sum of max(0, escrow - balance) if and only if no turn assigns where an earlier one left something |
| Escrow.MoveAddsExcess | ConfirmHeliumGenesisBlock.py:599-622 | So it does when migrated owners are distinct and the vault is not an owner |
| Escrow.FinalMeans | ConfirmHeliumGenesisBlock.py:599-622 | Then every owner keeps balance less escrow, the vault holds all escrows of owners, and nothing is overwritten |
| Escrow.OwnerKeeps | ConfirmHeliumGenesisBlock.py:599-622 | On the balances and the table alone: what an owner is left with and its escrow add up to the larger of balance and escrow |
| Escrow.MoveIgnoresOrder | ConfirmHeliumGenesisBlock.py:600 | And no balance depends on the iteration order |
| Escrow.MigrationOverwrites | ConfirmHeliumGenesisBlock.py:602-604 | With both BlockApps addresses as owners the later balance replaces the earlier one |
| Escrow.VaultOwnerOverwrites | ConfirmHeliumGenesisBlock.py:615-622 | With the vault as an owner its balance replaces the escrows received, or is added to, by order |
| Escrow.ConsolidateGrams | ConfirmHeliumGenesisBlock.py:253-259 | Gram entries are converted one by one and added up |
| Escrow.GramsOfUser | ConfirmHeliumGenesisBlock.py:253-259 | What is converted is exactly the balances of that user, each as often as it occurs |
| Escrow.ConversionLoss | ConfirmHeliumGenesisBlock.py:108-121 | Converting k gram balances one by one loses between 0 and k - 1 units against converting their sum |
| Escrow.LossReached | ConfirmHeliumGenesisBlock.py:121 | Two entries of 15 grams do lose a unit |
| Escrow.FullyEscrowedGrams | ConfirmHeliumGenesisBlock.py:202-205 | Among any distinct owners, a fully escrowed gram holding leaves its owner no balance, and its escrow exceeds the balance by at most k - 1 units |
| Escrow.GramsGrowTotal | ConfirmHeliumGenesisBlock.py:599-622 | If every escrow above its balance comes from converting grams, the total never shrinks and grows by at most k - 1 units for each such holding |
| Flows.History.Report | scripts/address_history.js:346-467 | For every token, received less spent over all sections and purposes is the net of the timeline plus source less saved amount of auto-saves whose source is the vault asset; every cell holds exactly its flows; the timeline has an entry for exactly the own, transferring and saving transactions, each with the net effect of its transfers; it throws exactly for a save into a vault of unknown asset |
| Flows.History.AddFlow | scripts/address_history.js:347-354 | One nested cell grows by the amount |
| Flows.CellsHoldTheirFlows | scripts/address_history.js:347-354 | Every cell holds the sum of exactly the flows put into it |
| Flows.History.ClassifyTransfers | scripts/address_history.js:355-386 | Every non-self, nonzero transfer is classified once |
| Flows.NothingSpentOutside | scripts/address_history.js:355-396 | In the finished tables borrowing only receives, and funding spends only if some transfer belongs to a deposit |
| Flows.SectionsMean | scripts/address_history.js:355-385 | One flow for each non-self, nonzero transfer, with its token, amount and direction, and the exact condition for each section in terms of labels, calls, deposits and withdrawals |
| Flows.PurposesMean | scripts/address_history.js:363-374 | The purpose of fees, deposits, withdrawals, bridge transfers, loans and gifts |
| Flows.ActivitiesMean | scripts/address_history.js:376-383 | Activity with a labelled party: markets first, then trades, pools and the CDP engine, otherwise the label itself |
| Flows.OtherActivitiesMean | scripts/address_history.js:376-383 | Activity with nothing labelled on either side |
| Flows.SaveMeans | scripts/address_history.js:387-396 | What an auto-save adds to each cell of the tables |
| Flows.ShownMeans | scripts/address_history.js:330 | How a vault is named: zero, its label, or ten characters of its address and an ellipsis |
| Flows.TimelineMeans | scripts/address_history.js:443-467 | The entries of the timeline and the net effect each holds |
| Flows.History.AddAutoSaves | scripts/address_history.js:387-396 | An auto-save is a bridge-in, a swap unless it arrived in the vault asset, and a payment into the vault |
| Flows.TransfersAgree | scripts/address_history.js:456-462 | The net of the classified transfers is the net of the timeline moves, token by token |
| Flows.SavesDrift | scripts/address_history.js:387-396 | Auto-saves cancel out except where the source token is the vault asset |
| Flows.TotalIsTokenSum | scripts/address_history.js:347-354 | Totals over the nested tables are sums over the flows |
| Flows.History.BuildTimeline | scripts/address_history.js:443-467 | The timeline entries and their moves |
| Health.CheckNodeSyncStallStatus | apex/api/daemons/node-health-check-utils.js:104-180 | One stall check against the stored record |
| Health.StalledMeans | apex/api/daemons/node-health-check-utils.js:104-180 | Over any trace, stalled holds exactly when the last maxStalledIntervals + 1 checks were unsynced and each saw the pair recorded before it |
| Health.CounterIsRunLength | apex/api/daemons/node-health-check-utils.js:134-152 | The stored counter is the length of the last stuck run, capped |
| Health.AlertMeans | apex/api/daemons/node-health-check-utils.js:504-506 | Over any levels, an alert holds exactly when one reached the alert level and none since fell below the close level |
| Health.CheckFilesystem | apex/api/daemons/node-health-check-utils.js:572-603 | One record a device: first mount, no overlays, hysteresis against the record found by name |
| Health.LevelMeans | apex/api/daemons/node-health-check-utils.js:572-603 | The level of a device is that of its first mount, and an overlay has none |
| Health.FindIgnoresOrder | apex/api/daemons/node-health-check-utils.js:604 | Sorting the records does not change what the next check finds |
| Health.CheckSystemInfo | apex/api/daemons/node-health-check-utils.js:502-605 | One system check, and a node is healthy exactly without memory, average-load and disk alerts |
| Health.AlertsMean | apex/api/daemons/node-health-check-utils.js:502-603 | Over any trace of checks, memory, both CPU alerts and each disk alert mean what the hysteresis says, an unseen device losing its alert |
| Paging.Page | app/contracts/deploy/strato-gas-audit.js:57-70 | With positive growing ids and rows only appended between requests: terminates with exactly the table the last request saw, each row once and in id order; an answer that is no list ends it early with a prefix |
| Paging.NextPage | app/contracts/deploy/strato-gas-audit.js:60-68 | A request above the last id read continues the table exactly where the reading stopped |
| Paging.GetAll | app/scripts/reconcileVaultRewardsActivity.js:575-584 | The offset loop returns the whole table, also when rows are appended meanwhile, and fails exactly on an answer that is no list |
| Paging.DeletionLosesARow | app/scripts/reconcileVaultRewardsActivity.js:578 | A deletion between two requests makes the offset reading miss a row that was there all along |

## Left out

- ReconcileRuns.EveryRunIsSafe: asks for fitting keys, counting amounts and no "Withdraw" routed as a deposit; each is shown exact by a lemma beside it.
- ReconcileRuns.SafeIffAmountsCount: in the state machine the opt-in is accepted whenever nothing is staked; event names held by another activity are modelled in `Rewards.Contract` and `OperatorRun`.
- OperatorRun.Recover: from the snapshot on, share balances and the event log stand still, the vault being paused, since a share move then makes the seed phase refuse for good; `ReconcileRuns` lets them move.
- Rewards.Contract.HandleAction: one activity only, the names other activities hold being a constant; direct payouts, one-time activities and the weight multiplier are not modelled, and `uint256` overflow is a revert only where a subtraction can go below zero.
- Rewards.Contract.BatchHandle: the workaround that sets a zero `maxBatchSize` to 100 is not modelled; the operator's states have a positive one.
- Operator.Unprocessed: event owners are absent or non-zero addresses, as the vault emits them.
- Sponge.Keccak256: collision resistance is not stated; only the padding and the pre-image are shown injective.
- EventHash.EventHash: the final hexadecimal spelling of the digest is not modelled.
- Combine.CombineFiles: the lines of a file hold no newline, as cutting at newlines leaves them, for the statement about what the bundle says; path joining is an arbitrary resolver; an import name and the path it resolves to have the same base name; the object format, which drops nothing because base names differ, is not modelled.
- Routes.BuildSetterConfig: columns are taken after trimming, lower-casing and parsing, so addresses are numbers and their order is that of equally long lower-case hexadecimal strings; block numbers are integers.
- Decimal.RoundTrip: the parser gets the already trimmed string; amounts are not negative.
- Layers.PlanLayers: weights are reals, so the floating-point error of `pct * 100` before rounding is not modelled, nor a weight that is no number, which passes the sum check and throws at positionV3Liquidity.js:137; ticks and prices are left out with the floating-point code.
- Liquidity.SeedPool: budgets are not negative; the tick range's edges, which the script's own comment neglects, are not modelled.
- Pool.RunIsSafe: one clock that does not go back, and timers that never fire early.
- Escrow.ApplyEscrows: the escrow table itself is a parameter; how escrows are grouped, scaled and added into it is not modelled.
- Flows.History.Report: purposes of bridge deposits and withdrawals are given texts, the transfers come from a query for the address, and their sorting by block, which no sum depends on, is left out.
- Health.CheckSystemInfo: levels are compared unrounded, as in the code; rounding for display and the error path that reports an unhealthy node are left out.
- Paging.Page: the server filters and orders by id as asked.
- `until`, `runForDuration`, HTTP retries below the level of a delivered request, OAuth, voting, printing, drift reports, colours and tables.
- The snapshot file's digest and target check, dry runs and the preflight and status phases, which send nothing.
- Other activities' rewards, token payouts and the claim of selected activities.
- The backend, the React application, the Haskell and Solidity sources other than `Rewards.sol`, migrations and models.
- JavaScript numbers are unbounded integers here; values above 2^53 are not modelled.
