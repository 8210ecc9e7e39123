# Accounting of the GODL program

The GODL program keeps four ledgers on chain. This project models them in Dafny, as state machines whose
steps are the program's instructions, and proves what their design relies on. An instruction that fails is
rolled back.

* **Stakes** share rewards in proportion to a weight (a linear or a square-root curve of the lock, then an
  NFT boost). A distribution only raises one shared factor; each stake settles its part when it is next used.
* **Rounds** take bets on 25 squares, draw a winner from 32 bytes of entropy, and pay each miner once.
* **Unrefined GODL** is what miners have mined and not claimed. A claim pays a tenth of it to those who wait.
* **Gold** is shared over the same unrefined balances by a second factor, opened only once the instructions
  that know nothing of it have expired.

## How the model is built

Every entity the program updates in place is a class whose methods follow the handlers statement by
statement, with the program's integer widths, checked and plain additions, saturating additions and truncating
casts written out. Each method is proved equal to a specification function over plain records. The run-level
theorems are about those functions: `Runs.Run` applies any history of instructions, with any inputs, and a law
proved for one step holds in every reachable state. A result is `Ok` or an `Err` that names the program's error;
`Panic` stands for a failed assertion or a plain operation that leaves its range.

The fixed-point number is a count of 2^-48. The laws of the three reward ledgers are kept in scaled form,
without rounding any term, because rounding early would not survive an induction.

| files | content |
|---|---|
| `Basics`, `FixedPoint`, `MapSums`, `Runs` | machine integers, errors, fixed point, finite sums, histories |
| `Accumulator`, `FairShare` | the theory of a lazily settled pro-rata ledger and of the eager ledger it stands for |
| `SquareRoot`, `StakeCurve`, `StakeState`, `LegacyStake`, `StakeHandlers`, `Bury`, `Tokens`, `TreasuryState` | stakes and their instructions |
| `StakeAccounting`, `StakeLedger`, `StakeTheorems`, `StakeLocks`, `StakeWeights`, `StakeHeadroom`, `StakeClaims` | the stake ledger over all histories |
| `MinerState`, `GoldState`, `MinerHandlers`, `OtcTrade` | unrefined GODL, gold and their instructions |
| `MiningLedger`, `MiningTheorems`, `MiningShares` | both accumulators over all histories, and the eager ledgers they stand for |
| `BoardState`, `RoundState`, `Draw`, `PoolState`, `RandomMask`, `Deploy`, `Reset`, `Checkpoint`, `Sweep` | the round game's instructions |
| `Payouts` | what all bets on one round are due together |
| `Game`, `GameLaws`, `GameSteps`, `GameTheorems`, `GameCredits`, `GameWitnesses` | the round game over all histories, what everybody is paid in the end, and two histories that reach its corners |

## Where the code and its own words differ

* `reset.rs` says that every outcome is the same whoever calls. One is not: when the pool holds the winning
  lamport and the lenient reset is not given its owner and membership, the round is left to be taken solo.
  `GameTheorems.OutcomeDoesNotDependOnTheCaller` gives the exact condition in every reachable state, for any
  accounts; `GameWitnesses.PoolWinLeftUndecided` reaches such a state from a fresh game.
* The checkpoint floors its fee bet by bet while the reset floors on the total, so the winners of a round can be
  due more lamports than the round has left. `GameWitnesses.TwoWinnersOverdraw` is a history that ends so,
  `Payouts.ExactBalance` the exact balance and condition, and `Payouts.SolExceedsByOnePerWinner` and `Payouts.SolNeverExceedsInMultiples` the bounds.
* A unit test of the curve expects it to move every multiplier other than 1x strictly. It does not within two grid
  points of 1x; `StakeCurve.CurveContracts` has the exact conditions.
* A comment in `bury_tokens.rs` gives stakers 4%; the constant, which the model follows, is 3%.
* Migration is meant to lower weights. A multiplier `m` never gains weight if and only if `m` is zero or at least
  two grid points below 1x (`StakeWeights.MigrationNeverRaisesExactly`); below that some stake gains. Stakes the
  program creates are never below 1x (`StakeWeights.RunNeverMigratesUp`).

## Model

| member | source | states |
|---|---|---|
| SquareRoot.IntegerSqrt | api/src/state/stake_v2.rs:70-86 | for every 128-bit input the Newton loop ends, without leaving 128 bits, at the exact floor of the square root, which fits 64 bits |
| SquareRoot.RootUnique | api/src/state/stake_v2.rs:70-86 | only one number brackets n between its square and the next |
| SquareRoot.RootMonotone | api/src/state/stake_v2.rs:70-86 | the root grows with its argument |
| SquareRoot.NewtonStep | api/src/state/stake_v2.rs:73-86 | a step from an upper bound gives an upper bound, and one that does not descend has reached the root |
| SquareRoot.InitialGuess | api/src/state/stake_v2.rs:73-86 | the starting guess taken from the leading zeros is an upper bound of at most 2^64 |
| StakeCurve.EffectiveMultiplier | api/src/state/stake_v2.rs:88-95 | the method returns the square-root curve of the multiplier |
| StakeCurve.CurveMonotone | api/src/state/stake_v2.rs:88-95 | a larger multiplier never gets a smaller effective one |
| StakeCurve.CurveAnchors | api/src/state/stake_v2.rs:346-353 | the curve fixes 0 and 1x, halves 4x and takes 20x to 4.472135954x |
| StakeCurve.CurveContracts | api/src/state/stake_v2.rs:400-427 | the curve pulls toward 1x; exactly when it moves a multiplier strictly and exactly when it leaves 1x |
| StakeCurve.LongerLockEarnsMore | program/src/stake_v2/deposit_v2.rs:6-17 | a longer lock never gets a smaller multiplier |
| StakeCurve.LockIsLinear | program/src/stake_v2/deposit_v2.rs:6-17 | the bonus over 1x is nineteen times the part of two years, rounded down |
| StakeCurve.LockEndpoints | program/src/stake_v2/deposit_v2.rs:6-17 | no lock is worth 1x and the longest lock or more is worth 20x |
| StakeState.StakeAccount.WeightedUnits | api/src/state/stake_v2.rs:105-130 | the weight by the stake's curve and boost, or the overflow it meets |
| StakeState.StakeAccount.UpdateRewards | api/src/state/stake_v2.rs:275-297 | settles at the current weight up to the treasury's factor |
| StakeState.StakeAccount.TakeRewards | api/src/state/stake_v2.rs:136-147 | settles, then takes up to the amount asked for |
| StakeState.StakeAccount.AddBalance | api/src/state/stake_v2.rs:149-177 | settles first, deposits at most the wallet, and moves the total by the change of weight |
| StakeState.StakeAccount.RemoveBalance | api/src/state/stake_v2.rs:179-203 | settles first, withdraws at most the balance, and moves the total by the change of weight |
| StakeState.StakeAccount.AttachNft | api/src/state/stake_v2.rs:205-225 | settles, boosts and reweighs, once |
| StakeState.StakeAccount.DetachNft | api/src/state/stake_v2.rs:227-247 | settles, unboosts and reweighs |
| StakeState.StakeAccount.MoveToSqrtCurve | api/src/state/stake_v2.rs:253-273 | settles at the old weight, moves to the square-root curve and reweighs; does nothing a second time |
| LegacyStake.StakeAccount.TakeRewards | api/src/state/stake.rs:45-51 | the v1 claim |
| LegacyStake.StakeAccount.RemoveBalance | api/src/state/stake.rs:68-75 | the v1 withdrawal, with plain subtractions |
| LegacyStake.StakeAccount.UpdateRewards | api/src/state/stake.rs:77-91 | the v1 settlement, weighted by the balance |
| StakeHandlers.ProcessOpen | program/src/stake_v2/deposit_v2.rs:20-145 | a new stake gets the lock's multiplier, today's factor and the whole amount, or nothing happens |
| StakeHandlers.ProcessTopUp | program/src/stake_v2/top_up_stake_v2.rs:49-105 | migrates, deposits all or nothing and restarts the lock |
| StakeHandlers.ProcessWithdraw | program/src/stake_v2/withdraw_v2.rs:37-94 | migrates, checks the lock, then withdraws and transfers |
| StakeHandlers.ProcessClaim | program/src/stake_v2/claim_yield_v2.rs:54-76 | pays settled rewards from the treasury |
| StakeHandlers.ProcessCompound | program/src/stake_v2/compound_yield_v2.rs:57-110 | migrates, claims all, burns one percent and deposits the rest |
| StakeHandlers.ProcessMigrate | program/src/stake_v2/migrate_stake_weight.rs:31-48 | anyone may move a stake to the square-root curve |
| StakeHandlers.ProcessStakeNft | program/src/stake_v2/stake_nft.rs:33-36 | migrates and boosts |
| StakeHandlers.ProcessUnstakeNft | program/src/stake_v2/unstake_nft.rs:33-36 | migrates and unboosts |
| StakeHandlers.ProcessReconcile | program/src/stake_v2/reconcile_stake_v2.rs:59-67 | withdraws exactly what the vault does not back |
| StakeHandlers.ProcessClose | program/src/stake_v2/close_stake_v2.rs:45-136 | only an empty, unboosted stake closes; it pays all rewards and sweeps the vault |
| StakeHandlers.ProcessMerge | program/src/stake_v2/merge_stake_v2.rs:79-168 | settles both at their own weights, folds the source in, longer lock from now, exact change of the total |
| Bury.ShareWithStakers | program/src/admin/bury_tokens.rs:53-61 | raises the stake factor by the stakers' share over the total |
| Bury.ShareCost | program/src/admin/bury_tokens.rs:53-61 | three percent, rounded down, are shared unless nobody stakes; the raised factor times the total never exceeds what was shared, and misses less than one total |
| Bury.ProcessBuryTokens | program/src/admin/bury_tokens.rs:46-125 | shares with stakers, pays the admin share and burns or sends away the rest |
| Accumulator.SolventDistribute | fuzz/fuzz_targets/op_sequence.rs:7-10 | a distribution over at least the recorded weight keeps a lazily settled ledger funded |
| Accumulator.SolventPut | fuzz/fuzz_targets/op_sequence.rs:7-10 | a step on one position keeps it funded when what is owed falls by at least what is paid |
| Accumulator.SettleAllCovered | fuzz/fuzz_targets/op_sequence.rs:127-137 | settling everybody at once, however rounded, stays within the funding |
| StakeAccounting.SettleKept | api/src/state/stake_v2.rs:275-297 | settling creates nothing, loses less than one unit and leaves the weight alone |
| StakeAccounting.ClaimKept | api/src/state/stake_v2.rs:136-147 | a claim pays only what is owed |
| StakeAccounting.DepositKept | api/src/state/stake_v2.rs:149-177 | a deposit settles at the old weight and moves the total by exactly the change of weight |
| StakeAccounting.WithdrawKept | api/src/state/stake_v2.rs:179-203 | so does a withdrawal |
| StakeAccounting.SetNftKept | api/src/state/stake_v2.rs:205-247 | so do both NFT operations |
| StakeAccounting.MigrateWeightKept | api/src/state/stake_v2.rs:253-273 | so does a migration |
| StakeAccounting.CompoundKept | program/src/stake_v2/compound_yield_v2.rs:57-110 | so does a compound, paying out exactly what it claims |
| StakeAccounting.MergeFused | program/src/stake_v2/merge_stake_v2.rs:95-139 | a merged stake is owed no more than its parts, each settled once, and the total moves by the change of weight |
| StakeAccounting.LegacyWithdrawKept | api/src/state/stake.rs:68-75 | a v1 withdrawal keeps the same books |
| StakeAccounting.LegacyClaimKept | api/src/state/stake.rs:45-51 | a v1 claim keeps the same books |
| StakeLedger.StepMoves | fuzz/fuzz_targets/op_sequence.rs:1-12 | every committed instruction is one abstract move: distribute, touch, open, merge or close |
| StakeLedger.MoveKeepsInvariant | fuzz/fuzz_targets/op_sequence.rs:7-10 | every move keeps the weight sum and the funding of rewards |
| StakeLedger.RunKeepsInvariant | fuzz/fuzz_targets/op_sequence.rs:7-10 | both laws hold after every history of v1 and v2 instructions |
| StakeTheorems.EmptyLedgerIsLawful | program/src/initialize.rs:88-96 | the empty ledger satisfies both laws |
| StakeTheorems.TotalStakedIsTheSumOfWeights | fuzz/fuzz_targets/op_sequence.rs:119-124 | after every history `total_staked` is the sum of the weighted units of all live stakes |
| StakeTheorems.RewardsAreConserved | fuzz/fuzz_targets/op_sequence.rs:127-137 | rewards paid plus what settling everyone would make claimable never exceed what was shared |
| StakeTheorems.SettlementNeverFails | api/src/state/stake_v2.rs:275-297 | while less than 2^64 was shared, every stake can always be settled |
| StakeTheorems.LazyRefinesEager | api/src/state/stake_v2.rs:275-297 | a settled stake has earned at most its exact pro-rata share, and less by at most 1 - 1/2^48 of a unit for each time it was settled plus weight/2^48 for each distribution it took part in |
| StakeTheorems.IdleStepsAreFree | api/src/state/stake_v2.rs:275-297 | waiting, burying too little to share and donating to a vault add nothing to that allowance |
| StakeTheorems.ObservedTakesTheSameStep | api/src/state/stake_v2.rs:275-297 | running the eager ledger beside the lazy one changes no step of it |
| StakeClaims.ClaimPaysInFull | api/src/state/stake_v2.rs:136-147 | a committed claim, from a v1 or a v2 stake, pays what is asked or leaves no rewards, and paid and left are what settling gives |
| StakeClaims.ClaimNeverFails | program/src/stake_v2/claim_yield_v2.rs:54-76 | while less than 2^64 was shared, a claim from an existing stake goes through in every reachable state |
| StakeClaims.CompoundTakesEverything | program/src/stake_v2/compound_yield_v2.rs:57-110 | a committed compound takes every settled reward, and all but a hundredth of it is in the balance |
| StakeClaims.ClosePaysEverything | program/src/stake_v2/close_stake_v2.rs:45-136 | a committed closing pays every reward of the stake |
| StakeClaims.EveryRewardIsAccountedFor | api/src/state/stake_v2.rs:136-147 | over every history, what was paid is to the unit what live stakes have drawn and all that closed stakes had earned |
| StakeClaims.LegacyWithdrawalPays | api/src/state/stake.rs:68-75 | a committed v1 withdrawal moves what is asked for, or all there is, out of balance, vault and total |
| StakeClaims.WithdrawalGoesThrough | program/src/stake_v2/withdraw_v2.rs:37-94 | in every ledger the supply allows, a backed stake can be withdrawn from if and only if it is unlocked and something is asked for |
| FairShare.TracksDistribution | program/src/admin/bury_tokens.rs:53-61 | a distribution moves the lazy and the eager account together up to the factor's floor |
| FairShare.TracksMerge | program/src/stake_v2/merge_stake_v2.rs:95-124 | a merge adds both parts' eager accounts |
| StakeLocks.ReconcileWithdrawsNothing | program/src/stake_v2/reconcile_stake_v2.rs:59-67 | reconciling a stake whose vault backs it changes neither its balance and weight nor the vault and the treasury |
| StakeLocks.MergeLocks | program/src/stake_v2/merge_stake_v2.rs:85-155 | a merged stake unlocks no earlier than either part and holds both balances and both vaults |
| StakeLocks.LocksLastTheirDuration | program/src/stake_v2/withdraw_v2.rs:37-45 | a lock lasts its whole duration from the deposit, the last top-up or, at the longer one, the merge |
| StakeLocks.StepRespectsLocks | program/src/stake_v2/withdraw_v2.rs:37-45 | no instruction moves an unlock time back or lowers a locked balance, and vaults stay backed |
| StakeLocks.RunKeepsBacking | program/src/stake_v2/withdraw_v2.rs:89-92 | in every reachable state each vault holds at least its recorded balance |
| StakeLocks.LockedBalanceStays | program/src/stake_v2/withdraw_v2.rs:40-45 | over every history that ends before its unlock time, however often it is merged, some stake holds at least its balance, backed and locked at least as long; it is the stake itself unless it was merged away |
| StakeLocks.LockedValueNeverFalls | program/src/stake_v2/merge_stake_v2.rs:85-155 | before any time t no history lowers the sum of all balances locked until t or later |
| StakeLocks.RunOnlyMovesForward | program/src/stake_v2/withdraw_v2.rs:40-45 | the ledger's clock never goes back |
| StakeWeights.WeightIs | api/src/state/stake_v2.rs:105-130 | a stake weighs its balance times its multiplier, and a tenth more when boosted, each rounded down |
| StakeWeights.MigrationNeverRaises | api/src/state/stake_v2.rs:249-273 | at multiplier zero or from two grid points below 1x up a migration raises neither the weight nor the total, and up to 1x it keeps the weight |
| StakeWeights.MigrationNeverRaisesExactly | api/src/state/stake_v2.rs:249-273 | no stake of a multiplier gains weight by migrating if and only if the multiplier is zero or at least two grid points below 1x |
| StakeWeights.MigrationRaises | api/src/state/stake_v2.rs:549-574 | at every other multiplier a balance of 10^9 gains |
| StakeWeights.RunNeverMigratesUp | program/src/stake_v2/deposit_v2.rs:6-17 | in every reachable state of program-created stakes no migration raises a weight |
| StakeWeights.MigrationCanRaiseBelowOne | api/src/state/stake_v2.rs:549-574 | a quarter multiplier becomes a half |
| StakeWeights.MergePricesLikeAFreshDeposit | program/src/stake_v2/merge_stake_v2.rs:107-139 | a merge weighs exactly a fresh deposit of both balances at the longer lock, and no less than both parts if their locks priced them |
| StakeWeights.MergeConservesRewards | program/src/stake_v2/merge_stake_v2.rs:95-119 | the merged rewards are both parts' rewards settled at their own weights |
| StakeWeights.RunKeepsPricing | program/src/stake_v2/deposit_v2.rs:6-17 | in every reachable state multipliers are those of the locks |
| StakeHeadroom.TotalStakedFits | api/src/state/stake_v2.rs:461-475 | with balances within the supply the total stays within 22 times the supply, under a third of 2^64 |
| StakeHeadroom.StakeOverflowNeverHappens | api/src/state/stake_v2.rs:149-273 | no instruction whose tokens exist meets StakeOverflow |
| StakeHeadroom.BookkeepingNeverOverflows | api/src/state/stake_v2.rs:149-273 | the same after every history |
| MinerState.MinerAccount.UpdateRewards | api/src/state/miner.rs:110-128 | settles the refined share on the unrefined balance |
| MinerState.MinerAccount.TakeGodl | api/src/state/miner.rs:80-101 | pays out both balances less a tenth of the unrefined one, which raises everybody's factor |
| MinerState.MinerAccount.TakeSol | api/src/state/miner.rs:103-108 | takes the SOL rewards and nothing else |
| GoldState.GoldVaultAccount.Spread | api/src/state/gold_vault.rs:42-67 | credits new and pending gold over the unrefined supply, or keeps it pending |
| GoldState.DistributeCost | api/src/state/gold_vault.rs:42-67 | the factor never promises more than was credited, no gold is lost between pending and credited, and none stays pending once there is supply |
| GoldState.MinerExtendedAccount.UpdateRewards | api/src/state/miner_extended.rs:48-63 | accrues gold on the unrefined balance with its three floors |
| GoldState.MinerExtendedAccount.constructor | api/src/state/miner_extended.rs:39-46 | a new account starts from a snapshot of the factor, with nothing accrued |
| GoldState.GoldShareBound | api/src/state/miner_extended.rs:56-58 | the floors never pay more than the exact share |
| GoldState.GoldShareLoss | api/src/state/miner_extended.rs:56-60 | and they lose less than one unit and the rise's part of the last bit of a gram |
| MinerHandlers.ExtendedSlot.LoadOrCreate | program/src/gold/mod.rs:18-53 | creates the account from a snapshot only when asked to |
| MinerHandlers.SyncGoldRewards | program/src/gold/mod.rs:55-78 | settles gold on the old balance; without an account there must be nothing to settle |
| MinerHandlers.CreditMined | program/src/miner/checkpoint_with_miner_extended.rs:215-241 | refines, then syncs gold, then credits |
| MinerHandlers.ProcessInject | program/src/admin/inject_unrefined_rewards.rs:47-85 | takes the tokens, settles, syncs, then raises the unrefined balance |
| MinerHandlers.ProcessClaimGodl | program/src/miner/claim_godl.rs:28-137 | syncs gold, claims, pays the referrer half a percent and the miner the rest; a settled claim fails only for the referrer's counters or for want of tokens |
| MinerHandlers.ProcessClaimGold | program/src/gold/claim_gold.rs:34-86 | settles and pays exactly the accrued gold |
| MinerHandlers.ProcessDepositGold | program/src/gold/deposit_gold.rs:15-59 | refuses before the expiry, then takes the tokens and distributes |
| OtcTrade.ProcessOtcTrade | program/src/otc/execute_otc_trade.rs:75-304 | checks the quote, books it, opens the stake, grants the bonus after settling and syncing, counts the totals |
| OtcTrade.TradeFillsExactly | program/src/otc/execute_otc_trade.rs:96-284 | the desk gives exactly the stake and the bonus, and the stake is locked for at least a month |
| MiningLedger.PlayedKeeps | api/src/state/miner.rs:110-128 | a step on one miner that settles before it moves the balance keeps every law |
| MiningLedger.RefineFair | api/src/state/miner.rs:110-128 | settling refined GODL loses less than one unit of the balance and of the lifetime total |
| MiningLedger.SyncFair | api/src/state/miner_extended.rs:48-63 | settling gold loses no more than its floors, of the balance and of the lifetime total |
| MiningLedger.EmptiedFair | api/src/state/miner.rs:80-101 | a claim pays both balances in full: what it takes and what it leaves is all that was owed, less than one unit apart |
| MiningLedger.ClaimGoldFair | program/src/gold/claim_gold.rs:34-86 | so does a claim of gold |
| MiningLedger.LegacyCheckpointMined | program/src/miner/checkpoint.rs:10-16 | the checkpoint that ignores gold is fair because it runs only while nothing is unsettled |
| MiningLedger.ClaimIsPayoutAndFee | api/src/state/miner.rs:80-101 | a claim is a full payout followed by a tenth moved from one lifetime total to the refined pool |
| MiningLedger.ReceiveGoldKeeps | program/src/gold/deposit_gold.rs:16-19 | distributions keep every law because they start only at the expiry |
| MiningLedger.StepKeeps | program/src/gold/mod.rs:55-60 | every instruction keeps every law of both accumulators |
| MiningLedger.RunKeepsInvariant | program/src/gold/mod.rs:55-60 | the laws hold after every history |
| MiningTheorems.EmptyMineIsLawful | program/src/initialize.rs:88-96 | the empty ledger is lawful |
| MiningTheorems.GodlIsConserved | api/src/state/miner.rs:80-128 | `total_unclaimed` is the sum of unrefined balances; paid, unrefined and refined GODL add up to all ever credited; the refined pool covers everybody |
| MiningTheorems.ClaimNeverUnderflows | api/src/state/miner.rs:80-101 | in every reachable state a claim goes through exactly when the factor stays in its 128 bits |
| MiningTheorems.GoldIsConserved | api/src/state/gold_vault.rs:45-67 | gold claimed plus everything accruable never exceeds what was distributed, and the vault's tokens cover all that was distributed and not claimed, and the pending gold besides |
| MiningTheorems.GoldNeverFails | api/src/state/miner_extended.rs:50-63 | gold can always be settled |
| MiningTheorems.GoldIsSettledFirst | program/src/gold/mod.rs:55-78 | in every reachable state an unrefined balance changes only after its gold is settled at the old balance, and late joiners start at zero |
| MiningShares.EmptyIsMirrored | program/src/initialize.rs:88-96 | with no miners there is nothing to keep together |
| MiningShares.StepTracks | program/src/gold/mod.rs:55-60 | every instruction keeps the lazy and the eager accounts of every miner together, in refined GODL and in gold |
| MiningShares.WatchedTakesTheSameStep | program/src/gold/mod.rs:55-60 | running the eager ledger beside the lazy one changes no step of it |
| MiningShares.RefinedShareIsFair | api/src/state/miner.rs:80-128 | after every history a settled miner has had its exact share of every claim fee, less at most 1 - 1/2^48 of a unit for each time it was settled and weight/2^48 for each fee; its lifetime total is that and what it mined less its own fees |
| MiningShares.GoldShareIsFair | api/src/state/miner_extended.rs:48-63 | after every history a synced miner has accrued its exact share of every gold distribution since it joined, less one unit and a 2^-96th of the rise for each settlement and weight over 10^6 times 2^48 for each distribution |
| RoundState.RoundAccount.CalculateTotalWinnings | api/src/state/round.rs:76-84 | the loop adds up every square but the winning one, or overflows |
| RoundState.TopMinerSample | api/src/state/round.rs:69-74 | the sample is a lamport of the winning square |
| Draw.DrawnBit | api/src/state/round.rs:53-63 | each bit of the drawn word is the parity of that bit in the four words of the entropy |
| Draw.EveryBitCounts | api/src/state/round.rs:53-63 | flipping any one bit of the entropy flips exactly one bit of the word |
| Draw.WordsCommute | api/src/state/round.rs:53-63 | the order of the four words is immaterial |
| Draw.SplitIsParity | api/src/state/round.rs:86-95 | a word splits if and only if an even number of its bits 15, 31, 47 and 63 are set |
| Draw.BackwardsIs | api/src/state/round.rs:69-74 | the reversed word is the one whose bit i is bit 63 - i of the word |
| Draw.ReadBackwards | api/src/state/round.rs:69-99 | the sample and the motherlode are remainders of the word read backwards |
| PoolState.PoolMemberAccount.ResetForRound | api/src/state/pool_member.rs:29-33 | a membership starts each round empty |
| PoolState.PoolMemberAccount.RecordDeploy | api/src/state/pool_member.rs:35-41 | one square and the total rise, saturating |
| PoolState.PoolRoundAccount.RecordDeploy | api/src/state/pool_round.rs:40-49 | one square, its count for a newcomer, and the total rise, saturating |
| RandomMask.GenerateRandomMask | program/src/miner/deploy_with_miner_extended.rs:345-360 | exactly the requested number of squares is selected, for any number up to 25 and any bytes |
| RandomMask.ChoosesExactly | program/src/miner/deploy_with_miner_extended.rs:345-360 | the selection never falls short or overshoots |
| RandomMask.FairOdds | program/src/miner/deploy_with_miner_extended.rs:345-360 | each square's odds are those still needed over the places left, to within one in 256 |
| RandomMask.EverySelectionIsPossible | program/src/miner/deploy_with_miner_extended.rs:345-360 | every selection of squares comes up for some bytes |
| Deploy.PlaceSquares | program/src/miner/deploy_with_miner_extended.rs:227-295 | the loop, early exit included, places the whole order at once or fails |
| Deploy.ExitDropsNothing | program/src/miner/deploy_with_miner_extended.rs:289-294 | when the balance is short of another square, no requested square is left |
| Deploy.ReadyMiner | program/src/miner/deploy_with_miner_extended.rs:179-196 | a miner enters a round with its last one checkpointed and no bet in this one |
| Deploy.StartRound | program/src/miner/deploy_with_miner_extended.rs:44-69 | only inside the window; the first bet starts the clock |
| Deploy.FinishDeploy | program/src/miner/deploy_with_miner_extended.rs:297-327 | lifetime total, checkpoint fee, the pool's cap of one SOL, and the automation's debit and closing |
| Deploy.ProcessDeploy | program/src/miner/deploy_with_miner_extended.rs:17-343 | the whole instruction; the legacy one has the same effect on the round |
| Deploy.DeploymentIsWhole | program/src/miner/deploy_with_miner_extended.rs:214-327 | a committed automation passed its preflight if and only if it placed; then every requested square is placed where the square ended and exactly amount times squares plus fee is debited |
| Deploy.DeploymentEntersOnce | program/src/miner/deploy_with_miner_extended.rs:179-196 | no miner that has bet in this round, or owes a checkpoint, can bet |
| Deploy.DeploymentPools | program/src/miner/deploy_with_miner_extended.rs:257-283 | the pool gains exactly what the membership gains |
| Deploy.DeploymentTotals | program/src/miner/deploy_with_miner_extended.rs:252-255 | the round's total stays the sum of its squares |
| Reset.SettlePot | program/src/miner/reset.rs:218-243 | winnings less fees less a tenth, and the sanity check |
| Reset.LatchLeniently | program/src/miner/reset.rs:258-279 | the pool is latched only for the owner of the winning lamport; other submissions are ignored or refused |
| Reset.LatchStrictly | program/src/miner/reset_permissionless.rs:253-292 | the owner of the winning lamport must be given |
| Reset.RewardRound | program/src/miner/reset.rs:245-295 | mints under the cap, fixes who takes the GODL, pays the motherlode |
| Reset.ProcessReset | program/src/miner/reset.rs:19-354 | the whole lenient reset, and the next round and pool it opens |
| Reset.ProcessResetPermissionless | program/src/miner/reset_permissionless.rs:25-364 | the whole strict reset, with the crank reward out of the admin fee |
| Reset.ResetsAgree | program/src/miner/reset_permissionless.rs:12-24 | when both resets commit on the same accounts they leave the same state and take the same fees |
| Reset.LenientWithoutCandidate | program/src/miner/reset.rs:6-18 | leaving the candidate out changes the outcome exactly when bets won, the draw does not split, and the winner's membership bet on the winning square in this round |
| Reset.OnlyTheTopDepends | program/src/miner/reset.rs:12-18 | whichever reset commits, with any candidate, fixes the same outcome up to who takes the GODL |
| Reset.SanityHoldsWithEquality | program/src/miner/reset.rs:236-243 | the tracked outflows add up to exactly the round's total |
| Reset.ClosedTop | program/src/miner/reset.rs:256-279 | who takes the GODL is fixed by the mode and the candidate in a won round, and left as it was in any other |
| Reset.ResetDivides | program/src/miner/reset.rs:161-243 | half a percent and one percent of everything are fees; of a lost round the vault gets the rest, of a won one a tenth of what the losing squares have left |
| Reset.VaultIsATenth | program/src/miner/reset.rs:218-243 | the losing squares' fee, the vault's tenth and the winnings, each up to the fraction of a lamport |
| Reset.RewardIsFull | program/src/miner/reset.rs:245-295 | reward and motherlode are minted in full or up to the cap, and a hit pays nine tenths of the motherlode |
| Reset.ResetConserves | program/src/miner/reset.rs:161-353 | lamports out of the round are fees and vault, and the supply stays under its cap |
| Reset.MotherlodeConserved | program/src/miner/reset.rs:245-295 | motherlode and reward grow by exactly what is minted |
| Checkpoint.SettleBets | program/src/miner/checkpoint_with_miner_extended.rs:90-213 | SOL, GODL in each mode, motherlode, or the refund |
| Checkpoint.TakeModeReward | program/src/miner/checkpoint_with_miner_extended.rs:124-184 | split, pool or solo share, recording a solo winner |
| Checkpoint.PayMiner | program/src/miner/checkpoint_with_miner_extended.rs:233-257 | books the SOL, moves the lamports, pays the bot fee and checks the miner's funding |
| Checkpoint.ProcessCheckpoint | program/src/miner/checkpoint_with_miner_extended.rs:15-260 | both checkpoint instructions, from the early returns to the last check |
| Checkpoint.ShareExact | program/src/miner/checkpoint_with_miner_extended.rs:120-121 | the truncating cast of a share is harmless when the part is within the whole |
| Sweep.ProcessClose | program/src/miner/close.rs:20-34 | an expired round's lamports above rent go to the treasury |
| Sweep.SweepLeavesTheRent | program/src/miner/close.rs:20-34 | an expired round keeps its rent and nothing else |
| Payouts.DueAmounts | program/src/miner/checkpoint_with_miner_extended.rs:90-213 | a committed checkpoint pays exactly the bet's dues |
| Payouts.DueInEachMode | program/src/miner/checkpoint_with_miner_extended.rs:124-199 | a winner is due its part of the reward when split, its part of the pool's when pooled, all or nothing when solo, and its part of the motherlode, up to the fraction of a unit |
| Payouts.SharesWithin | program/src/miner/checkpoint_with_miner_extended.rs:127-129 | floored shares of a total never add up to more than it |
| Payouts.GodlNeverExceeds | program/src/miner/checkpoint_with_miner_extended.rs:124-199 | in every mode all bets together are due at most reward plus motherlode |
| Payouts.PoolWithin | program/src/miner/checkpoint_with_miner_extended.rs:137-166 | the pool's case, because its total is the sum of its members |
| Payouts.SoloWithin | program/src/miner/checkpoint_with_miner_extended.rs:167-184 | at most one bet holds the sample |
| Payouts.SoloExactly | program/src/miner/checkpoint_with_miner_extended.rs:167-184 | and exactly one does, and is due the whole reward |
| Payouts.GodlNearlyAll | program/src/miner/checkpoint_with_miner_extended.rs:124-199 | in every mode all bets together are due more than reward plus motherlode less two units per winner |
| Payouts.WinningsNearlyAll | program/src/miner/checkpoint_with_miner_extended.rs:120-121 | and more than the winnings less one lamport per winner |
| Payouts.RefundsAreExact | program/src/miner/checkpoint_with_miner_extended.rs:201-213 | refunds add up to exactly what was deployed |
| Payouts.ShortfallIsDust | program/src/miner/checkpoint_with_miner_extended.rs:107-121 | winners are due more than remains by at most the fractions of a lamport their fees drop |
| Payouts.SolExceedsByOnePerWinner | program/src/miner/checkpoint_with_miner_extended.rs:107-121 | hence by at most one lamport per winner |
| Payouts.SolNeverExceedsInMultiples | program/src/miner/checkpoint_with_miner_extended.rs:107-121 | and by nothing when all deployments are multiples of 200 lamports |
| Payouts.ExactBalance | program/src/miner/reset.rs:161-243 | what is left when all winners are paid, to the lamport, and exactly when they all can be |
| Payouts.LeftoverIsDust | program/src/miner/checkpoint_with_miner_extended.rs:107-121 | when all winners are paid at most two lamports for each are left |
| GameLaws.BookedPut | program/src/miner/deploy_with_miner_extended.rs:227-283 | a bet laid at the end of each square keeps sums and intervals in order, and nothing saturates |
| GameLaws.TiledPut | program/src/miner/deploy_with_miner_extended.rs:246-253 | the new interval extends the partition of a square |
| GameSteps.BetsKeep | program/src/miner/deploy_with_miner_extended.rs:17-343 | a deployment keeps every law of the game |
| GameSteps.ClosedFinishes | program/src/miner/reset.rs:161-353 | a reset leaves a round that holds what its winners' theory asks for |
| GameSteps.ClosingKeeps | program/src/miner/reset.rs:19-354 | both resets keep every law of the game |
| GameSteps.CheckpointingKeeps | program/src/miner/checkpoint_with_miner_extended.rs:39-257 | a checkpoint, whatever accounts its caller leaves out, keeps every law of the game |
| GameSteps.StepKeeps | program/src/lib.rs:40-110 | every instruction keeps every law |
| GameSteps.RunKeepsLaw | program/src/lib.rs:40-110 | the laws hold after every history |
| GameTheorems.OpeningIsLawful | program/src/miner/reset.rs:64-99 | an open round with its pool and nothing else is lawful |
| GameCredits.OpeningIsWhole | program/src/miner/reset.rs:64-99 | and nothing has been paid in part |
| GameTheorems.IntervalsPartition | program/src/miner/deploy_with_miner_extended.rs:227-255 | in every reachable state each lamport of a live square lies in exactly one miner's interval |
| GameTheorems.ExactlyOneCandidate | program/src/miner/reset_permissionless.rs:257-280 | in every reachable state a strict reset that does not split accepts a candidate if and only if it owns the sample, and exactly one miner does |
| GameTheorems.OutcomeDoesNotDependOnTheCaller | program/src/miner/reset.rs:12-18 | in every reachable state both resets leave the same state if and only if nothing is drawn, nobody won, the pool is not to take the round, or the caller passed the owner of the sample with its membership; otherwise they differ in an undecided pool win |
| GameTheorems.TopsAgreeExactly | program/src/miner/reset.rs:258-279 | the same condition for who takes the GODL |
| GameWitnesses.PoolWinLeftUndecided | program/src/miner/reset.rs:12-18 | a history after which three committed resets do not agree |
| GameWitnesses.TwoWinnersOverdraw | program/src/miner/checkpoint_with_miner_extended.rs:107-121 | a history after which two winners of 133 lamports are due 264 of the 263 their round holds above rent |
| GameTheorems.BetsAddUp | api/src/state/pool_round.rs:40-49 | all bets add up to each square, and the members' to the pool's |
| GameTheorems.PaidAtMostOnce | program/src/miner/checkpoint_with_miner_extended.rs:39-60 | no step changes a payment or pays a miner twice for a round |
| GameTheorems.SolPaidWithinRound | program/src/miner/checkpoint_with_miner_extended.rs:107-121 | the SOL paid on a round, in any order, is within what it had left plus one lamport per winner, and within it in multiples of 200 |
| GameTheorems.RefundedExactly | program/src/miner/checkpoint_with_miner_extended.rs:201-213 | a round without randomness gives back at most, and in the end exactly, what was deployed |
| GameTheorems.GodlPaidWithinReward | program/src/miner/checkpoint_with_miner_extended.rs:124-199 | the GODL credited on a round is at most its reward plus its motherlode |
| GameCredits.GodlPaidInFull | program/src/miner/checkpoint_with_miner_extended.rs:124-199 | once every bettor of a won round has come, with the pool's accounts if the pool won, less than two units of its GODL per winner are not credited, and less than one when a single miner took the reward |
| GameCredits.SolPaidInFull | program/src/miner/checkpoint_with_miner_extended.rs:107-121 | and at most two lamports per winner are not paid |
| GameCredits.RunKeepsWhole | program/src/miner/checkpoint_with_miner_extended.rs:137-166 | every payment made with the pool's accounts is exactly what the bet is due |
| GameCredits.DueCheckpointPays | program/src/miner/checkpoint_with_miner_extended.rs:39-257 | in every reachable state a due checkpoint commits if and only if its amounts fit in 64 bits and the round holds the lamports; it then pays exactly what the bet is due and settles the miner |
| GameCredits.NothingDueIsSwept | program/src/miner/close.rs:20-34 | no round is swept while somebody can still be paid from it |
| GameTheorems.RoundCoversEveryMiner | program/src/miner/checkpoint_with_miner_extended.rs:243-246 | what the next miner is due is covered by what the round holds above rent, up to a lamport per winner |
| GameTheorems.FundingCheckNeverFires | program/src/miner/checkpoint_with_miner_extended.rs:251-257 | the final check on the miner's lamports never fires |
| GameTheorems.SanityCheckNeverFires | program/src/miner/reset.rs:236-243 | nor does the reset's sanity check |
| GameTheorems.SupplyStaysCapped | program/src/miner/reset.rs:245-254 | no history mints past the cap |

## Left out

- Signers, program-derived addresses, owners, account sizes and rent transfers: typed state, maps keyed by owner or round, and parameters stand for them.
- Calls into the token, swap, entropy, mint, NFT and keccak programs: token accounts are amounts, a swap's gain, the entropy and the hash are arbitrary inputs.
- The treasury's own token balance in the ledgers: a shortage there only makes an instruction fail.
- Fixed-point overflow past 128 bits: modelled as an aborted instruction.
- `RebaseTotalStaked`, `RebaseTotalUnclaimed`, `ClosePhantomStake`: administrative overrides of the totals.
- Stakes without backing from before the vault checks: the lock theorems start from backed vaults.
- v1 deposits: the program disables them; the account's method is there, the ledger has no such instruction.
- Setters, growth of the configuration, referral setup, executors of stakes, OTC funding and withdrawal, the packed configuration of automations: true but easy.
- Automations in the round game: their accounts are inputs of a deployment, so every balance and plan is covered; creating and refunding them is not.
- The GODL side of a checkpoint inside the round game: an input decides whether it goes through; the other ledger proves what it does.
- Reserved addresses: the stored top miner is a datatype, so that no miner's key can be mistaken for the split or pool address.
- The runtime's own check that accounts stay rent-exempt: a payment fails in the model only when lamports run out.
- The swap of a bury and of a gold purchase: what they yield is an input.
- `ClaimSOLAndFundAutomation`: for the four ledgers it is a SOL claim with a smaller referral; the model has the claim only.
- SolMotherlode withdrawals and payouts: they touch none of the four ledgers.
