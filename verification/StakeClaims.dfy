/** What a staker gets: claims pay what is asked for as far as it is there, closing and compounding
    pay all of it, and over a whole run every unit earned was paid or is still held. */
module StakeClaims {
  import opened Accumulator
  import opened Basics
  import opened FixedPoint
  import opened MapSums
  import opened StakeAccounting
  import opened StakeHandlers
  import opened StakeHeadroom
  import opened StakeLedger
  import opened StakeLocks
  import opened StakeState
  import opened StakeTheorems
  import opened TreasuryState
  import LegacyStake
  import Runs

  ghost function Holdings(a: Account): nat {
    AccountTally(a).rewards
  }

  /** A claim of `asked` that paid `paid`: no more than asked, and less only if that was all there
      was. Nothing of the rewards is lost. */
  ghost predicate PaysInFull(before: Account, after: Account, factor: Fixed, asked: nat, paid: int) {
    && 0 <= paid <= asked
    && (paid == asked || Holdings(after) == 0)
    && Holdings(after) + paid == Payable(before, factor)
  }

  lemma ModernClaimPays(l: Ledger, key: Key, amount: uint64)
    requires Step(l, ClaimYieldV2(key, amount)).Ok?
    ensures var n := Step(l, ClaimYieldV2(key, amount)).value;
      && key in l.accounts && key in n.accounts
      && PaysInFull(l.accounts[key], n.accounts[key], l.treasury.stakeRewardsFactor, amount, n.paid - l.paid)
  {
    hide Settle;
  }

  lemma LegacyClaimPays(l: Ledger, key: Key, amount: uint64)
    requires Step(l, ClaimYieldV1(key, amount)).Ok?
    ensures var n := Step(l, ClaimYieldV1(key, amount)).value;
      && key in l.accounts && key in n.accounts
      && PaysInFull(l.accounts[key], n.accounts[key], l.treasury.stakeRewardsFactor, amount, n.paid - l.paid)
  {
    hide LegacyStake.Settle;
  }

  /** A committed claim, from a v1 or a v2 stake, pays what is asked or everything. */
  lemma ClaimPaysInFull(l: Ledger, i: Instruction)
    requires i.ClaimYieldV2? || i.ClaimYieldV1?
    requires Step(l, i).Ok?
    ensures var n := Step(l, i).value;
      && i.key in l.accounts && i.key in n.accounts
      && PaysInFull(l.accounts[i.key], n.accounts[i.key], l.treasury.stakeRewardsFactor, i.amount, n.paid - l.paid)
  {
    hide Step, PaysInFull;
    match i
    case ClaimYieldV2(key, amount) => ModernClaimPays(l, key, amount);
    case ClaimYieldV1(key, amount) => LegacyClaimPays(l, key, amount);
  }

  /** While less than 2^64 has been shared, a claim from an existing stake always goes through. */
  lemma ClaimNeverFails(l: Ledger, history: seq<Instruction>, key: Key, amount: uint64)
    requires Invariant(l)
    requires var n := Runs.Run(Step, l, history); n.funded <= UINT64_MAX && key in n.accounts
    ensures var n := Runs.Run(Step, l, history);
      Step(n, if n.accounts[key].Modern? then ClaimYieldV2(key, amount) else ClaimYieldV1(key, amount)).Ok?
  {
    hide Runs.Run, Invariant, Settle, LegacyStake.Settle;
    SettlementNeverFails(l, history, key);
  }

  lemma HarvestPays(s: Stake, treasury: Treasury, now: int64)
    requires Harvest(s, treasury, now).Ok?
    ensures var c := Harvest(s, treasury, now).value;
      && Settle(s, treasury.stakeRewardsFactor).Ok? && c.amount == Settle(s, treasury.stakeRewardsFactor).value.rewards
      && c.stake.rewards == 0 && c.stake.rewardsFactor == treasury.stakeRewardsFactor == c.treasury.stakeRewardsFactor
  {
    hide Units;
  }

  /** A committed compound takes every settled reward; all but one percent is in the balance. */
  lemma CompoundTakesEverything(l: Ledger, key: Key)
    requires Step(l, CompoundYieldV2(key)).Ok?
    ensures var n := Step(l, CompoundYieldV2(key)).value;
      && key in l.accounts && key in n.accounts && l.accounts[key].Modern? && n.accounts[key].Modern?
      && Holdings(n.accounts[key]) == 0
      && var paid := n.paid - l.paid;
      && paid == Payable(l.accounts[key], l.treasury.stakeRewardsFactor)
      && n.accounts[key].holding.stake.balance == l.accounts[key].holding.stake.balance + (paid - paid / 100)
  {
    hide Harvest;
    var h := l.accounts[key].holding;
    HarvestPays(h.stake, l.treasury, l.now);
    HarvestFrame(h.stake, l.treasury, l.now);
  }

  lemma HarvestFrame(s: Stake, treasury: Treasury, now: int64)
    requires Harvest(s, treasury, now).Ok?
    ensures Harvest(s, treasury, now).value.stake.balance == s.balance
  {
    hide Units;
  }

  /** A committed closing pays every reward of the stake: nothing is lost with the account. */
  lemma ClosePaysEverything(l: Ledger, key: Key)
    requires Step(l, CloseStakeV2(key)).Ok?
    ensures var n := Step(l, CloseStakeV2(key)).value;
      && key in l.accounts && key !in n.accounts
      && n.paid - l.paid == Payable(l.accounts[key], l.treasury.stakeRewardsFactor) == Holdings(l.accounts[key])
  {
    hide Settle, Units;
    WeightlessEarnsNothing(l.accounts[key].holding.stake, l.treasury.stakeRewardsFactor);
  }

  /** A committed v1 withdrawal moves what is asked for, or all there is, out of balance and vault. */
  lemma LegacyWithdrawalPays(l: Ledger, key: Key, amount: uint64)
    requires Step(l, WithdrawV1(key, amount)).Ok?
    ensures var n := Step(l, WithdrawV1(key, amount)).value;
      && key in l.accounts && l.accounts[key].Legacy? && key in n.accounts && n.accounts[key].Legacy?
      && var a, b := l.accounts[key], n.accounts[key];
      && b.legacy.balance == Max(a.legacy.balance - amount, 0)
      && a.vault - b.vault == a.legacy.balance - b.legacy.balance == l.treasury.totalStaked - n.treasury.totalStaked
  {
    hide Accrued;
  }

  lemma WithdrawFails(h: Holding, t: Treasury, amount: uint64, now: int64)
    requires h.stake.balance <= h.vault && Settle(h.stake, t.stakeRewardsFactor).Ok?
    ensures now < UnlockAt(h.stake) || amount == 0 ==> WithdrawUnlocked(h, t, amount, now).Err?
    ensures UnlockAt(h.stake) <= now && 0 < amount ==>
      WithdrawUnlocked(h, t, amount, now).Ok? || WithdrawUnlocked(h, t, amount, now) == Err(StakeOverflow)
  {
    hide MigrateWeight, Withdraw, Settle, UnlockAt;
    MigrateFails(h.stake, t);
    if MigrateWeight(h.stake, t).Ok? {
      var m := MigrateWeight(h.stake, t).value;
      WithdrawStakeFails(m.stake, m.treasury, amount, now);
    }
  }

  lemma MigrateFails(s: Stake, t: Treasury)
    requires Settle(s, t.stakeRewardsFactor).Ok?
    ensures var m := MigrateWeight(s, t);
      if m.Err? then m.error == StakeOverflow
      else
        && m.value.stake.balance == s.balance && UnlockAt(m.value.stake) == UnlockAt(s)
        && m.value.treasury.stakeRewardsFactor == t.stakeRewardsFactor && Settle(m.value.stake, t.stakeRewardsFactor).Ok?
  {
    hide Accrued, Units;
    if s.weightVersion == 0 {
      var settled := Settle(s, t.stakeRewardsFactor).value;
      UnitsFail(settled);
      UnitsFail(settled.(weightVersion := 1));
    }
  }

  lemma WithdrawStakeFails(s: Stake, t: Treasury, amount: uint64, now: int64)
    requires Settle(s, t.stakeRewardsFactor).Ok?
    ensures var c := Withdraw(s, t, amount, now);
      if c.Err? then c.error == StakeOverflow
      else c.value.amount == Min(s.balance, amount) && c.value.stake.balance == s.balance - c.value.amount
  {
    hide Accrued, Units;
    var settled := Settle(s, t.stakeRewardsFactor).value;
    var moved := Min(settled.balance, amount);
    UnitsFail(settled);
    UnitsFail(settled.(balance := settled.balance - moved, lastWithdrawAt := now));
  }

  lemma UnitsFail(s: Stake)
    ensures Units(s).Ok? || Units(s) == Err(StakeOverflow)
  {
    hide CurveMultiplier;
  }

  /** In every ledger the token supply allows, a backed stake can be withdrawn from exactly when it
      is unlocked and something is asked for. */
  lemma WithdrawalGoesThrough(l: Ledger, key: Key, amount: uint64)
    requires Plausible(l) && Backed(l) && key in l.accounts && l.accounts[key].Modern?
    ensures Step(l, WithdrawV2(key, amount)).Ok? <==> UnlockAt(l.accounts[key].holding.stake) <= l.now && 0 < amount
  {
    hide Settle, WithdrawUnlocked, Solvent, TotalWeight, TotalBalance, UnlockAt;
    var h := l.accounts[key].holding;
    AccountSettles(l, key);
    WithdrawFails(h, l.treasury, amount, l.now);
    StakeOverflowNeverHappens(l, WithdrawV2(key, amount));
  }

  /** What each stake has been paid in its lifetime. */
  ghost function Drawn(a: Account): int {
    AccountTally(a).lifetime - AccountTally(a).rewards
  }

  ghost function DrawnOf(accounts: map<Key, Account>): map<Key, int> {
    map k | k in accounts :: Drawn(accounts[k])
  }

  ghost function Lifetime(l: Ledger, key: Key): nat {
    if key in l.accounts then AccountTally(l.accounts[key]).lifetime else 0
  }

  ghost function RetiredBy(l: Ledger, i: Instruction): nat {
    if i.CloseStakeV2? && Step(l, i).Ok? then Lifetime(l, i.key) else 0
  }

  /** The lifetime rewards of all stakes a history closes. */
  ghost function Retired(l: Ledger, history: seq<Instruction>): nat
    decreases |history|
  {
    if history == [] then 0
    else RetiredBy(l, history[0]) + Retired(Runs.Commit(l, Step(l, history[0])), history[1..])
  }

  lemma DrawnPut(l: Ledger, n: Ledger, key: Key)
    requires key in n.accounts && n.accounts == l.accounts[key := n.accounts[key]]
    ensures Sum(DrawnOf(n.accounts)) == Sum(DrawnOf(l.accounts)) - At(DrawnOf(l.accounts), key) + Drawn(n.accounts[key])
  {
    hide Drawn, Sum;
    assert DrawnOf(n.accounts) == DrawnOf(l.accounts)[key := Drawn(n.accounts[key])];
    SumPut(DrawnOf(l.accounts), key, Drawn(n.accounts[key]));
  }

  lemma DrawnDrop(accounts: map<Key, Account>, key: Key)
    ensures Sum(DrawnOf(accounts - {key})) == Sum(DrawnOf(accounts)) - At(DrawnOf(accounts), key)
  {
    hide Drawn, Sum;
    assert DrawnOf(accounts - {key}) == DrawnOf(accounts) - {key};
    SumRemove(DrawnOf(accounts), key);
  }

  lemma DrawnMerge(l: Ledger, n: Ledger, target: Key, source: Key)
    requires MergedTo(l, n, target, source)
    ensures Sum(DrawnOf(n.accounts)) == Sum(DrawnOf(l.accounts))
  {
    hide Sum;
    var parted := l.accounts - {source};
    DrawnDrop(l.accounts, source);
    DrawnPut(l.(accounts := parted), n, target);
  }

  lemma MoveDraws(l: Ledger, n: Ledger, m: Move)
    requires Moves(l, n, m)
    ensures n.paid - l.paid
         == Sum(DrawnOf(n.accounts)) - Sum(DrawnOf(l.accounts)) + if m.Closed? then Lifetime(l, m.key) else 0
  {
    hide Sum;
    match m
    case Distributed(_) =>
    case Touched(key, _) => DrawnPut(l, n, key);
    case Opened(key) => DrawnPut(l, n, key);
    case Merged(target, source) => DrawnMerge(l, n, target, source);
    case Closed(key, _) => DrawnDrop(l.accounts, key);
  }

  lemma StepDraws(l: Ledger, i: Instruction)
    requires Invariant(l) && Step(l, i).Ok?
    ensures Step(l, i).value.paid - l.paid
         == Sum(DrawnOf(Step(l, i).value.accounts)) - Sum(DrawnOf(l.accounts)) + RetiredBy(l, i)
    ensures Invariant(Step(l, i).value)
  {
    hide Step, Sum, Invariant, Moves, DrawnOf;
    var n := Step(l, i).value;
    StepMoves(l, i);
    MoveKeepsInvariant(l, n, MoveOf(l, n, i));
    MoveDraws(l, n, MoveOf(l, n, i));
  }

  /** Over any history, what was paid is to the unit what live stakes have drawn of their lifetime
      rewards and all of the lifetime rewards of the stakes that were closed. */
  lemma {:induction false} EveryRewardIsAccountedFor(l: Ledger, history: seq<Instruction>)
    requires Invariant(l)
    ensures var n := Runs.Run(Step, l, history);
      n.paid - l.paid == Sum(DrawnOf(n.accounts)) - Sum(DrawnOf(l.accounts)) + Retired(l, history)
    decreases |history|
  {
    hide Step, Sum, Invariant, DrawnOf, RetiredBy;
    if history != [] {
      if Step(l, history[0]).Ok? {
        StepDraws(l, history[0]);
      } else {
        NothingRetired(l, history[0]);
      }
      EveryRewardIsAccountedFor(Runs.Commit(l, Step(l, history[0])), history[1..]);
    }
  }

  lemma NothingRetired(l: Ledger, i: Instruction)
    requires Step(l, i).Err?
    ensures RetiredBy(l, i) == 0
  {
    hide Step;
  }
}
