/** The v2 stake instructions: the order in which each one migrates, settles, moves tokens and
    checks, over a stake, its vault and the treasury. */
module StakeHandlers {
  import opened Basics
  import opened FixedPoint
  import opened StakeCurve
  import opened StakeState
  import opened Tokens
  import opened TreasuryState

  /** A stake account together with the amount in its token vault. */
  datatype Holding = Holding(stake: Stake, vault: nat)

  /** What an instruction leaves; `paid` leaves the treasury's reward tokens and `moved` passes
      between the stake's owner and the vault. */
  datatype Outcome = Outcome(holding: Holding, treasury: Treasury, paid: nat, moved: nat)

  ghost function UnlockAt(s: Stake): int64 {
    Min(s.createdAt + Max(s.lockDuration, 0), INT64_MAX)
  }

  ghost function FreshStake(lockDuration: int64, now: int64, factor: Fixed): Stake {
    Stake(0, 0, 0, 0, factor, 0, 0, StakeMultiplier(lockDuration), lockDuration, now, 0, 1)
  }

  /** Opens a stake in an unused account; `vault` is whatever its token account already holds. */
  ghost function Open(treasury: Treasury, vault: nat, amount: uint64, lockDuration: int64, now: int64, wallet: uint64): Result<Outcome> {
    if lockDuration < 0 || lockDuration > MAX_LOCK_DURATION then Err(InvalidLockDuration)
    else if amount == 0 then Err(AmountTooSmall)
    else
      var empty :- Settle(FreshStake(lockDuration, now, treasury.stakeRewardsFactor), treasury.stakeRewardsFactor);
      var change :- Deposit(empty, treasury, amount, now, wallet);
      if change.amount != amount then Err(AmountTooSmall)
      else if vault + change.amount < change.stake.balance then Err(Panic)
      else Ok(Outcome(Holding(change.stake, vault + change.amount), change.treasury, 0, change.amount))
  }

  ghost function TopUp(h: Holding, treasury: Treasury, amount: uint64, now: int64, wallet: uint64): Result<Outcome> {
    if amount == 0 then Err(AmountTooSmall)
    else
      var migrated :- MigrateWeight(h.stake, treasury);
      var change :- Deposit(migrated.stake, migrated.treasury, amount, now, wallet);
      if change.amount != amount then Err(AmountTooSmall)
      else if h.vault + change.amount < change.stake.balance then Err(InvalidAccountData)
      else Ok(Outcome(Holding(change.stake.(createdAt := now), h.vault + change.amount), change.treasury, 0, change.amount))
  }

  ghost function WithdrawUnlocked(h: Holding, treasury: Treasury, amount: uint64, now: int64): Result<Outcome> {
    var migrated :- MigrateWeight(h.stake, treasury);
    if now < UnlockAt(migrated.stake) then Err(StakeLocked)
    else if amount == 0 then Err(AmountTooSmall)
    else
      var change :- Withdraw(migrated.stake, migrated.treasury, amount, now);
      if h.vault < change.amount then Err(InsufficientTokens)
      else if h.vault - change.amount < change.stake.balance then Err(Panic)
      else Ok(Outcome(Holding(change.stake, h.vault - change.amount), change.treasury, 0, change.amount))
  }

  ghost function ClaimYield(h: Holding, treasury: Treasury, amount: uint64, now: int64): Result<Outcome> {
    var change :- Claim(h.stake, treasury, amount, now);
    Ok(Outcome(h.(stake := change.stake), treasury, change.amount, 0))
  }

  ghost function Harvest(s: Stake, treasury: Treasury, now: int64): Result<Change> {
    var migrated :- MigrateWeight(s, treasury);
    Claim(migrated.stake, migrated.treasury, UINT64_MAX, now)
  }

  ghost function Redeposit(claimed: Change, vault: nat, amount: uint64, now: int64): Result<Outcome> {
    var change :- Deposit(claimed.stake, claimed.treasury, amount, now, Min(vault, UINT64_MAX));
    if vault < change.stake.balance then Err(InvalidAccountData)
    else Ok(Outcome(Holding(change.stake, vault), change.treasury, claimed.amount, 0))
  }

  /** Claims everything, burns one percent and redeposits the rest; both parts are paid out of
      the reward tokens. */
  ghost function Compound(h: Holding, treasury: Treasury, now: int64): Result<Outcome> {
    var claimed :- Harvest(h.stake, treasury, now);
    if claimed.amount == 0 then Err(AmountTooSmall)
    else
      var amount := claimed.amount - claimed.amount / 100;
      Redeposit(claimed, h.vault + amount, amount, now)
  }

  ghost function Migrate(h: Holding, treasury: Treasury): Result<Outcome> {
    var change :- MigrateWeight(h.stake, treasury);
    Ok(Outcome(h.(stake := change.stake), change.treasury, 0, 0))
  }

  ghost function BoostWithNft(h: Holding, treasury: Treasury): Result<Outcome> {
    var migrated :- MigrateWeight(h.stake, treasury);
    var change :- StakeNft(migrated.stake, migrated.treasury);
    Ok(Outcome(h.(stake := change.stake), change.treasury, 0, 0))
  }

  ghost function ReleaseNft(h: Holding, treasury: Treasury): Result<Outcome> {
    var migrated :- MigrateWeight(h.stake, treasury);
    var change :- UnstakeNft(migrated.stake, migrated.treasury);
    Ok(Outcome(h.(stake := change.stake), change.treasury, 0, 0))
  }

  /** Withdraws on paper whatever the vault does not back; no tokens move. */
  ghost function Reconcile(h: Holding, treasury: Treasury, now: int64): Result<Outcome> {
    var change :- Withdraw(h.stake, treasury, Max(h.stake.balance - h.vault, 0), now);
    Ok(Outcome(h.(stake := change.stake), change.treasury, 0, change.amount))
  }

  /** Closes an empty stake: its rewards are paid and the vault's residue is swept. */
  ghost function Close(h: Holding, treasury: Treasury, now: int64): Result<Outcome> {
    if h.stake.balance != 0 then Err(StakeNotEmpty)
    else if h.stake.isNftStaked != 0 then Err(NftAlreadyStaked)
    else
      var change :- Claim(h.stake, treasury, UINT64_MAX, now);
      if change.amount + h.vault > UINT64_MAX then Err(StakeOverflow)
      else Ok(Outcome(Holding(change.stake, 0), treasury, change.amount, h.vault))
  }

  datatype Pair = Pair(target: Stake, source: Stake, treasury: Treasury, units: uint64)

  /** Migrates and settles both stakes at their own weights; `units` is what they weigh together. */
  ghost function SettlePair(target: Stake, source: Stake, treasury: Treasury): Result<Pair> {
    var first :- MigrateWeight(target, treasury);
    var second :- MigrateWeight(source, first.treasury);
    var a :- Settle(first.stake, second.treasury.stakeRewardsFactor);
    var b :- Settle(second.stake, second.treasury.stakeRewardsFactor);
    var unitsA :- Units(a);
    var unitsB :- Units(b);
    var units :- Add(unitsA, unitsB, StakeOverflow);
    Ok(Pair(a, b, second.treasury, units))
  }

  ghost function Combine(a: Stake, b: Stake, now: int64): Result<Stake> {
    var balance :- Add(a.balance, b.balance, StakeOverflow);
    var rewards :- Add(a.rewards, b.rewards, StakeOverflow);
    var lifetime :- Add(a.lifetimeRewards, b.lifetimeRewards, StakeOverflow);
    var lock := Max(a.lockDuration, b.lockDuration);
    Ok(a.(balance := balance, rewards := rewards, lifetimeRewards := lifetime, lockDuration := lock,
          createdAt := now, multiplier := StakeMultiplier(lock), lastDepositAt := now))
  }

  /** Folds `source` into `target` on the terms of a fresh deposit at the longer lock. */
  ghost function Merge(target: Holding, source: Holding, treasury: Treasury, now: int64): Result<Outcome> {
    if target.stake.isNftStaked != 0 || source.stake.isNftStaked != 0 then Err(NftAlreadyStaked)
    else if target.vault < target.stake.balance then Err(InvalidAccountData)
    else if source.vault < source.stake.balance then Err(InvalidAccountData)
    else
      var pair :- SettlePair(target.stake, source.stake, treasury);
      var merged :- Combine(pair.target, pair.source, now);
      var after :- Units(merged);
      var total :- MoveTotal(pair.treasury.totalStaked, pair.units, after);
      if target.vault + source.vault < merged.balance then Err(InvalidAccountData)
      else Ok(Outcome(Holding(merged, target.vault + source.vault), pair.treasury.(totalStaked := total), 0, 0))
  }

  /** The stake, vault and treasury a handler leaves, against the outcome predicted for it. */
  ghost predicate Reached(expected: Result<Outcome>, actual: Result<()>, holding: Holding, treasury: Treasury) {
    match expected
    case Ok(o) => actual == Ok(()) && holding == o.holding && treasury == o.treasury
    case Err(e) => actual == Err(e)
  }

  method ProcessOpen(vault: TokenAccount, sender: TokenAccount, treasury: TreasuryAccount,
                     amount: uint64, lockDuration: int64, now: int64) returns (r: Result<()>, stake: StakeAccount?)
    requires vault != sender && sender.amount <= UINT64_MAX
    modifies vault, sender, treasury
    ensures match Open(old(treasury.View()), old(vault.amount), amount, lockDuration, now, old(sender.amount))
            case Err(e) => r == Err(e)
            case Ok(o) =>
              && r == Ok(()) && stake != null && fresh(stake)
              && Holding(stake.View(), vault.amount) == o.holding && treasury.View() == o.treasury
              && sender.amount == old(sender.amount) - o.moved
  {
    stake := null;
    if lockDuration < 0 || lockDuration > MAX_LOCK_DURATION {
      return Err(InvalidLockDuration), null;
    }
    if amount == 0 {
      return Err(AmountTooSmall), null;
    }
    var created := new StakeAccount(lockDuration, now, treasury.stakeRewardsFactor);
    var settled := created.UpdateRewards(treasury);
    if settled.Err? {
      return settled, null;
    }
    var deposited := created.AddBalance(amount, now, treasury, sender.amount);
    if deposited.Err? {
      return Err(deposited.error), null;
    }
    if deposited.value != amount {
      return Err(AmountTooSmall), null;
    }
    var sent := Transfer(sender, vault, deposited.value);
    if sent.Err? {
      return sent, null;
    }
    if vault.amount < created.balance {
      return Err(Panic), null;
    }
    return Ok(()), created;
  }

  method ProcessTopUp(stake: StakeAccount, vault: TokenAccount, sender: TokenAccount, treasury: TreasuryAccount,
                      amount: uint64, now: int64) returns (r: Result<()>)
    requires vault != sender && sender.amount <= UINT64_MAX
    modifies stake, vault, sender, treasury
    ensures Reached(TopUp(old(Holding(stake.View(), vault.amount)), old(treasury.View()), amount, now, old(sender.amount)),
                    r, Holding(stake.View(), vault.amount), treasury.View())
    ensures r.Ok? ==> sender.amount == old(sender.amount) - amount
  {
    if amount == 0 {
      return Err(AmountTooSmall);
    }
    var _ :- stake.MoveToSqrtCurve(treasury);
    var deposited :- stake.AddBalance(amount, now, treasury, sender.amount);
    if deposited != amount {
      return Err(AmountTooSmall);
    }
    stake.createdAt := now;
    var _ :- Transfer(sender, vault, deposited);
    if vault.amount < stake.balance {
      return Err(InvalidAccountData);
    }
    return Ok(());
  }

  method ProcessWithdraw(stake: StakeAccount, vault: TokenAccount, recipient: TokenAccount, treasury: TreasuryAccount,
                         amount: uint64, now: int64) returns (r: Result<()>)
    requires vault != recipient
    modifies stake, vault, recipient, treasury
    ensures Reached(WithdrawUnlocked(old(Holding(stake.View(), vault.amount)), old(treasury.View()), amount, now),
                    r, Holding(stake.View(), vault.amount), treasury.View())
    ensures r.Ok? ==> vault.amount + recipient.amount == old(vault.amount + recipient.amount)
  {
    var _ :- stake.MoveToSqrtCurve(treasury);
    var unlockAt := Min(stake.createdAt + Max(stake.lockDuration, 0), INT64_MAX);
    if now < unlockAt {
      return Err(StakeLocked);
    }
    if amount == 0 {
      return Err(AmountTooSmall);
    }
    var moved :- stake.RemoveBalance(amount, now, treasury);
    var _ :- Transfer(vault, recipient, moved);
    if vault.amount < stake.balance {
      return Err(Panic);
    }
    return Ok(());
  }

  method ProcessClaim(stake: StakeAccount, vault: TokenAccount, rewardTokens: TokenAccount, recipient: TokenAccount,
                      treasury: TreasuryAccount, amount: uint64, now: int64) returns (r: Result<()>)
    requires vault != recipient && rewardTokens != recipient && vault != rewardTokens
    modifies stake, rewardTokens, recipient
    ensures match ClaimYield(old(Holding(stake.View(), vault.amount)), treasury.View(), amount, now)
            case Err(e) => r == Err(e)
            case Ok(o) =>
              if old(rewardTokens.amount) < o.paid then r == Err(InsufficientTokens)
              else
                && r == Ok(()) && stake.View() == o.holding.stake
                && rewardTokens.amount == old(rewardTokens.amount) - o.paid
                && recipient.amount == old(recipient.amount) + o.paid
  {
    var taken :- stake.TakeRewards(amount, now, treasury);
    var _ :- Transfer(rewardTokens, recipient, taken);
    return Ok(());
  }

  method HarvestAll(stake: StakeAccount, treasury: TreasuryAccount, now: int64) returns (r: Result<uint64>)
    modifies stake, treasury
    ensures Performed(Harvest(old(stake.View()), old(treasury.View()), now), r, stake.View(), treasury.View())
  {
    var _ :- stake.MoveToSqrtCurve(treasury);
    r := stake.TakeRewards(UINT64_MAX, now, treasury);
  }

  method ProcessCompound(stake: StakeAccount, vault: TokenAccount, rewardTokens: TokenAccount, treasury: TreasuryAccount,
                         now: int64) returns (r: Result<()>)
    requires vault != rewardTokens
    modifies stake, vault, rewardTokens, treasury
    ensures match Compound(old(Holding(stake.View(), vault.amount)), old(treasury.View()), now)
            case Err(e) => r == Err(e) || r == Err(InsufficientTokens)
            case Ok(o) =>
              if old(rewardTokens.amount) < o.paid then r == Err(InsufficientTokens)
              else
                && r == Ok(()) && Holding(stake.View(), vault.amount) == o.holding && treasury.View() == o.treasury
                && rewardTokens.amount == old(rewardTokens.amount) - o.paid
  {
    var compounded :- HarvestAll(stake, treasury, now);
    if compounded == 0 {
      return Err(AmountTooSmall);
    }
    var amount :- PayCompounded(rewardTokens, vault, compounded);
    r := RedepositAll(stake, vault, treasury, amount, now, compounded);
  }

  /** Burns one percent of the rewards and moves the rest into the vault. */
  method PayCompounded(rewardTokens: TokenAccount, vault: TokenAccount, compounded: uint64) returns (r: Result<uint64>)
    requires vault != rewardTokens
    modifies vault, rewardTokens
    ensures old(rewardTokens.amount) < compounded ==> r == Err(InsufficientTokens)
    ensures compounded <= old(rewardTokens.amount) ==>
      && r == Ok(compounded - compounded / 100)
      && rewardTokens.amount == old(rewardTokens.amount) - compounded
      && vault.amount == old(vault.amount) + compounded - compounded / 100
  {
    var fee := compounded / 100;
    if fee > 0 {
      var _ :- rewardTokens.Burn(fee);
    }
    var _ :- Transfer(rewardTokens, vault, compounded - fee);
    return Ok(compounded - fee);
  }

  method RedepositAll(stake: StakeAccount, vault: TokenAccount, treasury: TreasuryAccount, amount: uint64, now: int64,
                      ghost claimed: uint64) returns (r: Result<()>)
    modifies stake, treasury
    ensures Reached(Redeposit(Change(old(stake.View()), old(treasury.View()), claimed), vault.amount, amount, now),
                    r, Holding(stake.View(), vault.amount), treasury.View())
  {
    var _ :- stake.AddBalance(amount, now, treasury, Min(vault.amount, UINT64_MAX));
    if vault.amount < stake.balance {
      return Err(InvalidAccountData);
    }
    return Ok(());
  }

  method ProcessMigrate(stake: StakeAccount, vault: TokenAccount, treasury: TreasuryAccount) returns (r: Result<()>)
    modifies stake, treasury
    ensures Reached(Migrate(old(Holding(stake.View(), vault.amount)), old(treasury.View())),
                    r, Holding(stake.View(), vault.amount), treasury.View())
  {
    if stake.weightVersion != 0 {
      return Ok(());
    }
    var _ :- stake.MoveToSqrtCurve(treasury);
    return Ok(());
  }

  method ProcessStakeNft(stake: StakeAccount, vault: TokenAccount, treasury: TreasuryAccount) returns (r: Result<()>)
    modifies stake, treasury
    ensures Reached(BoostWithNft(old(Holding(stake.View(), vault.amount)), old(treasury.View())),
                    r, Holding(stake.View(), vault.amount), treasury.View())
  {
    var _ :- stake.MoveToSqrtCurve(treasury);
    var _ :- stake.AttachNft(treasury);
    return Ok(());
  }

  method ProcessUnstakeNft(stake: StakeAccount, vault: TokenAccount, treasury: TreasuryAccount) returns (r: Result<()>)
    modifies stake, treasury
    ensures Reached(ReleaseNft(old(Holding(stake.View(), vault.amount)), old(treasury.View())),
                    r, Holding(stake.View(), vault.amount), treasury.View())
  {
    var _ :- stake.MoveToSqrtCurve(treasury);
    var _ :- stake.DetachNft(treasury);
    return Ok(());
  }

  method ProcessReconcile(stake: StakeAccount, vault: TokenAccount, treasury: TreasuryAccount, now: int64) returns (r: Result<()>)
    modifies stake, treasury
    ensures Reached(Reconcile(old(Holding(stake.View(), vault.amount)), old(treasury.View()), now),
                    r, Holding(stake.View(), vault.amount), treasury.View())
  {
    var phantom: uint64 := if vault.amount <= stake.balance then stake.balance - vault.amount else 0;
    var _ :- stake.RemoveBalance(phantom, now, treasury);
    return Ok(());
  }

  method ProcessClose(stake: StakeAccount, vault: TokenAccount, rewardTokens: TokenAccount, recipient: TokenAccount,
                      treasury: TreasuryAccount, now: int64) returns (r: Result<()>)
    requires vault != recipient && rewardTokens != recipient && vault != rewardTokens
    modifies stake, vault, rewardTokens, recipient
    ensures match Close(old(Holding(stake.View(), vault.amount)), treasury.View(), now)
            case Err(e) => r == Err(e)
            case Ok(o) =>
              if old(rewardTokens.amount) < o.paid then r == Err(InsufficientTokens)
              else
                && r == Ok(()) && Holding(stake.View(), vault.amount) == o.holding
                && rewardTokens.amount == old(rewardTokens.amount) - o.paid
                && recipient.amount == old(recipient.amount) + o.paid + o.moved
  {
    if stake.balance != 0 {
      return Err(StakeNotEmpty);
    }
    if stake.isNftStaked != 0 {
      return Err(NftAlreadyStaked);
    }
    var residual := vault.amount;
    var claimed :- stake.TakeRewards(UINT64_MAX, now, treasury);
    if claimed + residual > UINT64_MAX {
      return Err(StakeOverflow);
    }
    if claimed > 0 {
      var _ :- Transfer(rewardTokens, recipient, claimed);
    }
    if residual > 0 {
      var _ := Transfer(vault, recipient, residual);
    }
    return Ok(());
  }

  method SettleBoth(target: StakeAccount, source: StakeAccount, treasury: TreasuryAccount) returns (r: Result<uint64>)
    requires target != source
    modifies target, source, treasury
    ensures match SettlePair(old(target.View()), old(source.View()), old(treasury.View()))
            case Err(e) => r == Err(e)
            case Ok(p) => r == Ok(p.units) && target.View() == p.target && source.View() == p.source && treasury.View() == p.treasury
  {
    var _ :- target.MoveToSqrtCurve(treasury);
    var _ :- source.MoveToSqrtCurve(treasury);
    var _ :- target.UpdateRewards(treasury);
    var _ :- source.UpdateRewards(treasury);
    var unitsA :- target.WeightedUnits();
    var unitsB :- source.WeightedUnits();
    return Add(unitsA, unitsB, StakeOverflow);
  }

  method FoldInto(target: StakeAccount, source: StakeAccount, now: int64) returns (r: Result<()>)
    requires target != source
    modifies target, source
    ensures match Combine(old(target.View()), old(source.View()), now)
            case Err(e) => r == Err(e)
            case Ok(merged) =>
              && r == Ok(()) && target.View() == merged
              && source.View() == old(source.View()).(balance := 0, rewards := 0)
  {
    target.balance :- Add(target.balance, source.balance, StakeOverflow);
    target.rewards :- Add(target.rewards, source.rewards, StakeOverflow);
    target.lifetimeRewards :- Add(target.lifetimeRewards, source.lifetimeRewards, StakeOverflow);
    target.lockDuration := Max(target.lockDuration, source.lockDuration);
    target.createdAt := now;
    target.multiplier := StakeMultiplier(target.lockDuration);
    target.lastDepositAt := now;
    source.balance := 0;
    source.rewards := 0;
    return Ok(());
  }

  method ProcessMerge(target: StakeAccount, targetVault: TokenAccount, source: StakeAccount, sourceVault: TokenAccount,
                      treasury: TreasuryAccount, now: int64) returns (r: Result<()>)
    requires target != source && targetVault != sourceVault
    modifies target, targetVault, source, sourceVault, treasury
    ensures Reached(Merge(old(Holding(target.View(), targetVault.amount)), old(Holding(source.View(), sourceVault.amount)),
                          old(treasury.View()), now),
                    r, Holding(target.View(), targetVault.amount), treasury.View())
    ensures r.Ok? ==> sourceVault.amount == 0 && source.balance == 0 && source.rewards == 0
  {
    if target.isNftStaked != 0 || source.isNftStaked != 0 {
      return Err(NftAlreadyStaked);
    }
    if targetVault.amount < target.balance {
      return Err(InvalidAccountData);
    }
    if sourceVault.amount < source.balance {
      return Err(InvalidAccountData);
    }
    var before :- SettleBoth(target, source, treasury);
    var _ :- FoldInto(target, source, now);
    var _ :- target.RecordWeight(before, treasury);
    if sourceVault.amount > 0 {
      var _ := Transfer(sourceVault, targetVault, sourceVault.amount);
    }
    if targetVault.amount < target.balance {
      return Err(InvalidAccountData);
    }
    return Ok(());
  }
}
