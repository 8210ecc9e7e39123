/** A v1 stake. Its weight is its balance, and it shares the v2 factor and total. */
module LegacyStake {
  import opened Basics
  import opened FixedPoint
  import opened TreasuryState

  datatype Stake = Stake(
    balance: uint64,
    lastClaimAt: int64,
    lastDepositAt: int64,
    lastWithdrawAt: int64,
    rewardsFactor: Fixed,
    rewards: uint64,
    lifetimeRewards: uint64)

  datatype Change = Change(stake: Stake, treasury: Treasury, amount: uint64)

  ghost function Settle(s: Stake, factor: Fixed): Result<Stake> {
    if s.rewardsFactor < factor then
      var share :- Accrued(factor - s.rewardsFactor, s.balance);
      var rewards :- Add(s.rewards, share, Panic);
      var lifetime :- Add(s.lifetimeRewards, share, Panic);
      Ok(s.(rewards := rewards, lifetimeRewards := lifetime, rewardsFactor := factor))
    else
      Ok(s.(rewardsFactor := factor))
  }

  ghost function Claim(s: Stake, treasury: Treasury, amount: uint64, now: int64): Result<Change> {
    var settled :- Settle(s, treasury.stakeRewardsFactor);
    var taken := Min(settled.rewards, amount);
    Ok(Change(settled.(rewards := settled.rewards - taken, lastClaimAt := now), treasury, taken))
  }

  ghost function Deposit(s: Stake, treasury: Treasury, amount: uint64, now: int64, wallet: uint64): Result<Change> {
    var settled :- Settle(s, treasury.stakeRewardsFactor);
    var moved := Min(wallet, amount);
    var balance :- Add(settled.balance, moved, Panic);
    var total :- Add(treasury.totalStaked, moved, Panic);
    Ok(Change(settled.(balance := balance, lastDepositAt := now), treasury.(totalStaked := total), moved))
  }

  ghost function Withdraw(s: Stake, treasury: Treasury, amount: uint64, now: int64): Result<Change> {
    var settled :- Settle(s, treasury.stakeRewardsFactor);
    var moved := Min(settled.balance, amount);
    var total :- Subtract(treasury.totalStaked, moved, Panic);
    Ok(Change(settled.(balance := settled.balance - moved, lastWithdrawAt := now), treasury.(totalStaked := total), moved))
  }

  ghost predicate Performed(expected: Result<Change>, actual: Result<uint64>, stake: Stake, treasury: Treasury) {
    match expected
    case Ok(change) => actual == Ok(change.amount) && stake == change.stake && treasury == change.treasury
    case Err(error) => actual == Err(error)
  }

  class StakeAccount {
    var balance: uint64
    var lastClaimAt: int64
    var lastDepositAt: int64
    var lastWithdrawAt: int64
    var rewardsFactor: Fixed
    var rewards: uint64
    var lifetimeRewards: uint64

    ghost function View(): Stake
      reads this
    {
      Stake(balance, lastClaimAt, lastDepositAt, lastWithdrawAt, rewardsFactor, rewards, lifetimeRewards)
    }

    method UpdateRewards(treasury: TreasuryAccount) returns (r: Result<()>)
      modifies this
      ensures match Settle(old(View()), treasury.stakeRewardsFactor)
              case Ok(s) => r == Ok(()) && View() == s
              case Err(e) => r == Err(e)
    {
      if treasury.stakeRewardsFactor > rewardsFactor {
        var share :- Accrued(treasury.stakeRewardsFactor - rewardsFactor, balance);
        rewards :- Add(rewards, share, Panic);
        lifetimeRewards :- Add(lifetimeRewards, share, Panic);
      }
      rewardsFactor := treasury.stakeRewardsFactor;
      return Ok(());
    }

    method TakeRewards(amount: uint64, now: int64, treasury: TreasuryAccount) returns (r: Result<uint64>)
      modifies this
      ensures Performed(Claim(old(View()), treasury.View(), amount, now), r, View(), treasury.View())
    {
      var _ :- UpdateRewards(treasury);
      var taken := Min(rewards, amount);
      rewards := rewards - taken;
      lastClaimAt := now;
      return Ok(taken);
    }

    method AddBalance(amount: uint64, now: int64, treasury: TreasuryAccount, wallet: uint64) returns (r: Result<uint64>)
      modifies this, treasury
      ensures Performed(Deposit(old(View()), old(treasury.View()), amount, now, wallet), r, View(), treasury.View())
    {
      var _ :- UpdateRewards(treasury);
      var moved := Min(wallet, amount);
      balance :- Add(balance, moved, Panic);
      lastDepositAt := now;
      treasury.totalStaked :- Add(treasury.totalStaked, moved, Panic);
      return Ok(moved);
    }

    method RemoveBalance(amount: uint64, now: int64, treasury: TreasuryAccount) returns (r: Result<uint64>)
      modifies this, treasury
      ensures Performed(Withdraw(old(View()), old(treasury.View()), amount, now), r, View(), treasury.View())
    {
      var _ :- UpdateRewards(treasury);
      var moved := Min(balance, amount);
      balance := balance - moved;
      lastWithdrawAt := now;
      treasury.totalStaked :- Subtract(treasury.totalStaked, moved, Panic);
      return Ok(moved);
    }
  }
}
