/** One v2 stake: its reward weight, the lazy settlement of its rewards, and every operation
    on its fields. The functions say what each operation does to a snapshot of the account;
    the class performs it field by field. */
module StakeState {
  import opened Basics
  import opened FixedPoint
  import opened StakeCurve
  import opened TreasuryState

  const NFT_BOOST_NUMERATOR := 11
  const NFT_BOOST_DENOMINATOR := 10

  datatype Stake = Stake(
    balance: uint64,
    lastClaimAt: int64,
    lastDepositAt: int64,
    lastWithdrawAt: int64,
    rewardsFactor: Fixed,
    rewards: uint64,
    lifetimeRewards: uint64,
    multiplier: uint64,
    lockDuration: int64,
    createdAt: int64,
    isNftStaked: uint8,
    weightVersion: uint8)

  /** The outcome of an operation that touches a stake and the treasury and yields an amount. */
  datatype Change = Change(stake: Stake, treasury: Treasury, amount: uint64)

  /** Version 0 is the linear curve; every other version byte is the sqrt curve. */
  ghost function CurveMultiplier(s: Stake): uint64 {
    if s.weightVersion == 0 then s.multiplier else SqrtMultiplier(s.multiplier)
  }

  ghost function ApplyMultiplier(amount: uint64, multiplier: uint64): Result<uint64> {
    if amount == 0 || multiplier == 0 then Ok(0)
    else
      ProductNonNegative(amount, multiplier);
      var weighted := amount * multiplier / SCALE;
      if weighted > UINT64_MAX then Err(StakeOverflow) else Ok(weighted)
  }

  ghost function Boost(isNftStaked: uint8, units: uint64): Result<uint64> {
    var boosted := units * NFT_BOOST_NUMERATOR / NFT_BOOST_DENOMINATOR;
    if isNftStaked == 0 then Ok(units)
    else if boosted > UINT64_MAX then Err(StakeOverflow)
    else Ok(boosted)
  }

  /** The weight a stake carries in every distribution. */
  ghost function Units(s: Stake): Result<uint64> {
    var units :- ApplyMultiplier(s.balance, CurveMultiplier(s));
    Boost(s.isNftStaked, units)
  }

  /** Settles the rewards accrued since the stake's last snapshot of the factor. */
  ghost function Settle(s: Stake, factor: Fixed): Result<Stake> {
    if s.rewardsFactor < factor then
      var units :- Units(s);
      var share :- Accrued(factor - s.rewardsFactor, units);
      var rewards :- Add(s.rewards, share, StakeOverflow);
      var lifetime :- Add(s.lifetimeRewards, share, StakeOverflow);
      Ok(s.(rewards := rewards, lifetimeRewards := lifetime, rewardsFactor := factor))
    else
      Ok(s.(rewardsFactor := factor))
  }

  /** Replaces one stake's old weight by its new one in the recorded total. */
  ghost function Reweigh(s: Stake, next: Stake, treasury: Treasury): Result<Treasury> {
    var before :- Units(s);
    var after :- Units(next);
    var total :- MoveTotal(treasury.totalStaked, before, after);
    Ok(treasury.(totalStaked := total))
  }

  function MoveTotal(total: uint64, before: uint64, after: uint64): Result<uint64> {
    if before <= after then Add(total, after - before, StakeOverflow)
    else Subtract(total, before - after, StakeOverflow)
  }

  ghost function Claim(s: Stake, treasury: Treasury, amount: uint64, now: int64): Result<Change> {
    var settled :- Settle(s, treasury.stakeRewardsFactor);
    var taken := Min(settled.rewards, amount);
    Ok(Change(settled.(rewards := settled.rewards - taken, lastClaimAt := now), treasury, taken))
  }

  ghost function Deposit(s: Stake, treasury: Treasury, amount: uint64, now: int64, wallet: uint64): Result<Change> {
    var settled :- Settle(s, treasury.stakeRewardsFactor);
    var moved := Min(wallet, amount);
    var _ :- Units(settled);
    var balance :- Add(settled.balance, moved, StakeOverflow);
    var next := settled.(balance := balance, lastDepositAt := now);
    var after :- Reweigh(settled, next, treasury);
    Ok(Change(next, after, moved))
  }

  ghost function Withdraw(s: Stake, treasury: Treasury, amount: uint64, now: int64): Result<Change> {
    var settled :- Settle(s, treasury.stakeRewardsFactor);
    var moved := Min(settled.balance, amount);
    var next := settled.(balance := settled.balance - moved, lastWithdrawAt := now);
    var after :- Reweigh(settled, next, treasury);
    Ok(Change(next, after, moved))
  }

  ghost function SetNft(s: Stake, treasury: Treasury, isNftStaked: uint8): Result<Change> {
    var settled :- Settle(s, treasury.stakeRewardsFactor);
    var next := settled.(isNftStaked := isNftStaked);
    var after :- Reweigh(settled, next, treasury);
    Ok(Change(next, after, 0))
  }

  ghost function StakeNft(s: Stake, treasury: Treasury): Result<Change> {
    if s.isNftStaked != 0 then Err(NftAlreadyStaked) else SetNft(s, treasury, 1)
  }

  ghost function UnstakeNft(s: Stake, treasury: Treasury): Result<Change> {
    if s.isNftStaked == 0 then Err(NftNotStaked) else SetNft(s, treasury, 0)
  }

  /** Moves a linear stake to the sqrt curve; a stake already there is not even settled. */
  ghost function MigrateWeight(s: Stake, treasury: Treasury): Result<Change> {
    if s.weightVersion != 0 then Ok(Change(s, treasury, 0))
    else
      var settled :- Settle(s, treasury.stakeRewardsFactor);
      var next := settled.(weightVersion := 1);
      var after :- Reweigh(settled, next, treasury);
      Ok(Change(next, after, 0))
  }

  /** What a method reports and leaves behind, against the outcome its function predicts. A
      failed instruction is rolled back, so nothing is said of the fields it leaves. */
  ghost predicate Performed(expected: Result<Change>, actual: Result<uint64>, stake: Stake, treasury: Treasury) {
    match expected
    case Ok(change) => actual == Ok(change.amount) && stake == change.stake && treasury == change.treasury
    case Err(error) => actual == Err(error)
  }

  class StakeAccount {
    var balance: uint64
    var lastClaimAt: int64
    var lastDepositAt: int64
    var lastWithdrawAt: int64
    var rewardsFactor: Fixed
    var rewards: uint64
    var lifetimeRewards: uint64
    var multiplier: uint64
    var lockDuration: int64
    var createdAt: int64
    var isNftStaked: uint8
    var weightVersion: uint8

    /** A stake as it is opened: empty, on the sqrt curve, at the current factor. */
    constructor (lockDuration: int64, now: int64, factor: Fixed)
      ensures View() == Stake(0, 0, 0, 0, factor, 0, 0, StakeMultiplier(lockDuration), lockDuration, now, 0, 1)
    {
      balance, lastClaimAt, lastDepositAt, lastWithdrawAt := 0, 0, 0, 0;
      rewardsFactor, rewards, lifetimeRewards := factor, 0, 0;
      multiplier := StakeMultiplier(lockDuration);
      this.lockDuration, createdAt := lockDuration, now;
      isNftStaked, weightVersion := 0, 1;
    }

    ghost function View(): Stake
      reads this
    {
      Stake(balance, lastClaimAt, lastDepositAt, lastWithdrawAt, rewardsFactor, rewards, lifetimeRewards,
            multiplier, lockDuration, createdAt, isNftStaked, weightVersion)
    }

    method WeightedUnits() returns (r: Result<uint64>)
      ensures r == Units(View())
    {
      var effective := multiplier;
      if weightVersion != 0 {
        effective := EffectiveMultiplier(multiplier);
      }
      var base := 0;
      if balance != 0 && effective != 0 {
        ProductNonNegative(balance, effective);
        var weighted := balance * effective / SCALE;
        if weighted > UINT64_MAX {
          return Err(StakeOverflow);
        }
        base := weighted;
      }
      if isNftStaked != 0 {
        var boosted := base * NFT_BOOST_NUMERATOR / NFT_BOOST_DENOMINATOR;
        if boosted > UINT64_MAX {
          return Err(StakeOverflow);
        }
        return Ok(boosted);
      }
      return Ok(base);
    }

    method UpdateRewards(treasury: TreasuryAccount) returns (r: Result<()>)
      modifies this
      ensures match Settle(old(View()), treasury.stakeRewardsFactor)
              case Ok(s) => r == Ok(()) && View() == s
              case Err(e) => r == Err(e)
    {
      if treasury.stakeRewardsFactor > rewardsFactor {
        var accumulated := treasury.stakeRewardsFactor - rewardsFactor;
        var units :- WeightedUnits();
        var share :- Accrued(accumulated, units);
        rewards :- Add(rewards, share, StakeOverflow);
        lifetimeRewards :- Add(lifetimeRewards, share, StakeOverflow);
      }
      rewardsFactor := treasury.stakeRewardsFactor;
      return Ok(());
    }

    method TakeRewards(amount: uint64, now: int64, treasury: TreasuryAccount) returns (r: Result<uint64>)
      modifies this
      ensures Performed(Claim(old(View()), treasury.View(), amount, now), r, View(), treasury.View())
    {
      var _ :- UpdateRewards(treasury);
      var taken := Min(rewards, amount);
      rewards := rewards - taken;
      lastClaimAt := now;
      return Ok(taken);
    }

    /** Records the move from the weight `before` to the present weight. */
    method RecordWeight(before: uint64, treasury: TreasuryAccount) returns (r: Result<()>)
      modifies treasury
      ensures unchanged(this)
      ensures match Units(View())
              case Err(e) => r == Err(e)
              case Ok(after) =>
                match MoveTotal(old(treasury.totalStaked), before, after)
                case Err(e) => r == Err(e)
                case Ok(total) => r == Ok(()) && treasury.View() == old(treasury.View()).(totalStaked := total)
    {
      var after :- WeightedUnits();
      if after >= before {
        treasury.totalStaked :- Add(treasury.totalStaked, after - before, StakeOverflow);
      } else {
        treasury.totalStaked :- Subtract(treasury.totalStaked, before - after, StakeOverflow);
      }
      return Ok(());
    }

    method AddBalance(amount: uint64, now: int64, treasury: TreasuryAccount, wallet: uint64) returns (r: Result<uint64>)
      modifies this, treasury
      ensures Performed(Deposit(old(View()), old(treasury.View()), amount, now, wallet), r, View(), treasury.View())
    {
      var _ :- UpdateRewards(treasury);
      var moved := Min(wallet, amount);
      var before :- WeightedUnits();
      balance :- Add(balance, moved, StakeOverflow);
      lastDepositAt := now;
      var _ :- RecordWeight(before, treasury);
      return Ok(moved);
    }

    method RemoveBalance(amount: uint64, now: int64, treasury: TreasuryAccount) returns (r: Result<uint64>)
      modifies this, treasury
      ensures Performed(Withdraw(old(View()), old(treasury.View()), amount, now), r, View(), treasury.View())
    {
      var _ :- UpdateRewards(treasury);
      var moved := Min(balance, amount);
      var before :- WeightedUnits();
      balance := balance - moved;
      lastWithdrawAt := now;
      var _ :- RecordWeight(before, treasury);
      return Ok(moved);
    }

    method AttachNft(treasury: TreasuryAccount) returns (r: Result<uint64>)
      modifies this, treasury
      ensures Performed(StakeNft(old(View()), old(treasury.View())), r, View(), treasury.View())
    {
      if isNftStaked != 0 {
        return Err(NftAlreadyStaked);
      }
      var _ :- UpdateRewards(treasury);
      var before :- WeightedUnits();
      isNftStaked := 1;
      var _ :- RecordWeight(before, treasury);
      return Ok(0);
    }

    method DetachNft(treasury: TreasuryAccount) returns (r: Result<uint64>)
      modifies this, treasury
      ensures Performed(UnstakeNft(old(View()), old(treasury.View())), r, View(), treasury.View())
    {
      if isNftStaked == 0 {
        return Err(NftNotStaked);
      }
      var _ :- UpdateRewards(treasury);
      var before :- WeightedUnits();
      isNftStaked := 0;
      var _ :- RecordWeight(before, treasury);
      return Ok(0);
    }

    method MoveToSqrtCurve(treasury: TreasuryAccount) returns (r: Result<uint64>)
      modifies this, treasury
      ensures Performed(MigrateWeight(old(View()), old(treasury.View())), r, View(), treasury.View())
    {
      if weightVersion != 0 {
        return Ok(0);
      }
      var _ :- UpdateRewards(treasury);
      var before :- WeightedUnits();
      weightVersion := 1;
      var _ :- RecordWeight(before, treasury);
      return Ok(0);
    }
  }
}
