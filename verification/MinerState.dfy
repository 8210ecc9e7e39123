/** One miner: what it has staked on the board, what it has mined, and its share of the claim
    fees. The unrefined balance `rewardsGodl` is the weight of both accumulators over it. */
module MinerState {
  import opened Basics
  import opened FixedPoint
  import opened TreasuryState

  const SQUARES := 25

  /** One amount for each square of the board. */
  type Grid = s: seq<uint64> | |s| == SQUARES witness seq(SQUARES, _ => 0)

  /** The part of a miner that the refining ledger sees. */
  datatype Refinery = Refinery(
    rewardsFactor: Fixed,
    rewardsGodl: uint64,
    refinedGodl: uint64,
    lifetimeRewardsGodl: uint64,
    lastClaimGodlAt: int64)

  /** The part of a miner that the round game sees. */
  datatype Play = Play(
    deployed: Grid,
    cumulative: Grid,
    checkpointFee: uint64,
    checkpointId: uint64,
    roundId: uint64,
    rewardsSol: uint64,
    lifetimeDeployed: uint64,
    lifetimeRewardsSol: uint64,
    lastClaimSolAt: int64)

  const NEW_REFINERY := Refinery(0, 0, 0, 0, 0)

  function Zeros(): (z: Grid)
    ensures forall i :: 0 <= i < SQUARES ==> z[i] == 0
  {
    seq(SQUARES, _ => 0)
  }

  /** A lamport of a square lies in the interval of a bet laid on it after the ones before. */
  ghost predicate Covers(cumulative: Grid, deployed: Grid, square: nat, x: nat)
    requires square < SQUARES
  {
    var lower: int := cumulative[square];
    lower <= x < lower + deployed[square]
  }

  const NEW_PLAY := Play(Zeros(), Zeros(), 0, 0, 0, 0, 0, 0, 0)

  /** Settles the refined share owed on the unrefined balance. */
  ghost function Refine(m: Refinery, factor: Fixed): Result<Refinery> {
    if m.rewardsFactor < factor then
      var share :- Accrued(factor - m.rewardsFactor, m.rewardsGodl);
      var refined :- Add(m.refinedGodl, share, Panic);
      var lifetime :- Add(m.lifetimeRewardsGodl, share, Panic);
      Ok(m.(refinedGodl := refined, lifetimeRewardsGodl := lifetime, rewardsFactor := factor))
    else
      Ok(m.(rewardsFactor := factor))
  }

  datatype Claim = Claim(miner: Refinery, treasury: Treasury, amount: uint64)

  /** Takes a tenth of a claim for the miners still waiting, unless nobody is. */
  ghost function ChargeFee(m: Refinery, treasury: Treasury, rewards: uint64, amount: uint64): Result<Claim> {
    if treasury.totalUnclaimed == 0 then Ok(Claim(m, treasury, amount))
    else
      var fee := rewards / 10;
      var left :- Subtract(amount, fee, Panic);
      var raise :- FromFraction(fee, treasury.totalUnclaimed);
      var factor :- AddFixed(treasury.minerRewardsFactor, raise);
      var refined :- Add(treasury.totalRefined, fee, Panic);
      var lifetime :- Subtract(m.lifetimeRewardsGodl, fee, Panic);
      Ok(Claim(m.(lifetimeRewardsGodl := lifetime),
               treasury.(minerRewardsFactor := factor, totalRefined := refined), left))
  }

  /** Pays out the unrefined and the refined balance. Every subtraction is a plain one. */
  ghost function ClaimAll(m: Refinery, treasury: Treasury, now: int64): Result<Claim> {
    var settled :- Refine(m, treasury.minerRewardsFactor);
    var amount :- Add(settled.refinedGodl, settled.rewardsGodl, Panic);
    var unclaimed :- Subtract(treasury.totalUnclaimed, settled.rewardsGodl, Panic);
    var refined :- Subtract(treasury.totalRefined, settled.refinedGodl, Panic);
    ChargeFee(settled.(refinedGodl := 0, rewardsGodl := 0, lastClaimGodlAt := now),
              treasury.(totalUnclaimed := unclaimed, totalRefined := refined), settled.rewardsGodl, amount)
  }

  /** Adds newly mined, unrefined GODL. */
  ghost function Credit(m: Refinery, treasury: Treasury, amount: uint64, error: Error): Result<Claim> {
    var rewards :- Add(m.rewardsGodl, amount, error);
    var lifetime :- Add(m.lifetimeRewardsGodl, amount, error);
    var unclaimed :- Add(treasury.totalUnclaimed, amount, error);
    Ok(Claim(m.(rewardsGodl := rewards, lifetimeRewardsGodl := lifetime), treasury.(totalUnclaimed := unclaimed), amount))
  }

  class MinerAccount {
    const deployed: array<uint64>
    const cumulative: array<uint64>
    var checkpointFee: uint64
    var checkpointId: uint64
    var lastClaimGodlAt: int64
    var lastClaimSolAt: int64
    var rewardsFactor: Fixed
    var rewardsSol: uint64
    var rewardsGodl: uint64
    var refinedGodl: uint64
    var roundId: uint64
    var lifetimeDeployed: uint64
    var lifetimeRewardsSol: uint64
    var lifetimeRewardsGodl: uint64
    var lamports: nat

    /** A miner as its account is created: every field zero. */
    constructor (rent: nat)
      ensures lamports == rent
      ensures Valid() && Refining() == NEW_REFINERY && Playing() == NEW_PLAY
      ensures fresh(deployed) && fresh(cumulative)
    {
      deployed := new uint64[SQUARES](_ => 0);
      cumulative := new uint64[SQUARES](_ => 0);
      checkpointFee, checkpointId, roundId := 0, 0, 0;
      lastClaimGodlAt, lastClaimSolAt := 0, 0;
      rewardsFactor := 0;
      rewardsSol, rewardsGodl, refinedGodl := 0, 0, 0;
      lifetimeDeployed, lifetimeRewardsSol, lifetimeRewardsGodl := 0, 0, 0;
      lamports := rent;
    }

    ghost predicate Valid() {
      deployed != cumulative && deployed.Length == SQUARES && cumulative.Length == SQUARES
    }

    ghost function Refining(): Refinery
      reads this
    {
      Refinery(rewardsFactor, rewardsGodl, refinedGodl, lifetimeRewardsGodl, lastClaimGodlAt)
    }

    ghost function Playing(): Play
      requires Valid()
      reads this, deployed, cumulative
    {
      Play(deployed[..], cumulative[..], checkpointFee, checkpointId, roundId, rewardsSol, lifetimeDeployed,
           lifetimeRewardsSol, lastClaimSolAt)
    }

    method UpdateRewards(treasury: TreasuryAccount) returns (r: Result<()>)
      modifies this`rewardsFactor, this`refinedGodl, this`lifetimeRewardsGodl
      ensures match Refine(old(Refining()), treasury.minerRewardsFactor)
              case Ok(m) => r == Ok(()) && Refining() == m
              case Err(e) => r == Err(e)
    {
      if treasury.minerRewardsFactor > rewardsFactor {
        var share :- Accrued(treasury.minerRewardsFactor - rewardsFactor, rewardsGodl);
        refinedGodl :- Add(refinedGodl, share, Panic);
        lifetimeRewardsGodl :- Add(lifetimeRewardsGodl, share, Panic);
      }
      rewardsFactor := treasury.minerRewardsFactor;
      return Ok(());
    }

    method TakeFee(treasury: TreasuryAccount, rewards: uint64, amount: uint64) returns (r: Result<uint64>)
      modifies this`lifetimeRewardsGodl, treasury
      ensures match ChargeFee(old(Refining()), old(treasury.View()), rewards, amount)
              case Ok(c) => r == Ok(c.amount) && Refining() == c.miner && treasury.View() == c.treasury
              case Err(e) => r == Err(e)
    {
      if treasury.totalUnclaimed > 0 {
        var fee := rewards / 10;
        var left :- Subtract(amount, fee, Panic);
        var raise := FromFraction(fee, treasury.totalUnclaimed);
        treasury.minerRewardsFactor :- AddFixed(treasury.minerRewardsFactor, raise.value);
        treasury.totalRefined :- Add(treasury.totalRefined, fee, Panic);
        lifetimeRewardsGodl :- Subtract(lifetimeRewardsGodl, fee, Panic);
        return Ok(left);
      }
      return Ok(amount);
    }

    method TakeGodl(now: int64, treasury: TreasuryAccount) returns (r: Result<uint64>)
      modifies this`rewardsFactor, this`rewardsGodl, this`refinedGodl, this`lifetimeRewardsGodl, this`lastClaimGodlAt, treasury
      ensures match ClaimAll(old(Refining()), old(treasury.View()), now)
              case Ok(c) => r == Ok(c.amount) && Refining() == c.miner && treasury.View() == c.treasury
              case Err(e) => r == Err(e)
    {
      var _ :- UpdateRewards(treasury);
      var refined := refinedGodl;
      var rewards := rewardsGodl;
      var amount :- Add(refined, rewards, Panic);
      refinedGodl := 0;
      rewardsGodl := 0;
      treasury.totalUnclaimed :- Subtract(treasury.totalUnclaimed, rewards, Panic);
      treasury.totalRefined :- Subtract(treasury.totalRefined, refined, Panic);
      lastClaimGodlAt := now;
      r := TakeFee(treasury, rewards, amount);
    }

    method TakeSol(now: int64) returns (amount: uint64)
      requires Valid()
      modifies this`rewardsSol, this`lastClaimSolAt
      ensures amount == old(rewardsSol)
      ensures Playing() == old(Playing()).(rewardsSol := 0, lastClaimSolAt := now)
    {
      amount := rewardsSol;
      rewardsSol := 0;
      lastClaimSolAt := now;
    }

    method AddUnrefined(amount: uint64, treasury: TreasuryAccount, error: Error) returns (r: Result<uint64>)
      modifies this`rewardsGodl, this`lifetimeRewardsGodl, treasury`totalUnclaimed
      ensures match Credit(old(Refining()), old(treasury.View()), amount, error)
              case Ok(c) => r == Ok(c.amount) && Refining() == c.miner && treasury.View() == c.treasury
              case Err(e) => r == Err(e)
    {
      rewardsGodl :- Add(rewardsGodl, amount, error);
      lifetimeRewardsGodl :- Add(lifetimeRewardsGodl, amount, error);
      treasury.totalUnclaimed :- Add(treasury.totalUnclaimed, amount, error);
      return Ok(amount);
    }
  }
}
