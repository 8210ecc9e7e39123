/** The staker distribution: a share of the buried tokens raises the stake factor, the rest is
    burned or sent to the warchest. */
module Bury {
  import opened Accumulator
  import opened Basics
  import opened FixedPoint
  import opened Tokens
  import opened TreasuryState

  const STAKERS_BPS: uint64 := 300
  const ADMIN_BPS: uint64 := 0

  datatype Sharing = Sharing(treasury: Treasury, shared: uint64)

  /** The factor after `shared` is spread over `total`. */
  function Raised(factor: Fixed, shared: uint64, total: uint64): Result<Fixed> {
    if shared == 0 then Ok(factor)
    else
      var raise :- FromFraction(shared, total);
      AddFixed(factor, raise)
  }

  /** Three percent to the stakers, or nothing while nobody stakes. */
  ghost function Share(treasury: Treasury, amount: uint64): Result<Sharing> {
    if treasury.totalStaked == 0 then Ok(Sharing(treasury, 0))
    else if amount * STAKERS_BPS > UINT64_MAX then Err(Panic)
    else
      var shared := amount * STAKERS_BPS / DENOMINATOR_BPS;
      var factor :- Raised(treasury.stakeRewardsFactor, shared, treasury.totalStaked);
      Ok(Sharing(treasury.(stakeRewardsFactor := factor), shared))
  }

  method ShareWithStakers(treasury: TreasuryAccount, amount: uint64) returns (r: Result<uint64>)
    modifies treasury
    ensures match Share(old(treasury.View()), amount)
            case Err(e) => r == Err(e)
            case Ok(s) => r == Ok(s.shared) && treasury.View() == s.treasury
  {
    var shared: uint64 := 0;
    if treasury.totalStaked > 0 {
      if amount * STAKERS_BPS > UINT64_MAX {
        return Err(Panic);
      }
      shared := amount * STAKERS_BPS / DENOMINATOR_BPS;
      treasury.stakeRewardsFactor :- Raised(treasury.stakeRewardsFactor, shared, treasury.totalStaked);
    }
    return Ok(shared);
  }

  method ProcessBuryTokens(treasury: TreasuryAccount, treasuryTokens: TokenAccount, warchest: TokenAccount?, amount: uint64)
    returns (r: Result<()>)
    requires treasuryTokens != warchest
    modifies treasury, treasuryTokens, warchest
    ensures amount == 0 || old(treasuryTokens.amount) < amount ==> r == Err(Panic)
    ensures amount > 0 && amount <= old(treasuryTokens.amount) ==>
      match Share(old(treasury.View()), amount)
      case Err(e) => r == Err(e)
      case Ok(s) =>
        && r == Ok(()) && treasury.View() == s.treasury
        && treasuryTokens.amount == old(treasuryTokens.amount) - (amount - s.shared)
        && (warchest != null ==> warchest.amount == old(if warchest == null then 0 else warchest.amount) + amount - s.shared)
  {
    if amount == 0 || treasuryTokens.amount < amount {
      return Err(Panic);
    }
    var shared :- ShareWithStakers(treasury, amount);
    if amount * ADMIN_BPS > UINT64_MAX {
      return Err(Panic);
    }
    var adminAmount := amount * ADMIN_BPS / DENOMINATOR_BPS;
    var burned := amount - shared - adminAmount;
    if warchest != null {
      var _ := Transfer(treasuryTokens, warchest, burned);
    } else {
      var _ := treasuryTokens.Burn(burned);
    }
    return Ok(());
  }

  /** The factor never promises more than was shared, and wastes less than one grid step per
      unit of total weight. */
  lemma ShareCost(treasury: Treasury, amount: uint64)
    requires Share(treasury, amount).Ok?
    ensures var s := Share(treasury, amount).value;
      var delta := s.treasury.stakeRewardsFactor - treasury.stakeRewardsFactor;
      && (if treasury.totalStaked == 0 then s.shared == 0
          else 100 * s.shared <= 3 * amount < 100 * s.shared + 100)
      && s.treasury == treasury.(stakeRewardsFactor := s.treasury.stakeRewardsFactor)
      && FloorShare(delta, treasury.totalStaked, s.shared, ONE)
  {
    if treasury.totalStaked > 0 {
      QuotientBound(Share(treasury, amount).value.shared * ONE, treasury.totalStaked);
    }
  }
}
