/** The gold vault and the extended account that accrues gold on a miner's unrefined GODL. */
module GoldState {
  import opened Accumulator
  import opened Basics
  import opened FixedPoint

  /** The gold factor counts XAUT units times a million per gram. */
  const GOLD_FACTOR_SCALE: uint64 := 1_000_000
  const GOLD_UNIT: nat := GOLD_FACTOR_SCALE * ONE

  datatype Extended = Extended(xautRewardsFactor: Fixed, xautRewards: uint64, lifetimeXaut: uint64)

  datatype Vault = Vault(
    xautRewardsFactor: Fixed,
    pendingXaut: uint64,
    totalXautDistributed: uint64,
    totalXautClaimed: uint64,
    totalSolSwapped: uint64)

  /** The gold earned by `unrefined` grams over a rise of the factor, with all three floors. */
  function GoldShare(delta: Fixed, unrefined: uint64): Result<uint64> {
    var grams :- FromFraction(unrefined, GOLD_FACTOR_SCALE);
    var product :- MultiplyFixed(delta, grams);
    ToUint64(product)
  }

  ghost function Accrue(e: Extended, factor: Fixed, unrefined: uint64): Result<Extended> {
    if e.xautRewardsFactor < factor then
      var share :- GoldShare(factor - e.xautRewardsFactor, unrefined);
      var rewards :- Add(e.xautRewards, share, Panic);
      var lifetime :- Add(e.lifetimeXaut, share, Panic);
      Ok(Extended(factor, rewards, lifetime))
    else
      Ok(e.(xautRewardsFactor := factor))
  }

  datatype Distribution = Distribution(vault: Vault, credited: uint64)

  /** Credits new gold, and whatever is pending, over the unrefined supply; with no supply it
      all stays pending. */
  ghost function Distribute(v: Vault, xaut: uint64, totalUnclaimed: uint64): Result<Distribution> {
    var amount :- Add(v.pendingXaut, xaut, ArithmeticOverflow);
    if amount == 0 then Ok(Distribution(v, 0))
    else if totalUnclaimed == 0 then Ok(Distribution(v.(pendingXaut := amount), 0))
    else if amount * GOLD_FACTOR_SCALE > UINT64_MAX then Err(ArithmeticOverflow)
    else
      var raise :- FromFraction(amount * GOLD_FACTOR_SCALE, totalUnclaimed);
      var factor :- AddFixed(v.xautRewardsFactor, raise);
      var total :- Add(v.totalXautDistributed, amount, ArithmeticOverflow);
      Ok(Distribution(v.(xautRewardsFactor := factor, pendingXaut := 0, totalXautDistributed := total), amount))
  }

  class GoldVaultAccount {
    var xautRewardsFactor: Fixed
    var pendingXaut: uint64
    var totalXautDistributed: uint64
    var totalXautClaimed: uint64
    var totalSolSwapped: uint64

    ghost function View(): Vault
      reads this
    {
      Vault(xautRewardsFactor, pendingXaut, totalXautDistributed, totalXautClaimed, totalSolSwapped)
    }

    method Spread(xaut: uint64, totalUnclaimed: uint64) returns (r: Result<uint64>)
      modifies this
      ensures match Distribute(old(View()), xaut, totalUnclaimed)
              case Ok(d) => r == Ok(d.credited) && View() == d.vault
              case Err(e) => r == Err(e)
    {
      var amount :- Add(pendingXaut, xaut, ArithmeticOverflow);
      if amount == 0 {
        return Ok(0);
      }
      if totalUnclaimed == 0 {
        pendingXaut := amount;
        return Ok(0);
      }
      if amount * GOLD_FACTOR_SCALE > UINT64_MAX {
        return Err(ArithmeticOverflow);
      }
      var raise := FromFraction(amount * GOLD_FACTOR_SCALE, totalUnclaimed);
      xautRewardsFactor :- AddFixed(xautRewardsFactor, raise.value);
      pendingXaut := 0;
      totalXautDistributed :- Add(totalXautDistributed, amount, ArithmeticOverflow);
      return Ok(amount);
    }
  }

  class MinerExtendedAccount {
    var xautRewardsFactor: Fixed
    var xautRewards: uint64
    var lifetimeXaut: uint64

    /** Opening the account takes a snapshot, so nothing distributed before is ever accrued. */
    constructor (vault: GoldVaultAccount)
      ensures View() == Extended(vault.xautRewardsFactor, 0, 0)
    {
      xautRewardsFactor := vault.xautRewardsFactor;
      xautRewards, lifetimeXaut := 0, 0;
    }

    ghost function View(): Extended
      reads this
    {
      Extended(xautRewardsFactor, xautRewards, lifetimeXaut)
    }

    method UpdateRewards(vault: GoldVaultAccount, unrefined: uint64) returns (r: Result<()>)
      modifies this
      ensures match Accrue(old(View()), vault.xautRewardsFactor, unrefined)
              case Ok(e) => r == Ok(()) && View() == e
              case Err(e) => r == Err(e)
    {
      if vault.xautRewardsFactor > xautRewardsFactor {
        var personal :- GoldShare(vault.xautRewardsFactor - xautRewardsFactor, unrefined);
        xautRewards :- Add(xautRewards, personal, Panic);
        lifetimeXaut :- Add(lifetimeXaut, personal, Panic);
      }
      xautRewardsFactor := vault.xautRewardsFactor;
      return Ok(());
    }

    method Take() returns (amount: uint64)
      modifies this
      ensures amount == old(xautRewards) && View() == old(View()).(xautRewards := 0)
    {
      amount := xautRewards;
      xautRewards := 0;
    }
  }

  /** Three floors lose gold but never create any. */
  lemma GoldShareBound(delta: Fixed, unrefined: uint64)
    requires GoldShare(delta, unrefined).Ok?
    ensures GoldShare(delta, unrefined).value * GOLD_UNIT <= delta * unrefined
  {
    var grams := unrefined * ONE / GOLD_FACTOR_SCALE;
    QuotientBound(unrefined * ONE, GOLD_FACTOR_SCALE);
    ProductNonNegative(delta, grams);
    var share := GoldShare(delta, unrefined).value;
    assert share == delta * grams / ONE / ONE;
    assert share * ONE * ONE <= delta * grams;
    GramsBound(delta, grams, unrefined);
    assert share * ONE * ONE * GOLD_FACTOR_SCALE <= delta * unrefined * ONE;
  }

  /** What a settlement over a rise of `delta` can lose: one unit of gold and, because a gram is held
      to 48 bits only, a millionth of a 2^-96th of the rise. In units of 1/GOLD_UNIT. */
  ghost function GoldLoss(delta: int): (loss: int)
    ensures 0 <= delta ==> 0 < loss
  {
    GOLD_UNIT + delta * GOLD_FACTOR_SCALE / ONE
  }

  /** And that is all they lose. */
  lemma GoldShareLoss(delta: Fixed, unrefined: uint64)
    requires GoldShare(delta, unrefined).Ok?
    ensures var share := GoldShare(delta, unrefined).value;
      && delta * unrefined * ONE < (share + 1) * GOLD_UNIT * ONE + delta * GOLD_FACTOR_SCALE
      && delta * unrefined <= share * GOLD_UNIT + GoldLoss(delta)
  {
    var grams := unrefined * ONE / GOLD_FACTOR_SCALE;
    QuotientBound(unrefined * ONE, GOLD_FACTOR_SCALE);
    ProductNonNegative(delta, grams);
    var share := GoldShare(delta, unrefined).value;
    assert share == delta * grams / ONE / ONE;
    assert delta * grams < share * ONE * ONE + ONE * ONE;
    GramsShort(delta, grams, unrefined);
    LossFloor(delta * unrefined, share, delta * GOLD_FACTOR_SCALE);
  }

  lemma GramsShort(delta: nat, grams: nat, unrefined: nat)
    requires unrefined * ONE < grams * GOLD_FACTOR_SCALE + GOLD_FACTOR_SCALE
    ensures delta * unrefined * ONE <= delta * grams * GOLD_FACTOR_SCALE + delta * GOLD_FACTOR_SCALE
  {
    MultiplyMonotone(unrefined * ONE, grams * GOLD_FACTOR_SCALE + GOLD_FACTOR_SCALE, delta);
    assert (grams * GOLD_FACTOR_SCALE + GOLD_FACTOR_SCALE) * delta == delta * grams * GOLD_FACTOR_SCALE + delta * GOLD_FACTOR_SCALE;
    assert delta * unrefined * ONE == unrefined * ONE * delta;
  }

  lemma LossFloor(exact: int, share: int, waste: nat)
    requires exact * ONE < (share + 1) * GOLD_UNIT * ONE + waste
    ensures exact <= share * GOLD_UNIT + GOLD_UNIT + waste / ONE
  {
  }

  lemma GramsBound(delta: nat, grams: nat, unrefined: nat)
    requires grams * GOLD_FACTOR_SCALE <= unrefined * ONE
    ensures delta * grams * GOLD_FACTOR_SCALE <= delta * unrefined * ONE
  {
    MultiplyMonotone(grams * GOLD_FACTOR_SCALE, unrefined * ONE, delta);
    assert delta * grams * GOLD_FACTOR_SCALE == grams * GOLD_FACTOR_SCALE * delta;
    assert delta * unrefined * ONE == unrefined * ONE * delta;
  }

  /** A share that was funded always fits. */
  lemma GoldShareFits(delta: Fixed, unrefined: uint64, bound: nat)
    requires delta * unrefined <= bound * GOLD_UNIT && bound <= UINT64_MAX
    ensures GoldShare(delta, unrefined).Ok?
  {
    var grams := unrefined * ONE / GOLD_FACTOR_SCALE;
    QuotientBound(unrefined * ONE, GOLD_FACTOR_SCALE);
    ProductNonNegative(delta, grams);
    GramsBound(delta, grams, unrefined);
    assert delta * grams * GOLD_FACTOR_SCALE <= bound * GOLD_UNIT * ONE;
    assert delta * grams <= bound * ONE * ONE;
  }

  /** The factor never promises more gold than was credited and wastes less than one grid step per
      unit of supply. Nothing stays pending once there is anybody to share with. */
  lemma DistributeCost(v: Vault, xaut: uint64, totalUnclaimed: uint64)
    requires Distribute(v, xaut, totalUnclaimed).Ok?
    ensures var d := Distribute(v, xaut, totalUnclaimed).value;
      && FloorShare(d.vault.xautRewardsFactor - v.xautRewardsFactor, totalUnclaimed, d.credited, GOLD_UNIT)
      && d.vault.totalXautDistributed == v.totalXautDistributed + d.credited
      && d.vault.pendingXaut + d.credited == v.pendingXaut + xaut
      && (totalUnclaimed > 0 ==> d.vault.pendingXaut == 0)
      && d.vault.totalXautClaimed == v.totalXautClaimed && d.vault.totalSolSwapped == v.totalSolSwapped
  {
    var d := Distribute(v, xaut, totalUnclaimed).value;
    if d.credited > 0 {
      QuotientBound(d.credited * GOLD_FACTOR_SCALE * ONE, totalUnclaimed);
    }
  }
}
