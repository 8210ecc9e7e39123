/** The singleton treasury account. Every ledger keeps its totals and its factor here. */
module TreasuryState {
  import opened Basics
  import opened FixedPoint

  datatype Treasury = Treasury(
    balance: uint64,
    motherlode: uint64,
    minerRewardsFactor: Fixed,
    stakeRewardsFactor: Fixed,
    totalStaked: uint64,
    totalUnclaimed: uint64,
    totalRefined: uint64)

  class TreasuryAccount {
    var balance: uint64
    var motherlode: uint64
    var minerRewardsFactor: Fixed
    var stakeRewardsFactor: Fixed
    var totalStaked: uint64
    var totalUnclaimed: uint64
    var totalRefined: uint64

    constructor ()
      ensures View() == Treasury(0, 0, 0, 0, 0, 0, 0)
    {
      balance, motherlode := 0, 0;
      minerRewardsFactor, stakeRewardsFactor := 0, 0;
      totalStaked, totalUnclaimed, totalRefined := 0, 0, 0;
    }

    ghost function View(): Treasury
      reads this
    {
      Treasury(balance, motherlode, minerRewardsFactor, stakeRewardsFactor, totalStaked, totalUnclaimed, totalRefined)
    }
  }
}
