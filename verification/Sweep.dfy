/** Closing an expired round: whatever nobody came for goes to the treasury. */
module Sweep {
  import opened Basics
  import opened RoundState
  import opened TreasuryState

  /** The treasury's balance after the sweep. */
  ghost function Swept(round: Round, lamports: nat, boardRound: uint64, slot: uint64, balance: uint64, rent: nat): Result<uint64> {
    if boardRound <= round.id || slot <= round.expiresAt then Err(InvalidAccountData)
    else
      var unclaimed := Max(lamports - rent, 0);
      if balance + unclaimed > UINT64_MAX then Err(Panic) else Ok(balance + unclaimed)
  }

  method ProcessClose(round: RoundAccount, treasury: TreasuryAccount, boardRound: uint64, slot: uint64, rent: nat) returns (r: Result<()>)
    requires round.Valid()
    modifies round`lamports, treasury`balance
    ensures match Swept(round.View(), old(round.lamports), boardRound, slot, old(treasury.balance), rent)
            case Err(e) => r == Err(e)
            case Ok(balance) =>
              && r == Ok(()) && treasury.balance == balance
              && round.lamports + balance == old(round.lamports) + old(treasury.balance)
  {
    if round.id >= boardRound || round.expiresAt >= slot {
      return Err(InvalidAccountData);
    }
    var unclaimed := Max(round.lamports - rent, 0);
    if unclaimed > 0 {
      if treasury.balance + unclaimed > UINT64_MAX {
        return Err(Panic);
      }
      round.lamports := round.lamports - unclaimed;
      treasury.balance := treasury.balance + unclaimed;
    }
    return Ok(());
  }

  /** A sweep leaves the rent, or what there is of it, and moves everything else. */
  lemma SweepLeavesTheRent(round: Round, lamports: nat, boardRound: uint64, slot: uint64, balance: uint64, rent: nat)
    requires Swept(round, lamports, boardRound, slot, balance, rent).Ok?
    ensures var after := Swept(round, lamports, boardRound, slot, balance, rent).value;
      && lamports - (after - balance) == Min(lamports, rent)
      && round.id < boardRound && round.expiresAt < slot
  {
  }
}
