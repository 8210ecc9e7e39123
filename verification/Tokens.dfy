/** Token accounts, reduced to the amounts they hold. */
module Tokens {
  import opened Basics

  class TokenAccount {
    var amount: nat

    constructor (amount: nat)
      ensures this.amount == amount
    {
      this.amount := amount;
    }

    method Burn(quantity: nat) returns (r: Result<()>)
      modifies this
      ensures old(amount) < quantity ==> r == Err(InsufficientTokens) && unchanged(this)
      ensures quantity <= old(amount) ==> r == Ok(()) && amount == old(amount) - quantity
    {
      if amount < quantity {
        return Err(InsufficientTokens);
      }
      amount := amount - quantity;
      return Ok(());
    }
  }

  method Transfer(source: TokenAccount, target: TokenAccount, quantity: nat) returns (r: Result<()>)
    requires source != target
    modifies source, target
    ensures old(source.amount) < quantity ==> r == Err(InsufficientTokens) && unchanged(source) && unchanged(target)
    ensures quantity <= old(source.amount) ==>
      r == Ok(()) && source.amount == old(source.amount) - quantity && target.amount == old(target.amount) + quantity
  {
    var _ :- source.Burn(quantity);
    target.amount := target.amount + quantity;
    return Ok(());
  }
}
