/** A trade against the OTC treasury: SOL in, a locked stake out, and a bonus that is mined like any
    other unrefined GODL. */
module OtcTrade {
  import opened Basics
  import opened FixedPoint
  import opened GoldState
  import opened MinerHandlers
  import opened MinerState
  import opened Tokens
  import opened TreasuryState
  import StakeCurve
  import StakeHandlers
  import StakeState

  /** What the oracle has signed. */
  datatype Quote = Quote(solIn: uint64, godlOut: uint64, godlBonus: uint64, lockDuration: int64, expirySlot: uint64)

  datatype Desk = Desk(solBalance: uint64, godlBalance: uint64)

  datatype Buyer = Buyer(totalSolIn: uint64, totalGodlOut: uint64, totalGodlBonus: uint64)

  datatype Trade = Trade(holding: StakeHandlers.Holding, player: Player, treasury: Treasury, desk: Desk, buyer: Buyer)

  ghost function Quoted(q: Quote, slot: uint64, tokens: nat, desk: Desk): Result<Desk> {
    if q.expirySlot < slot then Err(OtcQuoteExpired)
    else if q.solIn == 0 || q.godlOut == 0 then Err(AmountTooSmall)
    else if q.lockDuration < StakeCurve.ONE_MONTH || StakeCurve.MAX_LOCK_DURATION < q.lockDuration then Err(InvalidLockDuration)
    else
      var total :- Add(q.godlOut, q.godlBonus, ArithmeticOverflow);
      if tokens < total || desk.godlBalance < total then Err(InsufficientOtcGodlBalance)
      else
        var sol :- Add(desk.solBalance, q.solIn, ArithmeticOverflow);
        Ok(Desk(sol, desk.godlBalance - total))
  }

  ghost function Counted(b: Buyer, q: Quote): Result<Buyer> {
    var solIn :- Add(b.totalSolIn, q.solIn, ArithmeticOverflow);
    var godlOut :- Add(b.totalGodlOut, q.godlOut, ArithmeticOverflow);
    var godlBonus :- Add(b.totalGodlBonus, q.godlBonus, ArithmeticOverflow);
    Ok(Buyer(solIn, godlOut, godlBonus))
  }

  ghost function Traded(q: Quote, slot: uint64, now: int64, tokens: uint64, desk: Desk, buyer: Buyer, vault: nat, player: Player,
                        treasury: Treasury, factor: Fixed): Result<Trade> {
    var after :- Quoted(q, slot, tokens, desk);
    var o :- StakeHandlers.Open(treasury, vault, q.godlOut, q.lockDuration, now, tokens);
    var c :- OtcBonus(player, o.treasury, factor, q.godlBonus);
    var counted :- Counted(buyer, q);
    Ok(Trade(o.holding, c.player, c.treasury, after, counted))
  }

  /** A trade fills exactly or not at all: the desk gives what the new stake and the bonus gain, the
      stake is locked for at least a month, and the buyer's unrefined balance rises by the bonus. */
  lemma TradeFillsExactly(q: Quote, slot: uint64, now: int64, tokens: uint64, desk: Desk, buyer: Buyer, vault: nat, player: Player,
                          treasury: Treasury, factor: Fixed)
    requires Traded(q, slot, now, tokens, desk, buyer, vault, player, treasury, factor).Ok?
    ensures var t := Traded(q, slot, now, tokens, desk, buyer, vault, player, treasury, factor).value;
      && t.holding.stake.balance == q.godlOut && t.holding.vault == vault + q.godlOut
      && Min(now + StakeCurve.ONE_MONTH, INT64_MAX) <= StakeHandlers.UnlockAt(t.holding.stake)
      && t.player.miner.rewardsGodl == player.miner.rewardsGodl + q.godlBonus
      && t.treasury.totalUnclaimed == treasury.totalUnclaimed + q.godlBonus
      && desk.godlBalance == t.desk.godlBalance + t.holding.stake.balance + q.godlBonus
      && q.godlOut + q.godlBonus <= tokens
  {
    hide StakeState.Units, Accrued, Accrue;
  }

  lemma OpenTakesTheAmount(treasury: Treasury, vault: nat, amount: uint64, lockDuration: int64, now: int64, wallet: uint64)
    requires StakeHandlers.Open(treasury, vault, amount, lockDuration, now, wallet).Ok?
    ensures StakeHandlers.Open(treasury, vault, amount, lockDuration, now, wallet).value.moved == amount
  {
    hide StakeState.Settle, StakeState.Deposit;
  }

  class OtcTreasuryAccount {
    var solBalance: uint64
    var godlBalance: uint64

    ghost function View(): Desk
      reads this
    {
      Desk(solBalance, godlBalance)
    }
  }

  class OtcUserAccount {
    var totalSolIn: uint64
    var totalGodlOut: uint64
    var totalGodlBonus: uint64

    ghost function View(): Buyer
      reads this
    {
      Buyer(totalSolIn, totalGodlOut, totalGodlBonus)
    }

    method Count(q: Quote) returns (r: Result<()>)
      modifies this
      ensures match Counted(old(View()), q)
              case Err(e) => r == Err(e)
              case Ok(b) => r == Ok(()) && View() == b
    {
      totalSolIn :- Add(totalSolIn, q.solIn, ArithmeticOverflow);
      totalGodlOut :- Add(totalGodlOut, q.godlOut, ArithmeticOverflow);
      totalGodlBonus :- Add(totalGodlBonus, q.godlBonus, ArithmeticOverflow);
      return Ok(());
    }
  }

  /** Checks a quote and books it on the desk before any tokens move. */
  method BookQuote(q: Quote, slot: uint64, tokens: nat, desk: OtcTreasuryAccount) returns (r: Result<()>)
    modifies desk
    ensures match Quoted(q, slot, tokens, old(desk.View()))
            case Err(e) => r == Err(e)
            case Ok(d) => r == Ok(()) && desk.View() == d
  {
    if slot > q.expirySlot {
      return Err(OtcQuoteExpired);
    }
    if q.solIn == 0 || q.godlOut == 0 {
      return Err(AmountTooSmall);
    }
    if q.lockDuration < StakeCurve.ONE_MONTH || q.lockDuration > StakeCurve.MAX_LOCK_DURATION {
      return Err(InvalidLockDuration);
    }
    var total :- Add(q.godlOut, q.godlBonus, ArithmeticOverflow);
    if tokens < total || desk.godlBalance < total {
      return Err(InsufficientOtcGodlBalance);
    }
    desk.solBalance :- Add(desk.solBalance, q.solIn, ArithmeticOverflow);
    desk.godlBalance := desk.godlBalance - total;
    return Ok(());
  }

  /** The bonus leg, settled and synced like an injection. */
  method GrantBonus(bonus: uint64, miner: MinerAccount, slot: ExtendedSlot, vault: GoldVaultAccount, treasury: TreasuryAccount)
    returns (r: Result<uint64>)
    modifies miner`rewardsFactor, miner`refinedGodl, miner`rewardsGodl, miner`lifetimeRewardsGodl, slot, slot.account, treasury`totalUnclaimed
    ensures Reached(OtcBonus(old(PlayerView(miner, slot)), old(treasury.View()), vault.xautRewardsFactor, bonus),
                    r, PlayerView(miner, slot), treasury.View())
  {
    hide Accrued, GoldShare;
    if bonus == 0 {
      return Ok(0);
    }
    var extended := slot.LoadOrCreate(vault, true);
    var _ :- miner.UpdateRewards(treasury);
    var _ :- SyncGoldRewards(extended, vault, miner.rewardsGodl);
    r := miner.AddUnrefined(bonus, treasury, ArithmeticOverflow);
  }

  method ProcessOtcTrade(q: Quote, clockSlot: uint64, now: int64, desk: OtcTreasuryAccount, deskTokens: TokenAccount, user: OtcUserAccount,
                         stakeTokens: TokenAccount, miner: MinerAccount, slot: ExtendedSlot, vault: GoldVaultAccount,
                         treasury: TreasuryAccount, treasuryTokens: TokenAccount)
    returns (r: Result<()>, stake: StakeState.StakeAccount?)
    requires stakeTokens != deskTokens && treasuryTokens != deskTokens && treasuryTokens != stakeTokens
    requires deskTokens.amount <= UINT64_MAX
    modifies desk, deskTokens, user, stakeTokens, miner, slot, slot.account, treasury, treasuryTokens
    ensures match Traded(q, clockSlot, now, old(deskTokens.amount), old(desk.View()), old(user.View()), old(stakeTokens.amount),
                         old(PlayerView(miner, slot)), old(treasury.View()), vault.xautRewardsFactor)
            case Err(e) => r == Err(e)
            case Ok(t) =>
              && r == Ok(()) && stake != null && StakeHandlers.Holding(stake.View(), stakeTokens.amount) == t.holding
              && PlayerView(miner, slot) == t.player && treasury.View() == t.treasury
              && desk.View() == t.desk && user.View() == t.buyer
              && deskTokens.amount == old(deskTokens.amount) - q.godlOut - q.godlBonus
              && treasuryTokens.amount == old(treasuryTokens.amount) + q.godlBonus
  {
    hide StakeHandlers.Open, OtcBonus, Counted;
    stake := null;
    var booked := BookQuote(q, clockSlot, deskTokens.amount, desk);
    if booked.Err? {
      return booked, null;
    }
    var locked: Result<()>;
    locked, stake := StakeHandlers.ProcessOpen(stakeTokens, deskTokens, treasury, q.godlOut, q.lockDuration, now);
    if locked.Err? {
      return locked, null;
    }
    OpenTakesTheAmount(old(treasury.View()), old(stakeTokens.amount), q.godlOut, q.lockDuration, now, old(deskTokens.amount));
    var sent := Transfer(deskTokens, treasuryTokens, q.godlBonus);
    if sent.Err? {
      return sent, null;
    }
    var granted := GrantBonus(q.godlBonus, miner, slot, vault, treasury);
    if granted.Err? {
      return Err(granted.error), null;
    }
    r := user.Count(q);
  }
}
