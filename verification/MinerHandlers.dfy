/** The instructions on a miner's GODL and gold. Each settles the refined share and then the
    gold on the old unrefined balance before it changes that balance. */
module MinerHandlers {
  import opened Basics
  import opened FixedPoint
  import opened GoldState
  import opened MinerState
  import opened Tokens
  import opened TreasuryState

  const LEGACY_INSTRUCTION_EXPIRY_TS: int64 := 1_789_839_440 + 90 * 60
  const REFERRAL_BPS: uint64 := 50

  /** A miner and its extended account, which may not exist yet. */
  datatype Player = Player(miner: Refinery, extended: Option<Extended>)

  datatype Credited = Credited(player: Player, treasury: Treasury, amount: uint64)

  ghost function Opened(p: Player, factor: Fixed): Player {
    if p.extended.None? then p.(extended := Some(Extended(factor, 0, 0))) else p
  }

  /** Without an extended account there may be no unrefined GODL to settle. */
  ghost function SyncExtended(extended: Option<Extended>, factor: Fixed, unrefined: uint64): Result<Option<Extended>> {
    match extended
    case None => if unrefined == 0 then Ok(None) else Err(Panic)
    case Some(e) =>
      var accrued :- Accrue(e, factor, unrefined);
      Ok(Some(accrued))
  }

  ghost function SyncGold(p: Player, factor: Fixed): Result<Player> {
    var extended :- SyncExtended(p.extended, factor, p.miner.rewardsGodl);
    Ok(p.(extended := extended))
  }

  ghost function RefineAndSync(p: Player, treasury: Treasury, factor: Fixed): Result<Player> {
    var settled :- Refine(p.miner, treasury.minerRewardsFactor);
    SyncGold(p.(miner := settled), factor)
  }

  ghost function AddMined(p: Player, treasury: Treasury, amount: uint64, error: Error): Result<Credited> {
    var c :- Credit(p.miner, treasury, amount, error);
    Ok(Credited(p.(miner := c.miner), c.treasury, amount))
  }

  /** The GODL leg of a gold-aware checkpoint that has computed `reward`. */
  ghost function CreditCheckpoint(p: Player, treasury: Treasury, factor: Fixed, reward: uint64): Result<Credited> {
    var settled :- Refine(p.miner, treasury.minerRewardsFactor);
    if p.extended.None? && (settled.rewardsGodl > 0 || reward > 0) then Err(MinerExtendedMissing)
    else
      var synced :- SyncGold(p.(miner := settled), factor);
      AddMined(synced, treasury, reward, Panic)
  }

  /** The GODL leg of the legacy checkpoint, which knows nothing of gold. */
  ghost function CreditLegacyCheckpoint(p: Player, treasury: Treasury, reward: uint64): Result<Credited> {
    var settled :- Refine(p.miner, treasury.minerRewardsFactor);
    AddMined(p.(miner := settled), treasury, reward, Panic)
  }

  ghost function Inject(p: Player, treasury: Treasury, factor: Fixed, amount: uint64): Result<Credited> {
    if amount == 0 then Err(AmountTooSmall)
    else
      var synced :- RefineAndSync(Opened(p, factor), treasury, factor);
      AddMined(synced, treasury, amount, InvalidInstructionData)
  }

  ghost function OtcBonus(p: Player, treasury: Treasury, factor: Fixed, bonus: uint64): Result<Credited> {
    if bonus == 0 then Ok(Credited(p, treasury, 0))
    else
      var synced :- RefineAndSync(Opened(p, factor), treasury, factor);
      AddMined(synced, treasury, bonus, ArithmeticOverflow)
  }

  /** Claims both balances; a miner with unrefined GODL gets its extended account first. */
  ghost function ClaimBalances(p: Player, treasury: Treasury, factor: Fixed, now: int64): Result<Credited> {
    var present := if p.miner.rewardsGodl > 0 then Opened(p, factor) else p;
    var synced :- SyncGold(present, factor);
    var c :- ClaimAll(synced.miner, treasury, now);
    Ok(Credited(synced.(miner := c.miner), c.treasury, c.amount))
  }

  ghost function ClaimGodl(p: Player, treasury: Treasury, factor: Fixed, now: int64, referred: bool): Result<Credited> {
    var c :- ClaimBalances(p, treasury, factor, now);
    if referred && c.amount * REFERRAL_BPS > UINT64_MAX then Err(InvalidInstructionData) else Ok(c)
  }

  datatype GoldClaim = GoldClaim(player: Player, vault: Vault, amount: uint64)

  ghost function ClaimGold(p: Player, vault: Vault): Result<GoldClaim> {
    var e :- Accrue(Opened(p, vault.xautRewardsFactor).extended.value, vault.xautRewardsFactor, p.miner.rewardsGodl);
    var claimed :- Add(vault.totalXautClaimed, e.xautRewards, ArithmeticOverflow);
    Ok(GoldClaim(p.(extended := Some(e.(xautRewards := 0))), vault.(totalXautClaimed := claimed), e.xautRewards))
  }

  ghost function ExtendedView(extended: MinerExtendedAccount?): Option<Extended>
    reads extended
  {
    if extended == null then None else Some(extended.View())
  }

  /** The address of an extended account: empty until the account is created. */
  class ExtendedSlot {
    var account: MinerExtendedAccount?

    ghost function View(): Option<Extended>
      reads this, account
    {
      ExtendedView(account)
    }

    method LoadOrCreate(vault: GoldVaultAccount, create: bool) returns (loaded: MinerExtendedAccount?)
      modifies this
      ensures loaded == account
      ensures old(account) != null || !create ==> account == old(account)
      ensures old(account) == null && create ==>
        account != null && fresh(account) && account.View() == Extended(vault.xautRewardsFactor, 0, 0)
    {
      if account == null && create {
        account := new MinerExtendedAccount(vault);
      }
      loaded := account;
    }
  }

  ghost function PlayerView(miner: MinerAccount, slot: ExtendedSlot): Player
    reads miner, slot, slot.account
  {
    Player(miner.Refining(), slot.View())
  }

  method SyncGoldRewards(extended: MinerExtendedAccount?, vault: GoldVaultAccount, unrefined: uint64) returns (r: Result<()>)
    modifies extended
    ensures match SyncExtended(old(ExtendedView(extended)), vault.xautRewardsFactor, unrefined)
            case Ok(e) => r == Ok(()) && ExtendedView(extended) == e
            case Err(e) => r == Err(e)
  {
    if extended == null {
      return if unrefined == 0 then Ok(()) else Err(Panic);
    }
    r := extended.UpdateRewards(vault, unrefined);
  }

  ghost predicate Reached(expected: Result<Credited>, actual: Result<uint64>, player: Player, treasury: Treasury) {
    match expected
    case Ok(c) => actual == Ok(c.amount) && player == c.player && treasury == c.treasury
    case Err(e) => actual == Err(e)
  }

  /** The GODL leg of CheckpointWithMinerExtended. */
  method CreditMined(miner: MinerAccount, slot: ExtendedSlot, vault: GoldVaultAccount, treasury: TreasuryAccount, reward: uint64)
    returns (r: Result<uint64>)
    modifies miner`rewardsFactor, miner`refinedGodl, miner`rewardsGodl, miner`lifetimeRewardsGodl, slot, slot.account, treasury
    ensures Reached(CreditCheckpoint(old(PlayerView(miner, slot)), old(treasury.View()), vault.xautRewardsFactor, reward),
                    r, PlayerView(miner, slot), treasury.View())
  {
    var _ :- miner.UpdateRewards(treasury);
    var extended := slot.LoadOrCreate(vault, false);
    if extended == null && (miner.rewardsGodl > 0 || reward > 0) {
      return Err(MinerExtendedMissing);
    }
    var _ :- SyncGoldRewards(extended, vault, miner.rewardsGodl);
    r := miner.AddUnrefined(reward, treasury, Panic);
  }

  method ProcessInject(miner: MinerAccount, slot: ExtendedSlot, vault: GoldVaultAccount, treasury: TreasuryAccount,
                       sender: TokenAccount, treasuryTokens: TokenAccount, amount: uint64) returns (r: Result<uint64>)
    requires sender != treasuryTokens
    modifies miner, slot, slot.account, treasury, sender, treasuryTokens
    ensures amount > 0 && old(sender.amount) < amount ==> r == Err(InsufficientTokens)
    ensures amount == 0 || amount <= old(sender.amount) ==>
      Reached(Inject(old(PlayerView(miner, slot)), old(treasury.View()), vault.xautRewardsFactor, amount),
              r, PlayerView(miner, slot), treasury.View())
    ensures r.Ok? ==> treasuryTokens.amount == old(treasuryTokens.amount) + amount
  {
    if amount == 0 {
      return Err(AmountTooSmall);
    }
    var _ :- Transfer(sender, treasuryTokens, amount);
    var extended := slot.LoadOrCreate(vault, true);
    var _ :- miner.UpdateRewards(treasury);
    var _ :- SyncGoldRewards(extended, vault, miner.rewardsGodl);
    r := miner.AddUnrefined(amount, treasury, InvalidInstructionData);
  }

  class ReferrerAccount {
    var rewardsGodl: uint64
    var cumulativeRewardsGodl: uint64
  }

  datatype Referrals = Referrals(rewardsGodl: uint64, cumulativeRewardsGodl: uint64)

  ghost function ReferralsView(referrer: ReferrerAccount?): Option<Referrals>
    reads referrer
  {
    if referrer == null then None else Some(Referrals(referrer.rewardsGodl, referrer.cumulativeRewardsGodl))
  }

  /** The referrer's two counters, both raised by its part of the claim. */
  ghost function Referred(r: Option<Referrals>, amount: uint64): Result<Option<Referrals>> {
    if r.None? then Ok(None)
    else
      var rewards :- Add(r.value.rewardsGodl, Referral(amount, true), InvalidInstructionData);
      var cumulative :- Add(r.value.cumulativeRewardsGodl, Referral(amount, true), InvalidInstructionData);
      Ok(Some(Referrals(rewards, cumulative)))
  }

  method TakeBalances(miner: MinerAccount, slot: ExtendedSlot, vault: GoldVaultAccount, treasury: TreasuryAccount, now: int64)
    returns (r: Result<uint64>)
    modifies miner`rewardsFactor, miner`rewardsGodl, miner`refinedGodl, miner`lifetimeRewardsGodl, miner`lastClaimGodlAt
    modifies slot, slot.account, treasury
    ensures Reached(ClaimBalances(old(PlayerView(miner, slot)), old(treasury.View()), vault.xautRewardsFactor, now),
                    r, PlayerView(miner, slot), treasury.View())
  {
    hide SyncExtended, ClaimAll;
    var extended := slot.LoadOrCreate(vault, miner.rewardsGodl > 0);
    var _ :- SyncGoldRewards(extended, vault, miner.rewardsGodl);
    r := miner.TakeGodl(now, treasury);
  }

  /** Settles gold, claims, and pays the miner less the referrer's half percent. A claim that gets
      that far fails only for the referrer's counters or for want of tokens. */
  method ProcessClaimGodl(miner: MinerAccount, slot: ExtendedSlot, vault: GoldVaultAccount, treasury: TreasuryAccount,
                          referrer: ReferrerAccount?, treasuryTokens: TokenAccount, recipient: TokenAccount,
                          referrerTokens: TokenAccount, now: int64) returns (r: Result<uint64>)
    requires treasuryTokens != recipient && treasuryTokens != referrerTokens && recipient != referrerTokens
    modifies miner, slot, slot.account, treasury, referrer, treasuryTokens, recipient, referrerTokens
    ensures match ClaimGodl(old(PlayerView(miner, slot)), old(treasury.View()), vault.xautRewardsFactor, now, referrer != null)
            case Err(e) => r == Err(e)
            case Ok(c) =>
              if Referred(old(ReferralsView(referrer)), c.amount).Err? then r == Err(InvalidInstructionData)
              else if old(treasuryTokens.amount) < c.amount then r == Err(InsufficientTokens)
              else
                && r == Ok(c.amount) && PlayerView(miner, slot) == c.player && treasury.View() == c.treasury
                && Referred(old(ReferralsView(referrer)), c.amount) == Ok(ReferralsView(referrer))
                && treasuryTokens.amount == old(treasuryTokens.amount) - c.amount
                && recipient.amount == old(recipient.amount) + c.amount - Referral(c.amount, referrer != null)
                && referrerTokens.amount == old(referrerTokens.amount) + Referral(c.amount, referrer != null)
  {
    hide Referred, Referral, ClaimBalances;
    var amount :- TakeBalances(miner, slot, vault, treasury, now);
    if referrer != null && amount * REFERRAL_BPS > UINT64_MAX {
      return Err(InvalidInstructionData);
    }
    var _ :- PayClaim(referrer, treasuryTokens, recipient, referrerTokens, amount);
    return Ok(amount);
  }

  /** Half a percent, rounded down. */
  function Referral(amount: uint64, referred: bool): (part: nat)
    ensures if referred then 200 * part <= amount < 200 * part + 200 else part == 0
  {
    if referred then amount * REFERRAL_BPS / DENOMINATOR_BPS else 0
  }

  method PayClaim(referrer: ReferrerAccount?, treasuryTokens: TokenAccount, recipient: TokenAccount,
                  referrerTokens: TokenAccount, amount: uint64) returns (r: Result<()>)
    requires treasuryTokens != recipient && treasuryTokens != referrerTokens && recipient != referrerTokens
    modifies referrer, treasuryTokens, recipient, referrerTokens
    ensures
      if Referred(old(ReferralsView(referrer)), amount).Err? then r == Err(InvalidInstructionData)
      else if old(treasuryTokens.amount) < amount then r == Err(InsufficientTokens)
      else
        && r == Ok(()) && Referred(old(ReferralsView(referrer)), amount) == Ok(ReferralsView(referrer))
        && treasuryTokens.amount == old(treasuryTokens.amount) - amount
        && recipient.amount == old(recipient.amount) + amount - Referral(amount, referrer != null)
        && referrerTokens.amount == old(referrerTokens.amount) + Referral(amount, referrer != null)
  {
    var referral: uint64 := Referral(amount, referrer != null);
    if referrer != null {
      referrer.rewardsGodl :- Add(referrer.rewardsGodl, referral, InvalidInstructionData);
      referrer.cumulativeRewardsGodl :- Add(referrer.cumulativeRewardsGodl, referral, InvalidInstructionData);
      var _ :- Transfer(treasuryTokens, referrerTokens, referral);
    }
    if amount - referral > 0 {
      var _ :- Transfer(treasuryTokens, recipient, amount - referral);
    }
    return Ok(());
  }

  method ProcessClaimGold(miner: MinerAccount, slot: ExtendedSlot, vault: GoldVaultAccount,
                          vaultTokens: TokenAccount, recipient: TokenAccount) returns (r: Result<uint64>)
    requires vaultTokens != recipient
    modifies slot, slot.account, vault, vaultTokens, recipient
    ensures match ClaimGold(old(PlayerView(miner, slot)), old(vault.View()))
            case Err(e) => r == Err(e)
            case Ok(c) =>
              if old(vaultTokens.amount) < c.amount then r == Err(InsufficientTokens)
              else
                && r == Ok(c.amount) && PlayerView(miner, slot) == c.player && vault.View() == c.vault
                && vaultTokens.amount == old(vaultTokens.amount) - c.amount
                && recipient.amount == old(recipient.amount) + c.amount
  {
    var extended := slot.LoadOrCreate(vault, true);
    var _ :- extended.UpdateRewards(vault, miner.rewardsGodl);
    var amount := extended.Take();
    vault.totalXautClaimed :- Add(vault.totalXautClaimed, amount, ArithmeticOverflow);
    if amount == 0 {
      return Ok(0);
    }
    var _ :- Transfer(vaultTokens, recipient, amount);
    return Ok(amount);
  }

  /** Distributions stay locked while an instruction that ignores gold can still run. */
  ghost function Deposited(vault: Vault, now: int64, amount: uint64, totalUnclaimed: uint64): Result<Vault> {
    if now < LEGACY_INSTRUCTION_EXPIRY_TS then Err(GoldDistributionLocked)
    else if amount == 0 then Err(AmountTooSmall)
    else
      var d :- Distribute(vault, amount, totalUnclaimed);
      Ok(d.vault)
  }

  method ProcessDepositGold(vault: GoldVaultAccount, vaultTokens: TokenAccount, sender: TokenAccount, treasury: TreasuryAccount,
                            amount: uint64, now: int64) returns (r: Result<()>)
    requires vaultTokens != sender
    modifies vault, vaultTokens, sender
    ensures now >= LEGACY_INSTRUCTION_EXPIRY_TS && 0 < amount && old(sender.amount) < amount ==> r == Err(InsufficientTokens)
    ensures now < LEGACY_INSTRUCTION_EXPIRY_TS || amount <= old(sender.amount) ==>
      match Deposited(old(vault.View()), now, amount, treasury.totalUnclaimed)
      case Err(e) => r == Err(e)
      case Ok(v) => r == Ok(()) && vault.View() == v && vaultTokens.amount == old(vaultTokens.amount) + amount
  {
    if now < LEGACY_INSTRUCTION_EXPIRY_TS {
      return Err(GoldDistributionLocked);
    }
    if amount == 0 {
      return Err(AmountTooSmall);
    }
    var _ :- Transfer(sender, vaultTokens, amount);
    var _ :- vault.Spread(amount, treasury.totalUnclaimed);
    return Ok(());
  }
}
