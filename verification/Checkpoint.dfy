/** Settling one miner's bets on a finished round. */
module Checkpoint {
  import opened Basics
  import opened BoardState
  import opened FixedPoint
  import opened GoldState
  import opened MinerHandlers
  import opened MinerState
  import opened PoolState
  import opened RoundState
  import opened TreasuryState

  const FEE_BPS: uint64 := 150

  /** A miner's bets on one round: the amounts, where their intervals start, and what the pool
      counts of them. */
  datatype Bet = Bet(deployed: Grid, cumulative: Grid, pooled: Grid)

  datatype Payout = Payout(sol: uint64, godl: uint64, topMiner: TopMiner)

  /** A cast to 64 bits drops the upper half. */
  function Cast(n: nat): uint64 {
    n % 0x1_0000_0000_0000_0000
  }

  function Share(total: uint64, part: uint64, whole: uint64): uint64
    requires whole > 0
  {
    ProductNonNegative(total, part);
    Cast(total * part / whole)
  }

  /** The cast is harmless when the part does not exceed the whole. */
  lemma ShareExact(total: uint64, part: uint64, whole: uint64)
    requires part <= whole && 0 < whole
    ensures Share(total, part, whole) == total * part / whole <= total
  {
    PartOfTotal(total, part, whole);
  }

  lemma PartOfTotal(total: nat, part: nat, whole: nat)
    requires part <= whole && 0 < whole
    ensures 0 <= total * part / whole <= total
  {
    PartScaled(total, part, whole);
    var q := total * part / whole;
    assert q * whole <= total * part;
    if total < q {
      PartScaled(whole, total + 1, q);
    }
  }

  lemma PartScaled(total: nat, part: nat, whole: nat)
    requires part <= whole
    ensures 0 <= total * part <= total * whole
  {
  }

  /** The winning stake less its fee of at least one lamport, plus its share of the winnings. */
  function SolReward(round: Round, winning: nat, d: uint64): Result<uint64>
    requires winning < SQUARES && 0 < d <= round.deployed[winning]
  {
    if d * FEE_BPS > UINT64_MAX then Err(InvalidInstructionData)
    else
      var fee := Max(1, d * FEE_BPS / DENOMINATOR_BPS);
      Add(d - fee, Share(round.totalWinnings, d, round.deployed[winning]), Panic)
  }

  ghost predicate Holds(bet: Bet, square: nat, sample: nat)
    requires square < SQUARES
  {
    Covers(bet.cumulative, bet.deployed, square, sample)
  }

  /** The GODL the round's mode gives this bet, before the motherlode. */
  ghost function ModeReward(round: Round, r: uint64, bet: Bet, poolTotal: Grid): Result<uint64>
    requires bet.deployed[WinningSquare(r)] <= round.deployed[WinningSquare(r)]
  {
    var w := WinningSquare(r);
    var d := bet.deployed[w];
    match round.topMiner
    case Split => Ok(if d == 0 then 0 else Share(round.topMinerReward, d, round.deployed[w]))
    case Pool => Ok(if bet.pooled[w] == 0 || poolTotal[w] == 0 then 0 else Share(round.topMinerReward, bet.pooled[w], poolTotal[w]))
    case _ =>
      var sample := TopMinerSample(r, round.deployed[w]);
      if bet.cumulative[w] <= sample && bet.cumulative[w] + d > UINT64_MAX then Err(Panic)
      else Ok(if Holds(bet, w, sample) then round.topMinerReward else 0)
  }

  ghost function MotherlodeReward(round: Round, winning: nat, d: uint64): uint64
    requires winning < SQUARES && d <= round.deployed[winning]
  {
    if round.motherlode == 0 || d == 0 then 0 else Share(round.motherlode, d, round.deployed[winning])
  }

  ghost function TopAfter(round: Round, r: uint64, bet: Bet, authority: nat): TopMiner {
    var w := WinningSquare(r);
    if (round.topMiner.Unset? || round.topMiner.Solo?) && Holds(bet, w, TopMinerSample(r, round.deployed[w])) then Solo(authority)
    else round.topMiner
  }

  /** What a bet on the winning square is due. */
  ghost function DueWinner(round: Round, r: uint64, bet: Bet, poolTotal: Grid, authority: nat): Result<Payout>
    requires 0 < bet.deployed[WinningSquare(r)] <= round.deployed[WinningSquare(r)]
  {
    var w := WinningSquare(r);
    var sol :- SolReward(round, w, bet.deployed[w]);
    var base :- ModeReward(round, r, bet, poolTotal);
    var godl :- Add(base, MotherlodeReward(round, w, bet.deployed[w]), Panic);
    Ok(Payout(sol, godl, TopAfter(round, r, bet, authority)))
  }

  /** A round without randomness refunds every bet; otherwise only the winning square is paid. */
  ghost function Due(round: Round, bet: Bet, poolTotal: Grid, authority: nat): Result<Payout> {
    match Rng(round.slotHash)
    case None =>
      if round.totalDeployed != 0 || Total(bet.deployed) > UINT64_MAX then Err(Panic)
      else Ok(Payout(Total(bet.deployed), 0, round.topMiner))
    case Some(r) =>
      var d := bet.deployed[WinningSquare(r)];
      if d == 0 then Ok(Payout(0, 0, round.topMiner))
      else if round.deployed[WinningSquare(r)] < d then Err(Panic)
      else DueWinner(round, r, bet, poolTotal, authority)
  }

  /** A checkpoint does nothing, forfeits, or settles, late enough for the bot fee or not. */
  datatype Gate = Skip | Forfeit | Settle(botFee: bool)

  /** `round` is empty once the round account was swept. */
  ghost function GateOf(p: Play, round: Option<Round>, boardRound: uint64, slot: uint64): Result<Gate> {
    if p.checkpointId == p.roundId then Ok(Skip)
    else if round.None? then Ok(Forfeit)
    else if round.value.id == boardRound || round.value.id != p.roundId || round.value.slotHash == Repeated(0) then Ok(Skip)
    else if round.value.expiresAt <= slot then Ok(Forfeit)
    else if round.value.expiresAt < TWELVE_HOURS_SLOTS then Err(Panic)
    else Ok(Settle(round.value.expiresAt - TWELVE_HOURS_SLOTS <= slot))
  }

  ghost function PooledOf(member: Option<PoolMember>, roundId: uint64): Grid {
    if member.Some? && member.value.roundId == roundId then member.value.deployed else Zeros()
  }

  ghost function PoolTotal(pool: Option<PoolRound>): Grid {
    if pool.Some? then pool.value.deployed else Zeros()
  }

  ghost function BetOf(p: Play, member: Option<PoolMember>): Bet {
    Bet(p.deployed, p.cumulative, PooledOf(member, p.roundId))
  }

  /** The accounts a checkpoint writes. */
  datatype Desk = Desk(play: Play, minerLamports: nat, round: Option<Round>, roundLamports: nat, player: Player, treasury: Treasury)

  ghost function CreditGodl(legacy: bool, player: Player, treasury: Treasury, factor: Fixed, reward: uint64): Result<Credited> {
    if legacy then CreditLegacyCheckpoint(player, treasury, reward) else CreditCheckpoint(player, treasury, factor, reward)
  }

  /** The SOL side: lamports move from the round to the miner, and the miner must stay funded. */
  ghost function PaidPlay(p: Play, sol: uint64, botFee: bool): Result<Play> {
    var rewards :- Add(p.rewardsSol, sol, Panic);
    var lifetime :- Add(p.lifetimeRewardsSol, sol, Panic);
    Ok(p.(checkpointId := p.roundId, rewardsSol := rewards, lifetimeRewardsSol := lifetime,
          checkpointFee := if botFee then 0 else p.checkpointFee))
  }

  ghost predicate Funded(p: Play, lamports: int, rent: nat) {
    rent + p.checkpointFee + p.rewardsSol <= lamports
  }

  /** What a payment leaves behind. */
  datatype Purse = Purse(play: Play, minerLamports: nat, roundLamports: nat)

  ghost function Pay(play: Play, minerLamports: nat, roundLamports: nat, sol: uint64, botFee: bool, rent: nat): Result<Purse> {
    var paid :- PaidPlay(play, sol, botFee);
    var left := minerLamports + sol - if botFee then play.checkpointFee else 0;
    if roundLamports < sol || !Funded(paid, left, rent) then Err(Panic)
    else Ok(Purse(paid, left, roundLamports - sol))
  }

  ghost function PaidDesk(d: Desk, payout: Payout, botFee: bool, legacy: bool, factor: Fixed, rent: nat): Result<Desk>
    requires d.round.Some?
  {
    var c :- CreditGodl(legacy, d.player, d.treasury, factor, payout.godl);
    var purse :- Pay(d.play, d.minerLamports, d.roundLamports, payout.sol, botFee, rent);
    Ok(Desk(purse.play, purse.minerLamports, Some(d.round.value.(topMiner := payout.topMiner)), purse.roundLamports, c.player, c.treasury))
  }

  /** The whole instruction; the legacy one stops working at the expiry and knows no gold. */
  ghost function Checkpointed(d: Desk, boardRound: uint64, slot: uint64, member: Option<PoolMember>, pool: Option<PoolRound>,
                              authority: nat, legacy: bool, factor: Fixed, now: int64, rent: nat): Result<Desk> {
    if legacy && now >= LEGACY_INSTRUCTION_EXPIRY_TS then Err(LegacyInstructionExpired)
    else
      var gate :- GateOf(d.play, d.round, boardRound, slot);
      match gate
      case Skip => Ok(d)
      case Forfeit => Ok(d.(play := d.play.(checkpointId := d.play.roundId)))
      case Settle(botFee) =>
        var payout :- Due(d.round.value, BetOf(d.play, member), PoolTotal(pool), authority);
        PaidDesk(d, payout, botFee, legacy, factor, rent)
  }

  ghost function RoundView(round: RoundAccount?): Option<Round>
    requires round != null ==> round.Valid()
    reads round, if round == null then {} else {round.deployed, round.count}
  {
    if round == null then None else Some(round.View())
  }

  ghost function PoolView(pool: PoolRoundAccount?): Option<PoolRound>
    requires pool != null ==> pool.Valid()
    reads pool, if pool == null then {} else {pool.deployed, pool.count}
  {
    if pool == null then None else Some(pool.View())
  }

  /** Adds up a miner's bets with checked additions. */
  method SumDeployed(deployed: array<uint64>) returns (r: Result<uint64>)
    ensures r == if Total(deployed[..]) <= UINT64_MAX then Ok(Total(deployed[..])) else Err(Panic)
  {
    var total: uint64 := 0;
    var i := 0;
    while i < deployed.Length
      invariant 0 <= i <= deployed.Length && total == Total(deployed[..i])
    {
      assert deployed[..i + 1][..i] == deployed[..i];
      if total + deployed[i] > UINT64_MAX {
        assert deployed[..][..i + 1] == deployed[..i + 1];
        TotalMonotone(deployed[..], i + 1);
        return Err(Panic);
      }
      total := total + deployed[i];
      i := i + 1;
    }
    assert deployed[..deployed.Length] == deployed[..];
    return Ok(total);
  }

  /** The GODL of the round's mode; a solo win also records who took it. */
  method TakeModeReward(round: RoundAccount, miner: MinerAccount, member: PoolMemberAccount, pool: PoolRoundAccount?,
          r: uint64, authority: nat)
    returns (result: Result<uint64>)
    requires round.Valid() && miner.Valid() && member.Valid() && (pool != null ==> pool.Valid())
    requires 0 < miner.deployed[WinningSquare(r)] <= round.deployed[WinningSquare(r)]
    modifies round`topMiner
    ensures var bet := BetOf(miner.Playing(), member.Stored());
      match ModeReward(old(round.View()), r, bet, PoolTotal(PoolView(pool)))
      case Err(e) => result == Err(e)
      case Ok(g) => result == Ok(g) && round.topMiner == TopAfter(old(round.View()), r, bet, authority)
  {
    var w := WinningSquare(r);
    if round.topMiner == Split {
      return Ok(Share(round.topMinerReward, miner.deployed[w], round.deployed[w]));
    }
    if round.topMiner == Pool {
      if member.isOpen && member.roundId == miner.roundId && member.deployed[w] > 0 && pool != null {
        if pool.deployed[w] > 0 {
          return Ok(Share(round.topMinerReward, member.deployed[w], pool.deployed[w]));
        }
      }
      return Ok(0);
    }
    var sample := TopMinerSample(r, round.deployed[w]);
    if miner.cumulative[w] <= sample {
      var upper :- Add(miner.cumulative[w], miner.deployed[w], Panic);
      if sample < upper {
        round.topMiner := Solo(authority);
        return Ok(round.topMinerReward);
      }
    }
    return Ok(0);
  }

  method TakeSolReward(round: RoundAccount, winning: nat, d: uint64) returns (r: Result<uint64>)
    requires round.Valid() && winning < SQUARES && 0 < d <= round.deployed[winning]
    ensures r == SolReward(round.View(), winning, d)
  {
    if d * FEE_BPS > UINT64_MAX {
      return Err(InvalidInstructionData);
    }
    var fee := d * FEE_BPS / DENOMINATOR_BPS;
    fee := Max(fee, 1);
    var base := d - fee;
    r := Add(base, Share(round.totalWinnings, d, round.deployed[winning]), Panic);
  }

  method TakeMotherlode(round: RoundAccount, winning: nat, d: uint64) returns (reward: uint64)
    requires round.Valid() && winning < SQUARES && 0 < d <= round.deployed[winning]
    ensures reward == MotherlodeReward(round.View(), winning, d)
  {
    reward := 0;
    if round.motherlode > 0 {
      reward := Share(round.motherlode, d, round.deployed[winning]);
    }
  }

  /** Works out what the miner's bets are due. */
  method SettleBets(round: RoundAccount, miner: MinerAccount, member: PoolMemberAccount, pool: PoolRoundAccount?, authority: nat)
    returns (result: Result<(uint64, uint64)>)
    requires round.Valid() && miner.Valid() && member.Valid() && (pool != null ==> pool.Valid())
    modifies round`topMiner
    ensures match Due(old(round.View()), BetOf(miner.Playing(), member.Stored()), PoolTotal(PoolView(pool)), authority)
            case Err(e) => result == Err(e)
            case Ok(p) => result == Ok((p.sol, p.godl)) && round.View() == old(round.View()).(topMiner := p.topMiner)
  {
    hide Rng, WinningSquare, SolReward, ModeReward, MotherlodeReward, TopAfter;
    var drawn := Rng(round.slotHash);
    if drawn.None? {
      if round.totalDeployed != 0 {
        return Err(Panic);
      }
      var refund :- SumDeployed(miner.deployed);
      return Ok((refund, 0));
    }
    var r := drawn.value;
    var w := WinningSquare(r);
    if miner.deployed[w] == 0 {
      return Ok((0, 0));
    }
    if round.deployed[w] < miner.deployed[w] {
      return Err(Panic);
    }
    var sol :- TakeSolReward(round, w, miner.deployed[w]);
    var motherlode := TakeMotherlode(round, w, miner.deployed[w]);
    var base :- TakeModeReward(round, miner, member, pool, r, authority);
    var godl :- Add(base, motherlode, Panic);
    return Ok((sol, godl));
  }

  ghost function DeskView(miner: MinerAccount, round: RoundAccount?, extended: ExtendedSlot, treasury: TreasuryAccount): Desk
    requires miner.Valid() && (round != null ==> round.Valid())
    reads miner, miner.deployed, miner.cumulative, round, if round == null then {} else {round.deployed, round.count}
    reads extended, extended.account, treasury
  {
    Desk(miner.Playing(), miner.lamports, RoundView(round), if round == null then 0 else round.lamports,
         PlayerView(miner, extended), treasury.View())
  }

  /** Whether there is anything to settle, and whether the bot fee is due. */
  method Inspect(miner: MinerAccount, round: RoundAccount?, boardRound: uint64, slot: uint64) returns (r: Result<Gate>)
    requires miner.Valid() && (round != null ==> round.Valid())
    modifies miner`checkpointId
    ensures r == GateOf(old(miner.Playing()), RoundView(round), boardRound, slot)
    ensures r.Ok? ==> miner.Playing() == if r.value.Forfeit? then old(miner.Playing()).(checkpointId := miner.roundId) else old(miner.Playing())
    ensures r.Ok? && r.value.Settle? ==> round != null && round.id == miner.roundId
  {
    if miner.checkpointId == miner.roundId {
      return Ok(Skip);
    }
    if round == null {
      miner.checkpointId := miner.roundId;
      return Ok(Forfeit);
    }
    if round.id == boardRound || round.id != miner.roundId || round.slotHash == Repeated(0) {
      return Ok(Skip);
    }
    if slot >= round.expiresAt {
      miner.checkpointId := miner.roundId;
      return Ok(Forfeit);
    }
    var late :- Subtract(round.expiresAt, TWELVE_HOURS_SLOTS, Panic);
    return Ok(Settle(slot >= late));
  }

  /** The GODL side: settle the refined share, then the gold, then credit. */
  method CreditMiner(legacy: bool, miner: MinerAccount, extended: ExtendedSlot, vault: GoldVaultAccount,
          treasury: TreasuryAccount, reward: uint64)
    returns (r: Result<uint64>)
    requires miner.Valid()
    modifies miner`rewardsFactor, miner`refinedGodl, miner`rewardsGodl, miner`lifetimeRewardsGodl, extended, extended.account, treasury
    ensures miner.Playing() == old(miner.Playing())
    ensures Reached(CreditGodl(legacy, old(PlayerView(miner, extended)), old(treasury.View()), vault.xautRewardsFactor, reward),
                    r, PlayerView(miner, extended), treasury.View())
  {
    hide Accrued, Accrue;
    if legacy {
      var _ :- miner.UpdateRewards(treasury);
      r := miner.AddUnrefined(reward, treasury, Panic);
    } else {
      r := CreditMined(miner, extended, vault, treasury, reward);
    }
  }

  /** The SOL side: books the reward, moves the lamports, and checks that the miner stays funded. */
  method PayMiner(miner: MinerAccount, round: RoundAccount, sol: uint64, botFee: bool, rent: nat) returns (r: Result<()>)
    requires miner.Valid() && round.Valid() && round.id == miner.roundId
    modifies miner`checkpointFee, miner`checkpointId, miner`rewardsSol, miner`lifetimeRewardsSol, miner`lamports, round`lamports
    ensures miner.Refining() == old(miner.Refining()) && round.View() == old(round.View())
    ensures match Pay(old(miner.Playing()), old(miner.lamports), old(round.lamports), sol, botFee, rent)
            case Err(e) => r == Err(e)
            case Ok(p) => r == Ok(()) && miner.Playing() == p.play && miner.lamports == p.minerLamports && round.lamports == p.roundLamports
  {
    var fee: uint64 := 0;
    if botFee {
      fee := miner.checkpointFee;
      miner.checkpointFee := 0;
    }
    miner.checkpointId := round.id;
    miner.rewardsSol :- Add(miner.rewardsSol, sol, Panic);
    miner.lifetimeRewardsSol :- Add(miner.lifetimeRewardsSol, sol, Panic);
    if round.lamports < sol {
      return Err(Panic);
    }
    round.lamports := round.lamports - sol;
    miner.lamports := miner.lamports + sol;
    if miner.lamports < fee {
      return Err(Panic);
    }
    miner.lamports := miner.lamports - fee;
    if miner.lamports < rent + miner.checkpointFee + miner.rewardsSol {
      return Err(Panic);
    }
    return Ok(());
  }

  method SettleAndPay(legacy: bool, miner: MinerAccount, authority: nat, round: RoundAccount, member: PoolMemberAccount,
                      pool: PoolRoundAccount?, extended: ExtendedSlot, vault: GoldVaultAccount, treasury: TreasuryAccount,
                      botFee: bool, rent: nat) returns (r: Result<()>)
    requires miner.Valid() && member.Valid() && round.Valid() && (pool != null ==> pool.Valid()) && round.id == miner.roundId
    modifies miner, round, extended, extended.account, treasury
    ensures match Due(old(round.View()), old(BetOf(miner.Playing(), member.Stored())), PoolTotal(PoolView(pool)), authority)
            case Err(e) => r == Err(e)
            case Ok(payout) =>
              match PaidDesk(old(DeskView(miner, round, extended, treasury)), payout, botFee, legacy, vault.xautRewardsFactor, rent)
              case Err(e) => r == Err(e)
              case Ok(d) => r == Ok(()) && DeskView(miner, round, extended, treasury) == d
  {
    hide Due, CreditGodl, Pay, PoolTotal, BetOf, MinerAccount.Playing, MinerAccount.Refining, RoundAccount.View, TreasuryAccount.View;
    var due :- SettleBets(round, miner, member, pool, authority);
    var _ :- CreditMiner(legacy, miner, extended, vault, treasury, due.1);
    r := PayMiner(miner, round, due.0, botFee, rent);
  }

  /** Both checkpoint instructions. */
  method ProcessCheckpoint(legacy: bool, now: int64, slot: uint64, boardRound: uint64, miner: MinerAccount, authority: nat,
                           round: RoundAccount?, member: PoolMemberAccount, pool: PoolRoundAccount?, extended: ExtendedSlot,
                           vault: GoldVaultAccount, treasury: TreasuryAccount, rent: nat) returns (r: Result<()>)
    requires miner.Valid() && member.Valid() && (round != null ==> round.Valid()) && (pool != null ==> pool.Valid())
    modifies miner, round, extended, extended.account, treasury
    ensures match Checkpointed(old(DeskView(miner, round, extended, treasury)), boardRound, slot, member.Stored(), PoolView(pool),
                               authority, legacy, vault.xautRewardsFactor, now, rent)
            case Err(e) => r == Err(e)
            case Ok(d) => r == Ok(()) && DeskView(miner, round, extended, treasury) == d
  {
    hide GateOf, Due, PaidDesk;
    if legacy && now >= LEGACY_INSTRUCTION_EXPIRY_TS {
      return Err(LegacyInstructionExpired);
    }
    var gate :- Inspect(miner, round, boardRound, slot);
    if !gate.Settle? {
      return Ok(());
    }
    r := SettleAndPay(legacy, miner, authority, round, member, pool, extended, vault, treasury, gate.botFee, rent);
  }
}
