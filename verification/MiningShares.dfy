/** The eager ledger beside the mining one: every claim fee and every distribution of gold is handed
    out at once and without rounding. What miners receive is that, less what the floors cost. */
module MiningShares {
  import opened Accumulator
  import opened Basics
  import opened FixedPoint
  import opened GoldState
  import opened MapSums
  import opened MinerHandlers
  import opened MinerState
  import opened MiningLedger
  import opened TreasuryState
  import FairShare
  import Runs

  /** A miner's eager accounts in refined GODL and in gold, the refined GODL it has taken so far, and
      what it has mined less the fees it has paid. */
  datatype Twin = Twin(refined: FairShare.Fair, taken: nat, net: int, gold: FairShare.Fair)

  const NEW_TWIN := Twin(FairShare.NEWCOMER, 0, 0, FairShare.NEWCOMER)

  /** All the refined GODL a miner ever had, and has yet to settle. */
  ghost function Ever(p: Player, taken: nat): Position {
    Position(p.miner.refinedGodl + taken, p.miner.rewardsFactor, p.miner.rewardsGodl)
  }

  /** What an instruction does to the shares: it settles one miner, perhaps to pay it, charges one
      miner a fee that is shared by those who wait, or shares gold. */
  datatype Move =
    | Plays(owner: nat, mined: nat)
    | Claims(owner: nat, refined: nat, fee: nat)
    | Spreads(amount: nat)

  ghost function MoveOf(m: Mine, n: Mine, i: Instruction): Move {
    match i
    case ClaimGodlRewards(owner, _) =>
      var rewards := Unrefined(PlayerOrNew(m, owner));
      var fee := if n.treasury.totalUnclaimed == 0 then 0 else rewards / 10;
      Claims(owner, Max(n.paid - m.paid + fee - rewards, 0), fee)
    case DepositGold(_) => Spreads(Max(n.vault.totalXautDistributed - m.vault.totalXautDistributed, 0))
    case BuyGold(_, _) => Spreads(Max(n.vault.totalXautDistributed - m.vault.totalXautDistributed, 0))
    case DonateXaut(_) => Spreads(0)
    case Wait(_) => Spreads(0)
    case _ => Plays(i.owner, Max(n.credited - m.credited, 0))
  }

  ghost function TwinOf(twins: map<nat, Twin>, owner: nat): Twin {
    if owner in twins then twins[owner] else NEW_TWIN
  }

  /** A miner's own step: each account counts a settlement when its snapshot moves and it carries
      any weight; gold also loses by the rise it settles. */
  ghost function Acted(p: Player, q: Player, t: Twin, refined: nat, net: int): Twin {
    var rise := GoldPosition(q).snapshot - GoldPosition(p).snapshot;
    Twin(if Settles(RefinedPosition(p), RefinedPosition(q)) then FairShare.Settled(t.refined, 0) else t.refined,
         t.taken + refined, t.net + net,
         if Settles(GoldPosition(p), GoldPosition(q)) then FairShare.Settled(t.gold, Max(GoldLoss(rise) - GOLD_UNIT + 1, 0)) else t.gold)
  }

  ghost function Handed(n: Mine, twins: map<nat, Twin>, fee: nat): map<nat, Twin>
    requires twins.Keys == n.players.Keys
  {
    if fee == 0 || n.treasury.totalUnclaimed == 0 then twins
    else
      map a | a in twins :: twins[a].(refined := FairShare.Credit(twins[a].refined, n.players[a].miner.rewardsGodl, fee, n.treasury.totalUnclaimed))
  }

  ghost function Gilded(m: Mine, twins: map<nat, Twin>, amount: nat): map<nat, Twin>
    requires twins.Keys == m.players.Keys
  {
    if amount == 0 || m.treasury.totalUnclaimed == 0 then twins
    else
      map a | a in twins :: twins[a].(gold := FairShare.Credit(twins[a].gold, GoldPosition(m.players[a]).weight, amount, m.treasury.totalUnclaimed))
  }

  ghost predicate Fits(m: Mine, n: Mine, move: Move, twins: map<nat, Twin>) {
    twins.Keys == m.players.Keys
    && match move
       case Spreads(_) => n.players.Keys == m.players.Keys
       case _ => n.players.Keys == m.players.Keys + {move.owner}
  }

  ghost function Shared(m: Mine, n: Mine, move: Move, twins: map<nat, Twin>): map<nat, Twin>
    requires Fits(m, n, move, twins)
  {
    match move
    case Plays(owner, mined) =>
      twins[owner := Acted(PlayerOrNew(m, owner), n.players[owner], TwinOf(twins, owner), 0, mined)]
    case Claims(owner, refined, fee) =>
      Handed(n, twins[owner := Acted(PlayerOrNew(m, owner), n.players[owner], TwinOf(twins, owner), refined, 0 - fee)], fee)
    case Spreads(amount) => Gilded(m, twins, amount)
  }

  datatype Watched = Watched(mine: Mine, twins: map<nat, Twin>)

  ghost function WatchedStep(w: Watched, i: Instruction): Result<Watched> {
    var n :- Step(w.mine, i);
    var move := MoveOf(w.mine, n, i);
    if Fits(w.mine, n, move, w.twins) then Ok(Watched(n, Shared(w.mine, n, move, w.twins))) else Err(Panic)
  }

  ghost predicate TwinTracks(p: Player, t: Twin, factor: Fixed, gold: Fixed) {
    && FairShare.Tracks(Ever(p, t.taken), factor, ONE, t.refined)
    && FairShare.Tracks(GoldLifetimePosition(p), gold, GOLD_UNIT, t.gold)
    && Received(p) == t.taken + t.net
  }

  ghost predicate AllTrack(m: Mine, twins: map<nat, Twin>) {
    forall a :: a in m.players && a in twins ==>
      TwinTracks(m.players[a], twins[a], m.treasury.minerRewardsFactor, m.vault.xautRewardsFactor)
  }

  ghost predicate Mirrored(w: Watched) {
    Invariant(w.mine) && w.twins.Keys == w.mine.players.Keys && AllTrack(w.mine, w.twins)
  }

  lemma EverCarried(p: Player, q: Player, factor: Fixed, taken: nat, refined: nat)
    requires Carried(RefinedPosition(p), RefinedPosition(q), factor, ONE, refined, ONE - 1)
    ensures Carried(Ever(p, taken), Ever(q, taken + refined), factor, ONE, 0, ONE - 1)
  {
  }

  lemma CarriedTracks(p: Position, q: Position, factor: int, unit: nat, fair: FairShare.Fair, loss: int, extra: nat)
    requires FairShare.Tracks(p, factor, unit, fair) && Carried(p, q, factor, unit, 0, loss)
    requires Settles(p, q) ==> loss <= unit - 1 + extra
    ensures FairShare.Tracks(q, factor, unit, if Settles(p, q) then FairShare.Settled(fair, extra) else fair)
  {
    hide Owed;
    if Settles(p, q) {
      FairShare.TracksSettlement(p, q, factor, unit, fair, extra);
    } else {
      hide FairShare.Loss;
      assert Owed(q, factor, unit) == Owed(p, factor, unit);
    }
  }

  lemma NewcomerTracks(factor: Fixed, gold: Fixed)
    ensures TwinTracks(NEWCOMER, NEW_TWIN, factor, gold)
  {
  }

  /** One miner's own step keeps its eager accounts in step. */
  lemma ActedTracks(p: Player, q: Player, t: Twin, factor: Fixed, gold: Fixed, mined: nat, refined: nat, goldTaken: nat)
    requires Fair(p, q, factor, gold, mined, refined, goldTaken) && TwinTracks(p, t, factor, gold)
    requires GoldPosition(p).snapshot <= gold
    ensures TwinTracks(q, Acted(p, q, t, refined, mined), factor, gold)
  {
    hide Carried, Owed, FairShare.Tracks, GoldLoss;
    EverCarried(p, q, factor, t.taken, refined);
    CarriedTracks(Ever(p, t.taken), Ever(q, t.taken + refined), factor, ONE, t.refined, ONE - 1, 0);
    GoldActedTracks(p, q, t, factor, gold, mined, refined, goldTaken);
  }

  lemma GoldActedTracks(p: Player, q: Player, t: Twin, factor: Fixed, gold: Fixed, mined: nat, refined: nat, goldTaken: nat)
    requires Fair(p, q, factor, gold, mined, refined, goldTaken) && GoldPosition(p).snapshot <= gold
    requires FairShare.Tracks(GoldLifetimePosition(p), gold, GOLD_UNIT, t.gold)
    ensures FairShare.Tracks(GoldLifetimePosition(q), gold, GOLD_UNIT, Acted(p, q, t, refined, mined).gold)
  {
    hide Owed, FairShare.Tracks;
    var loss := GoldLoss(gold - GoldPosition(p).snapshot);
    CarriedTracks(GoldLifetimePosition(p), GoldLifetimePosition(q), gold, GOLD_UNIT, t.gold, loss, loss - GOLD_UNIT + 1);
  }

  /** What one miner's step leaves alone, and what it does to that miner. */
  ghost predicate Played1(m: Mine, n: Mine, owner: nat, mined: nat, goldTaken: nat) {
    && owner in n.players && n.players == m.players[owner := n.players[owner]]
    && n.treasury.minerRewardsFactor == m.treasury.minerRewardsFactor
    && n.vault.xautRewardsFactor == m.vault.xautRewardsFactor
    && Fair(PlayerOrNew(m, owner), n.players[owner], m.treasury.minerRewardsFactor, m.vault.xautRewardsFactor, mined, 0, goldTaken)
  }

  lemma OldSnapshots(m: Mine, owner: nat)
    requires Invariant(m)
    ensures Sane(PlayerOrNew(m, owner), m.treasury.minerRewardsFactor, m.vault.xautRewardsFactor)
    ensures GoldPosition(PlayerOrNew(m, owner)).snapshot <= m.vault.xautRewardsFactor
  {
    hide Solvent, GoldIdle, TotalWeight;
  }

  lemma PlayedTracks(m: Mine, n: Mine, owner: nat, mined: nat, goldTaken: nat, twins: map<nat, Twin>)
    requires Invariant(m) && AllTrack(m, twins) && twins.Keys == m.players.Keys && Played1(m, n, owner, mined, goldTaken)
    ensures Fits(m, n, Plays(owner, mined), twins) && AllTrack(n, Shared(m, n, Plays(owner, mined), twins))
  {
    hide Invariant, TwinTracks, Fair, Acted;
    var factor, gold := m.treasury.minerRewardsFactor, m.vault.xautRewardsFactor;
    OldSnapshots(m, owner);
    NewcomerTracks(factor, gold);
    ActedTracks(PlayerOrNew(m, owner), n.players[owner], TwinOf(twins, owner), factor, gold, mined, 0, goldTaken);
  }

  lemma JoinPlays(m: Mine, owner: nat, extended: bool)
    requires Invariant(m)
    ensures Played1(m, Join(m, owner, extended), owner, 0, 0)
  {
    hide Invariant, Fair;
    OldSnapshots(m, owner);
    OpenedFair(PlayerOrNew(m, owner), m.treasury.minerRewardsFactor, m.vault.xautRewardsFactor);
    IdleFair(PlayerOrNew(m, owner), m.treasury.minerRewardsFactor, m.vault.xautRewardsFactor);
  }

  lemma IdleFair(p: Player, factor: Fixed, gold: Fixed)
    requires Sane(p, factor, gold)
    ensures Fair(p, p, factor, gold, 0, 0, 0)
  {
    hide Owed;
  }

  lemma StoredPlays(m: Mine, owner: nat, c: Credited)
    requires Mined(PlayerOrNew(m, owner), m.treasury, m.vault.xautRewardsFactor, c)
    ensures Played1(m, StorePlayer(m, owner, c), owner, c.amount, 0)
  {
    hide Fair;
  }

  lemma LegacyPlays(m: Mine, owner: nat, reward: uint64)
    requires Invariant(m) && CheckpointLegacy(m, owner, reward).Ok?
    ensures Played1(m, CheckpointLegacy(m, owner, reward).value, owner, reward, 0)
  {
    hide Mined, Solvent, Played1, TotalWeight;
    OldSnapshots(m, owner);
    LegacyCheckpointMined(m.players[owner], m.treasury, m.vault.xautRewardsFactor, reward);
    StoredPlays(m, owner, CreditLegacyCheckpoint(m.players[owner], m.treasury, reward).value);
  }

  lemma CheckpointPlays(m: Mine, owner: nat, reward: uint64)
    requires Invariant(m) && CheckpointAware(m, owner, reward).Ok?
    ensures Played1(m, CheckpointAware(m, owner, reward).value, owner, reward, 0)
  {
    hide Mined, Invariant, Played1;
    OldSnapshots(m, owner);
    CheckpointMined(m.players[owner], m.treasury, m.vault.xautRewardsFactor, reward);
    StoredPlays(m, owner, CreditCheckpoint(m.players[owner], m.treasury, m.vault.xautRewardsFactor, reward).value);
  }

  lemma InjectPlays(m: Mine, owner: nat, amount: uint64)
    requires Invariant(m) && InjectInto(m, owner, amount).Ok?
    ensures Played1(m, InjectInto(m, owner, amount).value, owner, amount, 0)
  {
    hide Mined, Invariant, Played1;
    OldSnapshots(m, owner);
    OpenedMined(m.players[owner], m.treasury, m.vault.xautRewardsFactor, amount, InvalidInstructionData);
    StoredPlays(m, owner, Inject(m.players[owner], m.treasury, m.vault.xautRewardsFactor, amount).value);
  }

  lemma OtcPlays(m: Mine, owner: nat, bonus: uint64)
    requires Invariant(m) && TradeOtc(m, owner, bonus).Ok?
    ensures Played1(m, TradeOtc(m, owner, bonus).value, owner, bonus, 0)
  {
    hide Mined, Invariant, Played1;
    OldSnapshots(m, owner);
    var p := PlayerOrNew(m, owner);
    if bonus == 0 {
      IdleMined(p, m.treasury, m.vault.xautRewardsFactor);
    } else {
      OpenedMined(p, m.treasury, m.vault.xautRewardsFactor, bonus, ArithmeticOverflow);
    }
    StoredPlays(m, owner, OtcBonus(p, m.treasury, m.vault.xautRewardsFactor, bonus).value);
  }

  lemma GoldClaimPlays(m: Mine, owner: nat)
    requires Invariant(m) && PayGold(m, owner).Ok?
    ensures Played1(m, PayGold(m, owner).value, owner, 0, ClaimGold(m.players[owner], m.vault).value.amount)
  {
    hide Invariant, Fair, Accrue;
    OldSnapshots(m, owner);
    ClaimGoldFair(m.players[owner], m.vault, m.treasury.minerRewardsFactor);
  }

  /** A claim, seen as a payout of both balances and a fee. */
  ghost predicate Claimed1(m: Mine, n: Mine, owner: nat, q: Player, refined: nat, fee: nat) {
    && owner in m.players && owner in n.players && n.players == m.players[owner := n.players[owner]]
    && Fair(m.players[owner], q, m.treasury.minerRewardsFactor, m.vault.xautRewardsFactor, 0, refined, 0)
    && n.players[owner] == q.(miner := q.miner.(lifetimeRewardsGodl := n.players[owner].miner.lifetimeRewardsGodl))
    && n.players[owner].miner.lifetimeRewardsGodl == q.miner.lifetimeRewardsGodl - fee
    && n.vault.xautRewardsFactor == m.vault.xautRewardsFactor
    && FloorShare(n.treasury.minerRewardsFactor - m.treasury.minerRewardsFactor, n.treasury.totalUnclaimed, fee, ONE)
    && n.paid == m.paid + Unrefined(m.players[owner]) + refined - fee
    && fee == if n.treasury.totalUnclaimed == 0 then 0 else Unrefined(m.players[owner]) / 10
  }

  lemma ClaimPlays(m: Mine, owner: nat, referred: bool)
    requires Invariant(m) && PayGodl(m, owner, referred).Ok?
    ensures Emptied(m.players[owner], m.treasury, m.vault.xautRewardsFactor, m.now).Ok?
    ensures var n := PayGodl(m, owner, referred).value;
      Claimed1(m, n, owner, Emptied(m.players[owner], m.treasury, m.vault.xautRewardsFactor, m.now).value,
               RefinedPayable(m.players[owner], m.treasury.minerRewardsFactor),
               if n.treasury.totalUnclaimed == 0 then 0 else Unrefined(m.players[owner]) / 10)
  {
    hide Invariant, Fair, Emptied, RefinedPayable, ClaimGodl, FloorShare;
    OldSnapshots(m, owner);
    var p := m.players[owner];
    ClaimIsPayoutAndFee(p, m.treasury, m.vault.xautRewardsFactor, m.now, referred);
    EmptiedFair(p, m.treasury, m.vault.xautRewardsFactor, m.now);
  }

  lemma ChargedTracks(p: Player, q: Player, r: Player, t: Twin, factor: Fixed, gold: Fixed, refined: nat, fee: nat)
    requires Fair(p, q, factor, gold, 0, refined, 0) && TwinTracks(p, t, factor, gold) && GoldPosition(p).snapshot <= gold
    requires r == q.(miner := q.miner.(lifetimeRewardsGodl := r.miner.lifetimeRewardsGodl))
    requires r.miner.lifetimeRewardsGodl == q.miner.lifetimeRewardsGodl - fee
    ensures TwinTracks(r, Acted(p, r, t, refined, 0 - fee), factor, gold)
  {
    hide Fair, FairShare.Tracks;
    ActedTracks(p, q, t, factor, gold, 0, refined, 0);
  }

  /** A fee shared raises every waiting miner's lazy and eager account alike. */
  lemma HandedTracks(p: Player, t: Twin, factor: Fixed, later: Fixed, gold: Fixed, fee: nat, total: uint64)
    requires TwinTracks(p, t, factor, gold) && FloorShare(later - factor, total, fee, ONE)
    ensures TwinTracks(p, if fee == 0 || total == 0 then t
                          else t.(refined := FairShare.Credit(t.refined, p.miner.rewardsGodl, fee, total)), later, gold)
  {
    hide FairShare.Tracks;
    if fee == 0 || total == 0 {
      NoRise(later - factor, total, fee, ONE);
    } else {
      FairShare.TracksDistribution(Ever(p, t.taken), factor, ONE, t.refined, later - factor, fee, total);
      assert factor + (later - factor) == later;
    }
  }

  lemma NoRise(delta: int, total: nat, amount: nat, unit: nat)
    requires FloorShare(delta, total, amount, unit) && (amount == 0 || total == 0)
    ensures delta == 0
  {
    if 0 < delta && 0 < total {
      MultiplyMonotone(1, delta, total);
    }
  }

  lemma GildedTracks(p: Player, t: Twin, factor: Fixed, gold: Fixed, later: Fixed, amount: nat, total: uint64)
    requires TwinTracks(p, t, factor, gold) && FloorShare(later - gold, total, amount, GOLD_UNIT)
    ensures TwinTracks(p, if amount == 0 || total == 0 then t
                          else t.(gold := FairShare.Credit(t.gold, GoldPosition(p).weight, amount, total)), factor, later)
  {
    hide FairShare.Tracks;
    if amount == 0 || total == 0 {
      NoRise(later - gold, total, amount, GOLD_UNIT);
    } else {
      FairShare.TracksDistribution(GoldLifetimePosition(p), gold, GOLD_UNIT, t.gold, later - gold, amount, total);
      assert gold + (later - gold) == later;
    }
  }

  lemma ClaimTracks(m: Mine, n: Mine, owner: nat, q: Player, refined: nat, fee: nat, twins: map<nat, Twin>)
    requires Invariant(m) && AllTrack(m, twins) && twins.Keys == m.players.Keys && Claimed1(m, n, owner, q, refined, fee)
    ensures Fits(m, n, Claims(owner, refined, fee), twins) && AllTrack(n, Shared(m, n, Claims(owner, refined, fee), twins))
  {
    hide Invariant, TwinTracks, Fair, Acted, FloorShare;
    var factor, gold := m.treasury.minerRewardsFactor, m.vault.xautRewardsFactor;
    OldSnapshots(m, owner);
    ChargedTracks(m.players[owner], q, n.players[owner], twins[owner], factor, gold, refined, fee);
    var acted := twins[owner := Acted(m.players[owner], n.players[owner], twins[owner], refined, 0 - fee)];
    var after := Shared(m, n, Claims(owner, refined, fee), twins);
    forall a | a in n.players && a in after
      ensures TwinTracks(n.players[a], after[a], n.treasury.minerRewardsFactor, n.vault.xautRewardsFactor)
    {
      HandedTracks(n.players[a], acted[a], factor, n.treasury.minerRewardsFactor, gold, fee, n.treasury.totalUnclaimed);
    }
  }

  ghost predicate Gilds(m: Mine, n: Mine, amount: nat) {
    && n.players == m.players && n.treasury == m.treasury
    && FloorShare(n.vault.xautRewardsFactor - m.vault.xautRewardsFactor, m.treasury.totalUnclaimed, amount, GOLD_UNIT)
  }

  lemma SpreadTracks(m: Mine, n: Mine, amount: nat, twins: map<nat, Twin>)
    requires AllTrack(m, twins) && twins.Keys == m.players.Keys && Gilds(m, n, amount)
    ensures Fits(m, n, Spreads(amount), twins) && AllTrack(n, Shared(m, n, Spreads(amount), twins))
  {
    hide TwinTracks, FloorShare;
    var after := Shared(m, n, Spreads(amount), twins);
    forall a | a in n.players && a in after
      ensures TwinTracks(n.players[a], after[a], n.treasury.minerRewardsFactor, n.vault.xautRewardsFactor)
    {
      GildedTracks(m.players[a], twins[a], m.treasury.minerRewardsFactor, m.vault.xautRewardsFactor, n.vault.xautRewardsFactor,
                   amount, m.treasury.totalUnclaimed);
    }
  }

  lemma GoldGilds(m: Mine, xaut: uint64)
    requires ReceiveGold(m, xaut).Ok?
    ensures var n := ReceiveGold(m, xaut).value;
      && m.vault.totalXautDistributed <= n.vault.totalXautDistributed
      && Gilds(m, n, n.vault.totalXautDistributed - m.vault.totalXautDistributed)
  {
    hide GoldState.Distribute, FloorShare;
    DistributeCost(m.vault, xaut, m.treasury.totalUnclaimed);
  }

  lemma NothingGilds(m: Mine, n: Mine)
    requires n.players == m.players && n.treasury == m.treasury && n.vault == m.vault
    ensures Gilds(m, n, 0)
  {
  }

  lemma PlaysMirrored(m: Mine, n: Mine, i: Instruction, owner: nat, mined: nat, goldTaken: nat, twins: map<nat, Twin>)
    requires Invariant(m) && AllTrack(m, twins) && twins.Keys == m.players.Keys && Played1(m, n, owner, mined, goldTaken)
    requires MoveOf(m, n, i) == Plays(owner, mined)
    ensures Tracked(m, n, MoveOf(m, n, i), twins)
  {
    hide Invariant, AllTrack, Played1, Shared, MoveOf, Fits;
    PlayedTracks(m, n, owner, mined, goldTaken, twins);
    PlayedFits(m, n, owner, mined, goldTaken, twins);
  }

  ghost predicate Tracked(m: Mine, n: Mine, move: Move, twins: map<nat, Twin>) {
    Fits(m, n, move, twins) && Shared(m, n, move, twins).Keys == n.players.Keys && AllTrack(n, Shared(m, n, move, twins))
  }

  lemma PlayedFits(m: Mine, n: Mine, owner: nat, mined: nat, goldTaken: nat, twins: map<nat, Twin>)
    requires twins.Keys == m.players.Keys && Played1(m, n, owner, mined, goldTaken)
    ensures Fits(m, n, Plays(owner, mined), twins) && Shared(m, n, Plays(owner, mined), twins).Keys == n.players.Keys
  {
    hide Acted, Fair;
  }

  lemma JoinMirrored(m: Mine, i: Instruction, owner: nat, extended: bool, twins: map<nat, Twin>)
    requires Invariant(m) && AllTrack(m, twins) && twins.Keys == m.players.Keys
    requires MoveOf(m, Join(m, owner, extended), i) == Plays(owner, 0)
    ensures Tracked(m, Join(m, owner, extended), MoveOf(m, Join(m, owner, extended), i), twins)
  {
    hide Invariant, AllTrack, Join, Played1, MoveOf, Tracked;
    JoinPlays(m, owner, extended);
    PlaysMirrored(m, Join(m, owner, extended), i, owner, 0, 0, twins);
  }

  lemma SpreadMirrored(m: Mine, n: Mine, i: Instruction, amount: nat, twins: map<nat, Twin>)
    requires AllTrack(m, twins) && twins.Keys == m.players.Keys && Gilds(m, n, amount) && MoveOf(m, n, i) == Spreads(amount)
    ensures Tracked(m, n, MoveOf(m, n, i), twins)
  {
    hide AllTrack, FloorShare, MoveOf;
    SpreadTracks(m, n, amount, twins);
  }

  lemma ClaimMirrored(m: Mine, owner: nat, referred: bool, twins: map<nat, Twin>)
    requires Invariant(m) && AllTrack(m, twins) && twins.Keys == m.players.Keys && PayGodl(m, owner, referred).Ok?
    ensures var n := PayGodl(m, owner, referred).value; Tracked(m, n, MoveOf(m, n, ClaimGodlRewards(owner, referred)), twins)
  {
    hide Invariant, AllTrack, PayGodl, Emptied, RefinedPayable, Fair, FloorShare, Acted;
    var n := PayGodl(m, owner, referred).value;
    ClaimPlays(m, owner, referred);
    var q := Emptied(m.players[owner], m.treasury, m.vault.xautRewardsFactor, m.now).value;
    var refined := RefinedPayable(m.players[owner], m.treasury.minerRewardsFactor);
    var fee := if n.treasury.totalUnclaimed == 0 then 0 else Unrefined(m.players[owner]) / 10;
    ClaimTracks(m, n, owner, q, refined, fee, twins);
    assert MoveOf(m, n, ClaimGodlRewards(owner, referred)) == Claims(owner, refined, fee);
  }

  lemma StoredMirrored(m: Mine, n: Mine, i: Instruction, owner: nat, mined: nat, twins: map<nat, Twin>)
    requires Invariant(m) && AllTrack(m, twins) && twins.Keys == m.players.Keys && Played1(m, n, owner, mined, 0)
    requires MoveOf(m, n, i) == Plays(owner, mined)
    ensures Tracked(m, n, MoveOf(m, n, i), twins)
  {
    hide Invariant, AllTrack, Played1, MoveOf, Tracked;
    PlaysMirrored(m, n, i, owner, mined, 0, twins);
  }

  lemma CreditedMoves(m: Mine, owner: nat, reward: uint64)
    ensures CheckpointLegacy(m, owner, reward).Ok? ==> CheckpointLegacy(m, owner, reward).value.credited == m.credited + reward
    ensures CheckpointAware(m, owner, reward).Ok? ==> CheckpointAware(m, owner, reward).value.credited == m.credited + reward
    ensures InjectInto(m, owner, reward).Ok? ==> InjectInto(m, owner, reward).value.credited == m.credited + reward
    ensures TradeOtc(m, owner, reward).Ok? ==> TradeOtc(m, owner, reward).value.credited == m.credited + reward
  {
    hide Refine, Accrue, GoldShare;
  }

  /** Every committed instruction keeps all eager accounts in step with the ledger. */
  lemma StepTracks(m: Mine, i: Instruction, twins: map<nat, Twin>)
    requires Invariant(m) && AllTrack(m, twins) && twins.Keys == m.players.Keys && Step(m, i).Ok?
    ensures Tracked(m, Step(m, i).value, MoveOf(m, Step(m, i).value, i), twins)
  {
    hide Invariant, AllTrack, Tracked, Played1, CheckpointLegacy, CheckpointAware, InjectInto, TradeOtc, PayGodl, PayGold, ReceiveGold;
    var n := Step(m, i).value;
    match i
    case Automate(owner) => JoinMirrored(m, i, owner, false, twins);
    case Deploy(owner) => JoinMirrored(m, i, owner, false, twins);
    case DeployWithMinerExtended(owner) => JoinMirrored(m, i, owner, true, twins);
    case CreateMinerExtended(owner) => JoinMirrored(m, i, owner, true, twins);
    case Checkpoint(owner, reward) =>
      CreditedMoves(m, owner, reward);
      LegacyPlays(m, owner, reward);
      StoredMirrored(m, n, i, owner, reward, twins);
    case CheckpointWithMinerExtended(owner, reward) =>
      CreditedMoves(m, owner, reward);
      CheckpointPlays(m, owner, reward);
      StoredMirrored(m, n, i, owner, reward, twins);
    case InjectUnrefinedRewards(owner, amount) =>
      CreditedMoves(m, owner, amount);
      InjectPlays(m, owner, amount);
      StoredMirrored(m, n, i, owner, amount, twins);
    case ExecuteOtcTrade(owner, bonus) =>
      CreditedMoves(m, owner, bonus);
      OtcPlays(m, owner, bonus);
      StoredMirrored(m, n, i, owner, bonus, twins);
    case ClaimGodlRewards(owner, referred) => ClaimMirrored(m, owner, referred, twins);
    case ClaimGoldRewards(owner) => GoldClaimMirrored(m, owner, twins);
    case DepositGold(amount) => GoldMirrored(m, n, i, amount, twins);
    case BuyGold(xaut, _) => GoldMirrored(m, n, i, xaut, twins);
    case DonateXaut(_) =>
      NothingGilds(m, n);
      SpreadMirrored(m, n, i, 0, twins);
    case Wait(_) =>
      NothingGilds(m, n);
      SpreadMirrored(m, n, i, 0, twins);
  }

  lemma GoldClaimMirrored(m: Mine, owner: nat, twins: map<nat, Twin>)
    requires Invariant(m) && AllTrack(m, twins) && twins.Keys == m.players.Keys && PayGold(m, owner).Ok?
    ensures var n := PayGold(m, owner).value; Tracked(m, n, MoveOf(m, n, ClaimGoldRewards(owner)), twins)
  {
    hide Invariant, AllTrack, Tracked, Played1, ClaimGold;
    GoldClaimPlays(m, owner);
    PlaysMirrored(m, PayGold(m, owner).value, ClaimGoldRewards(owner), owner, 0, ClaimGold(m.players[owner], m.vault).value.amount, twins);
  }

  lemma GoldMirrored(m: Mine, n: Mine, i: Instruction, xaut: uint64, twins: map<nat, Twin>)
    requires AllTrack(m, twins) && twins.Keys == m.players.Keys && ReceiveGold(m, xaut) == Ok(n) && (i.DepositGold? || i.BuyGold?)
    ensures Tracked(m, n, MoveOf(m, n, i), twins)
  {
    hide AllTrack, Tracked, ReceiveGold, Gilds;
    GoldGilds(m, xaut);
    SpreadMirrored(m, n, i, n.vault.totalXautDistributed - m.vault.totalXautDistributed, twins);
  }

  /** The eager side never blocks a step, so the ledger inside takes exactly its own steps. */
  lemma WatchedTakesTheSameStep(w: Watched, i: Instruction)
    requires Mirrored(w)
    ensures Step(w.mine, i).Ok? ==> WatchedStep(w, i).Ok? && WatchedStep(w, i).value.mine == Step(w.mine, i).value
    ensures Step(w.mine, i).Err? ==> WatchedStep(w, i) == Err(Step(w.mine, i).error)
  {
    hide Step, Invariant, AllTrack, MoveOf, Fits, Shared;
    if Step(w.mine, i).Ok? {
      StepTracks(w.mine, i, w.twins);
    }
  }

  lemma WatchedStepKeeps(w: Watched, i: Instruction)
    requires Mirrored(w) && WatchedStep(w, i).Ok?
    ensures Mirrored(WatchedStep(w, i).value)
  {
    hide Step, Invariant, AllTrack, MoveOf, Fits, Shared;
    StepKeeps(w.mine, i);
    StepTracks(w.mine, i, w.twins);
  }

  lemma EmptyIsMirrored(m: Mine)
    requires Invariant(m) && m.players == map[]
    ensures Mirrored(Watched(m, map[]))
  {
    hide Invariant;
  }

  lemma RunKeepsMirror(w: Watched, history: seq<Instruction>)
    requires Mirrored(w)
    ensures Mirrored(Runs.Run(WatchedStep, w, history))
  {
    hide WatchedStep, Mirrored;
    forall s, i | Mirrored(s) && WatchedStep(s, i).Ok? ensures Mirrored(WatchedStep(s, i).value) {
      WatchedStepKeeps(s, i);
    }
    Runs.RunKeeps(WatchedStep, Mirrored, w, history);
  }

  lemma TwinAt(w: Watched, owner: nat)
    requires Mirrored(w) && owner in w.mine.players
    ensures owner in w.twins
    ensures TwinTracks(w.mine.players[owner], w.twins[owner], w.mine.treasury.minerRewardsFactor, w.mine.vault.xautRewardsFactor)
  {
    hide Invariant, TwinTracks;
  }

  /** After any history, the refined GODL a settled miner has had, claimed or not, is its exact
      share of every claim fee while it waited, less at most 1 - 1/2^48 of a unit for each time it
      was settled and weight/2^48 for each fee. Its lifetime total is that and exactly what it has
      mined less the fees it has paid itself. */
  lemma RefinedShareIsFair(w: Watched, history: seq<Instruction>, owner: nat)
    requires Mirrored(w)
    ensures var n := Runs.Run(WatchedStep, w, history);
      owner in n.mine.players ==>
        && owner in n.twins
        && var miner, t := n.mine.players[owner].miner, n.twins[owner];
        && var had := miner.refinedGodl + t.taken;
        && miner.lifetimeRewardsGodl == had + t.net
        && (miner.rewardsFactor == n.mine.treasury.minerRewardsFactor ==>
              && had as real <= t.refined.share
              && t.refined.share <= had as real + FairShare.Loss(t.refined, ONE) as real / ONE as real)
  {
    hide Mirrored, FairShare.Loss, WatchedStep, Runs.Run;
    RunKeepsMirror(w, history);
    var n := Runs.Run(WatchedStep, w, history);
    if owner in n.mine.players {
      TwinAt(n, owner);
      var p, t := n.mine.players[owner], n.twins[owner];
      if p.miner.rewardsFactor == n.mine.treasury.minerRewardsFactor {
        FairShare.SettledShare(Ever(p, t.taken), p.miner.rewardsFactor, ONE, t.refined);
      }
    }
  }

  /** After any history, the gold a synced miner has accrued in its lifetime is its exact share of
      every distribution since its extended account was opened, less for each settlement at most
      one unit and a 2^-96th of the rise settled, and for each distribution weight/2^48 of a
      millionth. */
  lemma GoldShareIsFair(w: Watched, history: seq<Instruction>, owner: nat)
    requires Mirrored(w)
    ensures var n := Runs.Run(WatchedStep, w, history);
      owner in n.mine.players && n.mine.players[owner].extended.Some? ==>
        && owner in n.twins
        && var e, fair := n.mine.players[owner].extended.value, n.twins[owner].gold;
        e.xautRewardsFactor == n.mine.vault.xautRewardsFactor ==>
          && e.lifetimeXaut as real <= fair.share
          && fair.share <= e.lifetimeXaut as real + FairShare.Loss(fair, GOLD_UNIT) as real / GOLD_UNIT as real
  {
    hide Mirrored, FairShare.Loss, WatchedStep, Runs.Run;
    RunKeepsMirror(w, history);
    var n := Runs.Run(WatchedStep, w, history);
    if owner in n.mine.players && n.mine.players[owner].extended.Some? {
      TwinAt(n, owner);
      var p := n.mine.players[owner];
      if p.extended.value.xautRewardsFactor == n.mine.vault.xautRewardsFactor {
        FairShare.SettledShare(GoldLifetimePosition(p), p.extended.value.xautRewardsFactor, GOLD_UNIT, n.twins[owner].gold);
      }
    }
  }
}
