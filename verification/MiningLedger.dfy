/** Unrefined GODL, its refined dividends and its gold, over all miners. Two accumulators share
    one weight, a miner's unrefined balance, and every instruction must settle both before it
    moves that balance. */
module MiningLedger {
  import opened Accumulator
  import opened Basics
  import opened FixedPoint
  import opened GoldState
  import opened MapSums
  import opened MinerHandlers
  import opened MinerState
  import opened TreasuryState
  import Runs

  /** `credited` is all GODL ever mined or injected, `paid` all GODL ever claimed, and
      `xautTokens` what the gold vault's token account holds. */
  datatype Mine = Mine(
    players: map<nat, Player>,
    treasury: Treasury,
    vault: Vault,
    xautTokens: nat,
    now: int64,
    credited: nat,
    paid: nat)

  /** A checkpoint's `reward` is whatever the round game computed; a swap's yield and plain
      token gifts come from outside. */
  datatype Instruction =
    | Automate(owner: nat)
    | Deploy(owner: nat)
    | DeployWithMinerExtended(owner: nat)
    | CreateMinerExtended(owner: nat)
    | Checkpoint(owner: nat, reward: uint64)
    | CheckpointWithMinerExtended(owner: nat, reward: uint64)
    | InjectUnrefinedRewards(owner: nat, amount: uint64)
    | ExecuteOtcTrade(owner: nat, bonus: uint64)
    | ClaimGodlRewards(owner: nat, referred: bool)
    | ClaimGoldRewards(owner: nat)
    | DepositGold(amount: uint64)
    | BuyGold(xaut: uint64, minimum: uint64)
    | DonateXaut(gift: nat)
    | Wait(seconds: nat)

  const NEWCOMER := Player(NEW_REFINERY, None)

  ghost function PlayerOrNew(m: Mine, owner: nat): Player {
    if owner in m.players then m.players[owner] else NEWCOMER
  }

  ghost function PlayerAt(m: Mine, owner: nat): Result<Player> {
    if owner in m.players then Ok(m.players[owner]) else Err(MissingAccount)
  }

  ghost function StorePlayer(m: Mine, owner: nat, c: Credited): Mine {
    m.(players := m.players[owner := c.player], treasury := c.treasury, credited := m.credited + c.amount)
  }

  ghost function Legacy(m: Mine): Result<()> {
    Need(m.now < LEGACY_INSTRUCTION_EXPIRY_TS, LegacyInstructionExpired)
  }

  ghost function ReceiveGold(m: Mine, xaut: uint64): Result<Mine> {
    var v :- Deposited(m.vault, m.now, xaut, m.treasury.totalUnclaimed);
    Ok(m.(vault := v, xautTokens := m.xautTokens + xaut))
  }

  ghost function PayGodl(m: Mine, owner: nat, referred: bool): Result<Mine> {
    var p :- PlayerAt(m, owner);
    var c :- ClaimGodl(p, m.treasury, m.vault.xautRewardsFactor, m.now, referred);
    Ok(m.(players := m.players[owner := c.player], treasury := c.treasury, paid := m.paid + c.amount))
  }

  ghost function PayGold(m: Mine, owner: nat): Result<Mine> {
    var p :- PlayerAt(m, owner);
    var c :- ClaimGold(p, m.vault);
    if m.xautTokens < c.amount then Err(InsufficientTokens)
    else Ok(m.(players := m.players[owner := c.player], vault := c.vault, xautTokens := m.xautTokens - c.amount))
  }

  ghost function CheckpointLegacy(m: Mine, owner: nat, reward: uint64): Result<Mine> {
    var _ :- Legacy(m);
    var p :- PlayerAt(m, owner);
    var c :- CreditLegacyCheckpoint(p, m.treasury, reward);
    Ok(StorePlayer(m, owner, c))
  }

  ghost function CheckpointAware(m: Mine, owner: nat, reward: uint64): Result<Mine> {
    var p :- PlayerAt(m, owner);
    var c :- CreditCheckpoint(p, m.treasury, m.vault.xautRewardsFactor, reward);
    Ok(StorePlayer(m, owner, c))
  }

  ghost function InjectInto(m: Mine, owner: nat, amount: uint64): Result<Mine> {
    var p :- PlayerAt(m, owner);
    var c :- Inject(p, m.treasury, m.vault.xautRewardsFactor, amount);
    Ok(StorePlayer(m, owner, c))
  }

  ghost function TradeOtc(m: Mine, owner: nat, bonus: uint64): Result<Mine> {
    var c :- OtcBonus(PlayerOrNew(m, owner), m.treasury, m.vault.xautRewardsFactor, bonus);
    Ok(StorePlayer(m, owner, c))
  }

  ghost function Join(m: Mine, owner: nat, extended: bool): Mine {
    var p := PlayerOrNew(m, owner);
    m.(players := m.players[owner := if extended then Opened(p, m.vault.xautRewardsFactor) else p])
  }

  ghost function Step(m: Mine, i: Instruction): Result<Mine> {
    match i
    case Automate(owner) => Ok(Join(m, owner, false))
    case Deploy(owner) => (var _ :- Legacy(m); Ok(Join(m, owner, false)))
    case DeployWithMinerExtended(owner) => Ok(Join(m, owner, true))
    case CreateMinerExtended(owner) => (var _ :- PlayerAt(m, owner); Ok(Join(m, owner, true)))
    case Checkpoint(owner, reward) => CheckpointLegacy(m, owner, reward)
    case CheckpointWithMinerExtended(owner, reward) => CheckpointAware(m, owner, reward)
    case InjectUnrefinedRewards(owner, amount) => InjectInto(m, owner, amount)
    case ExecuteOtcTrade(owner, bonus) => TradeOtc(m, owner, bonus)
    case ClaimGodlRewards(owner, referred) => PayGodl(m, owner, referred)
    case ClaimGoldRewards(owner) => PayGold(m, owner)
    case DepositGold(amount) => ReceiveGold(m, amount)
    case BuyGold(xaut, minimum) =>
      if m.now < LEGACY_INSTRUCTION_EXPIRY_TS then Err(GoldDistributionLocked)
      else if xaut < minimum || xaut == 0 then Err(GoldSlippageExceeded)
      else ReceiveGold(m, xaut)
    case DonateXaut(gift) => Ok(m.(xautTokens := m.xautTokens + gift))
    case Wait(seconds) => if m.now + seconds > INT64_MAX then Err(Panic) else Ok(m.(now := m.now + seconds))
  }

  ghost function RefinedPosition(p: Player): Position {
    Position(p.miner.refinedGodl, p.miner.rewardsFactor, p.miner.rewardsGodl)
  }

  ghost function LifetimePosition(p: Player): Position {
    Position(p.miner.lifetimeRewardsGodl, p.miner.rewardsFactor, p.miner.rewardsGodl)
  }

  ghost function GoldPosition(p: Player): Position {
    match p.extended
    case None => Position(0, 0, 0)
    case Some(e) => Position(e.xautRewards, e.xautRewardsFactor, p.miner.rewardsGodl)
  }

  ghost function GoldLifetimePosition(p: Player): Position {
    match p.extended
    case None => Position(0, 0, 0)
    case Some(e) => Position(e.lifetimeXaut, e.xautRewardsFactor, p.miner.rewardsGodl)
  }

  ghost function Refined(players: map<nat, Player>): map<nat, Position> {
    map a | a in players :: RefinedPosition(players[a])
  }

  ghost function Lifetimes(players: map<nat, Player>): map<nat, Position> {
    map a | a in players :: LifetimePosition(players[a])
  }

  ghost function Gold(players: map<nat, Player>): map<nat, Position> {
    map a | a in players :: GoldPosition(players[a])
  }

  ghost function GoldLifetimes(players: map<nat, Player>): map<nat, Position> {
    map a | a in players :: GoldLifetimePosition(players[a])
  }

  /** A miner's lifetime total covers both its balances, and no snapshot is ahead. */
  ghost predicate Sane(p: Player, factor: Fixed, gold: Fixed) {
    && p.miner.rewardsFactor <= factor
    && p.miner.rewardsGodl + p.miner.refinedGodl <= p.miner.lifetimeRewardsGodl
    && (p.extended.Some? ==> p.extended.value.xautRewardsFactor <= gold)
  }

  ghost predicate AllSane(players: map<nat, Player>, factor: Fixed, gold: Fixed) {
    forall a :: a in players ==> Sane(players[a], factor, gold)
  }

  /** Before the legacy instructions expire no gold factor has ever moved. */
  ghost predicate GoldIdle(m: Mine) {
    m.now < LEGACY_INSTRUCTION_EXPIRY_TS ==>
      forall a :: a in m.players ==> Synced(m.players[a], m.vault.xautRewardsFactor)
  }

  ghost predicate Synced(p: Player, gold: Fixed) {
    p.extended.Some? ==> p.extended.value.xautRewardsFactor == gold
  }

  ghost predicate Invariant(m: Mine) {
    && AllSane(m.players, m.treasury.minerRewardsFactor, m.vault.xautRewardsFactor)
    && GoldIdle(m)
    && TotalWeight(Refined(m.players)) == m.treasury.totalUnclaimed
    && m.paid + m.treasury.totalUnclaimed + m.treasury.totalRefined == m.credited
    && m.vault.pendingXaut + m.vault.totalXautDistributed <= m.xautTokens + m.vault.totalXautClaimed
    && Solvent(Refined(m.players), m.treasury.minerRewardsFactor, ONE, 0, m.treasury.totalRefined)
    && Solvent(Lifetimes(m.players), m.treasury.minerRewardsFactor, ONE, 0, m.credited)
    && Solvent(Gold(m.players), m.vault.xautRewardsFactor, GOLD_UNIT, m.vault.totalXautClaimed, m.vault.totalXautDistributed)
    && Solvent(GoldLifetimes(m.players), m.vault.xautRewardsFactor, GOLD_UNIT, 0, m.vault.totalXautDistributed)
  }

  /** What a step on one player does to what it is owed: it keeps all of it but what it takes and,
      when it settles, less than a unit of GODL and what the floors of a gold settlement cost. */
  ghost predicate Fair(p: Player, q: Player, factor: Fixed, gold: Fixed, mined: nat, refinedTaken: nat, goldTaken: nat) {
    && Sane(q, factor, gold)
    && (Synced(p, gold) ==> Synced(q, gold))
    && Carried(RefinedPosition(p), RefinedPosition(q), factor, ONE, refinedTaken, ONE - 1)
    && Carried(LifetimePosition(p), LifetimePosition(q), factor, ONE, 0 - mined, ONE - 1)
    && Carried(GoldPosition(p), GoldPosition(q), gold, GOLD_UNIT, goldTaken, GoldLoss(gold - GoldPosition(p).snapshot))
    && Carried(GoldLifetimePosition(p), GoldLifetimePosition(q), gold, GOLD_UNIT, 0, GoldLoss(gold - GoldPosition(p).snapshot))
    && Received(q) == Received(p) + mined + refinedTaken && ReceivedGold(q) == ReceivedGold(p) + goldTaken
  }

  /** A miner's lifetime GODL that no longer lies in its refined balance. */
  ghost function Received(p: Player): int {
    p.miner.lifetimeRewardsGodl - p.miner.refinedGodl
  }

  ghost function ReceivedGold(p: Player): int {
    GoldLifetimePosition(p).settled - GoldPosition(p).settled
  }

  /** A step on one player that mines, takes unrefined and refined GODL, and takes gold. */
  ghost predicate Played(m: Mine, n: Mine, owner: nat, mined: nat, taken: nat, refinedTaken: nat, goldTaken: nat) {
    var p := PlayerOrNew(m, owner);
    && owner in n.players && n.players == m.players[owner := n.players[owner]]
    && Fair(p, n.players[owner], m.treasury.minerRewardsFactor, m.vault.xautRewardsFactor, mined, refinedTaken, goldTaken)
    && n.players[owner].miner.rewardsGodl == p.miner.rewardsGodl + mined - taken
    && n.treasury == m.treasury.(totalUnclaimed := n.treasury.totalUnclaimed, totalRefined := n.treasury.totalRefined)
    && n.treasury.totalUnclaimed == m.treasury.totalUnclaimed + mined - taken
    && n.treasury.totalRefined == m.treasury.totalRefined - refinedTaken
    && n.vault == m.vault.(totalXautClaimed := n.vault.totalXautClaimed)
    && n.vault.totalXautClaimed == m.vault.totalXautClaimed + goldTaken
    && n.xautTokens == m.xautTokens - goldTaken
    && n.now == m.now && n.credited == m.credited + mined && n.paid == m.paid + taken + refinedTaken
  }

  lemma NewcomerOwes(factor: Fixed, unit: int)
    ensures Owed(RefinedPosition(NEWCOMER), factor, unit) == 0 && Owed(LifetimePosition(NEWCOMER), factor, unit) == 0
    ensures Owed(GoldPosition(NEWCOMER), factor, unit) == 0 && Owed(GoldLifetimePosition(NEWCOMER), factor, unit) == 0
  {
  }

  lemma PutBooks(players: map<nat, Player>, owner: nat, q: Player)
    ensures Refined(players[owner := q]) == Refined(players)[owner := RefinedPosition(q)]
    ensures Lifetimes(players[owner := q]) == Lifetimes(players)[owner := LifetimePosition(q)]
    ensures Gold(players[owner := q]) == Gold(players)[owner := GoldPosition(q)]
    ensures GoldLifetimes(players[owner := q]) == GoldLifetimes(players)[owner := GoldLifetimePosition(q)]
  {
  }

  lemma PlayedKeepsGodl(m: Mine, n: Mine, owner: nat, mined: nat, taken: nat, refinedTaken: nat, goldTaken: nat)
    requires Invariant(m) && Played(m, n, owner, mined, taken, refinedTaken, goldTaken)
    ensures TotalWeight(Refined(n.players)) == n.treasury.totalUnclaimed
    ensures Solvent(Refined(n.players), n.treasury.minerRewardsFactor, ONE, 0, n.treasury.totalRefined)
    ensures Solvent(Lifetimes(n.players), n.treasury.minerRewardsFactor, ONE, 0, n.credited)
  {
    hide Solvent, Owed, TotalWeight, TotalOwed, AllSane, GoldIdle;
    var factor := m.treasury.minerRewardsFactor;
    var q := n.players[owner];
    PutBooks(m.players, owner, q);
    NewcomerOwes(factor, ONE);
    PutPosition(Refined(m.players), owner, RefinedPosition(q), factor, ONE);
    SolventPut(Refined(m.players), factor, ONE, 0, m.treasury.totalRefined, owner, RefinedPosition(q), refinedTaken);
    SolventShift(Refined(n.players), factor, ONE, refinedTaken, m.treasury.totalRefined, 0 - refinedTaken);
    SolventPut(Lifetimes(m.players), factor, ONE, 0, m.credited, owner, LifetimePosition(q), 0 - mined);
    SolventShift(Lifetimes(n.players), factor, ONE, 0 - mined, m.credited, mined);
  }

  lemma PlayedKeepsGold(m: Mine, n: Mine, owner: nat, mined: nat, taken: nat, refinedTaken: nat, goldTaken: nat)
    requires Invariant(m) && Played(m, n, owner, mined, taken, refinedTaken, goldTaken)
    ensures Solvent(Gold(n.players), n.vault.xautRewardsFactor, GOLD_UNIT, n.vault.totalXautClaimed, n.vault.totalXautDistributed)
    ensures Solvent(GoldLifetimes(n.players), n.vault.xautRewardsFactor, GOLD_UNIT, 0, n.vault.totalXautDistributed)
  {
    hide Solvent, Owed, TotalWeight, TotalOwed, AllSane, GoldIdle;
    var gold := m.vault.xautRewardsFactor;
    var q := n.players[owner];
    PutBooks(m.players, owner, q);
    NewcomerOwes(gold, GOLD_UNIT);
    SolventPut(Gold(m.players), gold, GOLD_UNIT, m.vault.totalXautClaimed, m.vault.totalXautDistributed, owner, GoldPosition(q), goldTaken);
    SolventPut(GoldLifetimes(m.players), gold, GOLD_UNIT, 0, m.vault.totalXautDistributed, owner, GoldLifetimePosition(q), 0);
  }

  lemma PlayedKeeps(m: Mine, n: Mine, owner: nat, mined: nat, taken: nat, refinedTaken: nat, goldTaken: nat)
    requires Invariant(m) && Played(m, n, owner, mined, taken, refinedTaken, goldTaken)
    ensures Invariant(n)
  {
    hide Solvent, Owed, TotalWeight, TotalOwed;
    PlayedKeepsGodl(m, n, owner, mined, taken, refinedTaken, goldTaken);
    PlayedKeepsGold(m, n, owner, mined, taken, refinedTaken, goldTaken);
  }

  lemma NoWeightNoShare(share: nat, weight: nat, delta: nat)
    requires share * ONE <= delta * weight
    ensures weight == 0 ==> share == 0
  {
  }

  lemma RefineFair(p: Player, factor: Fixed, gold: Fixed)
    requires Sane(p, factor, gold) && Refine(p.miner, factor).Ok?
    ensures var r := Refine(p.miner, factor).value;
      Fair(p, p.(miner := r), factor, gold, 0, 0, 0) && r.rewardsGodl == p.miner.rewardsGodl && r.rewardsFactor == factor
  {
    hide Carried, Accrued, GoldLoss;
    IdleCarried(RefinedPosition(p), factor, ONE, ONE - 1);
    IdleCarried(LifetimePosition(p), factor, ONE, ONE - 1);
    var loss := GoldLoss(gold - GoldPosition(p).snapshot);
    IdleCarried(GoldPosition(p), gold, GOLD_UNIT, loss);
    IdleCarried(GoldLifetimePosition(p), gold, GOLD_UNIT, loss);
    if p.miner.rewardsFactor < factor {
      AccruedFloor(factor - p.miner.rewardsFactor, p.miner.rewardsGodl);
      var share := Accrued(factor - p.miner.rewardsFactor, p.miner.rewardsGodl).value;
      QuotientBound((factor - p.miner.rewardsFactor) * p.miner.rewardsGodl, ONE);
      NoWeightNoShare(share, p.miner.rewardsGodl, factor - p.miner.rewardsFactor);
      SettledCarried(RefinedPosition(p), factor, ONE, share, ONE - 1);
      SettledCarried(LifetimePosition(p), factor, ONE, share, ONE - 1);
    }
  }

  lemma NoWeightNoGold(share: nat, weight: nat, delta: nat)
    requires share * GOLD_UNIT <= delta * weight
    ensures weight == 0 ==> share == 0
  {
  }

  lemma SyncFair(p: Player, factor: Fixed, gold: Fixed)
    requires Sane(p, factor, gold) && SyncGold(p, gold).Ok?
    ensures var q := SyncGold(p, gold).value;
      Fair(p, q, factor, gold, 0, 0, 0) && q.miner == p.miner && Synced(q, gold)
      && (q.extended.None? ==> p.extended.None? && p.miner.rewardsGodl == 0)
  {
    hide Carried, GoldShare, GoldLoss;
    IdleCarried(RefinedPosition(p), factor, ONE, ONE - 1);
    IdleCarried(LifetimePosition(p), factor, ONE, ONE - 1);
    var loss := GoldLoss(gold - GoldPosition(p).snapshot);
    IdleCarried(GoldPosition(p), gold, GOLD_UNIT, loss);
    IdleCarried(GoldLifetimePosition(p), gold, GOLD_UNIT, loss);
    if p.extended.Some? {
      var e := p.extended.value;
      if e.xautRewardsFactor < gold {
        var share := GoldShare(gold - e.xautRewardsFactor, p.miner.rewardsGodl).value;
        GoldShareBound(gold - e.xautRewardsFactor, p.miner.rewardsGodl);
        GoldShareLoss(gold - e.xautRewardsFactor, p.miner.rewardsGodl);
        NoWeightNoGold(share, p.miner.rewardsGodl, gold - e.xautRewardsFactor);
        SettledCarried(GoldPosition(p), gold, GOLD_UNIT, share, loss);
        SettledCarried(GoldLifetimePosition(p), gold, GOLD_UNIT, share, loss);
      }
    }
  }

  lemma FairChain(p: Player, q: Player, r: Player, factor: Fixed, gold: Fixed, a: nat, b: nat, c: nat, d: nat, e: nat, f: nat)
    requires Fair(p, q, factor, gold, a, b, c) && Fair(q, r, factor, gold, d, e, f)
    requires GoldPosition(p).snapshot <= gold
    ensures Fair(p, r, factor, gold, a + d, b + e, c + f)
  {
    hide Carried, GoldLoss;
    var loss := GoldLoss(gold - GoldPosition(p).snapshot);
    var later := GoldLoss(gold - GoldPosition(q).snapshot);
    CarriedChain(RefinedPosition(p), RefinedPosition(q), RefinedPosition(r), factor, ONE, b, e, ONE - 1, ONE - 1);
    CarriedChain(LifetimePosition(p), LifetimePosition(q), LifetimePosition(r), factor, ONE, 0 - a, 0 - d, ONE - 1, ONE - 1);
    CarriedChain(GoldPosition(p), GoldPosition(q), GoldPosition(r), gold, GOLD_UNIT, c, f, loss, later);
    CarriedChain(GoldLifetimePosition(p), GoldLifetimePosition(q), GoldLifetimePosition(r), gold, GOLD_UNIT, 0, 0, loss, later);
  }

  lemma OpenedFair(p: Player, factor: Fixed, gold: Fixed)
    requires Sane(p, factor, gold)
    ensures Fair(p, Opened(p, gold), factor, gold, 0, 0, 0) && Opened(p, gold).miner == p.miner && Opened(p, gold).extended.Some?
  {
  }

  /** A settled and synced player may mine. */
  lemma MinedFair(p: Player, treasury: Treasury, gold: Fixed, amount: uint64, error: Error)
    requires Sane(p, treasury.minerRewardsFactor, gold) && p.miner.rewardsFactor == treasury.minerRewardsFactor
    requires Synced(p, gold) && AddMined(p, treasury, amount, error).Ok?
    ensures var c := AddMined(p, treasury, amount, error).value;
      && Fair(p, c.player, treasury.minerRewardsFactor, gold, amount, 0, 0)
      && c.player.miner.rewardsGodl == p.miner.rewardsGodl + amount
      && c.treasury == treasury.(totalUnclaimed := treasury.totalUnclaimed + amount)
  {
  }

  lemma RefineAndSyncFair(p: Player, treasury: Treasury, gold: Fixed)
    requires Sane(p, treasury.minerRewardsFactor, gold) && RefineAndSync(p, treasury, gold).Ok?
    ensures var q := RefineAndSync(p, treasury, gold).value;
      && Fair(p, q, treasury.minerRewardsFactor, gold, 0, 0, 0) && Synced(q, gold)
      && q.miner.rewardsFactor == treasury.minerRewardsFactor && q.miner.rewardsGodl == p.miner.rewardsGodl
  {
    var factor := treasury.minerRewardsFactor;
    var r := p.(miner := Refine(p.miner, factor).value);
    RefineFair(p, factor, gold);
    SyncFair(r, factor, gold);
    FairChain(p, r, SyncGold(r, gold).value, factor, gold, 0, 0, 0, 0, 0, 0);
  }

  ghost predicate Mined(p: Player, treasury: Treasury, gold: Fixed, c: Credited) {
    && Fair(p, c.player, treasury.minerRewardsFactor, gold, c.amount, 0, 0)
    && c.player.miner.rewardsGodl == p.miner.rewardsGodl + c.amount
    && c.treasury == treasury.(totalUnclaimed := c.treasury.totalUnclaimed)
    && c.treasury.totalUnclaimed == treasury.totalUnclaimed + c.amount
  }

  lemma SettledMineFair(p: Player, treasury: Treasury, gold: Fixed, amount: uint64, error: Error)
    requires Sane(p, treasury.minerRewardsFactor, gold) && RefineAndSync(p, treasury, gold).Ok?
    requires AddMined(RefineAndSync(p, treasury, gold).value, treasury, amount, error).Ok?
    ensures Mined(p, treasury, gold, AddMined(RefineAndSync(p, treasury, gold).value, treasury, amount, error).value)
  {
    var q := RefineAndSync(p, treasury, gold).value;
    RefineAndSyncFair(p, treasury, gold);
    MinedFair(q, treasury, gold, amount, error);
    FairChain(p, q, AddMined(q, treasury, amount, error).value.player, treasury.minerRewardsFactor, gold, 0, 0, 0, amount, 0, 0);
  }

  lemma CheckpointMined(p: Player, treasury: Treasury, gold: Fixed, reward: uint64)
    requires Sane(p, treasury.minerRewardsFactor, gold) && CreditCheckpoint(p, treasury, gold, reward).Ok?
    ensures Mined(p, treasury, gold, CreditCheckpoint(p, treasury, gold, reward).value)
  {
    SettledMineFair(p, treasury, gold, reward, Panic);
  }

  /** The legacy checkpoint ignores gold, which is harmless exactly because it may only run
      while every gold account is already synced. */
  lemma LegacyCheckpointMined(p: Player, treasury: Treasury, gold: Fixed, reward: uint64)
    requires Sane(p, treasury.minerRewardsFactor, gold) && Synced(p, gold)
    requires CreditLegacyCheckpoint(p, treasury, reward).Ok?
    ensures Mined(p, treasury, gold, CreditLegacyCheckpoint(p, treasury, reward).value)
  {
    var factor := treasury.minerRewardsFactor;
    var q := p.(miner := Refine(p.miner, factor).value);
    RefineFair(p, factor, gold);
    MinedFair(q, treasury, gold, reward, Panic);
    FairChain(p, q, AddMined(q, treasury, reward, Panic).value.player, factor, gold, 0, 0, 0, reward, 0, 0);
  }

  lemma OpenedMined(p: Player, treasury: Treasury, gold: Fixed, amount: uint64, error: Error)
    requires Sane(p, treasury.minerRewardsFactor, gold) && RefineAndSync(Opened(p, gold), treasury, gold).Ok?
    requires AddMined(RefineAndSync(Opened(p, gold), treasury, gold).value, treasury, amount, error).Ok?
    ensures Mined(p, treasury, gold, AddMined(RefineAndSync(Opened(p, gold), treasury, gold).value, treasury, amount, error).value)
  {
    OpenedFair(p, treasury.minerRewardsFactor, gold);
    SettledMineFair(Opened(p, gold), treasury, gold, amount, error);
    var c := AddMined(RefineAndSync(Opened(p, gold), treasury, gold).value, treasury, amount, error).value;
    FairChain(p, Opened(p, gold), c.player, treasury.minerRewardsFactor, gold, 0, 0, 0, amount, 0, 0);
  }

  lemma StoredKeeps(m: Mine, owner: nat, c: Credited)
    requires Invariant(m) && Mined(PlayerOrNew(m, owner), m.treasury, m.vault.xautRewardsFactor, c)
    ensures Invariant(StorePlayer(m, owner, c))
  {
    PlayedKeeps(m, StorePlayer(m, owner, c), owner, c.amount, 0, 0, 0);
  }

  lemma JoinKeeps(m: Mine, owner: nat, extended: bool)
    requires Invariant(m)
    ensures Invariant(Join(m, owner, extended))
  {
    hide Solvent, TotalWeight, Owed;
    OpenedFair(PlayerOrNew(m, owner), m.treasury.minerRewardsFactor, m.vault.xautRewardsFactor);
    PlayedKeeps(m, Join(m, owner, extended), owner, 0, 0, 0, 0);
  }

  /** A claim before its fee: settled, synced, and both balances taken. */
  ghost function Emptied(p: Player, treasury: Treasury, gold: Fixed, now: int64): Result<Player> {
    var present := if p.miner.rewardsGodl > 0 then Opened(p, gold) else p;
    var synced :- SyncGold(present, gold);
    var settled :- Refine(synced.miner, treasury.minerRewardsFactor);
    Ok(synced.(miner := settled.(refinedGodl := 0, rewardsGodl := 0, lastClaimGodlAt := now)))
  }

  ghost function Unrefined(p: Player): nat {
    p.miner.rewardsGodl
  }

  /** Refined GODL after settling, or what is already settled if that should fail. */
  ghost function RefinedPayable(p: Player, factor: Fixed): nat {
    if Refine(p.miner, factor).Ok? then Refine(p.miner, factor).value.refinedGodl else p.miner.refinedGodl
  }

  lemma EmptiedFair(p: Player, treasury: Treasury, gold: Fixed, now: int64)
    requires Sane(p, treasury.minerRewardsFactor, gold) && Emptied(p, treasury, gold, now).Ok?
    ensures var q := Emptied(p, treasury, gold, now).value;
      && Fair(p, q, treasury.minerRewardsFactor, gold, 0, RefinedPayable(p, treasury.minerRewardsFactor), 0)
      && q.miner.rewardsGodl == 0
  {
    var factor := treasury.minerRewardsFactor;
    var present := if p.miner.rewardsGodl > 0 then Opened(p, gold) else p;
    OpenedFair(p, factor, gold);
    var synced := SyncGold(present, gold).value;
    SyncFair(present, factor, gold);
    FairChain(p, present, synced, factor, gold, 0, 0, 0, 0, 0, 0);
    var settled := synced.(miner := Refine(synced.miner, factor).value);
    RefineFair(synced, factor, gold);
    FairChain(p, synced, settled, factor, gold, 0, 0, 0, 0, 0, 0);
    TakenFair(settled, factor, gold, now);
    FairChain(p, settled, Emptied(p, treasury, gold, now).value, factor, gold, 0, 0, 0, 0, settled.miner.refinedGodl, 0);
  }

  /** Taking both balances of a settled and synced player leaves nothing owed behind. */
  lemma TakenFair(p: Player, factor: Fixed, gold: Fixed, now: int64)
    requires Sane(p, factor, gold) && p.miner.rewardsFactor == factor
    requires Synced(p, gold) && (p.extended.None? ==> p.miner.rewardsGodl == 0)
    ensures Fair(p, p.(miner := p.miner.(refinedGodl := 0, rewardsGodl := 0, lastClaimGodlAt := now)), factor, gold, 0,
        p.miner.refinedGodl, 0)
  {
  }

  /** The ledger between the payout of a claim and its fee. */
  ghost function PaidOut(m: Mine, owner: nat, q: Player, rewards: nat, refined: nat): Mine
    requires rewards <= m.treasury.totalUnclaimed && refined <= m.treasury.totalRefined
  {
    m.(players := m.players[owner := q], paid := m.paid + rewards + refined,
       treasury := m.treasury.(totalUnclaimed := m.treasury.totalUnclaimed - rewards, totalRefined := m.treasury.totalRefined - refined))
  }

  /** A fee moves from one player's lifetime total to everybody's refined balance. */
  ghost predicate Charged(m: Mine, n: Mine, owner: nat, fee: nat) {
    && owner in m.players && owner in n.players && n.players == m.players[owner := n.players[owner]]
    && n.players[owner] == m.players[owner].(miner := n.players[owner].miner)
    && n.players[owner].miner == m.players[owner].miner.(lifetimeRewardsGodl := n.players[owner].miner.lifetimeRewardsGodl)
    && n.players[owner].miner.lifetimeRewardsGodl == m.players[owner].miner.lifetimeRewardsGodl - fee
    && n.treasury == m.treasury.(minerRewardsFactor := n.treasury.minerRewardsFactor, totalRefined := n.treasury.totalRefined)
    && n.treasury.totalRefined == m.treasury.totalRefined + fee
    && FloorShare(n.treasury.minerRewardsFactor - m.treasury.minerRewardsFactor, m.treasury.totalUnclaimed, fee, ONE)
    && n.paid == m.paid - fee
    && n.vault == m.vault && n.xautTokens == m.xautTokens && n.now == m.now && n.credited == m.credited
  }

  lemma LifetimesWeigh(players: map<nat, Player>)
    ensures TotalWeight(Lifetimes(players)) == TotalWeight(Refined(players))
  {
    assert WeightMap(Lifetimes(players)) == WeightMap(Refined(players));
  }

  /** Only players with an extended account carry weight in gold. */
  lemma GoldWeighs(players: map<nat, Player>)
    ensures 0 <= TotalWeight(Gold(players)) <= TotalWeight(Refined(players))
    ensures 0 <= TotalWeight(GoldLifetimes(players)) <= TotalWeight(Refined(players))
  {
    TotalWeightNonNegative(Gold(players));
    TotalWeightNonNegative(GoldLifetimes(players));
    SumMonotone(WeightMap(Gold(players)), WeightMap(Refined(players)));
    SumMonotone(WeightMap(GoldLifetimes(players)), WeightMap(Refined(players)));
  }

  lemma ChargedLifetimes(book: map<nat, Position>, owner: nat, q: Position, factor: int, later: int, credited: nat, total: nat, fee: nat)
    requires Solvent(book, factor, ONE, 0, credited)
    requires q.snapshot <= factor && Owed(q, factor, ONE) + fee * ONE <= OwedAt(book, owner, factor, ONE)
    requires TotalWeight(book[owner := q]) == total && FloorShare(later - factor, total, fee, ONE)
    ensures Solvent(book[owner := q], later, ONE, 0, credited)
  {
    hide Solvent, Owed, TotalWeight, TotalOwed, FloorShare;
    SolventPut(book, factor, ONE, 0, credited, owner, q, fee);
    SolventDistribute(book[owner := q], factor, later, ONE, fee, credited, fee, total);
    SolventShift(book[owner := q], later, ONE, fee, credited + fee, 0 - fee);
  }

  lemma ChargedOwes(p: Player, q: Player, factor: Fixed, fee: nat)
    requires q == p.(miner := p.miner.(lifetimeRewardsGodl := q.miner.lifetimeRewardsGodl))
    requires q.miner.lifetimeRewardsGodl == p.miner.lifetimeRewardsGodl - fee
    ensures Owed(LifetimePosition(q), factor, ONE) + fee * ONE == Owed(LifetimePosition(p), factor, ONE)
  {
  }

  lemma ChargedBooks(players: map<nat, Player>, owner: nat, q: Player)
    requires owner in players && q == players[owner].(miner := q.miner)
    requires q.miner == players[owner].miner.(lifetimeRewardsGodl := q.miner.lifetimeRewardsGodl)
    ensures Refined(players[owner := q]) == Refined(players)
    ensures Gold(players[owner := q]) == Gold(players) && GoldLifetimes(players[owner := q]) == GoldLifetimes(players)
    ensures Lifetimes(players[owner := q]) == Lifetimes(players)[owner := LifetimePosition(q)]
  {
  }

  lemma ChargedSane(m: Mine, n: Mine, owner: nat, fee: nat)
    requires AllSane(m.players, m.treasury.minerRewardsFactor, m.vault.xautRewardsFactor) && GoldIdle(m)
    requires Charged(m, n, owner, fee) && m.players[owner].miner.rewardsGodl == 0 == m.players[owner].miner.refinedGodl
    ensures AllSane(n.players, n.treasury.minerRewardsFactor, n.vault.xautRewardsFactor) && GoldIdle(n)
    ensures n.players[owner].miner.rewardsFactor <= m.treasury.minerRewardsFactor
  {
  }

  /** Claim fees keep every law: the fee leaves one lifetime total and enters the others. */
  lemma ChargedKeeps(m: Mine, n: Mine, owner: nat, fee: nat)
    requires Invariant(m) && Charged(m, n, owner, fee) && m.players[owner].miner.rewardsGodl == 0 == m.players[owner].miner.refinedGodl
    ensures Invariant(n)
  {
    hide AllSane, GoldIdle, Solvent, Owed, TotalWeight, TotalOwed, FloorShare;
    var factor, later := m.treasury.minerRewardsFactor, n.treasury.minerRewardsFactor;
    var q := n.players[owner];
    ChargedSane(m, n, owner, fee);
    ChargedBooks(m.players, owner, q);
    LifetimesWeigh(n.players);
    ChargedOwes(m.players[owner], q, factor, fee);
    TotalWeightNonNegative(Refined(n.players));
    SolventDistribute(Refined(n.players), factor, later, ONE, 0, m.treasury.totalRefined, fee, m.treasury.totalUnclaimed);
    ChargedLifetimes(Lifetimes(m.players), owner, LifetimePosition(q), factor, later, m.credited, m.treasury.totalUnclaimed, fee);
  }

  lemma FeeShare(fee: uint64, unclaimed: uint64)
    requires unclaimed > 0
    ensures FloorShare(FromFraction(fee, unclaimed).value, unclaimed, fee, ONE)
  {
    QuotientBound(fee * ONE, unclaimed);
  }

  /** A claim is a full payout followed by a tenth of the unrefined part taken back as a fee. */
  lemma ClaimIsPayoutAndFee(p: Player, treasury: Treasury, gold: Fixed, now: int64, referred: bool)
    requires ClaimGodl(p, treasury, gold, now, referred).Ok?
    ensures var c := ClaimGodl(p, treasury, gold, now, referred).value;
      var q := Emptied(p, treasury, gold, now);
      var refined := RefinedPayable(p, treasury.minerRewardsFactor);
      && q.Ok? && q.value.miner.rewardsGodl == 0 == q.value.miner.refinedGodl && Unrefined(p) <= treasury.totalUnclaimed
          && refined <= treasury.totalRefined
      && c.treasury == treasury.(totalUnclaimed := treasury.totalUnclaimed - Unrefined(p),
                                 totalRefined := c.treasury.totalRefined, minerRewardsFactor := c.treasury.minerRewardsFactor)
      && c.player == q.value.(miner := c.player.miner)
      && c.player.miner == q.value.miner.(lifetimeRewardsGodl := c.player.miner.lifetimeRewardsGodl)
      && var fee := if c.treasury.totalUnclaimed == 0 then 0 else Unrefined(p) / 10;
      && c.amount == Unrefined(p) + refined - fee
      && c.treasury.totalRefined == treasury.totalRefined - refined + fee
      && c.player.miner.lifetimeRewardsGodl == q.value.miner.lifetimeRewardsGodl - fee
      && FloorShare(c.treasury.minerRewardsFactor - treasury.minerRewardsFactor, c.treasury.totalUnclaimed, fee, ONE)
  {
    hide Accrue, Accrued, FromFraction;
    var unclaimed := treasury.totalUnclaimed - Unrefined(p);
    if unclaimed > 0 {
      FeeShare(Unrefined(p) / 10, unclaimed);
    }
  }

  lemma ClaimSplits(m: Mine, owner: nat, referred: bool)
    requires PayGodl(m, owner, referred).Ok?
    ensures owner in m.players
    ensures var p := m.players[owner];
      var q := Emptied(p, m.treasury, m.vault.xautRewardsFactor, m.now);
      var refined := RefinedPayable(p, m.treasury.minerRewardsFactor);
      && q.Ok? && q.value.miner.rewardsGodl == 0 == q.value.miner.refinedGodl
      && Unrefined(p) <= m.treasury.totalUnclaimed && refined <= m.treasury.totalRefined
      && exists fee: nat :: Charged(PaidOut(m, owner, q.value, Unrefined(p), refined), PayGodl(m, owner, referred).value, owner, fee)
  {
    hide ClaimGodl, Emptied, RefinedPayable;
    var p := m.players[owner];
    ClaimIsPayoutAndFee(p, m.treasury, m.vault.xautRewardsFactor, m.now, referred);
    var q := Emptied(p, m.treasury, m.vault.xautRewardsFactor, m.now);
    var n := PayGodl(m, owner, referred).value;
    var paidOut := PaidOut(m, owner, q.value, Unrefined(p), RefinedPayable(p, m.treasury.minerRewardsFactor));
    var fee := if n.treasury.totalUnclaimed == 0 then 0 else Unrefined(p) / 10;
    assert n.players == paidOut.players[owner := n.players[owner]];
    assert Charged(paidOut, n, owner, fee);
  }

  lemma PaidOutKeeps(m: Mine, owner: nat)
    requires Invariant(m) && owner in m.players
    requires Emptied(m.players[owner], m.treasury, m.vault.xautRewardsFactor, m.now).Ok?
    requires Unrefined(m.players[owner]) <= m.treasury.totalUnclaimed
    requires RefinedPayable(m.players[owner], m.treasury.minerRewardsFactor) <= m.treasury.totalRefined
    ensures var p := m.players[owner];
      var q := Emptied(p, m.treasury, m.vault.xautRewardsFactor, m.now).value;
      Invariant(PaidOut(m, owner, q, Unrefined(p), RefinedPayable(p, m.treasury.minerRewardsFactor)))
  {
    hide Solvent, TotalWeight, Fair, Emptied, RefinedPayable;
    var p := m.players[owner];
    var refined := RefinedPayable(p, m.treasury.minerRewardsFactor);
    var q := Emptied(p, m.treasury, m.vault.xautRewardsFactor, m.now).value;
    EmptiedFair(p, m.treasury, m.vault.xautRewardsFactor, m.now);
    PlayedKeeps(m, PaidOut(m, owner, q, Unrefined(p), refined), owner, 0, Unrefined(p), refined, 0);
  }

  lemma ClaimKeeps(m: Mine, owner: nat, referred: bool)
    requires Invariant(m) && PayGodl(m, owner, referred).Ok?
    ensures Invariant(PayGodl(m, owner, referred).value)
  {
    hide Invariant, PayGodl, Charged, RefinedPayable;
    ClaimSplits(m, owner, referred);
    PaidOutKeeps(m, owner);
    var p := m.players[owner];
    var q := Emptied(p, m.treasury, m.vault.xautRewardsFactor, m.now).value;
    var paidOut := PaidOut(m, owner, q, Unrefined(p), RefinedPayable(p, m.treasury.minerRewardsFactor));
    var n := PayGodl(m, owner, referred).value;
    var fee: nat :| Charged(paidOut, n, owner, fee);
    ChargedKeeps(paidOut, n, owner, fee);
  }

  lemma ClaimGoldFair(p: Player, vault: Vault, factor: Fixed)
    requires Sane(p, factor, vault.xautRewardsFactor) && ClaimGold(p, vault).Ok?
    ensures var c := ClaimGold(p, vault).value;
      Fair(p, c.player, factor, vault.xautRewardsFactor, 0, 0, c.amount) && c.player.miner == p.miner
  {
    var gold := vault.xautRewardsFactor;
    var o := Opened(p, gold);
    OpenedFair(p, factor, gold);
    SyncFair(o, factor, gold);
    var synced := SyncGold(o, gold).value;
    FairChain(p, o, synced, factor, gold, 0, 0, 0, 0, 0, 0);
    var c := ClaimGold(p, vault).value;
    GoldTakenFair(synced, factor, gold);
    FairChain(p, synced, c.player, factor, gold, 0, 0, 0, 0, 0, c.amount);
  }

  lemma GoldTakenFair(p: Player, factor: Fixed, gold: Fixed)
    requires Sane(p, factor, gold) && Synced(p, gold) && p.extended.Some?
    ensures Fair(p, p.(extended := Some(p.extended.value.(xautRewards := 0))), factor, gold, 0, 0, p.extended.value.xautRewards)
  {
  }

  lemma ClaimGoldKeeps(m: Mine, owner: nat)
    requires Invariant(m) && PayGold(m, owner).Ok?
    ensures Invariant(PayGold(m, owner).value)
  {
    hide Solvent, TotalWeight, Fair, Accrue;
    ClaimGoldFair(m.players[owner], m.vault, m.treasury.minerRewardsFactor);
    PlayedKeeps(m, PayGold(m, owner).value, owner, 0, 0, 0, ClaimGold(m.players[owner], m.vault).value.amount);
  }

  lemma GoldShared(players: map<nat, Player>, v: Vault, next: Vault, total: nat, amount: nat)
    requires TotalWeight(Refined(players)) == total
    requires FloorShare(next.xautRewardsFactor - v.xautRewardsFactor, total, amount, GOLD_UNIT)
    requires Solvent(Gold(players), v.xautRewardsFactor, GOLD_UNIT, v.totalXautClaimed, v.totalXautDistributed)
    requires Solvent(GoldLifetimes(players), v.xautRewardsFactor, GOLD_UNIT, 0, v.totalXautDistributed)
    ensures Solvent(Gold(players), next.xautRewardsFactor, GOLD_UNIT, v.totalXautClaimed, v.totalXautDistributed + amount)
    ensures Solvent(GoldLifetimes(players), next.xautRewardsFactor, GOLD_UNIT, 0, v.totalXautDistributed + amount)
  {
    hide Solvent, Owed, TotalWeight, TotalOwed, FloorShare;
    GoldWeighs(players);
    SolventDistribute(Gold(players), v.xautRewardsFactor, next.xautRewardsFactor, GOLD_UNIT,
                      v.totalXautClaimed, v.totalXautDistributed, amount, total);
    SolventDistribute(GoldLifetimes(players), v.xautRewardsFactor, next.xautRewardsFactor, GOLD_UNIT,
                      0, v.totalXautDistributed, amount, total);
  }

  lemma SaneLater(players: map<nat, Player>, factor: Fixed, gold: Fixed, later: Fixed)
    requires AllSane(players, factor, gold) && gold <= later
    ensures AllSane(players, factor, later)
  {
  }

  /** Gold may only be distributed from the expiry of the legacy instructions on. */
  lemma ReceiveGoldKeeps(m: Mine, xaut: uint64)
    requires Invariant(m) && ReceiveGold(m, xaut).Ok?
    ensures Invariant(ReceiveGold(m, xaut).value)
  {
    hide Solvent, TotalWeight, FloorShare, GoldState.Distribute, AllSane;
    var d := GoldState.Distribute(m.vault, xaut, m.treasury.totalUnclaimed).value;
    DistributeCost(m.vault, xaut, m.treasury.totalUnclaimed);
    GoldRises(m.vault, xaut, m.treasury.totalUnclaimed);
    GoldShared(m.players, m.vault, d.vault, m.treasury.totalUnclaimed, d.credited);
    SaneLater(m.players, m.treasury.minerRewardsFactor, m.vault.xautRewardsFactor, d.vault.xautRewardsFactor);
  }

  lemma GoldRises(v: Vault, xaut: uint64, totalUnclaimed: uint64)
    requires GoldState.Distribute(v, xaut, totalUnclaimed).Ok?
    ensures v.xautRewardsFactor <= GoldState.Distribute(v, xaut, totalUnclaimed).value.vault.xautRewardsFactor
  {
  }

  lemma LegacyCheckpointKeeps(m: Mine, owner: nat, reward: uint64)
    requires Invariant(m) && CheckpointLegacy(m, owner, reward).Ok?
    ensures Invariant(CheckpointLegacy(m, owner, reward).value)
  {
    hide Mined, Solvent;
    LegacyCheckpointMined(m.players[owner], m.treasury, m.vault.xautRewardsFactor, reward);
    StoredKeeps(m, owner, CreditLegacyCheckpoint(m.players[owner], m.treasury, reward).value);
  }

  lemma CheckpointKeeps(m: Mine, owner: nat, reward: uint64)
    requires Invariant(m) && CheckpointAware(m, owner, reward).Ok?
    ensures Invariant(CheckpointAware(m, owner, reward).value)
  {
    hide Mined, Solvent;
    CheckpointMined(m.players[owner], m.treasury, m.vault.xautRewardsFactor, reward);
    StoredKeeps(m, owner, CreditCheckpoint(m.players[owner], m.treasury, m.vault.xautRewardsFactor, reward).value);
  }

  lemma InjectKeeps(m: Mine, owner: nat, amount: uint64)
    requires Invariant(m) && InjectInto(m, owner, amount).Ok?
    ensures Invariant(InjectInto(m, owner, amount).value)
  {
    hide Mined, Solvent;
    OpenedMined(m.players[owner], m.treasury, m.vault.xautRewardsFactor, amount, InvalidInstructionData);
    StoredKeeps(m, owner, Inject(m.players[owner], m.treasury, m.vault.xautRewardsFactor, amount).value);
  }

  lemma IdleMined(p: Player, treasury: Treasury, gold: Fixed)
    requires Sane(p, treasury.minerRewardsFactor, gold)
    ensures Mined(p, treasury, gold, Credited(p, treasury, 0))
  {
  }

  lemma OtcKeeps(m: Mine, owner: nat, bonus: uint64)
    requires Invariant(m) && TradeOtc(m, owner, bonus).Ok?
    ensures Invariant(TradeOtc(m, owner, bonus).value)
  {
    hide Mined, Solvent;
    var p := PlayerOrNew(m, owner);
    if bonus == 0 {
      IdleMined(p, m.treasury, m.vault.xautRewardsFactor);
    } else {
      OpenedMined(p, m.treasury, m.vault.xautRewardsFactor, bonus, ArithmeticOverflow);
    }
    StoredKeeps(m, owner, OtcBonus(p, m.treasury, m.vault.xautRewardsFactor, bonus).value);
  }

  /** Every instruction keeps every law of the refining and the gold ledger. */
  lemma StepKeeps(m: Mine, i: Instruction)
    requires Invariant(m) && Step(m, i).Ok?
    ensures Invariant(Step(m, i).value)
  {
    hide Solvent, Join, CheckpointLegacy, CheckpointAware, InjectInto, TradeOtc, PayGodl, PayGold, ReceiveGold;
    match i
    case Automate(owner) => JoinKeeps(m, owner, false);
    case Deploy(owner) => JoinKeeps(m, owner, false);
    case DeployWithMinerExtended(owner) => JoinKeeps(m, owner, true);
    case CreateMinerExtended(owner) => JoinKeeps(m, owner, true);
    case Checkpoint(owner, reward) => LegacyCheckpointKeeps(m, owner, reward);
    case CheckpointWithMinerExtended(owner, reward) => CheckpointKeeps(m, owner, reward);
    case InjectUnrefinedRewards(owner, amount) => InjectKeeps(m, owner, amount);
    case ExecuteOtcTrade(owner, bonus) => OtcKeeps(m, owner, bonus);
    case ClaimGodlRewards(owner, referred) => ClaimKeeps(m, owner, referred);
    case ClaimGoldRewards(owner) => ClaimGoldKeeps(m, owner);
    case DepositGold(amount) => ReceiveGoldKeeps(m, amount);
    case BuyGold(xaut, _) => ReceiveGoldKeeps(m, xaut);
    case DonateXaut(_) =>
    case Wait(_) =>
  }

  lemma RunKeepsInvariant(m: Mine, history: seq<Instruction>)
    requires Invariant(m)
    ensures Invariant(Runs.Run(Step, m, history))
  {
    hide Step, Invariant;
    forall s, i | Invariant(s) && Step(s, i).Ok? ensures Invariant(Step(s, i).value) {
      StepKeeps(s, i);
    }
    Runs.RunKeeps(Step, Invariant, m, history);
  }
}
