/** What the refining and gold laws mean for miners, after any history of instructions. */
module MiningTheorems {
  import opened Accumulator
  import opened Basics
  import opened FixedPoint
  import opened GoldState
  import opened MapSums
  import opened MinerHandlers
  import opened MinerState
  import opened MiningLedger
  import opened TreasuryState
  import Runs

  const EMPTY_TREASURY := Treasury(0, 0, 0, 0, 0, 0, 0)
  const EMPTY_VAULT := Vault(0, 0, 0, 0, 0)

  lemma EmptyMineIsLawful(now: int64)
    ensures Invariant(Mine(map[], EMPTY_TREASURY, EMPTY_VAULT, 0, now, 0, 0))
  {
    var players: map<nat, Player> := map[];
    assert OwedMap(Refined(players), 0, ONE) == map[] && WeightMap(Refined(players)) == map[];
    assert OwedMap(Lifetimes(players), 0, ONE) == map[];
    assert OwedMap(Gold(players), 0, GOLD_UNIT) == map[] && OwedMap(GoldLifetimes(players), 0, GOLD_UNIT) == map[];
  }

  ghost function UnrefinedOf(players: map<nat, Player>): map<nat, int> {
    map a | a in players :: players[a].miner.rewardsGodl
  }

  ghost function RefinedOf(players: map<nat, Player>, factor: Fixed): map<nat, int> {
    map a | a in players :: RefinedPayable(players[a], factor)
  }

  ghost function GoldPayable(p: Player, gold: Fixed): nat {
    match p.extended
    case None => 0
    case Some(e) => (var accrued := Accrue(e, gold, p.miner.rewardsGodl); if accrued.Ok? then accrued.value.xautRewards else e.xautRewards)
  }

  ghost function GoldOf(players: map<nat, Player>, gold: Fixed): map<nat, int> {
    map a | a in players :: GoldPayable(players[a], gold)
  }

  lemma UnrefinedIsWeight(players: map<nat, Player>)
    ensures WeightMap(Refined(players)) == UnrefinedOf(players)
  {
  }

  lemma RefinedWithinOwed(p: Player, factor: Fixed)
    requires p.miner.rewardsFactor <= factor
    ensures RefinedPayable(p, factor) * ONE <= Owed(RefinedPosition(p), factor, ONE)
  {
    OwedNonNegative(Position(0, p.miner.rewardsFactor, p.miner.rewardsGodl), factor, ONE);
    AccruedFloor(factor - p.miner.rewardsFactor, p.miner.rewardsGodl);
  }

  lemma GoldWithinOwed(p: Player, gold: Fixed)
    requires p.extended.Some? ==> p.extended.value.xautRewardsFactor <= gold
    ensures GoldPayable(p, gold) * GOLD_UNIT <= Owed(GoldPosition(p), gold, GOLD_UNIT)
  {
    if p.extended.Some? {
      var e := p.extended.value;
      OwedNonNegative(Position(0, e.xautRewardsFactor, p.miner.rewardsGodl), gold, GOLD_UNIT);
      if GoldShare(gold - e.xautRewardsFactor, p.miner.rewardsGodl).Ok? {
        GoldShareBound(gold - e.xautRewardsFactor, p.miner.rewardsGodl);
      }
      hide GoldShare;
    }
  }

  /** GODL is conserved to the unit: all that was ever mined or injected has been paid out, waits
      unrefined with its miner, or lies in the refined pool, and that pool covers everything that
      settling every miner would pay from it. */
  lemma GodlIsConserved(m: Mine, history: seq<Instruction>)
    requires Invariant(m)
    ensures var n := Runs.Run(Step, m, history);
      && n.treasury.totalUnclaimed == Sum(UnrefinedOf(n.players))
      && n.paid + Sum(UnrefinedOf(n.players)) + n.treasury.totalRefined == n.credited
      && Sum(RefinedOf(n.players, n.treasury.minerRewardsFactor)) <= n.treasury.totalRefined
  {
    hide Step, Runs.Run, Solvent, AllSane, GoldIdle;
    RunKeepsInvariant(m, history);
    RefinedCovered(Runs.Run(Step, m, history));
    UnrefinedIsWeight(Runs.Run(Step, m, history).players);
  }

  lemma RefinedCovered(n: Mine)
    requires Invariant(n)
    ensures Sum(RefinedOf(n.players, n.treasury.minerRewardsFactor)) <= n.treasury.totalRefined
  {
    hide Solvent, TotalOwed, TotalWeight, RefinedPayable;
    var factor := n.treasury.minerRewardsFactor;
    forall a | a in n.players ensures RefinedOf(n.players, factor)[a] * ONE <= Owed(Refined(n.players)[a], factor, ONE) {
      RefinedWithinOwed(n.players[a], factor);
    }
    SettleAllCovered(Refined(n.players), factor, ONE, 0, n.treasury.totalRefined, RefinedOf(n.players, factor));
  }

  /** Gold is conserved: what was claimed plus what settling every extended account would make
      claimable is at most what was distributed, and the vault's tokens cover all of that and the
      pending gold besides. Late joiners are included: their share is zero until they join. */
  lemma GoldIsConserved(m: Mine, history: seq<Instruction>)
    requires Invariant(m)
    ensures var n := Runs.Run(Step, m, history);
      && n.vault.totalXautClaimed + Sum(GoldOf(n.players, n.vault.xautRewardsFactor)) <= n.vault.totalXautDistributed
      && n.vault.pendingXaut + n.vault.totalXautDistributed - n.vault.totalXautClaimed <= n.xautTokens
      && n.vault.pendingXaut + Sum(GoldOf(n.players, n.vault.xautRewardsFactor)) <= n.xautTokens
  {
    hide Step, Runs.Run, Solvent, AllSane, GoldIdle;
    RunKeepsInvariant(m, history);
    GoldCovered(Runs.Run(Step, m, history));
  }

  lemma GoldCovered(n: Mine)
    requires Invariant(n)
    ensures n.vault.totalXautClaimed + Sum(GoldOf(n.players, n.vault.xautRewardsFactor)) <= n.vault.totalXautDistributed
  {
    hide Solvent, TotalOwed, TotalWeight, GoldPayable;
    var gold := n.vault.xautRewardsFactor;
    forall a | a in n.players ensures GoldOf(n.players, gold)[a] * GOLD_UNIT <= Owed(Gold(n.players)[a], gold, GOLD_UNIT) {
      GoldWithinOwed(n.players[a], gold);
    }
    SettleAllCovered(Gold(n.players), gold, GOLD_UNIT, n.vault.totalXautClaimed, n.vault.totalXautDistributed, GoldOf(n.players, gold));
  }

  lemma LifetimeCovered(m: Mine, owner: nat)
    requires Invariant(m) && owner in m.players
    ensures Owed(LifetimePosition(m.players[owner]), m.treasury.minerRewardsFactor, ONE) <= m.credited * ONE
    ensures Owed(RefinedPosition(m.players[owner]), m.treasury.minerRewardsFactor, ONE) <= m.treasury.totalRefined * ONE
    ensures m.players[owner].miner.rewardsGodl <= m.treasury.totalUnclaimed
    ensures Sane(m.players[owner], m.treasury.minerRewardsFactor, m.vault.xautRewardsFactor)
  {
    hide Solvent, Owed, TotalWeight, TotalOwed, GoldIdle;
    OwedCovered(Lifetimes(m.players), m.treasury.minerRewardsFactor, ONE, 0, m.credited, owner);
    OwedCovered(Refined(m.players), m.treasury.minerRewardsFactor, ONE, 0, m.treasury.totalRefined, owner);
    WeightCovered(Refined(m.players), owner);
  }

  /** Refining one miner cannot overflow while all GODL ever credited fits in 64 bits. */
  lemma RefineSucceeds(p: Player, factor: Fixed, refined: uint64, credited: uint64)
    requires p.miner.rewardsFactor <= factor
    requires p.miner.rewardsGodl + p.miner.refinedGodl <= p.miner.lifetimeRewardsGodl
    requires Owed(LifetimePosition(p), factor, ONE) <= credited * ONE
    requires Owed(RefinedPosition(p), factor, ONE) <= refined * ONE
    ensures var r := Refine(p.miner, factor);
      && r.Ok? && r.value.refinedGodl <= refined && r.value.lifetimeRewardsGodl <= credited
      && r.value.rewardsGodl == p.miner.rewardsGodl
      && r.value.rewardsGodl + r.value.refinedGodl <= r.value.lifetimeRewardsGodl
  {
    hide Accrued;
    OwedNonNegative(Position(0, p.miner.rewardsFactor, p.miner.rewardsGodl), factor, ONE);
    if p.miner.rewardsFactor < factor {
      AccruedFloor(factor - p.miner.rewardsFactor, p.miner.rewardsGodl);
    }
  }

  /** The one arithmetic failure a claim can meet: the shared factor leaving its 128 bits. */
  ghost predicate FactorOverflows(treasury: Treasury, rewards: nat)
    requires rewards <= treasury.totalUnclaimed
  {
    var waiting := treasury.totalUnclaimed - rewards;
    waiting > 0 && treasury.minerRewardsFactor + rewards / 10 * ONE / waiting > FIXED_MAX
  }

  lemma ClaimAllSucceeds(m: Refinery, treasury: Treasury, now: int64)
    requires var r := Refine(m, treasury.minerRewardsFactor);
      && r.Ok? && r.value.refinedGodl <= treasury.totalRefined && r.value.rewardsGodl == m.rewardsGodl <= treasury.totalUnclaimed
      && r.value.rewardsGodl + r.value.refinedGodl <= r.value.lifetimeRewardsGodl
    requires treasury.totalUnclaimed + treasury.totalRefined <= UINT64_MAX
    ensures ClaimAll(m, treasury, now).Ok? <==> !FactorOverflows(treasury, m.rewardsGodl)
  {
    hide Refine;
  }

  /** No subtraction or addition of a claim can fail in any reachable state: while all GODL ever
      credited fits in 64 bits, a claim goes through exactly when the factor stays in range. */
  lemma ClaimNeverUnderflows(m: Mine, history: seq<Instruction>, owner: nat, now: int64)
    requires Invariant(m)
    requires var n := Runs.Run(Step, m, history); owner in n.players && n.credited <= UINT64_MAX
    ensures var n := Runs.Run(Step, m, history);
      && n.players[owner].miner.rewardsGodl <= n.treasury.totalUnclaimed
      && (ClaimAll(n.players[owner].miner, n.treasury, now).Ok? <==> !FactorOverflows(n.treasury, n.players[owner].miner.rewardsGodl))
  {
    hide Step, Runs.Run, Solvent, AllSane, GoldIdle, Refine, ClaimAll, FactorOverflows, Owed;
    RunKeepsInvariant(m, history);
    var n := Runs.Run(Step, m, history);
    LifetimeCovered(n, owner);
    RefineSucceeds(n.players[owner], n.treasury.minerRewardsFactor, n.treasury.totalRefined, n.credited);
    ClaimAllSucceeds(n.players[owner].miner, n.treasury, now);
  }

  lemma AccrueSucceeds(e: Extended, gold: Fixed, unrefined: uint64, distributed: uint64)
    requires e.xautRewardsFactor <= gold
    requires Owed(Position(e.xautRewards, e.xautRewardsFactor, unrefined), gold, GOLD_UNIT) <= distributed * GOLD_UNIT
    requires Owed(Position(e.lifetimeXaut, e.xautRewardsFactor, unrefined), gold, GOLD_UNIT) <= distributed * GOLD_UNIT
    ensures Accrue(e, gold, unrefined).Ok?
  {
    hide GoldShare;
    if e.xautRewardsFactor < gold {
      GoldShareFits(gold - e.xautRewardsFactor, unrefined, distributed);
      GoldShareBound(gold - e.xautRewardsFactor, unrefined);
    }
  }

  /** Gold can always be settled, in every reachable state. */
  lemma GoldNeverFails(m: Mine, history: seq<Instruction>, owner: nat)
    requires Invariant(m)
    requires var n := Runs.Run(Step, m, history); owner in n.players && n.players[owner].extended.Some?
    ensures var n := Runs.Run(Step, m, history);
      Accrue(n.players[owner].extended.value, n.vault.xautRewardsFactor, n.players[owner].miner.rewardsGodl).Ok?
  {
    hide Step, Runs.Run, Solvent, GoldIdle, Accrue, Owed;
    RunKeepsInvariant(m, history);
    var n := Runs.Run(Step, m, history);
    var gold := n.vault.xautRewardsFactor;
    OwedCovered(Gold(n.players), gold, GOLD_UNIT, n.vault.totalXautClaimed, n.vault.totalXautDistributed, owner);
    OwedCovered(GoldLifetimes(n.players), gold, GOLD_UNIT, 0, n.vault.totalXautDistributed, owner);
    AccrueSucceeds(n.players[owner].extended.value, gold, n.players[owner].miner.rewardsGodl, n.vault.totalXautDistributed);
  }

  /** The gold discipline for one player and one step: an unrefined balance changes only after its
      gold is settled at the old balance, and a new extended account starts from a snapshot. */
  ghost predicate Disciplined(p: Player, q: Player, gold: Fixed) {
    && (p.extended.Some? && q.miner.rewardsGodl != p.miner.rewardsGodl ==>
          q.extended.Some? && Accrue(p.extended.value, gold, p.miner.rewardsGodl) == Ok(q.extended.value))
    && (p.extended.None? && q.extended.Some? ==> q.extended.value == Extended(gold, 0, 0))
    && (p.extended.Some? ==> q.extended.Some?)
  }

  lemma LegacyDisciplined(p: Player, treasury: Treasury, gold: Fixed, reward: uint64)
    requires Synced(p, gold) && CreditLegacyCheckpoint(p, treasury, reward).Ok?
    ensures Disciplined(p, CreditLegacyCheckpoint(p, treasury, reward).value.player, gold)
  {
  }

  lemma CreditDisciplined(p: Player, treasury: Treasury, gold: Fixed, amount: uint64)
    ensures CreditCheckpoint(p, treasury, gold, amount).Ok? ==> Disciplined(p, CreditCheckpoint(p, treasury, gold,
        amount).value.player, gold)
    ensures Inject(p, treasury, gold, amount).Ok? ==> Disciplined(p, Inject(p, treasury, gold, amount).value.player, gold)
    ensures OtcBonus(p, treasury, gold, amount).Ok? ==> Disciplined(p, OtcBonus(p, treasury, gold, amount).value.player, gold)
  {
    hide GoldShare, Accrued;
  }

  lemma ClaimDisciplined(p: Player, treasury: Treasury, gold: Fixed, now: int64, referred: bool)
    requires ClaimGodl(p, treasury, gold, now, referred).Ok?
    ensures Disciplined(p, ClaimGodl(p, treasury, gold, now, referred).value.player, gold)
  {
    hide GoldShare, Accrued, ChargeFee;
  }

  /** Mixing legacy and gold-aware instructions never changes a miner's unrefined balance while
      gold on it is unsettled: every reachable step obeys the discipline for every miner. */
  lemma GoldIsSettledFirst(m: Mine, history: seq<Instruction>, i: Instruction, owner: nat)
    requires Invariant(m)
    requires var n := Runs.Run(Step, m, history); owner in n.players && Step(n, i).Ok?
    ensures var n := Runs.Run(Step, m, history);
      && owner in Step(n, i).value.players
      && Disciplined(n.players[owner], Step(n, i).value.players[owner], n.vault.xautRewardsFactor)
  {
    hide Step, Runs.Run, Invariant, Disciplined;
    RunKeepsInvariant(m, history);
    StepDisciplined(Runs.Run(Step, m, history), i, owner);
  }

  lemma StepDisciplined(n: Mine, i: Instruction, owner: nat)
    requires Invariant(n) && owner in n.players && Step(n, i).Ok?
    ensures owner in Step(n, i).value.players
    ensures Disciplined(n.players[owner], Step(n, i).value.players[owner], n.vault.xautRewardsFactor)
  {
    hide Solvent, TotalWeight, AllSane, CreditCheckpoint, CreditLegacyCheckpoint, Inject, OtcBonus, ClaimGodl, Accrue, Deposited;
    var p := n.players[owner];
    var gold := n.vault.xautRewardsFactor;
    match i
    case Automate(_) =>
    case Deploy(_) =>
    case DeployWithMinerExtended(_) =>
    case CreateMinerExtended(_) =>
    case Checkpoint(who, reward) => if who == owner { LegacyDisciplined(p, n.treasury, gold, reward); }
    case CheckpointWithMinerExtended(_, reward) => CreditDisciplined(p, n.treasury, gold, reward);
    case InjectUnrefinedRewards(_, amount) => CreditDisciplined(p, n.treasury, gold, amount);
    case ExecuteOtcTrade(_, bonus) => CreditDisciplined(p, n.treasury, gold, bonus);
    case ClaimGodlRewards(who, referred) => if who == owner { ClaimDisciplined(p, n.treasury, gold, n.now, referred); }
    case ClaimGoldRewards(who) => if who == owner { ClaimGoldDisciplined(p, n.vault); }
    case DepositGold(_) =>
    case BuyGold(_, _) =>
    case DonateXaut(_) =>
    case Wait(_) =>
  }

  lemma ClaimGoldDisciplined(p: Player, vault: Vault)
    requires ClaimGold(p, vault).Ok?
    ensures Disciplined(p, ClaimGold(p, vault).value.player, vault.xautRewardsFactor)
  {
  }
}
