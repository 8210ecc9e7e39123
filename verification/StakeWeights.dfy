/** How much a stake may weigh: migration never raises a real weight, a merge prices exactly
    like a fresh deposit, and no bookkeeping can overflow while balances fit the supply. */
module StakeWeights {
  import opened Basics
  import opened FixedPoint
  import opened StakeAccounting
  import opened StakeCurve
  import opened StakeHandlers
  import opened StakeLedger
  import opened StakeState
  import opened TreasuryState
  import Runs

  const MAX_WEIGHT_FACTOR: nat := 22

  ghost function Weighted(amount: uint64, multiplier: uint64): nat {
    ProductNonNegative(amount, multiplier);
    amount * multiplier / SCALE
  }

  lemma WeightedMonotone(a: uint64, b: uint64, m: uint64, n: uint64)
    requires a <= b && m <= n
    ensures Weighted(a, m) <= Weighted(b, n)
  {
    MultiplyMonotone(a, b, m);
    MultiplyMonotone(m, n, b);
    assert a * m <= b * n;
  }

  /** What a stake weighs: its balance times its curve's multiplier, and a tenth more when boosted,
      each rounded down to a whole unit. */
  lemma WeightIs(s: Stake)
    requires Units(s).Ok?
    ensures var base := Weighted(s.balance, CurveMultiplier(s));
      && base * SCALE <= s.balance * CurveMultiplier(s) < base * SCALE + SCALE
      && if s.isNftStaked == 0 then Weight(s) == base else 10 * Weight(s) <= 11 * base < 10 * Weight(s) + 10
  {
    hide SqrtMultiplier;
    ProductNonNegative(s.balance, CurveMultiplier(s));
    QuotientBound(s.balance * CurveMultiplier(s), SCALE);
  }

  /** A stake gains weight by moving to the sqrt curve. */
  ghost predicate Gains(s: Stake, treasury: Treasury) {
    && Live(s, treasury.stakeRewardsFactor) && MigrateWeight(s, treasury).Ok?
    && Weight(s) < Weight(MigrateWeight(s, treasury).value.stake)
  }

  /** From two grid points below 1x up, and at zero, no stake gains weight by migrating; up to 1x it
      keeps exactly its weight. */
  lemma MigrationNeverRaises(s: Stake, treasury: Treasury)
    requires Live(s, treasury.stakeRewardsFactor) && (s.multiplier == 0 || SCALE - 2 <= s.multiplier)
    requires MigrateWeight(s, treasury).Ok?
    ensures var c := MigrateWeight(s, treasury).value;
      && Weight(c.stake) <= Weight(s) && c.treasury.totalStaked <= treasury.totalStaked
      && (s.multiplier <= SCALE ==> Weight(c.stake) == Weight(s))
  {
    CurveContracts(s.multiplier);
    WeightedMonotone(s.balance, s.balance, SqrtMultiplier(s.multiplier), s.multiplier);
    MigrateWeightKept(s, treasury);
  }

  /** At every other multiplier a balance of one SCALE gains. */
  ghost function Gainer(m: uint64): Stake {
    Stake(SCALE, 0, 0, 0, 0, 0, 0, m, 0, 0, 0, 0)
  }

  lemma MigrationRaises(m: uint64)
    requires 0 < m <= SCALE - 3
    ensures Gains(Gainer(m), Treasury(0, 0, 0, 0, m, 0, 0))
  {
    CurveContracts(m);
  }

  /** Exactly the multipliers for which no stake, whatever its balance, boost and rewards, gains
      weight by migrating. */
  lemma MigrationNeverRaisesExactly(m: uint64)
    ensures (forall s: Stake, t: Treasury :: s.multiplier == m ==> !Gains(s, t)) <==> m == 0 || SCALE - 2 <= m
  {
    if m == 0 || SCALE - 2 <= m {
      forall s: Stake, t: Treasury | s.multiplier == m ensures !Gains(s, t) {
        if Live(s, t.stakeRewardsFactor) && MigrateWeight(s, t).Ok? {
          MigrationNeverRaises(s, t);
        }
      }
    } else {
      MigrationRaises(m);
    }
  }

  /** Below 1x it can: a quarter becomes a half. */
  lemma MigrationCanRaiseBelowOne(balance: uint64)
    requires 0 < balance && balance % 4 == 0 && balance <= MAX_SUPPLY
    ensures var s := Stake(balance, 0, 0, 0, 0, 0, 0, SCALE / 4, 0, 0, 0, 0);
      Units(s) == Ok(balance / 4) && Units(s.(weightVersion := 1)) == Ok(balance / 2)
  {
    SqrtMultiplierIs(SCALE / 4, SCALE / 2);
  }

  lemma CombinedAtLeast(a: uint64, b: uint64, m: uint64, n: uint64, top: uint64)
    requires m <= top && n <= top && a + b <= UINT64_MAX
    ensures Weighted(a, m) + Weighted(b, n) <= Weighted(a + b, top)
  {
    WeightedMonotone(a, a, m, top);
    WeightedMonotone(b, b, n, top);
    FloorsAdd(a * top, b * top);
    assert (a + b) * top == a * top + b * top;
  }

  lemma FloorsAdd(x: int, y: int)
    requires 0 <= x && 0 <= y
    ensures x / SCALE + y / SCALE <= (x + y) / SCALE
  {
  }

  /** The stake a fresh deposit of `balance` at `lock` would create, as it is weighed. */
  ghost function FreshWeight(balance: uint64, lockDuration: int64): Result<uint64> {
    Units(FreshStake(lockDuration, 0, 0).(balance := balance))
  }

  ghost predicate Priced(s: Stake) {
    s.multiplier == StakeMultiplier(s.lockDuration)
  }

  /** A merge weighs exactly what a fresh deposit of both balances at the longer lock would,
      and, for stakes priced by their own locks, never less than both parts on the sqrt curve. */
  lemma MergePricesLikeAFreshDeposit(target: Holding, source: Holding, treasury: Treasury, now: int64)
    requires Merge(target, source, treasury, now).Ok?
    ensures MergedLikeFresh(target.stake, source.stake, Merge(target, source, treasury, now).value.holding.stake, now)
  {
    var pair := SettlePair(target.stake, source.stake, treasury).value;
    PairFrame(target.stake, source.stake, treasury);
    CombinedLikeFresh(target.stake, source.stake, pair.target, pair.source, now);
  }

  ghost predicate MergedLikeFresh(target: Stake, source: Stake, m: Stake, now: int64) {
    && target.balance + source.balance <= UINT64_MAX
    && Units(m) == FreshWeight(target.balance + source.balance, Max(target.lockDuration, source.lockDuration))
    && m.balance == target.balance + source.balance && m.createdAt == now
    && m.lockDuration == Max(target.lockDuration, source.lockDuration) && Priced(m)
    && (Priced(target) && Priced(source) ==>
          Weight(target.(weightVersion := 1)) + Weight(source.(weightVersion := 1)) <= Weight(m))
  }

  lemma CombinedLikeFresh(target: Stake, source: Stake, a: Stake, b: Stake, now: int64)
    requires SameTerms(target, a) && SameTerms(source, b) && target.isNftStaked == source.isNftStaked == 0
    requires Combine(a, b, now).Ok? && Units(Combine(a, b, now).value).Ok?
    ensures MergedLikeFresh(target, source, Combine(a, b, now).value, now)
  {
    var m := Combine(a, b, now).value;
    if Priced(target) && Priced(source) {
      LongerLockEarnsMore(target.lockDuration, m.lockDuration);
      LongerLockEarnsMore(source.lockDuration, m.lockDuration);
      CurveMonotone(target.multiplier, m.multiplier);
      CurveMonotone(source.multiplier, m.multiplier);
      CombinedAtLeast(target.balance, source.balance, SqrtMultiplier(target.multiplier),
                      SqrtMultiplier(source.multiplier), SqrtMultiplier(m.multiplier));
    }
  }

  /** A merge hands over exactly what settling both parts at their own weights makes claimable. */
  lemma MergeConservesRewards(target: Holding, source: Holding, treasury: Treasury, now: int64)
    requires Merge(target, source, treasury, now).Ok?
    ensures var m := Merge(target, source, treasury, now).value.holding.stake;
      var a, b := Settle(target.stake, treasury.stakeRewardsFactor), Settle(source.stake, treasury.stakeRewardsFactor);
      && a.Ok? && b.Ok?
      && m.rewards == a.value.rewards + b.value.rewards
      && m.lifetimeRewards == a.value.lifetimeRewards + b.value.lifetimeRewards
  {
    PairSettles(target.stake, source.stake, treasury);
  }

  /** Migrating settles first and does not settle again. */
  lemma MigrationSettlesOnce(s: Stake, treasury: Treasury)
    requires MigrateWeight(s, treasury).Ok?
    requires Settle(MigrateWeight(s, treasury).value.stake, treasury.stakeRewardsFactor).Ok?
    ensures var a, b := Settle(s, treasury.stakeRewardsFactor), Settle(MigrateWeight(s, treasury).value.stake, treasury.stakeRewardsFactor);
      a.Ok? && b.value.rewards == a.value.rewards && b.value.lifetimeRewards == a.value.lifetimeRewards
  {
    hide Units, Reweigh;
  }

  lemma PairSettles(target: Stake, source: Stake, treasury: Treasury)
    requires SettlePair(target, source, treasury).Ok?
    ensures var p := SettlePair(target, source, treasury).value;
      var a, b := Settle(target, treasury.stakeRewardsFactor), Settle(source, treasury.stakeRewardsFactor);
      && a.Ok? && b.Ok?
      && p.target.rewards == a.value.rewards && p.target.lifetimeRewards == a.value.lifetimeRewards
      && p.source.rewards == b.value.rewards && p.source.lifetimeRewards == b.value.lifetimeRewards
  {
    hide Settle;
    MigrationSettlesOnce(target, treasury);
    MigrationSettlesOnce(source, MigrateWeight(target, treasury).value.treasury);
  }

  ghost predicate AllPriced(l: Ledger) {
    forall k :: k in l.accounts && l.accounts[k].Modern? ==> Priced(l.accounts[k].holding.stake)
  }

  ghost predicate SamePrice(s: Stake, t: Stake) {
    t.multiplier == s.multiplier && t.lockDuration == s.lockDuration
  }

  lemma WithdrawKeepsPrice(h: Holding, t: Treasury, amount: uint64, now: int64)
    requires WithdrawUnlocked(h, t, amount, now).Ok?
    ensures SamePrice(h.stake, WithdrawUnlocked(h, t, amount, now).value.holding.stake)
  {
    MigrateWeightFrame(h.stake, t);
  }

  lemma TopUpKeepsPrice(h: Holding, t: Treasury, amount: uint64, now: int64, wallet: uint64)
    requires TopUp(h, t, amount, now, wallet).Ok?
    ensures SamePrice(h.stake, TopUp(h, t, amount, now, wallet).value.holding.stake)
  {
    MigrateWeightFrame(h.stake, t);
  }

  lemma CompoundKeepsPrice(h: Holding, t: Treasury, now: int64)
    requires Compound(h, t, now).Ok?
    ensures SamePrice(h.stake, Compound(h, t, now).value.holding.stake)
  {
    MigrateWeightFrame(h.stake, t);
  }

  lemma BoostKeepsPrice(h: Holding, t: Treasury)
    requires BoostWithNft(h, t).Ok?
    ensures SamePrice(h.stake, BoostWithNft(h, t).value.holding.stake)
  {
    MigrateWeightFrame(h.stake, t);
  }

  lemma ReleaseKeepsPrice(h: Holding, t: Treasury)
    requires ReleaseNft(h, t).Ok?
    ensures SamePrice(h.stake, ReleaseNft(h, t).value.holding.stake)
  {
    MigrateWeightFrame(h.stake, t);
  }

  lemma HandleKeepsPrice(h: Holding, l: Ledger, i: Instruction)
    requires Handle(h, l, i).Ok?
    ensures SamePrice(h.stake, Handle(h, l, i).value.holding.stake)
  {
    match i
    case TopUpV2(_, amount, wallet) => TopUpKeepsPrice(h, l.treasury, amount, l.now, wallet);
    case WithdrawV2(_, amount) => WithdrawKeepsPrice(h, l.treasury, amount, l.now);
    case ClaimYieldV2(_, amount) => SettleFrame(h.stake, l.treasury.stakeRewardsFactor);
    case CompoundYieldV2(_) => CompoundKeepsPrice(h, l.treasury, l.now);
    case MigrateStakeWeight(_) => MigrateWeightFrame(h.stake, l.treasury);
    case StakeNftV2(_) => BoostKeepsPrice(h, l.treasury);
    case UnstakeNftV2(_) => ReleaseKeepsPrice(h, l.treasury);
    case ReconcileStakeV2(_) => SettleFrame(h.stake, l.treasury.stakeRewardsFactor);
  }

  lemma OpenIsPriced(l: Ledger, key: Key, vault: nat, amount: uint64, lockDuration: int64, wallet: uint64)
    requires OpenAccount(l, key, vault, amount, lockDuration, wallet).Ok?
    ensures var n := OpenAccount(l, key, vault, amount, lockDuration, wallet).value;
      && key in n.accounts && n.accounts == l.accounts[key := n.accounts[key]]
      && n.accounts[key].Modern? && Priced(n.accounts[key].holding.stake)
  {
  }

  lemma StepKeepsPricing(l: Ledger, i: Instruction)
    requires AllPriced(l) && Step(l, i).Ok?
    ensures AllPriced(Step(l, i).value)
  {
    match i
    case DepositV2(key, vault, amount, lockDuration, wallet) => OpenIsPriced(l, key, vault, amount, lockDuration, wallet);
    case MergeStakeV2(target, source) =>
      MergePricesLikeAFreshDeposit(l.accounts[target].holding, l.accounts[source].holding, l.treasury, l.now);
    case CloseStakeV2(key) =>
    case WithdrawV1(key, amount) =>
    case ClaimYieldV1(key, amount) =>
    case BuryTokens(_) =>
    case Donate(_, _) =>
    case Wait(_) =>
    case _ => HandleKeepsPrice(l.accounts[i.key].holding, l, i);
  }

  /** Stakes the program created stay priced by their locks in every reachable state, so every
      merge among them is worth at least its parts. */
  lemma RunKeepsPricing(l: Ledger, history: seq<Instruction>)
    requires AllPriced(l)
    ensures AllPriced(Runs.Run(Step, l, history))
  {
    forall s, i | AllPriced(s) && Step(s, i).Ok? ensures AllPriced(Step(s, i).value) {
      StepKeepsPricing(s, i);
    }
    Runs.RunKeeps(Step, AllPriced, l, history);
  }

  /** So among stakes the program created no migration ever raises a weight: multipliers below 1x
      are out of reach. */
  lemma RunNeverMigratesUp(l: Ledger, history: seq<Instruction>, key: Key)
    requires AllPriced(l)
    ensures var n := Runs.Run(Step, l, history);
      key in n.accounts && n.accounts[key].Modern? ==>
        SCALE <= n.accounts[key].holding.stake.multiplier && !Gains(n.accounts[key].holding.stake, n.treasury)
  {
    hide Step, Runs.Run, Gains;
    RunKeepsPricing(l, history);
    var n := Runs.Run(Step, l, history);
    if key in n.accounts && n.accounts[key].Modern? {
      MigrationNeverRaisesExactly(n.accounts[key].holding.stake.multiplier);
    }
  }
}
