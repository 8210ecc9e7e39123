/** What every stake operation does to the books: rewards are settled at the old weight, the
    recorded total moves by exactly the change of weight, and nothing is created. */
module StakeAccounting {
  import opened Accumulator
  import opened Basics
  import opened FixedPoint
  import opened StakeHandlers
  import opened StakeState
  import opened TreasuryState
  import LegacyStake

  /** The part of a stake the reward ledger sees. */
  datatype Tally = Tally(rewards: nat, lifetime: nat, snapshot: nat, weight: nat)

  ghost function Claimable(t: Tally): Position {
    Position(t.rewards, t.snapshot, t.weight)
  }

  ghost function Earned(t: Tally): Position {
    Position(t.lifetime, t.snapshot, t.weight)
  }

  ghost function OwedTo(t: Tally, factor: Fixed): int {
    Owed(Claimable(t), factor, ONE)
  }

  ghost function EarnedBy(t: Tally, factor: Fixed): int {
    Owed(Earned(t), factor, ONE)
  }

  ghost function Weight(s: Stake): nat {
    if Units(s).Ok? then Units(s).value else 0
  }

  ghost function TallyOf(s: Stake): Tally {
    Tally(s.rewards, s.lifetimeRewards, s.rewardsFactor, Weight(s))
  }

  ghost function LegacyTally(s: LegacyStake.Stake): Tally {
    Tally(s.rewards, s.lifetimeRewards, s.rewardsFactor, s.balance)
  }

  ghost predicate Orderly(t: Tally, factor: Fixed) {
    t.snapshot <= factor && t.rewards <= t.lifetime
  }

  /** One step on one stake that pays `paid`: what it is owed falls by at least that much, its
      lifetime earnings lose less than one unit to rounding, and only if they were unsettled. */
  ghost predicate Honest(p: Tally, q: Tally, factor: Fixed, paid: nat) {
    && Orderly(q, factor)
    && OwedTo(q, factor) + paid * ONE <= OwedTo(p, factor)
    && q.lifetime - q.rewards == p.lifetime - p.rewards + paid
    && (q == p || q.snapshot == factor)
    && EarnedBy(p, factor) - (ONE - 1) <= EarnedBy(q, factor) <= EarnedBy(p, factor)
    && (p.snapshot == factor ==> q.lifetime == p.lifetime)
  }

  lemma SettledOwes(t: Tally, factor: Fixed)
    requires t.snapshot == factor
    ensures OwedTo(t, factor) == t.rewards * ONE && EarnedBy(t, factor) == t.lifetime * ONE
  {
  }

  /** Settling moves the whole units of what had accrued and loses the fraction. */
  lemma SettledHonest(t: Tally, factor: Fixed, share: nat)
    requires Orderly(t, factor)
    requires var exact := (factor - t.snapshot) * t.weight; share == exact / ONE
    ensures Honest(t, Tally(t.rewards + share, t.lifetime + share, factor, t.weight), factor, 0)
  {
    SettledOwes(Tally(t.rewards + share, t.lifetime + share, factor, t.weight), factor);
  }

  /** Steps compose: only the first can find anything left to settle. */
  lemma HonestChain(p: Tally, q: Tally, r: Tally, factor: Fixed, a: nat, b: nat)
    requires Honest(p, q, factor, a) && Honest(q, r, factor, b)
    ensures Honest(p, r, factor, a + b)
  {
  }

  ghost predicate Recorded(s: Stake, before: Treasury, next: Stake, after: Treasury) {
    && Units(s).Ok? && Units(next).Ok?
    && after == before.(totalStaked := after.totalStaked)
    && after.totalStaked == before.totalStaked - Weight(s) + Weight(next)
  }

  /** A whole operation: honest to the stake and exact in the recorded total. */
  ghost predicate Kept(s: Stake, before: Treasury, next: Stake, after: Treasury, paid: nat) {
    && Recorded(s, before, next, after)
    && Honest(TallyOf(s), TallyOf(next), before.stakeRewardsFactor, paid)
  }

  ghost predicate Live(s: Stake, factor: Fixed) {
    Units(s).Ok? && Orderly(TallyOf(s), factor)
  }

  lemma KeptChain(s: Stake, a: Treasury, t: Stake, b: Treasury, u: Stake, c: Treasury, x: nat, y: nat)
    requires Kept(s, a, t, b, x) && Kept(t, b, u, c, y)
    ensures Kept(s, a, u, c, x + y)
  {
    HonestChain(TallyOf(s), TallyOf(t), TallyOf(u), a.stakeRewardsFactor, x, y);
  }

  lemma SettleKept(s: Stake, treasury: Treasury)
    requires Live(s, treasury.stakeRewardsFactor)
    requires Settle(s, treasury.stakeRewardsFactor).Ok?
    ensures Kept(s, treasury, Settle(s, treasury.stakeRewardsFactor).value, treasury, 0)
    ensures var n := Settle(s, treasury.stakeRewardsFactor).value;
      && n == s.(rewards := n.rewards, lifetimeRewards := n.lifetimeRewards, rewardsFactor := treasury.stakeRewardsFactor)
      && Units(n) == Units(s)
  {
    var factor := treasury.stakeRewardsFactor;
    var n := Settle(s, factor).value;
    assert Units(n) == Units(s);
    if s.rewardsFactor < factor {
      AccruedFloor(factor - s.rewardsFactor, Weight(s));
      SettledHonest(TallyOf(s), factor, n.rewards - s.rewards);
      hide Honest, Accrued;
    }
  }

  lemma ReweighKept(s: Stake, next: Stake, treasury: Treasury)
    requires Live(s, treasury.stakeRewardsFactor) && s.rewardsFactor == treasury.stakeRewardsFactor
    requires TallyOf(next) == TallyOf(s).(weight := Weight(next))
    requires Reweigh(s, next, treasury).Ok?
    ensures Kept(s, treasury, next, Reweigh(s, next, treasury).value, 0)
  {
  }

  lemma ClaimKept(s: Stake, treasury: Treasury, amount: uint64, now: int64)
    requires Live(s, treasury.stakeRewardsFactor) && Claim(s, treasury, amount, now).Ok?
    ensures var c := Claim(s, treasury, amount, now).value;
      Kept(s, treasury, c.stake, c.treasury, c.amount) && c.stake.rewardsFactor == treasury.stakeRewardsFactor
  {
    var c := Claim(s, treasury, amount, now).value;
    var settled := Settle(s, treasury.stakeRewardsFactor).value;
    SettleKept(s, treasury);
    assert Units(c.stake) == Units(settled);
    KeptChain(s, treasury, settled, treasury, c.stake, treasury, 0, c.amount);
  }

  /** Any settled change of balance, curve or boost. */
  lemma SettleAndReweighKept(s: Stake, next: Stake, treasury: Treasury)
    requires Live(s, treasury.stakeRewardsFactor)
    requires Settle(s, treasury.stakeRewardsFactor).Ok?
    requires var settled := Settle(s, treasury.stakeRewardsFactor).value;
      TallyOf(next) == TallyOf(settled).(weight := Weight(next)) && Reweigh(settled, next, treasury).Ok?
    ensures Kept(s, treasury, next, Reweigh(Settle(s, treasury.stakeRewardsFactor).value, next, treasury).value, 0)
  {
    var settled := Settle(s, treasury.stakeRewardsFactor).value;
    SettleKept(s, treasury);
    ReweighKept(settled, next, treasury);
    KeptChain(s, treasury, settled, treasury, next, Reweigh(settled, next, treasury).value, 0, 0);
  }

  lemma DepositKept(s: Stake, treasury: Treasury, amount: uint64, now: int64, wallet: uint64)
    requires Live(s, treasury.stakeRewardsFactor) && Deposit(s, treasury, amount, now, wallet).Ok?
    ensures var c := Deposit(s, treasury, amount, now, wallet).value;
      Kept(s, treasury, c.stake, c.treasury, 0) && c.stake.rewardsFactor == treasury.stakeRewardsFactor
  {
    SettleAndReweighKept(s, Deposit(s, treasury, amount, now, wallet).value.stake, treasury);
  }

  lemma WithdrawKept(s: Stake, treasury: Treasury, amount: uint64, now: int64)
    requires Live(s, treasury.stakeRewardsFactor) && Withdraw(s, treasury, amount, now).Ok?
    ensures var c := Withdraw(s, treasury, amount, now).value; Kept(s, treasury, c.stake, c.treasury, 0)
  {
    SettleAndReweighKept(s, Withdraw(s, treasury, amount, now).value.stake, treasury);
  }

  lemma SetNftKept(s: Stake, treasury: Treasury, isNftStaked: uint8)
    requires Live(s, treasury.stakeRewardsFactor) && SetNft(s, treasury, isNftStaked).Ok?
    ensures var c := SetNft(s, treasury, isNftStaked).value; Kept(s, treasury, c.stake, c.treasury, 0)
  {
    SettleAndReweighKept(s, SetNft(s, treasury, isNftStaked).value.stake, treasury);
  }

  lemma MigrateWeightKept(s: Stake, treasury: Treasury)
    requires Live(s, treasury.stakeRewardsFactor) && MigrateWeight(s, treasury).Ok?
    ensures var c := MigrateWeight(s, treasury).value; Kept(s, treasury, c.stake, c.treasury, 0)
  {
    if s.weightVersion == 0 {
      SettleAndReweighKept(s, MigrateWeight(s, treasury).value.stake, treasury);
    }
  }

  /** Migrating, then any operation that is itself kept. */
  lemma MigratedKept(s: Stake, treasury: Treasury, next: Stake, after: Treasury, paid: nat)
    requires Live(s, treasury.stakeRewardsFactor) && MigrateWeight(s, treasury).Ok?
    requires var m := MigrateWeight(s, treasury).value; Kept(m.stake, m.treasury, next, after, paid)
    ensures Kept(s, treasury, next, after, paid)
  {
    var m := MigrateWeight(s, treasury).value;
    MigrateWeightKept(s, treasury);
    KeptChain(s, treasury, m.stake, m.treasury, next, after, 0, paid);
  }

  lemma HarvestKept(s: Stake, treasury: Treasury, now: int64)
    requires Live(s, treasury.stakeRewardsFactor) && Harvest(s, treasury, now).Ok?
    ensures var c := Harvest(s, treasury, now).value; Kept(s, treasury, c.stake, c.treasury, c.amount)
  {
    var m := MigrateWeight(s, treasury).value;
    MigrateWeightKept(s, treasury);
    ClaimKept(m.stake, m.treasury, UINT64_MAX, now);
    var c := Harvest(s, treasury, now).value;
    MigratedKept(s, treasury, c.stake, c.treasury, c.amount);
  }

  /** Preparing a merge settles each stake on its own and leaves the recorded total exact. */
  lemma SettlePairKept(target: Stake, source: Stake, t: Treasury)
    requires Live(target, t.stakeRewardsFactor) && Live(source, t.stakeRewardsFactor)
    requires SettlePair(target, source, t).Ok?
    ensures var p := SettlePair(target, source, t).value;
      && p.treasury == t.(totalStaked := p.treasury.totalStaked)
      && p.treasury.totalStaked == t.totalStaked - Weight(target) - Weight(source) + p.units
      && p.units == Weight(p.target) + Weight(p.source)
      && p.target.rewardsFactor == p.source.rewardsFactor == t.stakeRewardsFactor
      && Honest(TallyOf(target), TallyOf(p.target), t.stakeRewardsFactor, 0)
      && Honest(TallyOf(source), TallyOf(p.source), t.stakeRewardsFactor, 0)
  {
    var first := MigrateWeight(target, t).value;
    MigrateWeightKept(target, t);
    SettleKept(first.stake, first.treasury);
    var a := Settle(first.stake, t.stakeRewardsFactor).value;
    HonestChain(TallyOf(target), TallyOf(first.stake), TallyOf(a), t.stakeRewardsFactor, 0, 0);
    var second := MigrateWeight(source, first.treasury).value;
    MigrateWeightKept(source, first.treasury);
    SettleKept(second.stake, second.treasury);
    var b := Settle(second.stake, t.stakeRewardsFactor).value;
    HonestChain(TallyOf(source), TallyOf(second.stake), TallyOf(b), t.stakeRewardsFactor, 0, 0);
  }

  /** A merged stake is owed and has earned no more than its two parts, which are each settled
      once on the way. */
  /** Whether anything has been distributed since the stake was settled: 1 if so. */
  ghost function Unsettled(t: Tally, factor: Fixed): nat {
    if t.snapshot < factor then 1 else 0
  }

  ghost predicate Fused(p: Tally, q: Tally, r: Tally, factor: Fixed) {
    && Orderly(r, factor) && r.snapshot == factor
    && OwedTo(r, factor) <= OwedTo(p, factor) + OwedTo(q, factor)
    && EarnedBy(p, factor) + EarnedBy(q, factor) - (Unsettled(p, factor) + Unsettled(q, factor)) * (ONE - 1) <= EarnedBy(r, factor)
    && EarnedBy(r, factor) <= EarnedBy(p, factor) + EarnedBy(q, factor)
    && r.lifetime - r.rewards == p.lifetime - p.rewards + q.lifetime - q.rewards
  }

  lemma SumFused(p: Tally, q: Tally, a: Tally, b: Tally, r: Tally, factor: Fixed)
    requires Honest(p, a, factor, 0) && Honest(q, b, factor, 0)
    requires a.snapshot == b.snapshot == r.snapshot == factor && p.snapshot <= factor && q.snapshot <= factor
    requires r.rewards == a.rewards + b.rewards && r.lifetime == a.lifetime + b.lifetime
    ensures Fused(p, q, r, factor)
  {
    hide OwedTo, EarnedBy;
    SettledOwes(a, factor);
    SettledOwes(b, factor);
    SettledOwes(r, factor);
    if p.snapshot == factor {
      SettledOwes(p, factor);
    }
    if q.snapshot == factor {
      SettledOwes(q, factor);
    }
  }

  lemma MergeFused(target: Holding, source: Holding, t: Treasury, now: int64)
    requires Live(target.stake, t.stakeRewardsFactor) && Live(source.stake, t.stakeRewardsFactor)
    requires Merge(target, source, t, now).Ok?
    ensures var o := Merge(target, source, t, now).value;
      && Units(o.holding.stake).Ok? && o.paid == 0
      && o.treasury == t.(totalStaked := o.treasury.totalStaked)
      && o.treasury.totalStaked == t.totalStaked - Weight(target.stake) - Weight(source.stake) + Weight(o.holding.stake)
      && Fused(TallyOf(target.stake), TallyOf(source.stake), TallyOf(o.holding.stake), t.stakeRewardsFactor)
  {
    var pair := SettlePair(target.stake, source.stake, t).value;
    var merged := Combine(pair.target, pair.source, now).value;
    SettlePairKept(target.stake, source.stake, t);
    SumFused(TallyOf(target.stake), TallyOf(source.stake), TallyOf(pair.target), TallyOf(pair.source), TallyOf(merged),
             t.stakeRewardsFactor);
  }

  lemma NftKept(s: Stake, t: Treasury, isNftStaked: uint8)
    requires Live(s, t.stakeRewardsFactor) && MigrateWeight(s, t).Ok?
    requires var m := MigrateWeight(s, t).value; SetNft(m.stake, m.treasury, isNftStaked).Ok?
    ensures var m := MigrateWeight(s, t).value;
      var c := SetNft(m.stake, m.treasury, isNftStaked).value; Kept(s, t, c.stake, c.treasury, 0)
  {
    var m := MigrateWeight(s, t).value;
    MigrateWeightKept(s, t);
    SetNftKept(m.stake, m.treasury, isNftStaked);
    var c := SetNft(m.stake, m.treasury, isNftStaked).value;
    MigratedKept(s, t, c.stake, c.treasury, 0);
  }

  lemma TopUpKept(h: Holding, t: Treasury, amount: uint64, now: int64, wallet: uint64)
    requires Live(h.stake, t.stakeRewardsFactor) && TopUp(h, t, amount, now, wallet).Ok?
    ensures var o := TopUp(h, t, amount, now, wallet).value; Kept(h.stake, t, o.holding.stake, o.treasury, o.paid)
  {
    var m := MigrateWeight(h.stake, t).value;
    MigrateWeightKept(h.stake, t);
    DepositKept(m.stake, m.treasury, amount, now, wallet);
    var c := Deposit(m.stake, m.treasury, amount, now, wallet).value;
    MigratedKept(h.stake, t, c.stake, c.treasury, 0);
    assert Units(c.stake.(createdAt := now)) == Units(c.stake);
  }

  lemma WithdrawUnlockedKept(h: Holding, t: Treasury, amount: uint64, now: int64)
    requires Live(h.stake, t.stakeRewardsFactor) && WithdrawUnlocked(h, t, amount, now).Ok?
    ensures var o := WithdrawUnlocked(h, t, amount, now).value; Kept(h.stake, t, o.holding.stake, o.treasury, o.paid)
  {
    var m := MigrateWeight(h.stake, t).value;
    MigrateWeightKept(h.stake, t);
    WithdrawKept(m.stake, m.treasury, amount, now);
    var c := Withdraw(m.stake, m.treasury, amount, now).value;
    MigratedKept(h.stake, t, c.stake, c.treasury, 0);
  }

  lemma CompoundKept(h: Holding, t: Treasury, now: int64)
    requires Live(h.stake, t.stakeRewardsFactor) && Compound(h, t, now).Ok?
    ensures var o := Compound(h, t, now).value; Kept(h.stake, t, o.holding.stake, o.treasury, o.paid)
  {
    hide Units, Settle, Reweigh, MigrateWeight;
    var claimed := Harvest(h.stake, t, now).value;
    HarvestKept(h.stake, t, now);
    var amount := claimed.amount - claimed.amount / 100;
    var wallet := Min(h.vault + amount, UINT64_MAX);
    DepositKept(claimed.stake, claimed.treasury, amount, now, wallet);
    var c := Deposit(claimed.stake, claimed.treasury, amount, now, wallet).value;
    KeptChain(h.stake, t, claimed.stake, claimed.treasury, c.stake, c.treasury, claimed.amount, 0);
  }

  lemma MigrateWeightFrame(s: Stake, t: Treasury)
    requires MigrateWeight(s, t).Ok?
    ensures var m := MigrateWeight(s, t).value.stake;
      m == s.(rewards := m.rewards, lifetimeRewards := m.lifetimeRewards, rewardsFactor := m.rewardsFactor,
          weightVersion := m.weightVersion)
  {
  }

  lemma SettleFrame(s: Stake, factor: Fixed)
    requires Settle(s, factor).Ok?
    ensures var n := Settle(s, factor).value;
      n == s.(rewards := n.rewards, lifetimeRewards := n.lifetimeRewards, rewardsFactor := factor)
  {
  }

  lemma PairFrame(target: Stake, source: Stake, treasury: Treasury)
    requires SettlePair(target, source, treasury).Ok?
    ensures var p := SettlePair(target, source, treasury).value;
      && SameTerms(target, p.target) && SameTerms(source, p.source)
  {
    var first := MigrateWeight(target, treasury).value;
    MigrateWeightFrame(target, treasury);
    SettleFrame(first.stake, treasury.stakeRewardsFactor);
    MigrateWeightFrame(source, first.treasury);
    var second := MigrateWeight(source, first.treasury).value;
    SettleFrame(second.stake, second.treasury.stakeRewardsFactor);
  }

  /** Settling and migrating change neither balance nor lock nor boost, and end on the sqrt curve. */
  ghost predicate SameTerms(s: Stake, t: Stake) {
    && t.balance == s.balance && t.multiplier == s.multiplier && t.lockDuration == s.lockDuration
    && t.isNftStaked == s.isNftStaked && t.createdAt == s.createdAt && t.weightVersion != 0
  }

  ghost predicate LegacyKept(s: LegacyStake.Stake, before: Treasury, next: LegacyStake.Stake, after: Treasury, paid: nat) {
    && after == before.(totalStaked := after.totalStaked)
    && after.totalStaked == before.totalStaked - s.balance + next.balance
    && Honest(LegacyTally(s), LegacyTally(next), before.stakeRewardsFactor, paid)
  }

  lemma LegacySettleHonest(s: LegacyStake.Stake, factor: Fixed)
    requires Orderly(LegacyTally(s), factor) && LegacyStake.Settle(s, factor).Ok?
    ensures Honest(LegacyTally(s), LegacyTally(LegacyStake.Settle(s, factor).value), factor, 0)
  {
    if s.rewardsFactor < factor {
      AccruedFloor(factor - s.rewardsFactor, s.balance);
      SettledHonest(LegacyTally(s), factor, LegacyStake.Settle(s, factor).value.rewards - s.rewards);
    }
  }

  lemma LegacyClaimKept(s: LegacyStake.Stake, treasury: Treasury, amount: uint64, now: int64)
    requires Orderly(LegacyTally(s), treasury.stakeRewardsFactor) && LegacyStake.Claim(s, treasury, amount, now).Ok?
    ensures var c := LegacyStake.Claim(s, treasury, amount, now).value;
      LegacyKept(s, treasury, c.stake, c.treasury, c.amount)
  {
    var c := LegacyStake.Claim(s, treasury, amount, now).value;
    var factor := treasury.stakeRewardsFactor;
    LegacySettleHonest(s, factor);
    HonestChain(LegacyTally(s), LegacyTally(LegacyStake.Settle(s, factor).value), LegacyTally(c.stake), factor, 0, c.amount);
  }

  lemma LegacyWithdrawKept(s: LegacyStake.Stake, treasury: Treasury, amount: uint64, now: int64)
    requires Orderly(LegacyTally(s), treasury.stakeRewardsFactor) && LegacyStake.Withdraw(s, treasury, amount, now).Ok?
    ensures var c := LegacyStake.Withdraw(s, treasury, amount, now).value;
      LegacyKept(s, treasury, c.stake, c.treasury, 0)
  {
    var c := LegacyStake.Withdraw(s, treasury, amount, now).value;
    var factor := treasury.stakeRewardsFactor;
    LegacySettleHonest(s, factor);
    HonestChain(LegacyTally(s), LegacyTally(LegacyStake.Settle(s, factor).value), LegacyTally(c.stake), factor, 0, 0);
  }
}
