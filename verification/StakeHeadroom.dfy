/** Headroom: while multipliers stay within 20x and recorded balances within the token supply,
    no weight and no total can leave 64 bits, so StakeOverflow never happens. */
module StakeHeadroom {
  import opened Accumulator
  import opened Basics
  import opened FixedPoint
  import opened MapSums
  import opened StakeAccounting
  import opened StakeCurve
  import opened StakeHandlers
  import opened StakeLedger
  import opened StakeState
  import opened StakeTheorems
  import opened StakeWeights
  import opened TreasuryState
  import Runs

  const MAX_MULTIPLIER: uint64 := MAX_STAKE_MULTIPLIER * SCALE

  /** Twenty times for the lock and eleven tenths for the boost: at most 22 per gram. */
  lemma WeightCap(s: Stake)
    requires s.multiplier <= MAX_MULTIPLIER && s.balance <= MAX_SUPPLY
    ensures Units(s).Ok? && Weight(s) <= MAX_WEIGHT_FACTOR * s.balance
  {
    CurveContracts(s.multiplier);
    WeightedMonotone(s.balance, s.balance, CurveMultiplier(s), MAX_MULTIPLIER);
  }

  /** `cap` is what this stake may hold while all balances together fit the supply. */
  ghost predicate Roomy(s: Stake, t: Treasury, cap: nat) {
    && Live(s, t.stakeRewardsFactor) && Settle(s, t.stakeRewardsFactor).Ok?
    && s.multiplier <= MAX_MULTIPLIER && s.balance <= cap <= MAX_SUPPLY
    && Weight(s) <= t.totalStaked
    && t.totalStaked - Weight(s) + MAX_WEIGHT_FACTOR * cap <= MAX_WEIGHT_FACTOR * MAX_SUPPLY
  }

  ghost predicate RoomyAfter(c: Result<Change>, cap: nat) {
    c.Ok? && Roomy(c.value.stake, c.value.treasury, cap)
  }

  lemma SettleRoomy(s: Stake, t: Treasury, cap: nat)
    requires Roomy(s, t, cap)
    ensures var n := Settle(s, t.stakeRewardsFactor).value;
      Roomy(n, t, cap) && n.rewardsFactor == t.stakeRewardsFactor && SamePrice(s, n) && n.balance == s.balance
  {
    SettleKept(s, t);
  }

  lemma ReweighRoomy(s: Stake, next: Stake, t: Treasury, cap: nat)
    requires Roomy(s, t, cap) && s.rewardsFactor == t.stakeRewardsFactor
    requires next.multiplier == s.multiplier && next.balance <= cap
    requires TallyOf(next) == TallyOf(s).(weight := Weight(next))
    ensures Reweigh(s, next, t).Ok? && Roomy(next, Reweigh(s, next, t).value, cap)
  {
    WeightCap(next);
  }

  lemma MigrateRoomy(s: Stake, t: Treasury, cap: nat)
    requires Roomy(s, t, cap)
    ensures RoomyAfter(MigrateWeight(s, t), cap)
    ensures MigrateWeight(s, t).value.stake.balance == s.balance && SamePrice(s, MigrateWeight(s, t).value.stake)
    ensures MigrateWeight(s, t).value.treasury.stakeRewardsFactor == t.stakeRewardsFactor
  {
    if s.weightVersion == 0 {
      SettleRoomy(s, t, cap);
      var n := Settle(s, t.stakeRewardsFactor).value;
      ReweighRoomy(n, n.(weightVersion := 1), t, cap);
    }
  }

  lemma ClaimRoomy(s: Stake, t: Treasury, amount: uint64, now: int64, cap: nat)
    requires Roomy(s, t, cap)
    ensures RoomyAfter(Claim(s, t, amount, now), cap)
    ensures var c := Claim(s, t, amount, now).value; c.stake.balance == s.balance && c.treasury == t
  {
    SettleRoomy(s, t, cap);
    ClaimKept(s, t, amount, now);
  }

  lemma DepositRoomy(s: Stake, t: Treasury, amount: uint64, now: int64, wallet: uint64, cap: nat)
    requires Roomy(s, t, cap) && s.balance + Min(wallet, amount) <= cap
    ensures RoomyAfter(Deposit(s, t, amount, now, wallet), cap)
  {
    SettleRoomy(s, t, cap);
    var n := Settle(s, t.stakeRewardsFactor).value;
    ReweighRoomy(n, n.(balance := n.balance + Min(wallet, amount), lastDepositAt := now), t, cap);
  }

  lemma WithdrawRoomy(s: Stake, t: Treasury, amount: uint64, now: int64, cap: nat)
    requires Roomy(s, t, cap)
    ensures RoomyAfter(Withdraw(s, t, amount, now), cap)
  {
    SettleRoomy(s, t, cap);
    var n := Settle(s, t.stakeRewardsFactor).value;
    ReweighRoomy(n, n.(balance := n.balance - Min(n.balance, amount), lastWithdrawAt := now), t, cap);
  }

  lemma SetNftRoomy(s: Stake, t: Treasury, isNftStaked: uint8, cap: nat)
    requires Roomy(s, t, cap)
    ensures RoomyAfter(SetNft(s, t, isNftStaked), cap)
  {
    SettleRoomy(s, t, cap);
    var n := Settle(s, t.stakeRewardsFactor).value;
    ReweighRoomy(n, n.(isNftStaked := isNftStaked), t, cap);
  }

  /** The tokens an instruction brings into a stake's recorded balance. */
  ghost function Incoming(h: Holding, l: Ledger, i: Instruction): nat {
    match i
    case TopUpV2(_, amount, wallet) => Min(amount, wallet)
    case CompoundYieldV2(_) =>
      var c := Harvest(h.stake, l.treasury, l.now);
      if c.Ok? then c.value.amount - c.value.amount / 100 else 0
    case _ => 0
  }

  lemma TopUpFits(h: Holding, t: Treasury, amount: uint64, now: int64, wallet: uint64, cap: nat)
    requires Roomy(h.stake, t, cap) && h.stake.balance + Min(wallet, amount) <= cap
    ensures TopUp(h, t, amount, now, wallet) != Err(StakeOverflow)
  {
    MigrateRoomy(h.stake, t, cap);
    var m := MigrateWeight(h.stake, t).value;
    DepositRoomy(m.stake, m.treasury, amount, now, wallet, cap);
  }

  lemma WithdrawFits(h: Holding, t: Treasury, amount: uint64, now: int64, cap: nat)
    requires Roomy(h.stake, t, cap)
    ensures WithdrawUnlocked(h, t, amount, now) != Err(StakeOverflow)
  {
    MigrateRoomy(h.stake, t, cap);
    var m := MigrateWeight(h.stake, t).value;
    WithdrawRoomy(m.stake, m.treasury, amount, now, cap);
  }

  lemma HarvestRoomy(s: Stake, t: Treasury, now: int64, cap: nat)
    requires Roomy(s, t, cap)
    ensures RoomyAfter(Harvest(s, t, now), cap) && Harvest(s, t, now).value.stake.balance == s.balance
  {
    MigrateRoomy(s, t, cap);
    var m := MigrateWeight(s, t).value;
    ClaimRoomy(m.stake, m.treasury, UINT64_MAX, now, cap);
  }

  lemma CompoundFits(h: Holding, t: Treasury, now: int64, cap: nat)
    requires Roomy(h.stake, t, cap)
    requires Harvest(h.stake, t, now).Ok? ==>
      h.stake.balance + Harvest(h.stake, t, now).value.amount - Harvest(h.stake, t, now).value.amount / 100 <= cap
    ensures Compound(h, t, now) != Err(StakeOverflow)
  {
    HarvestRoomy(h.stake, t, now, cap);
    var c := Harvest(h.stake, t, now).value;
    var amount := c.amount - c.amount / 100;
    DepositRoomy(c.stake, c.treasury, amount, now, Min(h.vault + amount, UINT64_MAX), cap);
  }

  lemma NftFits(h: Holding, t: Treasury, cap: nat)
    requires Roomy(h.stake, t, cap)
    ensures BoostWithNft(h, t) != Err(StakeOverflow) && ReleaseNft(h, t) != Err(StakeOverflow)
  {
    MigrateRoomy(h.stake, t, cap);
    var m := MigrateWeight(h.stake, t).value;
    SetNftRoomy(m.stake, m.treasury, 1, cap);
    SetNftRoomy(m.stake, m.treasury, 0, cap);
  }

  lemma HandleFits(h: Holding, l: Ledger, i: Instruction, cap: nat)
    requires Roomy(h.stake, l.treasury, cap) && h.stake.balance + Incoming(h, l, i) <= cap
    ensures Handle(h, l, i) != Err(StakeOverflow)
  {
    match i
    case TopUpV2(_, amount, wallet) => TopUpFits(h, l.treasury, amount, l.now, wallet, cap);
    case WithdrawV2(_, amount) => WithdrawFits(h, l.treasury, amount, l.now, cap);
    case ClaimYieldV2(_, amount) => ClaimRoomy(h.stake, l.treasury, amount, l.now, cap);
    case CompoundYieldV2(_) => CompoundFits(h, l.treasury, l.now, cap);
    case MigrateStakeWeight(_) => MigrateRoomy(h.stake, l.treasury, cap);
    case StakeNftV2(_) => NftFits(h, l.treasury, cap);
    case UnstakeNftV2(_) => NftFits(h, l.treasury, cap);
    case ReconcileStakeV2(_) => WithdrawRoomy(h.stake, l.treasury, Max(h.stake.balance - h.vault, 0), l.now, cap);
    case _ =>
  }

  ghost function Balance(a: Account): nat {
    match a
    case Modern(h) => h.stake.balance
    case Legacy(s, _) => s.balance
  }

  ghost function BalancesOf(accounts: map<Key, Account>): map<Key, int> {
    map k | k in accounts :: Balance(accounts[k])
  }

  ghost function TotalBalance(accounts: map<Key, Account>): int {
    Sum(BalancesOf(accounts))
  }

  ghost predicate Capped(accounts: map<Key, Account>) {
    forall k :: k in accounts && accounts[k].Modern? ==> accounts[k].holding.stake.multiplier <= MAX_MULTIPLIER
  }

  /** All balances are real tokens, and less than 2^64 has been shared in all. */
  ghost predicate Plausible(l: Ledger) {
    Invariant(l) && Capped(l.accounts) && TotalBalance(l.accounts) <= MAX_SUPPLY && l.funded <= UINT64_MAX
  }

  lemma BalanceCovered(accounts: map<Key, Account>, key: Key)
    requires key in accounts
    ensures Balance(accounts[key]) <= TotalBalance(accounts)
    ensures TotalBalance(accounts - {key}) == TotalBalance(accounts) - Balance(accounts[key])
  {
    SumCovers(BalancesOf(accounts), key);
    assert BalancesOf(accounts - {key}) == BalancesOf(accounts) - {key};
    SumRemove(BalancesOf(accounts), key);
  }

  /** All weights together are at most 22 times all balances. */
  lemma TotalWeightCap(accounts: map<Key, Account>)
    requires Capped(accounts) && TotalBalance(accounts) <= MAX_SUPPLY
    ensures TotalWeight(Claims(accounts)) <= MAX_WEIGHT_FACTOR * TotalBalance(accounts)
  {
    var weights := WeightMap(Claims(accounts));
    var balances := BalancesOf(accounts);
    var bounds := map k | k in balances :: MAX_WEIGHT_FACTOR * balances[k];
    forall k | k in weights ensures weights[k] <= bounds[k] {
      BalanceCovered(accounts, k);
      if accounts[k].Modern? {
        WeightCap(accounts[k].holding.stake);
      }
    }
    SumMonotone(weights, bounds);
    SumScale(balances, MAX_WEIGHT_FACTOR);
  }

  /** The recorded total fits 64 bits with a factor of almost four to spare. */
  lemma TotalStakedFits(l: Ledger)
    requires Plausible(l)
    ensures l.treasury.totalStaked <= MAX_WEIGHT_FACTOR * MAX_SUPPLY < UINT64_MAX / 3
  {
    TotalWeightCap(l.accounts);
  }

  ghost function CapOf(l: Ledger, key: Key): int {
    MAX_SUPPLY - TotalBalance(l.accounts - {key})
  }

  lemma OthersWeigh(l: Ledger, key: Key)
    requires Plausible(l) && key in l.accounts
    ensures AccountTally(l.accounts[key]).weight <= l.treasury.totalStaked
    ensures l.treasury.totalStaked - AccountTally(l.accounts[key]).weight <= MAX_WEIGHT_FACTOR * TotalBalance(l.accounts - {key})
    ensures Balance(l.accounts[key]) <= CapOf(l, key) <= MAX_SUPPLY
  {
    hide Solvent, TotalOwed, AllLive;
    BalanceCovered(l.accounts, key);
    WeightCovered(Claims(l.accounts), key);
    DropPosition(Claims(l.accounts), key, 0, ONE);
    assert Claims(l.accounts - {key}) == Claims(l.accounts) - {key};
    TotalWeightCap(l.accounts - {key});
    SumNonNegative(BalancesOf(l.accounts - {key}));
  }

  lemma AccountRoomy(l: Ledger, key: Key)
    requires Plausible(l) && key in l.accounts && l.accounts[key].Modern?
    ensures 0 <= CapOf(l, key) && Roomy(l.accounts[key].holding.stake, l.treasury, CapOf(l, key))
  {
    OthersWeigh(l, key);
    AccountSettles(l, key);
  }

  /** Two accounts together are owed no more than what was funded. */
  lemma PairCovered(book: map<Key, Position>, factor: Fixed, funded: nat, paid: nat, a: Key, b: Key)
    requires Solvent(book, factor, ONE, paid, funded) && a != b && a in book && b in book
    ensures Owed(book[a], factor, ONE) + Owed(book[b], factor, ONE) <= funded * ONE
  {
    DropPosition(book, a, factor, ONE);
    var rest := book - {a};
    forall j | j in rest ensures 0 <= OwedMap(rest, factor, ONE)[j] {
      OwedNonNegative(rest[j], factor, ONE);
    }
    SumCovers(OwedMap(rest, factor, ONE), b);
  }

  lemma SettledLifetime(s: Stake, t: Treasury)
    requires Live(s, t.stakeRewardsFactor) && Settle(s, t.stakeRewardsFactor).Ok?
    ensures var n := Settle(s, t.stakeRewardsFactor).value;
      n.rewards <= n.lifetimeRewards && n.lifetimeRewards * ONE <= EarnedBy(TallyOf(s), t.stakeRewardsFactor)
  {
    hide Live;
    SettleKept(s, t);
  }

  lemma PairRewardsFit(l: Ledger, a: Key, b: Key)
    requires Plausible(l) && a != b && a in l.accounts && b in l.accounts
    requires l.accounts[a].Modern? && l.accounts[b].Modern?
    ensures var s, t := Settle(l.accounts[a].holding.stake, l.treasury.stakeRewardsFactor),
                        Settle(l.accounts[b].holding.stake, l.treasury.stakeRewardsFactor);
      && s.Ok? && t.Ok?
      && s.value.rewards + t.value.rewards <= UINT64_MAX
      && s.value.lifetimeRewards + t.value.lifetimeRewards <= UINT64_MAX
  {
    AccountSettles(l, a);
    AccountSettles(l, b);
    var factor := l.treasury.stakeRewardsFactor;
    SettledLifetime(l.accounts[a].holding.stake, l.treasury);
    SettledLifetime(l.accounts[b].holding.stake, l.treasury);
    var earnings := Earnings(l.accounts);
    PairCovered(earnings, factor, l.funded, 0, a, b);
    assert Owed(earnings[a], factor, ONE) == EarnedBy(TallyOf(l.accounts[a].holding.stake), factor);
    assert Owed(earnings[b], factor, ONE) == EarnedBy(TallyOf(l.accounts[b].holding.stake), factor);
  }

  lemma PairFits(a: Stake, b: Stake, t: Treasury, capA: nat, rest: nat)
    requires Roomy(a, t, capA) && Live(b, t.stakeRewardsFactor) && Settle(b, t.stakeRewardsFactor).Ok?
    requires b.multiplier <= MAX_MULTIPLIER && a.balance + b.balance + rest <= MAX_SUPPLY
    requires Weight(a) + Weight(b) <= t.totalStaked <= Weight(a) + Weight(b) + MAX_WEIGHT_FACTOR * rest
    ensures SettlePair(a, b, t).Ok?
    ensures var p := SettlePair(a, b, t).value;
      p.units <= p.treasury.totalStaked <= p.units + MAX_WEIGHT_FACTOR * rest
  {
    MigrateRoomy(a, t, capA);
    var first := MigrateWeight(a, t).value;
    MigrateWeightKept(a, t);
    WeightCap(first.stake);
    MigrateRoomy(b, first.treasury, b.balance);
    var second := MigrateWeight(b, first.treasury).value;
    MigrateWeightKept(b, first.treasury);
    WeightCap(second.stake);
    SettleRoomy(first.stake, first.treasury, capA);
    SettleRoomy(second.stake, second.treasury, b.balance);
    SettleKept(first.stake, first.treasury);
    SettleKept(second.stake, second.treasury);
  }

  lemma MergeFits(l: Ledger, target: Key, source: Key)
    requires Plausible(l)
    ensures MergeAccounts(l, target, source) != Err(StakeOverflow)
  {
    if target != source && HoldingAt(l, target).Ok? && HoldingAt(l, source).Ok? {
      var t, s := l.accounts[target].holding, l.accounts[source].holding;
      var rest := TotalBalance(l.accounts - {target} - {source});
      PairHasRoom(l, target, source);
      AccountRoomy(l, target);
      AccountSettles(l, source);
      PairFits(t.stake, s.stake, l.treasury, CapOf(l, target), rest);
      PairRewardsFit(l, target, source);
      PairSettles(t.stake, s.stake, l.treasury);
      PairFrame(t.stake, s.stake, l.treasury);
      CombineFits(SettlePair(t.stake, s.stake, l.treasury).value, l.now, rest);
    }
  }

  lemma PairHasRoom(l: Ledger, target: Key, source: Key)
    requires Plausible(l) && target != source && target in l.accounts && source in l.accounts
    ensures var rest := TotalBalance(l.accounts - {target} - {source});
      var a, b := AccountTally(l.accounts[target]).weight, AccountTally(l.accounts[source]).weight;
      && 0 <= rest
      && Balance(l.accounts[target]) + Balance(l.accounts[source]) + rest <= MAX_SUPPLY
      && a + b <= l.treasury.totalStaked <= a + b + MAX_WEIGHT_FACTOR * rest
  {
    var others := l.accounts - {target};
    var rest := others - {source};
    BalanceCovered(l.accounts, target);
    BalanceCovered(others, source);
    SumNonNegative(BalancesOf(rest));
    WeightWithout(l.accounts, target);
    WeightWithout(others, source);
    TotalWeightCap(rest);
    SumNonNegative(WeightMap(Claims(rest)));
  }

  lemma WeightWithout(accounts: map<Key, Account>, key: Key)
    requires key in accounts
    ensures TotalWeight(Claims(accounts - {key})) == TotalWeight(Claims(accounts)) - AccountTally(accounts[key]).weight
  {
    DropPosition(Claims(accounts), key, 0, ONE);
    assert Claims(accounts - {key}) == Claims(accounts) - {key};
  }

  lemma CombineFits(p: Pair, now: int64, rest: nat)
    requires p.target.balance + p.source.balance + rest <= MAX_SUPPLY
    requires p.target.rewards + p.source.rewards <= UINT64_MAX
    requires p.target.lifetimeRewards + p.source.lifetimeRewards <= UINT64_MAX
    requires p.units <= p.treasury.totalStaked <= p.units + MAX_WEIGHT_FACTOR * rest
    ensures var c := Combine(p.target, p.source, now);
      c.Ok? && Units(c.value).Ok? && MoveTotal(p.treasury.totalStaked, p.units, Units(c.value).value).Ok?
  {
    WeightCap(Combine(p.target, p.source, now).value);
  }

  /** An instruction moves only tokens that exist: what it brings in fits beside the balances
      already recorded, and a vault being closed holds no more than the supply allows. */
  ghost predicate TokensExist(l: Ledger, i: Instruction) {
    match i
    case DepositV2(_, _, amount, _, wallet) => TotalBalance(l.accounts) + Min(amount, wallet) <= MAX_SUPPLY
    case CloseStakeV2(key) => HoldingAt(l, key).Ok? ==> l.funded + l.accounts[key].holding.vault <= UINT64_MAX
    case TopUpV2(key, _, _) =>
      HoldingAt(l, key).Ok? ==> TotalBalance(l.accounts) + Incoming(l.accounts[key].holding, l, i) <= MAX_SUPPLY
    case CompoundYieldV2(key) =>
      HoldingAt(l, key).Ok? ==> TotalBalance(l.accounts) + Incoming(l.accounts[key].holding, l, i) <= MAX_SUPPLY
    case _ => true
  }

  lemma OpenFits(l: Ledger, key: Key, vault: nat, amount: uint64, lockDuration: int64, wallet: uint64)
    requires Plausible(l) && TotalBalance(l.accounts) + Min(amount, wallet) <= MAX_SUPPLY
    ensures OpenAccount(l, key, vault, amount, lockDuration, wallet) != Err(StakeOverflow)
  {
    var empty := FreshStake(lockDuration, l.now, l.treasury.stakeRewardsFactor);
    TotalWeightCap(l.accounts);
    SumNonNegative(BalancesOf(l.accounts));
    assert Units(empty) == Ok(0);
    DepositRoomy(empty, l.treasury, amount, l.now, wallet, MAX_SUPPLY - TotalBalance(l.accounts));
  }

  lemma SettledReward(l: Ledger, key: Key)
    requires Invariant(l) && l.funded <= UINT64_MAX && key in l.accounts && l.accounts[key].Modern?
    ensures var settled := Settle(l.accounts[key].holding.stake, l.treasury.stakeRewardsFactor);
      settled.Ok? && settled.value.rewards <= l.funded
  {
    hide Solvent, TotalWeight, TotalOwed;
    EarningCovered(l, key);
    AccountTallyWithin(AccountTally(l.accounts[key]), l.treasury.stakeRewardsFactor, l.funded);
    ShareFits(AccountTally(l.accounts[key]), l.treasury.stakeRewardsFactor, l.funded);
  }

  lemma AccountTallyWithin(t: Tally, factor: Fixed, funded: nat)
    requires Orderly(t, factor) && EarnedBy(t, factor) <= funded * ONE
    ensures t.rewards <= funded
  {
  }

  lemma CloseFits(l: Ledger, key: Key)
    requires Plausible(l) && TokensExist(l, CloseStakeV2(key))
    ensures CloseAccount(l, key) != Err(StakeOverflow)
  {
    hide Settle, Units, Solvent, TotalWeight, TotalOwed, Capped;
    if HoldingAt(l, key).Ok? {
      SettledReward(l, key);
    }
  }

  lemma UseFits(l: Ledger, key: Key, i: Instruction)
    requires Plausible(l)
    requires HoldingAt(l, key).Ok? ==> TotalBalance(l.accounts) + Incoming(l.accounts[key].holding, l, i) <= MAX_SUPPLY
    ensures UseStake(l, key, i) != Err(StakeOverflow)
  {
    if HoldingAt(l, key).Ok? {
      AccountRoomy(l, key);
      BalanceCovered(l.accounts, key);
      HandleFits(l.accounts[key].holding, l, i, CapOf(l, key));
    }
  }

  /** No instruction on a plausible ledger fails with StakeOverflow. */
  lemma StakeOverflowNeverHappens(l: Ledger, i: Instruction)
    requires Plausible(l) && TokensExist(l, i)
    ensures Step(l, i) != Err(StakeOverflow)
  {
    hide Invariant, Capped, OpenAccount, MergeAccounts, CloseAccount, UseStake;
    match i
    case DepositV2(key, vault, amount, lockDuration, wallet) => OpenFits(l, key, vault, amount, lockDuration, wallet);
    case MergeStakeV2(target, source) => MergeFits(l, target, source);
    case CloseStakeV2(key) => CloseFits(l, key);
    case WithdrawV1(key, amount) =>
    case ClaimYieldV1(key, amount) =>
    case BuryTokens(_) =>
    case Donate(_, _) =>
    case Wait(_) =>
    case _ => UseFits(l, i.key, i);
  }

  lemma TopUpBalance(h: Holding, t: Treasury, amount: uint64, now: int64, wallet: uint64)
    requires TopUp(h, t, amount, now, wallet).Ok?
    ensures TopUp(h, t, amount, now, wallet).value.holding.stake.balance == h.stake.balance + Min(amount, wallet)
  {
    MigrateWeightFrame(h.stake, t);
  }

  lemma WithdrawBalance(h: Holding, t: Treasury, amount: uint64, now: int64)
    requires WithdrawUnlocked(h, t, amount, now).Ok?
    ensures WithdrawUnlocked(h, t, amount, now).value.holding.stake.balance <= h.stake.balance
  {
    MigrateWeightFrame(h.stake, t);
  }

  lemma CompoundBalance(h: Holding, l: Ledger)
    requires Compound(h, l.treasury, l.now).Ok?
    ensures var o := Compound(h, l.treasury, l.now).value;
      forall key :: o.holding.stake.balance <= h.stake.balance + Incoming(h, l, CompoundYieldV2(key))
  {
    MigrateWeightFrame(h.stake, l.treasury);
  }

  lemma BoostBalance(h: Holding, t: Treasury)
    requires BoostWithNft(h, t).Ok?
    ensures BoostWithNft(h, t).value.holding.stake.balance == h.stake.balance
  {
    MigrateWeightFrame(h.stake, t);
  }

  lemma ReleaseBalance(h: Holding, t: Treasury)
    requires ReleaseNft(h, t).Ok?
    ensures ReleaseNft(h, t).value.holding.stake.balance == h.stake.balance
  {
    MigrateWeightFrame(h.stake, t);
  }

  lemma HandleBalance(h: Holding, l: Ledger, i: Instruction)
    requires Handle(h, l, i).Ok?
    ensures Handle(h, l, i).value.holding.stake.balance <= h.stake.balance + Incoming(h, l, i)
  {
    match i
    case TopUpV2(_, amount, wallet) => TopUpBalance(h, l.treasury, amount, l.now, wallet);
    case WithdrawV2(_, amount) => WithdrawBalance(h, l.treasury, amount, l.now);
    case ClaimYieldV2(_, amount) => SettleFrame(h.stake, l.treasury.stakeRewardsFactor);
    case CompoundYieldV2(_) => CompoundBalance(h, l);
    case MigrateStakeWeight(_) => MigrateWeightFrame(h.stake, l.treasury);
    case StakeNftV2(_) => BoostBalance(h, l.treasury);
    case UnstakeNftV2(_) => ReleaseBalance(h, l.treasury);
    case ReconcileStakeV2(_) => SettleFrame(h.stake, l.treasury.stakeRewardsFactor);
  }

  ghost function BalanceAt(accounts: map<Key, Account>, key: Key): nat {
    if key in accounts then Balance(accounts[key]) else 0
  }

  lemma BalancePut(accounts: map<Key, Account>, key: Key, a: Account)
    ensures TotalBalance(accounts[key := a]) == TotalBalance(accounts) - BalanceAt(accounts, key) + Balance(a)
  {
    assert BalancesOf(accounts[key := a]) == BalancesOf(accounts)[key := Balance(a)];
    SumPut(BalancesOf(accounts), key, Balance(a));
  }

  lemma OpenBalance(l: Ledger, key: Key, vault: nat, amount: uint64, lockDuration: int64, wallet: uint64)
    requires OpenAccount(l, key, vault, amount, lockDuration, wallet).Ok?
    ensures var n := OpenAccount(l, key, vault, amount, lockDuration, wallet).value;
      && key !in l.accounts && key in n.accounts && n.accounts == l.accounts[key := n.accounts[key]]
      && Balance(n.accounts[key]) == Min(amount, wallet)
  {
  }

  lemma MergeBalance(l: Ledger, target: Key, source: Key)
    requires MergeAccounts(l, target, source).Ok?
    ensures TotalBalance(MergeAccounts(l, target, source).value.accounts) == TotalBalance(l.accounts)
  {
    var n := MergeAccounts(l, target, source).value;
    var t, s := l.accounts[target].holding, l.accounts[source].holding;
    MergePricesLikeAFreshDeposit(t, s, l.treasury, l.now);
    BalanceCovered(l.accounts, source);
    BalancePut(l.accounts - {source}, target, n.accounts[target]);
  }

  lemma LegacyBalance(l: Ledger, key: Key, amount: uint64)
    ensures WithdrawLegacy(l, key, amount).Ok? ==> var n := WithdrawLegacy(l, key, amount).value;
      key in l.accounts && key in n.accounts && n.accounts == l.accounts[key := n.accounts[key]]
          && Balance(n.accounts[key]) <= Balance(l.accounts[key])
    ensures ClaimLegacy(l, key, amount).Ok? ==> var n := ClaimLegacy(l, key, amount).value;
      key in l.accounts && key in n.accounts && n.accounts == l.accounts[key := n.accounts[key]]
          && Balance(n.accounts[key]) <= Balance(l.accounts[key])
  {
  }

  lemma UseBalance(l: Ledger, key: Key, i: Instruction)
    requires UseStake(l, key, i).Ok?
    requires TotalBalance(l.accounts) + Incoming(l.accounts[key].holding, l, i) <= MAX_SUPPLY
    ensures TotalBalance(UseStake(l, key, i).value.accounts) <= MAX_SUPPLY
  {
    HandleBalance(l.accounts[key].holding, l, i);
    BalancePut(l.accounts, key, UseStake(l, key, i).value.accounts[key]);
  }

  lemma StepKeepsSupply(l: Ledger, i: Instruction)
    requires TotalBalance(l.accounts) <= MAX_SUPPLY && TokensExist(l, i) && Step(l, i).Ok?
    ensures TotalBalance(Step(l, i).value.accounts) <= MAX_SUPPLY
  {
    var n := Step(l, i).value;
    match i
    case DepositV2(key, vault, amount, lockDuration, wallet) =>
      OpenBalance(l, key, vault, amount, lockDuration, wallet);
      BalancePut(l.accounts, key, n.accounts[key]);
    case MergeStakeV2(target, source) => MergeBalance(l, target, source);
    case CloseStakeV2(key) => BalanceCovered(l.accounts, key);
    case WithdrawV1(key, amount) =>
      LegacyBalance(l, key, amount);
      BalancePut(l.accounts, key, n.accounts[key]);
    case ClaimYieldV1(key, amount) =>
      LegacyBalance(l, key, amount);
      BalancePut(l.accounts, key, n.accounts[key]);
    case BuryTokens(_) =>
    case Donate(key, _) => BalancePut(l.accounts, key, n.accounts[key]);
    case Wait(_) =>
    case _ => UseBalance(l, i.key, i);
  }

  lemma StepKeepsCap(l: Ledger, i: Instruction)
    requires Capped(l.accounts) && Step(l, i).Ok?
    ensures Capped(Step(l, i).value.accounts)
  {
    match i
    case DepositV2(key, vault, amount, lockDuration, wallet) => OpenIsPriced(l, key, vault, amount, lockDuration, wallet);
    case MergeStakeV2(target, source) =>
      MergePricesLikeAFreshDeposit(l.accounts[target].holding, l.accounts[source].holding, l.treasury, l.now);
    case CloseStakeV2(_) =>
    case WithdrawV1(_, _) =>
    case ClaimYieldV1(_, _) =>
    case BuryTokens(_) =>
    case Donate(_, _) =>
    case Wait(_) =>
    case _ => HandleKeepsPrice(l.accounts[i.key].holding, l, i);
  }

  /** The program's steps on the histories a token supply allows: balances come from tokens that
      exist, and fewer than 2^64 units are ever shared. */
  ghost function SuppliedStep(l: Ledger, i: Instruction): Result<Ledger> {
    if !TokensExist(l, i) then Err(InsufficientTokens)
    else
      var n :- Step(l, i);
      if n.funded <= UINT64_MAX then Ok(n) else Err(InsufficientTokens)
  }

  /** On such a history no instruction ever meets StakeOverflow, and the recorded total keeps
      a margin of nearly four. */
  lemma BookkeepingNeverOverflows(l: Ledger, history: seq<Instruction>, i: Instruction)
    requires Plausible(l)
    ensures var n := Runs.Run(SuppliedStep, l, history);
      && n.treasury.totalStaked <= MAX_WEIGHT_FACTOR * MAX_SUPPLY < UINT64_MAX / 3
      && (TokensExist(n, i) ==> Step(n, i) != Err(StakeOverflow))
  {
    forall s, j | Plausible(s) && SuppliedStep(s, j).Ok? ensures Plausible(SuppliedStep(s, j).value) {
      StepMoves(s, j);
      MoveKeepsInvariant(s, Step(s, j).value, MoveOf(s, Step(s, j).value, j));
      StepKeepsCap(s, j);
      StepKeepsSupply(s, j);
    }
    Runs.RunKeeps(SuppliedStep, Plausible, l, history);
    var n := Runs.Run(SuppliedStep, l, history);
    TotalStakedFits(n);
    if TokensExist(n, i) {
      StakeOverflowNeverHappens(n, i);
    }
  }
}
