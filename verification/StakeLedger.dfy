/** All stakes, their vaults and the treasury as one machine whose steps are the program's
    instructions. A failing instruction is rolled back. */
module StakeLedger {
  import opened Accumulator
  import opened Basics
  import opened FixedPoint
  import opened StakeAccounting
  import opened StakeHandlers
  import opened StakeState
  import opened TreasuryState
  import Bury
  import LegacyStake
  import Runs

  /** The address of a stake: v2 stakes are derived from owner and id, v1 stakes from the owner. */
  datatype Key = ModernKey(owner: nat, id: uint64) | LegacyKey(owner: nat)

  datatype Account =
    | Modern(holding: Holding)
    | Legacy(legacy: LegacyStake.Stake, vault: nat)

  /** `funded` is everything ever shared with stakers and `paid` everything ever paid to them. */
  datatype Ledger = Ledger(accounts: map<Key, Account>, treasury: Treasury, now: int64, funded: nat, paid: nat)

  /** The instructions, with the inputs they take from outside: token balances of the caller, the
      tokens a new vault already holds, the amount buried. `Donate` is a plain transfer into a vault. */
  datatype Instruction =
    | DepositV2(key: Key, vault: nat, amount: uint64, lockDuration: int64, wallet: uint64)
    | TopUpV2(key: Key, amount: uint64, wallet: uint64)
    | WithdrawV2(key: Key, amount: uint64)
    | ClaimYieldV2(key: Key, amount: uint64)
    | CompoundYieldV2(key: Key)
    | MigrateStakeWeight(key: Key)
    | StakeNftV2(key: Key)
    | UnstakeNftV2(key: Key)
    | ReconcileStakeV2(key: Key)
    | MergeStakeV2(target: Key, source: Key)
    | CloseStakeV2(key: Key)
    | WithdrawV1(key: Key, amount: uint64)
    | ClaimYieldV1(key: Key, amount: uint64)
    | BuryTokens(amount: uint64)
    | Donate(key: Key, gift: nat)
    | Wait(seconds: nat)

  ghost function HoldingAt(l: Ledger, key: Key): Result<Holding> {
    if key in l.accounts && l.accounts[key].Modern? then Ok(l.accounts[key].holding) else Err(MissingAccount)
  }

  ghost function LegacyAt(l: Ledger, key: Key): Result<Account> {
    if key in l.accounts && l.accounts[key].Legacy? then Ok(l.accounts[key]) else Err(MissingAccount)
  }

  ghost function Store(l: Ledger, key: Key, o: Outcome): Ledger {
    l.(accounts := l.accounts[key := Modern(o.holding)], treasury := o.treasury, paid := l.paid + o.paid)
  }

  /** The handler an instruction on one existing v2 stake runs. */
  ghost function Handle(h: Holding, l: Ledger, i: Instruction): Result<Outcome> {
    match i
    case TopUpV2(_, amount, wallet) => TopUp(h, l.treasury, amount, l.now, wallet)
    case WithdrawV2(_, amount) => WithdrawUnlocked(h, l.treasury, amount, l.now)
    case ClaimYieldV2(_, amount) => ClaimYield(h, l.treasury, amount, l.now)
    case CompoundYieldV2(_) => Compound(h, l.treasury, l.now)
    case MigrateStakeWeight(_) => Migrate(h, l.treasury)
    case StakeNftV2(_) => BoostWithNft(h, l.treasury)
    case UnstakeNftV2(_) => ReleaseNft(h, l.treasury)
    case ReconcileStakeV2(_) => Reconcile(h, l.treasury, l.now)
    case _ => Err(InvalidInstructionData)
  }

  ghost function OpenAccount(l: Ledger, key: Key, vault: nat, amount: uint64, lockDuration: int64, wallet: uint64): Result<Ledger> {
    if key in l.accounts then Err(StakeAlreadyExists)
    else if !key.ModernKey? then Err(InvalidAccountData)
    else
      var o :- Open(l.treasury, vault, amount, lockDuration, l.now, wallet);
      Ok(Store(l, key, o))
  }

  ghost function MergeAccounts(l: Ledger, target: Key, source: Key): Result<Ledger> {
    if target == source then Err(MergeSameStake)
    else
      var t :- HoldingAt(l, target);
      var s :- HoldingAt(l, source);
      var o :- Merge(t, s, l.treasury, l.now);
      Ok(Store(l.(accounts := l.accounts - {source}), target, o))
  }

  ghost function CloseAccount(l: Ledger, key: Key): Result<Ledger> {
    var h :- HoldingAt(l, key);
    var o :- Close(h, l.treasury, l.now);
    Ok(l.(accounts := l.accounts - {key}, treasury := o.treasury, paid := l.paid + o.paid))
  }

  ghost function WithdrawLegacy(l: Ledger, key: Key, amount: uint64): Result<Ledger> {
    var a :- LegacyAt(l, key);
    var c :- LegacyStake.Withdraw(a.legacy, l.treasury, amount, l.now);
    if a.vault < c.amount then Err(InsufficientTokens)
    else if a.vault - c.amount < c.stake.balance then Err(Panic)
    else Ok(l.(accounts := l.accounts[key := Legacy(c.stake, a.vault - c.amount)], treasury := c.treasury))
  }

  ghost function ClaimLegacy(l: Ledger, key: Key, amount: uint64): Result<Ledger> {
    var a :- LegacyAt(l, key);
    var c :- LegacyStake.Claim(a.legacy, l.treasury, amount, l.now);
    Ok(l.(accounts := l.accounts[key := Legacy(c.stake, a.vault)], treasury := c.treasury, paid := l.paid + c.amount))
  }

  ghost function ShareRewards(l: Ledger, amount: uint64): Result<Ledger> {
    var s :- Bury.Share(l.treasury, amount);
    Ok(l.(treasury := s.treasury, funded := l.funded + s.shared))
  }

  ghost function Give(l: Ledger, key: Key, gift: nat): Result<Ledger> {
    if key !in l.accounts then Err(MissingAccount)
    else Ok(l.(accounts := l.accounts[key := Enriched(l.accounts[key], gift)]))
  }

  ghost function UseStake(l: Ledger, key: Key, i: Instruction): Result<Ledger> {
    var h :- HoldingAt(l, key);
    var o :- Handle(h, l, i);
    Ok(Store(l, key, o))
  }

  ghost function Step(l: Ledger, i: Instruction): Result<Ledger> {
    match i
    case DepositV2(key, vault, amount, lockDuration, wallet) => OpenAccount(l, key, vault, amount, lockDuration, wallet)
    case MergeStakeV2(target, source) => MergeAccounts(l, target, source)
    case CloseStakeV2(key) => CloseAccount(l, key)
    case WithdrawV1(key, amount) => WithdrawLegacy(l, key, amount)
    case ClaimYieldV1(key, amount) => ClaimLegacy(l, key, amount)
    case BuryTokens(amount) => ShareRewards(l, amount)
    case Donate(key, gift) => Give(l, key, gift)
    case Wait(seconds) => if l.now + seconds > INT64_MAX then Err(Panic) else Ok(l.(now := l.now + seconds))
    case _ => UseStake(l, i.key, i)
  }

  ghost function Enriched(a: Account, amount: nat): Account {
    match a
    case Modern(h) => Modern(h.(vault := h.vault + amount))
    case Legacy(s, vault) => Legacy(s, vault + amount)
  }

  ghost function AccountTally(a: Account): Tally {
    match a
    case Modern(h) => TallyOf(h.stake)
    case Legacy(s, _) => LegacyTally(s)
  }

  ghost predicate AccountLive(a: Account, factor: Fixed) {
    && (a.Modern? ==> Units(a.holding.stake).Ok?)
    && Orderly(AccountTally(a), factor)
  }

  ghost function Claims(accounts: map<Key, Account>): map<Key, Position> {
    map k | k in accounts :: Claimable(AccountTally(accounts[k]))
  }

  ghost function Earnings(accounts: map<Key, Account>): map<Key, Position> {
    map k | k in accounts :: Earned(AccountTally(accounts[k]))
  }

  ghost predicate AllLive(accounts: map<Key, Account>, factor: Fixed) {
    forall k :: k in accounts ==> AccountLive(accounts[k], factor)
  }

  /** The two global laws: the recorded total is the sum of the weights, and rewards paid,
      settled and still to be settled are covered by what was shared. */
  ghost predicate Invariant(l: Ledger) {
    && AllLive(l.accounts, l.treasury.stakeRewardsFactor)
    && TotalWeight(Claims(l.accounts)) == l.treasury.totalStaked
    && Solvent(Claims(l.accounts), l.treasury.stakeRewardsFactor, ONE, l.paid, l.funded)
    && Solvent(Earnings(l.accounts), l.treasury.stakeRewardsFactor, ONE, 0, l.funded)
  }

  /** The abstract moves of a lazily settled ledger. */
  datatype Move =
    | Distributed(amount: nat)
    | Touched(key: Key, paid: nat)
    | Opened(key: Key)
    | Merged(target: Key, source: Key)
    | Closed(key: Key, paid: nat)

  ghost predicate SameShares(l: Ledger, n: Ledger, paid: nat) {
    && n.treasury == l.treasury.(totalStaked := n.treasury.totalStaked)
    && n.funded == l.funded
    && n.paid == l.paid + paid
  }

  ghost predicate TouchedTo(l: Ledger, n: Ledger, key: Key, paid: nat) {
    && key in l.accounts && key in n.accounts && n.accounts == l.accounts[key := n.accounts[key]]
    && SameShares(l, n, paid)
    && AccountLive(n.accounts[key], l.treasury.stakeRewardsFactor)
    && n.treasury.totalStaked == l.treasury.totalStaked - AccountTally(l.accounts[key]).weight + AccountTally(n.accounts[key]).weight
    && Honest(AccountTally(l.accounts[key]), AccountTally(n.accounts[key]), l.treasury.stakeRewardsFactor, paid)
  }

  ghost predicate OpenedTo(l: Ledger, n: Ledger, key: Key) {
    && key !in l.accounts && key in n.accounts && n.accounts == l.accounts[key := n.accounts[key]]
    && SameShares(l, n, 0)
    && AccountLive(n.accounts[key], l.treasury.stakeRewardsFactor)
    && n.treasury.totalStaked == l.treasury.totalStaked + AccountTally(n.accounts[key]).weight
    && AccountTally(n.accounts[key]) == Tally(0, 0, l.treasury.stakeRewardsFactor, AccountTally(n.accounts[key]).weight)
  }

  ghost predicate MergedTo(l: Ledger, n: Ledger, target: Key, source: Key) {
    && target != source && target in l.accounts && source in l.accounts && target in n.accounts
    && n.accounts == (l.accounts - {source})[target := n.accounts[target]]
    && SameShares(l, n, 0)
    && AccountLive(n.accounts[target], l.treasury.stakeRewardsFactor)
    && n.treasury.totalStaked == l.treasury.totalStaked - AccountTally(l.accounts[target]).weight
                                - AccountTally(l.accounts[source]).weight + AccountTally(n.accounts[target]).weight
    && Fused(AccountTally(l.accounts[target]), AccountTally(l.accounts[source]), AccountTally(n.accounts[target]),
        l.treasury.stakeRewardsFactor)
  }

  ghost predicate ClosedTo(l: Ledger, n: Ledger, key: Key, paid: nat) {
    && key in l.accounts && n.accounts == l.accounts - {key}
    && SameShares(l, n, paid) && n.treasury.totalStaked == l.treasury.totalStaked
    && AccountTally(l.accounts[key]).weight == 0 && paid == AccountTally(l.accounts[key]).rewards
    && paid * ONE <= OwedTo(AccountTally(l.accounts[key]), l.treasury.stakeRewardsFactor)
  }

  ghost predicate DistributedTo(l: Ledger, n: Ledger, amount: nat) {
    && n.accounts == l.accounts && n.paid == l.paid && n.funded == l.funded + amount
    && n.treasury.totalStaked == l.treasury.totalStaked
    && FloorShare(n.treasury.stakeRewardsFactor - l.treasury.stakeRewardsFactor, l.treasury.totalStaked, amount, ONE)
  }

  ghost predicate Moves(l: Ledger, n: Ledger, m: Move) {
    match m
    case Distributed(amount) => DistributedTo(l, n, amount)
    case Touched(key, paid) => TouchedTo(l, n, key, paid)
    case Opened(key) => OpenedTo(l, n, key)
    case Merged(target, source) => MergedTo(l, n, target, source)
    case Closed(key, paid) => ClosedTo(l, n, key, paid)
  }

  /** The move an instruction stands for when it takes l to n. */
  ghost function MoveOf(l: Ledger, n: Ledger, i: Instruction): Move {
    var paid := if l.paid <= n.paid then n.paid - l.paid else 0;
    match i
    case DepositV2(key, _, _, _, _) => Opened(key)
    case MergeStakeV2(target, source) => Merged(target, source)
    case CloseStakeV2(key) => Closed(key, paid)
    case BuryTokens(_) => Distributed(if l.funded <= n.funded then n.funded - l.funded else 0)
    case Wait(_) => Distributed(0)
    case _ => Touched(i.key, paid)
  }

  lemma HandleKept(h: Holding, l: Ledger, i: Instruction)
    requires Live(h.stake, l.treasury.stakeRewardsFactor) && Handle(h, l, i).Ok?
    ensures var o := Handle(h, l, i).value; Kept(h.stake, l.treasury, o.holding.stake, o.treasury, o.paid)
  {
    match i
    case TopUpV2(_, amount, wallet) => TopUpKept(h, l.treasury, amount, l.now, wallet);
    case WithdrawV2(_, amount) => WithdrawUnlockedKept(h, l.treasury, amount, l.now);
    case ClaimYieldV2(_, amount) => ClaimKept(h.stake, l.treasury, amount, l.now);
    case CompoundYieldV2(_) => CompoundKept(h, l.treasury, l.now);
    case MigrateStakeWeight(_) => MigrateWeightKept(h.stake, l.treasury);
    case StakeNftV2(_) => NftKept(h.stake, l.treasury, 1);
    case UnstakeNftV2(_) => NftKept(h.stake, l.treasury, 0);
    case ReconcileStakeV2(_) => WithdrawKept(h.stake, l.treasury, Max(h.stake.balance - h.vault, 0), l.now);
  }

  lemma OpenMoves(l: Ledger, key: Key, vault: nat, amount: uint64, lockDuration: int64, wallet: uint64)
    requires OpenAccount(l, key, vault, amount, lockDuration, wallet).Ok?
    ensures OpenedTo(l, OpenAccount(l, key, vault, amount, lockDuration, wallet).value, key)
  {
    var empty := FreshStake(lockDuration, l.now, l.treasury.stakeRewardsFactor);
    assert Units(empty) == Ok(0);
    DepositKept(empty, l.treasury, amount, l.now, wallet);
  }

  lemma MergeMoves(l: Ledger, target: Key, source: Key)
    requires Invariant(l) && MergeAccounts(l, target, source).Ok?
    ensures MergedTo(l, MergeAccounts(l, target, source).value, target, source)
  {
    hide Solvent, TotalWeight;
    MergeFused(l.accounts[target].holding, l.accounts[source].holding, l.treasury, l.now);
  }

  lemma WeightlessEarnsNothing(s: Stake, factor: Fixed)
    requires s.balance == 0 && s.isNftStaked == 0 && Settle(s, factor).Ok?
    ensures Settle(s, factor).value.rewards == s.rewards && Weight(s) == 0
  {
    if s.rewardsFactor < factor {
      AccruedFloor(factor - s.rewardsFactor, 0);
    }
  }

  lemma CloseMoves(l: Ledger, key: Key)
    requires Invariant(l) && CloseAccount(l, key).Ok?
    ensures var n := CloseAccount(l, key).value; l.paid <= n.paid && ClosedTo(l, n, key, n.paid - l.paid)
  {
    var s := l.accounts[key].holding.stake;
    ClaimKept(s, l.treasury, UINT64_MAX, l.now);
    WeightlessEarnsNothing(s, l.treasury.stakeRewardsFactor);
    OwedNonNegative(Claimable(TallyOf(Claim(s, l.treasury, UINT64_MAX, l.now).value.stake)), l.treasury.stakeRewardsFactor, ONE);
  }

  lemma LegacyMoves(l: Ledger, key: Key, amount: uint64)
    requires Invariant(l)
    ensures WithdrawLegacy(l, key, amount).Ok? ==> TouchedTo(l, WithdrawLegacy(l, key, amount).value, key, 0)
    ensures ClaimLegacy(l, key, amount).Ok? ==>
      var n := ClaimLegacy(l, key, amount).value; l.paid <= n.paid && TouchedTo(l, n, key, n.paid - l.paid)
  {
    if WithdrawLegacy(l, key, amount).Ok? {
      LegacyWithdrawKept(l.accounts[key].legacy, l.treasury, amount, l.now);
    }
    if ClaimLegacy(l, key, amount).Ok? {
      LegacyClaimKept(l.accounts[key].legacy, l.treasury, amount, l.now);
    }
  }

  lemma UseMoves(l: Ledger, key: Key, i: Instruction)
    requires Invariant(l) && UseStake(l, key, i).Ok?
    ensures var n := UseStake(l, key, i).value; l.paid <= n.paid && TouchedTo(l, n, key, n.paid - l.paid)
  {
    hide Solvent, TotalWeight, Handle, Owed;
    HandleKept(l.accounts[key].holding, l, i);
  }

  lemma ShareMoves(l: Ledger, amount: uint64)
    requires ShareRewards(l, amount).Ok?
    ensures var n := ShareRewards(l, amount).value; l.funded <= n.funded && DistributedTo(l, n, n.funded - l.funded)
  {
    Bury.ShareCost(l.treasury, amount);
  }

  lemma GiveMoves(l: Ledger, key: Key, gift: nat)
    requires Invariant(l) && Give(l, key, gift).Ok?
    ensures TouchedTo(l, Give(l, key, gift).value, key, 0)
  {
  }

  /** Every committed instruction is one abstract move. */
  lemma StepMoves(l: Ledger, i: Instruction)
    requires Invariant(l) && Step(l, i).Ok?
    ensures Moves(l, Step(l, i).value, MoveOf(l, Step(l, i).value, i))
  {
    hide Solvent, TotalWeight, AllLive, AccountLive, Honest, OpenedTo, MergedTo, ClosedTo;
    hide Handle, OpenAccount, MergeAccounts, CloseAccount, WithdrawLegacy, ClaimLegacy, ShareRewards, Give;
    match i
    case DepositV2(key, vault, amount, lockDuration, wallet) => OpenMoves(l, key, vault, amount, lockDuration, wallet);
    case MergeStakeV2(target, source) => MergeMoves(l, target, source);
    case CloseStakeV2(key) => CloseMoves(l, key);
    case WithdrawV1(key, amount) => LegacyMoves(l, key, amount);
    case ClaimYieldV1(key, amount) => LegacyMoves(l, key, amount);
    case BuryTokens(amount) => ShareMoves(l, amount);
    case Donate(key, gift) => GiveMoves(l, key, gift);
    case Wait(_) =>
    case _ => UseMoves(l, i.key, i);
  }

  lemma DistributionKeeps(l: Ledger, n: Ledger, amount: nat)
    requires Invariant(l) && DistributedTo(l, n, amount)
    ensures Invariant(n)
  {
    hide Solvent, TotalWeight;
    SharedFactor(l, n.treasury.stakeRewardsFactor, amount);
    LiveLater(l.accounts, l.treasury.stakeRewardsFactor, n.treasury.stakeRewardsFactor);
  }

  lemma LiveLater(accounts: map<Key, Account>, factor: Fixed, later: Fixed)
    requires AllLive(accounts, factor) && factor <= later
    ensures AllLive(accounts, later)
  {
  }

  lemma SharedFactor(l: Ledger, later: Fixed, amount: nat)
    requires Invariant(l)
    requires FloorShare(later - l.treasury.stakeRewardsFactor, l.treasury.totalStaked, amount, ONE)
    ensures Solvent(Claims(l.accounts), later, ONE, l.paid, l.funded + amount)
    ensures Solvent(Earnings(l.accounts), later, ONE, 0, l.funded + amount)
  {
    hide Solvent, FloorShare, TotalOwed;
    SolventDistribute(Claims(l.accounts), l.treasury.stakeRewardsFactor, later, ONE, l.paid, l.funded, amount, l.treasury.totalStaked);
    EarningsDistribute(l, later, amount);
  }

  lemma EarningsDistribute(l: Ledger, later: Fixed, amount: nat)
    requires Invariant(l)
    requires FloorShare(later - l.treasury.stakeRewardsFactor, l.treasury.totalStaked, amount, ONE)
    ensures Solvent(Earnings(l.accounts), later, ONE, 0, l.funded + amount)
  {
    hide Solvent, FloorShare, TotalOwed;
    EarningsWeigh(l);
    SolventDistribute(Earnings(l.accounts), l.treasury.stakeRewardsFactor, later, ONE, 0, l.funded, amount, l.treasury.totalStaked);
  }

  /** Covers both a step on an existing account and the opening of a new one. */
  lemma PutKeeps(l: Ledger, n: Ledger, key: Key, paid: nat)
    requires Invariant(l) && SameShares(l, n, paid)
    requires key in n.accounts && n.accounts == l.accounts[key := n.accounts[key]]
    requires AccountLive(n.accounts[key], l.treasury.stakeRewardsFactor)
    requires n.treasury.totalStaked == l.treasury.totalStaked - WeightAt(Claims(l.accounts), key) + AccountTally(n.accounts[key]).weight
    requires OwedTo(AccountTally(n.accounts[key]), l.treasury.stakeRewardsFactor) + paid * ONE
          <= OwedAt(Claims(l.accounts), key, l.treasury.stakeRewardsFactor, ONE)
    requires EarnedBy(AccountTally(n.accounts[key]), l.treasury.stakeRewardsFactor)
          <= OwedAt(Earnings(l.accounts), key, l.treasury.stakeRewardsFactor, ONE)
    ensures Invariant(n)
  {
    hide Solvent, Owed, TotalOwed, TotalWeight, OwedAt, WeightAt;
    var factor := l.treasury.stakeRewardsFactor;
    var q := AccountTally(n.accounts[key]);
    assert Claims(n.accounts) == Claims(l.accounts)[key := Claimable(q)];
    assert Earnings(n.accounts) == Earnings(l.accounts)[key := Earned(q)];
    SolventPut(Claims(l.accounts), factor, ONE, l.paid, l.funded, key, Claimable(q), paid);
    SolventPut(Earnings(l.accounts), factor, ONE, 0, l.funded, key, Earned(q), 0);
    PutPosition(Claims(l.accounts), key, Claimable(q), factor, ONE);
  }

  lemma TouchKeeps(l: Ledger, n: Ledger, key: Key, paid: nat)
    requires Invariant(l) && TouchedTo(l, n, key, paid)
    ensures Invariant(n)
  {
    hide Invariant, AccountLive, Owed;
    PutKeeps(l, n, key, paid);
  }

  lemma OpenKeeps(l: Ledger, n: Ledger, key: Key)
    requires Invariant(l) && OpenedTo(l, n, key)
    ensures Invariant(n)
  {
    hide Invariant, AccountLive;
    PutKeeps(l, n, key, 0);
  }

  lemma MergeKeeps(l: Ledger, n: Ledger, target: Key, source: Key)
    requires Invariant(l) && MergedTo(l, n, target, source)
    ensures Invariant(n)
  {
    hide Solvent, Owed, TotalOwed, TotalWeight;
    var factor := l.treasury.stakeRewardsFactor;
    var q := AccountTally(n.accounts[target]);
    assert Claims(n.accounts) == (Claims(l.accounts) - {source})[target := Claimable(q)];
    assert Earnings(n.accounts) == (Earnings(l.accounts) - {source})[target := Earned(q)];
    SolventMerge(Claims(l.accounts), factor, ONE, l.paid, l.funded, target, source, Claimable(q));
    SolventMerge(Earnings(l.accounts), factor, ONE, 0, l.funded, target, source, Earned(q));
  }

  lemma CloseKeeps(l: Ledger, n: Ledger, key: Key, paid: nat)
    requires Invariant(l) && ClosedTo(l, n, key, paid)
    ensures Invariant(n)
  {
    hide Solvent, TotalOwed, TotalWeight;
    var factor := l.treasury.stakeRewardsFactor;
    assert Claims(n.accounts) == Claims(l.accounts) - {key};
    assert Earnings(n.accounts) == Earnings(l.accounts) - {key};
    OwedNonNegative(Earnings(l.accounts)[key], factor, ONE);
    SolventDrop(Claims(l.accounts), factor, ONE, l.paid, l.funded, key, paid);
    SolventDrop(Earnings(l.accounts), factor, ONE, 0, l.funded, key, 0);
    DropPosition(Claims(l.accounts), key, factor, ONE);
  }

  /** Both laws survive every abstract move. */
  lemma MoveKeepsInvariant(l: Ledger, n: Ledger, m: Move)
    requires Invariant(l) && Moves(l, n, m)
    ensures Invariant(n)
  {
    hide Invariant, DistributedTo, TouchedTo, OpenedTo, MergedTo, ClosedTo;
    match m
    case Distributed(amount) => DistributionKeeps(l, n, amount);
    case Touched(key, paid) => TouchKeeps(l, n, key, paid);
    case Opened(key) => OpenKeeps(l, n, key);
    case Merged(target, source) => MergeKeeps(l, n, target, source);
    case Closed(key, paid) => CloseKeeps(l, n, key, paid);
  }

  lemma EarningsWeigh(l: Ledger)
    ensures TotalWeight(Earnings(l.accounts)) == TotalWeight(Claims(l.accounts))
  {
    assert WeightMap(Earnings(l.accounts)) == WeightMap(Claims(l.accounts));
  }

  /** In every state any history can reach, both laws hold. */
  lemma RunKeepsInvariant(l: Ledger, history: seq<Instruction>)
    requires Invariant(l)
    ensures Invariant(Runs.Run(Step, l, history))
  {
    forall s, i | Invariant(s) && Step(s, i).Ok? ensures Invariant(Step(s, i).value) {
      StepMoves(s, i);
      MoveKeepsInvariant(s, Step(s, i).value, MoveOf(s, Step(s, i).value, i));
    }
    Runs.RunKeeps(Step, Invariant, l, history);
  }
}
