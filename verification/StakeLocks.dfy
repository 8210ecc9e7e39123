/** Locks and backing: a vault always covers its recorded balance, an unlock time never moves
    earlier, and a balance falls only once its lock has run out. */
module StakeLocks {
  import opened Basics
  import opened MapSums
  import opened StakeAccounting
  import opened StakeCurve
  import opened StakeHandlers
  import opened StakeLedger
  import opened StakeState
  import opened TreasuryState
  import Runs

  ghost predicate HoldingBacked(h: Holding, now: int64) {
    h.stake.balance <= h.vault && h.stake.createdAt <= now
  }

  ghost predicate AccountBacked(a: Account, now: int64) {
    match a
    case Modern(h) => HoldingBacked(h, now)
    case Legacy(s, vault) => s.balance <= vault
  }

  ghost predicate Backed(l: Ledger) {
    forall k :: k in l.accounts ==> AccountBacked(l.accounts[k], l.now)
  }

  /** What one instruction may do to the lock and the balance of the stake it uses. */
  ghost predicate LockRespected(before: Stake, after: Stake, now: int64) {
    && UnlockAt(before) <= UnlockAt(after)
    && (after.balance < before.balance ==> UnlockAt(before) <= now)
  }

  lemma TopUpLocks(h: Holding, t: Treasury, amount: uint64, now: int64, wallet: uint64)
    requires HoldingBacked(h, now) && TopUp(h, t, amount, now, wallet).Ok?
    ensures var o := TopUp(h, t, amount, now, wallet).value;
      && HoldingBacked(o.holding, now) && LockRespected(h.stake, o.holding.stake, now)
      && o.holding.stake.balance == h.stake.balance + amount && o.holding.vault == h.vault + amount
  {
    MigrateWeightFrame(h.stake, t);
  }

  lemma WithdrawLocks(h: Holding, t: Treasury, amount: uint64, now: int64)
    requires HoldingBacked(h, now) && WithdrawUnlocked(h, t, amount, now).Ok?
    ensures var o := WithdrawUnlocked(h, t, amount, now).value;
      && HoldingBacked(o.holding, now) && LockRespected(h.stake, o.holding.stake, now)
      && o.moved == Min(amount, h.stake.balance)
      && o.holding.stake.balance == h.stake.balance - o.moved && o.holding.vault == h.vault - o.moved
  {
    MigrateWeightFrame(h.stake, t);
  }

  lemma CompoundLocks(h: Holding, t: Treasury, now: int64)
    requires HoldingBacked(h, now) && Compound(h, t, now).Ok?
    ensures var o := Compound(h, t, now).value;
      && HoldingBacked(o.holding, now) && LockRespected(h.stake, o.holding.stake, now)
      && o.holding.stake.balance == h.stake.balance + (o.paid - o.paid / 100)
      && o.holding.vault == h.vault + (o.paid - o.paid / 100)
  {
    MigrateWeightFrame(h.stake, t);
  }

  lemma BoostLocks(h: Holding, t: Treasury, now: int64)
    requires HoldingBacked(h, now) && BoostWithNft(h, t).Ok?
    ensures var o := BoostWithNft(h, t).value; HoldingBacked(o.holding, now) && LockRespected(h.stake, o.holding.stake, now)
  {
    hide Units, MigrateWeight, Reweigh;
    MigrateWeightFrame(h.stake, t);
  }

  lemma ReleaseLocks(h: Holding, t: Treasury, now: int64)
    requires HoldingBacked(h, now) && ReleaseNft(h, t).Ok?
    ensures var o := ReleaseNft(h, t).value; HoldingBacked(o.holding, now) && LockRespected(h.stake, o.holding.stake, now)
  {
    hide Units, MigrateWeight, Reweigh;
    MigrateWeightFrame(h.stake, t);
  }

  /** A stake whose vault backs it has nothing to reconcile. */
  lemma ReconcileWithdrawsNothing(h: Holding, t: Treasury, now: int64)
    requires HoldingBacked(h, now) && Reconcile(h, t, now).Ok?
    ensures var o := Reconcile(h, t, now).value;
      && o.moved == 0 && o.treasury == t && o.holding.vault == h.vault
      && o.holding.stake.balance == h.stake.balance && Units(o.holding.stake) == Units(h.stake)
      && HoldingBacked(o.holding, now) && LockRespected(h.stake, o.holding.stake, now)
  {
  }

  lemma HandleLocks(h: Holding, l: Ledger, i: Instruction)
    requires HoldingBacked(h, l.now) && Handle(h, l, i).Ok?
    ensures var o := Handle(h, l, i).value; HoldingBacked(o.holding, l.now) && LockRespected(h.stake, o.holding.stake, l.now)
  {
    match i
    case TopUpV2(_, amount, wallet) => TopUpLocks(h, l.treasury, amount, l.now, wallet);
    case WithdrawV2(_, amount) => WithdrawLocks(h, l.treasury, amount, l.now);
    case ClaimYieldV2(_, amount) =>
    case CompoundYieldV2(_) => CompoundLocks(h, l.treasury, l.now);
    case MigrateStakeWeight(_) => MigrateWeightFrame(h.stake, l.treasury);
    case StakeNftV2(_) => BoostLocks(h, l.treasury, l.now);
    case UnstakeNftV2(_) => ReleaseLocks(h, l.treasury, l.now);
    case ReconcileStakeV2(_) => ReconcileWithdrawsNothing(h, l.treasury, l.now);
  }

  /** A merged stake unlocks no earlier than either part and holds exactly both balances. */
  lemma MergeLocks(target: Holding, source: Holding, t: Treasury, now: int64)
    requires HoldingBacked(target, now) && HoldingBacked(source, now) && Merge(target, source, t, now).Ok?
    ensures var o := Merge(target, source, t, now).value;
      && HoldingBacked(o.holding, now)
      && LockRespected(target.stake, o.holding.stake, now) && UnlockAt(source.stake) <= UnlockAt(o.holding.stake)
      && o.holding.stake.balance == target.stake.balance + source.stake.balance
      && o.holding.vault == target.vault + source.vault
  {
    PairFrame(target.stake, source.stake, t);
  }

  /** A lock lasts its whole duration, counted from the deposit, from the last top-up, or from the merge
      with the longer of both: only a clock at its end cuts it short. */
  lemma LocksLastTheirDuration(l: Ledger, i: Instruction)
    requires (i.DepositV2? || i.TopUpV2? || i.MergeStakeV2?) && Step(l, i).Ok?
    ensures var n := Step(l, i).value;
      match i
      case DepositV2(key, _, amount, lockDuration, _) =>
        && key in n.accounts && n.accounts[key].Modern? && n.accounts[key].holding.stake.balance == amount
        && 0 <= lockDuration <= MAX_LOCK_DURATION && UnlockAt(n.accounts[key].holding.stake) == Min(l.now + lockDuration, INT64_MAX)
      case TopUpV2(key, _, _) =>
        && key in l.accounts && key in n.accounts && l.accounts[key].Modern? && n.accounts[key].Modern?
        && UnlockAt(n.accounts[key].holding.stake) == Min(l.now + Max(l.accounts[key].holding.stake.lockDuration, 0), INT64_MAX)
      case MergeStakeV2(target, source) =>
        && target in l.accounts && source in l.accounts && target in n.accounts
        && l.accounts[target].Modern? && l.accounts[source].Modern? && n.accounts[target].Modern?
        && UnlockAt(n.accounts[target].holding.stake)
             == Min(l.now + Max(Max(l.accounts[target].holding.stake.lockDuration, l.accounts[source].holding.stake.lockDuration), 0), INT64_MAX)
  {
    hide MigrateWeight, SettlePair, Reweigh, Units;
    match i
    case DepositV2(_, _, _, _, _) =>
    case TopUpV2(key, _, _) => MigrateWeightFrame(l.accounts[key].holding.stake, l.treasury);
    case MergeStakeV2(target, source) => PairFrame(l.accounts[target].holding.stake, l.accounts[source].holding.stake, l.treasury);
  }

  /** The change one instruction may make to any one account. */
  ghost predicate AccountRespected(l: Ledger, n: Ledger, i: Instruction, key: Key)
    requires key in l.accounts && l.accounts[key].Modern?
  {
    var before := l.accounts[key].holding.stake;
    if key in n.accounts then
      n.accounts[key].Modern? && LockRespected(before, n.accounts[key].holding.stake, l.now)
    else
      || (i == CloseStakeV2(key) && before.balance == 0)
      || (i.MergeStakeV2? && i.source == key && key in l.accounts && i.target in n.accounts && n.accounts[i.target].Modern?
          && var merged := n.accounts[i.target].holding.stake;
             UnlockAt(before) <= UnlockAt(merged) && before.balance <= merged.balance)
  }

  lemma StepRespectsLocks(l: Ledger, i: Instruction)
    requires Backed(l) && Step(l, i).Ok?
    ensures Backed(Step(l, i).value) && l.now <= Step(l, i).value.now
    ensures forall k :: k in l.accounts && l.accounts[k].Modern? ==> AccountRespected(l, Step(l, i).value, i, k)
  {
    hide Handle, OpenAccount, CloseAccount, WithdrawLegacy, ClaimLegacy, Merge;
    match i
    case DepositV2(key, vault, amount, lockDuration, wallet) => OpenBacked(l, key, vault, amount, lockDuration, wallet);
    case MergeStakeV2(target, source) => MergeLocks(l.accounts[target].holding, l.accounts[source].holding, l.treasury, l.now);
    case CloseStakeV2(key) => CloseBacked(l, key);
    case WithdrawV1(key, amount) => LegacyBacked(l, key, amount);
    case ClaimYieldV1(key, amount) => LegacyBacked(l, key, amount);
    case BuryTokens(_) =>
    case Donate(_, _) =>
    case Wait(_) =>
    case _ => HandleLocks(l.accounts[i.key].holding, l, i);
  }

  lemma OpenBacked(l: Ledger, key: Key, vault: nat, amount: uint64, lockDuration: int64, wallet: uint64)
    requires Backed(l) && OpenAccount(l, key, vault, amount, lockDuration, wallet).Ok?
    ensures var n := OpenAccount(l, key, vault, amount, lockDuration, wallet).value;
      key !in l.accounts && n.now == l.now && n.accounts == l.accounts[key := n.accounts[key]] && AccountBacked(n.accounts[key], l.now)
  {
  }

  lemma CloseBacked(l: Ledger, key: Key)
    requires CloseAccount(l, key).Ok?
    ensures var n := CloseAccount(l, key).value;
      key in l.accounts && n.now == l.now && n.accounts == l.accounts - {key} && l.accounts[key].holding.stake.balance == 0
  {
  }

  lemma LegacyBacked(l: Ledger, key: Key, amount: uint64)
    requires Backed(l)
    ensures WithdrawLegacy(l, key, amount).Ok? ==> var n := WithdrawLegacy(l, key, amount).value;
      key in l.accounts && l.accounts[key].Legacy? && n.now == l.now && n.accounts == l.accounts[key := n.accounts[key]]
          && AccountBacked(n.accounts[key], l.now)
    ensures ClaimLegacy(l, key, amount).Ok? ==> var n := ClaimLegacy(l, key, amount).value;
      key in l.accounts && l.accounts[key].Legacy? && n.now == l.now && n.accounts == l.accounts[key := n.accounts[key]]
          && AccountBacked(n.accounts[key], l.now)
  {
  }

  /** Backing holds in every reachable state. */
  lemma RunKeepsBacking(l: Ledger, history: seq<Instruction>)
    requires Backed(l)
    ensures Backed(Runs.Run(Step, l, history))
  {
    forall s, i | Backed(s) && Step(s, i).Ok? ensures Backed(Step(s, i).value) {
      StepRespectsLocks(s, i);
    }
    Runs.RunKeeps(Step, Backed, l, history);
  }

  /** A stake that still holds at least as much, backed by its vault, for at least as long. */
  ghost predicate StillLocked(a: Account, balance: nat, unlockAt: int) {
    && a.Modern? && balance <= a.holding.stake.balance <= a.holding.vault
    && unlockAt <= UnlockAt(a.holding.stake)
  }

  /** Until its unlock time no history takes anything out of a stake. However often it is folded
      into others, some stake still holds all of it, locked at least as long. */
  lemma {:induction false} LockedBalanceStays(l: Ledger, history: seq<Instruction>, key: Key)
    requires Backed(l) && key in l.accounts && l.accounts[key].Modern?
    requires 0 < l.accounts[key].holding.stake.balance
    requires Runs.Run(Step, l, history).now < UnlockAt(l.accounts[key].holding.stake)
    ensures var n, s := Runs.Run(Step, l, history), l.accounts[key].holding.stake;
      && (exists k :: k in n.accounts && StillLocked(n.accounts[k], s.balance, UnlockAt(s)))
      && ((forall i :: i in history ==> !(i.MergeStakeV2? && i.source == key)) ==>
            key in n.accounts && StillLocked(n.accounts[key], s.balance, UnlockAt(s)))
    decreases |history|
  {
    if history == [] {
      assert StillLocked(l.accounts[key], l.accounts[key].holding.stake.balance, UnlockAt(l.accounts[key].holding.stake));
    } else {
      var i, rest := history[0], history[1..];
      var m := Runs.Commit(l, Step(l, i));
      assert i in history && forall j :: j in rest ==> j in history;
      RunOnlyMovesForward(m, rest);
      if Step(l, i).Ok? {
        StepRespectsLocks(l, i);
        assert AccountRespected(l, m, i, key);
      }
      LockedBalanceStays(m, rest, if key in m.accounts then key else i.target);
    }
  }

  /** What is in the stakes that stay locked until time t or later. */
  ghost function LockedUntil(accounts: map<Key, Account>, t: int): map<Key, int> {
    map k | k in accounts :: Locked(accounts[k], t)
  }

  ghost function Locked(a: Account, t: int): nat {
    if a.Modern? && t <= UnlockAt(a.holding.stake) then a.holding.stake.balance else 0
  }

  lemma OneStaysLocked(l: Ledger, n: Ledger, i: Instruction, t: int, key: Key)
    requires key in l.accounts && (l.accounts[key].Modern? ==> AccountRespected(l, n, i, key)) && l.now < t
    requires key in n.accounts || !i.MergeStakeV2?
    ensures Locked(l.accounts[key], t) <= At(LockedUntil(n.accounts, t), key)
  {
  }

  lemma MergeStaysLocked(l: Ledger, target: Key, source: Key, t: int)
    requires Backed(l) && MergeAccounts(l, target, source).Ok? && l.now < t
    ensures Sum(LockedUntil(l.accounts, t)) <= Sum(LockedUntil(MergeAccounts(l, target, source).value.accounts, t))
  {
    hide Merge, Sum;
    var n := MergeAccounts(l, target, source).value;
    MergeLocks(l.accounts[target].holding, l.accounts[source].holding, l.treasury, l.now);
    var locked := LockedUntil(l.accounts, t);
    assert LockedUntil(n.accounts, t) == (locked - {source})[target := Locked(n.accounts[target], t)];
    SumRemove(locked, source);
    SumPut(locked - {source}, target, Locked(n.accounts[target], t));
  }

  lemma StepKeepsLocked(l: Ledger, i: Instruction, t: int)
    requires Backed(l) && Step(l, i).Ok? && l.now < t
    ensures Sum(LockedUntil(l.accounts, t)) <= Sum(LockedUntil(Step(l, i).value.accounts, t))
  {
    hide Sum, Locked, Handle, OpenAccount, CloseAccount, WithdrawLegacy, ClaimLegacy, MergeAccounts, AccountRespected, Backed;
    if i.MergeStakeV2? {
      MergeStaysLocked(l, i.target, i.source, t);
    } else {
      StepRespectsLocks(l, i);
      var n := Step(l, i).value;
      forall k | k in l.accounts ensures Locked(l.accounts[k], t) <= At(LockedUntil(n.accounts, t), k) {
        OneStaysLocked(l, n, i, t, k);
      }
      SumUnder(LockedUntil(l.accounts, t), LockedUntil(n.accounts, t));
    }
  }

  /** Nor do merges lose any of it between them: before any time t, all that is locked until t or
      later, over all stakes together, never falls. */
  lemma {:induction false} LockedValueNeverFalls(l: Ledger, history: seq<Instruction>, t: int)
    requires Backed(l) && Runs.Run(Step, l, history).now < t
    ensures Sum(LockedUntil(l.accounts, t)) <= Sum(LockedUntil(Runs.Run(Step, l, history).accounts, t))
    decreases |history|
  {
    hide Step, Sum, LockedUntil, Backed;
    if history != [] {
      var i, rest := history[0], history[1..];
      RunOnlyMovesForward(l, history);
      if Step(l, i).Ok? {
        StepRespectsLocks(l, i);
        StepKeepsLocked(l, i, t);
      }
      LockedValueNeverFalls(Runs.Commit(l, Step(l, i)), rest, t);
    }
  }

  lemma {:induction false} RunOnlyMovesForward(l: Ledger, history: seq<Instruction>)
    ensures l.now <= Runs.Run(Step, l, history).now
    decreases |history|
  {
    if history != [] {
      StepOnlyMovesForward(l, history[0]);
      RunOnlyMovesForward(Runs.Commit(l, Step(l, history[0])), history[1..]);
    }
  }

  lemma StepOnlyMovesForward(l: Ledger, i: Instruction)
    ensures Step(l, i).Ok? ==> l.now <= Step(l, i).value.now
  {
  }
}
