/** The promises of the staking program, for every history of instructions. */
module StakeTheorems {
  import opened Accumulator
  import opened Basics
  import opened FairShare
  import opened FixedPoint
  import opened MapSums
  import opened StakeAccounting
  import opened StakeHandlers
  import opened StakeLedger
  import opened StakeState
  import opened TreasuryState
  import LegacyStake
  import Runs

  /** A ledger nobody has used yet is lawful. */
  lemma EmptyLedgerIsLawful(now: int64)
    ensures Invariant(Ledger(map[], Treasury(0, 0, 0, 0, 0, 0, 0), now, 0, 0))
  {
    var l := Ledger(map[], Treasury(0, 0, 0, 0, 0, 0, 0), now, 0, 0);
    assert WeightMap(Claims(l.accounts)) == map[];
    assert OwedMap(Claims(l.accounts), 0, ONE) == map[];
    assert OwedMap(Earnings(l.accounts), 0, ONE) == map[];
  }

  ghost function AccountUnits(a: Account): Result<uint64> {
    match a
    case Modern(h) => Units(h.stake)
    case Legacy(s, _) => Ok(s.balance)
  }

  ghost function UnitsOf(accounts: map<Key, Account>): map<Key, int> {
    map k | k in accounts :: if AccountUnits(accounts[k]).Ok? then AccountUnits(accounts[k]).value else 0
  }

  lemma UnitsAreWeights(accounts: map<Key, Account>)
    ensures WeightMap(Claims(accounts)) == UnitsOf(accounts)
  {
  }

  /** After any history `totalStaked` is the sum of the weights of all live stakes. */
  lemma TotalStakedIsTheSumOfWeights(l: Ledger, history: seq<Instruction>)
    requires Invariant(l)
    ensures var n := Runs.Run(Step, l, history);
      && (forall k :: k in n.accounts ==> AccountUnits(n.accounts[k]).Ok?)
      && n.treasury.totalStaked == Sum(UnitsOf(n.accounts))
  {
    hide Solvent, Step, Runs.Run, TotalOwed;
    RunKeepsInvariant(l, history);
    var n := Runs.Run(Step, l, history);
    UnitsAreWeights(n.accounts);
  }

  /** What an account could claim if it were settled right now. */
  ghost function Payable(a: Account, factor: Fixed): nat {
    match a
    case Modern(h) => (var s := Settle(h.stake, factor); if s.Ok? then s.value.rewards else h.stake.rewards)
    case Legacy(v, _) => (var s := LegacyStake.Settle(v, factor); if s.Ok? then s.value.rewards else v.rewards)
  }

  ghost function PayableOf(accounts: map<Key, Account>, factor: Fixed): map<Key, int> {
    map k | k in accounts :: Payable(accounts[k], factor)
  }

  lemma SettledWithinOwed(t: Tally, factor: Fixed, s: Tally)
    requires Orderly(t, factor) && Honest(t, s, factor, 0)
    ensures s.rewards * ONE <= OwedTo(t, factor)
  {
    OwedNonNegative(Position(0, s.snapshot, s.weight), factor, ONE);
  }

  lemma UnsettledWithinOwed(t: Tally, factor: Fixed)
    requires Orderly(t, factor)
    ensures t.rewards * ONE <= OwedTo(t, factor)
  {
    OwedNonNegative(Position(0, t.snapshot, t.weight), factor, ONE);
  }

  lemma PayableWithinOwed(a: Account, factor: Fixed)
    requires AccountLive(a, factor)
    ensures Payable(a, factor) * ONE <= OwedTo(AccountTally(a), factor)
  {
    UnsettledWithinOwed(AccountTally(a), factor);
    match a
    case Modern(h) =>
      var s := Settle(h.stake, factor);
      if s.Ok? {
        SettleKept(h.stake, Treasury(0, 0, 0, factor, 0, 0, 0));
        SettledWithinOwed(TallyOf(h.stake), factor, TallyOf(s.value));
      }
    case Legacy(v, _) =>
      var s := LegacyStake.Settle(v, factor);
      if s.Ok? {
        LegacySettleHonest(v, factor);
        SettledWithinOwed(LegacyTally(v), factor, LegacyTally(s.value));
      }
  }

  /** After any history, everything paid plus everything that settling every account would make
      claimable is at most what was ever shared with stakers. */
  lemma RewardsAreConserved(l: Ledger, history: seq<Instruction>)
    requires Invariant(l)
    ensures var n := Runs.Run(Step, l, history);
      n.paid + Sum(PayableOf(n.accounts, n.treasury.stakeRewardsFactor)) <= n.funded
  {
    RunKeepsInvariant(l, history);
    var n := Runs.Run(Step, l, history);
    var factor := n.treasury.stakeRewardsFactor;
    var book := Claims(n.accounts);
    forall k | k in book ensures PayableOf(n.accounts, factor)[k] * ONE <= Owed(book[k], factor, ONE) {
      PayableWithinOwed(n.accounts[k], factor);
    }
    SettleAllCovered(book, factor, ONE, n.paid, n.funded, PayableOf(n.accounts, factor));
  }

  /** While less than 2^64 has been shared in all, no settlement can overflow: every stake can
      always be settled. */
  lemma SettlementNeverFails(l: Ledger, history: seq<Instruction>, key: Key)
    requires Invariant(l)
    requires var n := Runs.Run(Step, l, history); n.funded <= UINT64_MAX && key in n.accounts
    ensures var n := Runs.Run(Step, l, history);
      match n.accounts[key]
      case Modern(h) => Settle(h.stake, n.treasury.stakeRewardsFactor).Ok?
      case Legacy(s, _) => LegacyStake.Settle(s, n.treasury.stakeRewardsFactor).Ok?
  {
    RunKeepsInvariant(l, history);
    AccountSettles(Runs.Run(Step, l, history), key);
  }

  lemma EarningCovered(n: Ledger, key: Key)
    requires Invariant(n) && key in n.accounts
    ensures EarnedBy(AccountTally(n.accounts[key]), n.treasury.stakeRewardsFactor) <= n.funded * ONE
  {
    hide Solvent, TotalWeight, AllLive, Units, Owed;
    OwedCovered(Earnings(n.accounts), n.treasury.stakeRewardsFactor, ONE, 0, n.funded, key);
  }

  /** What was funded can be accrued without leaving 64 bits. */
  lemma ShareFits(t: Tally, factor: Fixed, funded: uint64)
    requires Orderly(t, factor) && t.weight <= UINT64_MAX && EarnedBy(t, factor) <= funded * ONE
    ensures t.snapshot < factor ==>
      && Accrued(factor - t.snapshot, t.weight).Ok?
      && t.rewards + Accrued(factor - t.snapshot, t.weight).value <= funded
      && t.lifetime + Accrued(factor - t.snapshot, t.weight).value <= funded
  {
    if t.snapshot < factor {
      AccruedFloor(factor - t.snapshot, t.weight);
    }
  }

  lemma AccountSettles(n: Ledger, key: Key)
    requires Invariant(n) && n.funded <= UINT64_MAX && key in n.accounts
    ensures match n.accounts[key]
      case Modern(h) => Settle(h.stake, n.treasury.stakeRewardsFactor).Ok?
      case Legacy(s, _) => LegacyStake.Settle(s, n.treasury.stakeRewardsFactor).Ok?
  {
    EarningCovered(n, key);
    ShareFits(AccountTally(n.accounts[key]), n.treasury.stakeRewardsFactor, n.funded);
  }

  /** The eager ledger run beside the lazy one. A distribution of anything at all credits every
      account its exact share; a stake counts a settlement when its snapshot moves. */
  ghost function Fairly(l: Ledger, n: Ledger, m: Move, fairs: map<Key, Fair>): map<Key, Fair>
    requires fairs.Keys == l.accounts.Keys
    requires Moves(l, n, m)
  {
    match m
    case Distributed(amount) =>
      if l.treasury.totalStaked == 0 || amount == 0 then fairs
      else map k | k in fairs :: Credit(fairs[k], AccountTally(l.accounts[k]).weight, amount, l.treasury.totalStaked)
    case Touched(key, _) =>
      if AccountTally(n.accounts[key]).snapshot == AccountTally(l.accounts[key]).snapshot then fairs
      else fairs[key := Settled(fairs[key], 0)]
    case Opened(key) => fairs[key := NEWCOMER]
    case Merged(target, source) =>
      var factor := l.treasury.stakeRewardsFactor;
      var settled := Unsettled(AccountTally(l.accounts[target]), factor) + Unsettled(AccountTally(l.accounts[source]), factor);
      (fairs - {source})[target := Pooled(fairs[target], fairs[source], settled)]
    case Closed(key, _) => fairs - {key}
  }

  datatype Observed = Observed(ledger: Ledger, fairs: map<Key, Fair>)

  ghost function ObservedStep(o: Observed, i: Instruction): Result<Observed> {
    var n :- Step(o.ledger, i);
    var m := MoveOf(o.ledger, n, i);
    if o.fairs.Keys == o.ledger.accounts.Keys && Moves(o.ledger, n, m)
    then Ok(Observed(n, Fairly(o.ledger, n, m, o.fairs)))
    else Err(Panic)
  }

  ghost predicate Mirrored(o: Observed) {
    && Invariant(o.ledger)
    && o.fairs.Keys == o.ledger.accounts.Keys
    && AllTrack(o.ledger, o.fairs)
  }

  ghost predicate AllTrack(l: Ledger, fairs: map<Key, Fair>) {
    forall k :: k in l.accounts && k in fairs ==>
      Tracks(Earned(AccountTally(l.accounts[k])), l.treasury.stakeRewardsFactor, ONE, fairs[k])
  }

  /** The eager side never blocks a step, so the lazy ledger inside takes exactly its own steps. */
  lemma ObservedTakesTheSameStep(o: Observed, i: Instruction)
    requires Mirrored(o)
    ensures Step(o.ledger, i).Ok? ==> ObservedStep(o, i).Ok? && ObservedStep(o, i).value.ledger == Step(o.ledger, i).value
    ensures Step(o.ledger, i).Err? ==> ObservedStep(o, i) == Err(Step(o.ledger, i).error)
  {
    if Step(o.ledger, i).Ok? {
      StepMoves(o.ledger, i);
    }
  }

  /** Waiting, a bury too small to share anything and a donation to a vault leave the eager ledger
      alone: they allow the lazy one no further loss. */
  lemma IdleStepsAreFree(o: Observed, i: Instruction)
    requires Mirrored(o) && ObservedStep(o, i).Ok?
    requires i.Wait? || i.Donate? || (i.BuryTokens? && ObservedStep(o, i).value.ledger.funded == o.ledger.funded)
    ensures ObservedStep(o, i).value.fairs == o.fairs
  {
    hide Invariant, AllTrack;
  }

  lemma DistributionTracks(l: Ledger, n: Ledger, amount: nat, fairs: map<Key, Fair>)
    requires AllTrack(l, fairs) && fairs.Keys == l.accounts.Keys && DistributedTo(l, n, amount)
    ensures AllTrack(n, Fairly(l, n, Distributed(amount), fairs))
  {
    var delta := n.treasury.stakeRewardsFactor - l.treasury.stakeRewardsFactor;
    var after := Fairly(l, n, Distributed(amount), fairs);
    if amount == 0 && delta > 0 {
      MultiplyMonotone(1, delta, l.treasury.totalStaked);
    }
    forall k | k in n.accounts && k in after
      ensures Tracks(Earned(AccountTally(n.accounts[k])), n.treasury.stakeRewardsFactor, ONE, after[k])
    {
      var p := Earned(AccountTally(l.accounts[k]));
      if l.treasury.totalStaked > 0 && amount > 0 {
        TracksDistribution(p, l.treasury.stakeRewardsFactor, ONE, fairs[k], delta, amount, l.treasury.totalStaked);
        assert l.treasury.stakeRewardsFactor + delta == n.treasury.stakeRewardsFactor;
      }
    }
  }

  lemma TouchTracks(l: Ledger, n: Ledger, key: Key, paid: nat, fairs: map<Key, Fair>)
    requires AllTrack(l, fairs) && fairs.Keys == l.accounts.Keys && TouchedTo(l, n, key, paid)
    ensures AllTrack(n, Fairly(l, n, Touched(key, paid), fairs))
  {
    hide Tracks, Honest;
    TallyTracks(AccountTally(l.accounts[key]), AccountTally(n.accounts[key]), l.treasury.stakeRewardsFactor, paid, fairs[key]);
  }

  lemma TallyTracks(p: Tally, q: Tally, factor: Fixed, paid: nat, fair: Fair)
    requires Tracks(Earned(p), factor, ONE, fair) && Honest(p, q, factor, paid)
    ensures Tracks(Earned(q), factor, ONE, if q.snapshot == p.snapshot then fair else Settled(fair, 0))
  {
    if q.snapshot == p.snapshot {
      assert Owed(Earned(q), factor, ONE) == Owed(Earned(p), factor, ONE);
      hide Owed, Loss;
    } else {
      hide Owed, Loss, Tracks;
      TracksSettlement(Earned(p), Earned(q), factor, ONE, fair, 0);
    }
  }

  lemma FusedTracks(p: Tally, q: Tally, r: Tally, factor: Fixed, a: Fair, b: Fair)
    requires Tracks(Earned(p), factor, ONE, a) && Tracks(Earned(q), factor, ONE, b) && Fused(p, q, r, factor)
    ensures Tracks(Earned(r), factor, ONE, Pooled(a, b, Unsettled(p, factor) + Unsettled(q, factor)))
  {
    TracksMerge(Earned(p), Earned(q), Earned(r), factor, ONE, a, b, Unsettled(p, factor) + Unsettled(q, factor));
  }

  lemma MergeTracks(l: Ledger, n: Ledger, target: Key, source: Key, fairs: map<Key, Fair>)
    requires AllTrack(l, fairs) && fairs.Keys == l.accounts.Keys && MergedTo(l, n, target, source)
    ensures AllTrack(n, Fairly(l, n, Merged(target, source), fairs))
  {
    FusedTracks(AccountTally(l.accounts[target]), AccountTally(l.accounts[source]), AccountTally(n.accounts[target]),
                l.treasury.stakeRewardsFactor, fairs[target], fairs[source]);
  }

  lemma OpenTracks(l: Ledger, n: Ledger, key: Key, fairs: map<Key, Fair>)
    requires AllTrack(l, fairs) && fairs.Keys == l.accounts.Keys && OpenedTo(l, n, key)
    ensures AllTrack(n, fairs[key := NEWCOMER])
  {
  }

  lemma CloseTracks(l: Ledger, n: Ledger, key: Key, paid: nat, fairs: map<Key, Fair>)
    requires AllTrack(l, fairs) && fairs.Keys == l.accounts.Keys && ClosedTo(l, n, key, paid)
    ensures AllTrack(n, fairs - {key})
  {
  }

  lemma FairKeys(l: Ledger, n: Ledger, m: Move, fairs: map<Key, Fair>)
    requires fairs.Keys == l.accounts.Keys && Moves(l, n, m)
    ensures Fairly(l, n, m, fairs).Keys == n.accounts.Keys
  {
  }

  lemma MoveKeepsMirror(l: Ledger, n: Ledger, m: Move, fairs: map<Key, Fair>)
    requires AllTrack(l, fairs) && fairs.Keys == l.accounts.Keys && Moves(l, n, m)
    ensures AllTrack(n, Fairly(l, n, m, fairs)) && Fairly(l, n, m, fairs).Keys == n.accounts.Keys
  {
    FairKeys(l, n, m, fairs);
    match m
    case Distributed(amount) => DistributionTracks(l, n, amount, fairs);
    case Touched(key, paid) => TouchTracks(l, n, key, paid, fairs);
    case Opened(key) => OpenTracks(l, n, key, fairs);
    case Merged(target, source) => MergeTracks(l, n, target, source, fairs);
    case Closed(key, paid) => CloseTracks(l, n, key, paid, fairs);
  }

  lemma ObservedStepKeeps(o: Observed, i: Instruction)
    requires Mirrored(o) && ObservedStep(o, i).Ok?
    ensures Mirrored(ObservedStep(o, i).value)
  {
    var n := Step(o.ledger, i).value;
    var m := MoveOf(o.ledger, n, i);
    StepMoves(o.ledger, i);
    MoveKeepsInvariant(o.ledger, n, m);
    MoveKeepsMirror(o.ledger, n, m, o.fairs);
  }

  /** After any history the lazy ledger refines the eager one: what a stake has earned in its
      lifetime, once settled, never exceeds its exact pro-rata share, and falls short of it by at
      most 1 - 1/2^48 of a unit for each time it was settled plus weight/2^48 for each distribution
      it took part in. */
  lemma LazyRefinesEager(o: Observed, history: seq<Instruction>, key: Key)
    requires Mirrored(o)
    ensures var n := Runs.Run(ObservedStep, o, history);
      key in n.ledger.accounts && AccountTally(n.ledger.accounts[key]).snapshot == n.ledger.treasury.stakeRewardsFactor ==>
        var earned := AccountTally(n.ledger.accounts[key]).lifetime as real;
        key in n.fairs
        && earned <= n.fairs[key].share
        && n.fairs[key].share <= earned + Loss(n.fairs[key], ONE) as real / ONE as real
  {
    forall s, i | Mirrored(s) && ObservedStep(s, i).Ok? ensures Mirrored(ObservedStep(s, i).value) {
      ObservedStepKeeps(s, i);
    }
    Runs.RunKeeps(ObservedStep, Mirrored, o, history);
    var n := Runs.Run(ObservedStep, o, history);
    if key in n.ledger.accounts && AccountTally(n.ledger.accounts[key]).snapshot == n.ledger.treasury.stakeRewardsFactor {
      SettledShare(Earned(AccountTally(n.ledger.accounts[key])), n.ledger.treasury.stakeRewardsFactor, ONE, n.fairs[key]);
    }
  }
}
