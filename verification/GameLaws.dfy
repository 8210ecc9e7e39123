/** The laws of the round game: what every reachable state satisfies, round by round and miner by
    miner. */
module GameLaws {
  import opened Basics
  import opened Checkpoint
  import opened Game
  import opened MapSums
  import opened MinerState
  import opened Payouts
  import opened PoolState
  import opened RoundState
  import Reset

  /** The bets of a round account for every lamport on every square, theirs and the pool's, and
      their intervals partition each square. */
  ghost predicate Booked(book: map<nat, Bet>, deployed: Grid, pooled: Grid) {
    && (forall i :: 0 <= i < SQUARES ==> Squared(book, i, deployed[i], pooled[i]))
    && (forall a, i :: a in book && 0 <= i < SQUARES ==> book[a].pooled[i] <= book[a].deployed[i])
  }

  ghost predicate Squared(book: map<nat, Bet>, square: nat, deployed: nat, pooled: nat)
    requires square < SQUARES
  {
    Sum(DeployedOn(book, square)) == deployed && Sum(PooledOn(book, square)) == pooled && Tiled(book, square, deployed)
  }

  /** The lamports a round owes its miners before anybody is paid: all of them while it is open or
      to be refunded, and what fees and vault have left once it is drawn. */
  ghost function Available(round: Round): int {
    if Rng(round.slotHash).None? then Total(round.deployed)
    else round.totalDeployed - round.totalDeployed * Reset.ADMIN_FEE_BPS / DENOMINATOR_BPS
         - round.totalDeployed * Reset.SOL_MOTHERLODE_BPS / DENOMINATOR_BPS - round.totalVaulted
  }

  ghost predicate Open(round: Round) {
    && round.slotHash == Repeated(0) && round.totalDeployed == Total(round.deployed)
    && round.topMiner == Unset && round.topMinerReward == 0 && round.motherlode == 0
  }

  ghost predicate Finished(round: Round) {
    && round.slotHash != Repeated(0)
    && match Rng(round.slotHash)
       case None => round.totalDeployed == 0
       case Some(r) => if round.deployed[WinningSquare(r)] > 0 then Closes(round, r, Available(round)) else Available(round) == 0
  }

  ghost function SolsOf(credits: map<nat, Payout>): map<nat, int> {
    map a | a in credits :: credits[a].sol
  }

  ghost function GodlsOf(credits: map<nat, Payout>): map<nat, int> {
    map a | a in credits :: credits[a].godl
  }

  /** A payment is exactly what the bet is due in SOL and, unless the pool won, in GODL; a caller may
      leave out the pool's accounts. Without a bet there is nothing to pay. */
  ghost predicate Proper(round: Round, book: map<nat, Bet>, pooled: Grid, a: nat, paid: Payout) {
    if a in book then
      && paid.sol == SolDue(round, book[a]) && paid.godl <= GodlDue(round, book[a], pooled)
      && (!round.topMiner.Pool? ==> paid.godl == GodlDue(round, book[a], pooled))
    else paid.sol == 0 == paid.godl
  }

  /** The pool wins only where it has bet. */
  ghost predicate PoolBacked(round: Round, pooled: Grid) {
    round.topMiner.Pool? ==>
      match Rng(round.slotHash)
      case None => false
      case Some(r) => 0 < pooled[WinningSquare(r)]
  }

  ghost predicate RoundLaw(id: nat, current: nat, s: RoundSlot, pool: PoolRound, book: map<nat, Bet>, credits: map<nat,
          Payout>, rent: nat) {
    && s.round.id == id == pool.id && id <= current
    && (if id == current then Open(s.round) else Finished(s.round))
    && Booked(book, s.round.deployed, pool.deployed) && PoolBacked(s.round, pool.deployed)
    && rent + Available(s.round) <= s.lamports + Sum(SolsOf(credits))
    && forall a :: a in credits ==> Proper(s.round, book, pool.deployed, a, credits[a])
  }

  /** A miner is checkpointed up to its last round but one, its bet is in the book exactly when it
      bet anything, and its account covers rent, fee and rewards. */
  ghost predicate MinerLaw(a: nat, current: nat, m: MinerSlot, member: Option<PoolMember>, book: map<nat, Bet>, rent: nat) {
    && m.play.checkpointId <= m.play.roundId <= current
    && Checkpoint.Funded(m.play, m.lamports, rent)
    && (member.Some? ==> member.value.roundId <= m.play.roundId)
    && (if m.play.deployed == Zeros() then a !in book && PooledOf(member, m.play.roundId) == Zeros()
        else a in book && book[a] == BetOf(m.play, member))
  }

  /** Whoever is in the book of a round has a miner that has reached that round. */
  ghost predicate Bettors(book: map<nat, map<nat, Bet>>, miners: map<nat, MinerSlot>) {
    forall id, a :: id in book && a in book[id] ==> a in miners && 1 <= id <= miners[a].play.roundId
  }

  /** Paid miners have moved on from the round, or are checkpointed in it. */
  ghost predicate Paid(credits: map<nat, map<nat, Payout>>, current: nat, miners: map<nat, MinerSlot>) {
    forall id, a :: id in credits && a in credits[id] ==>
      a in miners && Past(id, current, miners[a])
  }

  ghost predicate Past(id: nat, current: nat, m: MinerSlot) {
    id < current && (id < m.play.roundId || (id == m.play.roundId && m.play.roundId == m.play.checkpointId))
  }

  ghost predicate RoundLawAt(g: Game, id: nat) {
    id in g.rounds ==>
      id in g.pools && RoundLaw(id, g.board.roundId, g.rounds[id], g.pools[id], BookOf(g, id), CreditsOf(g, id), g.roundRent)
  }

  ghost predicate MinerLawAt(g: Game, a: nat) {
    a in g.miners ==> MinerLaw(a, g.board.roundId, g.miners[a], MemberAt(g, a), BookOf(g, g.miners[a].play.roundId), g.minerRent)
  }

  ghost predicate Law(g: Game) {
    && 1 <= g.board.roundId && g.board.roundId in g.rounds
    && (forall id :: RoundLawAt(g, id))
    && (forall a :: MinerLawAt(g, a))
    && (forall a :: a in g.members ==> a in g.miners)
    && Bettors(g.book, g.miners) && Paid(g.credits, g.board.roundId, g.miners)
  }

  lemma TiledPut(book: map<nat, Bet>, square: nat, deployed: nat, a: nat, bet: Bet)
    requires square < SQUARES && a !in book && Tiled(book, square, deployed)
    requires bet.deployed[square] > 0 ==> bet.cumulative[square] == deployed
    ensures Tiled(book[a := bet], square, deployed + bet.deployed[square])
  {
    var more := book[a := bet];
    forall x: nat | x < deployed + bet.deployed[square] ensures Owned(more, square, x) {
      if x < deployed {
        assert Owned(book, square, x);
        var b :| b in book && Holds(book[b], square, x);
        assert b in more && Holds(more[b], square, x);
      } else {
        assert a in more && Holds(more[a], square, x);
      }
    }
  }

  lemma SquaredPut(book: map<nat, Bet>, square: nat, deployed: nat, pooled: nat, a: nat, bet: Bet)
    requires square < SQUARES && a !in book && Squared(book, square, deployed, pooled)
    requires bet.deployed[square] > 0 ==> bet.cumulative[square] == deployed
    ensures Squared(book[a := bet], square, deployed + bet.deployed[square], pooled + bet.pooled[square])
  {
    hide Tiled, Sum;
    TiledPut(book, square, deployed, a, bet);
    SumPut(DeployedOn(book, square), a, bet.deployed[square]);
    SumPut(PooledOn(book, square), a, bet.pooled[square]);
    assert DeployedOn(book[a := bet], square) == DeployedOn(book, square)[a := bet.deployed[square]];
    assert PooledOn(book[a := bet], square) == PooledOn(book, square)[a := bet.pooled[square]];
  }

  lemma EmptyBooked()
    ensures Booked(map[], Zeros(), Zeros())
  {
    forall i | 0 <= i < SQUARES ensures Squared(map[], i, 0, 0) {
      assert DeployedOn(map[], i) == map[] && PooledOn(map[], i) == map[];
    }
  }

  /** The pool holds part of each square. */
  lemma PoolWithinSquare(book: map<nat, Bet>, deployed: Grid, pooled: Grid, square: nat)
    requires Booked(book, deployed, pooled) && square < SQUARES
    ensures pooled[square] <= deployed[square]
  {
    assert Squared(book, square, deployed[square], pooled[square]);
    SumMonotone(PooledOn(book, square), DeployedOn(book, square));
  }

  /** A first bet in a round, laid at the end of each square, keeps the book in order; the pool's
      saturating additions never saturate. */
  lemma BookedPut(book: map<nat, Bet>, deployed: Grid, pooled: Grid, a: nat, bet: Bet, after: Grid, pooledAfter: Grid)
    requires Booked(book, deployed, pooled) && a !in book
    requires forall i :: 0 <= i < SQUARES ==>
      && (after[i] as int) == (deployed[i] as int) + (bet.deployed[i] as int)
      && pooledAfter[i] == SaturatingAdd(pooled[i], bet.pooled[i])
      && (bet.pooled[i] == 0 || bet.pooled[i] == bet.deployed[i])
      && (bet.deployed[i] > 0 ==> bet.cumulative[i] == deployed[i])
    ensures Booked(book[a := bet], after, pooledAfter)
  {
    hide Squared;
    forall i | 0 <= i < SQUARES ensures Squared(book[a := bet], i, after[i], pooledAfter[i]) {
      PoolWithinSquare(book, deployed, pooled, i);
      SquaredPut(book, i, deployed[i], pooled[i], a, bet);
    }
  }
}
