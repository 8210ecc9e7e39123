/** What checkpoints credit in GODL: exactly what the bets are due when the pool's accounts are
    passed, and so nearly all of a round once everybody has come. */
module GameCredits {
  import opened Basics
  import opened BoardState
  import opened Checkpoint
  import opened Game
  import opened GameLaws
  import opened GameSteps
  import opened GameTheorems
  import opened MapSums
  import opened MinerState
  import opened Payouts
  import opened PoolState
  import opened RoundState
  import opened TreasuryState
  import Deploy
  import Reset
  import Runs

  /** Every payment made with the pool's accounts is exactly what the bet is due. */
  ghost predicate Exact(round: Round, book: map<nat, Bet>, pooled: Grid, a: nat, paid: Payout) {
    a in book ==> paid.godl == GodlDue(round, book[a], pooled)
  }

  ghost predicate WholeAt(g: Game, id: nat) {
    id in g.rounds && id in g.pools ==>
      forall a :: a in CreditsOf(g, id) && a !in PartialOf(g, id) ==>
        Exact(g.rounds[id].round, BookOf(g, id), g.pools[id].deployed, a, CreditsOf(g, id)[a])
  }

  ghost predicate Whole(g: Game) {
    forall id :: WholeAt(g, id)
  }

  lemma OpeningIsWhole(id: uint64, startSlot: uint64, treasury: Treasury, solMotherlode: uint64, supply: uint64, slot: uint64,
                       now: int64, minerRent: nat, roundRent: nat)
    ensures Whole(GameTheorems.Opening(id, startSlot, treasury, solMotherlode, supply, slot, now, minerRent, roundRent))
  {
  }

  /** A round nobody has been paid for. */
  lemma UnpaidIsWhole(g: Game, id: nat)
    requires CreditsOf(g, id) == map[]
    ensures WholeAt(g, id)
  {
    hide Exact;
  }

  ghost predicate SameRound(g: Game, n: Game, id: nat) {
    id in n.rounds && id in n.pools ==>
      id in g.rounds && id in g.pools && n.rounds[id].round == g.rounds[id].round && n.pools[id] == g.pools[id]
  }

  lemma SameIsWhole(g: Game, n: Game, id: nat)
    requires WholeAt(g, id) && SameRound(g, n, id)
    requires BookOf(n, id) == BookOf(g, id) && CreditsOf(n, id) == CreditsOf(g, id) && PartialOf(n, id) == PartialOf(g, id)
    ensures WholeAt(n, id)
  {
    hide Exact;
  }

  lemma BetsKeepWhole(g: Game, owner: nat, order: Deploy.Order, config: Config, legacy: bool)
    requires Law(g) && Whole(g) && Bets(g, owner, order, config, legacy).Ok?
    ensures Whole(Bets(g, owner, order, config, legacy).value)
  {
    hide Law, WholeAt, Deploy.Deployed, Recorded;
    var n := Bets(g, owner, order, config, legacy).value;
    NoCreditsYet(g);
    forall id: nat ensures WholeAt(n, id) {
      if id == g.board.roundId {
        UnpaidIsWhole(n, id);
      } else {
        SameIsWhole(g, n, id);
      }
    }
  }

  lemma ClosingKeepsWhole(g: Game, mode: Reset.Mode, config: Config, value: Hash, candidate: Option<nat>, ticket: Option<nat>)
    requires Law(g) && Whole(g) && Closing(g, mode, config, value, candidate, ticket).Ok?
    ensures Whole(Closing(g, mode, config, value, candidate, ticket).value)
  {
    hide Law, WholeAt, Reset.Closed;
    var n := Closing(g, mode, config, value, candidate, ticket).value;
    NoCreditsYet(g);
    forall id: nat ensures WholeAt(n, id) {
      if id == g.board.roundId + 1 {
        FutureIsBlank(g, id);
        UnpaidIsWhole(n, id);
      } else if id == g.board.roundId {
        UnpaidIsWhole(n, id);
      } else {
        SameIsWhole(g, n, id);
      }
    }
  }

  /** The bet of a miner as a checkpoint with all its accounts sees it. */
  lemma FullPayment(g: Game, owner: nat, id: nat)
    requires Law(g) && owner in g.miners && id in g.rounds && id in g.pools && id == g.miners[owner].play.roundId
    requires Due(g.rounds[id].round, BetOf(g.miners[owner].play, MemberAt(g, owner)), g.pools[id].deployed, owner).Ok?
    ensures Exact(g.rounds[id].round, BookOf(g, id), g.pools[id].deployed, owner,
                  Due(g.rounds[id].round, BetOf(g.miners[owner].play, MemberAt(g, owner)), g.pools[id].deployed, owner).value)
  {
    hide Law, Due, GodlDue, SolDue;
    MinerIn(g, owner);
    DueAmounts(g.rounds[id].round, BetOf(g.miners[owner].play, MemberAt(g, owner)), g.pools[id].deployed, owner);
  }

  lemma ExactStays(round: Round, top: TopMiner, book: map<nat, Bet>, pooled: Grid, a: nat, paid: Payout)
    requires top == round.topMiner || (top.Solo? && (round.topMiner.Unset? || round.topMiner.Solo?))
    requires Exact(round, book, pooled, a, paid)
    ensures Exact(round.(topMiner := top), book, pooled, a, paid)
  {
    hide GodlDue, SolDue;
    if a in book {
      WinnerLeavesDues(round, top, book[a], pooled);
    }
  }

  lemma SettlingKeepsWhole(g: Game, owner: nat, id: nat, withMember: bool, withPool: bool, botFee: bool, creditable: bool)
    requires Law(g) && Whole(g) && owner in g.miners && id in g.rounds && id == g.miners[owner].play.roundId
    requires Settling(g, owner, id, withMember, withPool, botFee, creditable).Ok?
    ensures WholeAt(Settling(g, owner, id, withMember, withPool, botFee, creditable).value, id)
  {
    hide Law, Due, Pay, Exact;
    var n := Settling(g, owner, id, withMember, withPool, botFee, creditable).value;
    var m, r := g.miners[owner], g.rounds[id];
    var member := if withMember then MemberAt(g, owner) else None;
    var poolTotal := PoolTotal(if withPool && id in g.pools then Some(g.pools[id]) else None);
    var payout := Due(r.round, BetOf(m.play, member), poolTotal, owner).value;
    TopStays(r.round, BetOf(m.play, member), poolTotal, owner);
    assert WholeAt(g, id);
    if id in g.pools {
      if withMember && withPool {
        FullPayment(g, owner, id);
        ExactStays(r.round, payout.topMiner, BookOf(g, id), g.pools[id].deployed, owner, payout);
      }
      forall a | a in CreditsOf(g, id) && a !in PartialOf(g, id)
        ensures Exact(n.rounds[id].round, BookOf(g, id), g.pools[id].deployed, a, CreditsOf(g, id)[a])
      {
        ExactStays(r.round, payout.topMiner, BookOf(g, id), g.pools[id].deployed, a, CreditsOf(g, id)[a]);
      }
    }
  }

  lemma OthersKeepWhole(g: Game, n: Game)
    requires Whole(g) && n.book == g.book && n.credits == g.credits && n.partial == g.partial
    requires forall id :: SameRound(g, n, id)
    ensures Whole(n)
  {
    hide WholeAt;
    forall id: nat ensures WholeAt(n, id) {
      assert WholeAt(g, id) && SameRound(g, n, id);
      SameIsWhole(g, n, id);
    }
  }

  lemma SettlingLeavesOthers(g: Game, owner: nat, id: nat, withMember: bool, withPool: bool, botFee: bool, creditable: bool, j: nat)
    requires Whole(g) && owner in g.miners && id in g.rounds && j != id
    requires Settling(g, owner, id, withMember, withPool, botFee, creditable).Ok?
    ensures WholeAt(Settling(g, owner, id, withMember, withPool, botFee, creditable).value, j)
  {
    hide WholeAt, Due, Pay;
    var n := Settling(g, owner, id, withMember, withPool, botFee, creditable).value;
    assert WholeAt(g, j);
    SameIsWhole(g, n, j);
  }

  lemma CheckpointKeepsWhole(g: Game, owner: nat, account: nat, withMember: bool, withPool: bool, legacy: bool, creditable: bool)
    requires Law(g) && Whole(g) && Checkpointing(g, owner, account, withMember, withPool, legacy, creditable).Ok?
    ensures Whole(Checkpointing(g, owner, account, withMember, withPool, legacy, creditable).value)
  {
    hide Law, WholeAt, Settling;
    var n := Checkpointing(g, owner, account, withMember, withPool, legacy, creditable).value;
    var round := if account in g.rounds then Some(g.rounds[account].round) else None;
    match GateOf(g.miners[owner].play, round, g.board.roundId, g.slot).value
    case Skip =>
    case Forfeit => OthersKeepWhole(g, n);
    case Settle(botFee) =>
      RoundIds(g, account);
      SettlingKeepsWhole(g, owner, account, withMember, withPool, botFee, creditable);
      forall id: nat ensures WholeAt(n, id) {
        if id != account {
          SettlingLeavesOthers(g, owner, account, withMember, withPool, botFee, creditable, id);
        }
      }
  }

  lemma StepKeepsWhole(g: Game, i: Instruction)
    requires Law(g) && Whole(g) && Step(g, i).Ok?
    ensures Whole(Step(g, i).value)
  {
    hide Law, Whole, Checkpointing, Bets, Closing;
    match i
    case CheckpointMiner(owner, account, withMember, withPool, legacy, creditable) =>
      CheckpointKeepsWhole(g, owner, account, withMember, withPool, legacy, creditable);
    case PlaceBets(owner, order, config, legacy) => BetsKeepWhole(g, owner, order, config, legacy);
    case CloseRound(mode, config, value, candidate, ticket) => ClosingKeepsWhole(g, mode, config, value, candidate, ticket);
    case _ => OthersKeepWhole(g, Step(g, i).value);
  }

  ghost predicate Served(g: Game) {
    Law(g) && Whole(g)
  }

  lemma RunKeepsWhole(g: Game, history: seq<Instruction>)
    requires Served(g)
    ensures Served(Runs.Run(Step, g, history))
  {
    hide Step, Law, Whole;
    forall s, i | Served(s) && Step(s, i).Ok? ensures Served(Step(s, i).value) {
      StepKeeps(s, i);
      StepKeepsWhole(s, i);
    }
    Runs.RunKeeps(Step, Served, g, history);
  }

  lemma WinnersOf(round: Round, r: uint64, book: map<nat, Bet>, pooled: Grid, credits: map<nat, Payout>)
    requires book.Keys <= credits.Keys && Booked(book, round.deployed, pooled)
    requires 0 < round.deployed[WinningSquare(r)] && (round.topMiner.Pool? ==> 0 < pooled[WinningSquare(r)])
    ensures WinningBook(round, r, Winners(round, r, book, credits.Keys), pooled)
  {
    hide Sum, WinningSquare, Wins;
    var w := WinningSquare(r);
    var winners := Winners(round, r, book, credits.Keys);
    assert Squared(book, w, round.deployed[w], pooled[w]);
    forall a | a in book && a !in winners ensures book[a].deployed[w] == 0 == book[a].pooled[w] {
      LosersHaveNothing(round, r, book, pooled, a);
    }
    SumOverPart(DeployedOn(book, w), DeployedOn(winners, w));
    SumOverPart(PooledOn(book, w), PooledOn(winners, w));
    TiledPart(book, winners, w, round.deployed[w]);
  }

  lemma LosersHaveNothing(round: Round, r: uint64, book: map<nat, Bet>, pooled: Grid, a: nat)
    requires Booked(book, round.deployed, pooled) && a in book && !Wins(round, r, book[a])
    ensures book[a].deployed[WinningSquare(r)] == 0 == book[a].pooled[WinningSquare(r)]
  {
    hide Sum, Tiled, WinningSquare;
    var w := WinningSquare(r);
    assert Squared(book, w, round.deployed[w], pooled[w]);
    SumCovers(DeployedOn(book, w), a);
  }

  /** A part of a map that leaves out only zeros has the same sum. */
  lemma SumOverPart(m: map<nat, int>, part: map<nat, int>)
    requires part.Keys <= m.Keys && forall a :: a in m ==> m[a] == At(part, a) && 0 <= m[a]
    ensures Sum(part) == Sum(m)
  {
    hide Sum;
    SumUnder(m, part);
    SumUnder(part, m);
  }

  lemma TiledPart(book: map<nat, Bet>, part: map<nat, Bet>, square: nat, deployed: nat)
    requires square < SQUARES && Tiled(book, square, deployed)
    requires part.Keys <= book.Keys && forall a :: a in book ==> if a in part then part[a] == book[a] else book[a].deployed[square] == 0
    ensures Tiled(part, square, deployed)
  {
    forall x: nat | x < deployed ensures Owned(part, square, x) {
      assert Owned(book, square, x);
      var a :| a in book && Holds(book[a], square, x);
      assert a in part && Holds(part[a], square, x);
    }
  }

  lemma CreditedInFull(n: Game, id: nat)
    requires Law(n) && WholeAt(n, id) && id in n.rounds && id in n.pools
    requires n.rounds[id].round.topMiner.Pool? ==> PartialOf(n, id) !! BookOf(n, id).Keys
    ensures forall a :: a in CreditsOf(n, id) ==>
      Exact(n.rounds[id].round, BookOf(n, id), n.pools[id].deployed, a, CreditsOf(n, id)[a])
  {
    hide Law, GodlDue, SolDue;
    RoundCredits(n, id);
  }

  lemma WinnersAreCredited(round: Round, r: uint64, book: map<nat, Bet>, pooled: Grid, credits: map<nat, Payout>)
    requires book.Keys <= credits.Keys && forall a :: a in credits ==> Exact(round, book, pooled, a, credits[a])
    ensures Sum(GodlDues(round, Winners(round, r, book, credits.Keys), pooled)) <= Sum(GodlsOf(credits))
  {
    hide GodlDue, Wins, Sum;
    SumUnder(GodlDues(round, Winners(round, r, book, credits.Keys), pooled), GodlsOf(credits));
  }

  lemma BackedPool(n: Game, id: nat, r: uint64)
    requires Law(n) && id in n.rounds && Rng(n.rounds[id].round.slotHash) == Some(r)
    ensures id in n.pools && Booked(BookOf(n, id), n.rounds[id].round.deployed, n.pools[id].deployed)
    ensures n.rounds[id].round.topMiner.Pool? ==> 0 < n.pools[id].deployed[WinningSquare(r)]
  {
    hide MinerLaw, Booked, Rng, WinningSquare;
    assert RoundLawAt(n, id);
  }

  /** Once every bettor of a won round has been credited, with the pool's accounts if the pool won,
      no GODL of the round is left but less than two units for each winner, and less than one when a
      single miner took the reward. */
  lemma GodlPaidInFull(g: Game, history: seq<Instruction>, id: nat, r: uint64)
    requires Law(g) && Whole(g)
    requires var n := Runs.Run(Step, g, history);
      && id in n.rounds && Rng(n.rounds[id].round.slotHash) == Some(r) && 0 < n.rounds[id].round.deployed[WinningSquare(r)]
      && BookOf(n, id).Keys <= CreditsOf(n, id).Keys
      && (n.rounds[id].round.topMiner.Pool? ==> PartialOf(n, id) !! BookOf(n, id).Keys)
    ensures var n := Runs.Run(Step, g, history);
      var round, credits := n.rounds[id].round, CreditsOf(n, id);
      var winners := |Winners(round, r, BookOf(n, id), credits.Keys)|;
      && round.topMinerReward + round.motherlode < Sum(GodlsOf(credits)) + 2 * winners
      && (round.topMiner.Unset? || round.topMiner.Solo? ==> round.topMinerReward + round.motherlode < Sum(GodlsOf(credits)) + winners)
  {
    hide Step, Runs.Run, Law, Whole, Sum, Rng, WinningSquare, Winners, GodlDue, Booked, WinningBook, Exact;
    RunKeepsWhole(g, history);
    var n := Runs.Run(Step, g, history);
    var round, book, credits := n.rounds[id].round, BookOf(n, id), CreditsOf(n, id);
    BackedPool(n, id, r);
    var pooled := n.pools[id].deployed;
    WholeIsAt(n, id);
    CreditedInFull(n, id);
    WinnersOf(round, r, book, pooled, credits);
    GodlNearlyAll(round, r, Winners(round, r, book, credits.Keys), pooled);
    WinnersAreCredited(round, r, book, pooled, credits);
  }

  lemma WholeIsAt(n: Game, id: nat)
    requires Whole(n)
    ensures WholeAt(n, id)
  {
    hide WholeAt;
  }

  lemma WinnersArePaid(n: Game, id: nat, r: uint64)
    requires Law(n) && id in n.rounds && Rng(n.rounds[id].round.slotHash) == Some(r) && id != n.board.roundId
    requires BookOf(n, id).Keys <= CreditsOf(n, id).Keys
    ensures Sum(SolDues(n.rounds[id].round, Winners(n.rounds[id].round, r, BookOf(n, id), CreditsOf(n, id).Keys)))
         <= Sum(SolsOf(CreditsOf(n, id)))
  {
    hide Law, SolDue, Sum, Rng, Wins, Available, Finished, WinningSquare;
    var round, book, credits := n.rounds[id].round, BookOf(n, id), CreditsOf(n, id);
    FinishedRound(n, id);
    forall a | a in book ensures 0 <= SolDue(round, book[a]) {
      SolDueNonNegative(round, book[a]);
    }
    SumUnder(SolDues(round, Winners(round, r, book, credits.Keys)), Taken(round, book, credits.Keys));
  }

  /** And no SOL but at most two lamports for each winner. */
  lemma SolPaidInFull(g: Game, history: seq<Instruction>, id: nat, r: uint64)
    requires Law(g)
    requires var n := Runs.Run(Step, g, history);
      && id in n.rounds && Rng(n.rounds[id].round.slotHash) == Some(r) && 0 < n.rounds[id].round.deployed[WinningSquare(r)]
      && BookOf(n, id).Keys <= CreditsOf(n, id).Keys
    ensures var n := Runs.Run(Step, g, history);
      var round, credits := n.rounds[id].round, CreditsOf(n, id);
      Available(round) <= Sum(SolsOf(credits)) + 2 * |Winners(round, r, BookOf(n, id), credits.Keys)|
  {
    hide Step, Runs.Run, Law, Sum, Rng, WinningSquare, Winners, Booked, WinningBook, Available, SolDue, Closes;
    RunKeepsLaw(g, history);
    var n := Runs.Run(Step, g, history);
    var round, book, credits := n.rounds[id].round, BookOf(n, id), CreditsOf(n, id);
    CurrentUndrawn(n);
    FinishedRound(n, id);
    BackedPool(n, id, r);
    WinnersOf(round, r, book, n.pools[id].deployed, credits);
    WinnersArePaid(n, id, r);
    WinningBets(round, r, Winners(round, r, book, credits.Keys), n.pools[id].deployed);
    LeftoverIsDust(round, r, Available(round), Winners(round, r, book, credits.Keys));
  }

  lemma WinningBets(round: Round, r: uint64, book: map<nat, Bet>, pooled: Grid)
    requires WinningBook(round, r, book, pooled)
    ensures AllWinners(round, r, book) && Sum(DeployedOn(book, WinningSquare(r))) == round.deployed[WinningSquare(r)]
  {
  }

  /** When a miner's checkpoint is due: it has a round behind it that is closed, not expired, and not
      settled yet. */
  ghost predicate Payable(n: Game, owner: nat) {
    && owner in n.miners && n.miners[owner].play.roundId in n.rounds && n.miners[owner].play.roundId != n.board.roundId
    && n.miners[owner].play.checkpointId != n.miners[owner].play.roundId
    && var round := n.rounds[n.miners[owner].play.roundId].round;
       n.slot < round.expiresAt && TWELVE_HOURS_SLOTS <= round.expiresAt
  }

  lemma SettlesWhenDue(n: Game, owner: nat)
    requires Law(n) && Payable(n, owner)
    ensures var id := n.miners[owner].play.roundId;
      var botFee := n.rounds[id].round.expiresAt - TWELVE_HOURS_SLOTS <= n.slot;
      Checkpointing(n, owner, id, true, true, false, true) == Settling(n, owner, id, true, true, botFee, true)
  {
    hide Law, Settling, Finished, Available;
    var id := n.miners[owner].play.roundId;
    RoundIds(n, id);
    FinishedRound(n, id);
    FinishedIsDrawn(n.rounds[id].round);
  }

  lemma FinishedIsDrawn(round: Round)
    requires Finished(round)
    ensures round.slotHash != Repeated(0)
  {
    hide Available, Closes, Rng;
  }

  /** Every amount the checkpoint computes fits in 64 bits. */
  ghost predicate Representable(round: Round, bet: Bet, pooled: Grid) {
    match Rng(round.slotHash)
    case None => Total(bet.deployed) <= UINT64_MAX
    case Some(r) =>
      var d := bet.deployed[WinningSquare(r)];
      d == 0 || (d * FEE_BPS <= UINT64_MAX && SolDue(round, bet) <= UINT64_MAX && GodlDue(round, bet, pooled) <= UINT64_MAX)
  }

  lemma DueSucceeds(round: Round, bet: Bet, pooled: Grid, authority: nat)
    requires Rng(round.slotHash).None? ==> round.totalDeployed == 0
    requires Rng(round.slotHash).Some? ==>
      var w := WinningSquare(Rng(round.slotHash).value);
      bet.deployed[w] <= round.deployed[w] && (bet.deployed[w] > 0 ==> bet.cumulative[w] + bet.deployed[w] <= UINT64_MAX)
    ensures Due(round, bet, pooled, authority).Ok? <==> Representable(round, bet, pooled)
  {
    hide Rng, Share, WinningSquare, TopMinerSample, Total;
    if Rng(round.slotHash).Some? {
      var w := WinningSquare(Rng(round.slotHash).value);
      if 0 < round.deployed[w] {
        NothingShared(bet.deployed[w], round.deployed[w]);
      }
    }
  }

  lemma BookedBet(n: Game, owner: nat)
    requires Law(n) && Payable(n, owner)
    ensures var round, bet := n.rounds[n.miners[owner].play.roundId].round, BetOf(n.miners[owner].play, MemberAt(n, owner));
      && (Rng(round.slotHash).None? ==> round.totalDeployed == 0)
      && (Rng(round.slotHash).Some? ==>
            var w := WinningSquare(Rng(round.slotHash).value);
            bet.deployed[w] <= round.deployed[w] && (bet.deployed[w] > 0 ==> bet.cumulative[w] + bet.deployed[w] <= UINT64_MAX))
  {
    hide Law, Rng, WinningSquare, Sum, Available, Closes, SolDue;
    var id := n.miners[owner].play.roundId;
    var round, bet := n.rounds[id].round, BetOf(n.miners[owner].play, MemberAt(n, owner));
    FinishedRound(n, id);
    MinerIn(n, owner);
    if Rng(round.slotHash).Some? {
      var w := WinningSquare(Rng(round.slotHash).value);
      SquareOf(n, id, w);
      if owner in BookOf(n, id) {
        SumCovers(DeployedOn(BookOf(n, id), w), owner);
      }
    }
  }

  /** In every reachable state a due checkpoint pays: exactly when the amounts fit in 64 bits and the
      round holds the lamports, it commits, records exactly what the bet is due in SOL and in GODL,
      moves those lamports, less the checkpoint fee in the last twelve hours, and marks the miner as
      settled. */
  lemma DueCheckpointPays(g: Game, history: seq<Instruction>, owner: nat)
    requires Law(g) && Payable(Runs.Run(Step, g, history), owner)
    ensures var n := Runs.Run(Step, g, history);
      var m, id := n.miners[owner], n.miners[owner].play.roundId;
      var c := Checkpointing(n, owner, id, true, true, false, true);
      && id in n.pools
      && var round, bet, pooled := n.rounds[id].round, BetOf(m.play, MemberAt(n, owner)), n.pools[id].deployed;
      && (c.Ok? <==>
            && Representable(round, bet, pooled) && SolDue(round, bet) <= n.rounds[id].lamports
            && m.play.rewardsSol + SolDue(round, bet) <= UINT64_MAX && m.play.lifetimeRewardsSol + SolDue(round, bet) <= UINT64_MAX)
      && (c.Ok? ==>
            && owner in CreditsOf(c.value, id) && c.value.miners[owner].play.checkpointId == id
            && CreditsOf(c.value, id)[owner].sol == SolDue(round, bet) && CreditsOf(c.value, id)[owner].godl == GodlDue(round, bet, pooled)
            && c.value.miners[owner].play.rewardsSol == m.play.rewardsSol + SolDue(round, bet)
            && c.value.rounds[id].lamports == n.rounds[id].lamports - SolDue(round, bet)
            && var late := round.expiresAt - TWELVE_HOURS_SLOTS <= n.slot;
               c.value.miners[owner].lamports == m.lamports + SolDue(round, bet) - if late then m.play.checkpointFee else 0)
  {
    hide Step, Runs.Run, Law, Due, SolDue, GodlDue, Checkpointing, MinerLawAt, Pay, Representable, Rng, WinningSquare;
    RunKeepsLaw(g, history);
    var n := Runs.Run(Step, g, history);
    var m, id := n.miners[owner], n.miners[owner].play.roundId;
    var round, bet := n.rounds[id].round, BetOf(m.play, MemberAt(n, owner));
    RoundCredits(n, id);
    SettlesWhenDue(n, owner);
    BookedBet(n, owner);
    DueSucceeds(round, bet, n.pools[id].deployed, owner);
    var due := Due(round, bet, n.pools[id].deployed, owner);
    if due.Ok? {
      DueAmounts(round, bet, n.pools[id].deployed, owner);
      MinerIn(n, owner);
      var botFee := round.expiresAt - TWELVE_HOURS_SLOTS <= n.slot;
      PayFails(n, owner, n.rounds[id].lamports, due.value.sol, botFee);
      PayMoves(m.play, m.lamports, n.rounds[id].lamports, due.value.sol, botFee, n.minerRent);
    }
  }

  lemma PayMoves(play: Play, minerLamports: nat, roundLamports: nat, sol: uint64, botFee: bool, rent: nat)
    ensures var purse := Pay(play, minerLamports, roundLamports, sol, botFee, rent);
      purse.Ok? ==>
        && purse.value.play.checkpointId == play.roundId && purse.value.play.rewardsSol == play.rewardsSol + sol
        && purse.value.roundLamports == roundLamports - sol
        && purse.value.minerLamports == minerLamports + sol - if botFee then play.checkpointFee else 0
  {
  }

  /** No round is swept while somebody can still be paid from it. */
  lemma NothingDueIsSwept(g: Game, history: seq<Instruction>, owner: nat)
    requires Law(g) && Payable(Runs.Run(Step, g, history), owner)
    ensures var n := Runs.Run(Step, g, history); Sweeping(n, n.miners[owner].play.roundId).Err?
  {
    hide Runs.Run, Step, Law;
    RunKeepsLaw(g, history);
    RoundIds(Runs.Run(Step, g, history), Runs.Run(Step, g, history).miners[owner].play.roundId);
  }
}
