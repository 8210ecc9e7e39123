/** What the laws of the round game mean for miners, in every state any history can reach. */
module GameTheorems {
  import opened Basics
  import opened BoardState
  import opened Checkpoint
  import opened Game
  import opened GameLaws
  import opened GameSteps
  import opened MapSums
  import opened MinerState
  import opened Payouts
  import opened PoolState
  import opened RoundState
  import opened TreasuryState
  import Deploy
  import Reset
  import Runs

  ghost function Opening(id: uint64, startSlot: uint64, treasury: Treasury, solMotherlode: uint64, supply: uint64, slot: uint64,
                         now: int64, minerRent: nat, roundRent: nat): Game {
    Game(Board(id, startSlot, UINT64_MAX), map[id := RoundSlot(OpenRound(id), roundRent)], map[id := OpenPool(id)], map[], map[],
         treasury, solMotherlode, supply, slot, now, minerRent, roundRent, map[], map[], map[])
  }

  /** A game with nothing but an open round and its pool obeys every law. */
  lemma OpeningIsLawful(id: uint64, startSlot: uint64, treasury: Treasury, solMotherlode: uint64, supply: uint64, slot: uint64,
                        now: int64, minerRent: nat, roundRent: nat)
    requires 1 <= id
    ensures Law(Opening(id, startSlot, treasury, solMotherlode, supply, slot, now, minerRent, roundRent))
  {
    hide RoundLaw, MinerLaw;
    OpenRoundLaw(id, roundRent);
  }

  /** A lamport of an open square lies in this miner's interval. */
  ghost predicate Lays(g: Game, a: nat, square: nat, x: nat)
    requires square < SQUARES
  {
    a in g.miners && g.miners[a].play.roundId == g.board.roundId && Covers(g.miners[a].play.cumulative, g.miners[a].play.deployed, square, x)
  }

  lemma BookedLays(g: Game, a: nat, square: nat, x: nat)
    requires Law(g) && square < SQUARES
    ensures Lays(g, a, square, x) <==> a in BookOf(g, g.board.roundId) && Holds(BookOf(g, g.board.roundId)[a], square, x)
  {
    hide RoundLaw;
    if a in g.miners {
      assert MinerLawAt(g, a);
    }
  }

  lemma SquareOf(g: Game, id: nat, square: nat)
    requires Law(g) && id in g.rounds && square < SQUARES
    ensures id in g.pools && Squared(BookOf(g, id), square, g.rounds[id].round.deployed[square], g.pools[id].deployed[square])
  {
    hide MinerLaw, Squared;
    assert RoundLawAt(g, id);
  }

  lemma LivePartition(g: Game, square: nat, x: nat)
    requires Law(g) && square < SQUARES && x < g.rounds[g.board.roundId].round.deployed[square]
    ensures exists a :: Lays(g, a, square, x) && forall b :: Lays(g, b, square, x) ==> b == a
  {
    hide Law, Lays;
    var id := g.board.roundId;
    LawfulBoard(g);
    SquareOf(g, id, square);
    assert Owned(BookOf(g, id), square, x);
    var a :| a in BookOf(g, id) && Holds(BookOf(g, id)[a], square, x);
    BookedLays(g, a, square, x);
    forall b | Lays(g, b, square, x) ensures b == a {
      BookedLays(g, b, square, x);
    }
  }

  lemma LawfulBoard(g: Game)
    requires Law(g)
    ensures g.board.roundId in g.rounds
  {
  }

  /** On every square of the live round the miners' intervals partition the deployed lamports: each
      lamport belongs to exactly one miner. */
  lemma IntervalsPartition(g: Game, history: seq<Instruction>, square: nat, x: nat)
    requires Law(g) && square < SQUARES
    requires var n := Runs.Run(Step, g, history); n.board.roundId in n.rounds && x < n.rounds[n.board.roundId].round.deployed[square]
    ensures var n := Runs.Run(Step, g, history);
      exists a :: Lays(n, a, square, x) && forall b :: Lays(n, b, square, x) ==> b == a
  {
    hide Step, Runs.Run, Law, Lays;
    RunKeepsLaw(g, history);
    LivePartition(Runs.Run(Step, g, history), square, x);
  }

  /** The lamport of the winning square that decides the round. */
  ghost function Sample(g: Game, r: uint64): uint64
    requires g.board.roundId in g.rounds
  {
    TopMinerSample(r, g.rounds[g.board.roundId].round.deployed[WinningSquare(r)])
  }

  /** What the strict reset decides when it is given this miner. */
  ghost function Judged(g: Game, r: uint64, candidate: Option<nat>): Result<TopMiner>
    requires g.board.roundId in g.rounds
  {
    Reset.StrictTop(g.rounds[g.board.roundId].round, r, CandidateAt(g, candidate), TicketAt(g, candidate))
  }

  lemma IntervalFits(n: Game, a: nat, square: nat, x: nat)
    requires Law(n) && square < SQUARES && Lays(n, a, square, x)
    ensures var p := n.miners[a].play; p.cumulative[square] + p.deployed[square] <= UINT64_MAX
  {
    hide RoundLaw, Sum;
    var id := n.board.roundId;
    LawfulBoard(n);
    SquareOf(n, id, square);
    BookedLays(n, a, square, x);
    assert MinerLawAt(n, a);
    assert Tiled(BookOf(n, id), square, n.rounds[id].round.deployed[square]);
  }

  lemma AcceptsTheOwner(n: Game, r: uint64, a: nat)
    requires Law(n) && !IsSplit(r)
    ensures Judged(n, r, Some(a)).Ok? <==> Lays(n, a, WinningSquare(r), Sample(n, r))
  {
    hide RoundLaw, MinerLaw, Bettors, Paid, IsSplit, TopMinerSample, WinningSquare;
    RoundIds(n, n.board.roundId);
    if Lays(n, a, WinningSquare(r), Sample(n, r)) {
      IntervalFits(n, a, WinningSquare(r), Sample(n, r));
    }
  }

  ghost predicate Accepted(n: Game, r: uint64, a: nat)
    requires n.board.roundId in n.rounds
  {
    Judged(n, r, Some(a)).Ok?
  }

  /** So the permissionless reset of a round that does not split accepts exactly one miner, the
      owner of the sample. */
  lemma ExactlyOneCandidate(g: Game, history: seq<Instruction>, r: uint64)
    requires Law(g) && !IsSplit(r)
    requires var n := Runs.Run(Step, g, history);
      n.board.roundId in n.rounds && 0 < n.rounds[n.board.roundId].round.deployed[WinningSquare(r)]
    ensures var n := Runs.Run(Step, g, history);
      && (forall a: nat :: Accepted(n, r, a) <==> Lays(n, a, WinningSquare(r), Sample(n, r)))
      && (exists a :: Accepted(n, r, a) && forall b :: Accepted(n, r, b) ==> b == a)
  {
    hide Step, Runs.Run, Law, Lays, Judged, IsSplit, WinningSquare;
    var n := Runs.Run(Step, g, history);
    RunKeepsLaw(g, history);
    IntervalsPartition(g, history, WinningSquare(r), Sample(n, r));
    forall a: nat ensures Accepted(n, r, a) <==> Lays(n, a, WinningSquare(r), Sample(n, r)) {
      AcceptsTheOwner(n, r, a);
    }
  }

  /** Every bet of a round is accounted for: on each square the bets add up to what was deployed, and
      the pool's members' bets to what the pool deployed. Nothing was lost to saturation. */
  lemma BetsAddUp(g: Game, history: seq<Instruction>, id: nat, square: nat)
    requires Law(g) && square < SQUARES && id in Runs.Run(Step, g, history).rounds
    ensures var n := Runs.Run(Step, g, history);
      && Sum(DeployedOn(BookOf(n, id), square)) == n.rounds[id].round.deployed[square]
      && id in n.pools && Sum(PooledOn(BookOf(n, id), square)) == n.pools[id].deployed[square]
  {
    hide Step, Runs.Run, Law, Tiled;
    RunKeepsLaw(g, history);
    SquareOf(Runs.Run(Step, g, history), id, square);
  }

  ghost predicate GrowsBy(before: map<nat, Payout>, after: map<nat, Payout>, a: nat) {
    a !in before && a in after && after == before[a := after[a]]
  }

  ghost predicate PaysOnce(before: map<nat, Payout>, after: map<nat, Payout>) {
    after == before || exists a: nat :: GrowsBy(before, after, a)
  }

  /** No step changes or removes a payment, and each adds at most one, to a miner that had none for
      that round: every miner is paid at most once per round. */
  lemma PaidAtMostOnce(g: Game, history: seq<Instruction>, i: Instruction, id: nat)
    requires Law(g) && Step(Runs.Run(Step, g, history), i).Ok?
    ensures var n := Runs.Run(Step, g, history); PaysOnce(CreditsOf(n, id), CreditsOf(Step(n, i).value, id))
  {
    hide Step, Runs.Run, Law, PaysOnce;
    RunKeepsLaw(g, history);
    StepPaysOnce(Runs.Run(Step, g, history), i, id);
  }

  lemma StepPaysOnce(n: Game, i: Instruction, id: nat)
    requires Law(n) && Step(n, i).Ok?
    ensures PaysOnce(CreditsOf(n, id), CreditsOf(Step(n, i).value, id))
  {
    hide Law, Checkpointing, Bets, Closing, Sweeping, Claiming;
    match i
    case CheckpointMiner(owner, account, withMember, withPool, legacy, creditable) =>
      CheckpointPaysOnce(n, owner, account, withMember, withPool, legacy, creditable, id);
    case PlaceBets(owner, order, config, legacy) => BetsPayNothing(n, owner, order, config, legacy);
    case CloseRound(mode, config, value, candidate, ticket) => ClosingPaysNothing(n, mode, config, value, candidate, ticket);
    case SweepRound(j) => OthersPayNothing(n, j, false);
    case ClaimSol(owner, referred) => OthersPayNothing(n, owner, referred);
    case _ =>
  }

  lemma BetsPayNothing(n: Game, owner: nat, order: Deploy.Order, config: Config, legacy: bool)
    requires Bets(n, owner, order, config, legacy).Ok?
    ensures Bets(n, owner, order, config, legacy).value.credits == n.credits
  {
    hide Deploy.Deployed;
  }

  lemma ClosingPaysNothing(n: Game, mode: Reset.Mode, config: Config, value: Hash, candidate: Option<nat>, ticket: Option<nat>)
    requires Closing(n, mode, config, value, candidate, ticket).Ok?
    ensures Closing(n, mode, config, value, candidate, ticket).value.credits == n.credits
  {
    hide Reset.Closed;
  }

  lemma OthersPayNothing(n: Game, j: nat, referred: bool)
    ensures Sweeping(n, j).Ok? ==> Sweeping(n, j).value.credits == n.credits
    ensures Claiming(n, j, referred).Ok? ==> Claiming(n, j, referred).value.credits == n.credits
  {
  }

  lemma CheckpointPaysOnce(n: Game, owner: nat, account: nat, withMember: bool, withPool: bool, legacy: bool, creditable: bool, id: nat)
    requires Law(n) && Checkpointing(n, owner, account, withMember, withPool, legacy, creditable).Ok?
    ensures PaysOnce(CreditsOf(n, id), CreditsOf(Checkpointing(n, owner, account, withMember, withPool, legacy, creditable).value, id))
  {
    hide Law, Settling;
    var p := n.miners[owner].play;
    var round := if account in n.rounds then Some(n.rounds[account].round) else None;
    var gate := GateOf(p, round, n.board.roundId, n.slot).value;
    if gate.Settle? {
      RoundIds(n, account);
      NotPaidYet(n, owner);
      SettlingPaysOnce(n, owner, account, withMember, withPool, gate.botFee, creditable, id);
    }
  }

  lemma SettlingPaysOnce(n: Game, owner: nat, account: nat, withMember: bool, withPool: bool, botFee: bool, creditable: bool, id: nat)
    requires owner in n.miners && account in n.rounds && owner !in CreditsOf(n, account)
    requires Settling(n, owner, account, withMember, withPool, botFee, creditable).Ok?
    ensures PaysOnce(CreditsOf(n, id), CreditsOf(Settling(n, owner, account, withMember, withPool, botFee, creditable).value, id))
  {
    hide Due, Pay;
    if id == account {
      assert GrowsBy(CreditsOf(n, id), CreditsOf(Settling(n, owner, account, withMember, withPool, botFee, creditable).value, id), owner);
    }
  }

  /** What the bettors among `who` are due together. */
  ghost function Taken(round: Round, book: map<nat, Bet>, who: set<nat>): map<nat, int> {
    map a | a in book && a in who :: SolDue(round, book[a])
  }

  ghost function Winners(round: Round, r: uint64, book: map<nat, Bet>, who: set<nat>): map<nat, Bet> {
    map a | a in book && a in who && Wins(round, r, book[a]) :: book[a]
  }

  lemma SolDueNonNegative(round: Round, bet: Bet)
    ensures 0 <= SolDue(round, bet)
  {
    hide Rng, Total, WinningsShare, WinningSquare;
  }

  lemma TakenByWinners(round: Round, r: uint64, book: map<nat, Bet>, who: set<nat>)
    requires Rng(round.slotHash) == Some(r)
    ensures Sum(Taken(round, book, who)) <= Sum(SolDues(round, Winners(round, r, book, who)))
  {
    hide Rng, WinningsShare, Wins, Kept;
    var winners := Winners(round, r, book, who);
    forall a | a in winners ensures 0 <= SolDues(round, winners)[a] {
      SolDueNonNegative(round, winners[a]);
    }
    SumUnder(Taken(round, book, who), SolDues(round, winners));
  }

  lemma WinnersStakes(round: Round, r: uint64, book: map<nat, Bet>, who: set<nat>)
    ensures Sum(DeployedOn(Winners(round, r, book, who), WinningSquare(r))) <= Sum(DeployedOn(book, WinningSquare(r)))
    ensures AllWinners(round, r, Winners(round, r, book, who))
  {
    hide WinningSquare, Wins;
    SumUnder(DeployedOn(Winners(round, r, book, who), WinningSquare(r)), DeployedOn(book, WinningSquare(r)));
  }

  ghost predicate InMultiples(round: Round, book: map<nat, Bet>) {
    Even200(round.deployed) && forall a :: a in book ==> Even200(book[a].deployed)
  }

  lemma TakenWithin(round: Round, r: uint64, remaining: int, book: map<nat, Bet>, who: set<nat>)
    requires Closes(round, r, remaining) && Sum(DeployedOn(book, WinningSquare(r))) == round.deployed[WinningSquare(r)]
    ensures Sum(Taken(round, book, who)) <= remaining + |Winners(round, r, book, who)|
    ensures InMultiples(round, book) ==> Sum(Taken(round, book, who)) <= remaining
  {
    hide WinningSquare, Wins, Even200, AllWinners, Rng, SolDue, Sum, Total;
    var winners := Winners(round, r, book, who);
    TakenByWinners(round, r, book, who);
    WinnersStakes(round, r, book, who);
    SolExceedsByOnePerWinner(round, r, remaining, winners);
    if InMultiples(round, book) {
      SolNeverExceedsInMultiples(round, r, remaining, winners);
    }
  }

  lemma TakenRefund(round: Round, book: map<nat, Bet>, who: set<nat>)
    requires Rng(round.slotHash) == None && forall i :: 0 <= i < SQUARES ==> Sum(DeployedOn(book, i)) == round.deployed[i]
    ensures Sum(Taken(round, book, who)) <= Total(round.deployed)
    ensures book.Keys <= who ==> Sum(Taken(round, book, who)) == Total(round.deployed)
  {
    hide Rng, SolDue, Sum, Total;
    RefundsAreExact(round, book);
    forall a | a in book ensures 0 <= SolDues(round, book)[a] {
      SolDueNonNegative(round, book[a]);
    }
    SumUnder(Taken(round, book, who), SolDues(round, book));
    if book.Keys <= who {
      assert Taken(round, book, who) == SolDues(round, book);
    }
  }

  lemma NobodyWins(round: Round, r: uint64, book: map<nat, Bet>, who: set<nat>)
    requires Rng(round.slotHash) == Some(r) && round.deployed[WinningSquare(r)] == 0
    ensures Sum(Taken(round, book, who)) == 0
  {
    hide Rng, WinningsShare, Kept;
    SumAllZero(Taken(round, book, who));
  }

  lemma CreditsAreTaken(round: Round, book: map<nat, Bet>, pooled: Grid, credits: map<nat, Payout>)
    requires forall a :: a in credits ==> Proper(round, book, pooled, a, credits[a])
    ensures Sum(SolsOf(credits)) == Sum(Taken(round, book, credits.Keys))
  {
    hide SolDue, GodlDue, Sum;
    var taken := Taken(round, book, credits.Keys);
    forall a | a in taken ensures 0 <= taken[a] {
      SolDueNonNegative(round, book[a]);
    }
    SumUnder(SolsOf(credits), taken);
    SumUnder(taken, SolsOf(credits));
  }

  /** A finished round of any lawful state, seen through its book. */
  lemma FinishedRound(n: Game, id: nat)
    requires Law(n) && id in n.rounds && id != n.board.roundId
    ensures id in n.pools && Finished(n.rounds[id].round)
    ensures var round, book := n.rounds[id].round, BookOf(n, id);
      && (forall i :: 0 <= i < SQUARES ==> Sum(DeployedOn(book, i)) == round.deployed[i])
      && Sum(SolsOf(CreditsOf(n, id))) == Sum(Taken(round, book, CreditsOf(n, id).Keys))
      && n.roundRent + Available(round) <= n.rounds[id].lamports + Sum(SolsOf(CreditsOf(n, id)))
  {
    hide MinerLaw, Finished, Available, SolDue, Sum, Tiled, Proper;
    assert RoundLawAt(n, id);
    CreditsAreTaken(n.rounds[id].round, BookOf(n, id), n.pools[id].deployed, CreditsOf(n, id));
  }

  /** The SOL paid on a drawn round, to whichever miners came and in whatever order, exceeds what
      the round had left after its reset by at most one lamport per winner, and not at all when all
      deployments are multiples of 200 lamports. */
  lemma SolPaidWithinRound(g: Game, history: seq<Instruction>, id: nat, r: uint64)
    requires Law(g)
    requires var n := Runs.Run(Step, g, history); id in n.rounds && Rng(n.rounds[id].round.slotHash) == Some(r)
    ensures var n := Runs.Run(Step, g, history);
      var round, book, credits := n.rounds[id].round, BookOf(n, id), CreditsOf(n, id);
      if round.deployed[WinningSquare(r)] == 0 then Sum(SolsOf(credits)) == 0
      else
        && Sum(SolsOf(credits)) <= Available(round) + |Winners(round, r, book, credits.Keys)|
        && (InMultiples(round, book) ==> Sum(SolsOf(credits)) <= Available(round))
  {
    hide Step, Runs.Run, Law, Sum, InMultiples, Available, Rng, Winners, SolDue, WinningSquare, Closes;
    RunKeepsLaw(g, history);
    var n := Runs.Run(Step, g, history);
    CurrentUndrawn(n);
    FinishedRound(n, id);
    var round, book, credits := n.rounds[id].round, BookOf(n, id), CreditsOf(n, id);
    if round.deployed[WinningSquare(r)] == 0 {
      NobodyWins(round, r, book, credits.Keys);
    } else {
      TakenWithin(round, r, Available(round), book, credits.Keys);
    }
  }

  lemma CurrentUndrawn(n: Game)
    requires Law(n)
    ensures n.board.roundId in n.rounds && Rng(n.rounds[n.board.roundId].round.slotHash) == None
  {
    hide MinerLaw;
    assert RoundLawAt(n, n.board.roundId);
  }

  /** A round without randomness gives back at most what was deployed on it, and exactly that once
      every bettor has come. */
  lemma RefundedExactly(g: Game, history: seq<Instruction>, id: nat)
    requires Law(g)
    requires var n := Runs.Run(Step, g, history);
      id in n.rounds && id != n.board.roundId && Rng(n.rounds[id].round.slotHash) == None
    ensures var n := Runs.Run(Step, g, history);
      var round, book, credits := n.rounds[id].round, BookOf(n, id), CreditsOf(n, id);
      && Sum(SolsOf(credits)) <= Total(round.deployed)
      && (book.Keys <= credits.Keys ==> Sum(SolsOf(credits)) == Total(round.deployed))
  {
    hide Step, Runs.Run, Law, Sum, Rng, SolDue, Total, Available, Finished;
    RunKeepsLaw(g, history);
    var n := Runs.Run(Step, g, history);
    FinishedRound(n, id);
    TakenRefund(n.rounds[id].round, BookOf(n, id), CreditsOf(n, id).Keys);
  }

  lemma CreditedGodl(round: Round, book: map<nat, Bet>, pooled: Grid, credits: map<nat, Payout>)
    requires forall a :: a in credits ==> Proper(round, book, pooled, a, credits[a])
    ensures Sum(GodlsOf(credits)) <= Sum(GodlDues(round, book, pooled))
  {
    hide SolDue, GodlDue, Sum;
    SumUnder(GodlsOf(credits), GodlDues(round, book, pooled));
  }

  lemma NoGodlUndrawn(round: Round, book: map<nat, Bet>, pooled: Grid)
    requires Rng(round.slotHash) == None
    ensures Sum(GodlDues(round, book, pooled)) == 0
  {
    hide Rng, BaseDue, MotherlodeDue;
    SumAllZero(GodlDues(round, book, pooled));
  }

  /** The GODL credited by all checkpoints of a round is at most its reward plus its motherlode,
      whether it is split, pooled or taken by one miner. */
  lemma GodlPaidWithinReward(g: Game, history: seq<Instruction>, id: nat)
    requires Law(g) && id in Runs.Run(Step, g, history).rounds
    ensures var n := Runs.Run(Step, g, history);
      Sum(GodlsOf(CreditsOf(n, id))) <= n.rounds[id].round.topMinerReward + n.rounds[id].round.motherlode
  {
    hide Step, Runs.Run, Law, Sum, Rng, GodlDue, WinningSquare, Tiled;
    RunKeepsLaw(g, history);
    var n := Runs.Run(Step, g, history);
    var round, book := n.rounds[id].round, BookOf(n, id);
    RoundCredits(n, id);
    var pooled := n.pools[id].deployed;
    CreditedGodl(round, book, pooled, CreditsOf(n, id));
    match Rng(round.slotHash)
    case None => NoGodlUndrawn(round, book, pooled);
    case Some(r) =>
      SquareOf(n, id, WinningSquare(r));
      GodlNeverExceeds(round, r, book, pooled);
  }

  lemma RoundCredits(n: Game, id: nat)
    requires Law(n) && id in n.rounds
    ensures id in n.pools
    ensures forall a :: a in CreditsOf(n, id) ==> Proper(n.rounds[id].round, BookOf(n, id), n.pools[id].deployed, a, CreditsOf(n, id)[a])
  {
    hide MinerLaw, Proper, Booked;
    assert RoundLawAt(n, id);
  }

  /** What a round still owes a miner that has not come yet, compared with what it holds. */
  lemma OneMore(n: Game, owner: nat, id: nat, bound: int)
    requires Law(n) && owner in n.miners && id == n.miners[owner].play.roundId && id in n.rounds && id != n.board.roundId
    requires n.miners[owner].play.checkpointId != id
    requires var round, book := n.rounds[id].round, BookOf(n, id);
      Sum(Taken(round, book, CreditsOf(n, id).Keys + {owner})) <= Available(round) + bound
    ensures SolDue(n.rounds[id].round, BetOf(n.miners[owner].play, MemberAt(n, owner))) <= n.rounds[id].lamports - n.roundRent + bound
  {
    hide Law, SolDue, Available, Sum, Finished;
    var round, book, paid := n.rounds[id].round, BookOf(n, id), CreditsOf(n, id).Keys;
    FinishedRound(n, id);
    NotPaidYet(n, owner);
    MinerIn(n, owner);
    if owner in book {
      assert Taken(round, book, paid + {owner}) == Taken(round, book, paid)[owner := SolDue(round, book[owner])];
      SumPut(Taken(round, book, paid), owner, SolDue(round, book[owner]));
    } else {
      assert Taken(round, book, paid + {owner}) == Taken(round, book, paid);
      NothingDue(round, BetOf(n.miners[owner].play, MemberAt(n, owner)), Zeros());
    }
  }

  lemma MinerIn(n: Game, owner: nat)
    requires Law(n) && owner in n.miners
    ensures MinerLawAt(n, owner)
    ensures var p, book := n.miners[owner].play, BookOf(n, n.miners[owner].play.roundId);
      if p.deployed == Zeros() then owner !in book else owner in book && book[owner] == BetOf(p, MemberAt(n, owner))
  {
    hide RoundLaw;
    assert MinerLawAt(n, owner);
    BetInBook(n, owner);
  }

  lemma LostLeavesNothing(round: Round, r: uint64)
    requires Finished(round) && Rng(round.slotHash) == Some(r) && round.deployed[WinningSquare(r)] == 0
    ensures Available(round) == 0
  {
    hide Available, Rng, WinningSquare, Closes;
  }

  /** A refund, and a win when all deployments are multiples of 200 lamports, is always covered by
      what the round holds above its rent; any other win is short by at most one lamport for each
      winner paid so far, this one included. */
  lemma RoundCoversEveryMiner(g: Game, history: seq<Instruction>, owner: nat)
    requires Law(g)
    requires var n := Runs.Run(Step, g, history);
      && owner in n.miners && n.miners[owner].play.roundId in n.rounds && n.miners[owner].play.roundId != n.board.roundId
      && n.miners[owner].play.checkpointId != n.miners[owner].play.roundId
    ensures var n := Runs.Run(Step, g, history);
      var id := n.miners[owner].play.roundId;
      var round, book := n.rounds[id].round, BookOf(n, id);
      var due := SolDue(round, BetOf(n.miners[owner].play, MemberAt(n, owner)));
      var held := n.rounds[id].lamports - n.roundRent;
      match Rng(round.slotHash)
      case None => due <= held
      case Some(r) =>
        && (InMultiples(round, book) ==> due <= held)
        && due <= held + |Winners(round, r, book, CreditsOf(n, id).Keys + {owner})|
  {
    hide Step, Runs.Run, Law, Sum, InMultiples, Rng, Winners, SolDue, WinningSquare, Closes, Total;
    RunKeepsLaw(g, history);
    var n := Runs.Run(Step, g, history);
    var id := n.miners[owner].play.roundId;
    var round, book, who := n.rounds[id].round, BookOf(n, id), CreditsOf(n, id).Keys + {owner};
    FinishedRound(n, id);
    match Rng(round.slotHash)
    case None =>
      TakenRefund(round, book, who);
      OneMore(n, owner, id, 0);
    case Some(r) =>
      if round.deployed[WinningSquare(r)] == 0 {
        NobodyWins(round, r, book, who);
        LostLeavesNothing(round, r);
        OneMore(n, owner, id, 0);
      } else {
        TakenWithin(round, r, Available(round), book, who);
        OneMore(n, owner, id, |Winners(round, r, book, who)|);
        if InMultiples(round, book) {
          OneMore(n, owner, id, 0);
        }
      }
  }

  /** The final check on a checkpoint's lamports never fires: in every reachable state, a payment
      whose sums stay in 64 bits fails only if the round cannot pay it. */
  lemma FundingCheckNeverFires(g: Game, history: seq<Instruction>, owner: nat, roundLamports: nat, sol: uint64, botFee: bool)
    requires Law(g) && owner in Runs.Run(Step, g, history).miners
    ensures var n := Runs.Run(Step, g, history);
      var m := n.miners[owner];
      var paid := Pay(m.play, m.lamports, roundLamports, sol, botFee, n.minerRent);
      paid.Ok? <==> sol <= roundLamports && m.play.rewardsSol + sol <= UINT64_MAX && m.play.lifetimeRewardsSol + sol <= UINT64_MAX
  {
    hide Step, Runs.Run, Law, MinerLawAt, Pay;
    RunKeepsLaw(g, history);
    var n := Runs.Run(Step, g, history);
    MinerIn(n, owner);
    PayFails(n, owner, roundLamports, sol, botFee);
  }

  lemma PayFails(n: Game, owner: nat, roundLamports: nat, sol: uint64, botFee: bool)
    requires MinerLawAt(n, owner) && owner in n.miners
    ensures var m := n.miners[owner];
      var paid := Pay(m.play, m.lamports, roundLamports, sol, botFee, n.minerRent);
      paid.Ok? <==> sol <= roundLamports && m.play.rewardsSol + sol <= UINT64_MAX && m.play.lifetimeRewardsSol + sol <= UINT64_MAX
  {
  }

  /** The sanity check of a reset never fires, and holds with equality. */
  lemma SanityCheckNeverFires(g: Game, history: seq<Instruction>, winning: nat)
    requires Law(g) && winning < SQUARES
    requires var n := Runs.Run(Step, g, history);
      n.board.roundId in n.rounds && Reset.PotOf(n.rounds[n.board.roundId].round, winning).Ok?
    ensures var n := Runs.Run(Step, g, history);
      var round := n.rounds[n.board.roundId].round;
      var pot := Reset.PotOf(round, winning).value;
      round.totalDeployed == pot.vault + pot.winnings + round.deployed[winning] + pot.fees
  {
    hide Step, Runs.Run, RoundLaw, MinerLaw, Reset.PotOf, Total;
    RunKeepsLaw(g, history);
    var n := Runs.Run(Step, g, history);
    assert RoundLawAt(n, n.board.roundId);
    CurrentIsOpen(n);
    Reset.SanityHoldsWithEquality(n.rounds[n.board.roundId].round, winning);
  }

  /** No history takes the supply of GODL past its cap. */
  lemma SupplyStaysCapped(g: Game, history: seq<Instruction>)
    requires g.supply <= MAX_SUPPLY
    ensures Runs.Run(Step, g, history).supply <= MAX_SUPPLY
  {
    hide Step;
    forall s, i | Capped(s) && Step(s, i).Ok? ensures Capped(Step(s, i).value) {
      StepCaps(s, i);
    }
    Runs.RunKeeps(Step, Capped, g, history);
  }

  ghost predicate Capped(g: Game) {
    g.supply <= MAX_SUPPLY
  }

  lemma StepCaps(g: Game, i: Instruction)
    requires Capped(g) && Step(g, i).Ok?
    ensures Capped(Step(g, i).value)
  {
    hide Checkpointing, Bets, Sweeping, Claiming, Reset.Closed;
    match i
    case CheckpointMiner(owner, account, withMember, withPool, legacy, creditable) =>
      CheckpointMintsNothing(g, owner, account, withMember, withPool, legacy, creditable);
    case PlaceBets(owner, order, config, legacy) => BetsMintNothing(g, owner, order, config, legacy);
    case CloseRound(mode, config, value, candidate, ticket) =>
      Reset.ResetConserves(TableOf(g, g.rounds[g.board.roundId]), g.slot, config, value, mode, CandidateAt(g, candidate),
                           TicketFor(g, mode, candidate, ticket));
    case SweepRound(j) => OthersMintNothing(g, j, false);
    case ClaimSol(owner, referred) => OthersMintNothing(g, owner, referred);
    case _ =>
  }

  lemma CheckpointMintsNothing(g: Game, owner: nat, account: nat, withMember: bool, withPool: bool, legacy: bool, creditable: bool)
    ensures var n := Checkpointing(g, owner, account, withMember, withPool, legacy, creditable); n.Ok? ==> n.value.supply == g.supply
  {
    hide Due, Pay, GateOf;
  }

  lemma BetsMintNothing(g: Game, owner: nat, order: Deploy.Order, config: Config, legacy: bool)
    ensures var n := Bets(g, owner, order, config, legacy); n.Ok? ==> n.value.supply == g.supply
  {
    hide Deploy.Deployed;
  }

  lemma OthersMintNothing(g: Game, j: nat, referred: bool)
    ensures Sweeping(g, j).Ok? ==> Sweeping(g, j).value.supply == g.supply
    ensures Claiming(g, j, referred).Ok? ==> Claiming(g, j, referred).value.supply == g.supply
  {
  }

  /** The miner bet on this square with the pool in the current round. */
  ghost predicate BetsPooled(g: Game, a: nat, square: nat)
    requires square < SQUARES
  {
    a in g.members && g.members[a].roundId == g.board.roundId && 0 < g.members[a].deployed[square]
  }

  /** The pool is to take the round: the owner of the sample bet with it, and the round does not split. */
  ghost predicate PoolHolds(g: Game, r: uint64)
    requires g.board.roundId in g.rounds
  {
    !IsSplit(r) && exists a :: Lays(g, a, WinningSquare(r), Sample(g, r)) && BetsPooled(g, a, WinningSquare(r))
  }

  /** The caller passed the owner of the sample, with its own membership. */
  ghost predicate Gave(g: Game, r: uint64, candidate: Option<nat>, ticket: Option<nat>)
    requires g.board.roundId in g.rounds
  {
    candidate.Some? && ticket == candidate && Lays(g, candidate.value, WinningSquare(r), Sample(g, r))
  }

  /** What the lenient reset decides with these accounts. */
  ghost function Latched(g: Game, r: uint64, candidate: Option<nat>, ticket: Option<nat>): Result<TopMiner>
    requires g.board.roundId in g.rounds
  {
    Reset.LenientTop(g.rounds[g.board.roundId].round, r, CandidateAt(g, candidate), TicketAt(g, ticket))
  }

  lemma OpenUnset(n: Game)
    requires Law(n)
    ensures n.rounds[n.board.roundId].round.topMiner == Unset
  {
    hide RoundLaw, MinerLaw;
    assert RoundLawAt(n, n.board.roundId);
    CurrentIsOpen(n);
  }

  /** The lenient reset latches the pool exactly when it is given the owner of the sample and that
      owner bet with the pool. */
  lemma LenientLatch(n: Game, r: uint64, candidate: Option<nat>, ticket: Option<nat>)
    requires Law(n) && !IsSplit(r) && Latched(n, r, candidate, ticket).Ok?
    ensures Latched(n, r, candidate, ticket).value in {Pool, Unset}
    ensures Latched(n, r, candidate, ticket).value == Pool
      <==> Gave(n, r, candidate, ticket) && BetsPooled(n, candidate.value, WinningSquare(r))
  {
    hide RoundLaw, MinerLaw, Bettors, Paid, IsSplit, TopMinerSample, WinningSquare;
    OpenUnset(n);
    RoundIds(n, n.board.roundId);
  }

  /** The strict reset accepts only the owner of the sample, and finds the pool by itself. */
  lemma StrictLatch(n: Game, r: uint64, winner: Option<nat>)
    requires Law(n) && !IsSplit(r) && Judged(n, r, winner).Ok?
    ensures winner.Some? && Lays(n, winner.value, WinningSquare(r), Sample(n, r))
    ensures Judged(n, r, winner).value == if BetsPooled(n, winner.value, WinningSquare(r)) then Pool else Unset
  {
    hide RoundLaw, MinerLaw, Bettors, Paid, IsSplit, TopMinerSample, WinningSquare;
    OpenUnset(n);
    RoundIds(n, n.board.roundId);
  }

  lemma OwnerDecides(n: Game, r: uint64, a: nat)
    requires Law(n) && !IsSplit(r) && 0 < n.rounds[n.board.roundId].round.deployed[WinningSquare(r)]
    requires Lays(n, a, WinningSquare(r), Sample(n, r))
    ensures PoolHolds(n, r) <==> BetsPooled(n, a, WinningSquare(r))
    ensures forall b :: Lays(n, b, WinningSquare(r), Sample(n, r)) ==> b == a
  {
    hide Law, Lays, IsSplit, WinningSquare, BetsPooled;
    LawfulBoard(n);
    LivePartition(n, WinningSquare(r), Sample(n, r));
  }

  /** In a lawful state both resets decide alike unless the pool is to take the round and the lenient
      one was not given the owner of the sample with its membership. */
  lemma TopsAgreeExactly(n: Game, r: uint64, candidate: Option<nat>, ticket: Option<nat>, winner: Option<nat>)
    requires Law(n) && 0 < n.rounds[n.board.roundId].round.deployed[WinningSquare(r)]
    requires Latched(n, r, candidate, ticket).Ok? && Judged(n, r, winner).Ok?
    ensures var lenient, strict := Latched(n, r, candidate, ticket).value, Judged(n, r, winner).value;
      && (lenient == strict <==> (PoolHolds(n, r) ==> Gave(n, r, candidate, ticket)))
      && (lenient != strict ==> lenient == Unset && strict == Pool)
  {
    hide Law, Lays, IsSplit, TopMinerSample, WinningSquare, BetsPooled, Latched, Judged, PoolHolds;
    LawfulBoard(n);
    if IsSplit(r) {
      BothSplit(n, r, candidate, ticket, winner);
    } else {
      LenientLatch(n, r, candidate, ticket);
      StrictLatch(n, r, winner);
      OwnerDecides(n, r, winner.value);
    }
  }

  lemma BothSplit(n: Game, r: uint64, candidate: Option<nat>, ticket: Option<nat>, winner: Option<nat>)
    requires n.board.roundId in n.rounds && IsSplit(r)
    ensures Latched(n, r, candidate, ticket) == Ok(Split) == Judged(n, r, winner) && !PoolHolds(n, r)
  {
    hide IsSplit;
  }

  /** Nothing is left undecided: there is no draw, nobody won, the pool is not to take the round, or
      the caller passed the accounts that show it is. */
  ghost predicate Decided(g: Game, value: Hash, candidate: Option<nat>, ticket: Option<nat>)
    requires g.board.roundId in g.rounds
  {
    match Rng(value)
    case None => true
    case Some(r) =>
      g.rounds[g.board.roundId].round.deployed[WinningSquare(r)] == 0 || (PoolHolds(g, r) ==> Gave(g, r, candidate, ticket))
  }

  ghost predicate UndecidedPool(lenient: Game, strict: Game, id: nat) {
    && id in strict.rounds && strict.rounds[id].round.topMiner == Pool
    && lenient == strict.(rounds := strict.rounds[id :=
         strict.rounds[id].(round := strict.rounds[id].round.(topMiner := Unset))])
  }

  lemma ClosingsAgree(n: Game, config: Config, value: Hash, candidate: Option<nat>, ticket: Option<nat>, winner: Option<nat>)
    requires Law(n)
    requires Closing(n, Reset.Lenient, config, value, candidate, ticket).Ok? && Closing(n, Reset.Strict, config, value, winner, None).Ok?
    ensures var lenient := Closing(n, Reset.Lenient, config, value, candidate, ticket).value;
      var strict := Closing(n, Reset.Strict, config, value, winner, None).value;
      && (lenient == strict <==> Decided(n, value, candidate, ticket))
      && (lenient != strict ==> UndecidedPool(lenient, strict, n.board.roundId))
  {
    hide Law, Reset.Closed, Reset.LenientTop, Reset.StrictTop, Rng, WinningSquare, PoolHolds, Gave;
    var id := n.board.roundId;
    var t := TableOf(n, n.rounds[id]);
    var c, k, d := CandidateAt(n, candidate), TicketAt(n, ticket), CandidateAt(n, winner);
    Reset.OnlyTheTopDepends(t, n.slot, config, value, Reset.Lenient, c, k, Reset.Strict, d, TicketAt(n, winner));
    var lenient := Closing(n, Reset.Lenient, config, value, candidate, ticket).value;
    var strict := Closing(n, Reset.Strict, config, value, winner, None).value;
    assert lenient == strict <==> lenient.rounds[id].round.topMiner == strict.rounds[id].round.topMiner;
    if Rng(value).Some? && t.round.deployed[WinningSquare(Rng(value).value)] != 0 {
      TopsAgreeExactly(n, Rng(value).value, candidate, ticket, winner);
    }
  }

  /** Whoever resets, and with whatever accounts, the outcome in every reachable state is the same
      exactly when nothing is left undecided; otherwise the lenient instruction leaves a pool win
      to be taken solo. */
  lemma OutcomeDoesNotDependOnTheCaller(g: Game, history: seq<Instruction>, config: Config, value: Hash,
                                        candidate: Option<nat>, ticket: Option<nat>, winner: Option<nat>)
    requires Law(g)
    requires var n := Runs.Run(Step, g, history);
      && Closing(n, Reset.Lenient, config, value, candidate, ticket).Ok?
      && Closing(n, Reset.Strict, config, value, winner, None).Ok?
    ensures var n := Runs.Run(Step, g, history);
      var lenient := Closing(n, Reset.Lenient, config, value, candidate, ticket).value;
      var strict := Closing(n, Reset.Strict, config, value, winner, None).value;
      && n.board.roundId in n.rounds
      && (lenient == strict <==> Decided(n, value, candidate, ticket))
      && (lenient != strict ==> UndecidedPool(lenient, strict, n.board.roundId))
  {
    hide Step, Runs.Run, Law, Closing, UndecidedPool, Decided;
    RunKeepsLaw(g, history);
    LawfulBoard(Runs.Run(Step, g, history));
    ClosingsAgree(Runs.Run(Step, g, history), config, value, candidate, ticket, winner);
  }
}
