/** Histories that reach the corners of the round game: a pool win the lenient reset leaves
    undecided, and a round that owes its two winners more than it has left. */
module GameWitnesses {
  import opened Basics
  import opened BoardState
  import opened Checkpoint
  import opened Draw
  import opened Game
  import opened GameLaws
  import opened GameSteps
  import opened GameTheorems
  import opened MapSums
  import opened MinerState
  import opened Payouts
  import opened PoolState
  import opened RandomMask
  import opened RoundState
  import opened SquareRoot
  import opened TreasuryState
  import Deploy
  import Reset
  import Runs

  /** The entropy of both histories: its word is 2^15, which draws square 18 and does not split. */
  function Entropy(): Hash {
    Repeated(0)[1 := 0x80]
  }

  const WORD: uint64 := 0x8000
  const DRAWN: nat := 18
  const SETTINGS := Config(150, 25, 100_000_000_000, 500)

  lemma {:induction false} ReversedZero(width: nat)
    ensures Reversed(0, width) == 0
  {
    if width > 0 {
      ReversedZero(width - 1);
    }
  }

  lemma {:induction false} ReversedPower(bit: nat, width: nat)
    requires bit < width
    ensures Reversed(PowerOfTwo(bit), width) == PowerOfTwo(width - 1 - bit)
    decreases width
  {
    if bit == 0 {
      ReversedZero(width - 1);
    } else {
      ReversedPower(bit - 1, width - 1);
    }
  }

  lemma WordReversed()
    ensures ReverseBits(WORD) == 0x1_0000_0000_0000
  {
    hide PowerOfTwo, Reversed;
    PowersUsed();
    var bit, width := 15, 64;
    ReversedPower(bit, width);
  }

  lemma WordDoesNotSplit()
    ensures !IsSplit(WORD)
  {
    hide ReverseBits, Xor;
    WordReversed();
    var width := 16;
    XorParity(0, 0, width);
    XorParity(Xor(0, 0, width), 0, width);
    XorParity(Xor(Xor(0, 0, width), 0, width), 1, width);
  }

  lemma EntropyDraws()
    ensures Rng(Entropy()) == Some(WORD) && WinningSquare(WORD) == DRAWN && Entropy() != Repeated(0)
  {
    var h := Entropy();
    assert h[1] == 0x80 && Repeated(0)[1] == 0 && Repeated(0xFF)[0] == 0xFF && h[0] == 0;
    assert Word(h[0..8]) == WORD && Word(h[8..16]) == 0 && Word(h[16..24]) == 0 && Word(h[24..32]) == 0;
    MixedZero(WORD, 64);
  }

  lemma MixedZero(a: uint64, width: nat)
    requires width == 64
    ensures Mixed(a, 0) == a
  {
    WordSizes();
    XorZero(a, width);
  }

  ghost function On(amount: uint64): Grid {
    Zeros()[DRAWN := amount]
  }

  lemma OnTotal(amount: uint64)
    ensures Total(On(amount)) == amount && Losing(On(amount), DRAWN) == 0
  {
    hide Total;
    TotalZeros(Zeros());
    TotalUpdate(Zeros(), DRAWN, amount);
  }

  ghost function Chosen(): Mask {
    Upto(seq(SQUARES, i => i == DRAWN), DRAWN + 1)
  }

  /** A manual bet on the one square. */
  ghost function Bid(amount: uint64, isPooled: bool): Deploy.Order {
    Deploy.Order(Chosen(), amount, isPooled, None)
  }

  lemma OneChosen()
    ensures Count(Chosen()) == 1 && forall i :: 0 <= i < SQUARES ==> (Chosen()[i] <==> i == DRAWN)
  {
    hide Count;
    var squares: Mask := seq(SQUARES, i => i == DRAWN);
    UptoStart(squares);
    assert Upto(squares, DRAWN) == Upto(squares, 0);
    UptoGrows(squares, DRAWN);
  }

  lemma BidLaid(s: Deploy.Seat, amount: uint64, isPooled: bool)
    requires Deploy.CanBet(s.round, DRAWN, amount)
    ensures Deploy.Placed(s, Bid(amount, isPooled)) == Ok(Deploy.SeatBet(s, DRAWN, amount, isPooled))
  {
    hide Count, Deploy.LaidSeat, Deploy.LaidRound, Deploy.SeatBet;
    var squares: Mask := seq(SQUARES, i => i == DRAWN);
    OneChosen();
    assert Upto(squares, DRAWN) == Upto(squares, 0);
    Deploy.LaidNothing(s, squares, amount, false);
    Deploy.LaidNothing(s, squares, amount, isPooled);
    LaidRoundNothing(s.round, squares, amount);
    Deploy.SeatNext(s, squares, DRAWN, amount, isPooled);
  }

  lemma LaidRoundNothing(r: Round, squares: Mask, amount: uint64)
    ensures Deploy.LaidRound(r, Upto(squares, 0), amount) == r
  {
    hide Count;
    UptoStart(squares);
    Deploy.LayStart(r.deployed, squares, amount);
    Deploy.LayStart(r.count, squares, 1);
  }

  /** The current round takes bets, and a few more lamports overflow nothing. */
  ghost predicate TakesBids(g: Game) {
    && Current(g).Ok? && 0 < g.board.roundId
    && g.board.startSlot <= g.slot < g.board.endSlot && g.slot <= 1_000_000
    && var r := g.rounds[g.board.roundId].round;
       r.deployed[DRAWN] <= 1000 && r.count[DRAWN] <= 1000 && r.totalDeployed <= 1000
  }

  /** The game before and after a bet of `amount` on the drawn square by somebody new. */
  ghost predicate Landed(g: Game, n: Game, owner: nat, amount: uint64, isPooled: bool)
    requires TakesBids(g) && amount <= 1000
  {
    var id := g.board.roundId;
    var before := g.rounds[id].round;
    && n.board == (if g.board.endSlot == UINT64_MAX then Board(id, g.slot, g.slot + SETTINGS.roundSlots) else g.board)
    && id in n.rounds && n.rounds == g.rounds[id := n.rounds[id]] && n.rounds[id].lamports == g.rounds[id].lamports + amount
    && n.rounds[id].round == before.(deployed := before.deployed[DRAWN := before.deployed[DRAWN] + amount],
         count := n.rounds[id].round.count, expiresAt := n.rounds[id].round.expiresAt, totalDeployed := before.totalDeployed + amount)
    && n.rounds[id].round.count[DRAWN] == (before.count[DRAWN] as int) + 1
    && n.pools.Keys == g.pools.Keys && id in n.pools && n.pools[id].id == id
    && owner in n.miners && n.miners == g.miners[owner := n.miners[owner]]
    && n.miners[owner].play.roundId == id && n.miners[owner].play.deployed == On(amount)
    && n.miners[owner].play.cumulative == before.deployed
    && n.members == (if isPooled then g.members[owner := PoolMember(id, On(amount), amount)] else g.members)
    && n.treasury == g.treasury && n.solMotherlode == g.solMotherlode && n.supply == g.supply
    && n.slot == g.slot && n.roundRent == g.roundRent && n.credits == g.credits
    && n.book == g.book[id := BookOf(g, id)[owner := Bet(On(amount), before.deployed, if isPooled then On(amount) else Zeros())]]
  }

  ghost predicate SeatLands(s: Deploy.Seat, d: Deploy.Deployment, slot: uint64, amount: uint64, isPooled: bool)
    requires s.round.deployed[DRAWN] + amount <= UINT64_MAX && s.round.totalDeployed + amount <= UINT64_MAX && slot <= 1_000_000
  {
    && d.placed == amount && d.topUp == Deploy.CHECKPOINT_FEE
    && d.seat.board == (if s.board.endSlot == UINT64_MAX then Board(s.board.roundId, slot, slot + SETTINGS.roundSlots) else s.board)
    && d.seat.round == s.round.(deployed := s.round.deployed[DRAWN := s.round.deployed[DRAWN] + amount],
         count := d.seat.round.count, expiresAt := d.seat.round.expiresAt, totalDeployed := s.round.totalDeployed + amount)
    && d.seat.round.count[DRAWN] == (s.round.count[DRAWN] as int) + 1
    && d.seat.play.roundId == s.round.id && d.seat.play.deployed == On(amount) && d.seat.play.cumulative == s.round.deployed
    && d.seat.pool.id == s.pool.id
    && d.seat.member == if isPooled then Some(PoolMember(s.round.id, On(amount), amount)) else None
  }

  lemma BidSeats(s: Deploy.Seat, slot: uint64, amount: uint64, isPooled: bool)
    requires s.play == NEW_PLAY && s.member == None && 0 < s.round.id && 0 < amount <= 1000
    requires s.board.startSlot <= slot < s.board.endSlot && slot <= 1_000_000
    requires s.round.deployed[DRAWN] <= 1000 && s.round.count[DRAWN] <= 1000 && s.round.totalDeployed <= 1000
    ensures Deploy.Deployed(s, Bid(amount, isPooled), slot, SETTINGS).Ok?
    ensures SeatLands(s, Deploy.Deployed(s, Bid(amount, isPooled), slot, SETTINGS).value, slot, amount, isPooled)
  {
    hide Count, Deploy.LaidSeat, Deploy.Placed;
    var entered := Deploy.Entered(s, slot, SETTINGS).value;
    OneChosen();
    BidLaid(entered, amount, isPooled);
    var d := Deploy.Deployed(s, Bid(amount, isPooled), slot, SETTINGS).value;
    assert Zeros()[DRAWN] == 0;
    assert d.seat.play.cumulative == s.round.deployed;
  }

  lemma BidLands(g: Game, owner: nat, amount: uint64, isPooled: bool)
    requires TakesBids(g) && owner !in g.miners && owner !in g.members && 0 < amount <= 1000
    ensures Bets(g, owner, Bid(amount, isPooled), SETTINGS, false).Ok?
    ensures Landed(g, Bets(g, owner, Bid(amount, isPooled), SETTINGS, false).value, owner, amount, isPooled)
  {
    hide Deploy.Deployed;
    var id := g.board.roundId;
    BidSeats(Deploy.Seat(g.board, g.rounds[id].round, NEW_PLAY, None, g.pools[id]), g.slot, amount, isPooled);
    assert On(amount) != Zeros() by {
      assert On(amount)[DRAWN] == amount && Zeros()[DRAWN] == 0;
    }
  }

  /** A first round with `amount` lamports on the drawn square and nothing elsewhere, over and past
      its intermission. */
  ghost predicate Closable(n: Game, amount: uint64) {
    && n.board == Board(1, 0, 150) && n.slot == 175 && Current(n).Ok? && n.rounds.Keys == {1} == n.pools.Keys
    && n.treasury == Treasury(0, 0, 0, 0, 0, 0, 0) && n.solMotherlode == 0 && n.supply == 0
    && n.rounds[1].round.deployed == On(amount) && n.rounds[1].round.totalDeployed == amount
    && n.rounds[1].lamports == n.roundRent + amount
  }

  lemma PotIsEmpty(round: Round, amount: uint64)
    requires round.deployed == On(amount)
    ensures Reset.PotOf(round, DRAWN) == Ok(Reset.Pot(0, 0, 0))
  {
    hide Total, Losing;
    OnTotal(amount);
  }

  lemma RewardCommits(round: Round, mode: Reset.Mode, c: Option<Reset.Candidate>, k: Option<Reset.PoolTicket>)
    requires Reset.Top(mode, round, WORD, c, k).Ok?
    ensures Reset.Reward(round, 0, 0, SETTINGS, WORD, mode, c, k).Ok?
    ensures var n := Reset.Reward(round, 0, 0, SETTINGS, WORD, mode, c, k).value.round;
      n == round.(topMiner := n.topMiner, topMinerReward := n.topMinerReward, motherlode := n.motherlode)
  {
    hide Reset.Top, HitMotherlode;
  }

  lemma TopIgnores(mode: Reset.Mode, round: Round, c: Option<Reset.Candidate>, k: Option<Reset.PoolTicket>)
    ensures Reset.Top(mode, round.(slotHash := Entropy(), totalWinnings := 0, totalVaulted := 0), WORD, c, k)
         == Reset.Top(mode, round, WORD, c, k)
  {
    Reset.TopFrame(mode, round, round.(slotHash := Entropy(), totalWinnings := 0, totalVaulted := 0), WORD, c, k);
  }

  lemma ResetCommits(t: Reset.Table, amount: uint64, mode: Reset.Mode, c: Option<Reset.Candidate>, k: Option<Reset.PoolTicket>)
    requires t.board == Board(1, 0, 150) && t.treasury == Treasury(0, 0, 0, 0, 0, 0, 0) && t.solMotherlode == 0 && t.supply == 0
    requires t.round.deployed == On(amount) && t.round.totalDeployed == amount && 0 < amount <= 1000 && amount <= t.lamports
    requires Reset.Top(mode, t.round, WORD, c, k).Ok?
    ensures Reset.Closed(t, 175, SETTINGS, Entropy(), mode, c, k).Ok?
    ensures var o := Reset.Closed(t, 175, SETTINGS, Entropy(), mode, c, k).value;
      && o.table.round.slotHash == Entropy() && o.table.round.deployed == On(amount) && o.table.round.totalDeployed == amount
      && o.table.round.totalWinnings == 0 == o.table.round.totalVaulted
      && o.table.lamports == t.lamports - amount * Reset.ADMIN_FEE_BPS / DENOMINATOR_BPS
                             - amount * Reset.SOL_MOTHERLODE_BPS / DENOMINATOR_BPS
  {
    hide Rng, Reset.Top, Reset.PotOf, Reset.Reward, WinningSquare;
    var settled := t.round.(slotHash := Entropy(), totalWinnings := 0, totalVaulted := 0);
    EntropyDraws();
    PotIsEmpty(t.round.(slotHash := Entropy()), amount);
    TopIgnores(mode, t.round, c, k);
    RewardCommits(settled, mode, c, k);
    assert On(amount)[DRAWN] == amount;
  }

  lemma ClosingCommits(n: Game, amount: uint64, mode: Reset.Mode, candidate: Option<nat>, ticket: Option<nat>)
    requires Closable(n, amount) && 0 < amount <= 1000
    requires Reset.Top(mode, n.rounds[1].round, WORD, CandidateAt(n, candidate), TicketFor(n, mode, candidate, ticket)).Ok?
    ensures Closing(n, mode, SETTINGS, Entropy(), candidate, ticket).Ok?
    ensures var after := Closing(n, mode, SETTINGS, Entropy(), candidate, ticket).value;
      && 1 in after.rounds && after.rounds[1].round.slotHash == Entropy() && after.rounds[1].round.deployed == On(amount)
      && after.rounds[1].round.totalDeployed == amount && after.rounds[1].round.totalWinnings == 0 == after.rounds[1].round.totalVaulted
      && after.rounds[1].lamports == n.rounds[1].lamports - amount * Reset.ADMIN_FEE_BPS / DENOMINATOR_BPS
                                     - amount * Reset.SOL_MOTHERLODE_BPS / DENOMINATOR_BPS
      && after.board.roundId == 2 && after.roundRent == n.roundRent && after.book == n.book && after.credits == n.credits
  {
    hide Reset.Closed, Reset.Top, CandidateAt, TicketFor;
    var t := TableOf(n, n.rounds[1]);
    ResetCommits(t, amount, mode, CandidateAt(n, candidate), TicketFor(n, mode, candidate, ticket));
    Reset.ResetConserves(t, n.slot, SETTINGS, Entropy(), mode, CandidateAt(n, candidate), TicketFor(n, mode, candidate, ticket));
  }

  /** A game at its very first slot, with an empty treasury and whatever rents. */
  ghost function First(minerRent: nat, roundRent: nat): Game {
    GameTheorems.Opening(1, 0, Treasury(0, 0, 0, 0, 0, 0, 0), 0, 0, 0, 0, minerRent, roundRent)
  }

  ghost function Waited(g: Game): Game
    requires g.slot == 0
  {
    g.(slot := 175)
  }

  lemma WaitLands(g: Game)
    requires g.slot == 0
    ensures Step(g, Wait(175, 0)) == Ok(Waited(g))
  {
  }

  /** Miner 7 bets 200 lamports with the pool, alone, and the round runs out. */
  ghost function PooledHistory(): seq<Instruction> {
    [PlaceBets(7, Bid(200, true), SETTINGS, false), Wait(175, 0)]
  }

  lemma RunTwice(g: Game, i: Instruction, j: Instruction, m: Game, n: Game)
    requires Step(g, i) == Ok(m) && Step(m, j) == Ok(n)
    ensures Runs.Run(Step, g, [i, j]) == n
  {
    hide Step, Runs.Run;
    assert [i, j] == [i] + [j] && [j] == [j] + [];
    Runs.RunMore(Step, g, i, [j]);
    Runs.RunMore(Step, m, j, []);
    Runs.RunNothing(Step, n);
  }

  lemma FirstTakesBids(minerRent: nat, roundRent: nat)
    ensures var g := First(minerRent, roundRent); Law(g) && TakesBids(g) && g.miners == map[] && g.members == map[]
  {
    hide Law;
    OpeningIsLawful(1, 0, Treasury(0, 0, 0, 0, 0, 0, 0), 0, 0, 0, 0, minerRent, roundRent);
  }

  lemma PooledHistoryLands(minerRent: nat, roundRent: nat)
    ensures var g, n := First(minerRent, roundRent), Runs.Run(Step, First(minerRent, roundRent), PooledHistory());
      && Law(n) && Closable(n, 200) && n.rounds[1].round.topMiner == Unset
      && 7 in n.miners && n.miners[7].play.roundId == 1 && n.miners[7].play.deployed == On(200) && n.miners[7].play.cumulative == Zeros()
      && n.members == map[7 := PoolMember(1, On(200), 200)]
  {
    hide Step, Runs.Run, Law, Bid, On;
    var g := First(minerRent, roundRent);
    FirstTakesBids(minerRent, roundRent);
    BidLands(g, 7, 200, true);
    var m := Bets(g, 7, Bid(200, true), SETTINGS, false).value;
    BidIsStep(g, 7, 200, true);
    WaitLands(m);
    RunTwice(g, PlaceBets(7, Bid(200, true), SETTINGS, false), Wait(175, 0), m, Waited(m));
    RunKeepsLaw(g, PooledHistory());
    OnStarts(200);
  }

  lemma OnStarts(amount: uint64)
    ensures Zeros()[DRAWN := Zeros()[DRAWN] + amount] == On(amount)
  {
    assert Zeros()[DRAWN] == 0;
  }

  lemma BidIsStep(g: Game, owner: nat, amount: uint64, isPooled: bool)
    ensures Step(g, PlaceBets(owner, Bid(amount, isPooled), SETTINGS, false)) == Bets(g, owner, Bid(amount, isPooled), SETTINGS, false)
  {
    hide Bid, Bets;
  }

  lemma PooledOwner(n: Game)
    requires Closable(n, 200)
    requires 7 in n.miners && n.miners[7].play.roundId == 1 && n.miners[7].play.deployed == On(200) && n.miners[7].play.cumulative == Zeros()
    requires n.members == map[7 := PoolMember(1, On(200), 200)]
    ensures Lays(n, 7, DRAWN, Sample(n, WORD)) && BetsPooled(n, 7, DRAWN) && PoolHolds(n, WORD)
  {
    hide IsSplit, WinningSquare, Rng, TopMinerSample;
    EntropyDraws();
    WordDoesNotSplit();
    assert Zeros()[DRAWN] == 0 && On(200)[DRAWN] == 200;
    assert Lays(n, 7, WinningSquare(WORD), Sample(n, WORD)) && BetsPooled(n, 7, WinningSquare(WORD));
  }

  lemma OwnerLatches(n: Game)
    requires Law(n) && Closable(n, 200) && n.rounds[1].round.topMiner == Unset && 7 in n.members
    requires Lays(n, 7, DRAWN, Sample(n, WORD)) && BetsPooled(n, 7, DRAWN)
    ensures Judged(n, WORD, Some(7)).Ok? && Latched(n, WORD, Some(7), Some(7)).Ok? && Latched(n, WORD, None, None) == Ok(Unset)
  {
    hide Law, IsSplit, WinningSquare, Rng, TopMinerSample, Lays;
    EntropyDraws();
    WordDoesNotSplit();
    AcceptsTheOwner(n, WORD, 7);
    OwnerAllowed(n);
  }

  lemma OwnerAllowed(n: Game)
    requires Law(n) && Closable(n, 200) && 7 in n.members && Lays(n, 7, DRAWN, Sample(n, WORD)) && BetsPooled(n, 7, DRAWN)
    ensures Latched(n, WORD, Some(7), Some(7)).Ok?
  {
    hide Law, IsSplit, WinningSquare, Rng, TopMinerSample;
    EntropyDraws();
    IntervalFits(n, 7, DRAWN, Sample(n, WORD));
  }

  /** The outcome can depend on who calls: after one miner has bet alone and with the pool, the
      strict reset, and the lenient one that is given the miner, award the round to the pool; the
      lenient one that is given nobody leaves it open to a solo claim. All three commit. */
  lemma PoolWinLeftUndecided(minerRent: nat, roundRent: nat)
    ensures var g := First(minerRent, roundRent);
      var n := Runs.Run(Step, g, PooledHistory());
      var strict := Closing(n, Reset.Strict, SETTINGS, Entropy(), Some(7), None);
      var bare := Closing(n, Reset.Lenient, SETTINGS, Entropy(), None, None);
      && Law(g) && strict.Ok? && bare.Ok? && n.board.roundId == 1
      && Closing(n, Reset.Lenient, SETTINGS, Entropy(), Some(7), Some(7)) == strict
      && bare != strict && UndecidedPool(bare.value, strict.value, 1)
  {
    hide Step, Runs.Run, Law, Closing, UndecidedPool, PoolHolds, Lays, Judged, Latched, On, WinningSquare, Rng, Sample, BetsPooled, Bid;
    FirstTakesBids(minerRent, roundRent);
    PooledHistoryLands(minerRent, roundRent);
    var n := Runs.Run(Step, First(minerRent, roundRent), PooledHistory());
    EntropyDraws();
    PooledOwner(n);
    OwnerLatches(n);
    AllCommit(n);
    ClosingsAgree(n, SETTINGS, Entropy(), Some(7), Some(7), Some(7));
    ClosingsAgree(n, SETTINGS, Entropy(), None, None, Some(7));
    assert On(200)[DRAWN] == 200 by { OnCell(200); }
  }

  lemma OnCell(amount: uint64)
    ensures On(amount)[DRAWN] == amount
  {
  }

  lemma AllCommit(n: Game)
    requires Closable(n, 200)
    requires Judged(n, WORD, Some(7)).Ok? && Latched(n, WORD, Some(7), Some(7)).Ok? && Latched(n, WORD, None, None).Ok?
    ensures Closing(n, Reset.Strict, SETTINGS, Entropy(), Some(7), None).Ok?
    ensures Closing(n, Reset.Lenient, SETTINGS, Entropy(), Some(7), Some(7)).Ok?
    ensures Closing(n, Reset.Lenient, SETTINGS, Entropy(), None, None).Ok?
  {
    hide Closing, Closable, Reset.StrictTop, Reset.LenientTop, CandidateAt, TicketAt;
    ClosableCurrent(n, 200);
    ClosingCommits(n, 200, Reset.Strict, Some(7), None);
    ClosingCommits(n, 200, Reset.Lenient, Some(7), Some(7));
    ClosingCommits(n, 200, Reset.Lenient, None, None);
  }

  lemma ClosableCurrent(n: Game, amount: uint64)
    requires Closable(n, amount)
    ensures n.board.roundId == 1 && 1 in n.rounds
  {
  }

  /** Miners 7 and 8 bet 133 lamports each, nobody bets elsewhere, and the round is closed. */
  ghost function CrowdedHistory(): seq<Instruction> {
    [PlaceBets(7, Bid(133, false), SETTINGS, false)] + LaterHistory()
  }

  ghost function LaterHistory(): seq<Instruction> {
    [PlaceBets(8, Bid(133, false), SETTINGS, false)] + LastHistory()
  }

  ghost function LastHistory(): seq<Instruction> {
    [Wait(175, 0), CloseRound(Reset.Lenient, SETTINGS, Entropy(), None, None)]
  }

  ghost function TwoBets(): map<nat, Bet> {
    map[7 := Bet(On(133), Zeros(), Zeros()), 8 := Bet(On(133), On(133), Zeros())]
  }

  ghost predicate Crowded(n: Game, roundRent: nat) {
    && 1 in n.rounds && n.rounds[1].round.slotHash == Entropy() && n.rounds[1].round.deployed == On(266)
    && n.rounds[1].round.totalDeployed == 266 && n.rounds[1].round.totalWinnings == 0 == n.rounds[1].round.totalVaulted
    && n.rounds[1].lamports == roundRent + 263 && n.roundRent == roundRent && n.board.roundId == 2
    && BookOf(n, 1) == TwoBets() && CreditsOf(n, 1) == map[]
  }

  lemma CrowdedCloses(m: Game)
    requires m.slot == 0 && Closable(Waited(m), 266) && m.rounds[1].round.topMiner == Unset
    requires BookOf(m, 1) == TwoBets() && m.credits == map[]
    ensures Crowded(Runs.Run(Step, m, LastHistory()), m.roundRent)
  {
    hide Step, Runs.Run, Closing, TwoBets, Reset.Top, CandidateAt, TicketFor, On;
    var w := Waited(m);
    WaitLands(m);
    LenientAlone(w);
    ClosingCommits(w, 266, Reset.Lenient, None, None);
    var n := Closing(w, Reset.Lenient, SETTINGS, Entropy(), None, None).value;
    CloseIsStep(w);
    RunTwice(m, Wait(175, 0), CloseRound(Reset.Lenient, SETTINGS, Entropy(), None, None), w, n);
  }

  lemma CloseIsStep(g: Game)
    ensures Step(g, CloseRound(Reset.Lenient, SETTINGS, Entropy(), None, None)) == Closing(g, Reset.Lenient, SETTINGS, Entropy(), None, None)
  {
    hide Closing;
  }

  lemma LenientAlone(n: Game)
    requires 1 in n.rounds && n.rounds[1].round.topMiner == Unset
    ensures Reset.Top(Reset.Lenient, n.rounds[1].round, WORD, CandidateAt(n, None), TicketFor(n, Reset.Lenient, None, None)).Ok?
  {
    hide IsSplit, WinningSquare;
  }

  lemma SecondBid(m: Game)
    requires TakesBids(m) && m.board == Board(1, 0, 150) && m.slot == 0 && m.rounds.Keys == {1} == m.pools.Keys
    requires m.treasury == Treasury(0, 0, 0, 0, 0, 0, 0) && m.solMotherlode == 0 == m.supply && m.credits == map[]
    requires m.rounds[1].round.deployed == On(133) && m.rounds[1].round.totalDeployed == 133 && m.rounds[1].round.topMiner == Unset
    requires m.rounds[1].lamports == m.roundRent + 133 && 8 !in m.miners && 8 !in m.members
    requires BookOf(m, 1) == map[7 := Bet(On(133), Zeros(), Zeros())]
    ensures Crowded(Runs.Run(Step, m, LaterHistory()), m.roundRent)
  {
    hide Step, Runs.Run, Bid, Bets;
    BidLands(m, 8, 133, false);
    BidIsStep(m, 8, 133, false);
    var n := Bets(m, 8, Bid(133, false), SETTINGS, false).value;
    assert On(133)[DRAWN := On(133)[DRAWN] + 133] == On(266);
    Runs.RunMore(Step, m, PlaceBets(8, Bid(133, false), SETTINGS, false), LastHistory());
    CrowdedCloses(n);
  }

  lemma CrowdedHistoryLands(minerRent: nat, roundRent: nat)
    ensures Crowded(Runs.Run(Step, First(minerRent, roundRent), CrowdedHistory()), roundRent)
  {
    hide Step, Runs.Run, Law, Bid, Bets, On;
    var g := First(minerRent, roundRent);
    FirstTakesBids(minerRent, roundRent);
    BidLands(g, 7, 133, false);
    BidIsStep(g, 7, 133, false);
    OnStarts(133);
    OnCell(133);
    Runs.RunMore(Step, g, PlaceBets(7, Bid(133, false), SETTINGS, false), LaterHistory());
    SecondBid(Bets(g, 7, Bid(133, false), SETTINGS, false).value);
  }

  lemma PairSum(m: map<nat, int>, a: nat, b: nat)
    requires m.Keys == {a, b} && a != b
    ensures Sum(m) == m[a] + m[b]
  {
    SumSplit(m, a);
    SumSplit(m - {a}, b);
    assert m - {a} - {b} == map[];
  }

  lemma OneIsDue(round: Round, bet: Bet)
    requires Rng(round.slotHash) == Some(WORD) && round.deployed == On(266) && bet.deployed == On(133) && round.totalWinnings == 0
    ensures SolDue(round, bet) == 132 && Wins(round, WORD, bet)
  {
    hide Rng;
    assert WinningSquare(WORD) == DRAWN;
    assert Share(0, 133, 266) == 0;
  }

  /** The bound on what a round owes cannot be dropped: a round that two miners of 133 lamports have
      won holds 263 lamports above its rent and owes them 264. */
  lemma TwoWinnersOverdraw(minerRent: nat, roundRent: nat)
    ensures var g := First(minerRent, roundRent);
      var n := Runs.Run(Step, g, CrowdedHistory());
      && Law(g) && 1 in n.rounds && CreditsOf(n, 1) == map[]
      && var round, book := n.rounds[1].round, BookOf(n, 1);
      && Closes(round, WORD, 263) && AllWinners(round, WORD, book) && |book| == 2
      && Sum(DeployedOn(book, WinningSquare(WORD))) == round.deployed[WinningSquare(WORD)]
      && n.rounds[1].lamports - n.roundRent == 263 && Sum(SolDues(round, book)) == 264
  {
    hide Step, Runs.Run, Law, Rng, Total, WinningSquare, Closes, SolDue, Wins, Sum, On, First, CrowdedHistory;
    var g := First(minerRent, roundRent);
    var n := Runs.Run(Step, g, CrowdedHistory());
    FirstTakesBids(minerRent, roundRent);
    CrowdedHistoryLands(minerRent, roundRent);
    RunKeepsLaw(g, CrowdedHistory());
    EntropyDraws();
    CrowdedBalance(n, roundRent);
    var round, book := n.rounds[1].round, BookOf(n, 1);
    OneIsDue(round, book[7]);
    OneIsDue(round, book[8]);
    PairSum(SolDues(round, book), 7, 8);
    PairSum(DeployedOn(book, DRAWN), 7, 8);
    OnCell(133);
    OnCell(266);
  }

  lemma CrowdedBalance(n: Game, roundRent: nat)
    requires Law(n) && Crowded(n, roundRent)
    ensures Closes(n.rounds[1].round, WORD, 263)
  {
    hide Law, Rng, Total, WinningSquare, Closes, On, Sum, SolDue;
    FinishedRound(n, 1);
    EntropyDraws();
    OnCell(266);
  }
}
