/** Every instruction of the round game keeps every law. */
module GameSteps {
  import opened Basics
  import opened BoardState
  import opened Checkpoint
  import opened Game
  import opened GameLaws
  import opened MapSums
  import opened MinerState
  import opened Payouts
  import opened PoolState
  import opened RoundState
  import Deploy
  import RandomMask
  import Reset
  import Runs

  /** A step that moves one miner within its round. */
  ghost predicate MovedMiner(g: Game, n: Game, owner: nat) {
    && owner in n.miners && n == g.(miners := g.miners[owner := n.miners[owner]])
    && (owner in g.miners ==>
          && n.miners[owner].play.roundId == g.miners[owner].play.roundId
          && (n.miners[owner].play.checkpointId == g.miners[owner].play.checkpointId
              || n.miners[owner].play.checkpointId == n.miners[owner].play.roundId))
  }

  lemma MovedMinerKeeps(g: Game, n: Game, owner: nat)
    requires Law(g) && MovedMiner(g, n, owner) && MinerLawAt(n, owner)
    ensures Law(n)
  {
    hide MinerLaw, RoundLaw;
    forall a: nat ensures MinerLawAt(n, a) {
      assert MinerLawAt(g, a);
    }
    forall id: nat ensures RoundLawAt(n, id) {
      assert RoundLawAt(g, id);
    }
    MovedHistories(g, n, owner);
  }

  lemma MovedHistories(g: Game, n: Game, owner: nat)
    requires Bettors(g.book, g.miners) && Paid(g.credits, g.board.roundId, g.miners) && MovedMiner(g, n, owner)
    ensures Bettors(n.book, n.miners) && Paid(n.credits, n.board.roundId, n.miners)
  {
  }

  lemma NewcomerLaw(g: Game, owner: nat)
    requires Law(g) && owner !in g.miners
    ensures MinerLaw(owner, g.board.roundId, MinerSlot(NEW_PLAY, g.minerRent), MemberAt(g, owner), BookOf(g, 0), g.minerRent)
  {
    hide RoundLaw;
  }

  lemma MinerOrNewLaw(g: Game, owner: nat)
    requires Law(g)
    ensures var m := MinerOrNew(g, owner);
      MinerLaw(owner, g.board.roundId, m, MemberAt(g, owner), BookOf(g, m.play.roundId), g.minerRent)
  {
    hide MinerLaw, RoundLaw;
    if owner in g.miners {
      assert MinerLawAt(g, owner);
    } else {
      NewcomerLaw(g, owner);
    }
  }

  lemma OpeningKeeps(g: Game, owner: nat, topUp: bool)
    requires Law(g)
    ensures Law(Opening(g, owner, topUp))
  {
    hide Law, RoundLaw;
    MinerOrNewLaw(g, owner);
    OpeningMoves(g, owner, topUp);
    MovedMinerKeeps(g, Opening(g, owner, topUp), owner);
  }

  lemma OpeningMoves(g: Game, owner: nat, topUp: bool)
    requires var m := MinerOrNew(g, owner);
      MinerLaw(owner, g.board.roundId, m, MemberAt(g, owner), BookOf(g, m.play.roundId), g.minerRent)
    ensures var n := Opening(g, owner, topUp); MovedMiner(g, n, owner) && MinerLawAt(n, owner)
  {
  }

  lemma ClaimingKeeps(g: Game, owner: nat, referred: bool)
    requires Law(g) && Claiming(g, owner, referred).Ok?
    ensures Law(Claiming(g, owner, referred).value)
  {
    hide Law, RoundLaw;
    MinerOrNewLaw(g, owner);
    ClaimingMoves(g, owner, referred);
    MovedMinerKeeps(g, Claiming(g, owner, referred).value, owner);
  }

  lemma ClaimingMoves(g: Game, owner: nat, referred: bool)
    requires Claiming(g, owner, referred).Ok?
    requires var m := g.miners[owner];
      MinerLaw(owner, g.board.roundId, m, MemberAt(g, owner), BookOf(g, m.play.roundId), g.minerRent)
    ensures var n := Claiming(g, owner, referred).value; MovedMiner(g, n, owner) && MinerLawAt(n, owner)
  {
  }

  ghost function Forfeited(g: Game, owner: nat): Game
    requires owner in g.miners
  {
    var m := g.miners[owner];
    g.(miners := g.miners[owner := m.(play := m.play.(checkpointId := m.play.roundId))])
  }

  lemma ForfeitKeeps(g: Game, owner: nat)
    requires Law(g) && owner in g.miners
    ensures Law(Forfeited(g, owner))
  {
    hide Law, RoundLaw;
    MinerOrNewLaw(g, owner);
    ForfeitMoves(g, owner);
    MovedMinerKeeps(g, Forfeited(g, owner), owner);
  }

  lemma ForfeitMoves(g: Game, owner: nat)
    requires owner in g.miners
    requires var m := g.miners[owner];
      MinerLaw(owner, g.board.roundId, m, MemberAt(g, owner), BookOf(g, m.play.roundId), g.minerRent)
    ensures var n := Forfeited(g, owner); MovedMiner(g, n, owner) && MinerLawAt(n, owner)
  {
  }

  lemma EnrollingKeeps(g: Game, owner: nat)
    requires Law(g) && Enrolling(g, owner).Ok?
    ensures Law(Enrolling(g, owner).value)
  {
    hide RoundLaw, Bettors, Paid;
    var n := Enrolling(g, owner).value;
    forall a: nat ensures MinerLawAt(n, a) {
      assert MinerLawAt(g, a);
      assert a != owner ==> MemberAt(n, a) == MemberAt(g, a);
    }
    forall j: nat ensures RoundLawAt(n, j) {
      assert RoundLawAt(g, j);
    }
  }

  lemma SweepingKeeps(g: Game, id: nat)
    requires Law(g) && Sweeping(g, id).Ok?
    ensures Law(Sweeping(g, id).value)
  {
    hide MinerLaw, RoundLaw;
    RoundIds(g, id);
    var n := Sweeping(g, id).value;
    forall a: nat ensures MinerLawAt(n, a) {
      assert MinerLawAt(g, a);
    }
    forall j: nat ensures RoundLawAt(n, j) {
      assert RoundLawAt(g, j);
    }
  }

  lemma GiftKeeps(g: Game, id: nat, lamports: nat)
    requires Law(g) && id in g.rounds
    ensures Law(g.(rounds := g.rounds[id := g.rounds[id].(lamports := g.rounds[id].lamports + lamports)]))
  {
    hide MinerLaw, Open, Finished, Booked, Available, Proper;
    var n := g.(rounds := g.rounds[id := g.rounds[id].(lamports := g.rounds[id].lamports + lamports)]);
    forall a: nat ensures MinerLawAt(n, a) {
      assert MinerLawAt(g, a);
    }
    forall j: nat ensures RoundLawAt(n, j) {
      assert RoundLawAt(g, j);
    }
  }

  /** Clocks, treasury and supply take no part in the laws. */
  lemma AsideKeeps(g: Game, n: Game)
    requires Law(g) && n == g.(treasury := n.treasury, slot := n.slot, now := n.now)
    ensures Law(n)
  {
    hide MinerLaw, RoundLaw;
    forall a: nat ensures MinerLawAt(n, a) {
      assert MinerLawAt(g, a);
    }
    forall j: nat ensures RoundLawAt(n, j) {
      assert RoundLawAt(g, j);
    }
  }

  /** An open round owes all its lamports. */
  lemma OpenOwesAll(round: Round)
    requires Open(round)
    ensures Available(round) == Total(round.deployed)
  {
    hide Total;
  }

  lemma SameGrid(a: Grid, b: Grid)
    requires forall i :: 0 <= i < SQUARES ==> a[i] == b[i]
    ensures a == b
  {
  }

  /** A bet of nothing leaves the round's squares and its pool's as they were. */
  lemma NothingBet(s: Deploy.Seat, o: Deploy.Order, slot: uint64, config: Config)
    requires Deploy.Deployed(s, o, slot, config).Ok? && Deploy.Membership(s.member, s.round.id).deployed == Zeros()
    requires Deploy.Deployed(s, o, slot, config).value.seat.play.deployed == Zeros()
    ensures var d := Deploy.Deployed(s, o, slot, config).value;
      && d.seat.round.deployed == s.round.deployed && d.seat.pool.deployed == s.pool.deployed
      && PooledOf(d.seat.member, s.round.id) == Zeros()
  {
    hide Deploy.Deployed, RandomMask.Count;
    var d := Deploy.Deployed(s, o, slot, config).value;
    Deploy.DeploymentIsWhole(s, o, slot, config);
    Deploy.DeploymentPools(s, o, slot, config);
    SameGrid(d.seat.round.deployed, s.round.deployed);
    SameGrid(d.seat.pool.deployed, s.pool.deployed);
    MembershipIsPooled(d.seat.member, s.round.id);
    SameGrid(PooledOf(d.seat.member, s.round.id), Zeros());
  }

  lemma MembershipIsPooled(member: Option<PoolMember>, roundId: uint64)
    ensures Deploy.Membership(member, roundId).deployed == PooledOf(member, roundId)
  {
  }

  lemma BetBooked(s: Deploy.Seat, o: Deploy.Order, slot: uint64, config: Config, book: map<nat, Bet>, owner: nat)
    requires Deploy.Deployed(s, o, slot, config).Ok? && Deploy.Membership(s.member, s.round.id).deployed == Zeros()
    requires Booked(book, s.round.deployed, s.pool.deployed) && owner !in book
    ensures var d := Deploy.Deployed(s, o, slot, config).value;
      Booked(Recorded(book, owner, BetOf(d.seat.play, d.seat.member)), d.seat.round.deployed, d.seat.pool.deployed)
  {
    hide Deploy.Deployed, RandomMask.Count, Booked, Deploy.Membership;
    var d := Deploy.Deployed(s, o, slot, config).value;
    var bet := BetOf(d.seat.play, d.seat.member);
    if d.seat.play.deployed == Zeros() {
      NothingBet(s, o, slot, config);
    } else {
      Deploy.DeploymentIsWhole(s, o, slot, config);
      Deploy.DeploymentPools(s, o, slot, config);
      Deploy.DeploymentEntersOnce(s, o, slot, config);
      MembershipIsPooled(d.seat.member, s.round.id);
      BookedPut(book, s.round.deployed, s.pool.deployed, owner, bet, d.seat.round.deployed, d.seat.pool.deployed);
    }
  }

  lemma BetKeepsRound(s: Deploy.Seat, o: Deploy.Order, slot: uint64, config: Config, lamports: nat, book: map<nat, Bet>,
          owner: nat, rent: nat)
    requires Deploy.Deployed(s, o, slot, config).Ok? && Deploy.Membership(s.member, s.round.id).deployed == Zeros()
    requires owner !in book
    requires RoundLaw(s.round.id, s.round.id, RoundSlot(s.round, lamports), s.pool, book, map[], rent)
    ensures var d := Deploy.Deployed(s, o, slot, config).value;
      RoundLaw(s.round.id, s.round.id, RoundSlot(d.seat.round, lamports + d.placed), d.seat.pool,
               Recorded(book, owner, BetOf(d.seat.play, d.seat.member)), map[], rent)
  {
    hide Deploy.Deployed, Booked, Deploy.Membership, Recorded, Available, RandomMask.Count, Total;
    var d := Deploy.Deployed(s, o, slot, config).value;
    BetBooked(s, o, slot, config, book, owner);
    Deploy.DeploymentTotals(s, o, slot, config);
    Deploy.DeploymentEntersOnce(s, o, slot, config);
    Deploy.DeploymentPools(s, o, slot, config);
    OpenOwesAll(s.round);
    OpenOwesAll(d.seat.round);
  }

  lemma BetKeepsMiner(s: Deploy.Seat, o: Deploy.Order, slot: uint64, config: Config, lamports: nat, oldBook: map<nat, Bet>,
          book: map<nat, Bet>, owner: nat, rent: nat)
    requires Deploy.Deployed(s, o, slot, config).Ok? && Deploy.Membership(s.member, s.round.id).deployed == Zeros()
    requires owner !in book
    requires MinerLaw(owner, s.round.id, MinerSlot(s.play, lamports), s.member, oldBook, rent)
    ensures var d := Deploy.Deployed(s, o, slot, config).value;
      MinerLaw(owner, s.round.id, MinerSlot(d.seat.play, lamports + d.topUp), d.seat.member,
               Recorded(book, owner, BetOf(d.seat.play, d.seat.member)), rent)
  {
    hide Deploy.Deployed, RandomMask.Count;
    var d := Deploy.Deployed(s, o, slot, config).value;
    Deploy.DeploymentEntersOnce(s, o, slot, config);
    Deploy.DeploymentPools(s, o, slot, config);
    if d.seat.play.deployed == Zeros() {
      NothingBet(s, o, slot, config);
    }
  }

  /** Whoever may bet has nothing in the book of the current round, nor in its pool. */
  lemma ReadyToBet(g: Game, owner: nat)
    requires Law(g)
    requires var p := MinerOrNew(g, owner).play; p.roundId == g.board.roundId ==> p.deployed == Zeros()
    ensures owner !in BookOf(g, g.board.roundId)
    ensures Deploy.Membership(MemberAt(g, owner), g.board.roundId).deployed == Zeros()
  {
    hide RoundLaw;
    MinerOrNewLaw(g, owner);
    MembershipIsPooled(MemberAt(g, owner), g.board.roundId);
  }

  /** Nobody is paid for a round before it is closed. */
  lemma NoCreditsYet(g: Game)
    requires Law(g)
    ensures CreditsOf(g, g.board.roundId) == map[]
  {
    hide RoundLaw, MinerLaw;
    UnpaidFrom(g.credits, g.board.roundId, g.miners, g.board.roundId);
  }

  lemma UnpaidFrom(credits: map<nat, map<nat, Payout>>, current: nat, miners: map<nat, MinerSlot>, id: nat)
    requires Paid(credits, current, miners) && current <= id
    ensures id in credits ==> credits[id] == map[]
  {
    if id in credits {
      var list := credits[id];
      forall a: nat ensures a !in list {
        assert a in credits[id] ==> a in miners && Past(id, current, miners[a]);
      }
      assert list == map[];
    }
  }

  ghost function SeatOf(g: Game, owner: nat): Deploy.Seat
    requires Current(g).Ok?
  {
    Deploy.Seat(g.board, g.rounds[g.board.roundId].round, MinerOrNew(g, owner).play, MemberAt(g, owner), g.pools[g.board.roundId])
  }

  /** What a committed bet changes. */
  ghost predicate Betted(g: Game, n: Game, owner: nat, d: Deploy.Deployment) {
    var id := g.board.roundId;
    && id in g.rounds && id in g.pools && d.seat.board.roundId == id
    && n == g.(board := d.seat.board,
               rounds := g.rounds[id := RoundSlot(d.seat.round, g.rounds[id].lamports + d.placed)],
               pools := g.pools[id := d.seat.pool],
               miners := g.miners[owner := MinerSlot(d.seat.play, MinerOrNew(g, owner).lamports + d.topUp)],
               members := WithMember(g.members, owner, d.seat.member),
               book := g.book[id := Recorded(BookOf(g, id), owner, BetOf(d.seat.play, d.seat.member))])
  }

  /** The other rounds and miners do not notice. */
  lemma BetLeavesOthers(g: Game, n: Game, owner: nat, d: Deploy.Deployment)
    requires Law(g) && Betted(g, n, owner, d)
    ensures forall j: nat :: j != g.board.roundId ==> RoundLawAt(n, j)
    ensures forall a: nat :: a != owner ==> MinerLawAt(n, a)
  {
    hide RoundLaw, Bettors, Paid;
    forall j: nat | j != g.board.roundId ensures RoundLawAt(n, j) {
      assert RoundLawAt(g, j);
    }
    forall a: nat | a != owner ensures MinerLawAt(n, a) {
      assert MinerLawAt(g, a);
      assert MemberAt(n, a) == MemberAt(g, a);
    }
  }

  lemma BetHistories(g: Game, n: Game, owner: nat, d: Deploy.Deployment)
    requires Law(g) && Betted(g, n, owner, d) && d.seat.play.roundId == g.board.roundId
    requires d.seat.member.None? ==> MemberAt(g, owner).None?
    requires owner in g.miners ==> g.miners[owner].play.roundId <= g.board.roundId && d.seat.play.checkpointId == g.miners[owner].play.checkpointId
    ensures Bettors(n.book, n.miners) && Paid(n.credits, n.board.roundId, n.miners)
    ensures forall a :: a in n.members ==> a in n.miners
  {
    hide RoundLawAt, MinerLawAt;
    var cur := g.board.roundId;
    forall id, a | id in n.book && a in n.book[id] ensures a in n.miners && 1 <= id <= n.miners[a].play.roundId {
      if id == cur {
        RecordedOnly(BookOf(g, cur), owner, BetOf(d.seat.play, d.seat.member), a);
      }
      if a != owner || id != cur {
        assert id in g.book && a in g.book[id];
      }
    }
    PaidLater(g.credits, cur, g.miners, n.miners, owner);
  }

  /** A miner that enters the current round has been paid for earlier ones only. */
  lemma PaidLater(credits: map<nat, map<nat, Payout>>, current: nat, miners: map<nat, MinerSlot>, later: map<nat, MinerSlot>, owner: nat)
    requires Paid(credits, current, miners) && owner in later && later == miners[owner := later[owner]]
    requires later[owner].play.roundId == current
    ensures Paid(credits, current, later)
  {
  }

  lemma RecordedOnly(book: map<nat, Bet>, owner: nat, bet: Bet, a: nat)
    requires a in Recorded(book, owner, bet)
    ensures a == owner || a in book
  {
  }

  lemma BetRoundLaw(g: Game, n: Game, owner: nat, order: Deploy.Order, config: Config)
    requires Law(g) && Current(g).Ok? && Deploy.Deployed(SeatOf(g, owner), order, g.slot, config).Ok?
    requires Betted(g, n, owner, Deploy.Deployed(SeatOf(g, owner), order, g.slot, config).value)
    ensures RoundLawAt(n, g.board.roundId)
  {
    hide RoundLaw, MinerLaw, Deploy.Deployed, Recorded, Deploy.Membership, MinerOrNew;
    var id := g.board.roundId;
    var s := SeatOf(g, owner);
    assert RoundLawAt(g, id);
    Deploy.DeploymentEntersOnce(s, order, g.slot, config);
    ReadyToBet(g, owner);
    NoCreditsYet(g);
    BetKeepsRound(s, order, g.slot, config, g.rounds[id].lamports, BookOf(g, id), owner, g.roundRent);
  }

  lemma BetMinerLaw(g: Game, n: Game, owner: nat, order: Deploy.Order, config: Config)
    requires Law(g) && Current(g).Ok? && Deploy.Deployed(SeatOf(g, owner), order, g.slot, config).Ok?
    requires Betted(g, n, owner, Deploy.Deployed(SeatOf(g, owner), order, g.slot, config).value)
    ensures MinerLawAt(n, owner)
  {
    hide RoundLaw, MinerLaw, Deploy.Deployed, Recorded, Deploy.Membership, MinerOrNew, RoundLawAt, Bettors, Paid;
    var id := g.board.roundId;
    var s := SeatOf(g, owner);
    var m := MinerOrNew(g, owner);
    var d := Deploy.Deployed(s, order, g.slot, config).value;
    MinerOrNewLaw(g, owner);
    Deploy.DeploymentEntersOnce(s, order, g.slot, config);
    ReadyToBet(g, owner);
    Deploy.DeploymentPools(s, order, g.slot, config);
    BetKeepsMiner(s, order, g.slot, config, m.lamports, BookOf(g, m.play.roundId), BookOf(g, id), owner, g.minerRent);
    assert MemberAt(n, owner) == d.seat.member;
  }

  lemma BetsKeep(g: Game, owner: nat, order: Deploy.Order, config: Config, legacy: bool)
    requires Law(g) && Bets(g, owner, order, config, legacy).Ok?
    ensures Law(Bets(g, owner, order, config, legacy).value)
  {
    hide RoundLaw, MinerLaw, Deploy.Deployed, Recorded, Deploy.Membership, Bettors, Paid;
    var n := Bets(g, owner, order, config, legacy).value;
    var s := SeatOf(g, owner);
    var d := Deploy.Deployed(s, order, g.slot, config).value;
    Deploy.DeploymentEntersOnce(s, order, g.slot, config);
    ReadyToBet(g, owner);
    Deploy.DeploymentPools(s, order, g.slot, config);
    assert Betted(g, n, owner, d);
    if owner in g.miners {
      assert MinerLawAt(g, owner);
      CheckpointOrder(g, owner);
    }
    BetLeavesOthers(g, n, owner, d);
    BetHistories(g, n, owner, d);
    BetRoundLaw(g, n, owner, order, config);
    BetMinerLaw(g, n, owner, order, config);
  }

  lemma CheckpointOrder(g: Game, owner: nat)
    requires MinerLawAt(g, owner) && owner in g.miners
    ensures g.miners[owner].play.checkpointId <= g.miners[owner].play.roundId <= g.board.roundId
  {
  }

  lemma PotFrame(a: Round, b: Round, winning: nat)
    requires winning < SQUARES && a.deployed == b.deployed
    ensures Reset.PotOf(a, winning) == Reset.PotOf(b, winning)
  {
  }

  /** A drawn round with a winner holds what the winners' theory asks for. */
  lemma WonCloses(t: Reset.Table, slot: uint64, config: Config, r: uint64, mode: Reset.Mode, candidate: Option<Reset.Candidate>,
                  ticket: Option<Reset.PoolTicket>, adminFee: uint64, motherlodeFee: uint64)
    requires t.board.roundId < UINT64_MAX && t.round.totalDeployed == Total(t.round.deployed)
    requires Rng(t.round.slotHash) == Some(r) && t.round.deployed[WinningSquare(r)] > 0
    requires Reset.Won(t, slot, config, r, mode, candidate, ticket, adminFee, motherlodeFee).Ok?
    ensures var n := Reset.Won(t, slot, config, r, mode, candidate, ticket, adminFee, motherlodeFee).value.table.round;
      Closes(n, r, Available(n))
  {
    hide Rng, Total, WinningSquare, Reset.PotOf, Reset.Top, Reset.MotherlodeOut, HitMotherlode, Reset.Mintable;
    var n := Reset.Won(t, slot, config, r, mode, candidate, ticket, adminFee, motherlodeFee).value.table.round;
    PotFrame(t.round, n, WinningSquare(r));
  }

  lemma DrawnFinishes(t: Reset.Table, slot: uint64, config: Config, r: uint64, mode: Reset.Mode, candidate: Option<Reset.Candidate>,
                      ticket: Option<Reset.PoolTicket>)
    requires t.board.roundId < UINT64_MAX && t.round.totalDeployed == Total(t.round.deployed)
    requires Rng(t.round.slotHash) == Some(r) && t.round.slotHash != Repeated(0)
    requires Reset.Drawn(t, slot, config, r, mode, candidate, ticket).Ok?
    ensures var n := Reset.Drawn(t, slot, config, r, mode, candidate, ticket).value.table;
      Finished(n.round) && Available(n.round) + (t.lamports - n.lamports) == Total(t.round.deployed)
  {
    hide Rng, Total, WinningSquare, Reset.PotOf, Reset.Reward, Closes;
    var adminFee := Reset.Fee(t.round.totalDeployed, Reset.ADMIN_FEE_BPS).value;
    var motherlodeFee := Reset.Fee(t.round.totalDeployed, Reset.SOL_MOTHERLODE_BPS).value;
    if t.round.deployed[WinningSquare(r)] != 0 {
      WonCloses(t, slot, config, r, mode, candidate, ticket, adminFee, motherlodeFee);
      RewardFrame(t, config, r, mode, candidate, ticket);
    }
  }

  /** Rewarding a round touches only its GODL. */
  lemma RewardFrame(t: Reset.Table, config: Config, r: uint64, mode: Reset.Mode, candidate: Option<Reset.Candidate>,
          ticket: Option<Reset.PoolTicket>)
    ensures forall round, motherlode, supply :: Reset.Reward(round, motherlode, supply, config, r, mode, candidate, ticket).Ok? ==>
      var n := Reset.Reward(round, motherlode, supply, config, r, mode, candidate, ticket).value.round;
      n == round.(topMinerReward := n.topMinerReward, topMiner := n.topMiner, motherlode := n.motherlode)
  {
    hide Reset.Top, Reset.MotherlodeOut, HitMotherlode, Reset.Mintable;
  }

  lemma ClosedFinishes(t: Reset.Table, slot: uint64, config: Config, value: Hash, mode: Reset.Mode, candidate: Option<Reset.Candidate>,
                       ticket: Option<Reset.PoolTicket>)
    requires Open(t.round) && Reset.Closed(t, slot, config, value, mode, candidate, ticket).Ok?
    ensures var n := Reset.Closed(t, slot, config, value, mode, candidate, ticket).value.table;
      && Finished(n.round) && Available(n.round) + (t.lamports - n.lamports) == Total(t.round.deployed)
      && n.round.deployed == t.round.deployed && n.round.id == t.round.id && n.board.roundId == t.board.roundId + 1
  {
    hide Rng, Total, Reset.Drawn;
    var drawn := t.(round := t.round.(slotHash := value));
    Reset.ResetConserves(t, slot, config, value, mode, candidate, ticket);
    if Rng(value).Some? {
      DrawnFinishes(drawn, slot, config, Rng(value).value, mode, candidate, ticket);
      DrawnId(drawn, slot, config, Rng(value).value, mode, candidate, ticket);
    }
  }

  lemma DrawnId(t: Reset.Table, slot: uint64, config: Config, r: uint64, mode: Reset.Mode, candidate: Option<Reset.Candidate>,
                ticket: Option<Reset.PoolTicket>)
    requires t.board.roundId < UINT64_MAX && Reset.Drawn(t, slot, config, r, mode, candidate, ticket).Ok?
    ensures Reset.Drawn(t, slot, config, r, mode, candidate, ticket).value.table.round.id == t.round.id
  {
    hide WinningSquare, Reset.PotOf, Reset.Top, Reset.MotherlodeOut, HitMotherlode, Reset.Mintable;
  }

  lemma ClosedRoundLaw(id: nat, t: Reset.Table, n: Reset.Table, pool: PoolRound, book: map<nat, Bet>, rent: nat)
    requires RoundLaw(id, id, RoundSlot(t.round, t.lamports), pool, book, map[], rent)
    requires Finished(n.round) && Available(n.round) + (t.lamports - n.lamports) == Total(t.round.deployed)
    requires n.round.deployed == t.round.deployed && n.round.id == t.round.id && PoolBacked(n.round, pool.deployed)
    ensures RoundLaw(id, id + 1, RoundSlot(n.round, n.lamports), pool, book, map[], rent)
  {
    hide Finished, Booked, Total, Available;
    OpenOwesAll(t.round);
  }

  lemma OpenRoundLaw(id: uint64, rent: nat)
    ensures RoundLaw(id, id, RoundSlot(OpenRound(id), rent), OpenPool(id), map[], map[], rent)
  {
    hide Booked, Total;
    EmptyBooked();
    TotalZeros(Zeros());
    assert SolsOf(map[]) == map[];
    OpenOwesAll(OpenRound(id));
  }

  /** A round that was already finished stays so when the board moves on. */
  lemma LaterRoundLaw(id: nat, current: nat, s: RoundSlot, pool: PoolRound, book: map<nat, Bet>, credits: map<nat, Payout>, rent: nat)
    requires RoundLaw(id, current, s, pool, book, credits, rent) && id != current
    ensures RoundLaw(id, current + 1, s, pool, book, credits, rent)
  {
    hide Finished, Booked, Available, Open;
  }

  lemma FutureIsBlank(g: Game, id: nat)
    requires Law(g) && g.board.roundId < id
    ensures BookOf(g, id) == map[] && CreditsOf(g, id) == map[]
  {
    hide RoundLaw, MinerLaw;
    UnpaidFrom(g.credits, g.board.roundId, g.miners, id);
    if id in g.book && g.book[id] != map[] {
      var a :| a in g.book[id];
      assert MinerLawAt(g, a);
      CheckpointOrder(g, a);
    }
  }

  lemma BoardMovesOn(g: Game, n: Game)
    requires Law(g) && n.miners == g.miners && n.members == g.members && n.book == g.book && n.credits == g.credits
    requires n.minerRent == g.minerRent && n.board.roundId == g.board.roundId + 1
    ensures forall a: nat :: MinerLawAt(n, a)
    ensures Bettors(n.book, n.miners) && Paid(n.credits, n.board.roundId, n.miners)
  {
    hide RoundLaw;
    forall a: nat ensures MinerLawAt(n, a) {
      assert MinerLawAt(g, a);
    }
  }

  /** What a committed reset changes. */
  ghost predicate Moved(g: Game, n: Game, table: Reset.Table) {
    var id := g.board.roundId;
    && id in g.rounds && id in g.pools && table.board.roundId == id + 1 <= UINT64_MAX
    && n == g.(board := table.board,
               rounds := g.rounds[id := RoundSlot(table.round, table.lamports)][id + 1 := RoundSlot(OpenRound(id + 1), g.roundRent)],
               pools := g.pools[id + 1 := OpenPool(id + 1)],
               treasury := table.treasury, solMotherlode := table.solMotherlode, supply := table.supply)
  }

  lemma MovedRoundLaw(g: Game, n: Game, t: Reset.Table, table: Reset.Table)
    requires Law(g) && Moved(g, n, table) && t == TableOf(g, g.rounds[g.board.roundId])
    requires Finished(table.round) && Available(table.round) + (t.lamports - table.lamports) == Total(t.round.deployed)
    requires table.round.deployed == t.round.deployed && table.round.id == t.round.id
    requires PoolBacked(table.round, g.pools[g.board.roundId].deployed)
    ensures RoundLawAt(n, g.board.roundId)
  {
    hide RoundLaw, MinerLaw, Bettors, Paid, Finished, Available, Total;
    var id := g.board.roundId;
    assert RoundLawAt(g, id);
    NoCreditsYet(g);
    ClosedRoundLaw(id, t, table, g.pools[id], BookOf(g, id), g.roundRent);
  }

  lemma MovedOtherRounds(g: Game, n: Game, table: Reset.Table, j: nat)
    requires Law(g) && Moved(g, n, table) && j != g.board.roundId
    ensures RoundLawAt(n, j)
  {
    hide RoundLaw, MinerLaw, Bettors, Paid;
    var id := g.board.roundId;
    if j == id + 1 {
      FutureIsBlank(g, id + 1);
      OpenRoundLaw(id + 1, g.roundRent);
    } else if j in g.rounds {
      assert RoundLawAt(g, j);
      LaterRoundLaw(j, id, g.rounds[j], g.pools[j], BookOf(g, j), CreditsOf(g, j), g.roundRent);
    }
  }

  lemma CurrentIsOpen(g: Game)
    requires RoundLawAt(g, g.board.roundId) && g.board.roundId in g.rounds
    ensures Open(g.rounds[g.board.roundId].round)
  {
  }

  /** A membership in the current round with a bet on a square is in the pool's books there. */
  lemma MemberIsPooled(g: Game, a: nat, square: nat)
    requires Law(g) && square < SQUARES && a in g.members
    requires g.members[a].roundId == g.board.roundId && 0 < g.members[a].deployed[square]
    ensures g.board.roundId in g.pools && 0 < g.pools[g.board.roundId].deployed[square]
  {
    hide Sum, Tiled;
    var id := g.board.roundId;
    assert MinerLawAt(g, a);
    BetInBook(g, a);
    PooledIsBet(g.miners[a].play, g.members[a], square);
    assert RoundLawAt(g, id);
    assert Squared(BookOf(g, id), square, g.rounds[id].round.deployed[square], g.pools[id].deployed[square]);
    SumCovers(PooledOn(BookOf(g, id), square), a);
  }

  lemma PooledIsBet(p: Play, m: PoolMember, square: nat)
    requires square < SQUARES && m.roundId == p.roundId && 0 < m.deployed[square]
    ensures PooledOf(Some(m), p.roundId) != Zeros() && BetOf(p, Some(m)).pooled[square] == m.deployed[square]
  {
  }

  lemma PoolTakesWhereItBet(g: Game, mode: Reset.Mode, r: uint64, candidate: Option<nat>, ticket: Option<nat>)
    requires Law(g) && g.rounds[g.board.roundId].round.topMiner == Unset
    requires Reset.Top(mode, g.rounds[g.board.roundId].round, r, CandidateAt(g, candidate), TicketFor(g, mode, candidate, ticket)) == Ok(Pool)
    ensures g.board.roundId in g.pools && 0 < g.pools[g.board.roundId].deployed[WinningSquare(r)]
  {
    hide Law, IsSplit, TopMinerSample, WinningSquare;
    LawHasBoard(g);
    RoundIds(g, g.board.roundId);
    var a := if mode.Strict? then candidate else ticket;
    MemberIsPooled(g, a.value, WinningSquare(r));
  }

  lemma LawHasBoard(g: Game)
    requires Law(g)
    ensures g.board.roundId in g.rounds
  {
  }

  lemma ClosedBacked(g: Game, mode: Reset.Mode, config: Config, value: Hash, candidate: Option<nat>, ticket: Option<nat>)
    requires Law(g) && g.board.roundId in g.pools && Open(g.rounds[g.board.roundId].round)
    requires Reset.Closed(TableOf(g, g.rounds[g.board.roundId]), g.slot, config, value, mode, CandidateAt(g, candidate),
                          TicketFor(g, mode, candidate, ticket)).Ok?
    ensures PoolBacked(Reset.Closed(TableOf(g, g.rounds[g.board.roundId]), g.slot, config, value, mode, CandidateAt(g, candidate),
                                    TicketFor(g, mode, candidate, ticket)).value.table.round, g.pools[g.board.roundId].deployed)
  {
    hide Law, Reset.Closed, Reset.Top, Rng, WinningSquare, CandidateAt, TicketFor, Total;
    LawHasBoard(g);
    var t := TableOf(g, g.rounds[g.board.roundId]);
    Reset.ClosedTop(t, g.slot, config, value, mode, CandidateAt(g, candidate), TicketFor(g, mode, candidate, ticket));
    if Rng(value).Some? && Reset.Top(mode, t.round, Rng(value).value, CandidateAt(g, candidate), TicketFor(g, mode, candidate, ticket)) == Ok(Pool) {
      PoolTakesWhereItBet(g, mode, Rng(value).value, candidate, ticket);
    }
  }

  lemma ClosingKeeps(g: Game, mode: Reset.Mode, config: Config, value: Hash, candidate: Option<nat>, ticket: Option<nat>)
    requires Law(g) && Closing(g, mode, config, value, candidate, ticket).Ok?
    ensures Law(Closing(g, mode, config, value, candidate, ticket).value)
  {
    hide RoundLaw, MinerLaw, Reset.Closed, Bettors, Paid, Finished, Available, Total;
    var n := Closing(g, mode, config, value, candidate, ticket).value;
    var t := TableOf(g, g.rounds[g.board.roundId]);
    var table := Reset.Closed(t, g.slot, config, value, mode, CandidateAt(g, candidate), TicketFor(g, mode, candidate, ticket)).value.table;
    assert RoundLawAt(g, g.board.roundId);
    CurrentIsOpen(g);
    ClosedFinishes(t, g.slot, config, value, mode, CandidateAt(g, candidate), TicketFor(g, mode, candidate, ticket));
    assert Moved(g, n, table);
    ClosedBacked(g, mode, config, value, candidate, ticket);
    MovedRoundLaw(g, n, t, table);
    forall j: nat ensures RoundLawAt(n, j) {
      if j != g.board.roundId {
        MovedOtherRounds(g, n, table, j);
      }
    }
    BoardMovesOn(g, n);
  }

  /** Taking a solo win is recorded in the round, which changes nobody's dues. */
  lemma WinnerLeavesDues(round: Round, top: TopMiner, bet: Bet, pooled: Grid)
    requires top == round.topMiner || (top.Solo? && (round.topMiner.Unset? || round.topMiner.Solo?))
    ensures SolDue(round.(topMiner := top), bet) == SolDue(round, bet)
    ensures GodlDue(round.(topMiner := top), bet, pooled) == GodlDue(round, bet, pooled)
  {
    hide Rng, Share, TopMinerSample, WinningSquare, Kept;
  }

  lemma WinnerKeepsFinished(round: Round, top: TopMiner)
    requires Finished(round)
    ensures Finished(round.(topMiner := top)) && Available(round.(topMiner := top)) == Available(round)
  {
    hide Rng, Total, WinningSquare, Reset.PotOf;
    if Rng(round.slotHash).Some? {
      PotFrame(round, round.(topMiner := top), WinningSquare(Rng(round.slotHash).value));
    }
  }

  /** Leaving out the pool's accounts can only cost the miner GODL. */
  lemma LeftOutCosts(round: Round, bet: Bet, poolTotal: Grid, given: Bet, givenTotal: Grid)
    requires given.deployed == bet.deployed && given.cumulative == bet.cumulative
    requires (given.pooled == bet.pooled || given.pooled == Zeros()) && (givenTotal == poolTotal || givenTotal == Zeros())
    ensures SolDue(round, given) == SolDue(round, bet)
    ensures GodlDue(round, given, givenTotal) <= GodlDue(round, bet, poolTotal)
    ensures !round.topMiner.Pool? ==> GodlDue(round, given, givenTotal) == GodlDue(round, bet, poolTotal)
  {
    hide Rng, Share, TopMinerSample, WinningSquare, Kept;
  }

  /** No lamports bet, nothing due. */
  lemma NothingDue(round: Round, bet: Bet, poolTotal: Grid)
    requires bet.deployed == Zeros()
    ensures SolDue(round, bet) == 0 == GodlDue(round, bet, poolTotal)
  {
    hide Rng, WinningSquare, BaseDue, MotherlodeDue, WinningsShare;
    TotalZeros(bet.deployed);
  }

  lemma TopStays(round: Round, bet: Bet, poolTotal: Grid, authority: nat)
    requires Due(round, bet, poolTotal, authority).Ok?
    ensures var top := Due(round, bet, poolTotal, authority).value.topMiner;
      top == round.topMiner || (top.Solo? && (round.topMiner.Unset? || round.topMiner.Solo?))
  {
    hide Rng, SolReward, ModeReward, MotherlodeReward, TopMinerSample, WinningSquare, Total;
  }

  lemma PaidIsProper(round: Round, book: map<nat, Bet>, pooled: Grid, a: nat, play: Play, member: Option<PoolMember>,
                     given: Option<PoolMember>, givenTotal: Grid)
    requires given == member || given == None
    requires givenTotal == pooled || givenTotal == Zeros()
    requires if play.deployed == Zeros() then a !in book else a in book && book[a] == BetOf(play, member)
    requires Due(round, BetOf(play, given), givenTotal, a).Ok?
    ensures Proper(round, book, pooled, a, Due(round, BetOf(play, given), givenTotal, a).value)
  {
    hide Due, SolDue, GodlDue;
    DueAmounts(round, BetOf(play, given), givenTotal, a);
    LeftOutCosts(round, BetOf(play, member), pooled, BetOf(play, given), givenTotal);
    if play.deployed == Zeros() {
      NothingDue(round, BetOf(play, given), givenTotal);
    }
  }

  lemma ProperStays(round: Round, top: TopMiner, book: map<nat, Bet>, pooled: Grid, a: nat, paid: Payout)
    requires top == round.topMiner || (top.Solo? && (round.topMiner.Unset? || round.topMiner.Solo?))
    requires Proper(round, book, pooled, a, paid)
    ensures Proper(round.(topMiner := top), book, pooled, a, paid)
  {
    hide SolDue, GodlDue;
    if a in book {
      WinnerLeavesDues(round, top, book[a], pooled);
    }
  }

  /** One more payment keeps a finished round's law. */
  lemma PaymentKeepsRound(id: nat, current: nat, s: RoundSlot, pool: PoolRound, book: map<nat, Bet>, credits: map<nat, Payout>, rent: nat,
                          a: nat, payout: Payout, left: nat)
    requires RoundLaw(id, current, s, pool, book, credits, rent) && id != current && a !in credits
    requires Proper(s.round, book, pool.deployed, a, payout) && left == s.lamports - payout.sol
    requires payout.topMiner == s.round.topMiner || (payout.topMiner.Solo? && (s.round.topMiner.Unset? || s.round.topMiner.Solo?))
    ensures RoundLaw(id, current, RoundSlot(s.round.(topMiner := payout.topMiner), left), pool, book, credits[a := payout], rent)
  {
    hide Finished, Booked, Available, Proper, Sum, Open;
    var n := s.round.(topMiner := payout.topMiner);
    WinnerKeepsFinished(s.round, payout.topMiner);
    var more := credits[a := payout];
    forall b | b in more ensures Proper(n, book, pool.deployed, b, more[b]) {
      ProperStays(s.round, payout.topMiner, book, pool.deployed, b, more[b]);
    }
    SumPut(SolsOf(credits), a, payout.sol);
    assert SolsOf(credits[a := payout]) == SolsOf(credits)[a := payout.sol];
  }

  lemma NotPaidYet(g: Game, owner: nat)
    requires Law(g) && owner in g.miners && g.miners[owner].play.checkpointId != g.miners[owner].play.roundId
    ensures owner !in CreditsOf(g, g.miners[owner].play.roundId)
  {
    hide RoundLaw, MinerLaw;
  }

  /** What a committed payment changes. */
  ghost predicate PaidOut(g: Game, n: Game, owner: nat, id: nat, payout: Payout, purse: Purse) {
    && owner in g.miners && id in g.rounds
    && n == g.(miners := g.miners[owner := MinerSlot(purse.play, purse.minerLamports)],
               rounds := g.rounds[id := RoundSlot(g.rounds[id].round.(topMiner := payout.topMiner), purse.roundLamports)],
               credits := g.credits[id := CreditsOf(g, id)[owner := payout]], partial := n.partial)
  }

  lemma PaymentLeavesOthers(g: Game, n: Game, owner: nat, id: nat, payout: Payout, purse: Purse)
    requires Law(g) && PaidOut(g, n, owner, id, payout, purse)
    ensures forall j: nat :: j != id ==> RoundLawAt(n, j)
    ensures forall a: nat :: a != owner ==> MinerLawAt(n, a)
  {
    hide RoundLaw, MinerLaw, Bettors, Paid;
    forall j: nat | j != id ensures RoundLawAt(n, j) {
      assert RoundLawAt(g, j);
    }
    forall a: nat | a != owner ensures MinerLawAt(n, a) {
      assert MinerLawAt(g, a);
    }
  }

  lemma PaymentHistories(g: Game, n: Game, owner: nat, id: nat, payout: Payout, purse: Purse)
    requires Law(g) && PaidOut(g, n, owner, id, payout, purse) && id < g.board.roundId
    requires purse.play.roundId == g.miners[owner].play.roundId == id == purse.play.checkpointId
    ensures Bettors(n.book, n.miners) && Paid(n.credits, n.board.roundId, n.miners)
  {
    hide RoundLawAt, MinerLawAt, Bettors, Paid;
    PaidMiners(g.credits, g.board.roundId, g.miners, n.miners, owner);
    PaidMore(g.credits, g.board.roundId, n.miners, id, owner, CreditsOf(g, id), payout);
    BettorsStay(g.book, g.miners, n.miners, owner);
  }

  lemma PaidMiners(credits: map<nat, map<nat, Payout>>, current: nat, miners: map<nat, MinerSlot>, later: map<nat, MinerSlot>, owner: nat)
    requires Paid(credits, current, miners) && owner in miners && owner in later && later == miners[owner := later[owner]]
    requires later[owner].play.roundId == miners[owner].play.roundId == later[owner].play.checkpointId
    ensures Paid(credits, current, later)
  {
  }

  lemma PaidMore(credits: map<nat, map<nat, Payout>>, current: nat, miners: map<nat, MinerSlot>, id: nat, owner: nat,
          list: map<nat, Payout>, payout: Payout)
    requires Paid(credits, current, miners) && owner in miners && id < current
    requires miners[owner].play.roundId == id == miners[owner].play.checkpointId
    requires list == if id in credits then credits[id] else map[]
    ensures Paid(credits[id := list[owner := payout]], current, miners)
  {
    var more := credits[id := list[owner := payout]];
    forall j, a | j in more && a in more[j]
      ensures a in miners && Past(j, current, miners[a])
    {
      if j != id || a != owner {
        assert j in credits && a in credits[j];
      }
    }
  }

  lemma BettorsStay(book: map<nat, map<nat, Bet>>, miners: map<nat, MinerSlot>, later: map<nat, MinerSlot>, owner: nat)
    requires Bettors(book, miners) && owner in miners && owner in later && later == miners[owner := later[owner]]
    requires later[owner].play.roundId == miners[owner].play.roundId
    ensures Bettors(book, later)
  {
  }

  lemma PaymentRoundLaw(g: Game, n: Game, owner: nat, id: nat, member: Option<PoolMember>, poolTotal: Grid, payout: Payout,
          purse: Purse, botFee: bool)
    requires Law(g) && PaidOut(g, n, owner, id, payout, purse) && id == g.miners[owner].play.roundId != g.board.roundId
    requires g.miners[owner].play.checkpointId != id
    requires member == MemberAt(g, owner) || member == None
    requires poolTotal == Zeros() || (id in g.pools && poolTotal == g.pools[id].deployed)
    requires Due(g.rounds[id].round, BetOf(g.miners[owner].play, member), poolTotal, owner) == Ok(payout)
    requires Pay(g.miners[owner].play, g.miners[owner].lamports, g.rounds[id].lamports, payout.sol, botFee, g.minerRent) == Ok(purse)
    ensures RoundLawAt(n, id)
  {
    hide RoundLaw, MinerLaw, Due, Proper, Bettors, Paid;
    assert RoundLawAt(g, id) && MinerLawAt(g, owner);
    NotPaidYet(g, owner);
    BetInBook(g, owner);
    PaidIsProper(g.rounds[id].round, BookOf(g, id), g.pools[id].deployed, owner, g.miners[owner].play, MemberAt(g, owner),
        member, poolTotal);
    TopStays(g.rounds[id].round, BetOf(g.miners[owner].play, member), poolTotal, owner);
    PaymentKeepsRound(id, g.board.roundId, g.rounds[id], g.pools[id], BookOf(g, id), CreditsOf(g, id), g.roundRent, owner,
        payout, purse.roundLamports);
  }

  lemma BetInBook(g: Game, owner: nat)
    requires MinerLawAt(g, owner) && owner in g.miners
    ensures var p, book := g.miners[owner].play, BookOf(g, g.miners[owner].play.roundId);
      if p.deployed == Zeros() then owner !in book else owner in book && book[owner] == BetOf(p, MemberAt(g, owner))
  {
  }

  lemma PaymentMinerLaw(g: Game, n: Game, owner: nat, id: nat, payout: Payout, purse: Purse, botFee: bool)
    requires Law(g) && PaidOut(g, n, owner, id, payout, purse)
    requires Pay(g.miners[owner].play, g.miners[owner].lamports, g.rounds[id].lamports, payout.sol, botFee, g.minerRent) == Ok(purse)
    ensures MinerLawAt(n, owner)
    ensures purse.play.roundId == g.miners[owner].play.roundId == purse.play.checkpointId
  {
    hide RoundLaw, Bettors, Paid;
    assert MinerLawAt(g, owner);
  }

  lemma SettlingKeeps(g: Game, owner: nat, id: nat, withMember: bool, withPool: bool, botFee: bool, creditable: bool)
    requires Law(g) && owner in g.miners && id in g.rounds
    requires id == g.miners[owner].play.roundId != g.board.roundId && g.miners[owner].play.checkpointId != id
    requires Settling(g, owner, id, withMember, withPool, botFee, creditable).Ok?
    ensures Law(Settling(g, owner, id, withMember, withPool, botFee, creditable).value)
  {
    hide RoundLaw, MinerLaw, Due, Pay, Bettors, Paid;
    var n := Settling(g, owner, id, withMember, withPool, botFee, creditable).value;
    var m, r := g.miners[owner], g.rounds[id];
    var member := if withMember then MemberAt(g, owner) else None;
    var poolTotal := PoolTotal(if withPool && id in g.pools then Some(g.pools[id]) else None);
    var payout := Due(r.round, BetOf(m.play, member), poolTotal, owner).value;
    var purse := Pay(m.play, m.lamports, r.lamports, payout.sol, botFee, g.minerRent).value;
    assert PaidOut(g, n, owner, id, payout, purse);
    assert MinerLawAt(g, owner);
    CheckpointOrder(g, owner);
    PaymentLeavesOthers(g, n, owner, id, payout, purse);
    PaymentMinerLaw(g, n, owner, id, payout, purse, botFee);
    PaymentHistories(g, n, owner, id, payout, purse);
    PaymentRoundLaw(g, n, owner, id, member, poolTotal, payout, purse, botFee);
  }

  lemma CheckpointingKeeps(g: Game, owner: nat, account: nat, withMember: bool, withPool: bool, legacy: bool, creditable: bool)
    requires Law(g) && Checkpointing(g, owner, account, withMember, withPool, legacy, creditable).Ok?
    ensures Law(Checkpointing(g, owner, account, withMember, withPool, legacy, creditable).value)
  {
    hide RoundLaw, MinerLaw, Settling, Bettors, Paid;
    var p := g.miners[owner].play;
    var round := if account in g.rounds then Some(g.rounds[account].round) else None;
    var gate := GateOf(p, round, g.board.roundId, g.slot).value;
    match gate {
      case Skip =>
      case Forfeit => ForfeitKeeps(g, owner);
      case Settle(botFee) =>
        RoundIds(g, account);
        SettlingKeeps(g, owner, account, withMember, withPool, botFee, creditable);
    }
  }

  lemma RoundIds(g: Game, id: nat)
    requires Law(g) && id in g.rounds
    ensures g.rounds[id].round.id == id
  {
    assert RoundLawAt(g, id);
  }

  /** Every instruction keeps every law. */
  lemma StepKeeps(g: Game, i: Instruction)
    requires Law(g) && Step(g, i).Ok?
    ensures Law(Step(g, i).value)
  {
    hide Law, Opening, Enrolling, Bets, Closing, Checkpointing, Sweeping, Claiming;
    match i
    case OpenMiner(owner, topUp) => OpeningKeeps(g, owner, topUp);
    case OpenMembership(owner) => EnrollingKeeps(g, owner);
    case PlaceBets(owner, order, config, legacy) => BetsKeep(g, owner, order, config, legacy);
    case CloseRound(mode, config, value, candidate, ticket) => ClosingKeeps(g, mode, config, value, candidate, ticket);
    case CheckpointMiner(owner, account, withMember, withPool, legacy, creditable) =>
      CheckpointingKeeps(g, owner, account, withMember, withPool, legacy, creditable);
    case SweepRound(id) => SweepingKeeps(g, id);
    case ClaimSol(owner, referred) => ClaimingKeeps(g, owner, referred);
    case InjectMotherlode(_) => AsideKeeps(g, Step(g, i).value);
    case Gift(id, lamports) => GiftKeeps(g, id, lamports);
    case Wait(_, _) => AsideKeeps(g, Step(g, i).value);
  }

  /** In every state any history can reach, every law holds. */
  lemma RunKeepsLaw(g: Game, history: seq<Instruction>)
    requires Law(g)
    ensures Law(Runs.Run(Step, g, history))
  {
    hide Step, Law;
    forall s, i | Law(s) && Step(s, i).Ok? ensures Law(Step(s, i).value) {
      StepKeeps(s, i);
    }
    Runs.RunKeeps(Step, Law, g, history);
  }
}
