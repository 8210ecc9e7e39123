/** The round game as one machine: the board, every round, pool, miner and membership, moved by the
    program's instructions. A failing instruction is rolled back. */
module Game {
  import opened Basics
  import opened BoardState
  import opened Checkpoint
  import opened MinerHandlers
  import opened MinerState
  import opened PoolState
  import opened RoundState
  import opened Sweep
  import opened TreasuryState
  import Deploy
  import Reset

  datatype RoundSlot = RoundSlot(round: Round, lamports: nat)

  datatype MinerSlot = MinerSlot(play: Play, lamports: nat)

  /** `book` is the history of bets and `credits` the history of payments, round by round; `partial`
      are the miners whose caller left out the pool's accounts. The two rents are what the chain asks of a miner's and of a round's account. */
  datatype Game = Game(
    board: Board,
    rounds: map<nat, RoundSlot>,
    pools: map<nat, PoolRound>,
    miners: map<nat, MinerSlot>,
    members: map<nat, PoolMember>,
    treasury: Treasury,
    solMotherlode: uint64,
    supply: uint64,
    slot: uint64,
    now: int64,
    minerRent: nat,
    roundRent: nat,
    book: map<nat, map<nat, Bet>>,
    credits: map<nat, map<nat, Payout>>,
    partial: map<nat, set<nat>>)

  /** Inputs from outside: the settings in force, the rents, the entropy, the accounts the caller
      chooses to pass, and whether the GODL side of a checkpoint goes through. */
  datatype Instruction =
    | OpenMiner(owner: nat, topUp: bool)
    | OpenMembership(owner: nat)
    | PlaceBets(owner: nat, order: Deploy.Order, config: Config, legacy: bool)
    | CloseRound(mode: Reset.Mode, config: Config, value: Hash, candidate: Option<nat>, ticket: Option<nat>)
    | CheckpointMiner(owner: nat, account: nat, withMember: bool, withPool: bool, legacy: bool, creditable: bool)
    | SweepRound(id: nat)
    | ClaimSol(owner: nat, referred: bool)
    | InjectMotherlode(amount: uint64)
    | Gift(id: nat, lamports: nat)
    | Wait(slots: nat, seconds: nat)

  ghost function MinerOrNew(g: Game, owner: nat): MinerSlot {
    if owner in g.miners then g.miners[owner] else MinerSlot(NEW_PLAY, g.minerRent)
  }

  ghost function MemberAt(g: Game, owner: nat): Option<PoolMember> {
    if owner in g.members then Some(g.members[owner]) else None
  }

  ghost function BookOf(g: Game, id: nat): map<nat, Bet> {
    if id in g.book then g.book[id] else map[]
  }

  ghost function CreditsOf(g: Game, id: nat): map<nat, Payout> {
    if id in g.credits then g.credits[id] else map[]
  }

  ghost function PartialOf(g: Game, id: nat): set<nat> {
    if id in g.partial then g.partial[id] else {}
  }

  ghost function Current(g: Game): Result<RoundSlot> {
    if g.board.roundId in g.rounds && g.rounds[g.board.roundId].round.id == g.board.roundId && g.board.roundId in g.pools
       && g.pools[g.board.roundId].id == g.board.roundId
    then Ok(g.rounds[g.board.roundId]) else Err(InvalidAccountData)
  }

  ghost function WithMember(members: map<nat, PoolMember>, owner: nat, member: Option<PoolMember>): map<nat, PoolMember> {
    if member.Some? then members[owner := member.value] else members
  }

  /** The bet a miner now holds on the round, if it has placed any lamports at all. */
  ghost function Recorded(book: map<nat, Bet>, owner: nat, bet: Bet): map<nat, Bet> {
    if bet.deployed == Zeros() then book else book[owner := bet]
  }

  ghost function Bets(g: Game, owner: nat, order: Deploy.Order, config: Config, legacy: bool): Result<Game> {
    if legacy && g.now >= LEGACY_INSTRUCTION_EXPIRY_TS then Err(LegacyInstructionExpired)
    else
      var r :- Current(g);
      var id := g.board.roundId;
      var m := MinerOrNew(g, owner);
      var d :- Deploy.Deployed(Deploy.Seat(g.board, r.round, m.play, MemberAt(g, owner), g.pools[id]), order, g.slot, config);
      Ok(g.(board := d.seat.board,
            rounds := g.rounds[id := RoundSlot(d.seat.round, r.lamports + d.placed)],
            pools := g.pools[id := d.seat.pool],
            miners := g.miners[owner := MinerSlot(d.seat.play, m.lamports + d.topUp)],
            members := WithMember(g.members, owner, d.seat.member),
            book := g.book[id := Recorded(BookOf(g, id), owner, BetOf(d.seat.play, d.seat.member))]))
  }

  ghost function CandidateAt(g: Game, owner: Option<nat>): Option<Reset.Candidate> {
    if owner.Some? && owner.value in g.miners then Some(Reset.Candidate(owner.value, g.miners[owner.value].play)) else None
  }

  ghost function TicketAt(g: Game, owner: Option<nat>): Option<Reset.PoolTicket> {
    if owner.Some? && owner.value in g.members then Some(Reset.PoolTicket(owner.value, g.members[owner.value])) else None
  }

  /** The permissionless reset insists on the candidate's own membership address. */
  ghost function TicketFor(g: Game, mode: Reset.Mode, candidate: Option<nat>, ticket: Option<nat>): Option<Reset.PoolTicket> {
    TicketAt(g, if mode.Strict? then candidate else ticket)
  }

  ghost function TableOf(g: Game, r: RoundSlot): Reset.Table {
    Reset.Table(g.board, r.round, r.lamports, g.treasury, g.solMotherlode, g.supply)
  }

  ghost function Closing(g: Game, mode: Reset.Mode, config: Config, value: Hash, candidate: Option<nat>,
          ticket: Option<nat>): Result<Game> {
    var r :- Current(g);
    var id := g.board.roundId;
    if id + 1 in g.rounds || id + 1 in g.pools || id == UINT64_MAX then Err(InvalidAccountData)
    else
      var o :- Reset.Closed(TableOf(g, r), g.slot, config, value, mode, CandidateAt(g, candidate), TicketFor(g, mode, candidate, ticket));
      Ok(g.(board := o.table.board,
            rounds := g.rounds[id := RoundSlot(o.table.round, o.table.lamports)][id + 1 := RoundSlot(OpenRound(id + 1), g.roundRent)],
            pools := g.pools[id + 1 := OpenPool(id + 1)],
            treasury := o.table.treasury, solMotherlode := o.table.solMotherlode, supply := o.table.supply))
  }

  ghost function Settling(g: Game, owner: nat, id: nat, withMember: bool, withPool: bool, botFee: bool, creditable: bool): Result<Game>
    requires owner in g.miners && id in g.rounds
  {
    var m, r := g.miners[owner], g.rounds[id];
    var member := if withMember then MemberAt(g, owner) else None;
    var pool := if withPool && id in g.pools then Some(g.pools[id]) else None;
    var payout :- Due(r.round, BetOf(m.play, member), PoolTotal(pool), owner);
    if !creditable then Err(Panic)
    else
      var purse :- Pay(m.play, m.lamports, r.lamports, payout.sol, botFee, g.minerRent);
      Ok(g.(miners := g.miners[owner := MinerSlot(purse.play, purse.minerLamports)],
            rounds := g.rounds[id := RoundSlot(r.round.(topMiner := payout.topMiner), purse.roundLamports)],
            credits := g.credits[id := CreditsOf(g, id)[owner := payout]],
            partial := if withMember && withPool then g.partial else g.partial[id := PartialOf(g, id) + {owner}]))
  }

  /** An empty account is accepted only at the address of the miner's own round. */
  ghost function Checkpointing(g: Game, owner: nat, account: nat, withMember: bool, withPool: bool, legacy: bool,
          creditable: bool): Result<Game> {
    if legacy && g.now >= LEGACY_INSTRUCTION_EXPIRY_TS then Err(LegacyInstructionExpired)
    else if owner !in g.miners then Err(MissingAccount)
    else
      var p := g.miners[owner].play;
      var round := if account in g.rounds then Some(g.rounds[account].round) else None;
      var gate :- GateOf(p, round, g.board.roundId, g.slot);
      match gate
      case Skip => Ok(g)
      case Forfeit =>
        if account !in g.rounds && account != p.roundId then Err(InvalidAccountData)
        else Ok(g.(miners := g.miners[owner := g.miners[owner].(play := p.(checkpointId := p.roundId))]))
      case Settle(botFee) => Settling(g, owner, account, withMember, withPool, botFee, creditable)
  }

  ghost function Sweeping(g: Game, id: nat): Result<Game> {
    if id !in g.rounds then Err(MissingAccount)
    else
      var balance :- Swept(g.rounds[id].round, g.rounds[id].lamports, g.board.roundId, g.slot, g.treasury.balance, g.roundRent);
      Ok(g.(rounds := g.rounds - {id}, pools := g.pools - {id}, treasury := g.treasury.(balance := balance)))
  }

  ghost function Claiming(g: Game, owner: nat, referred: bool): Result<Game> {
    if owner !in g.miners then Err(MissingAccount)
    else
      var m := g.miners[owner];
      if referred && m.play.rewardsSol * REFERRAL_BPS > UINT64_MAX then Err(InvalidInstructionData)
      else if m.lamports < m.play.rewardsSol then Err(Panic)
      else Ok(g.(miners := g.miners[owner := MinerSlot(m.play.(rewardsSol := 0, lastClaimSolAt := g.now), m.lamports - m.play.rewardsSol)]))
  }

  /** Automations, trades and the like open a miner; automations also fund its checkpoint fee. */
  ghost function Opening(g: Game, owner: nat, topUp: bool): Game {
    var m := MinerOrNew(g, owner);
    g.(miners := g.miners[owner :=
      if topUp && m.play.checkpointFee == 0
      then MinerSlot(m.play.(checkpointFee := Deploy.CHECKPOINT_FEE), m.lamports + Deploy.CHECKPOINT_FEE) else m])
  }

  /** An automation that opts into the pool opens a membership along with the miner. */
  ghost function Enrolling(g: Game, owner: nat): Result<Game> {
    if owner !in g.miners then Err(MissingAccount)
    else Ok(if owner in g.members then g else g.(members := g.members[owner := NEW_MEMBER]))
  }

  ghost function Step(g: Game, i: Instruction): Result<Game> {
    match i
    case OpenMiner(owner, topUp) => Ok(Opening(g, owner, topUp))
    case OpenMembership(owner) => Enrolling(g, owner)
    case PlaceBets(owner, order, config, legacy) => Bets(g, owner, order, config, legacy)
    case CloseRound(mode, config, value, candidate, ticket) => Closing(g, mode, config, value, candidate, ticket)
    case CheckpointMiner(owner, account, withMember, withPool, legacy, creditable) =>
      Checkpointing(g, owner, account, withMember, withPool, legacy, creditable)
    case SweepRound(id) => Sweeping(g, id)
    case ClaimSol(owner, referred) => Claiming(g, owner, referred)
    case InjectMotherlode(amount) =>
      if amount == 0 then Err(AmountTooSmall)
      else if g.treasury.motherlode + amount > UINT64_MAX then Err(ArithmeticOverflow)
      else Ok(g.(treasury := g.treasury.(motherlode := g.treasury.motherlode + amount)))
    case Gift(id, lamports) =>
      if id !in g.rounds then Err(MissingAccount)
      else Ok(g.(rounds := g.rounds[id := g.rounds[id].(lamports := g.rounds[id].lamports + lamports)]))
    case Wait(slots, seconds) =>
      if g.slot + slots > UINT64_MAX || g.now + seconds > INT64_MAX then Err(Panic)
      else Ok(g.(slot := g.slot + slots, now := g.now + seconds))
  }
}
