/** Closing a round: fees, the winners' pot, the GODL minted for the round, and who takes it. */
module Reset {
  import opened Basics
  import opened BoardState
  import opened FixedPoint
  import opened MinerState
  import opened PoolState
  import opened RoundState
  import opened TreasuryState

  const ADMIN_FEE_BPS: uint64 := 50
  const SOL_MOTHERLODE_BPS: uint64 := 100
  const CRANK_REWARD_LAMPORTS: uint64 := 1_000_000

  /** The trusted crank tolerates a missing or wrong top-miner candidate; the permissionless
      instruction demands the right one. */
  datatype Mode = Lenient | Strict

  /** The accounts a reset writes. */
  datatype Table = Table(board: Board, round: Round, lamports: nat, treasury: Treasury, solMotherlode: uint64, supply: uint64)

  /** Lamports leave the round three ways: as the admin fee, to the SOL motherlode, to the treasury. */
  datatype Outcome = Outcome(table: Table, adminFee: uint64, motherlodeFee: uint64, vaulted: uint64)

  datatype Candidate = Candidate(authority: nat, play: Play)

  datatype PoolTicket = PoolTicket(authority: nat, member: PoolMember)

  ghost function Fee(amount: uint64, bps: uint64): Result<uint64> {
    if amount * bps > UINT64_MAX then Err(InvalidInstructionData) else Ok(amount * bps / DENOMINATOR_BPS)
  }

  ghost function NextBoard(b: Board, slot: uint64): Board
    requires b.roundId < UINT64_MAX
  {
    Board(b.roundId + 1, slot, UINT64_MAX)
  }

  ghost function LenientTop(round: Round, r: uint64, candidate: Option<Candidate>, ticket: Option<PoolTicket>): Result<TopMiner> {
    var w := WinningSquare(r);
    if IsSplit(r) then Ok(Split)
    else if candidate.None? || ticket.None? then Ok(round.topMiner)
    else
      var p, m := candidate.value.play, ticket.value.member;
      if p.roundId != round.id || ticket.value.authority != candidate.value.authority || m.roundId != round.id then Err(InvalidAccountData)
      else if p.deployed[w] == 0 || m.deployed[w] == 0 then Ok(round.topMiner)
      else if p.cumulative[w] + p.deployed[w] > UINT64_MAX then Err(InvalidInstructionData)
      else Ok(if Covers(p.cumulative, p.deployed, w, TopMinerSample(r, round.deployed[w])) then Pool else round.topMiner)
  }

  ghost function StrictTop(round: Round, r: uint64, candidate: Option<Candidate>, ticket: Option<PoolTicket>): Result<TopMiner> {
    var w := WinningSquare(r);
    if IsSplit(r) then Ok(Split)
    else if candidate.None? || candidate.value.play.roundId != round.id then Err(InvalidAccountData)
    else
      var p := candidate.value.play;
      if p.cumulative[w] + p.deployed[w] > UINT64_MAX then Err(InvalidInstructionData)
      else if !Covers(p.cumulative, p.deployed, w, TopMinerSample(r, round.deployed[w])) then Err(InvalidInstructionData)
      else if ticket.None? then Ok(round.topMiner)
      else if ticket.value.authority != candidate.value.authority then Err(InvalidAccountData)
      else Ok(if ticket.value.member.roundId == round.id && ticket.value.member.deployed[w] > 0 then Pool else round.topMiner)
  }

  ghost function Top(mode: Mode, round: Round, r: uint64, candidate: Option<Candidate>, ticket: Option<PoolTicket>): Result<TopMiner> {
    match mode
    case Lenient => LenientTop(round, r, candidate, ticket)
    case Strict => StrictTop(round, r, candidate, ticket)
  }

  datatype Pot = Pot(fees: uint64, vault: uint64, winnings: uint64)

  /** The losing squares' lamports, less one and a half percent of fees, less a tenth for the vault. */
  ghost function PotOf(round: Round, winning: nat): Result<Pot>
    requires winning < SQUARES
  {
    var losing := Losing(round.deployed, winning);
    if losing > UINT64_MAX then Err(Panic)
    else
      var fees :- Fee(losing, ADMIN_FEE_BPS + SOL_MOTHERLODE_BPS);
      FeeWithin(losing, ADMIN_FEE_BPS + SOL_MOTHERLODE_BPS);
      var rest := losing - fees;
      Ok(Pot(fees, rest / 10, rest - rest / 10))
  }

  lemma FeeWithin(amount: nat, bps: nat)
    requires bps <= DENOMINATOR_BPS
    ensures 0 <= amount * bps / DENOMINATOR_BPS <= amount
  {
    Multiply(amount, bps);
  }

  lemma Multiply(amount: nat, bps: nat)
    requires bps <= DENOMINATOR_BPS
    ensures 0 <= amount * bps <= amount * DENOMINATOR_BPS
  {
  }

  /** How much may still be minted: all that is wanted, or what the cap leaves of it. */
  function Mintable(supply: uint64, wanted: uint64): (amount: uint64)
    ensures supply + amount <= Max(supply, MAX_SUPPLY)
    ensures amount <= wanted && (amount == wanted || MAX_SUPPLY <= supply + amount)
  {
    Min(Max(MAX_SUPPLY - supply, 0), wanted)
  }

  ghost function MotherlodeOut(motherlode: uint64, r: uint64): (out: uint64)
    ensures out <= motherlode
    ensures if HitMotherlode(r) then 10 * (motherlode - out) <= motherlode < 10 * (motherlode - out) + 10 else out == 0
  {
    if HitMotherlode(r) then motherlode - motherlode / 10 else 0
  }

  datatype Rewarded = Rewarded(round: Round, motherlode: uint64, supply: uint64)

  /** Fixes the GODL of a won round: what is minted for it, who takes it, and the motherlode if hit. */
  ghost function Reward(round: Round, motherlode: uint64, supply: uint64, config: Config, r: uint64, mode: Mode,
                        candidate: Option<Candidate>, ticket: Option<PoolTicket>): Result<Rewarded> {
    if config.motherlodeDenominator == 0 then Err(Panic)
    else
      var reward := Mintable(supply, config.godlPerRound);
      var extra := Mintable(supply + reward, config.godlPerRound / config.motherlodeDenominator);
      var top :- Top(mode, round, r, candidate, ticket);
      var out := MotherlodeOut(motherlode, r);
      var left :- Add(motherlode - out, extra, Panic);
      Ok(Rewarded(round.(topMinerReward := reward, topMiner := top, motherlode := if HitMotherlode(r) then out else round.motherlode),
                  left, supply + reward + extra))
  }

  /** A round with bets on the winning square. */
  ghost function Won(t: Table, slot: uint64, config: Config, r: uint64, mode: Mode, candidate: Option<Candidate>,
                     ticket: Option<PoolTicket>, adminFee: uint64, motherlodeFee: uint64): Result<Outcome>
    requires t.board.roundId < UINT64_MAX
  {
    var w := WinningSquare(r);
    var pot :- PotOf(t.round, w);
    var balance :- Add(t.treasury.balance, pot.vault, Panic);
    if t.round.totalDeployed < pot.vault + pot.winnings + t.round.deployed[w] + pot.fees then Err(Panic)
    else
      var settled := t.round.(totalWinnings := pot.winnings, totalVaulted := pot.vault);
      var rewarded :- Reward(settled, t.treasury.motherlode, t.supply, config, r, mode, candidate, ticket);
      var solMotherlode :- Add(t.solMotherlode, motherlodeFee, Panic);
      if t.lamports < adminFee + motherlodeFee + pot.vault then Err(Panic)
      else
        Ok(Outcome(Table(NextBoard(t.board, slot), rewarded.round, t.lamports - adminFee - motherlodeFee - pot.vault,
                         t.treasury.(balance := balance, motherlode := rewarded.motherlode), solMotherlode, rewarded.supply),
                   adminFee, motherlodeFee, pot.vault))
  }

  /** Nobody is on the winning square: everything but the fees goes to the vault. */
  ghost function Lost(t: Table, slot: uint64, adminFee: uint64, motherlodeFee: uint64): Result<Outcome>
    requires t.board.roundId < UINT64_MAX
  {
    if t.round.totalDeployed < adminFee + motherlodeFee then Err(Panic)
    else
      var vaulted := t.round.totalDeployed - adminFee - motherlodeFee;
      var balance :- Add(t.treasury.balance, vaulted, Panic);
      var solMotherlode :- Add(t.solMotherlode, motherlodeFee, Panic);
      if t.lamports < adminFee + motherlodeFee + vaulted then Err(Panic)
      else
        Ok(Outcome(Table(NextBoard(t.board, slot), t.round.(totalVaulted := vaulted), t.lamports - adminFee - motherlodeFee - vaulted,
                         t.treasury.(balance := balance), solMotherlode, t.supply),
                   adminFee, motherlodeFee, vaulted))
  }

  ghost function Drawn(t: Table, slot: uint64, config: Config, r: uint64, mode: Mode, candidate: Option<Candidate>,
                       ticket: Option<PoolTicket>): Result<Outcome>
    requires t.board.roundId < UINT64_MAX
  {
    var adminFee :- Fee(t.round.totalDeployed, ADMIN_FEE_BPS);
    var motherlodeFee :- Fee(t.round.totalDeployed, SOL_MOTHERLODE_BPS);
    if t.round.deployed[WinningSquare(r)] == 0 then Lost(t, slot, adminFee, motherlodeFee)
    else Won(t, slot, config, r, mode, candidate, ticket, adminFee, motherlodeFee)
  }

  /** Both reset instructions. The oracle must have delivered a value. */
  ghost function Closed(t: Table, slot: uint64, config: Config, value: Hash, mode: Mode, candidate: Option<Candidate>,
                        ticket: Option<PoolTicket>): Result<Outcome> {
    if slot < Min(t.board.endSlot + config.IntermissionSlots(), UINT64_MAX) then Err(InvalidAccountData)
    else if t.board.roundId == UINT64_MAX then Err(Panic)
    else if value == Repeated(0) then Err(InvalidAccountData)
    else
      var drawn := t.(round := t.round.(slotHash := value));
      match Rng(value)
      case None =>
        Ok(Outcome(drawn.(board := NextBoard(t.board, slot), round := drawn.round.(totalVaulted := 0, totalWinnings := 0,
            totalDeployed := 0)), 0, 0, 0))
      case Some(r) => Drawn(drawn, slot, config, r, mode, candidate, ticket)
  }

  /** Whenever both instructions commit on the same accounts they leave exactly the same round,
      board, treasury, motherlode and supply, and take the same fees. */
  lemma ResetsAgree(t: Table, slot: uint64, config: Config, value: Hash, candidate: Option<Candidate>, ticket: Option<PoolTicket>)
    requires Closed(t, slot, config, value, Lenient, candidate, ticket).Ok?
    requires Closed(t, slot, config, value, Strict, candidate, ticket).Ok?
    ensures Closed(t, slot, config, value, Lenient, candidate, ticket) == Closed(t, slot, config, value, Strict, candidate, ticket)
  {
    hide PotOf, Mintable, MotherlodeOut, Fee, Rng, IsSplit, TopMinerSample;
  }

  /** The pool is to take the round: bets were won, the draw does not split, and the winner's
      membership bet on the winning square in this round. */
  ghost predicate PoolTakes(round: Round, value: Hash, ticket: Option<PoolTicket>) {
    match Rng(value)
    case None => false
    case Some(r) =>
      && 0 < round.deployed[WinningSquare(r)] && !IsSplit(r)
      && ticket.Some? && ticket.value.member.roundId == round.id && 0 < ticket.value.member.deployed[WinningSquare(r)]
  }

  /** Who calls does matter to the lenient instruction in one case: when the pool is to take the
      round and no candidate is given, the round is left to be claimed as a solo win. In every
      other case omitting the candidate changes nothing. */
  lemma LenientWithoutCandidate(t: Table, slot: uint64, config: Config, value: Hash, candidate: Option<Candidate>,
          ticket: Option<PoolTicket>)
    requires t.round.topMiner == Unset && Closed(t, slot, config, value, Strict, candidate, ticket).Ok?
    ensures var strict, bare := Closed(t, slot, config, value, Strict, candidate, ticket), Closed(t, slot, config, value,
        Lenient, None, None);
      && bare.Ok?
      && bare.value == strict.value.(table := strict.value.table.(round := strict.value.table.round.(topMiner := bare.value.table.round.topMiner)))
      && (bare == strict <==> !PoolTakes(t.round, value, ticket))
      && (bare != strict ==> strict.value.table.round.topMiner == Pool && bare.value.table.round.topMiner == Unset)
  {
    hide PotOf, Mintable, MotherlodeOut, Fee, Rng, IsSplit, TopMinerSample;
  }

  lemma TopFrame(mode: Mode, round: Round, other: Round, r: uint64, candidate: Option<Candidate>, ticket: Option<PoolTicket>)
    requires other.id == round.id && other.deployed == round.deployed && other.topMiner == round.topMiner
    ensures Top(mode, other, r, candidate, ticket) == Top(mode, round, r, candidate, ticket)
  {
    hide IsSplit, TopMinerSample, WinningSquare;
  }

  /** Whoever calls, and whatever candidate is given, a committed reset fixes everything but who takes
      the GODL, and that is what the mode makes of the candidate. */
  lemma OnlyTheTopDepends(t: Table, slot: uint64, config: Config, value: Hash, m: Mode, c: Option<Candidate>, k: Option<PoolTicket>,
                          n: Mode, d: Option<Candidate>, l: Option<PoolTicket>)
    requires Closed(t, slot, config, value, m, c, k).Ok? && Closed(t, slot, config, value, n, d, l).Ok?
    ensures var a, b := Closed(t, slot, config, value, m, c, k).value, Closed(t, slot, config, value, n, d, l).value;
      && b == a.(table := a.table.(round := a.table.round.(topMiner := b.table.round.topMiner)))
      && (match Rng(value)
          case None => b.table.round.topMiner == a.table.round.topMiner
          case Some(r) =>
            if t.round.deployed[WinningSquare(r)] == 0 then b.table.round.topMiner == a.table.round.topMiner
            else
              && Top(m, t.round, r, c, k) == Ok(a.table.round.topMiner)
              && Top(n, t.round, r, d, l) == Ok(b.table.round.topMiner))
  {
    hide PotOf, Mintable, MotherlodeOut, Fee, Rng, Top, HitMotherlode, WinningSquare;
    if Rng(value).Some? {
      var r := Rng(value).value;
      var w := WinningSquare(r);
      var drawn := t.round.(slotHash := value);
      if t.round.deployed[w] != 0 {
        var pot := PotOf(drawn, w).value;
        var settled := drawn.(totalWinnings := pot.winnings, totalVaulted := pot.vault);
        TopFrame(m, t.round, settled, r, c, k);
        TopFrame(n, t.round, settled, r, d, l);
      }
    }
  }

  /** Who takes the GODL: whoever the mode makes of the candidate in a won round, and as before in
      any other. */
  lemma ClosedTop(t: Table, slot: uint64, config: Config, value: Hash, mode: Mode, candidate: Option<Candidate>,
          ticket: Option<PoolTicket>)
    requires Closed(t, slot, config, value, mode, candidate, ticket).Ok?
    ensures var n := Closed(t, slot, config, value, mode, candidate, ticket).value.table.round;
      && n.slotHash == value
      && match Rng(value)
         case None => n.topMiner == t.round.topMiner
         case Some(r) =>
           if t.round.deployed[WinningSquare(r)] == 0 then n.topMiner == t.round.topMiner
           else Top(mode, t.round, r, candidate, ticket) == Ok(n.topMiner)
  {
    hide PotOf, Mintable, MotherlodeOut, Fee, Rng, Top, HitMotherlode, WinningSquare;
    if Rng(value).Some? {
      var r := Rng(value).value;
      var w := WinningSquare(r);
      var drawn := t.round.(slotHash := value);
      if t.round.deployed[w] != 0 {
        var pot := PotOf(drawn, w).value;
        TopFrame(mode, t.round, drawn.(totalWinnings := pot.winnings, totalVaulted := pot.vault), r, candidate, ticket);
      }
    }
  }

  /** A tenth of what is left after the fees, rounded down. */
  lemma VaultIsATenth(round: Round, winning: nat)
    requires winning < SQUARES && PotOf(round, winning).Ok?
    ensures var pot := PotOf(round, winning).value;
      var rest := Losing(round.deployed, winning) - pot.fees;
      && pot.vault + pot.winnings == rest && 10 * pot.vault <= rest < 10 * pot.vault + 10
      && pot.fees * DENOMINATOR_BPS <= 150 * Losing(round.deployed, winning) < pot.fees * DENOMINATOR_BPS + DENOMINATOR_BPS
  {
    hide Total, Losing;
    var losing := Losing(round.deployed, winning);
    FeeWithin(losing, ADMIN_FEE_BPS + SOL_MOTHERLODE_BPS);
  }

  /** How a drawn round is divided: half a percent and one percent of all of it in fees; of a lost
      round the rest goes to the vault, of a won one a tenth of what the losing squares have left. */
  lemma ResetDivides(t: Table, slot: uint64, config: Config, value: Hash, mode: Mode, candidate: Option<Candidate>,
          ticket: Option<PoolTicket>)
    requires Closed(t, slot, config, value, mode, candidate, ticket).Ok?
    ensures var o := Closed(t, slot, config, value, mode, candidate, ticket).value;
      var total := t.round.totalDeployed;
      match Rng(value)
      case None => o.adminFee == 0 == o.motherlodeFee && o.vaulted == 0
      case Some(r) =>
        && o.adminFee * DENOMINATOR_BPS <= 50 * total < o.adminFee * DENOMINATOR_BPS + DENOMINATOR_BPS
        && o.motherlodeFee * DENOMINATOR_BPS <= 100 * total < o.motherlodeFee * DENOMINATOR_BPS + DENOMINATOR_BPS
        && (if t.round.deployed[WinningSquare(r)] == 0 then o.vaulted == total - o.adminFee - o.motherlodeFee
            else
              && PotOf(t.round, WinningSquare(r)).Ok?
              && o.vaulted == PotOf(t.round, WinningSquare(r)).value.vault == o.table.round.totalVaulted
              && o.table.round.totalWinnings == PotOf(t.round, WinningSquare(r)).value.winnings)
  {
    hide Rng, Total, WinningSquare, Reward, PotOf;
    if Rng(value).Some? {
      var r := Rng(value).value;
      var drawn := t.round.(slotHash := value);
      SamePot(t.round, drawn, WinningSquare(r));
      if t.round.deployed[WinningSquare(r)] != 0 {
        RewardKeepsPot(drawn, t.treasury.motherlode, t.supply, config, r, mode, candidate, ticket);
      }
    }
  }

  lemma SamePot(a: Round, b: Round, winning: nat)
    requires winning < SQUARES && a.deployed == b.deployed
    ensures PotOf(a, winning) == PotOf(b, winning)
  {
  }

  lemma RewardKeepsPot(drawn: Round, motherlode: uint64, supply: uint64, config: Config, r: uint64, mode: Mode,
                       candidate: Option<Candidate>, ticket: Option<PoolTicket>)
    requires PotOf(drawn, WinningSquare(r)).Ok?
    ensures var pot := PotOf(drawn, WinningSquare(r)).value;
      var settled := drawn.(totalWinnings := pot.winnings, totalVaulted := pot.vault);
      var rewarded := Reward(settled, motherlode, supply, config, r, mode, candidate, ticket);
      rewarded.Ok? ==> rewarded.value.round.totalWinnings == pot.winnings && rewarded.value.round.totalVaulted == pot.vault
  {
    hide PotOf, Top, HitMotherlode, Mintable, MotherlodeOut, WinningSquare;
  }

  /** The GODL of a won round: the setting in full, and the motherlode's part of it in full, or as much
      as the cap on the supply leaves. When the motherlode is hit, nine tenths of it go to the round. */
  lemma RewardIsFull(round: Round, motherlode: uint64, supply: uint64, config: Config, r: uint64, mode: Mode,
                     candidate: Option<Candidate>, ticket: Option<PoolTicket>)
    requires Reward(round, motherlode, supply, config, r, mode, candidate, ticket).Ok?
    ensures var n := Reward(round, motherlode, supply, config, r, mode, candidate, ticket).value;
      var reward := n.round.topMinerReward;
      var extra := n.supply - supply - reward;
      && 0 < config.motherlodeDenominator && 0 <= extra
      && reward <= config.godlPerRound && (reward == config.godlPerRound || MAX_SUPPLY <= n.supply)
      && extra * config.motherlodeDenominator <= config.godlPerRound
      && (config.godlPerRound < (extra + 1) * config.motherlodeDenominator || MAX_SUPPLY <= n.supply)
      && (if HitMotherlode(r)
          then 10 * (motherlode - n.round.motherlode) <= motherlode < 10 * (motherlode - n.round.motherlode) + 10
               && n.motherlode == motherlode - n.round.motherlode + extra
          else n.round.motherlode == round.motherlode && n.motherlode == motherlode + extra)
  {
    hide Top, HitMotherlode, Mintable, MotherlodeOut;
    var wanted := config.godlPerRound / config.motherlodeDenominator;
    QuotientBound(config.godlPerRound, config.motherlodeDenominator);
    var extra: int := Reward(round, motherlode, supply, config, r, mode, candidate, ticket).value.supply - supply
                      - Reward(round, motherlode, supply, config, r, mode, candidate, ticket).value.round.topMinerReward;
    MultiplyMonotone(extra, wanted, config.motherlodeDenominator);
  }

  /** The sanity check on tracked outflows can never fail: on a round whose total is the sum of its
      squares it holds with equality. */
  lemma SanityHoldsWithEquality(round: Round, winning: nat)
    requires winning < SQUARES && round.totalDeployed == Total(round.deployed) && PotOf(round, winning).Ok?
    ensures var pot := PotOf(round, winning).value;
      round.totalDeployed == pot.vault + pot.winnings + round.deployed[winning] + pot.fees
  {
    hide Fee, Total;
    FeeWithin(Losing(round.deployed, winning), ADMIN_FEE_BPS + SOL_MOTHERLODE_BPS);
  }

  /** No reset takes the supply past its cap, and what a reset pays out in lamports it takes from
      the round. */
  lemma ResetConserves(t: Table, slot: uint64, config: Config, value: Hash, mode: Mode, candidate: Option<Candidate>,
          ticket: Option<PoolTicket>)
    requires Closed(t, slot, config, value, mode, candidate, ticket).Ok?
    ensures var o := Closed(t, slot, config, value, mode, candidate, ticket).value;
      && t.supply <= o.table.supply <= Max(t.supply, MAX_SUPPLY)
      && o.table.lamports + o.adminFee + o.motherlodeFee + o.vaulted == t.lamports
      && o.table.treasury.balance == t.treasury.balance + o.vaulted
      && o.table.solMotherlode == t.solMotherlode + o.motherlodeFee
      && o.table.treasury == t.treasury.(balance := o.table.treasury.balance, motherlode := o.table.treasury.motherlode)
      && o.table.round.deployed == t.round.deployed && o.table.board.roundId == t.board.roundId + 1
  {
    hide PotOf, MotherlodeOut, WinningSquare, Fee, Rng, Top, Mintable, HitMotherlode;
  }

  /** The motherlode moves between the treasury and the round, and grows only by what is minted. */
  lemma MotherlodeConserved(t: Table, slot: uint64, config: Config, value: Hash, mode: Mode, candidate: Option<Candidate>,
          ticket: Option<PoolTicket>)
    requires t.round.motherlode == 0 && t.round.topMinerReward == 0 && Closed(t, slot, config, value, mode, candidate, ticket).Ok?
    ensures var n := Closed(t, slot, config, value, mode, candidate, ticket).value.table;
      n.treasury.motherlode + n.round.motherlode + n.round.topMinerReward == t.treasury.motherlode + (n.supply - t.supply)
  {
    hide PotOf, Fee, Rng, Top;
  }

  class SolMotherlodeAccount {
    var amount: uint64
  }

  class MintAccount {
    var supply: uint64
  }

  /** Lamports of the accounts a reset pays. */
  datatype Purses = Purses(collector: nat, crank: nat, motherlode: nat, treasury: nat)

  class Payees {
    var collector: nat
    var crank: nat
    var motherlode: nat
    var treasury: nat

    ghost function View(): Purses
      reads this
    {
      Purses(collector, crank, motherlode, treasury)
    }
  }

  /** What a caller is paid for cranking: a flat reward carved out of the admin fee. */
  function CrankReward(mode: Mode, adminFee: uint64): (reward: uint64)
    ensures reward <= adminFee
  {
    if mode.Strict? then Min(CRANK_REWARD_LAMPORTS, adminFee) else 0
  }

  /** Both instructions take the same fees; the permissionless one gives part of one to its caller. */
  ghost function Disbursed(p: Purses, mode: Mode, adminFee: uint64, motherlodeFee: uint64, vaulted: uint64): Purses {
    var crank := CrankReward(mode, adminFee);
    Purses(p.collector + adminFee - crank, p.crank + crank, p.motherlode + motherlodeFee, p.treasury + vaulted)
  }

  ghost function TableView(board: BoardAccount, round: RoundAccount, treasury: TreasuryAccount, solMotherlode: SolMotherlodeAccount,
                           mint: MintAccount): Table
    requires round.Valid()
    reads board, round, round.deployed, round.count, treasury, solMotherlode, mint
  {
    Table(board.View(), round.View(), round.lamports, treasury.View(), solMotherlode.amount, mint.supply)
  }

  method TakeFee(amount: uint64, bps: uint64) returns (r: Result<uint64>)
    requires bps <= DENOMINATOR_BPS
    ensures r == Fee(amount, bps)
  {
    FeeWithin(amount, bps);
    return if amount * bps > UINT64_MAX then Err(InvalidInstructionData) else Ok(amount * bps / DENOMINATOR_BPS);
  }

  /** Fixes the pot and checks it against the round's total. */
  method SettlePot(round: RoundAccount, treasury: TreasuryAccount, winning: nat) returns (r: Result<uint64>)
    requires round.Valid() && winning < SQUARES
    modifies round`totalWinnings, round`totalVaulted, treasury`balance
    ensures match PotOf(old(round.View()), winning)
            case Err(e) => r == Err(e)
            case Ok(pot) =>
              if old(treasury.balance) + pot.vault > UINT64_MAX
                 || round.totalDeployed < pot.vault + pot.winnings + round.deployed[winning] + pot.fees then r == Err(Panic)
              else
                && r == Ok(pot.vault) && treasury.balance == old(treasury.balance) + pot.vault
                && round.View() == old(round.View()).(totalWinnings := pot.winnings, totalVaulted := pot.vault)
  {
    var losing :- round.CalculateTotalWinnings(winning);
    var fees :- TakeFee(losing, ADMIN_FEE_BPS + SOL_MOTHERLODE_BPS);
    FeeWithin(losing, ADMIN_FEE_BPS + SOL_MOTHERLODE_BPS);
    var winnings := losing - fees;
    var vault := winnings / 10;
    round.totalWinnings := winnings - vault;
    round.totalVaulted := vault;
    treasury.balance :- Add(treasury.balance, vault, Panic);
    if round.totalDeployed < round.totalVaulted + round.totalWinnings + round.deployed[winning] + fees {
      return Err(Panic);
    }
    return Ok(vault);
  }

  /** Pays the motherlode into a round that hit it. */
  method HitTheMotherlode(round: RoundAccount, treasury: TreasuryAccount, r: uint64)
    requires round.Valid()
    modifies round`motherlode, treasury`motherlode
    ensures var out := MotherlodeOut(old(treasury.motherlode), r);
      && round.View() == old(round.View()).(motherlode := if HitMotherlode(r) then out else old(round.motherlode))
      && treasury.View() == old(treasury.View()).(motherlode := old(treasury.motherlode) - out)
  {
    if HitMotherlode(r) {
      var rollover := treasury.motherlode / 10;
      round.motherlode := treasury.motherlode - rollover;
      treasury.motherlode := rollover;
    }
  }

  method PayOut(round: RoundAccount, payees: Payees, mode: Mode, adminFee: uint64, motherlodeFee: uint64,
          vault: uint64) returns (r: Result<()>)
    modifies round`lamports, payees
    ensures r == if old(round.lamports) < adminFee + motherlodeFee + vault then Err(Panic) else Ok(())
    ensures r.Ok? ==>
      && round.lamports == old(round.lamports) - adminFee - motherlodeFee - vault
      && payees.View() == Disbursed(old(payees.View()), mode, adminFee, motherlodeFee, vault)
  {
    var crankReward := CrankReward(mode, adminFee);
    if round.lamports < motherlodeFee + adminFee + vault {
      return Err(Panic);
    }
    round.lamports := round.lamports - motherlodeFee;
    payees.motherlode := payees.motherlode + motherlodeFee;
    round.lamports := round.lamports - (adminFee - crankReward);
    payees.collector := payees.collector + (adminFee - crankReward);
    round.lamports := round.lamports - crankReward;
    payees.crank := payees.crank + crankReward;
    round.lamports := round.lamports - vault;
    payees.treasury := payees.treasury + vault;
    return Ok(());
  }

  /** Latches the pool when the given miner owns the winning lamport and bet with the pool; any
      other submission is ignored, unless it is for another round or another owner. */
  method LatchLeniently(round: RoundAccount, r: uint64, candidate: Option<Candidate>,
          ticket: Option<PoolTicket>) returns (result: Result<()>)
    requires round.Valid()
    modifies round`topMiner
    ensures match LenientTop(old(round.View()), r, candidate, ticket)
            case Err(e) => result == Err(e)
            case Ok(top) => result == Ok(()) && round.topMiner == top
  {
    var w := WinningSquare(r);
    if IsSplit(r) {
      round.topMiner := Split;
    } else if candidate.Some? && ticket.Some? {
      var p, m := candidate.value.play, ticket.value.member;
      if p.roundId != round.id || ticket.value.authority != candidate.value.authority || m.roundId != round.id {
        return Err(InvalidAccountData);
      }
      if p.deployed[w] > 0 && m.deployed[w] > 0 {
        var sample := TopMinerSample(r, round.deployed[w]);
        var lower := p.cumulative[w];
        var upper :- Add(lower, p.deployed[w], InvalidInstructionData);
        if lower <= sample < upper {
          round.topMiner := Pool;
        }
      }
    }
    return Ok(());
  }

  /** Demands the miner that owns the winning lamport, and derives pool or solo from its membership. */
  method LatchStrictly(round: RoundAccount, r: uint64, candidate: Option<Candidate>,
          ticket: Option<PoolTicket>) returns (result: Result<()>)
    requires round.Valid()
    modifies round`topMiner
    ensures match StrictTop(old(round.View()), r, candidate, ticket)
            case Err(e) => result == Err(e)
            case Ok(top) => result == Ok(()) && round.topMiner == top
  {
    var w := WinningSquare(r);
    if IsSplit(r) {
      round.topMiner := Split;
      return Ok(());
    }
    if candidate.None? || candidate.value.play.roundId != round.id {
      return Err(InvalidAccountData);
    }
    var p := candidate.value.play;
    var sample := TopMinerSample(r, round.deployed[w]);
    var lower := p.cumulative[w];
    var upper :- Add(lower, p.deployed[w], InvalidInstructionData);
    if !(p.deployed[w] > 0 && lower <= sample < upper) {
      return Err(InvalidInstructionData);
    }
    if ticket.Some? {
      if ticket.value.authority != candidate.value.authority {
        return Err(InvalidAccountData);
      }
      if ticket.value.member.roundId == round.id && ticket.value.member.deployed[w] > 0 {
        round.topMiner := Pool;
      }
    }
    return Ok(());
  }

  method Latch(mode: Mode, round: RoundAccount, r: uint64, candidate: Option<Candidate>,
          ticket: Option<PoolTicket>) returns (result: Result<()>)
    requires round.Valid()
    modifies round`topMiner
    ensures match Top(mode, old(round.View()), r, candidate, ticket)
            case Err(e) => result == Err(e)
            case Ok(top) => result == Ok(()) && round.topMiner == top
  {
    match mode
    case Lenient => result := LatchLeniently(round, r, candidate, ticket);
    case Strict => result := LatchStrictly(round, r, candidate, ticket);
  }

  method RewardRound(mode: Mode, round: RoundAccount, treasury: TreasuryAccount, mint: MintAccount, config: Config, r: uint64,
                     candidate: Option<Candidate>, ticket: Option<PoolTicket>) returns (result: Result<()>)
    requires round.Valid()
    modifies round`topMinerReward, round`topMiner, round`motherlode, treasury`motherlode, mint
    ensures match Reward(old(round.View()), old(treasury.motherlode), old(mint.supply), config, r, mode, candidate, ticket)
            case Err(e) => result == Err(e)
            case Ok(n) => result == Ok(()) && round.View() == n.round && treasury.motherlode == n.motherlode && mint.supply == n.supply
  {
    hide HitMotherlode;
    if config.motherlodeDenominator == 0 {
      return Err(Panic);
    }
    var reward := Mintable(mint.supply, config.godlPerRound);
    var extra := Mintable(mint.supply + reward, config.godlPerRound / config.motherlodeDenominator);
    var _ :- Latch(mode, round, r, candidate, ticket);
    round.topMinerReward := reward;
    HitTheMotherlode(round, treasury, r);
    treasury.motherlode :- Add(treasury.motherlode, extra, Panic);
    mint.supply := mint.supply + reward + extra;
    return Ok(());
  }

  method Advance(board: BoardAccount, slot: uint64)
    requires board.roundId < UINT64_MAX
    modifies board
    ensures board.View() == NextBoard(old(board.View()), slot)
  {
    board.roundId := board.roundId + 1;
    board.startSlot := slot;
    board.endSlot := UINT64_MAX;
  }

  /** The last steps of every drawn round. */
  method Conclude(mode: Mode, board: BoardAccount, round: RoundAccount, solMotherlode: SolMotherlodeAccount, payees: Payees,
                  slot: uint64, adminFee: uint64, motherlodeFee: uint64, vault: uint64) returns (r: Result<()>)
    requires board.roundId < UINT64_MAX
    modifies board, round`lamports, solMotherlode, payees
    ensures r == if old(solMotherlode.amount) + motherlodeFee > UINT64_MAX || old(round.lamports) < adminFee + motherlodeFee + vault
                 then Err(Panic) else Ok(())
    ensures r.Ok? ==>
      && board.View() == NextBoard(old(board.View()), slot)
      && solMotherlode.amount == old(solMotherlode.amount) + motherlodeFee
      && round.lamports == old(round.lamports) - adminFee - motherlodeFee - vault
      && payees.View() == Disbursed(old(payees.View()), mode, adminFee, motherlodeFee, vault)
  {
    solMotherlode.amount :- Add(solMotherlode.amount, motherlodeFee, Panic);
    Advance(board, slot);
    r := PayOut(round, payees, mode, adminFee, motherlodeFee, vault);
  }

  method WinRound(mode: Mode, board: BoardAccount, round: RoundAccount, treasury: TreasuryAccount, solMotherlode: SolMotherlodeAccount,
                  mint: MintAccount, payees: Payees, slot: uint64, config: Config, r: uint64, candidate: Option<Candidate>,
                  ticket: Option<PoolTicket>, adminFee: uint64, motherlodeFee: uint64) returns (result: Result<()>)
    requires round.Valid() && board.roundId < UINT64_MAX
    modifies board, round, treasury, solMotherlode, mint, payees
    ensures match Won(old(TableView(board, round, treasury, solMotherlode, mint)), slot, config, r, mode, candidate, ticket,
        adminFee, motherlodeFee)
            case Err(e) => result == Err(e)
            case Ok(o) =>
              && result == Ok(()) && TableView(board, round, treasury, solMotherlode, mint) == o.table
              && payees.View() == Disbursed(old(payees.View()), mode, o.adminFee, o.motherlodeFee, o.vaulted)
  {
    hide PotOf, Reward, Disbursed, WinningSquare;
    var vault :- SettlePot(round, treasury, WinningSquare(r));
    var _ :- RewardRound(mode, round, treasury, mint, config, r, candidate, ticket);
    result := Conclude(mode, board, round, solMotherlode, payees, slot, adminFee, motherlodeFee, vault);
  }

  method LoseRound(mode: Mode, board: BoardAccount, round: RoundAccount, treasury: TreasuryAccount, solMotherlode: SolMotherlodeAccount,
                   mint: MintAccount, payees: Payees, slot: uint64, adminFee: uint64, motherlodeFee: uint64) returns (result: Result<()>)
    requires round.Valid() && board.roundId < UINT64_MAX
    modifies board, round, treasury, solMotherlode, payees
    ensures match Lost(old(TableView(board, round, treasury, solMotherlode, mint)), slot, adminFee, motherlodeFee)
            case Err(e) => result == Err(e)
            case Ok(o) =>
              && result == Ok(()) && TableView(board, round, treasury, solMotherlode, mint) == o.table
              && payees.View() == Disbursed(old(payees.View()), mode, o.adminFee, o.motherlodeFee, o.vaulted)
  {
    hide Disbursed;
    if round.totalDeployed < adminFee + motherlodeFee {
      return Err(Panic);
    }
    round.totalVaulted := round.totalDeployed - adminFee - motherlodeFee;
    treasury.balance :- Add(treasury.balance, round.totalVaulted, Panic);
    result := Conclude(mode, board, round, solMotherlode, payees, slot, adminFee, motherlodeFee, round.totalVaulted);
  }

  method DrawRound(mode: Mode, board: BoardAccount, round: RoundAccount, treasury: TreasuryAccount, solMotherlode: SolMotherlodeAccount,
                   mint: MintAccount, payees: Payees, slot: uint64, config: Config, r: uint64, candidate: Option<Candidate>,
                   ticket: Option<PoolTicket>) returns (result: Result<()>)
    requires round.Valid() && board.roundId < UINT64_MAX
    modifies board, round, treasury, solMotherlode, mint, payees
    ensures match Drawn(old(TableView(board, round, treasury, solMotherlode, mint)), slot, config, r, mode, candidate, ticket)
            case Err(e) => result == Err(e)
            case Ok(o) =>
              && result == Ok(()) && TableView(board, round, treasury, solMotherlode, mint) == o.table
              && payees.View() == Disbursed(old(payees.View()), mode, o.adminFee, o.motherlodeFee, o.vaulted)
  {
    hide Won, Lost, Fee, Disbursed, WinningSquare;
    var adminFee :- TakeFee(round.totalDeployed, ADMIN_FEE_BPS);
    var motherlodeFee :- TakeFee(round.totalDeployed, SOL_MOTHERLODE_BPS);
    if round.deployed[WinningSquare(r)] == 0 {
      result := LoseRound(mode, board, round, treasury, solMotherlode, mint, payees, slot, adminFee, motherlodeFee);
    } else {
      result := WinRound(mode, board, round, treasury, solMotherlode, mint, payees, slot, config, r, candidate, ticket,
          adminFee, motherlodeFee);
    }
  }

  /** The common course of both instructions, once the caller and the accounts are checked. */
  method CloseRound(mode: Mode, board: BoardAccount, round: RoundAccount, treasury: TreasuryAccount, solMotherlode: SolMotherlodeAccount,
                    mint: MintAccount, payees: Payees, slot: uint64, config: Config, value: Hash, candidate: Option<Candidate>,
                    ticket: Option<PoolTicket>) returns (result: Result<()>)
    requires round.Valid()
    modifies board, round, treasury, solMotherlode, mint, payees
    ensures match Closed(old(TableView(board, round, treasury, solMotherlode, mint)), slot, config, value, mode, candidate, ticket)
            case Err(e) => result == Err(e)
            case Ok(o) =>
              && result == Ok(()) && TableView(board, round, treasury, solMotherlode, mint) == o.table
              && payees.View() == Disbursed(old(payees.View()), mode, o.adminFee, o.motherlodeFee, o.vaulted)
  {
    hide Drawn, Rng;
    if slot < Min(board.endSlot + config.IntermissionSlots(), UINT64_MAX) {
      return Err(InvalidAccountData);
    }
    if board.roundId == UINT64_MAX {
      return Err(Panic);
    }
    if value == Repeated(0) {
      return Err(InvalidAccountData);
    }
    round.slotHash := value;
    var drawn := Rng(round.slotHash);
    if drawn.None? {
      round.totalVaulted, round.totalWinnings, round.totalDeployed := 0, 0, 0;
      Advance(board, slot);
      return Ok(());
    }
    result := DrawRound(mode, board, round, treasury, solMotherlode, mint, payees, slot, config, drawn.value, candidate, ticket);
  }

  /** Opens the next round and its pool, then closes the current one leniently. */
  method ProcessReset(board: BoardAccount, round: RoundAccount, treasury: TreasuryAccount, solMotherlode: SolMotherlodeAccount,
                      mint: MintAccount, payees: Payees, slot: uint64, config: Config, value: Hash, candidate: Option<Candidate>,
                      ticket: Option<PoolTicket>, rent: nat) returns (result: Result<()>, next: RoundAccount?, pool: PoolRoundAccount?)
    requires round.Valid()
    modifies board, round, treasury, solMotherlode, mint, payees
    ensures match Closed(old(TableView(board, round, treasury, solMotherlode, mint)), slot, config, value, Lenient, candidate, ticket)
            case Err(e) => result == Err(e)
            case Ok(o) =>
              && result == Ok(()) && TableView(board, round, treasury, solMotherlode, mint) == o.table
              && payees.View() == Disbursed(old(payees.View()), Lenient, o.adminFee, o.motherlodeFee, o.vaulted)
              && next != null && next.Valid() && next.View() == OpenRound(board.roundId) && next.lamports == rent
              && pool != null && pool.Valid() && pool.View() == OpenPool(board.roundId)
  {
    hide Drawn;
    next, pool := null, null;
    var _ :- CloseRound(Lenient, board, round, treasury, solMotherlode, mint, payees, slot, config, value, candidate, ticket);
    next := new RoundAccount(board.roundId, rent);
    pool := new PoolRoundAccount(board.roundId);
    return Ok(()), next, pool;
  }

  /** The same for anybody, who must name the winner and is paid for the trouble. */
  method ProcessResetPermissionless(board: BoardAccount, round: RoundAccount, treasury: TreasuryAccount,
          solMotherlode: SolMotherlodeAccount,
                                    mint: MintAccount, payees: Payees, slot: uint64, config: Config, value: Hash,
                                    candidate: Option<Candidate>, ticket: Option<PoolTicket>, rent: nat)
    returns (result: Result<()>, next: RoundAccount?, pool: PoolRoundAccount?)
    requires round.Valid()
    modifies board, round, treasury, solMotherlode, mint, payees
    ensures match Closed(old(TableView(board, round, treasury, solMotherlode, mint)), slot, config, value, Strict, candidate, ticket)
            case Err(e) => result == Err(e)
            case Ok(o) =>
              && result == Ok(()) && TableView(board, round, treasury, solMotherlode, mint) == o.table
              && payees.View() == Disbursed(old(payees.View()), Strict, o.adminFee, o.motherlodeFee, o.vaulted)
              && next != null && next.Valid() && next.View() == OpenRound(board.roundId) && next.lamports == rent
              && pool != null && pool.Valid() && pool.View() == OpenPool(board.roundId)
  {
    hide Drawn;
    next, pool := null, null;
    var _ :- CloseRound(Strict, board, round, treasury, solMotherlode, mint, payees, slot, config, value, candidate, ticket);
    next := new RoundAccount(board.roundId, rent);
    pool := new PoolRoundAccount(board.roundId);
    return Ok(()), next, pool;
  }
}
