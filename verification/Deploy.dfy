/** Placing bets. Each bet on a square takes the half-open interval of lamports that follows all
    earlier bets on it. */
module Deploy {
  import opened Basics
  import opened BoardState
  import opened MinerState
  import opened PoolState
  import opened RandomMask
  import opened RoundState
  import opened SquareRoot

  const CHECKPOINT_FEE: uint64 := 10_000
  const LAMPORTS_PER_SOL: uint64 := 1_000_000_000

  /** What to place; an automation also brings its balance and its executor's fee. */
  datatype Order = Order(squares: Mask, amount: uint64, isPooled: bool, automation: Option<Automation>)

  datatype Automation = Automation(balance: uint64, fee: uint64)

  /** The accounts a deployment writes. */
  datatype Seat = Seat(board: Board, round: Round, play: Play, member: Option<PoolMember>, pool: PoolRound)

  /** `placed` lamports reach the round and `topUp` the miner. A dropped automation placed nothing
      and was closed. */
  datatype Deployment = Deployment(seat: Seat, placed: uint64, topUp: uint64, dropped: bool, automation: Option<Automation>)

  /** The first bet of a round starts its clock. */
  ghost function Started(s: Seat, slot: uint64, config: Config): Result<Seat> {
    if slot < s.board.startSlot || s.board.endSlot <= slot then Err(InvalidAccountData)
    else if s.board.endSlot != UINT64_MAX then Ok(s)
    else
      var endSlot :- Add(slot, config.RoundSlots(), Panic);
      var expiresAt :- Add(endSlot, ONE_DAY_SLOTS, Panic);
      Ok(s.(board := s.board.(startSlot := slot, endSlot := endSlot), round := s.round.(expiresAt := expiresAt)))
  }

  /** A miner enters a round once, and only with its previous round checkpointed. */
  ghost function Readied(p: Play, r: Round): Result<Play> {
    if p.roundId != r.id then
      if p.checkpointId != p.roundId then Err(Panic)
      else Ok(p.(deployed := Zeros(), cumulative := r.deployed, roundId := r.id))
    else if p.deployed != Zeros() then Err(AlreadyDeployedThisRound)
    else Ok(p)
  }

  /** One amount more on each selected square, saturating. */
  ghost function Lay(g: Grid, squares: Mask, amount: uint64): Grid {
    seq(SQUARES, i requires 0 <= i < SQUARES => SaturatingAdd(g[i], if squares[i] then amount else 0))
  }

  ghost function Raise(total: uint64, n: nat, amount: uint64): uint64 {
    Min(total + n * amount, UINT64_MAX)
  }

  /** No checked addition of the placement leaves 64 bits. */
  ghost predicate Fits(r: Round, squares: Mask, amount: uint64) {
    && (forall i :: 0 <= i < SQUARES && squares[i] ==> r.deployed[i] + amount <= UINT64_MAX && r.count[i] + 1 <= UINT64_MAX)
    && r.totalDeployed + Count(squares) * amount <= UINT64_MAX
  }

  ghost function LaidRound(r: Round, squares: Mask, amount: uint64): Round {
    r.(deployed := Lay(r.deployed, squares, amount), count := Lay(r.count, squares, 1),
       totalDeployed := Raise(r.totalDeployed, Count(squares), amount))
  }

  /** Each selected square's interval starts where the square's lamports ended. */
  ghost function LaidPlay(p: Play, r: Round, squares: Mask, amount: uint64): Play {
    p.(deployed := seq(SQUARES, i requires 0 <= i < SQUARES => if squares[i] then amount else p.deployed[i]),
       cumulative := seq(SQUARES, i requires 0 <= i < SQUARES => if squares[i] then r.deployed[i] else p.cumulative[i]))
  }

  ghost function LaidMember(m: PoolMember, squares: Mask, amount: uint64): PoolMember {
    m.(deployed := Lay(m.deployed, squares, amount), totalDeployed := Raise(m.totalDeployed, Count(squares), amount))
  }

  ghost function Newcomers(m: PoolMember, squares: Mask): Mask {
    seq(SQUARES, i requires 0 <= i < SQUARES => squares[i] && m.deployed[i] == 0)
  }

  ghost function LaidPool(p: PoolRound, m: PoolMember, squares: Mask, amount: uint64): PoolRound {
    p.(deployed := Lay(p.deployed, squares, amount), count := Lay(p.count, Newcomers(m, squares), 1),
       totalDeployed := Raise(p.totalDeployed, Count(squares), amount))
  }

  /** The membership a pooled bet in this round starts from. */
  ghost function Membership(member: Option<PoolMember>, roundId: uint64): PoolMember {
    ForRound(if member.Some? then member.value else NEW_MEMBER, roundId)
  }

  /** The pool's side of a deployment. */
  datatype Side = Side(member: Option<PoolMember>, pool: PoolRound)

  ghost function LaidSide(side: Side, roundId: uint64, squares: Mask, amount: uint64): Side {
    var m := Membership(side.member, roundId);
    if Count(squares) == 0 then side
    else Side(Some(LaidMember(m, squares, amount)), LaidPool(side.pool, m, squares, amount))
  }

  ghost function SideOf(s: Seat): Side {
    Side(s.member, s.pool)
  }

  ghost function LaidSeat(s: Seat, squares: Mask, amount: uint64, isPooled: bool): Seat {
    var bet := s.(round := LaidRound(s.round, squares, amount), play := LaidPlay(s.play, s.round, squares, amount));
    if isPooled then WithSide(bet, LaidSide(SideOf(s), s.round.id, squares, amount)) else bet
  }

  ghost function WithSide(s: Seat, side: Side): Seat {
    s.(member := side.member, pool := side.pool)
  }

  /** The lamports an order needs in all. */
  ghost function Required(o: Order): nat {
    Count(o.squares) * o.amount + if o.automation.Some? then o.automation.value.fee else 0
  }

  /** Everything placed at once: the meaning of the square-by-square loop. */
  ghost function Placed(s: Seat, o: Order): Result<Seat> {
    if !Fits(s.round, o.squares, o.amount) then Err(Panic)
    else if o.automation.Some? && Count(o.squares) > 0 && Required(o) + o.amount > UINT64_MAX then Err(Panic)
    else
      Ok(LaidSeat(s, o.squares, o.amount, o.isPooled))
  }

  ghost function Finished(s: Seat, o: Order): Result<Deployment>
    requires Required(o) <= UINT64_MAX
  {
    var placed := Count(o.squares) * o.amount;
    var lifetime :- Add(s.play.lifetimeDeployed, placed, Panic);
    var topUp := if s.play.checkpointFee == 0 then CHECKPOINT_FEE else 0;
    var seat := s.(play := s.play.(lifetimeDeployed := lifetime,
        checkpointFee := if s.play.checkpointFee == 0 then CHECKPOINT_FEE else s.play.checkpointFee));
    if o.isPooled && s.member.None? then Err(InvalidAccountData)
    else if o.isPooled && s.member.value.totalDeployed > LAMPORTS_PER_SOL then Err(InvalidInstructionData)
    else if o.automation.None? then Ok(Deployment(seat, placed, topUp, false, None))
    else if o.automation.value.balance < Required(o) || o.amount + o.automation.value.fee > UINT64_MAX then Err(Panic)
    else
      var left := o.automation.value.balance - Required(o);
      Ok(Deployment(seat, placed, topUp, false,
                    if left < o.amount + o.automation.value.fee then None else Some(o.automation.value.(balance := left))))
  }

  /** An automation that cannot pay for every requested square places none of them. */
  ghost function Funded(s: Seat, o: Order): Result<Deployment> {
    if o.automation.Some? && Required(o) > UINT64_MAX then Err(InvalidInstructionData)
    else if o.automation.Some? && o.automation.value.balance < Required(o) then Ok(Deployment(s, 0, 0, true, None))
    else
      var placed :- Placed(s, o);
      Finished(placed, o)
  }

  /** The first bet starts the round, and the miner enters it. */
  ghost function Entered(s: Seat, slot: uint64, config: Config): Result<Seat> {
    var started :- Started(s, slot, config);
    var play :- Readied(started.play, started.round);
    Ok(started.(play := play))
  }

  ghost function Deployed(s: Seat, o: Order, slot: uint64, config: Config): Result<Deployment> {
    var entered :- Entered(s, slot, config);
    Funded(entered, o)
  }

  /** One square of the placement. */
  ghost function BetOn(r: Round, square: nat, amount: uint64): Round
    requires square < SQUARES && r.deployed[square] + amount <= UINT64_MAX
    requires r.totalDeployed + amount <= UINT64_MAX && r.count[square] + 1 <= UINT64_MAX
  {
    r.(deployed := r.deployed[square := r.deployed[square] + amount], count := r.count[square := r.count[square] + 1],
       totalDeployed := r.totalDeployed + amount)
  }

  lemma RaiseOnce(total: uint64, n: nat, amount: uint64)
    ensures Raise(total, n + 1, amount) == SaturatingAdd(Raise(total, n, amount), amount)
  {
    assert (n + 1) * amount == n * amount + amount;
  }

  lemma LayStart(g: Grid, squares: Mask, amount: uint64)
    ensures Lay(g, Upto(squares, 0), amount) == g
  {
  }

  lemma LayNext(g: Grid, squares: Mask, n: nat, amount: uint64)
    requires n < SQUARES
    ensures var before := Lay(g, Upto(squares, n), amount);
      && before[n] == g[n]
      && Lay(g, Upto(squares, n + 1), amount) == if squares[n] then before[n := SaturatingAdd(g[n], amount)] else before
  {
  }

  lemma RaiseNext(total: uint64, squares: Mask, n: nat, amount: uint64)
    requires n < SQUARES
    ensures var before := Raise(total, Count(Upto(squares, n)), amount);
      Raise(total, Count(Upto(squares, n + 1)), amount) == if squares[n] then SaturatingAdd(before, amount) else before
  {
    UptoGrows(squares, n);
    RaiseOnce(total, Count(Upto(squares, n)), amount);
  }

  lemma RoundNext(r: Round, squares: Mask, n: nat, amount: uint64)
    requires n < SQUARES && squares[n]
    requires var b := LaidRound(r, Upto(squares, n), amount);
      b.deployed[n] + amount <= UINT64_MAX && b.totalDeployed + amount <= UINT64_MAX && b.count[n] + 1 <= UINT64_MAX
    ensures LaidRound(r, Upto(squares, n + 1), amount) == BetOn(LaidRound(r, Upto(squares, n), amount), n, amount)
  {
    hide Lay, Raise;
    LayNext(r.deployed, squares, n, amount);
    LayNext(r.count, squares, n, 1);
    RaiseNext(r.totalDeployed, squares, n, amount);
  }

  lemma PlayNext(p: Play, r: Round, squares: Mask, n: nat, amount: uint64)
    requires n < SQUARES && squares[n]
    ensures var b := LaidPlay(p, r, Upto(squares, n), amount);
      LaidPlay(p, r, Upto(squares, n + 1), amount)
        == b.(deployed := b.deployed[n := amount], cumulative := b.cumulative[n := r.deployed[n]])
  {
    var b := LaidPlay(p, r, Upto(squares, n), amount);
    var c := LaidPlay(p, r, Upto(squares, n + 1), amount);
    assert c.deployed == b.deployed[n := amount];
    assert c.cumulative == b.cumulative[n := r.deployed[n]];
  }

  lemma MemberNext(m: PoolMember, squares: Mask, n: nat, amount: uint64)
    requires n < SQUARES && squares[n]
    ensures LaidMember(m, Upto(squares, n + 1), amount) == Join(LaidMember(m, Upto(squares, n), amount), n, amount)
  {
    hide Lay, Raise;
    LayNext(m.deployed, squares, n, amount);
    RaiseNext(m.totalDeployed, squares, n, amount);
  }

  lemma PoolNext(p: PoolRound, m: PoolMember, squares: Mask, n: nat, amount: uint64)
    requires n < SQUARES && squares[n]
    ensures LaidPool(p, m, Upto(squares, n + 1), amount)
         == Gather(LaidPool(p, m, Upto(squares, n), amount), n, amount, m.deployed[n] == 0)
  {
    hide Lay, Raise;
    LayNext(p.deployed, squares, n, amount);
    RaiseNext(p.totalDeployed, squares, n, amount);
    var newcomers := Newcomers(m, squares);
    assert Newcomers(m, Upto(squares, n)) == Upto(newcomers, n);
    assert Newcomers(m, Upto(squares, n + 1)) == Upto(newcomers, n + 1);
    LayNext(p.count, newcomers, n, 1);
  }

  method TakeBet(round: RoundAccount, miner: MinerAccount, square: nat, amount: uint64) returns (r: Result<()>)
    requires round.Valid() && miner.Valid() && square < SQUARES
    requires {round.deployed, round.count} !! {miner.deployed, miner.cumulative}
    modifies round`totalDeployed, round.deployed, round.count, miner.deployed, miner.cumulative
    ensures r == if CanBet(old(round.View()), square, amount) then Ok(()) else Err(Panic)
    ensures CanBet(old(round.View()), square, amount) ==>
      && round.View() == BetOn(old(round.View()), square, amount)
      && miner.Playing() == old(miner.Playing()).(deployed := old(miner.deployed[..])[square := amount],
                                                  cumulative := old(miner.cumulative[..])[square := old(round.deployed[square])])
  {
    miner.cumulative[square] := round.deployed[square];
    miner.deployed[square] := amount;
    round.deployed[square] :- Add(round.deployed[square], amount, Panic);
    round.totalDeployed :- Add(round.totalDeployed, amount, Panic);
    round.count[square] :- Add(round.count[square], 1, Panic);
    return Ok(());
  }

  method RecordPool(member: PoolMemberAccount, pool: PoolRoundAccount, roundId: uint64, square: nat, amount: uint64)
    requires member.Valid() && pool.Valid() && square < SQUARES && member.deployed !in {pool.deployed, pool.count}
    modifies member, member.deployed, pool`totalDeployed, pool.deployed, pool.count
    ensures Side(member.Stored(), pool.View()) == SideBet(Side(old(member.Stored()), old(pool.View())), roundId, square, amount)
  {
    if !member.isOpen {
      member.Open();
    }
    if member.roundId != roundId {
      member.ResetForRound(roundId);
    }
    var wasZero := member.deployed[square] == 0;
    member.RecordDeploy(square, amount);
    pool.RecordDeploy(square, amount, wasZero);
  }

  ghost predicate CanBet(r: Round, square: nat, amount: uint64)
    requires square < SQUARES
  {
    r.deployed[square] + amount <= UINT64_MAX && r.totalDeployed + amount <= UINT64_MAX && r.count[square] + 1 <= UINT64_MAX
  }

  ghost function SideBet(side: Side, roundId: uint64, square: nat, amount: uint64): Side
    requires square < SQUARES
  {
    var m := Membership(side.member, roundId);
    Side(Some(Join(m, square, amount)), Gather(side.pool, square, amount, m.deployed[square] == 0))
  }

  /** One turn of the loop. */
  ghost function SeatBet(s: Seat, square: nat, amount: uint64, isPooled: bool): Seat
    requires square < SQUARES && CanBet(s.round, square, amount)
  {
    var bet := s.(round := BetOn(s.round, square, amount),
                  play := s.play.(deployed := s.play.deployed[square := amount],
                                  cumulative := s.play.cumulative[square := s.round.deployed[square]]));
    if isPooled then WithSide(bet, SideBet(SideOf(s), s.round.id, square, amount)) else bet
  }

  lemma LaidNothing(s: Seat, squares: Mask, amount: uint64, isPooled: bool)
    ensures LaidSeat(s, Upto(squares, 0), amount, isPooled) == s
  {
    UptoStart(squares);
    LayStart(s.round.deployed, squares, amount);
    LayStart(s.round.count, squares, 1);
    assert LaidPlay(s.play, s.round, Upto(squares, 0), amount) == s.play;
  }

  lemma FirstMember(m: PoolMember, p: PoolRound, squares: Mask, n: nat, amount: uint64)
    requires Count(Upto(squares, n)) == 0
    ensures LaidMember(m, Upto(squares, n), amount) == m && LaidPool(p, m, Upto(squares, n), amount) == p
  {
    NoneChosen(Upto(squares, n));
    CountNone(Newcomers(m, Upto(squares, n)));
  }

  lemma {:induction false} NoneChosen(squares: seq<bool>)
    requires Count(squares) == 0
    ensures forall i :: 0 <= i < |squares| ==> !squares[i]
    decreases |squares|
  {
    if squares != [] {
      NoneChosen(squares[..|squares| - 1]);
    }
  }

  lemma MemberCell(m: PoolMember, squares: Mask, n: nat, amount: uint64)
    requires n < SQUARES
    ensures LaidMember(m, Upto(squares, n), amount).deployed[n] == m.deployed[n]
    ensures LaidMember(m, Upto(squares, n), amount).roundId == m.roundId
  {
    LayNext(m.deployed, squares, n, amount);
  }

  lemma SideNext(side: Side, roundId: uint64, squares: Mask, n: nat, amount: uint64)
    requires n < SQUARES && squares[n]
    ensures LaidSide(side, roundId, Upto(squares, n + 1), amount)
         == SideBet(LaidSide(side, roundId, Upto(squares, n), amount), roundId, n, amount)
  {
    hide LaidMember, LaidPool, Join, Gather, Upto;
    var m := Membership(side.member, roundId);
    UptoGrows(squares, n);
    MemberNext(m, squares, n, amount);
    PoolNext(side.pool, m, squares, n, amount);
    MemberCell(m, squares, n, amount);
    if Count(Upto(squares, n)) == 0 {
      FirstMember(m, side.pool, squares, n, amount);
    }
  }

  /** One turn of the loop extends the placement by one square. */
  lemma SeatNext(s: Seat, squares: Mask, n: nat, amount: uint64, isPooled: bool)
    requires n < SQUARES && squares[n]
    requires CanBet(LaidRound(s.round, Upto(squares, n), amount), n, amount)
    ensures LaidSeat(s, Upto(squares, n + 1), amount, isPooled)
         == SeatBet(LaidSeat(s, Upto(squares, n), amount, isPooled), n, amount, isPooled)
  {
    hide LaidPlay, Lay, Raise, LaidSide, SideBet, Upto, BetOn;
    RoundNext(s.round, squares, n, amount);
    PlayNext(s.play, s.round, squares, n, amount);
    LaidCell(s.round.deployed, squares, n, amount);
    SideNext(SideOf(s), s.round.id, squares, n, amount);
  }

  /** A square that is not selected leaves the placement as it is. */
  lemma SeatSkip(squares: Mask, n: nat)
    requires n < SQUARES && !squares[n]
    ensures Upto(squares, n + 1) == Upto(squares, n)
  {
    UptoGrows(squares, n);
  }

  lemma LaidCell(g: Grid, squares: Mask, n: nat, amount: uint64)
    requires n < SQUARES
    ensures Lay(g, Upto(squares, n), amount)[n] == g[n]
  {
    LayNext(g, squares, n, amount);
  }

  /** What to bet, as the caller asks for it or as the automation fixes it. */
  datatype Plan = Plan(amount: uint64, isPooled: bool, isRandom: bool, mask: uint64)

  ghost function Bits(mask: nat): Mask {
    seq(SQUARES, i requires 0 <= i < SQUARES => mask / PowerOfTwo(i) % 2 == 1)
  }

  /** A random plan takes its number of squares from the low byte of the mask. */
  ghost function Selected(plan: Plan, bytes: seq<uint8>): Mask
    requires SQUARES <= |bytes|
  {
    if plan.isRandom then Choose(Min(plan.mask % 0x100, SQUARES), bytes[..SQUARES]) else Bits(plan.mask)
  }

  method SelectSquares(plan: Plan, bytes: seq<uint8>) returns (squares: array<bool>)
    requires SQUARES <= |bytes|
    ensures fresh(squares) && squares.Length == SQUARES && squares[..] == Selected(plan, bytes)
  {
    if plan.isRandom {
      squares := GenerateRandomMask(Min(plan.mask % 0x100, SQUARES), bytes);
      return;
    }
    squares := new bool[SQUARES](_ => false);
    var i := 0;
    while i < SQUARES
      invariant 0 <= i <= SQUARES
      invariant forall j :: 0 <= j < i ==> squares[j] == (plan.mask / PowerOfTwo(j) % 2 == 1)
    {
      squares[i] := plan.mask / PowerOfTwo(i) % 2 == 1;
      i := i + 1;
    }
  }

  class AutomationAccount {
    const plan: Plan
    var balance: uint64
    var fee: uint64
    var closed: bool

    constructor (plan: Plan, balance: uint64, fee: uint64)
      ensures this.plan == plan && View() == Automation(balance, fee) && !closed
    {
      this.plan := plan;
      this.balance, this.fee, closed := balance, fee, false;
    }

    ghost function View(): Automation
      reads this
    {
      Automation(balance, fee)
    }
  }

  /** The accounts of a deployment, none of which share cells. */
  ghost predicate Separate(round: RoundAccount, miner: MinerAccount, member: PoolMemberAccount, pool: PoolRoundAccount)
  {
    && round.Valid() && miner.Valid() && member.Valid() && pool.Valid()
    && {round.deployed, round.count} !! {miner.deployed, miner.cumulative}
    && {pool.deployed, pool.count} !! {round.deployed, round.count, miner.deployed, miner.cumulative}
    && member.deployed !in {pool.deployed, pool.count, round.deployed, round.count, miner.deployed, miner.cumulative}
  }

  ghost function SeatView(board: Board, round: RoundAccount, miner: MinerAccount, member: PoolMemberAccount, pool: PoolRoundAccount): Seat
    requires Separate(round, miner, member, pool)
    reads round, round.deployed, round.count, miner, miner.deployed, miner.cumulative
    reads member, member.deployed, pool, pool.deployed, pool.count
  {
    Seat(board, round.View(), miner.Playing(), member.Stored(), pool.View())
  }

  method PlaceOn(round: RoundAccount, miner: MinerAccount, member: PoolMemberAccount, pool: PoolRoundAccount,
                 square: nat, amount: uint64, isPooled: bool, ghost board: Board) returns (r: Result<()>)
    requires Separate(round, miner, member, pool) && square < SQUARES
    modifies round`totalDeployed, round.deployed, round.count, miner.deployed, miner.cumulative
    modifies member, member.deployed, pool`totalDeployed, pool.deployed, pool.count
    ensures r == if CanBet(old(round.View()), square, amount) then Ok(()) else Err(Panic)
    ensures r.Ok? ==> SeatView(board, round, miner, member, pool)
                      == SeatBet(old(SeatView(board, round, miner, member, pool)), square, amount, isPooled)
  {
    hide Join, Gather, Membership;
    r := TakeBet(round, miner, square, amount);
    if r.Ok? && isPooled {
      RecordPool(member, pool, round.id, square, amount);
    }
  }

  lemma FitsNext(r: Round, squares: Mask, n: nat, amount: uint64)
    requires n < SQUARES && squares[n] && Fits(r, Upto(squares, n), amount)
    ensures CanBet(LaidRound(r, Upto(squares, n), amount), n, amount) ==> Fits(r, Upto(squares, n + 1), amount)
    ensures !CanBet(LaidRound(r, Upto(squares, n), amount), n, amount) ==> !Fits(r, squares, amount)
  {
    hide Lay, Count;
    var k := Count(Upto(squares, n));
    LayNext(r.deployed, squares, n, amount);
    LayNext(r.count, squares, n, 1);
    UptoGrows(squares, n);
    UptoAtMost(squares, n + 1);
    assert (k + 1) * amount == k * amount + amount;
    MultiplyMonotone(k + 1, Count(squares), amount);
  }

  /** Running short of balance before the next square means that no square is left to place: the
      loop's early exit drops none. */
  lemma ExitDropsNothing(squares: Mask, n: nat, amount: uint64, fee: uint64, balance: uint64)
    requires n <= SQUARES && Count(squares) * amount + fee <= balance
    requires Count(Upto(squares, n)) * amount + fee + amount > balance
    ensures Upto(squares, n) == squares
  {
    var k := Count(Upto(squares, n));
    assert (k + 1) * amount == k * amount + amount;
    if k + 1 <= Count(squares) {
      MultiplyMonotone(k + 1, Count(squares), amount);
    }
    UptoComplete(squares, n);
  }

  ghost function OrderOf(squares: array<bool>, amount: uint64, isPooled: bool, automation: AutomationAccount?): Order
    requires squares.Length == SQUARES
    reads squares, automation
  {
    Order(squares[..], amount, isPooled, if automation == null then None else Some(automation.View()))
  }

  lemma LaidCells(s: Seat, squares: Mask, n: nat, amount: uint64, isPooled: bool, round: RoundAccount, miner: MinerAccount,
                  member: PoolMemberAccount, pool: PoolRoundAccount)
    requires n < SQUARES && s.play.deployed == Zeros() && Separate(round, miner, member, pool)
    requires SeatView(s.board, round, miner, member, pool) == LaidSeat(s, Upto(squares, n), amount, isPooled)
    ensures miner.deployed[n] == 0 && round.View() == LaidRound(s.round, Upto(squares, n), amount)
  {
  }

  lemma Starts(round: RoundAccount, miner: MinerAccount, member: PoolMemberAccount, pool: PoolRoundAccount, board: Board,
               squares: array<bool>, amount: uint64, isPooled: bool, automation: AutomationAccount?)
    requires Separate(round, miner, member, pool) && squares.Length == SQUARES
    ensures var s, o := SeatView(board, round, miner, member, pool), OrderOf(squares, amount, isPooled, automation);
      && s.board == board && s.round == round.View() && s.play.deployed == miner.deployed[..]
      && o.squares == squares[..] && o.amount == amount && o.isPooled == isPooled
      && o.automation == (if automation == null then None else Some(Automation(automation.balance, automation.fee)))
      && LaidSeat(s, Upto(squares[..], 0), amount, isPooled) == s
      && Fits(round.View(), Upto(squares[..], 0), amount) && Count(Upto(squares[..], 0)) == 0
      && Upto(squares[..], SQUARES) == squares[..]
  {
    hide LaidSeat, LaidRound, Count, Upto;
    UptoStart(squares[..]);
    LaidNothing(SeatView(board, round, miner, member, pool), squares[..], amount, isPooled);
    NothingFits(round.View(), squares[..], amount);
  }

  lemma PlacedAll(s: Seat, o: Order)
    requires Fits(s.round, o.squares, o.amount)
    requires o.automation.Some? && Count(o.squares) > 0 ==> Count(o.squares) * o.amount + o.automation.value.fee + o.amount <= UINT64_MAX
    ensures Placed(s, o) == Ok(LaidSeat(s, o.squares, o.amount, o.isPooled))
  {
    hide LaidSeat, Fits, Count;
  }

  lemma RequiredIs(o: Order)
    ensures Required(o) == Count(o.squares) * o.amount + if o.automation.Some? then o.automation.value.fee else 0
  {
  }

  lemma TurnAccounts(r: Round, squares: Mask, n: nat, amount: uint64)
    requires n < SQUARES && squares[n] && Fits(r, Upto(squares, n), amount)
    ensures CanBet(LaidRound(r, Upto(squares, n), amount), n, amount) ==>
      && Fits(r, Upto(squares, n + 1), amount)
      && Count(Upto(squares, n)) * amount + amount == Count(Upto(squares, n + 1)) * amount <= UINT64_MAX
    ensures !CanBet(LaidRound(r, Upto(squares, n), amount), n, amount) ==> !Fits(r, squares, amount)
    ensures 0 < Count(Upto(squares, n + 1)) <= Count(squares)
    ensures Count(Upto(squares, n + 1)) * amount <= Count(squares) * amount
  {
    hide LaidRound, Count, Upto;
    FitsNext(r, squares, n, amount);
    UptoGrows(squares, n);
    UptoAtMost(squares, n + 1);
    MultiplyMonotone(Count(Upto(squares, n + 1)), Count(squares), amount);
    assert (Count(Upto(squares, n)) + 1) * amount == Count(Upto(squares, n)) * amount + amount;
  }

  /** Whether an automation that has placed `total` could pay for one more square. */
  method Affords(total: uint64, amount: uint64, automation: AutomationAccount) returns (r: Result<bool>)
    ensures r == if total + automation.fee + amount > UINT64_MAX then Err(Panic)
                 else Ok(total + automation.fee + amount <= automation.balance)
  {
    var withFee :- Add(total, automation.fee, Panic);
    var next :- Add(withFee, amount, Panic);
    return Ok(next <= automation.balance);
  }

  /** The square-by-square loop places the whole order or fails as a whole. */
  method PlaceSquares(round: RoundAccount, miner: MinerAccount, member: PoolMemberAccount, pool: PoolRoundAccount,
                      squares: array<bool>, amount: uint64, isPooled: bool, automation: AutomationAccount?,
                      ghost board: Board) returns (r: Result<uint64>)
    requires Separate(round, miner, member, pool) && squares.Length == SQUARES
    requires miner.deployed[..] == Zeros()
    requires automation != null ==> Required(OrderOf(squares, amount, isPooled, automation)) <= automation.balance
    modifies round`totalDeployed, round.deployed, round.count, miner.deployed, miner.cumulative
    modifies member, member.deployed, pool`totalDeployed, pool.deployed, pool.count
    ensures match Placed(old(SeatView(board, round, miner, member, pool)), OrderOf(squares, amount, isPooled, automation))
            case Err(e) => r == Err(e)
            case Ok(s) => r == Ok(Count(squares[..]) * amount) && SeatView(board, round, miner, member, pool) == s
  {
    hide *;
    ghost var seat := SeatView(board, round, miner, member, pool);
    ghost var order := OrderOf(squares, amount, isPooled, automation);
    ghost var mask: Mask := squares[..];
    Starts(round, miner, member, pool, board, squares, amount, isPooled, automation);
    RequiredIs(order);
    var total: uint64 := 0;
    var i := 0;
    while i < SQUARES
      invariant 0 <= i <= SQUARES
      invariant SeatView(board, round, miner, member, pool) == LaidSeat(seat, Upto(mask, i), amount, isPooled)
      invariant Fits(seat.round, Upto(mask, i), amount)
      invariant total == Count(Upto(mask, i)) * amount
      invariant automation != null && Count(Upto(mask, i)) > 0 ==> total + automation.fee + amount <= UINT64_MAX
    {
      LaidCells(seat, mask, i, amount, isPooled, round, miner, member, pool);
      if squares[i] && miner.deployed[i] == 0 {
        TurnAccounts(seat.round, mask, i, amount);
        PlacedFails(seat, order, total, i);
        var placed := PlaceOn(round, miner, member, pool, i, amount, isPooled, board);
        if placed.Err? {
          return Err(placed.error);
        }
        SeatNext(seat, mask, i, amount, isPooled);
        total := total + amount;
        if automation != null {
          PlacedFails(seat, order, total, i);
          var another := Affords(total, amount, automation);
          if another.Err? {
            return Err(another.error);
          }
          if !another.value {
            ExitDropsNothing(mask, i + 1, amount, automation.fee, automation.balance);
            PlacedAll(seat, order);
            return Ok(total);
          }
        }
      } else {
        SeatSkip(mask, i);
      }
      i := i + 1;
    }
    PlacedAll(seat, order);
    return Ok(total);
  }

  lemma PlacedFails(s: Seat, o: Order, total: nat, n: nat)
    requires n < SQUARES && o.squares[n]
    ensures !Fits(s.round, o.squares, o.amount) ==> Placed(s, o) == Err(Panic)
    ensures (o.automation.Some? && 0 < Count(o.squares) && total <= Count(o.squares) * o.amount
             && total + o.automation.value.fee + o.amount > UINT64_MAX) ==> Placed(s, o) == Err(Panic)
  {
    hide LaidSeat, Fits, Count;
  }

  lemma NothingFits(r: Round, squares: Mask, amount: uint64)
    ensures Fits(r, Upto(squares, 0), amount)
  {
    UptoStart(squares);
  }

  method StartRound(board: BoardAccount, round: RoundAccount, slot: uint64, config: Config, ghost s: Seat) returns (r: Result<()>)
    requires round.Valid() && s.board == board.View() && s.round == round.View()
    modifies board`startSlot, board`endSlot, round`expiresAt
    ensures match Started(s, slot, config)
            case Err(e) => r == Err(e)
            case Ok(t) => r == Ok(()) && t == s.(board := board.View(), round := round.View())
  {
    if slot < board.startSlot || board.endSlot <= slot {
      return Err(InvalidAccountData);
    }
    if board.endSlot == UINT64_MAX {
      board.startSlot := slot;
      board.endSlot :- Add(board.startSlot, config.RoundSlots(), Panic);
      round.expiresAt :- Add(board.endSlot, ONE_DAY_SLOTS, Panic);
    }
    return Ok(());
  }

  method ReadyMiner(miner: MinerAccount, round: RoundAccount) returns (r: Result<()>)
    requires round.Valid() && miner.Valid() && {round.deployed, round.count} !! {miner.deployed, miner.cumulative}
    modifies miner`roundId, miner.deployed, miner.cumulative
    ensures match Readied(old(miner.Playing()), round.View())
            case Err(e) => r == Err(e)
            case Ok(p) => r == Ok(()) && miner.Playing() == p && miner.deployed[..] == Zeros()
  {
    if miner.roundId != round.id {
      if miner.checkpointId != miner.roundId {
        return Err(Panic);
      }
      forall i | 0 <= i < SQUARES {
        miner.deployed[i] := 0;
      }
      forall i | 0 <= i < SQUARES {
        miner.cumulative[i] := round.deployed[i];
      }
      miner.roundId := round.id;
      assert miner.deployed[..] == Zeros();
      assert miner.cumulative[..] == round.deployed[..];
    } else {
      var i := 0;
      while i < SQUARES
        invariant 0 <= i <= SQUARES
        invariant forall j :: 0 <= j < i ==> miner.deployed[j] == 0
      {
        if miner.deployed[i] != 0 {
          return Err(AlreadyDeployedThisRound);
        }
        i := i + 1;
      }
      assert miner.deployed[..] == Zeros();
    }
    return Ok(());
  }

  /** How many squares the order would newly play. */
  method CountSquares(squares: array<bool>, miner: MinerAccount) returns (n: nat)
    requires squares.Length == SQUARES && miner.Valid() && miner.deployed[..] == Zeros()
    ensures n == Count(squares[..]) <= SQUARES
  {
    n := 0;
    var i := 0;
    while i < SQUARES
      invariant 0 <= i <= SQUARES && n == Count(squares[..i]) <= i
    {
      assert squares[..i + 1][..i] == squares[..i];
      assert miner.deployed[i] == miner.deployed[..][i];
      if squares[i] && miner.deployed[i] == 0 {
        n := n + 1;
      }
      i := i + 1;
    }
    assert squares[..SQUARES] == squares[..];
  }

  /** Books a finished placement: the lifetime total, the checkpoint fee, the pool's cap, and the
      automation's balance. */
  method FinishDeploy(miner: MinerAccount, member: PoolMemberAccount, plan: Plan, automation: AutomationAccount?, total: uint64,
                      ghost s: Seat, ghost o: Order) returns (r: Result<()>)
    requires miner.Valid() && member.Valid() && s.play == miner.Playing() && s.member == member.Stored()
    requires member.deployed !in {miner.deployed, miner.cumulative}
    requires o.amount == plan.amount && o.isPooled == plan.isPooled
    requires o.automation == if automation == null then None else Some(automation.View())
    requires total == Count(o.squares) * o.amount && Required(o) <= UINT64_MAX
    modifies miner`lifetimeDeployed, miner`checkpointFee, miner`lamports, automation
    ensures match Finished(s, o)
            case Err(e) => r == Err(e)
            case Ok(d) =>
              && r == Ok(()) && d.seat == s.(play := miner.Playing()) && d.placed == total && !d.dropped
              && miner.lamports == old(miner.lamports) + d.topUp
              && (automation != null ==> if d.automation.None? then automation.closed
                                         else automation.closed == old(automation.closed) && automation.View() == d.automation.value)
  {
    hide Count;
    miner.lifetimeDeployed :- Add(miner.lifetimeDeployed, total, Panic);
    if miner.checkpointFee == 0 {
      miner.checkpointFee := CHECKPOINT_FEE;
      miner.lamports := miner.lamports + CHECKPOINT_FEE;
    }
    if plan.isPooled {
      if !member.isOpen {
        return Err(InvalidAccountData);
      }
      if member.totalDeployed > LAMPORTS_PER_SOL {
        return Err(InvalidInstructionData);
      }
    }
    if automation != null {
      automation.balance :- Subtract(automation.balance, total + automation.fee, Panic);
      var next :- Add(plan.amount, automation.fee, Panic);
      if automation.balance < next {
        automation.closed := true;
      }
    }
    return Ok(());
  }

  method FundAndPlace(plan: Plan, squares: array<bool>, automation: AutomationAccount?, round: RoundAccount, miner: MinerAccount,
                      member: PoolMemberAccount, pool: PoolRoundAccount, ghost board: Board)
    returns (r: Result<()>)
    requires Separate(round, miner, member, pool) && squares.Length == SQUARES && miner.deployed[..] == Zeros()
    modifies round`totalDeployed, round`lamports, round.deployed, round.count
    modifies miner`lifetimeDeployed, miner`checkpointFee, miner`lamports, miner.deployed, miner.cumulative
    modifies member, member.deployed, pool`totalDeployed, pool.deployed, pool.count, automation
    ensures match Funded(old(SeatView(board, round, miner, member, pool)), old(OrderOf(squares, plan.amount, plan.isPooled, automation)))
            case Err(e) => r == Err(e)
            case Ok(d) =>
              && r == Ok(()) && SeatView(board, round, miner, member, pool) == d.seat
              && Paid(d, automation, old(round.lamports), round.lamports, old(miner.lamports), miner.lamports)
              && (automation != null && d.automation.Some? ==> automation.closed == old(automation.closed))
  {
    hide Count, Placed, Finished;
    ghost var seat := SeatView(board, round, miner, member, pool);
    ghost var order := OrderOf(squares, plan.amount, plan.isPooled, automation);
    var n := CountSquares(squares, miner);
    if automation != null {
      if n * plan.amount + automation.fee > UINT64_MAX {
        return Err(InvalidInstructionData);
      }
      if automation.balance < n * plan.amount + automation.fee {
        automation.closed := true;
        return Ok(());
      }
    }
    var total :- PlaceSquares(round, miner, member, pool, squares, plan.amount, plan.isPooled, automation, board);
    PlacedRequires(seat, order);
    var _ :- FinishDeploy(miner, member, plan, automation, total, SeatView(board, round, miner, member, pool), order);
    round.lamports := round.lamports + total;
    return Ok(());
  }

  lemma PlacedRequires(s: Seat, o: Order)
    requires Placed(s, o).Ok? && (o.automation.Some? ==> Required(o) <= UINT64_MAX)
    ensures Required(o) <= UINT64_MAX
  {
  }

  /** What a deployment does to lamports and to the automation that paid for it. */
  ghost predicate Paid(d: Deployment, automation: AutomationAccount?, roundBefore: nat, roundAfter: nat, minerBefore: nat, minerAfter: nat)
    reads automation
  {
    && roundAfter == roundBefore + d.placed && minerAfter == minerBefore + d.topUp
    && (automation != null ==> if d.automation.None? then automation.closed else automation.View() == d.automation.value)
  }

  ghost function Ordered(plan: Plan, bytes: seq<uint8>, automation: AutomationAccount?): Order
    requires SQUARES <= |bytes|
    reads automation
  {
    Order(Selected(plan, bytes), plan.amount, plan.isPooled, if automation == null then None else Some(automation.View()))
  }

  method EnterRound(board: BoardAccount, round: RoundAccount, miner: MinerAccount, member: PoolMemberAccount, pool: PoolRoundAccount,
                    slot: uint64, config: Config) returns (r: Result<()>)
    requires Separate(round, miner, member, pool)
    modifies board`startSlot, board`endSlot, round`expiresAt, miner`roundId, miner.deployed, miner.cumulative
    ensures match Entered(old(SeatView(board.View(), round, miner, member, pool)), slot, config)
            case Err(e) => r == Err(e)
            case Ok(s) => r == Ok(()) && SeatView(board.View(), round, miner, member, pool) == s && miner.deployed[..] == Zeros()
  {
    hide Started, Readied;
    var _ :- StartRound(board, round, slot, config, SeatView(board.View(), round, miner, member, pool));
    r := ReadyMiner(miner, round);
  }

  /** Both deploy instructions, which differ only in the extended account one of them opens. */
  method ProcessDeploy(args: Plan, automation: AutomationAccount?, board: BoardAccount, round: RoundAccount, miner: MinerAccount,
                       member: PoolMemberAccount, pool: PoolRoundAccount, slot: uint64, config: Config, bytes: seq<uint8>)
    returns (r: Result<()>)
    requires Separate(round, miner, member, pool) && SQUARES <= |bytes| && !args.isRandom
    requires automation != null ==> !automation.closed
    modifies board, round, round.deployed, round.count, miner, miner.deployed, miner.cumulative
    modifies member, member.deployed, pool`totalDeployed, pool.deployed, pool.count, automation
    ensures var plan := if automation == null then args else automation.plan;
      match Deployed(old(SeatView(board.View(), round, miner, member, pool)), old(Ordered(plan, bytes, automation)), slot, config)
      case Err(e) => r == Err(e)
      case Ok(d) =>
        && r == Ok(()) && SeatView(board.View(), round, miner, member, pool) == d.seat
        && Paid(d, automation, old(round.lamports), round.lamports, old(miner.lamports), miner.lamports)
        && (automation != null && d.automation.Some? ==> !automation.closed)
  {
    hide Entered, Selected, Funded, Paid, SeatView;
    var plan := if automation == null then args else automation.plan;
    var _ :- EnterRound(board, round, miner, member, pool, slot, config);
    var squares := SelectSquares(plan, bytes);
    r := FundAndPlace(plan, squares, automation, round, miner, member, pool, board.View());
  }

  /** A placement that fits is exact: nothing saturates. */
  lemma LayExact(g: Grid, squares: Mask, amount: uint64)
    requires forall i :: 0 <= i < SQUARES && squares[i] ==> g[i] + amount <= UINT64_MAX
    ensures forall i :: 0 <= i < SQUARES ==> Lay(g, squares, amount)[i] == g[i] + if squares[i] then amount else 0
  {
  }

  /** A committed deployment is whole. An automation that passes the preflight has every requested
      square placed, each at the end of the square's lamports, and is debited exactly the amount
      on each square plus the fee; one that does not pass places nothing. */
  lemma DeploymentIsWhole(s: Seat, o: Order, slot: uint64, config: Config)
    requires Deployed(s, o, slot, config).Ok?
    ensures var d := Deployed(s, o, slot, config).value;
      && (d.dropped <==> o.automation.Some? && o.automation.value.balance < Required(o))
      && (d.dropped ==> d.placed == 0 == d.topUp && d.automation == None && d.seat.play.deployed == Zeros()
                        && d.seat.round == s.round.(expiresAt := d.seat.round.expiresAt) && d.seat.member == s.member
                            && d.seat.pool == s.pool)
      && (!d.dropped ==>
            && d.placed == Count(o.squares) * o.amount
            && d.seat.round.totalDeployed == s.round.totalDeployed + d.placed
            && forall i :: 0 <= i < SQUARES ==>
                 && d.seat.play.deployed[i] == (if o.squares[i] then o.amount else 0)
                 && d.seat.round.deployed[i] == s.round.deployed[i] + d.seat.play.deployed[i]
                 && (o.squares[i] ==> d.seat.play.cumulative[i] == s.round.deployed[i]))
      && (!d.dropped && o.automation.Some? ==>
            var left := o.automation.value.balance - d.placed - o.automation.value.fee;
            && 0 <= left
            && (d.automation == None <==> left < o.amount + o.automation.value.fee)
            && (d.automation.Some? ==> d.automation.value == o.automation.value.(balance := left)))
  {
    hide Count, Membership, LaidMember, LaidPool;
    var ready := Entered(s, slot, config).value;
    if !Deployed(s, o, slot, config).value.dropped {
      LayExact(ready.round.deployed, o.squares, o.amount);
    }
  }

  /** What a deployment leaves alone, and how it enters the miner into the round. */
  lemma DeploymentEntersOnce(s: Seat, o: Order, slot: uint64, config: Config)
    requires Deployed(s, o, slot, config).Ok?
    ensures if s.play.roundId == s.round.id then s.play.deployed == Zeros() else s.play.checkpointId == s.play.roundId
    ensures var d := Deployed(s, o, slot, config).value;
      && d.seat.board.roundId == s.board.roundId
      && d.seat.play.roundId == s.round.id && d.seat.play.checkpointId == s.play.checkpointId
      && d.seat.play.rewardsSol == s.play.rewardsSol && d.seat.play.checkpointFee == s.play.checkpointFee + d.topUp
      && d.seat.round == s.round.(expiresAt := d.seat.round.expiresAt, deployed := d.seat.round.deployed,
                                  count := d.seat.round.count, totalDeployed := d.seat.round.totalDeployed)
  {
    hide Count, LaidSide, Lay, Raise;
  }

  /** The pool's side: a first bet through the pool is counted for exactly what was bet, and what
      the pool gains is exactly what the membership gains. */
  lemma DeploymentPools(s: Seat, o: Order, slot: uint64, config: Config)
    requires Deployed(s, o, slot, config).Ok? && Membership(s.member, s.round.id).deployed == Zeros()
    ensures var d := Deployed(s, o, slot, config).value;
      var q := Membership(d.seat.member, s.round.id).deployed;
      && d.seat.pool.id == s.pool.id
      && (d.seat.member.None? ==> s.member.None?)
      && (d.seat.member.Some? ==> d.seat.member.value.roundId == s.round.id || d.seat.member == s.member)
      && forall i :: 0 <= i < SQUARES ==>
           && (q[i] == 0 || q[i] == d.seat.play.deployed[i])
           && d.seat.pool.deployed[i] == SaturatingAdd(s.pool.deployed[i], q[i])
  {
    hide Count, LaidRound;
    var d := Deployed(s, o, slot, config).value;
    var m := Membership(s.member, s.round.id);
    if d.seat.member == s.member {
      assert Membership(d.seat.member, s.round.id) == m;
    }
  }

  lemma TotalLayNext(g: Grid, squares: Mask, n: nat, amount: uint64)
    requires n < SQUARES && (squares[n] ==> g[n] + amount <= UINT64_MAX)
    ensures Total(Lay(g, Upto(squares, n + 1), amount)) - Count(Upto(squares, n + 1)) * amount
         == Total(Lay(g, Upto(squares, n), amount)) - Count(Upto(squares, n)) * amount
  {
    hide Total, Count, Upto, Lay;
    UptoGrows(squares, n);
    LayNext(g, squares, n, amount);
    if squares[n] {
      TotalUpdate(Lay(g, Upto(squares, n), amount), n, g[n] + amount);
      assert (Count(Upto(squares, n)) + 1) * amount == Count(Upto(squares, n)) * amount + amount;
    }
  }

  lemma {:induction false} TotalLay(g: Grid, squares: Mask, n: nat, amount: uint64)
    requires n <= SQUARES && forall i :: 0 <= i < SQUARES && squares[i] ==> g[i] + amount <= UINT64_MAX
    ensures Total(Lay(g, Upto(squares, n), amount)) == Total(g) + Count(Upto(squares, n)) * amount
    decreases n
  {
    if n == 0 {
      UptoStart(squares);
      LayStart(g, squares, amount);
    } else {
      TotalLay(g, squares, n - 1, amount);
      TotalLayNext(g, squares, n - 1, amount);
    }
  }

  /** The round's total stays the sum of its squares. */
  lemma DeploymentTotals(s: Seat, o: Order, slot: uint64, config: Config)
    requires Deployed(s, o, slot, config).Ok? && s.round.totalDeployed == Total(s.round.deployed)
    ensures var d := Deployed(s, o, slot, config).value;
      d.seat.round.totalDeployed == Total(d.seat.round.deployed) == Total(s.round.deployed) + d.placed
  {
    hide Count, LaidSide, Total, Lay, Upto;
    if !Deployed(s, o, slot, config).value.dropped {
      UptoStart(o.squares);
      TotalLay(s.round.deployed, o.squares, SQUARES, o.amount);
    }
  }
}
