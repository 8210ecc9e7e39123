/** What all the bets on one finished round are due together, whatever the order in which their
    owners come, set against what the round still holds. */
module Payouts {
  import opened Basics
  import opened Checkpoint
  import opened FixedPoint
  import opened MapSums
  import opened MinerState
  import opened Reset
  import opened RoundState

  ghost function DeployedOn(book: map<nat, Bet>, square: nat): map<nat, int>
    requires square < SQUARES
  {
    map a | a in book :: book[a].deployed[square]
  }

  ghost function PooledOn(book: map<nat, Bet>, square: nat): map<nat, int>
    requires square < SQUARES
  {
    map a | a in book :: book[a].pooled[square]
  }

  /** The intervals of a square's bets partition its lamports: each lamport has exactly one owner. */
  ghost predicate Tiled(book: map<nat, Bet>, square: nat, deployed: nat)
    requires square < SQUARES
  {
    && (forall a :: a in book && book[a].deployed[square] > 0 ==> book[a].cumulative[square] + book[a].deployed[square] <= deployed)
    && (forall x: nat :: x < deployed ==> Owned(book, square, x))
    && (forall a, b, x: nat :: a in book && b in book && Holds(book[a], square, x) && Holds(book[b], square, x) ==> a == b)
  }

  ghost predicate Owned(book: map<nat, Bet>, square: nat, x: nat)
    requires square < SQUARES
  {
    exists a :: a in book && Holds(book[a], square, x)
  }

  /** Each part's floored share of a total: together never more than the total. */
  lemma SharesWithin(parts: map<nat, int>, shares: map<nat, int>, total: nat, whole: nat)
    requires 0 < whole && Sum(parts) <= whole
    requires parts.Keys == shares.Keys
    requires forall a :: a in parts ==> whole * shares[a] <= total * parts[a]
    ensures Sum(shares) <= total
  {
    hide Sum;
    SumScale(shares, whole);
    SumScale(parts, total);
    SumMonotone(Scaled(shares, whole), Scaled(parts, total));
    Fits(Sum(shares), Sum(parts), total, whole);
  }

  lemma Fits(shares: int, parts: int, total: nat, whole: nat)
    requires 0 < whole && parts <= whole && whole * shares <= total * parts
    ensures shares <= total
  {
    MultiplyMonotone(parts, whole, total);
    if total < shares {
      MultiplyMonotone(total + 1, shares, whole);
    }
  }

  lemma {:induction false} SumAtMostOne(m: map<nat, int>, prize: nat)
    requires forall a :: a in m ==> m[a] == 0 || m[a] == prize
    requires forall a, b :: a in m && b in m && m[a] != 0 && m[b] != 0 ==> a == b
    ensures Sum(m) <= prize
    decreases |m|
  {
    if m != map[] {
      var k :| k in m;
      SumSplit(m, k);
      if m[k] == 0 {
        SumAtMostOne(m - {k}, prize);
      } else {
        SumAllZero(m - {k});
      }
    }
  }

  lemma {:induction false} SumAllZero(m: map<nat, int>)
    requires forall a :: a in m ==> m[a] == 0
    ensures Sum(m) == 0
    decreases |m|
  {
    if m != map[] {
      var k :| k in m;
      SumSplit(m, k);
      SumAllZero(m - {k});
    }
  }

  /** The SOL a bet is due: a refund when nothing was drawn, otherwise what the winning stake keeps
      and its share of the winnings. */
  ghost function SolDue(round: Round, bet: Bet): int {
    match Rng(round.slotHash)
    case None => Total(bet.deployed)
    case Some(r) =>
      if Wins(round, r, bet) then Kept(bet.deployed[WinningSquare(r)]) + WinningsShare(round, r, bet) else 0
  }

  /** The GODL a bet is due: what the round's mode gives it and its share of the motherlode. */
  ghost function GodlDue(round: Round, bet: Bet, poolTotal: Grid): nat {
    match Rng(round.slotHash)
    case None => 0
    case Some(r) => if Wins(round, r, bet) then BaseDue(round, r, bet, poolTotal) + MotherlodeDue(round, r, bet) else 0
  }

  ghost predicate Wins(round: Round, r: uint64, bet: Bet) {
    0 < bet.deployed[WinningSquare(r)] <= round.deployed[WinningSquare(r)]
  }

  /** What a winning stake keeps of itself, after a fee of at least one lamport. */
  ghost function Kept(d: nat): int {
    d - Max(1, d * FEE_BPS / DENOMINATOR_BPS)
  }

  ghost function WinningsShare(round: Round, r: uint64, bet: Bet): nat {
    var w := WinningSquare(r);
    PartOf(round.totalWinnings, bet.deployed[w], round.deployed[w])
  }

  /** A payment is exactly what the bet is due; who asks makes no difference to the amounts. */
  lemma DueAmounts(round: Round, bet: Bet, poolTotal: Grid, authority: nat)
    requires Due(round, bet, poolTotal, authority).Ok?
    ensures var p := Due(round, bet, poolTotal, authority).value;
      p.sol == SolDue(round, bet) && p.godl == GodlDue(round, bet, poolTotal)
  {
    hide Rng, Share, WinningSquare, TopMinerSample;
    if Rng(round.slotHash).Some? {
      var w := WinningSquare(Rng(round.slotHash).value);
      if 0 < round.deployed[w] {
        NothingShared(bet.deployed[w], round.deployed[w]);
      }
    }
  }

  lemma NothingShared(part: uint64, whole: uint64)
    requires 0 < whole
    ensures Share(0, part, whole) == 0
  {
  }

  ghost function GodlDues(round: Round, book: map<nat, Bet>, poolTotal: Grid): map<nat, int> {
    map a | a in book :: GodlDue(round, book[a], poolTotal)
  }

  ghost function SolDues(round: Round, book: map<nat, Bet>): map<nat, int> {
    map a | a in book :: SolDue(round, book[a])
  }

  /** What a bet takes of the round's reward: its part of the winning square when the round splits,
      its part of the pool when the pool won, and otherwise all of it if it holds the sample. */
  ghost function BaseDue(round: Round, r: uint64, bet: Bet, poolTotal: Grid): nat {
    var w := WinningSquare(r);
    match round.topMiner
    case Split => PartOf(round.topMinerReward, bet.deployed[w], round.deployed[w])
    case Pool => PartOf(round.topMinerReward, bet.pooled[w], poolTotal[w])
    case _ => if Holds(bet, w, TopMinerSample(r, round.deployed[w])) then round.topMinerReward else 0
  }

  ghost function MotherlodeDue(round: Round, r: uint64, bet: Bet): nat {
    PartOf(round.motherlode, bet.deployed[WinningSquare(r)], round.deployed[WinningSquare(r)])
  }

  ghost function PartOf(total: uint64, part: uint64, whole: uint64): nat {
    if part == 0 || whole == 0 then 0 else Share(total, part, whole)
  }

  /** The whole units of a share. */
  ghost predicate Floored(due: int, total: nat, part: nat, whole: nat) {
    whole * due <= total * part < whole * due + whole
  }

  lemma PartIsFloored(total: uint64, part: uint64, whole: uint64)
    requires part <= whole && 0 < whole
    ensures Floored(PartOf(total, part, whole), total, part, whole)
  {
    if part > 0 {
      ShareExact(total, part, whole);
      QuotientBound(total * part, whole);
    }
  }

  /** What a winning bet is due in each mode, up to the fraction of a unit. */
  lemma DueInEachMode(round: Round, r: uint64, bet: Bet, poolTotal: Grid)
    requires Rng(round.slotHash) == Some(r) && Wins(round, r, bet) && bet.pooled[WinningSquare(r)] <= poolTotal[WinningSquare(r)]
    ensures var w := WinningSquare(r);
      var lode := MotherlodeDue(round, r, bet);
      var base := GodlDue(round, bet, poolTotal) - lode;
      && Floored(lode, round.motherlode, bet.deployed[w], round.deployed[w])
      && match round.topMiner
         case Split => Floored(base, round.topMinerReward, bet.deployed[w], round.deployed[w])
         case Pool => if poolTotal[w] == 0 then base == 0 else Floored(base, round.topMinerReward, bet.pooled[w], poolTotal[w])
         case _ => base == if Holds(bet, w, TopMinerSample(r, round.deployed[w])) then round.topMinerReward else 0
  {
    hide Rng, WinningSquare, TopMinerSample, PartOf, Floored;
    var w := WinningSquare(r);
    PartIsFloored(round.motherlode, bet.deployed[w], round.deployed[w]);
    match round.topMiner {
      case Split => PartIsFloored(round.topMinerReward, bet.deployed[w], round.deployed[w]);
      case Pool => PooledPart(round.topMinerReward, bet.pooled[w], poolTotal[w]);
      case _ =>
    }
  }

  lemma PooledPart(total: uint64, part: uint64, whole: uint64)
    requires part <= whole
    ensures if whole == 0 then PartOf(total, part, whole) == 0 else Floored(PartOf(total, part, whole), total, part, whole)
  {
    if whole > 0 {
      PartIsFloored(total, part, whole);
    }
  }

  lemma GodlSplits(round: Round, r: uint64, bet: Bet, poolTotal: Grid)
    requires Rng(round.slotHash) == Some(r)
    ensures GodlDue(round, bet, poolTotal) <= BaseDue(round, r, bet, poolTotal) + MotherlodeDue(round, r, bet)
    ensures Wins(round, r, bet) ==>
      GodlDue(round, bet, poolTotal) == BaseDue(round, r, bet, poolTotal) + MotherlodeDue(round, r, bet)
  {
    hide Rng, BaseDue, MotherlodeDue;
  }

  ghost function BaseDues(round: Round, r: uint64, book: map<nat, Bet>, poolTotal: Grid): map<nat, int> {
    map a | a in book :: BaseDue(round, r, book[a], poolTotal)
  }

  ghost function MotherlodeDues(round: Round, r: uint64, book: map<nat, Bet>): map<nat, int> {
    map a | a in book :: MotherlodeDue(round, r, book[a])
  }

  lemma PartBound(total: uint64, part: uint64, whole: uint64)
    requires part <= whole
    ensures whole * PartOf(total, part, whole) <= total * part
  {
    if 0 < part {
      ShareExact(total, part, whole);
    }
  }

  lemma MotherlodeWithin(round: Round, r: uint64, book: map<nat, Bet>)
    requires Sum(DeployedOn(book, WinningSquare(r))) == round.deployed[WinningSquare(r)]
    ensures Sum(MotherlodeDues(round, r, book)) <= round.motherlode
  {
    var w := WinningSquare(r);
    if round.deployed[w] == 0 {
      SumAllZero(MotherlodeDues(round, r, book));
    } else {
      forall a | a in book ensures round.deployed[w] * MotherlodeDues(round, r, book)[a] <= round.motherlode * book[a].deployed[w] {
        SumCovers(DeployedOn(book, w), a);
        PartBound(round.motherlode, book[a].deployed[w], round.deployed[w]);
      }
      SharesWithin(DeployedOn(book, w), MotherlodeDues(round, r, book), round.motherlode, round.deployed[w]);
    }
  }

  lemma SplitWithin(round: Round, r: uint64, book: map<nat, Bet>, poolTotal: Grid)
    requires round.topMiner.Split? && Sum(DeployedOn(book, WinningSquare(r))) == round.deployed[WinningSquare(r)]
    ensures Sum(BaseDues(round, r, book, poolTotal)) <= round.topMinerReward
  {
    var w := WinningSquare(r);
    var dues := BaseDues(round, r, book, poolTotal);
    if round.deployed[w] == 0 {
      SumAllZero(dues);
    } else {
      forall a | a in book ensures round.deployed[w] * dues[a] <= round.topMinerReward * book[a].deployed[w] {
        SumCovers(DeployedOn(book, w), a);
        PartBound(round.topMinerReward, book[a].deployed[w], round.deployed[w]);
      }
      SharesWithin(DeployedOn(book, w), dues, round.topMinerReward, round.deployed[w]);
    }
  }

  /** The pool's case rests on the pool's total being the sum of its members' bets. */
  lemma PoolWithin(round: Round, r: uint64, book: map<nat, Bet>, poolTotal: Grid)
    requires round.topMiner.Pool? && Sum(PooledOn(book, WinningSquare(r))) == poolTotal[WinningSquare(r)]
    ensures Sum(BaseDues(round, r, book, poolTotal)) <= round.topMinerReward
  {
    var w := WinningSquare(r);
    var dues := BaseDues(round, r, book, poolTotal);
    if poolTotal[w] == 0 {
      SumAllZero(dues);
    } else {
      forall a | a in book ensures poolTotal[w] * dues[a] <= round.topMinerReward * book[a].pooled[w] {
        SumCovers(PooledOn(book, w), a);
        PartBound(round.topMinerReward, book[a].pooled[w], poolTotal[w]);
      }
      SharesWithin(PooledOn(book, w), dues, round.topMinerReward, poolTotal[w]);
    }
  }

  /** Only one bet can hold the sample, so the solo prize is paid at most once. */
  lemma SoloWithin(round: Round, r: uint64, book: map<nat, Bet>, poolTotal: Grid)
    requires round.topMiner.Unset? || round.topMiner.Solo?
    requires Tiled(book, WinningSquare(r), round.deployed[WinningSquare(r)])
    ensures Sum(BaseDues(round, r, book, poolTotal)) <= round.topMinerReward
  {
    var w := WinningSquare(r);
    var sample := TopMinerSample(r, round.deployed[w]);
    var dues := BaseDues(round, r, book, poolTotal);
    forall a, b | a in dues && b in dues && dues[a] != 0 && dues[b] != 0 ensures a == b {
      assert Holds(book[a], w, sample) && Holds(book[b], w, sample);
    }
    SumAtMostOne(dues, round.topMinerReward);
  }

  /** In every mode the GODL of all bets on a round together is at most the round's reward plus
      its motherlode. */
  lemma GodlNeverExceeds(round: Round, r: uint64, book: map<nat, Bet>, poolTotal: Grid)
    requires Rng(round.slotHash) == Some(r)
    requires Sum(DeployedOn(book, WinningSquare(r))) == round.deployed[WinningSquare(r)]
    requires Sum(PooledOn(book, WinningSquare(r))) == poolTotal[WinningSquare(r)]
    requires Tiled(book, WinningSquare(r), round.deployed[WinningSquare(r)])
    ensures Sum(GodlDues(round, book, poolTotal)) <= round.topMinerReward + round.motherlode
  {
    hide Tiled, Rng, WinningSquare, GodlDue, BaseDue, MotherlodeDue;
    var bases, lodes := BaseDues(round, r, book, poolTotal), MotherlodeDues(round, r, book);
    match round.topMiner {
      case Split => SplitWithin(round, r, book, poolTotal);
      case Pool => PoolWithin(round, r, book, poolTotal);
      case _ => SoloWithin(round, r, book, poolTotal);
    }
    MotherlodeWithin(round, r, book);
    var both := map a | a in book :: bases[a] + lodes[a];
    SumAdd(both, bases, lodes);
    forall a | a in book ensures GodlDues(round, book, poolTotal)[a] <= both[a] {
      GodlSplits(round, r, book[a], poolTotal);
    }
    SumMonotone(GodlDues(round, book, poolTotal), both);
  }

  /** Floored shares of a total whose parts make up the whole miss it by less than one unit each. */
  lemma SharesNearly(parts: map<nat, int>, shares: map<nat, int>, total: nat, whole: nat)
    requires 0 < whole == Sum(parts) && parts.Keys == shares.Keys
    requires forall a :: a in parts ==> 0 <= parts[a] && Floored(shares[a], total, parts[a], whole)
    ensures total < Sum(shares) + |parts|
  {
    hide Sum;
    var rest: map<nat, int> := map a | a in parts :: whole - 1;
    var tops := map a | a in parts :: whole * shares[a] + (whole - 1);
    SumScale(parts, total);
    SumScale(shares, whole);
    SumConstant(rest, whole - 1);
    SumAdd(tops, Scaled(shares, whole), rest);
    SumMonotone(Scaled(parts, total), tops);
    assert rest.Keys == parts.Keys;
    assert |rest| == |rest.Keys| && |parts| == |parts.Keys|;
    NotEmpty(parts);
    NearlyWhole(Sum(shares), |parts|, total, whole);
  }

  lemma NotEmpty(m: map<nat, int>)
    requires Sum(m) != 0
    ensures 0 < |m|
  {
  }

  lemma NearlyWhole(shares: int, n: nat, total: nat, whole: nat)
    requires 0 < whole && 0 < n && total * whole <= whole * shares + (whole - 1) * n
    ensures total < shares + n
  {
    if shares + n <= total {
      MultiplyMonotone(shares + n, total, whole);
    }
  }

  /** On the winning square, winners' bets are within their own and the pool's within theirs. */
  ghost predicate WinningBook(round: Round, r: uint64, book: map<nat, Bet>, poolTotal: Grid) {
    var w := WinningSquare(r);
    && 0 < round.deployed[w] == Sum(DeployedOn(book, w)) && Sum(PooledOn(book, w)) == poolTotal[w]
    && AllWinners(round, r, book) && Tiled(book, w, round.deployed[w])
    && (round.topMiner.Pool? ==> 0 < poolTotal[w])
  }

  lemma MotherlodeNearly(round: Round, r: uint64, book: map<nat, Bet>)
    requires 0 < round.deployed[WinningSquare(r)] == Sum(DeployedOn(book, WinningSquare(r))) && AllWinners(round, r, book)
    ensures round.motherlode < Sum(MotherlodeDues(round, r, book)) + |book|
  {
    hide WinningSquare, PartOf, Floored, Sum;
    var w := WinningSquare(r);
    forall a | a in book ensures Floored(MotherlodeDues(round, r, book)[a], round.motherlode, book[a].deployed[w], round.deployed[w]) {
      PartIsFloored(round.motherlode, book[a].deployed[w], round.deployed[w]);
    }
    SharesNearly(DeployedOn(book, w), MotherlodeDues(round, r, book), round.motherlode, round.deployed[w]);
    assert DeployedOn(book, w).Keys == book.Keys;
  }

  lemma SplitNearly(round: Round, r: uint64, book: map<nat, Bet>, poolTotal: Grid)
    requires round.topMiner.Split? && AllWinners(round, r, book)
    requires 0 < round.deployed[WinningSquare(r)] == Sum(DeployedOn(book, WinningSquare(r)))
    ensures round.topMinerReward < Sum(BaseDues(round, r, book, poolTotal)) + |book|
  {
    hide WinningSquare, PartOf, Floored, Sum;
    var w := WinningSquare(r);
    var dues := BaseDues(round, r, book, poolTotal);
    forall a | a in book ensures Floored(dues[a], round.topMinerReward, book[a].deployed[w], round.deployed[w]) {
      PartIsFloored(round.topMinerReward, book[a].deployed[w], round.deployed[w]);
    }
    SharesNearly(DeployedOn(book, w), dues, round.topMinerReward, round.deployed[w]);
    assert DeployedOn(book, w).Keys == book.Keys;
  }

  lemma PoolNearly(round: Round, r: uint64, book: map<nat, Bet>, poolTotal: Grid)
    requires round.topMiner.Pool? && 0 < poolTotal[WinningSquare(r)] == Sum(PooledOn(book, WinningSquare(r)))
    ensures round.topMinerReward < Sum(BaseDues(round, r, book, poolTotal)) + |book|
  {
    hide WinningSquare, PartOf, Floored, Sum;
    var w := WinningSquare(r);
    var dues := BaseDues(round, r, book, poolTotal);
    forall a | a in book ensures Floored(dues[a], round.topMinerReward, book[a].pooled[w], poolTotal[w]) {
      SumCovers(PooledOn(book, w), a);
      PartIsFloored(round.topMinerReward, book[a].pooled[w], poolTotal[w]);
    }
    SharesNearly(PooledOn(book, w), dues, round.topMinerReward, poolTotal[w]);
    assert PooledOn(book, w).Keys == book.Keys;
  }

  /** A round nobody splits and the pool has not won pays its whole reward to exactly one bet, the
      one that holds the sample. */
  lemma SoloExactly(round: Round, r: uint64, book: map<nat, Bet>, poolTotal: Grid)
    requires round.topMiner.Unset? || round.topMiner.Solo?
    requires Tiled(book, WinningSquare(r), round.deployed[WinningSquare(r)]) && 0 < round.deployed[WinningSquare(r)]
    ensures var sample := TopMinerSample(r, round.deployed[WinningSquare(r)]);
      exists a :: a in book && Holds(book[a], WinningSquare(r), sample)
        && BaseDues(round, r, book, poolTotal)[a] == round.topMinerReward
        && forall b :: b in book && b != a ==> BaseDues(round, r, book, poolTotal)[b] == 0
    ensures Sum(BaseDues(round, r, book, poolTotal)) == round.topMinerReward
  {
    hide WinningSquare, TopMinerSample, Sum;
    var w := WinningSquare(r);
    var sample := TopMinerSample(r, round.deployed[w]);
    var dues := BaseDues(round, r, book, poolTotal);
    assert Owned(book, w, sample);
    var a :| a in book && Holds(book[a], w, sample);
    SumSplit(dues, a);
    SumAllZero(dues - {a});
  }

  /** Once everybody is paid, all the GODL of a round is gone but for less than one unit for each
      winner and each of the two parts. */
  lemma GodlNearlyAll(round: Round, r: uint64, book: map<nat, Bet>, poolTotal: Grid)
    requires Rng(round.slotHash) == Some(r) && WinningBook(round, r, book, poolTotal)
    ensures round.topMinerReward + round.motherlode < Sum(GodlDues(round, book, poolTotal)) + 2 * |book|
    ensures round.topMiner.Unset? || round.topMiner.Solo? ==>
      round.topMinerReward + round.motherlode < Sum(GodlDues(round, book, poolTotal)) + |book|
  {
    hide Tiled, Rng, WinningSquare, GodlDue, BaseDue, MotherlodeDue, Sum;
    var bases, lodes := BaseDues(round, r, book, poolTotal), MotherlodeDues(round, r, book);
    match round.topMiner {
      case Split => SplitNearly(round, r, book, poolTotal);
      case Pool => PoolNearly(round, r, book, poolTotal);
      case _ => SoloExactly(round, r, book, poolTotal);
    }
    MotherlodeNearly(round, r, book);
    forall a | a in book ensures GodlDues(round, book, poolTotal)[a] == bases[a] + lodes[a] {
      GodlSplits(round, r, book[a], poolTotal);
    }
    SumAdd(GodlDues(round, book, poolTotal), bases, lodes);
  }

  /** And all the winnings but for less than one lamport each. */
  lemma WinningsNearlyAll(round: Round, r: uint64, book: map<nat, Bet>)
    requires AllWinners(round, r, book) && 0 < round.deployed[WinningSquare(r)] == Sum(DeployedOn(book, WinningSquare(r)))
    ensures round.totalWinnings < Sum(WinningsShares(round, r, book)) + |book|
  {
    hide WinningSquare, PartOf, Floored, Sum;
    var w := WinningSquare(r);
    var shares := WinningsShares(round, r, book);
    forall a | a in book ensures Floored(shares[a], round.totalWinnings, book[a].deployed[w], round.deployed[w]) {
      PartIsFloored(round.totalWinnings, book[a].deployed[w], round.deployed[w]);
    }
    SharesNearly(DeployedOn(book, w), shares, round.totalWinnings, round.deployed[w]);
    assert DeployedOn(book, w).Keys == book.Keys;
  }

  ghost function TotalsOf(book: map<nat, Bet>, n: nat): map<nat, int>
    requires n <= SQUARES
  {
    map a | a in book :: Total(book[a].deployed[..n])
  }

  lemma TotalNext(g: Grid, n: nat)
    requires n < SQUARES
    ensures Total(g[..n + 1]) == Total(g[..n]) + g[n]
  {
    assert g[..n + 1][..n] == g[..n];
  }

  /** Adding up square by square or bet by bet comes to the same. */
  lemma {:induction false} TotalsAddUp(book: map<nat, Bet>, deployed: Grid, n: nat)
    requires n <= SQUARES && forall i :: 0 <= i < SQUARES ==> Sum(DeployedOn(book, i)) == deployed[i]
    ensures Sum(TotalsOf(book, n)) == Total(deployed[..n])
    decreases n
  {
    hide Sum;
    if n == 0 {
      SumAllZero(TotalsOf(book, 0));
    } else {
      TotalsAddUp(book, deployed, n - 1);
      TotalNext(deployed, n - 1);
      forall a | a in book ensures TotalsOf(book, n)[a] == TotalsOf(book, n - 1)[a] + DeployedOn(book, n - 1)[a] {
        TotalNext(book[a].deployed, n - 1);
      }
      SumAdd(TotalsOf(book, n), TotalsOf(book, n - 1), DeployedOn(book, n - 1));
    }
  }

  /** A round without randomness refunds in total exactly what was deployed on it. */
  lemma RefundsAreExact(round: Round, book: map<nat, Bet>)
    requires Rng(round.slotHash) == None
    requires forall i :: 0 <= i < SQUARES ==> Sum(DeployedOn(book, i)) == round.deployed[i]
    ensures Sum(SolDues(round, book)) == Total(round.deployed)
  {
    hide Rng, Total;
    TotalsAddUp(book, round.deployed, SQUARES);
    assert round.deployed[..SQUARES] == round.deployed;
    forall a | a in book ensures book[a].deployed[..SQUARES] == book[a].deployed {
    }
    assert SolDues(round, book) == TotalsOf(book, SQUARES);
  }

  /** A won round after its reset: what it still holds for the winners, rent aside. */
  ghost predicate Closes(round: Round, r: uint64, remaining: int) {
    var w := WinningSquare(r);
    var pot := PotOf(round, w);
    && Rng(round.slotHash) == Some(r) && 0 < round.deployed[w] && round.totalDeployed == Total(round.deployed)
    && pot.Ok? && round.totalWinnings == pot.value.winnings
    && remaining == round.totalDeployed - round.totalDeployed * ADMIN_FEE_BPS / DENOMINATOR_BPS
                    - round.totalDeployed * SOL_MOTHERLODE_BPS / DENOMINATOR_BPS - pot.value.vault
  }

  /** The fraction of a lamport that the floor of one and a half percent drops, in 1/200ths. */
  ghost function Dust(d: nat): (dust: nat)
    ensures dust < 200
  {
    3 * d % 200
  }

  lemma KeptBound(d: nat)
    ensures 200 * Kept(d) <= 197 * d + Dust(d)
    ensures 0 < d * FEE_BPS / DENOMINATOR_BPS ==> 200 * Kept(d) == 197 * d + Dust(d)
  {
  }

  ghost function WinningsShares(round: Round, r: uint64, book: map<nat, Bet>): map<nat, int> {
    map a | a in book :: WinningsShare(round, r, book[a])
  }

  ghost function Dusts(book: map<nat, Bet>, square: nat): map<nat, int>
    requires square < SQUARES
  {
    map a | a in book :: Dust(book[a].deployed[square])
  }

  ghost predicate AllWinners(round: Round, r: uint64, book: map<nat, Bet>) {
    forall a :: a in book ==> Wins(round, r, book[a])
  }

  lemma SolDueIs(round: Round, r: uint64, bet: Bet)
    requires Rng(round.slotHash) == Some(r) && Wins(round, r, bet)
    ensures SolDue(round, bet) == Kept(bet.deployed[WinningSquare(r)]) + WinningsShare(round, r, bet)
  {
    hide Rng;
  }

  lemma ShareOfWinnings(round: Round, r: uint64, book: map<nat, Bet>)
    requires AllWinners(round, r, book) && 0 < round.deployed[WinningSquare(r)]
    requires Sum(DeployedOn(book, WinningSquare(r))) <= round.deployed[WinningSquare(r)]
    ensures Sum(WinningsShares(round, r, book)) <= round.totalWinnings
  {
    hide Share, WinningSquare;
    var w := WinningSquare(r);
    forall a | a in book ensures round.deployed[w] * WinningsShares(round, r, book)[a] <= round.totalWinnings * book[a].deployed[w] {
      PartBound(round.totalWinnings, book[a].deployed[w], round.deployed[w]);
    }
    SharesWithin(DeployedOn(book, w), WinningsShares(round, r, book), round.totalWinnings, round.deployed[w]);
  }

  /** All the bets of a set of winners, added up in 1/200ths of a lamport. */
  lemma SolDuesBound(round: Round, r: uint64, book: map<nat, Bet>)
    requires Rng(round.slotHash) == Some(r) && AllWinners(round, r, book)
    ensures 200 * Sum(SolDues(round, book))
         <= 197 * Sum(DeployedOn(book, WinningSquare(r))) + Sum(Dusts(book, WinningSquare(r))) + 200 * Sum(WinningsShares(round, r, book))
  {
    hide SolDue, Kept, Dust, WinningsShare, WinningSquare, Rng, Sum;
    var w := WinningSquare(r);
    var stakes, dusts, shares, sols := DeployedOn(book, w), Dusts(book, w), WinningsShares(round, r, book), SolDues(round, book);
    SumScale(sols, 200);
    SumScale(stakes, 197);
    SumScale(shares, 200);
    var kept := map a | a in book :: 197 * stakes[a] + dusts[a];
    SumAdd(kept, Scaled(stakes, 197), dusts);
    var all := map a | a in book :: kept[a] + 200 * shares[a];
    SumAdd(all, kept, Scaled(shares, 200));
    forall a | a in book ensures 200 * sols[a] <= all[a] {
      SolDueIs(round, r, book[a]);
      KeptBound(book[a].deployed[w]);
    }
    SumMonotone(Scaled(sols, 200), all);
  }

  /** The reset's floors against the winners' floors. */
  lemma RemainingBound(round: Round, r: uint64, remaining: int)
    requires Closes(round, r, remaining)
    ensures 197 * round.deployed[WinningSquare(r)] + 200 * round.totalWinnings
         <= 200 * remaining + Dust(Losing(round.deployed, WinningSquare(r)))
  {
    hide Rng, Total, WinningSquare;
    var w := WinningSquare(r);
    SanityHoldsWithEquality(round, w);
    FeeIsThreeInTwoHundred(Losing(round.deployed, w));
    TwoFees(round.totalDeployed);
  }

  lemma FeeIsThreeInTwoHundred(losing: nat)
    ensures 200 * (losing * (ADMIN_FEE_BPS + SOL_MOTHERLODE_BPS) / DENOMINATOR_BPS) == 3 * losing - Dust(losing)
  {
  }

  lemma TwoFees(total: nat)
    ensures 200 * (total * ADMIN_FEE_BPS / DENOMINATOR_BPS + total * SOL_MOTHERLODE_BPS / DENOMINATOR_BPS) <= 3 * total
  {
  }

  lemma {:induction false} DustsBelow(book: map<nat, Bet>, square: nat)
    requires square < SQUARES
    ensures 0 <= Sum(Dusts(book, square)) <= 199 * |book|
    decreases |book|
  {
    if book == map[] {
      assert Dusts(book, square) == map[];
    } else {
      var a :| a in book;
      SumSplit(Dusts(book, square), a);
      assert Dusts(book, square) - {a} == Dusts(book - {a}, square);
      DustsBelow(book - {a}, square);
    }
  }

  /** Winners, however many and in whatever order, are together due more than the round still holds
      by at most what flooring their fees one by one drops. */
  lemma ShortfallIsDust(round: Round, r: uint64, remaining: int, book: map<nat, Bet>)
    requires Closes(round, r, remaining) && AllWinners(round, r, book)
    requires Sum(DeployedOn(book, WinningSquare(r))) <= round.deployed[WinningSquare(r)]
    ensures 200 * (Sum(SolDues(round, book)) - remaining)
         <= Sum(Dusts(book, WinningSquare(r))) + Dust(Losing(round.deployed, WinningSquare(r)))
  {
    hide Dust, WinningSquare, Sum, Losing;
    SolDuesBound(round, r, book);
    ShareOfWinnings(round, r, book);
    RemainingBound(round, r, remaining);
  }

  /** Hence the excess is at most one lamport per winner. */
  lemma SolExceedsByOnePerWinner(round: Round, r: uint64, remaining: int, book: map<nat, Bet>)
    requires Closes(round, r, remaining) && AllWinners(round, r, book)
    requires Sum(DeployedOn(book, WinningSquare(r))) <= round.deployed[WinningSquare(r)]
    ensures Sum(SolDues(round, book)) <= remaining + |book|
  {
    hide Closes, AllWinners, Dust, WinningSquare, Sum, Losing;
    ShortfallIsDust(round, r, remaining, book);
    DustsBelow(book, WinningSquare(r));
  }

  ghost predicate Even200(g: Grid) {
    forall i :: 0 <= i < SQUARES ==> g[i] % 200 == 0
  }

  lemma {:induction false} TotalEven(s: seq<uint64>)
    requires forall i :: 0 <= i < |s| ==> s[i] % 200 == 0
    ensures Total(s) % 200 == 0
    decreases |s|
  {
    if s != [] {
      TotalEven(s[..|s| - 1]);
    }
  }

  lemma DustsVanish(book: map<nat, Bet>, square: nat)
    requires square < SQUARES && forall a :: a in book ==> Even200(book[a].deployed)
    ensures Sum(Dusts(book, square)) == 0
  {
    SumAllZero(Dusts(book, square));
  }

  lemma LosingEven(deployed: Grid, square: nat)
    requires square < SQUARES && Even200(deployed)
    ensures Dust(Losing(deployed, square)) == 0
  {
    hide Total;
    TotalEven(deployed);
  }

  /** And there is none when every deployment is a multiple of 200 lamports. */
  lemma SolNeverExceedsInMultiples(round: Round, r: uint64, remaining: int, book: map<nat, Bet>)
    requires Closes(round, r, remaining) && AllWinners(round, r, book)
    requires Sum(DeployedOn(book, WinningSquare(r))) <= round.deployed[WinningSquare(r)]
    requires Even200(round.deployed) && forall a :: a in book ==> Even200(book[a].deployed)
    ensures Sum(SolDues(round, book)) <= remaining
  {
    hide Closes, AllWinners, Dust, WinningSquare, Sum, Losing, Even200;
    ShortfallIsDust(round, r, remaining, book);
    DustsVanish(book, WinningSquare(r));
    LosingEven(round.deployed, WinningSquare(r));
  }

  ghost function KeptOf(book: map<nat, Bet>, square: nat): map<nat, int>
    requires square < SQUARES
  {
    map a | a in book :: Kept(book[a].deployed[square])
  }

  /** The exact balance of a won round. When every winner has been paid, what remains is the
      fees the winners pay one by one, the fees on the losing squares and the winnings lost to
      flooring, less the two fees the reset has taken on the total. So everybody can be paid exactly
      when the latter do not exceed the former three. */
  lemma ExactBalance(round: Round, r: uint64, remaining: int, book: map<nat, Bet>)
    requires Closes(round, r, remaining) && AllWinners(round, r, book)
    requires Sum(DeployedOn(book, WinningSquare(r))) == round.deployed[WinningSquare(r)]
    ensures var w := WinningSquare(r);
      remaining - Sum(SolDues(round, book))
      == (round.deployed[w] - Sum(KeptOf(book, w)))
         + Losing(round.deployed, w) * (ADMIN_FEE_BPS + SOL_MOTHERLODE_BPS) / DENOMINATOR_BPS
         + (round.totalWinnings - Sum(WinningsShares(round, r, book)))
         - round.totalDeployed * ADMIN_FEE_BPS / DENOMINATOR_BPS - round.totalDeployed * SOL_MOTHERLODE_BPS / DENOMINATOR_BPS
    ensures var w := WinningSquare(r);
      Sum(SolDues(round, book)) <= remaining
      <==> round.totalDeployed * ADMIN_FEE_BPS / DENOMINATOR_BPS + round.totalDeployed * SOL_MOTHERLODE_BPS / DENOMINATOR_BPS
           <= (round.deployed[w] - Sum(KeptOf(book, w)))
              + Losing(round.deployed, w) * (ADMIN_FEE_BPS + SOL_MOTHERLODE_BPS) / DENOMINATOR_BPS
              + (round.totalWinnings - Sum(WinningsShares(round, r, book)))
  {
    hide SolDue, Kept, WinningsShare, WinningSquare, Rng, Sum, Total, PotOf, Due;
    SolDuesAre(round, r, book);
    PotIs(round, WinningSquare(r));
  }

  lemma SolDuesAre(round: Round, r: uint64, book: map<nat, Bet>)
    requires Rng(round.slotHash) == Some(r) && AllWinners(round, r, book)
    ensures Sum(SolDues(round, book)) == Sum(KeptOf(book, WinningSquare(r))) + Sum(WinningsShares(round, r, book))
  {
    hide SolDue, Kept, WinningsShare, WinningSquare, Rng, Sum, Due;
    forall a | a in book ensures SolDues(round, book)[a] == KeptOf(book, WinningSquare(r))[a] + WinningsShares(round, r, book)[a] {
      SolDueIs(round, r, book[a]);
    }
    SumAdd(SolDues(round, book), KeptOf(book, WinningSquare(r)), WinningsShares(round, r, book));
  }

  lemma KeptNearly(d: nat)
    ensures 197 * d - 200 <= 200 * Kept(d)
  {
  }

  lemma KeptAtLeast(book: map<nat, Bet>, square: nat)
    requires square < SQUARES
    ensures 197 * Sum(DeployedOn(book, square)) - 200 * |book| <= 200 * Sum(KeptOf(book, square))
  {
    hide Kept, Sum;
    var stakes, kept := DeployedOn(book, square), KeptOf(book, square);
    var ones: map<nat, int> := map a | a in book :: 200;
    var tops := map a | a in book :: 200 * kept[a] + 200;
    SumScale(stakes, 197);
    SumScale(kept, 200);
    SumConstant(ones, 200);
    SumAdd(tops, Scaled(kept, 200), ones);
    forall a | a in book ensures 197 * stakes[a] <= tops[a] {
      KeptNearly(stakes[a]);
    }
    SumMonotone(Scaled(stakes, 197), tops);
    assert ones.Keys == book.Keys;
  }

  lemma FeesNearly(total: nat)
    ensures 3 * total - 400
          < 200 * (total * ADMIN_FEE_BPS / DENOMINATOR_BPS) + 200 * (total * SOL_MOTHERLODE_BPS / DENOMINATOR_BPS)
  {
  }

  lemma PotFeesAtMost(losing: nat)
    ensures 200 * (losing * (ADMIN_FEE_BPS + SOL_MOTHERLODE_BPS) / DENOMINATOR_BPS) <= 3 * losing
  {
  }

  /** When all winners have been paid, at most two lamports for each of them are left. */
  lemma LeftoverIsDust(round: Round, r: uint64, remaining: int, book: map<nat, Bet>)
    requires Closes(round, r, remaining) && AllWinners(round, r, book)
    requires Sum(DeployedOn(book, WinningSquare(r))) == round.deployed[WinningSquare(r)]
    ensures remaining <= Sum(SolDues(round, book)) + 2 * |book|
  {
    hide SolDue, Kept, WinningsShare, WinningSquare, Rng, Sum, Total, PotOf, AllWinners;
    var w := WinningSquare(r);
    ExactBalance(round, r, remaining, book);
    KeptAtLeast(book, w);
    FeesNearly(round.totalDeployed);
    PotFeesAtMost(Losing(round.deployed, w));
    WinningsNearlyAll(round, r, book);
  }

  lemma PotIs(round: Round, winning: nat)
    requires winning < SQUARES && PotOf(round, winning).Ok?
    ensures var pot := PotOf(round, winning).value;
      && pot.fees == Losing(round.deployed, winning) * (ADMIN_FEE_BPS + SOL_MOTHERLODE_BPS) / DENOMINATOR_BPS
      && pot.vault + pot.winnings + pot.fees == Losing(round.deployed, winning)
  {
    hide Total;
    FeeWithin(Losing(round.deployed, winning), ADMIN_FEE_BPS + SOL_MOTHERLODE_BPS);
  }
}
