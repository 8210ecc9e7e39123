/** A round of the game: 25 squares, the bets on them, and the outcome drawn from 32 bytes of
    entropy after the bets are in. */
module RoundState {
  import opened Basics
  import opened MinerState
  import opened SquareRoot

  /** Entropy as the oracle delivers it. */
  type Hash = s: seq<uint8> | |s| == 32 witness seq(32, _ => 0)

  function Repeated(b: uint8): (h: Hash)
    ensures forall i :: 0 <= i < 32 ==> h[i] == b
  {
    seq(32, _ => b)
  }

  /** Who takes the round's GODL. The program stores an address here: two reserved addresses stand
      for a split and for the pool, the default one for an outcome nobody has claimed yet. */
  datatype TopMiner = Unset | Split | Pool | Solo(authority: nat)

  datatype Round = Round(
    id: uint64,
    deployed: Grid,
    slotHash: Hash,
    count: Grid,
    expiresAt: uint64,
    motherlode: uint64,
    topMiner: TopMiner,
    topMinerReward: uint64,
    totalDeployed: uint64,
    totalVaulted: uint64,
    totalWinnings: uint64)

  /** A round as it is opened, waiting for its first bet. */
  ghost function OpenRound(id: uint64): Round {
    Round(id, Zeros(), Repeated(0), Zeros(), UINT64_MAX, 0, Unset, 0, 0, 0, 0)
  }

  /** Eight bytes, least significant first. */
  function Word(b: seq<uint8>): uint64
    requires |b| == 8
  {
    (b[0] as int) + 0x100 * (b[1] as int) + 0x1_0000 * (b[2] as int) + 0x100_0000 * (b[3] as int)
    + 0x1_0000_0000 * (b[4] as int) + 0x100_0000_0000 * (b[5] as int) + 0x1_0000_0000_0000 * (b[6] as int)
    + 0x100_0000_0000_0000 * (b[7] as int)
  }

  /** Bitwise exclusive or of the low `width` bits. */
  function Xor(a: nat, b: nat, width: nat): nat {
    if width == 0 then 0 else (a + b) % 2 + 2 * Xor(a / 2, b / 2, width - 1)
  }

  lemma {:induction false} XorBound(a: nat, b: nat, width: nat)
    ensures Xor(a, b, width) < PowerOfTwo(width)
    decreases width
  {
    if width > 0 {
      XorBound(a / 2, b / 2, width - 1);
    }
  }

  lemma {:induction false} XorZero(a: nat, width: nat)
    requires a < PowerOfTwo(width)
    ensures Xor(a, 0, width) == a
    decreases width
  {
    if width > 0 {
      XorZero(a / 2, width - 1);
    }
  }

  lemma XorFits(a: nat, b: nat, width: nat)
    requires width == 64
    ensures Xor(a, b, width) <= UINT64_MAX
  {
    XorBound(a, b, width);
    WordSizes();
  }

  function Mixed(a: uint64, b: uint64): uint64 {
    XorFits(a, b, 64);
    Xor(a, b, 64)
  }

  /** The random word of a finished round; none when the oracle never delivered. */
  function Rng(hash: Hash): Option<uint64> {
    if hash == Repeated(0) || hash == Repeated(0xFF) then None
    else Some(Mixed(Mixed(Mixed(Word(hash[0..8]), Word(hash[8..16])), Word(hash[16..24])), Word(hash[24..32])))
  }

  function WinningSquare(r: uint64): (w: nat)
    ensures w < SQUARES
  {
    r % SQUARES
  }

  /** The low `width` bits of n, last bit first. */
  function Reversed(n: nat, width: nat): nat {
    if width == 0 then 0 else n % 2 * PowerOfTwo(width - 1) + Reversed(n / 2, width - 1)
  }

  lemma {:induction false} ReversedBound(n: nat, width: nat)
    ensures Reversed(n, width) < PowerOfTwo(width)
    decreases width
  {
    if width > 0 {
      ReversedBound(n / 2, width - 1);
    }
  }

  lemma ReversedFits(n: nat, width: nat)
    requires width == 64
    ensures Reversed(n, width) <= UINT64_MAX
  {
    ReversedBound(n, width);
    WordSizes();
  }

  function ReverseBits(r: uint64): uint64 {
    ReversedFits(r, 64);
    Reversed(r, 64)
  }

  /** The lamport on the winning square whose owner is the top miner. */
  function TopMinerSample(r: uint64, deployed: uint64): (sample: uint64)
    ensures deployed > 0 ==> sample < deployed
  {
    if deployed == 0 then 0 else ReverseBits(r) % deployed
  }

  /** One round in two splits its GODL over the whole winning square. */
  predicate IsSplit(r: uint64) {
    var v := ReverseBits(r);
    var mixed := Xor(Xor(Xor(v % 0x1_0000, v / 0x1_0000 % 0x1_0000, 16), v / 0x1_0000_0000 % 0x1_0000, 16),
                     v / 0x1_0000_0000_0000 % 0x1_0000, 16);
    mixed % 2 == 0
  }

  predicate HitMotherlode(r: uint64) {
    ReverseBits(r) % 625 == 0
  }

  function Total(s: seq<uint64>): nat {
    if s == [] then 0 else Total(s[..|s| - 1]) + s[|s| - 1]
  }

  /** Everything but one square. */
  ghost function Losing(deployed: Grid, winning: nat): nat
    requires winning < SQUARES
  {
    TotalCovers(deployed, winning);
    Total(deployed) - deployed[winning]
  }

  lemma {:induction false} TotalCovers(s: seq<uint64>, i: nat)
    requires i < |s|
    ensures s[i] <= Total(s)
    decreases |s|
  {
    if i < |s| - 1 {
      TotalCovers(s[..|s| - 1], i);
    }
  }

  lemma {:induction false} TotalMonotone(s: seq<uint64>, n: nat)
    requires n <= |s|
    ensures Total(s[..n]) <= Total(s)
    decreases |s|
  {
    if n < |s| {
      TotalMonotone(s[..|s| - 1], n);
      assert s[..|s| - 1][..n] == s[..n];
    } else {
      assert s[..n] == s;
    }
  }

  lemma {:induction false} TotalUpdate(s: seq<uint64>, i: nat, v: uint64)
    requires i < |s|
    ensures Total(s[i := v]) == Total(s) - s[i] + v
    decreases |s|
  {
    var last := |s| - 1;
    if i < last {
      assert s[i := v][..last] == s[..last][i := v];
      TotalUpdate(s[..last], i, v);
    } else {
      assert s[i := v][..last] == s[..last];
    }
  }

  lemma {:induction false} TotalZeros(s: seq<uint64>)
    requires forall i :: 0 <= i < |s| ==> s[i] == 0
    ensures Total(s) == 0
    decreases |s|
  {
    if s != [] {
      TotalZeros(s[..|s| - 1]);
    }
  }

  class RoundAccount {
    var id: uint64
    const deployed: array<uint64>
    var slotHash: Hash
    const count: array<uint64>
    var expiresAt: uint64
    var motherlode: uint64
    var topMiner: TopMiner
    var topMinerReward: uint64
    var totalDeployed: uint64
    var totalVaulted: uint64
    var totalWinnings: uint64
    var lamports: nat

    constructor (id: uint64, rent: nat)
      ensures Valid() && fresh(deployed) && fresh(count)
      ensures View() == OpenRound(id) && lamports == rent
    {
      this.id := id;
      deployed := new uint64[SQUARES](_ => 0);
      slotHash := Repeated(0);
      count := new uint64[SQUARES](_ => 0);
      expiresAt := UINT64_MAX;
      motherlode, topMiner, topMinerReward := 0, Unset, 0;
      totalDeployed, totalVaulted, totalWinnings := 0, 0, 0;
      lamports := rent;
    }

    ghost predicate Valid() {
      deployed != count && deployed.Length == SQUARES && count.Length == SQUARES
    }

    ghost function View(): Round
      requires Valid()
      reads this, deployed, count
    {
      Round(id, deployed[..], slotHash, count[..], expiresAt, motherlode, topMiner, topMinerReward, totalDeployed,
            totalVaulted, totalWinnings)
    }

    /** Adds up the losing squares with checked additions. */
    method CalculateTotalWinnings(winning: nat) returns (r: Result<uint64>)
      requires Valid() && winning < SQUARES
      ensures r == if Losing(deployed[..], winning) <= UINT64_MAX then Ok(Losing(deployed[..], winning)) else Err(Panic)
    {
      var total: uint64 := 0;
      var i := 0;
      while i < SQUARES
        invariant 0 <= i <= SQUARES
        invariant total == Total(deployed[..i]) - if winning < i then deployed[winning] else 0
      {
        assert deployed[..i + 1][..i] == deployed[..i];
        if i != winning {
          if total + deployed[i] > UINT64_MAX {
            TooMuch(deployed[..], winning, i);
            return Err(Panic);
          }
          total := total + deployed[i];
        }
        i := i + 1;
      }
      assert deployed[..SQUARES] == deployed[..];
      return Ok(total);
    }
  }

  /** A partial sum over the losing squares never exceeds the whole. */
  lemma TooMuch(deployed: Grid, winning: nat, i: nat)
    requires winning < SQUARES && i < SQUARES && i != winning
    ensures Total(deployed[..i]) + deployed[i] - (if winning < i then deployed[winning] else 0) <= Losing(deployed, winning)
  {
    assert deployed[..i + 1][..i] == deployed[..i];
    TotalMonotone(deployed, i + 1);
    if i < winning {
      TotalMonotone(deployed, winning + 1);
      assert deployed[..winning + 1][..winning] == deployed[..winning];
      TotalMonotone(deployed[..winning], i + 1);
      assert deployed[..winning][..i + 1] == deployed[..i + 1];
    }
  }
}
