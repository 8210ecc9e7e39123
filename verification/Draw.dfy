/** What the drawn word is, bit by bit, and what the program reads off it. */
module Draw {
  import opened Basics
  import opened FixedPoint
  import opened RoundState
  import opened SquareRoot

  /** Bit i of n, least significant first. */
  function Bit(n: nat, i: nat): nat {
    if i == 0 then n % 2 else Bit(n / 2, i - 1)
  }

  lemma {:induction false} BitSmall(n: nat, i: nat)
    ensures Bit(n, i) < 2
    decreases i
  {
    if i > 0 {
      BitSmall(n / 2, i - 1);
    }
  }

  /** A number is its bits. */
  lemma {:induction false} BitsDetermine(a: nat, b: nat, width: nat)
    requires a < PowerOfTwo(width) && b < PowerOfTwo(width)
    requires forall i :: 0 <= i < width ==> Bit(a, i) == Bit(b, i)
    ensures a == b
    decreases width
  {
    if width > 0 {
      assert Bit(a, 0) == Bit(b, 0);
      forall i | 0 <= i < width - 1 ensures Bit(a / 2, i) == Bit(b / 2, i) {
        assert Bit(a, i + 1) == Bit(b, i + 1);
      }
      BitsDetermine(a / 2, b / 2, width - 1);
    }
  }

  lemma {:induction false} LowBit(low: nat, high: nat, e: nat, i: nat)
    requires i < e
    ensures Bit(low + PowerOfTwo(e) * high, i) == Bit(low, i)
    decreases e
  {
    var n := low + PowerOfTwo(e) * high;
    Halved(low, high, e);
    if i > 0 {
      LowBit(low / 2, high, e - 1, i - 1);
    }
  }

  lemma Halved(low: nat, high: nat, e: nat)
    requires 0 < e
    ensures var n := low + PowerOfTwo(e) * high; n % 2 == low % 2 && n / 2 == low / 2 + PowerOfTwo(e - 1) * high
  {
    assert PowerOfTwo(e) * high == 2 * (PowerOfTwo(e - 1) * high);
  }

  lemma {:induction false} HighBit(low: nat, high: nat, e: nat, i: nat)
    requires low < PowerOfTwo(e)
    ensures Bit(low + PowerOfTwo(e) * high, e + i) == Bit(high, i)
    decreases e
  {
    if e > 0 {
      Halved(low, high, e);
      HighBit(low / 2, high, e - 1, i);
    }
  }

  /** Exclusive or is parity, bit by bit. */
  lemma {:induction false} XorBit(a: nat, b: nat, width: nat, i: nat)
    requires i < width
    ensures Bit(Xor(a, b, width), i) == (Bit(a, i) + Bit(b, i)) % 2
    decreases width
  {
    hide PowerOfTwo;
    if i == 0 {
      ParityAdds(a, b);
    } else {
      XorBit(a / 2, b / 2, width - 1, i - 1);
    }
  }

  lemma {:induction false} ReversedBit(n: nat, width: nat, i: nat)
    requires i < width
    ensures Bit(Reversed(n, width), i) == Bit(n, width - 1 - i)
    decreases width
  {
    hide PowerOfTwo;
    var low := Reversed(n / 2, width - 1);
    ReversedBound(n / 2, width - 1);
    assert Reversed(n, width) == low + PowerOfTwo(width - 1) * (n % 2);
    if i == width - 1 {
      HighBit(low, n % 2, width - 1, 0);
    } else {
      LowBit(low, n % 2, width - 1, i);
      ReversedBit(n / 2, width - 1, i);
    }
  }

  function Bytes(b: seq<uint8>): nat {
    if b == [] then 0 else b[0] + 0x100 * Bytes(b[1..])
  }

  lemma {:induction false} BytesBit(b: seq<uint8>, i: nat)
    requires i < 8 * |b|
    ensures Bit(Bytes(b), i) == Bit(b[i / 8], i % 8)
    decreases |b|
  {
    EightBits();
    if i < 8 {
      LowBit(b[0], Bytes(b[1..]), 8, i);
    } else {
      HighBit(b[0], Bytes(b[1..]), 8, i - 8);
      BytesBit(b[1..], i - 8);
    }
  }

  lemma EightBits()
    ensures PowerOfTwo(8) == 0x100
  {
    Doubled(1, 2);
    Doubled(2, 4);
    Doubled(4, 16);
  }

  lemma BytesStep(b: seq<uint8>, k: nat)
    requires k < |b|
    ensures Bytes(b[k..]) == b[k] + 0x100 * Bytes(b[k + 1..])
  {
    assert b[k..][1..] == b[k + 1..];
  }

  lemma NoBytes()
    ensures Bytes([]) == 0
  {
  }

  lemma WordIsBytes(b: seq<uint8>)
    requires |b| == 8
    ensures Word(b) == Bytes(b)
  {
    hide Bytes;
    assert b[0..] == b && b[8..] == [];
    NoBytes();
    BytesStep(b, 0);
    BytesStep(b, 1);
    BytesStep(b, 2);
    BytesStep(b, 3);
    BytesStep(b, 4);
    BytesStep(b, 5);
    BytesStep(b, 6);
    BytesStep(b, 7);
  }

  /** Bit k of the entropy: bytes in order, each least significant bit first. */
  function HashBit(h: Hash, k: nat): nat
    requires k < 256
  {
    Bit(h[k / 8], k % 8)
  }

  /** The four words the entropy is read as. */
  ghost function Words(h: Hash): seq<uint64> {
    [Word(h[0..8]), Word(h[8..16]), Word(h[16..24]), Word(h[24..32])]
  }

  lemma WordBit(h: Hash, j: nat, i: nat)
    requires j < 4 && i < 64
    ensures Bit(Words(h)[j], i) == HashBit(h, 64 * j + i)
  {
    hide Word, Bytes, Bit;
    var b := h[8 * j..8 * j + 8];
    assert Words(h)[j] == Word(b);
    WordIsBytes(b);
    BytesBit(b, i);
    assert b[i / 8] == h[8 * j + i / 8];
    assert (64 * j + i) / 8 == 8 * j + i / 8 && (64 * j + i) % 8 == i % 8;
  }

  lemma MixedBit(a: uint64, b: uint64, i: nat)
    requires i < 64
    ensures Bit(Mixed(a, b), i) == (Bit(a, i) + Bit(b, i)) % 2
  {
    hide Bit, Xor;
    var width := 64;
    XorBit(a, b, width, i);
  }

  /** Each bit of the drawn word is the parity of that bit in the four words of the entropy. */
  lemma DrawnBit(h: Hash, i: nat)
    requires Rng(h).Some? && i < 64
    ensures Bit(Rng(h).value, i) == (HashBit(h, i) + HashBit(h, 64 + i) + HashBit(h, 128 + i) + HashBit(h, 192 + i)) % 2
  {
    hide Bit, Mixed, Word, HashBit;
    var w := Words(h);
    MixedBit(w[0], w[1], i);
    MixedBit(Mixed(w[0], w[1]), w[2], i);
    MixedBit(Mixed(Mixed(w[0], w[1]), w[2]), w[3], i);
    WordBit(h, 0, i);
    WordBit(h, 1, i);
    WordBit(h, 2, i);
    WordBit(h, 3, i);
  }

  /** The entropy differs in bit k and nowhere else. */
  ghost predicate Flipped(h: Hash, g: Hash, k: nat) {
    k < 256 && forall j :: 0 <= j < 256 ==> (HashBit(h, j) == HashBit(g, j) <==> j != k)
  }

  lemma HashBitSmall(h: Hash, k: nat)
    requires k < 256
    ensures HashBit(h, k) < 2
  {
    BitSmall(h[k / 8], k % 8);
  }

  /** Every bit of the entropy matters: flipping one flips exactly one bit of the word. */
  lemma EveryBitCounts(h: Hash, g: Hash, k: nat)
    requires Rng(h).Some? && Rng(g).Some? && Flipped(h, g, k)
    ensures forall i :: 0 <= i < 64 ==> (Bit(Rng(h).value, i) == Bit(Rng(g).value, i) <==> i != k % 64)
  {
    hide Bit, Rng, HashBit;
    forall i | 0 <= i < 64 ensures Bit(Rng(h).value, i) == Bit(Rng(g).value, i) <==> i != k % 64 {
      DrawnBit(h, i);
      DrawnBit(g, i);
      HashBitSmall(h, k);
      HashBitSmall(g, k);
      assert HashBit(h, i) == HashBit(g, i) <==> i != k;
      assert HashBit(h, 64 + i) == HashBit(g, 64 + i) <==> 64 + i != k;
      assert HashBit(h, 128 + i) == HashBit(g, 128 + i) <==> 128 + i != k;
      assert HashBit(h, 192 + i) == HashBit(g, 192 + i) <==> 192 + i != k;
    }
  }

  ghost function BitSum(words: seq<uint64>, i: nat): nat {
    if words == [] then 0 else Bit(words[0], i) + BitSum(words[1..], i)
  }

  lemma {:induction false} BitSumWithout(words: seq<uint64>, k: nat, i: nat)
    requires k < |words|
    ensures BitSum(words, i) == Bit(words[k], i) + BitSum(words[..k] + words[k + 1..], i)
    decreases |words|
  {
    var rest := words[..k] + words[k + 1..];
    if k == 0 {
      assert rest == words[1..];
    } else {
      BitSumWithout(words[1..], k - 1, i);
      assert rest[1..] == words[1..][..k - 1] + words[1..][k..];
    }
  }

  lemma Without(words: seq<uint64>, k: nat)
    requires k < |words|
    ensures multiset(words[..k] + words[k + 1..]) == multiset(words) - multiset{words[k]}
  {
    assert words == words[..k] + [words[k]] + words[k + 1..];
  }

  lemma Occurs(a: seq<uint64>, b: seq<uint64>) returns (k: nat)
    requires multiset(a) == multiset(b) && a != []
    ensures k < |b| && b[k] == a[0] && multiset(a[1..]) == multiset(b[..k] + b[k + 1..])
  {
    assert a[0] in multiset(a);
    k :| 0 <= k < |b| && b[k] == a[0];
    Without(a, 0);
    Without(b, k);
    assert a[..0] + a[1..] == a[1..];
  }

  lemma {:induction false} BitSumPermuted(a: seq<uint64>, b: seq<uint64>, i: nat)
    requires multiset(a) == multiset(b)
    ensures BitSum(a, i) == BitSum(b, i)
    decreases |a|
  {
    if a == [] {
      assert |multiset(b)| == 0;
    } else {
      var k := Occurs(a, b);
      BitSumWithout(b, k, i);
      BitSumPermuted(a[1..], b[..k] + b[k + 1..], i);
    }
  }

  lemma BitSumNext(words: seq<uint64>, k: nat, i: nat)
    requires k < |words|
    ensures BitSum(words[k..], i) == Bit(words[k], i) + BitSum(words[k + 1..], i)
  {
    assert words[k..][1..] == words[k + 1..];
  }

  lemma BitSumNone(i: nat)
    ensures BitSum([], i) == 0
  {
  }

  lemma BitSumFour(w: seq<uint64>, i: nat)
    requires |w| == 4
    ensures BitSum(w, i) == Bit(w[0], i) + Bit(w[1], i) + Bit(w[2], i) + Bit(w[3], i)
  {
    hide BitSum, Bit;
    assert w[0..] == w && w[4..] == [];
    BitSumNone(i);
    BitSumNext(w, 0, i);
    BitSumNext(w, 1, i);
    BitSumNext(w, 2, i);
    BitSumNext(w, 3, i);
  }

  lemma FourWords(h: Hash, i: nat)
    requires i < 64
    ensures BitSum(Words(h), i) == HashBit(h, i) + HashBit(h, 64 + i) + HashBit(h, 128 + i) + HashBit(h, 192 + i)
  {
    hide Bit, Word, HashBit, BitSum;
    var w := Words(h);
    BitSumFour(w, i);
    WordBit(h, 0, i);
    WordBit(h, 1, i);
    WordBit(h, 2, i);
    WordBit(h, 3, i);
  }

  /** The order of the four words is immaterial. */
  lemma WordsCommute(h: Hash, g: Hash)
    requires Rng(h).Some? && Rng(g).Some? && multiset(Words(h)) == multiset(Words(g))
    ensures Rng(h) == Rng(g)
  {
    hide Bit, Rng, HashBit, Words, BitSum;
    forall i | 0 <= i < 64 ensures Bit(Rng(h).value, i) == Bit(Rng(g).value, i) {
      DrawnBit(h, i);
      DrawnBit(g, i);
      FourWords(h, i);
      FourWords(g, i);
      BitSumPermuted(Words(h), Words(g), i);
    }
    WordSizes();
    var width := 64;
    BitsDetermine(Rng(h).value, Rng(g).value, width);
  }

  /** v is r read backwards: bit i of one is bit 63 - i of the other. */
  ghost predicate Backwards(v: uint64, r: uint64) {
    forall i :: 0 <= i < 64 ==> Bit(v, i) == Bit(r, 63 - i)
  }

  lemma BackwardsIs(v: uint64, r: uint64)
    ensures Backwards(v, r) <==> v == ReverseBits(r)
  {
    hide Bit, Reversed;
    var width := 64;
    forall i | 0 <= i < 64 ensures Bit(ReverseBits(r), i) == Bit(r, 63 - i) {
      ReversedBit(r, width, i);
    }
    WordSizes();
    if Backwards(v, r) {
      BitsDetermine(v, ReverseBits(r), width);
    }
  }

  /** The two remainders the program takes are those of the word read backwards. */
  lemma ReadBackwards(v: uint64, r: uint64, deployed: uint64)
    requires Backwards(v, r)
    ensures deployed > 0 ==> TopMinerSample(r, deployed) == v % deployed
    ensures HitMotherlode(r) <==> v % 625 == 0
  {
    hide Backwards, ReverseBits;
    BackwardsIs(v, r);
  }

  lemma {:induction false} BitDivides(n: nat, i: nat)
    ensures Bit(n, i) == n / PowerOfTwo(i) % 2
    decreases i
  {
    if i > 0 {
      BitDivides(n / 2, i - 1);
      DivideTwice(n, PowerOfTwo(i - 1));
    }
  }

  lemma DivideTwice(n: nat, p: nat)
    requires 0 < p
    ensures n / 2 / p == n / (2 * p)
  {
    var q := n / 2 / p;
    QuotientBound(n / 2, p);
    assert q * (2 * p) == 2 * (q * p);
    QuotientIs(n, 2 * p, q);
  }

  lemma FoldParity(a: nat, b: nat, c: nat, d: nat, width: nat)
    requires 0 < width
    ensures Xor(Xor(Xor(a, b, width), c, width), d, width) % 2 == (a % 2 + b % 2 + c % 2 + d % 2) % 2
  {
    hide Xor;
    var x := Xor(a, b, width);
    var y := Xor(x, c, width);
    XorParity(a, b, width);
    XorParity(x, c, width);
    XorParity(y, d, width);
    FourParities(a % 2, b % 2, c % 2, d % 2, x % 2, y % 2, Xor(y, d, width) % 2);
  }

  lemma FourParities(a: nat, b: nat, c: nat, d: nat, x: nat, y: nat, z: nat)
    requires a < 2 && b < 2 && c < 2 && d < 2
    requires x == (a + b) % 2 && y == (x + c) % 2 && z == (y + d) % 2
    ensures z == (a + b + c + d) % 2
  {
  }

  lemma SplitReads(r: uint64)
    ensures var v := ReverseBits(r); IsSplit(r) <==> (Bit(v, 0) + Bit(v, 16) + Bit(v, 32) + Bit(v, 48)) % 2 == 0
  {
    hide Bit, ReverseBits, Xor;
    var v := ReverseBits(r);
    var width := 16;
    LowBits(v);
    FoldParity(v % 0x1_0000, v / 0x1_0000 % 0x1_0000, v / 0x1_0000_0000 % 0x1_0000, v / 0x1_0000_0000_0000 % 0x1_0000, width);
  }

  /** Half of all words split: those with an even number of ones among bits 15, 31, 47 and 63. */
  lemma SplitIsParity(r: uint64)
    ensures IsSplit(r) <==> (Bit(r, 15) + Bit(r, 31) + Bit(r, 47) + Bit(r, 63)) % 2 == 0
  {
    hide Bit, ReverseBits, IsSplit;
    var v := ReverseBits(r);
    SplitReads(r);
    BackwardsIs(v, r);
    assert Bit(v, 0) == Bit(r, 63) && Bit(v, 16) == Bit(r, 47) && Bit(v, 32) == Bit(r, 31) && Bit(v, 48) == Bit(r, 15);
  }

  lemma XorParity(a: nat, b: nat, width: nat)
    requires 0 < width
    ensures Xor(a, b, width) % 2 == (a % 2 + b % 2) % 2
  {
    ParityAdds(a, b);
    XorLast(a, b, width);
  }

  lemma XorLast(a: nat, b: nat, width: nat)
    requires 0 < width
    ensures Xor(a, b, width) % 2 == (a + b) % 2
  {
  }

  lemma ParityAdds(a: nat, b: nat)
    ensures (a + b) % 2 == (a % 2 + b % 2) % 2
  {
  }

  lemma LowBitAt(v: nat, e: nat, p: nat)
    requires PowerOfTwo(e) == p
    ensures Bit(v, e) == v / p % 0x1_0000 % 2
  {
    hide Bit, PowerOfTwo;
    BitDivides(v, e);
    LowParity(v / p);
  }

  lemma LowParity(n: nat)
    ensures n % 0x1_0000 % 2 == n % 2
  {
  }

  lemma LowBits(v: uint64)
    ensures Bit(v, 0) == v / 1 % 0x1_0000 % 2 && Bit(v, 16) == v / 0x1_0000 % 0x1_0000 % 2
    ensures Bit(v, 32) == v / 0x1_0000_0000 % 0x1_0000 % 2 && Bit(v, 48) == v / 0x1_0000_0000_0000 % 0x1_0000 % 2
  {
    hide Bit, PowerOfTwo;
    PowersUsed();
    LowBitAt(v, 0, 1);
    LowBitAt(v, 16, 0x1_0000);
    LowBitAt(v, 32, 0x1_0000_0000);
    LowBitAt(v, 48, 0x1_0000_0000_0000);
  }

  lemma PowersUsed()
    ensures PowerOfTwo(0) == 1 && PowerOfTwo(15) == 0x8000 && PowerOfTwo(16) == 0x1_0000
    ensures PowerOfTwo(32) == 0x1_0000_0000 && PowerOfTwo(48) == 0x1_0000_0000_0000
  {
    Doubled(1, 2);
    Doubled(2, 4);
    Doubled(4, 16);
    Doubled(8, 0x100);
    Doubled(16, 0x1_0000);
    PowerOfTwoSum(16, 32);
    PowerHalves(15);
  }

  lemma PowerHalves(e: nat)
    ensures PowerOfTwo(e + 1) == 2 * PowerOfTwo(e)
  {
  }
}
