/** The 128-bit integer square root behind the sqrt reward curve. */
module SquareRoot {
  import opened Basics

  ghost predicate IsRoot(r: nat, n: nat) {
    r * r <= n < (r + 1) * (r + 1)
  }

  lemma {:induction false} RootExists(n: nat)
    ensures exists r: nat :: IsRoot(r, n)
  {
    if n == 0 {
      assert IsRoot(0, 0);
    } else {
      RootExists(n - 1);
      var r: nat :| IsRoot(r, n - 1);
      assert IsRoot(r, n) || IsRoot(r + 1, n);
    }
  }

  /** floor(sqrt(n)) */
  ghost function Root(n: nat): (r: nat)
    ensures IsRoot(r, n)
  {
    RootExists(n);
    var r: nat :| IsRoot(r, n);
    r
  }

  lemma SquareMonotone(a: nat, b: nat)
    requires a <= b
    ensures a * a <= b * b
  {
  }

  lemma SquareOrder(a: nat, b: nat)
    requires a * a < b * b
    ensures a < b
  {
    if b <= a {
      SquareMonotone(b, a);
    }
  }

  lemma RootUnique(r: nat, s: nat, n: nat)
    requires IsRoot(r, n) && IsRoot(s, n)
    ensures r == s
  {
    SquareOrder(r, s + 1);
    SquareOrder(s, r + 1);
  }

  lemma RootMonotone(m: nat, n: nat)
    requires m <= n
    ensures Root(m) <= Root(n)
  {
    SquareOrder(Root(m), Root(n) + 1);
  }

  function PowerOfTwo(e: nat): (p: nat)
    ensures 1 <= p
  {
    if e == 0 then 1 else 2 * PowerOfTwo(e - 1)
  }

  lemma {:induction false} PowerOfTwoSum(a: nat, b: nat)
    ensures PowerOfTwo(a + b) == PowerOfTwo(a) * PowerOfTwo(b)
    decreases b
  {
    if b > 0 {
      PowerOfTwoSum(a, b - 1);
      assert PowerOfTwo(a + b) == 2 * PowerOfTwo(a + b - 1);
    }
  }

  lemma {:induction false} PowerOfTwoMonotone(a: nat, b: nat)
    requires a <= b
    ensures PowerOfTwo(a) <= PowerOfTwo(b)
    decreases b
  {
    if a < b {
      PowerOfTwoMonotone(a, b - 1);
    }
  }

  /** The number of significant bits: 128 minus the leading zeros of a 128-bit n. */
  function BitLength(n: nat): nat {
    if n == 0 then 0 else 1 + BitLength(n / 2)
  }

  lemma {:induction false} BitLengthBracket(n: nat)
    ensures n < PowerOfTwo(BitLength(n))
    ensures 0 < n ==> PowerOfTwo(BitLength(n) - 1) <= n
  {
    if n > 0 {
      BitLengthBracket(n / 2);
    }
  }

  /** The starting guess is at least the root and fits in 65 bits. */
  lemma InitialGuess(n: uint128)
    requires 0 < n
    ensures n < PowerOfTwo((BitLength(n) + 1) / 2) * PowerOfTwo((BitLength(n) + 1) / 2)
    ensures PowerOfTwo((BitLength(n) + 1) / 2) <= PowerOfTwo(64) == 0x1_0000_0000_0000_0000
  {
    var half := (BitLength(n) + 1) / 2;
    BitLengthBracket(n);
    PowerOfTwoMonotone(BitLength(n), half + half);
    PowerOfTwoSum(half, half);
    WordSizes();
    if BitLength(n) > 128 {
      PowerOfTwoMonotone(128, BitLength(n) - 1);
    }
    PowerOfTwoMonotone(half, 64);
  }

  lemma Doubled(e: nat, p: nat)
    requires PowerOfTwo(e) == p
    ensures PowerOfTwo(e + e) == p * p
  {
    PowerOfTwoSum(e, e);
  }

  lemma WordSizes()
    ensures PowerOfTwo(64) == 0x1_0000_0000_0000_0000
    ensures PowerOfTwo(128) == 0x1_0000_0000_0000_0000_0000_0000_0000_0000
  {
    Doubled(1, 2);
    Doubled(2, 4);
    Doubled(4, 16);
    Doubled(8, 256);
    Doubled(16, 0x1_0000);
    Doubled(32, 0x1_0000_0000);
    Doubled(64, 0x1_0000_0000_0000_0000);
  }

  lemma QuotientAtMost(n: nat, x: nat)
    requires 1 <= x && n < (x + 1) * (x + 1)
    ensures 0 <= n / x <= x + 2
    ensures n / x * x <= n < n / x * x + x
  {
    var q := n / x;
    assert n == q * x + n % x;
    if x + 3 <= q {
      MultiplyMonotone(x + 3, q, x);
    }
  }

  /** The square of half a sum, rounded up, is at least the product. */
  lemma MeanBound(a: nat, b: nat, h: nat)
    requires a + b <= 2 * h
    ensures a * b <= h * h
  {
    SquareMonotone(a + b, 2 * h);
    assert 4 * (a * b) <= (a + b) * (a + b) by {
      var d := a - b;
      assert (a + b) * (a + b) == 4 * (a * b) + d * d;
      assert 0 <= d * d;
    }
    assert (2 * h) * (2 * h) == 4 * (h * h);
  }

  /** One Newton step from an upper bound stays an upper bound, and failing to descend means
      the bound is exact. */
  lemma NewtonStep(n: nat, x: nat)
    requires 1 <= n && 1 <= x && n < (x + 1) * (x + 1)
    ensures 0 <= n / x <= x + 2
    ensures 1 <= (x + n / x) / 2
    ensures n < ((x + n / x) / 2 + 1) * ((x + n / x) / 2 + 1)
    ensures x <= (x + n / x) / 2 ==> x * x <= n
  {
    QuotientAtMost(n, x);
    var q := n / x;
    var y := (x + q) / 2;
    if x == 1 {
      assert q == n;
    }
    MeanBound(x, q + 1, y + 1);
    assert n < x * (q + 1);
    if x <= y {
      MultiplyMonotone(x, q, x);
    }
  }

  lemma SquareGrows(x: nat)
    ensures x * x < (x + 1) * (x + 1)
  {
  }

  lemma Converged(n: uint128, x: nat)
    requires x * x <= n < (x + 1) * (x + 1)
    ensures x == Root(n) && x < 0x1_0000_0000_0000_0000
  {
    RootUnique(x, Root(n), n);
    SquareOrder(x, 0x1_0000_0000_0000_0000);
  }

  /** Newton's iteration from above. It never leaves 128 bits and stops at the exact floor. */
  method IntegerSqrt(n: uint128) returns (x: uint128)
    ensures x == Root(n)
    ensures x < 0x1_0000_0000_0000_0000
  {
    if n == 0 {
      RootUnique(0, Root(0), 0);
      return 0;
    }
    hide IsRoot, PowerOfTwo, BitLength;
    InitialGuess(n);
    x := PowerOfTwo((BitLength(n) + 1) / 2);
    SquareGrows(x);
    while true
      invariant 1 <= x <= 0x1_0000_0000_0000_0000
      invariant n < (x + 1) * (x + 1)
      decreases x
    {
      NewtonStep(n, x);
      var sum: uint128 := x + n / x;
      var y := sum / 2;
      if y >= x {
        Converged(n, x);
        return;
      }
      x := y;
    }
  }
}
