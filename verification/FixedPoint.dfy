/** The program's fixed-point number: 48 fractional bits, held as a count of 2^-48. */
module FixedPoint {
  import opened Basics

  const ONE: nat := 0x1_0000_0000_0000

  /** A non-negative I80F48 bit pattern; no factor is ever negative. */
  type Fixed = x: int | 0 <= x < 0x8000_0000_0000_0000_0000_0000_0000_0000

  const FIXED_MAX: Fixed := 0x7FFF_FFFF_FFFF_FFFF_FFFF_FFFF_FFFF_FFFF

  function FromFraction(n: uint64, d: uint64): Result<Fixed> {
    if d == 0 then Err(Panic)
    else
      QuotientBound(n * ONE, d);
      Ok(n * ONE / d)
  }

  function FromUint64(n: uint64): Fixed {
    n * ONE
  }

  function AddFixed(a: Fixed, b: Fixed): Result<Fixed> {
    if a + b <= FIXED_MAX then Ok(a + b) else Err(Panic)
  }

  /** Multiplication truncates to the representable grid. */
  function MultiplyFixed(a: Fixed, b: Fixed): Result<Fixed> {
    ProductNonNegative(a, b);
    var product := a * b / ONE;
    if product <= FIXED_MAX then Ok(product) else Err(Panic)
  }

  function ToUint64(a: Fixed): Result<uint64> {
    if a / ONE <= UINT64_MAX then Ok(a / ONE) else Err(Panic)
  }

  /** A whole number of units bought by `delta` per unit of weight. */
  function Accrued(delta: Fixed, weight: uint64): Result<uint64> {
    var product :- MultiplyFixed(delta, FromUint64(weight));
    ToUint64(product)
  }

  lemma AccruedFloor(delta: Fixed, weight: uint64)
    ensures var exact := delta * weight;
      && 0 <= exact
      && (exact <= FIXED_MAX && exact / ONE <= UINT64_MAX ==> Accrued(delta, weight) == Ok(exact / ONE))
      && (Accrued(delta, weight).Ok? ==> Accrued(delta, weight).value == exact / ONE)
  {
    var exact := delta * weight;
    ProductNonNegative(delta, weight);
    assert delta * FromUint64(weight) == exact * ONE;
    assert exact * ONE / ONE == exact;
  }

  lemma ProductNonNegative(a: int, b: int)
    requires 0 <= a && 0 <= b
    ensures 0 <= a * b
  {
  }

  /** Floor division: the quotient lies in 0..n and its multiple brackets n. */
  lemma QuotientBound(n: int, d: int)
    requires 0 <= n && 1 <= d
    ensures 0 <= n / d <= n
    ensures n / d * d <= n < n / d * d + d
  {
    assert n == n / d * d + n % d;
  }

  /** And only the quotient brackets it so. */
  lemma QuotientIs(n: int, d: int, q: int)
    requires 0 <= n && 1 <= d && q * d <= n < q * d + d
    ensures n / d == q
  {
    QuotientBound(n, d);
    if n / d < q {
      MultiplyMonotone(n / d + 1, q, d);
    }
    if q < n / d {
      MultiplyMonotone(q + 1, n / d, d);
    }
  }
}
