/** The two reward curves of a stake and the lock-duration multiplier they apply to. */
module StakeCurve {
  import opened Basics
  import opened SquareRoot

  const SCALE: uint64 := 1_000_000_000
  const MAX_STAKE_MULTIPLIER: uint64 := 20
  const ONE_DAY: int64 := 86_400
  const ONE_MONTH: int64 := 30 * ONE_DAY
  const MAX_LOCK_DURATION: int64 := 2 * 365 * ONE_DAY

  /** sqrt of a multiplier, both scaled by SCALE, rounded down. */
  ghost function SqrtMultiplier(multiplier: uint64): (r: uint64)
    ensures r * r <= multiplier * SCALE < (r + 1) * (r + 1)
  {
    var root := Root(multiplier * SCALE);
    SquareOrder(root, UINT64_MAX);
    root
  }

  method EffectiveMultiplier(multiplier: uint64) returns (r: uint64)
    ensures r == SqrtMultiplier(multiplier)
  {
    r := IntegerSqrt(multiplier * SCALE);
  }

  lemma SqrtMultiplierIs(multiplier: uint64, r: uint64)
    requires r * r <= multiplier * SCALE < (r + 1) * (r + 1)
    ensures SqrtMultiplier(multiplier) == r
  {
    RootUnique(r, SqrtMultiplier(multiplier), multiplier * SCALE);
  }

  lemma CurveMonotone(m: uint64, n: uint64)
    requires m <= n
    ensures SqrtMultiplier(m) <= SqrtMultiplier(n)
  {
    RootMonotone(m * SCALE, n * SCALE);
  }

  lemma CurveAnchors()
    ensures SqrtMultiplier(0) == 0
    ensures SqrtMultiplier(SCALE) == SCALE
    ensures SqrtMultiplier(4 * SCALE) == 2 * SCALE
    ensures SqrtMultiplier(20 * SCALE) == 4_472_135_954
  {
    SqrtMultiplierIs(0, 0);
    SqrtMultiplierIs(SCALE, SCALE);
    SqrtMultiplierIs(4 * SCALE, 2 * SCALE);
    SqrtMultiplierIs(20 * SCALE, 4_472_135_954);
  }

  /** The curve pulls every multiplier toward 1x. It is strict above 1x everywhere, and below
      1x exactly when the multiplier is at least three grid points away; it leaves 1x itself
      exactly when the multiplier is at least three grid points above. */
  lemma CurveContracts(m: uint64)
    ensures m <= SCALE ==> m <= SqrtMultiplier(m) <= SCALE
    ensures SCALE <= m ==> SCALE <= SqrtMultiplier(m) <= m
    ensures SqrtMultiplier(m) < m <==> SCALE < m
    ensures m < SqrtMultiplier(m) <==> 0 < m <= SCALE - 3
    ensures SCALE < SqrtMultiplier(m) <==> SCALE + 3 <= m
    ensures SqrtMultiplier(m) < SCALE <==> m < SCALE
  {
    var e := SqrtMultiplier(m);
    CurveAnchors();
    if m <= SCALE {
      CurveMonotone(m, SCALE);
      MultiplyMonotone(m, SCALE, m);
      SquareOrder(m, e + 1);
    } else {
      CurveMonotone(SCALE, m);
      MultiplyMonotone(SCALE + 1, m, m);
      SquareOrder(e, m);
    }
    StrictAbove(m, e);
    StrictBelow(m, e);
  }

  lemma StrictAbove(m: uint64, e: uint64)
    requires e == SqrtMultiplier(m)
    ensures SCALE < e <==> SCALE + 3 <= m
    ensures m < SCALE ==> e < SCALE
  {
    if SCALE < e {
      SquareMonotone(SCALE + 1, e);
    }
    if SCALE + 3 <= m {
      SquareOrder(SCALE + 1, e + 1);
    }
    if m < SCALE {
      SquareOrder(e, SCALE);
    }
  }

  lemma StrictBelow(m: uint64, e: uint64)
    requires e == SqrtMultiplier(m)
    ensures m < e <==> 0 < m <= SCALE - 3
  {
    if m < e {
      SquareMonotone(m + 1, e);
      assert (m + 1) * (m + 1) == m * m + 2 * m + 1;
      assert m * (SCALE - 2 - m) == m * SCALE - 2 * m - m * m;
      if SCALE - 2 <= m {
        MultiplyMonotone(SCALE - 2 - m, 0, m);
      }
    }
    if 0 < m <= SCALE - 3 {
      assert m * (SCALE - 2 - m) >= 1;
      assert (m + 1) * (m + 1) == m * m + 2 * m + 1;
      SquareOrder(m + 1, e + 1);
    }
  }

  /** Linear from 1x at no lock to 20x at two years. */
  function StakeMultiplier(lockDuration: int64): (m: uint64)
    ensures SCALE <= m <= MAX_STAKE_MULTIPLIER * SCALE
  {
    var d := Min(Max(lockDuration, 0), MAX_LOCK_DURATION);
    SCALE + (MAX_STAKE_MULTIPLIER - 1) * d * SCALE / MAX_LOCK_DURATION
  }

  lemma LongerLockEarnsMore(a: int64, b: int64)
    requires a <= b
    ensures StakeMultiplier(a) <= StakeMultiplier(b)
  {
  }

  /** And in proportion: the bonus over 1x is nineteen times the part of two years, rounded down. */
  lemma LockIsLinear(lockDuration: int64)
    requires 0 <= lockDuration <= MAX_LOCK_DURATION
    ensures var bonus := StakeMultiplier(lockDuration) - SCALE;
      bonus * MAX_LOCK_DURATION <= 19 * lockDuration * SCALE < bonus * MAX_LOCK_DURATION + MAX_LOCK_DURATION
  {
  }

  lemma LockEndpoints(lockDuration: int64)
    ensures lockDuration <= 0 ==> StakeMultiplier(lockDuration) == SCALE
    ensures MAX_LOCK_DURATION <= lockDuration ==> StakeMultiplier(lockDuration) == 20 * SCALE
  {
  }
}
