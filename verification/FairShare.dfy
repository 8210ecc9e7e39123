/** The eager ledger the accumulator stands for: it hands every position amount * weight / total
    at the very moment of each distribution, with no rounding at all. */
module FairShare {
  import opened Accumulator
  import opened Basics

  /** A position's eager account: its exact share, how often its lazy twin was moved up to a later
      factor, and the sum of its weights over the distributions it took part in. */
  datatype Fair = Fair(share: real, settlements: nat, slack: nat)

  const NEWCOMER := Fair(0.0, 0, 0)

  /** The most that flooring can have cost so far, in units of 1/unit. */
  ghost function Loss(fair: Fair, unit: nat): int {
    fair.settlements * (unit - 1) + fair.slack
  }

  /** The lazy side never leads the eager one, and trails it by less than one whole unit per
      settlement plus weight/unit per distribution. */
  ghost predicate Tracks(p: Position, factor: int, unit: nat, fair: Fair) {
    && Owed(p, factor, unit) as real <= fair.share * unit as real
    && fair.share * unit as real <= (Owed(p, factor, unit) + Loss(fair, unit)) as real
  }

  ghost function Credit(fair: Fair, weight: nat, amount: nat, total: nat): Fair
    requires 0 < total
  {
    Fair(fair.share + weight as real * amount as real / total as real, fair.settlements, fair.slack + weight)
  }

  lemma ShareBounds(weight: nat, amount: nat, total: nat, unit: nat, delta: nat)
    requires 0 < total
    requires delta * total <= amount * unit < delta * total + total
    ensures (delta * weight) as real <= weight as real * amount as real / total as real * unit as real
    ensures weight as real * amount as real / total as real * unit as real <= (delta * weight + weight) as real
  {
    var exact := weight as real * amount as real / total as real * unit as real;
    ExactShare(weight, amount, total, unit);
    MultiplyMonotone(delta * total, amount * unit, weight);
    MultiplyMonotone(amount * unit, delta * total + total, weight);
    Associate(delta, weight, total);
    Associate(delta + 1, weight, total);
    assert (delta + 1) * total == delta * total + total && (delta + 1) * weight == delta * weight + weight;
    Divide((delta * weight) as real, exact, total as real);
    Divide(exact, (delta * weight + weight) as real, total as real);
  }

  lemma ExactShare(weight: nat, amount: nat, total: nat, unit: nat)
    requires 0 < total
    ensures weight as real * amount as real / total as real * unit as real * total as real == (amount * unit * weight) as real
  {
    var share := weight as real * amount as real / total as real;
    assert share * total as real == weight as real * amount as real;
    assert share * unit as real * total as real == share * total as real * unit as real;
    Associate(weight, unit, amount);
    RealProduct(weight, unit);
    assert weight * amount * unit == amount * unit * weight;
    Swap(weight as real, unit as real, amount as real);
  }

  lemma Swap(a: real, b: real, c: real)
    ensures a * b * c == a * c * b
  {
  }

  lemma Associate(a: int, b: int, c: int)
    ensures (a * b) as real * c as real == (a * c * b) as real
  {
    RealProduct(a * b, c);
    assert a * b * c == a * c * b;
  }

  lemma Divide(a: real, b: real, t: real)
    requires 0.0 < t && a * t <= b * t
    ensures a <= b
  {
  }

  /** A distribution moves both sides together, up to the floor taken on the factor. */
  lemma TracksDistribution(p: Position, factor: int, unit: nat, fair: Fair, delta: nat, amount: nat, total: nat)
    requires 0 < total && Tracks(p, factor, unit, fair)
    requires delta * total <= amount * unit < delta * total + total
    ensures Tracks(p, factor + delta, unit, Credit(fair, p.weight, amount, total))
  {
    ShareBounds(p.weight, amount, total, unit, delta);
    Gain(p, factor, factor + delta, unit);
    Spread(fair.share, p.weight as real * amount as real / total as real, 0.0, unit as real);
    TracksRise(p, factor, factor + delta, unit, fair, Credit(fair, p.weight, amount, total), delta * p.weight,
               p.weight as real * amount as real / total as real * unit as real);
  }

  lemma TracksRise(p: Position, factor: int, later: int, unit: nat, fair: Fair, next: Fair, rise: int, gain: real)
    requires Tracks(p, factor, unit, fair) && Owed(p, later, unit) == Owed(p, factor, unit) + rise
    requires rise as real <= gain <= (rise + p.weight) as real
    requires next.share * unit as real == fair.share * unit as real + gain
    requires next.slack == fair.slack + p.weight && next.settlements == fair.settlements
    ensures Tracks(p, later, unit, next)
  {
    hide Owed;
  }

  /** A settlement may lose less than one unit to the floor, and `extra` besides. */
  lemma TracksSettlement(p: Position, q: Position, factor: int, unit: nat, fair: Fair, extra: nat)
    requires Tracks(p, factor, unit, fair)
    requires Owed(p, factor, unit) - (unit - 1) - extra <= Owed(q, factor, unit) <= Owed(p, factor, unit)
    ensures Tracks(q, factor, unit, Settled(fair, extra))
  {
    assert (fair.settlements + 1) * (unit - 1) == fair.settlements * (unit - 1) + (unit - 1);
  }

  ghost function Settled(fair: Fair, extra: nat): Fair {
    Fair(fair.share, fair.settlements + 1, fair.slack + extra)
  }

  /** Two eager accounts together, after `settled` more settlements. */
  ghost function Pooled(a: Fair, b: Fair, settled: nat): Fair {
    Fair(a.share + b.share, a.settlements + b.settlements + settled, a.slack + b.slack)
  }

  /** A merge settles what is unsettled of both parts, each losing less than one unit. */
  lemma TracksMerge(p: Position, q: Position, merged: Position, factor: int, unit: nat, a: Fair, b: Fair, settled: nat)
    requires Tracks(p, factor, unit, a) && Tracks(q, factor, unit, b)
    requires Owed(p, factor, unit) + Owed(q, factor, unit) - settled * (unit - 1) <= Owed(merged, factor, unit)
    requires Owed(merged, factor, unit) <= Owed(p, factor, unit) + Owed(q, factor, unit)
    ensures Tracks(merged, factor, unit, Pooled(a, b, settled))
  {
    hide Owed, Loss;
    LossPooled(a, b, settled, unit);
    SharePooled(a, b, settled, unit as real);
    Added(Owed(p, factor, unit), Owed(q, factor, unit), Owed(merged, factor, unit), Loss(a, unit), Loss(b, unit),
          settled * (unit - 1), a.share * unit as real, b.share * unit as real);
  }

  lemma Added(p: int, q: int, merged: int, lossP: int, lossQ: int, lost: int, shareP: real, shareQ: real)
    requires p as real <= shareP <= (p + lossP) as real && q as real <= shareQ <= (q + lossQ) as real
    requires p + q - lost <= merged <= p + q
    ensures merged as real <= shareP + shareQ <= (merged + (lossP + lossQ + lost)) as real
  {
  }

  lemma LossPooled(a: Fair, b: Fair, settled: nat, unit: nat)
    ensures Loss(Pooled(a, b, settled), unit) == Loss(a, unit) + Loss(b, unit) + settled * (unit - 1)
  {
    assert (a.settlements + b.settlements + settled) * (unit - 1)
        == a.settlements * (unit - 1) + b.settlements * (unit - 1) + settled * (unit - 1);
  }

  lemma SharePooled(a: Fair, b: Fair, settled: nat, unit: real)
    ensures Pooled(a, b, settled).share * unit == a.share * unit + b.share * unit
  {
  }

  lemma RealProduct(a: int, b: int)
    ensures (a * b) as real == a as real * b as real
  {
  }

  lemma Spread(a: real, b: real, c: real, u: real)
    ensures (a + b + c) * u == a * u + b * u + c * u
  {
  }

  /** What `Tracks` means for a position that has just been settled. */
  lemma SettledShare(p: Position, factor: int, unit: nat, fair: Fair)
    requires 0 < unit && p.snapshot == factor && Tracks(p, factor, unit, fair)
    ensures p.settled as real <= fair.share
    ensures fair.share <= p.settled as real + Loss(fair, unit) as real / unit as real
  {
    hide Loss;
    var u := unit as real;
    var lost := Loss(fair, unit) as real / u;
    RealProduct(p.settled, unit);
    Divide(p.settled as real, fair.share, u);
    Spread(p.settled as real, lost, 0.0, u);
    assert lost * u == Loss(fair, unit) as real;
    Divide(fair.share, p.settled as real + lost, u);
  }
}
