/** A lazily settled pro-rata ledger. A distribution only raises one shared factor; a position
    collects (factor - snapshot) * weight when it is next settled. Stakes, unrefined balances
    and gold balances are all positions of this kind, and differ only in their unit. */
module Accumulator {
  import opened Basics
  import opened MapSums

  datatype Position = Position(settled: nat, snapshot: nat, weight: nat)

  /** What a position holds and has yet to settle, in units of 1/unit: never rounded. */
  ghost function Owed(p: Position, factor: int, unit: int): int {
    p.settled * unit + (factor - p.snapshot) * p.weight
  }

  ghost function OwedMap<K>(book: map<K, Position>, factor: int, unit: int): map<K, int> {
    map k | k in book :: Owed(book[k], factor, unit)
  }

  ghost function WeightMap<K>(book: map<K, Position>): map<K, int> {
    map k | k in book :: book[k].weight
  }

  ghost function TotalOwed<K>(book: map<K, Position>, factor: int, unit: int): int {
    Sum(OwedMap(book, factor, unit))
  }

  ghost function TotalWeight<K>(book: map<K, Position>): int {
    Sum(WeightMap(book))
  }

  ghost function OwedAt<K>(book: map<K, Position>, k: K, factor: int, unit: int): int {
    if k in book then Owed(book[k], factor, unit) else 0
  }

  ghost function WeightAt<K>(book: map<K, Position>, k: K): int {
    if k in book then book[k].weight else 0
  }

  /** Nobody is ahead of the factor, and everything paid, settled or still to be settled was
      funded. */
  ghost predicate Solvent<K>(book: map<K, Position>, factor: int, unit: int, paid: int, funded: int) {
    && (forall k :: k in book ==> book[k].snapshot <= factor)
    && TotalOwed(book, factor, unit) + paid * unit <= funded * unit
  }

  lemma RaiseFactor<K>(book: map<K, Position>, factor: int, later: int, unit: int)
    ensures TotalOwed(book, later, unit) == TotalOwed(book, factor, unit) + (later - factor) * TotalWeight(book)
  {
    var weights := WeightMap(book);
    var gains := Scaled(weights, later - factor);
    SumScale(weights, later - factor);
    forall k | k in book
      ensures OwedMap(book, later, unit)[k] == OwedMap(book, factor, unit)[k] + gains[k]
    {
      Gain(book[k], factor, later, unit);
    }
    SumAdd(OwedMap(book, later, unit), OwedMap(book, factor, unit), gains);
  }

  lemma Gain(p: Position, factor: int, later: int, unit: int)
    ensures Owed(p, later, unit) == Owed(p, factor, unit) + (later - factor) * p.weight
  {
  }

  lemma PutPosition<K>(book: map<K, Position>, k: K, p: Position, factor: int, unit: int)
    ensures TotalOwed(book[k := p], factor, unit)
         == TotalOwed(book, factor, unit) - OwedAt(book, k, factor, unit) + Owed(p, factor, unit)
    ensures TotalWeight(book[k := p]) == TotalWeight(book) - WeightAt(book, k) + p.weight
  {
    assert OwedMap(book[k := p], factor, unit) == OwedMap(book, factor, unit)[k := Owed(p, factor, unit)];
    assert WeightMap(book[k := p]) == WeightMap(book)[k := p.weight];
    SumPut(OwedMap(book, factor, unit), k, Owed(p, factor, unit));
    SumPut(WeightMap(book), k, p.weight);
  }

  lemma DropPosition<K>(book: map<K, Position>, k: K, factor: int, unit: int)
    ensures TotalOwed(book - {k}, factor, unit) == TotalOwed(book, factor, unit) - OwedAt(book, k, factor, unit)
    ensures TotalWeight(book - {k}) == TotalWeight(book) - WeightAt(book, k)
  {
    assert OwedMap(book - {k}, factor, unit) == OwedMap(book, factor, unit) - {k};
    assert WeightMap(book - {k}) == WeightMap(book) - {k};
    SumRemove(OwedMap(book, factor, unit), k);
    SumRemove(WeightMap(book), k);
  }

  lemma OwedNonNegative(p: Position, factor: int, unit: int)
    requires p.snapshot <= factor && 0 <= unit
    ensures 0 <= Owed(p, factor, unit)
  {
  }

  /** The factor rises by the floor of amount * unit / total, and not at all over no weight. */
  ghost predicate FloorShare(delta: int, total: int, amount: int, unit: int) {
    && 0 <= delta
    && (total == 0 ==> delta == 0 && amount == 0)
    && (total > 0 ==> delta * total <= amount * unit < delta * total + total)
  }

  /** A distribution of `amount` that raises the factor by its floor share over at least the
      recorded weight is covered. */
  lemma SolventDistribute<K>(book: map<K, Position>, factor: int, later: int, unit: int, paid: int, funded: int, amount: int, total: nat)
    requires Solvent(book, factor, unit, paid, funded)
    requires 0 <= TotalWeight(book) <= total && FloorShare(later - factor, total, amount, unit)
    ensures Solvent(book, later, unit, paid, funded + amount)
  {
    RaiseFactor(book, factor, later, unit);
    Distribute(unit, funded, amount);
    FloorShareCost(later - factor, TotalWeight(book), total, amount, unit);
  }

  lemma FloorShareCost(delta: int, weight: nat, total: int, amount: int, unit: int)
    requires FloorShare(delta, total, amount, unit) && weight <= total
    ensures delta * weight <= amount * unit
  {
    MultiplyMonotone(weight, total, delta);
  }

  /** A step on one position keeps the ledger solvent when what the position is owed falls by
      at least what the step pays out. */
  lemma SolventPut<K>(book: map<K, Position>, factor: int, unit: int, paid: int, funded: int, k: K, p: Position, payment: int)
    requires Solvent(book, factor, unit, paid, funded)
    requires p.snapshot <= factor
    requires Owed(p, factor, unit) + payment * unit <= OwedAt(book, k, factor, unit)
    ensures Solvent(book[k := p], factor, unit, paid + payment, funded)
  {
    PutPosition(book, k, p, factor, unit);
    Distribute(unit, paid, payment);
  }

  /** Funding and payment may rise together. */
  lemma SolventShift<K>(book: map<K, Position>, factor: int, unit: int, paid: int, funded: int, amount: int)
    requires Solvent(book, factor, unit, paid, funded)
    ensures Solvent(book, factor, unit, paid + amount, funded + amount)
  {
    Distribute(unit, paid, amount);
    Distribute(unit, funded, amount);
  }

  lemma SolventDrop<K>(book: map<K, Position>, factor: int, unit: int, paid: int, funded: int, k: K, payment: int)
    requires Solvent(book, factor, unit, paid, funded)
    requires payment * unit <= OwedAt(book, k, factor, unit)
    ensures Solvent(book - {k}, factor, unit, paid + payment, funded)
  {
    DropPosition(book, k, factor, unit);
    Distribute(unit, paid, payment);
  }

  /** One position can absorb another. */
  lemma SolventMerge<K>(book: map<K, Position>, factor: int, unit: int, paid: int, funded: int, k: K, j: K, p: Position)
    requires Solvent(book, factor, unit, paid, funded)
    requires k != j && p.snapshot <= factor
    requires Owed(p, factor, unit) <= OwedAt(book, k, factor, unit) + OwedAt(book, j, factor, unit)
    ensures Solvent((book - {j})[k := p], factor, unit, paid, funded)
    ensures TotalWeight((book - {j})[k := p]) == TotalWeight(book) - WeightAt(book, k) - WeightAt(book, j) + p.weight
  {
    DropPosition(book, j, factor, unit);
    PutPosition(book - {j}, k, p, factor, unit);
  }

  /** In a solvent ledger no single position is owed more than what is left of the funding. */
  lemma OwedCovered<K>(book: map<K, Position>, factor: int, unit: int, paid: int, funded: int, k: K)
    requires Solvent(book, factor, unit, paid, funded) && 0 <= unit
    ensures OwedAt(book, k, factor, unit) + paid * unit <= funded * unit
  {
    forall j | j in book ensures 0 <= OwedMap(book, factor, unit)[j] {
      OwedNonNegative(book[j], factor, unit);
    }
    SumCovers(OwedMap(book, factor, unit), k);
  }

  ghost predicate SettledWithin<K>(book: map<K, Position>, factor: int, unit: int, settled: map<K, int>) {
    && settled.Keys == book.Keys
    && forall k :: k in book ==> settled[k] * unit <= Owed(book[k], factor, unit)
  }

  /** Settling every position at once, rounded however it may be, stays within the funding. */
  lemma SettleAllCovered<K>(book: map<K, Position>, factor: int, unit: int, paid: int, funded: int, settled: map<K, int>)
    requires Solvent(book, factor, unit, paid, funded) && 0 < unit
    requires SettledWithin(book, factor, unit, settled)
    ensures paid + Sum(settled) <= funded
  {
    SettleAllBound(book, factor, unit, settled);
    WithinFunding(TotalOwed(book, factor, unit), Sum(settled), paid, funded, unit);
  }

  lemma SettleAllBound<K>(book: map<K, Position>, factor: int, unit: int, settled: map<K, int>)
    requires SettledWithin(book, factor, unit, settled)
    ensures unit * Sum(settled) <= TotalOwed(book, factor, unit)
  {
    var scaled := Scaled(settled, unit);
    var owed := OwedMap(book, factor, unit);
    SumScale(settled, unit);
    forall k | k in scaled ensures scaled[k] <= owed[k] {
      assert settled[k] * unit <= Owed(book[k], factor, unit);
    }
    SumMonotone(scaled, owed);
  }

  lemma WithinFunding(owed: int, settled: int, paid: int, funded: int, unit: int)
    requires 0 < unit && unit * settled <= owed && owed + paid * unit <= funded * unit
    ensures paid + settled <= funded
  {
    if funded < paid + settled {
      MultiplyMonotone(funded + 1, paid + settled, unit);
    }
  }

  lemma WeightCovered<K>(book: map<K, Position>, k: K)
    ensures 0 <= WeightAt(book, k) <= TotalWeight(book)
  {
    SumCovers(WeightMap(book), k);
  }

  lemma TotalWeightNonNegative<K>(book: map<K, Position>)
    ensures 0 <= TotalWeight(book)
  {
    SumNonNegative(WeightMap(book));
  }

  /** A step that moves a position which carries weight up to a later factor. */
  ghost predicate Settles(p: Position, q: Position) {
    q.snapshot != p.snapshot && 0 < p.weight
  }

  /** One step on one position that takes `taken` from it. Its weight changes only when it is settled;
      what it is owed falls by exactly what is taken, and when it settles by at most `loss` more. */
  ghost predicate Carried(p: Position, q: Position, factor: int, unit: int, taken: int, loss: int) {
    && (q.snapshot == p.snapshot || q.snapshot == factor)
    && (q.weight == p.weight || q.snapshot == factor)
    && Owed(q, factor, unit) + taken * unit <= Owed(p, factor, unit)
    && Owed(p, factor, unit) <= Owed(q, factor, unit) + taken * unit + if Settles(p, q) then loss else 0
  }

  lemma IdleCarried(p: Position, factor: int, unit: int, loss: int)
    ensures Carried(p, p, factor, unit, 0, loss)
  {
    hide Owed;
  }

  /** A settlement of a position up to the factor. */
  lemma SettledCarried(p: Position, factor: int, unit: int, share: nat, loss: int)
    requires p.snapshot < factor && share * unit <= (factor - p.snapshot) * p.weight <= share * unit + loss
    requires p.weight == 0 ==> share == 0
    ensures Carried(p, Position(p.settled + share, factor, p.weight), factor, unit, 0, loss)
  {
    Distribute(unit, p.settled, share);
  }

  /** Steps compose: only the first that moves the snapshot can lose anything. */
  lemma CarriedChain(p: Position, q: Position, r: Position, factor: int, unit: int, a: int, b: int, loss: int, later: int)
    requires Carried(p, q, factor, unit, a, loss) && Carried(q, r, factor, unit, b, later)
    requires q.snapshot == p.snapshot ==> later == loss
    requires 0 <= loss
    ensures Carried(p, r, factor, unit, a + b, loss)
  {
    hide Owed;
    Distribute(unit, a, b);
  }
}
