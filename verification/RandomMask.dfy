/** Choosing squares for an automated bet: one pass over random bytes that takes each square with
    the odds still needed, and so always ends with exactly the number asked for. */
module RandomMask {
  import opened Basics
  import opened FixedPoint
  import opened MinerState

  type Mask = s: seq<bool> | |s| == SQUARES witness seq(SQUARES, _ => false)

  function Count(squares: seq<bool>): nat {
    if squares == [] then 0 else Count(squares[..|squares| - 1]) + if squares[|squares| - 1] then 1 else 0
  }

  /** Whether the next square is taken, with `places` squares left to fill `needed`. */
  predicate Takes(needed: nat, byte: uint8, places: nat) {
    needed > 0 && byte * places < needed * 0x100
  }

  function Choose(needed: nat, bytes: seq<uint8>): (chosen: seq<bool>)
    ensures |chosen| == |bytes|
  {
    if bytes == [] then []
    else
      var taken := Takes(needed, bytes[0], |bytes|);
      [taken] + Choose(if taken then needed - 1 else needed, bytes[1..])
  }

  lemma {:induction false} CountPrepend(taken: bool, rest: seq<bool>)
    ensures Count([taken] + rest) == (if taken then 1 else 0) + Count(rest)
    decreases |rest|
  {
    if rest == [] {
      assert Count([taken]) == Count([]) + if taken then 1 else 0;
      assert [taken] + rest == [taken];
    } else {
      var s := [taken] + rest;
      assert s[..|s| - 1] == [taken] + rest[..|rest| - 1];
      CountPrepend(taken, rest[..|rest| - 1]);
    }
  }

  /** When every place left is needed the next one is always taken, so the pass never falls short. */
  lemma LastPlaces(needed: nat, byte: uint8, places: nat)
    requires 0 < places <= needed
    ensures Takes(needed, byte, places)
  {
    assert byte * places < 0x100 * places <= 0x100 * needed;
  }

  lemma {:induction false} ChoosesExactly(needed: nat, bytes: seq<uint8>)
    requires needed <= |bytes|
    ensures Count(Choose(needed, bytes)) == needed
    decreases |bytes|
  {
    if bytes != [] {
      var taken := Takes(needed, bytes[0], |bytes|);
      if needed == |bytes| {
        LastPlaces(needed, bytes[0], |bytes|);
      }
      var left := if taken then needed - 1 else needed;
      ChoosesExactly(left, bytes[1..]);
      CountPrepend(taken, Choose(left, bytes[1..]));
    }
  }

  /** The odds of each square are those still needed over the places left, to within one in 256: so
      many of the 256 bytes take it. */
  lemma FairOdds(needed: nat, byte: uint8, places: nat)
    requires 0 < places
    ensures var odds := (0x100 * needed + places - 1) / places;
      && 0x100 * needed <= odds * places < 0x100 * needed + places
      && (Takes(needed, byte, places) <==> byte < odds)
  {
    var odds := (0x100 * needed + places - 1) / places;
    QuotientBound(0x100 * needed + places - 1, places);
    if byte < odds {
      MultiplyMonotone(byte + 1, odds, places);
    } else {
      MultiplyMonotone(odds, byte, places);
    }
  }

  /** Bytes that select exactly the given squares: zeros take, the largest byte skips. */
  ghost function Picking(squares: seq<bool>): (bytes: seq<uint8>)
    ensures |bytes| == |squares|
  {
    seq(|squares|, i requires 0 <= i < |squares| => if squares[i] then 0 else 0xFF)
  }

  lemma CountAll(squares: seq<bool>)
    ensures Count(squares) <= |squares|
    decreases |squares|
  {
    if squares != [] {
      CountAll(squares[..|squares| - 1]);
    }
  }

  /** Every selection of squares can come up. */
  lemma {:induction false} EverySelectionIsPossible(squares: seq<bool>)
    requires |squares| <= SQUARES
    ensures Choose(Count(squares), Picking(squares)) == squares
    decreases |squares|
  {
    if squares != [] {
      var rest := squares[1..];
      assert squares == [squares[0]] + rest;
      CountPrepend(squares[0], rest);
      CountAll(rest);
      EverySelectionIsPossible(rest);
      assert Picking(squares)[1..] == Picking(rest);
    }
  }

  lemma ChooseNext(needed: nat, bytes: seq<uint8>, i: nat)
    requires i < SQUARES <= |bytes|
    ensures var taken := Takes(needed, bytes[i], SQUARES - i);
      Choose(needed, bytes[i..SQUARES]) == [taken] + Choose(if taken then needed - 1 else needed, bytes[i + 1..SQUARES])
  {
    assert bytes[i..SQUARES][1..] == bytes[i + 1..SQUARES];
  }

  lemma ChooseNothing(needed: nat, bytes: seq<uint8>)
    requires SQUARES <= |bytes|
    ensures Choose(needed, bytes[SQUARES..SQUARES]) == []
  {
  }

  /** Exactly `numSquares` of the 25 squares are selected, whatever the bytes are. */
  method GenerateRandomMask(numSquares: nat, bytes: seq<uint8>) returns (mask: array<bool>)
    requires numSquares <= SQUARES <= |bytes|
    ensures fresh(mask) && mask.Length == SQUARES
    ensures mask[..] == Choose(numSquares, bytes[..SQUARES])
    ensures Count(mask[..]) == numSquares
  {
    hide Choose, Count;
    mask := new bool[SQUARES](_ => false);
    var selected := 0;
    var i := 0;
    while i < SQUARES
      invariant 0 <= i <= SQUARES && 0 <= selected <= numSquares
      invariant forall j :: i <= j < SQUARES ==> !mask[j]
      invariant mask[..i] + Choose(numSquares - selected, bytes[i..SQUARES]) == Choose(numSquares, bytes[..SQUARES])
    {
      var needed := numSquares - selected;
      ChooseNext(needed, bytes, i);
      ghost var before := mask[..i];
      if needed > 0 && bytes[i] * (SQUARES - i) < needed * 0x100 {
        mask[i] := true;
        selected := selected + 1;
      }
      assert mask[..i + 1] == before + [mask[i]];
      i := i + 1;
    }
    assert mask[..SQUARES] == mask[..];
    ChooseNothing(numSquares - selected, bytes);
    ChoosesExactly(numSquares, bytes[..SQUARES]);
  }

  /** The first `n` squares of a mask. */
  ghost function Upto(squares: Mask, n: nat): Mask {
    seq(SQUARES, i requires 0 <= i < SQUARES => i < n && squares[i])
  }

  lemma {:induction false} CountUpdate(squares: seq<bool>, i: nat)
    requires i < |squares| && !squares[i]
    ensures Count(squares[i := true]) == Count(squares) + 1
    decreases |squares|
  {
    var last := |squares| - 1;
    if i < last {
      assert squares[i := true][..last] == squares[..last][i := true];
      CountUpdate(squares[..last], i);
    } else {
      assert squares[i := true][..last] == squares[..last];
    }
  }

  lemma {:induction false} CountNone(squares: seq<bool>)
    requires forall i :: 0 <= i < |squares| ==> !squares[i]
    ensures Count(squares) == 0
    decreases |squares|
  {
    if squares != [] {
      CountNone(squares[..|squares| - 1]);
    }
  }

  lemma UptoGrows(squares: Mask, n: nat)
    requires n < SQUARES
    ensures Upto(squares, n + 1) == if squares[n] then Upto(squares, n)[n := true] else Upto(squares, n)
    ensures Count(Upto(squares, n + 1)) == Count(Upto(squares, n)) + if squares[n] then 1 else 0
  {
    if squares[n] {
      CountUpdate(Upto(squares, n), n);
    }
  }

  lemma UptoStart(squares: Mask)
    ensures Count(Upto(squares, 0)) == 0
    ensures Upto(squares, SQUARES) == squares
  {
    CountNone(Upto(squares, 0));
  }

  /** A prefix holds at most as many squares as the whole, and fewer unless nothing is left. */
  lemma {:induction false} UptoAtMost(squares: Mask, n: nat)
    requires n <= SQUARES
    ensures Count(Upto(squares, n)) <= Count(squares)
    ensures forall j :: n <= j < SQUARES && squares[j] ==> Count(Upto(squares, n)) < Count(squares)
    decreases SQUARES - n
  {
    if n == SQUARES {
      UptoStart(squares);
    } else {
      UptoGrows(squares, n);
      UptoAtMost(squares, n + 1);
    }
  }

  /** A prefix with as many squares as the whole mask is the whole mask. */
  lemma UptoComplete(squares: Mask, n: nat)
    requires n <= SQUARES && Count(Upto(squares, n)) >= Count(squares)
    ensures Upto(squares, n) == squares
  {
    UptoAtMost(squares, n);
  }
}
