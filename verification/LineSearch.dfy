/** Comparing pairs of Wi-Fi batches: what counts as a gain, a decline and a recovery. A code
    is a magnitude, so a smaller code is a stronger signal. */
module LineSearch {
  import opened PackedBits
  import opened Filters
  import opened Sorting

  const MIN_PROGRESS_DB: int := 3
  const REFERENCE_POSITIONS: nat := 3

  datatype Pair = Pair(first: Sample, second: Sample)

  const MissingPair: Pair := Pair(NoSample, NoSample)

  function Max(a: int, b: int): int {
    if a > b then a else b
  }

  function Min(a: int, b: int): int {
    if a < b then a else b
  }

  predicate ValidPair(p: Pair) {
    p.first.code != MISSING && p.second.code != MISSING
  }

  /** The code of the stronger and of the weaker batch. */
  function Stronger(p: Pair): int {
    Min(p.first.code, p.second.code)
  }

  function Weaker(p: Pair): int {
    Max(p.first.code, p.second.code)
  }

  function Widest(p: Pair): int {
    Max(p.first.spread, p.second.spread)
  }

  function ReturnMargin(previous: Sample, current: Sample): int {
    Max(previous.spread + current.spread + 1, MIN_PROGRESS_DB)
  }

  function PairMargin(previous: Pair, current: Pair): int {
    Max(Max(Widest(previous), Widest(current)) + 1, MIN_PROGRESS_DB)
  }

  function Reference(p: Pair): Sample {
    if !ValidPair(p) then NoSample
    else
      var spread := Widest(p) + Weaker(p) - Stronger(p);
      Sample(Weaker(p), Min(spread, 125))
  }

  function ConfirmedGain(previous: Pair, current: Pair): int {
    if !ValidPair(previous) || !ValidPair(current) then 0
    else Stronger(previous) - Weaker(current)
  }

  function Compare(previous: Pair, current: Pair): int {
    if !ValidPair(previous) || !ValidPair(current) then 0
    else
      var margin := PairMargin(previous, current);
      if ConfirmedGain(previous, current) >= margin then 1
      else if ConfirmedGain(current, previous) >= margin then -1
      else 0
  }

  predicate ReferenceDeclined(reference: Pair, current: Pair) {
    ValidPair(reference) && ValidPair(current) &&
    ConfirmedGain(current, reference) > PairMargin(reference, current)
  }

  predicate ReturnConsistent(best: Pair, returned: Pair) {
    && ValidPair(best) && ValidPair(returned)
    && Weaker(returned) - Stronger(returned) <= ReturnMargin(returned.first, returned.second)
    && returned.first.code - Reference(best).code <= ReturnMargin(Reference(best), returned.first)
    && returned.second.code - Reference(best).code <= ReturnMargin(Reference(best), returned.second)
  }

  // "Confirmed stronger" is a strict partial order, although its margin changes with the
  // spread of the pairs compared.

  lemma CompareAntisymmetric(a: Pair, b: Pair)
    ensures Compare(a, b) == -Compare(b, a)
  {}

  lemma CompareTransitive(a: Pair, b: Pair, c: Pair)
    requires Compare(a, b) > 0 && Compare(b, c) > 0
    ensures Compare(a, c) > 0
    ensures ConfirmedGain(a, c) >= ConfirmedGain(a, b) + ConfirmedGain(b, c)
  {}

  /** A confirmed gain is a gain of the weaker batch, and by at least the progress margin. */
  lemma CompareStrengthens(a: Pair, b: Pair)
    requires Compare(a, b) > 0
    ensures Weaker(b) + MIN_PROGRESS_DB <= Weaker(a)
  {}

  lemma GainStrengthens(a: Pair, b: Pair)
    requires ConfirmedGain(a, b) > 0
    ensures ValidPair(a) && ValidPair(b) && Weaker(b) < Stronger(a) <= Weaker(a)
  {}

  /** A position that has declined from the reference is not also a gain on it. */
  lemma DeclinedNotStronger(reference: Pair, current: Pair)
    requires ReferenceDeclined(reference, current)
    ensures Compare(reference, current) < 0 && ConfirmedGain(reference, current) < 0
  {}

  // The same without margins: batch against batch, spread by spread.

  function Codes(p: Pair): seq<int> {
    [p.first.code, p.second.code]
  }

  /** Either batch of b is stronger than either batch of a, by so many dB at least. */
  predicate StrongerBy(a: Pair, b: Pair, db: int) {
    forall i, j :: 0 <= i < 2 && 0 <= j < 2 ==> Codes(a)[i] - Codes(b)[j] >= db
  }

  /** By more than every spread, and so many dB beyond it at least. */
  predicate StrongerBeyond(a: Pair, b: Pair, db: int) {
    && StrongerBy(a, b, a.first.spread + db) && StrongerBy(a, b, a.second.spread + db)
    && StrongerBy(a, b, b.first.spread + db) && StrongerBy(a, b, b.second.spread + db)
  }

  /** Better: both batches beat both batches by 3 dB and by more than every spread. */
  lemma BetterMeans(a: Pair, b: Pair)
    ensures Compare(a, b) > 0 <==>
      ValidPair(a) && ValidPair(b) && StrongerBy(a, b, 3) && StrongerBeyond(a, b, 1)
  {
    StrongerByCodes(a, b);
  }

  /** Declined: both batches fall behind both batches by more than 3 dB and by more than every
      spread and 1 dB for rounding. */
  lemma DeclinedMeans(reference: Pair, current: Pair)
    ensures ReferenceDeclined(reference, current) <==>
      ValidPair(reference) && ValidPair(current) && StrongerBy(current, reference, 4) && StrongerBeyond(current, reference, 2)
  {
    StrongerByCodes(current, reference);
  }

  lemma StrongerByCodes(a: Pair, b: Pair)
    ensures forall db :: StrongerBy(a, b, db) <==> Stronger(a) - Weaker(b) >= db
  {
    forall db ensures StrongerBy(a, b, db) <==> Stronger(a) - Weaker(b) >= db {
      assert StrongerBy(a, b, db) ==> Codes(a)[0] - Codes(b)[0] >= db && Codes(a)[0] - Codes(b)[1] >= db
                                      && Codes(a)[1] - Codes(b)[0] >= db && Codes(a)[1] - Codes(b)[1] >= db;
    }
  }

  /** Consistent: the two batches agree, and each is no weaker than some batch of the best
      point, within 3 dB or their spreads and 1 dB; for the best point that is its wider spread
      and the disagreement of its batches, 125 dB at most. */
  lemma ConsistentMeans(best: Pair, returned: Pair)
    ensures ReturnConsistent(best, returned) <==>
      && ValidPair(best) && ValidPair(returned)
      && var a, b := returned.first, returned.second;
         var apart := if a.code < b.code then b.code - a.code else a.code - b.code;
         var wide := (if best.first.spread < best.second.spread then best.second.spread else best.first.spread)
                     + (if best.first.code < best.second.code then best.second.code - best.first.code else best.first.code - best.second.code);
         && (apart <= 3 || apart <= a.spread + b.spread + 1)
         && (exists k :: 0 <= k < 2 && Within(a, Codes(best)[k], wide))
         && (exists k :: 0 <= k < 2 && Within(b, Codes(best)[k], wide))
  {
    if ValidPair(best) {
      var wide := (if best.first.spread < best.second.spread then best.second.spread else best.first.spread)
                  + (if best.first.code < best.second.code then best.second.code - best.first.code else best.first.code - best.second.code);
      WithinSome(best, returned.first, wide);
      WithinSome(best, returned.second, wide);
    }
  }

  predicate Within(s: Sample, code: int, wide: int) {
    s.code - code <= 3 || s.code - code <= (if wide < 125 then wide else 125) + s.spread + 1
  }

  lemma WithinSome(best: Pair, s: Sample, wide: int)
    requires ValidPair(best) && wide == Widest(best) + Weaker(best) - Stronger(best)
    ensures (exists k :: 0 <= k < 2 && Within(s, Codes(best)[k], wide))
            <==> s.code - Reference(best).code <= ReturnMargin(Reference(best), s)
  {
    assert Codes(best)[0] == Weaker(best) || Codes(best)[1] == Weaker(best);
    if s.code - Reference(best).code <= ReturnMargin(Reference(best), s) {
      var k := if Codes(best)[0] == Weaker(best) then 0 else 1;
      assert Within(s, Codes(best)[k], wide);
    }
  }

  predicate DeclinedAndConsistent(reference: Pair, current: Pair) {
    ReferenceDeclined(reference, current) && ReturnConsistent(reference, current)
  }

  /** "Declined" and "recovered" use different margins and are not exclusive. They can hold of
      one reading exactly when both recovery margins are wider than the decline margin, and
      there is room above the reference for a valid weaker code. */
  lemma DeclinedCanBeConsistent(reference: Pair, spread1: Spread, spread2: Spread)
    requires ValidPair(reference)
    ensures (exists a: Code, b: Code :: DeclinedAndConsistent(reference, Pair(Sample(a, spread1), Sample(b, spread2))))
      <==> var probe := Pair(Sample(0, spread1), Sample(0, spread2));
           var margin := PairMargin(reference, probe);
           && margin < ReturnMargin(Reference(reference), probe.first)
           && margin < ReturnMargin(Reference(reference), probe.second)
           && Weaker(reference) + margin + 1 < MISSING
  {
    var probe := Pair(Sample(0, spread1), Sample(0, spread2));
    var margin := PairMargin(reference, probe);
    if margin < ReturnMargin(Reference(reference), probe.first)
       && margin < ReturnMargin(Reference(reference), probe.second)
       && Weaker(reference) + margin + 1 < MISSING
    {
      var c: Code := Weaker(reference) + margin + 1;
      assert DeclinedAndConsistent(reference, Pair(Sample(c, spread1), Sample(c, spread2)));
    }
  }

  /** A concrete reading that is both: the reference batches lie 4 dB apart. */
  lemma DeclinedAndConsistentExample()
    ensures DeclinedAndConsistent(Pair(Sample(50, 0), Sample(54, 0)), Pair(Sample(58, 0), Sample(58, 0)))
  {}

  // The median reference.

  function Rank(p: Pair): int {
    Reference(p).code
  }

  function MedianReference(samples: seq<Pair>): Pair
    requires |samples| == REFERENCE_POSITIONS
  {
    if ValidPair(samples[0]) && ValidPair(samples[1]) && ValidPair(samples[2]) then SortBy(Rank, samples)[1]
    else MissingPair
  }

  /** `line_median_reference`. */
  method MedianOf(samples: seq<Pair>) returns (median: Pair)
    requires |samples| == REFERENCE_POSITIONS
    ensures median == MedianReference(samples)
  {
    var valid, sorted := SortValid(samples);
    median := if valid then sorted[1] else MissingPair;
  }

  /** The insertion sort of `line_median_reference`, by adjacent swaps; it gives up at the
      first pair with a missing batch. */
  method SortValid(samples: seq<Pair>) returns (valid: bool, sorted: array<Pair>)
    ensures valid <==> forall k :: 0 <= k < |samples| ==> ValidPair(samples[k])
    ensures valid ==> sorted[..] == SortBy(Rank, samples)
  {
    sorted := new Pair[|samples|];
    for i := 0 to |samples|
      invariant forall k :: 0 <= k < i ==> ValidPair(samples[k])
      invariant sorted[..i] == SortBy(Rank, samples[..i])
    {
      if !ValidPair(samples[i]) {
        return false, sorted;
      }
      SortSnoc(Rank, samples, i);
      InsertSwapping(Rank, sorted, i, samples[i]);
    }
    valid := true;
    assert samples[..|samples|] == samples && sorted[..|samples|] == sorted[..];
  }

  /** The median is one of the measured positions, kept whole, and no other choice of the
      three ranks between the others. */
  lemma MedianIsMiddle(samples: seq<Pair>)
    requires |samples| == REFERENCE_POSITIONS
    requires forall i :: 0 <= i < |samples| ==> ValidPair(samples[i])
    ensures var m := MedianReference(samples);
      && m in samples
      && (exists low: Pair, high: Pair :: multiset(samples) == multiset{low, m, high} && Rank(low) <= Rank(m) <= Rank(high))
  {
    var s := SortBy(Rank, samples);
    SortIsSorted(Rank, samples);
    assert s == [s[0], s[1], s[2]];
    assert multiset(samples) == multiset{s[0], s[1], s[2]};
    assert s[1] in multiset(samples);
    assert Rank(s[0]) <= Rank(s[1]) <= Rank(s[2]);
  }
}
