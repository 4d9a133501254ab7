/** The two RSSI filters: the trimmed mean of twelve BLE readings, and that of up to five
    Wi-Fi scans, with the spread of what was kept. */
module Filters {
  import opened PackedBits
  import opened Sorting

  function Sum(s: seq<int>): int {
    if s == [] then 0 else Sum(s[..|s| - 1]) + s[|s| - 1]
  }

  /** C division: toward zero. */
  function TruncDiv(a: int, b: nat): int
    requires b > 0
  {
    if a >= 0 then a / b else -((-a) / b)
  }

  lemma {:induction false} SumBetween(s: seq<int>, low: int, high: int)
    requires forall i :: 0 <= i < |s| ==> low <= s[i] <= high
    ensures low * |s| <= Sum(s) <= high * |s|
  {
    if s != [] {
      var n := |s| - 1;
      SumBetween(s[..n], low, high);
      assert low * |s| == low * n + low && high * |s| == high * n + high;
    }
  }

  lemma {:induction false} SumMonotone(s: seq<int>, t: seq<int>)
    requires Below(s, t)
    ensures Sum(s) <= Sum(t)
  {
    if s != [] {
      SumMonotone(s[..|s| - 1], t[..|t| - 1]);
    }
  }

  lemma SumExtend(s: seq<int>, from: nat, to: nat)
    requires from <= to < |s|
    ensures Sum(s[from..to + 1]) == Sum(s[from..to]) + s[to]
  {
    assert s[from..to + 1][..to - from] == s[from..to];
  }

  // The BLE filter.

  const SAMPLES: nat := 12

  function Dbm(codes: seq<Code>): (r: seq<int>)
    ensures |r| == |codes| && forall i :: 0 <= i < |r| ==> r[i] == Decode(codes[i])
  {
    seq(|codes|, i requires 0 <= i < |codes| => Decode(codes[i]))
  }

  function Middle(codes: seq<Code>): (r: seq<int>)
    requires |codes| == SAMPLES
    ensures |r| == 6
  {
    SortBy(Identity, Dbm(codes))[3..9]
  }

  function FilteredRssi(codes: seq<Code>): int
    requires |codes| == SAMPLES
  {
    TruncDiv(Sum(Middle(codes)) - 3, 6)
  }

  function Ring(buffer: seq<bv8>): (codes: seq<Code>)
    requires SAMPLES * RSSI_BITS <= 8 * |buffer|
    ensures |codes| == SAMPLES
    ensures forall i :: 0 <= i < SAMPLES ==> codes[i] == Field(buffer, i, RSSI_BITS)
  {
    assert Pow2(RSSI_BITS) == 128;
    seq(SAMPLES, i requires 0 <= i < SAMPLES => Field(buffer, i, RSSI_BITS))
  }

  method DecodeRing(samples: array<bv8>) returns (dbm: array<int>)
    requires SAMPLES * RSSI_BITS <= 8 * samples.Length
    ensures fresh(dbm) && dbm[..] == Dbm(Ring(samples[..]))
  {
    ghost var ring := Ring(samples[..]);
    dbm := new int[SAMPLES];
    for i := 0 to SAMPLES
      invariant forall k :: 0 <= k < i ==> dbm[k] == Decode(ring[k])
    {
      var code := BitarrayGet(samples, i, RSSI_BITS);
      assert code == ring[i];
      dbm[i] := Decode(code);
    }
  }

  method SumRange(a: array<int>, from: nat, to: nat) returns (sum: int)
    requires from <= to <= a.Length
    ensures sum == Sum(a[from..to])
  {
    sum := 0;
    for i := from to to
      invariant sum == Sum(a[..][from..i])
    {
      SumExtend(a[..], from, i);
      sum := sum + a[i];
    }
    assert a[..][from..to] == a[from..to];
  }

  /** `filtered_rssi`. */
  method FilterRssi(samples: array<bv8>) returns (average: int)
    requires SAMPLES * RSSI_BITS <= 8 * samples.Length
    ensures average == FilteredRssi(Ring(samples[..]))
  {
    var sorted := DecodeRing(samples);
    SortInPlace(sorted);
    var trim := SAMPLES / 4;
    var sum := SumRange(sorted, trim, SAMPLES - trim);
    var count := SAMPLES - 2 * trim;
    average := TruncDiv(sum - count / 2, count);
    assert sorted[3..9] == sorted[..][3..9];
  }

  /** Rounded to the nearest integer, halves away from zero. */
  lemma FilteredRounds(codes: seq<Code>)
    requires |codes| == SAMPLES
    ensures -2 <= Sum(Middle(codes)) - 6 * FilteredRssi(codes) <= 3
  {
    var s := SortBy(Identity, Dbm(codes));
    SortIsSorted(Identity, Dbm(codes));
    forall i | 0 <= i < 6 ensures -127 <= Middle(codes)[i] <= 0 {
      assert s[3 + i] in multiset(s);
      assert s[3 + i] in multiset(Dbm(codes));
    }
    SumBetween(Middle(codes), -127, 0);
  }

  /** No reading beyond the fourth from either end can move the result. */
  lemma FilteredRange(codes: seq<Code>)
    requires |codes| == SAMPLES
    ensures SortBy(Identity, Dbm(codes))[3] <= FilteredRssi(codes) <= SortBy(Identity, Dbm(codes))[8]
  {
    var s := SortBy(Identity, Dbm(codes));
    SortIsSorted(Identity, Dbm(codes));
    forall i | 0 <= i < 6 ensures s[3] <= Middle(codes)[i] <= s[8] {
      assert Identity(s[3]) <= Identity(s[3 + i]) || i == 0;
      assert Identity(s[3 + i]) <= Identity(s[8]) || i == 5;
    }
    SumBetween(Middle(codes), s[3], s[8]);
    FilteredRounds(codes);
  }

  lemma FilteredIgnoresOrder(a: seq<Code>, b: seq<Code>)
    requires |a| == |b| == SAMPLES && multiset(Dbm(a)) == multiset(Dbm(b))
    ensures FilteredRssi(a) == FilteredRssi(b)
  {
    SortIgnoresOrder(Dbm(a), Dbm(b));
  }

  /** Stronger readings never filter to a weaker average. */
  lemma FilteredMonotone(a: seq<Code>, b: seq<Code>)
    requires |a| == |b| == SAMPLES
    requires forall i :: 0 <= i < SAMPLES ==> Decode(a[i]) <= Decode(b[i])
    ensures FilteredRssi(a) <= FilteredRssi(b)
  {
    SortMonotone(Dbm(a), Dbm(b));
    SumMonotone(Middle(a), Middle(b));
    FilteredRounds(a);
    FilteredRounds(b);
  }

  // The Wi-Fi filter.

  const SCANS: nat := 5
  const MIN_VALID: nat := 3

  type Spread = n: nat | n < 128

  datatype Sample = Sample(code: Code, spread: Spread)

  const NoSample: Sample := Sample(MISSING, 0)

  function Valid(codes: seq<Code>): (r: seq<int>)
    ensures |r| <= |codes| && forall i :: 0 <= i < |r| ==> 1 <= r[i] <= 126
  {
    if codes == [] then []
    else
      var last := codes[|codes| - 1];
      Valid(codes[..|codes| - 1]) + (if last == 0 || last >= MISSING then [] else [last])
  }

  function Trim(count: nat): nat {
    count / 4
  }

  function Kept(sorted: seq<int>): seq<int> {
    sorted[Trim(|sorted|)..|sorted| - Trim(|sorted|)]
  }

  /** (sum + count / 2) / count, with the three counts that can be kept written out. */
  function RoundedMean(sum: int, count: nat): int
    requires 1 <= count <= 3
  {
    if count == 1 then sum else if count == 2 then (sum + 1) / 2 else (sum + 1) / 3
  }

  lemma MeanBetween(kept: seq<int>, low: int, high: int)
    requires 0 < |kept| <= 3
    requires forall i :: 0 <= i < |kept| ==> low <= kept[i] <= high
    ensures low <= RoundedMean(Sum(kept), |kept|) <= high
  {
    SumBetween(kept, low, high);
    assert |kept| == 1 || |kept| == 2 || |kept| == 3;
  }

  lemma KeptBounds(scans: seq<int>)
    requires MIN_VALID <= |scans| <= SCANS
    requires forall i :: 0 <= i < |scans| ==> 1 <= scans[i] <= 126
    ensures var kept := Kept(SortBy(Identity, scans));
      && 0 < |kept| <= 3
      && 1 <= kept[0] <= kept[|kept| - 1] <= 126
      && forall i :: 0 <= i < |kept| ==> kept[0] <= kept[i] <= kept[|kept| - 1]
  {
    SortedIndices(scans, 1, 126);
  }

  function FirstScans(codes: seq<Code>): seq<Code> {
    if |codes| > SCANS then codes[..SCANS] else codes
  }

  ghost predicate InRange(scans: seq<int>) {
    forall i :: 0 <= i < |scans| ==> 1 <= scans[i] <= 126
  }

  function FromScans(scans: seq<int>): Sample
    requires |scans| <= SCANS && InRange(scans)
  {
    if |scans| < MIN_VALID then NoSample
    else
      KeptBounds(scans);
      var kept := Kept(SortBy(Identity, scans));
      MeanBetween(kept, kept[0], kept[|kept| - 1]);
      Sample(RoundedMean(Sum(kept), |kept|), kept[|kept| - 1] - kept[0])
  }

  /** `wifi_filter`, as a function. */
  function WifiFilter(codes: seq<Code>): Sample {
    FromScans(Valid(FirstScans(codes)))
  }

  method CollectValid(codes: seq<Code>, sorted: array<int>, count: nat) returns (valid: nat)
    requires count <= |codes| && count <= sorted.Length
    modifies sorted
    ensures valid == |Valid(codes[..count])| <= count
    ensures sorted[..valid] == SortBy(Identity, Valid(codes[..count]))
  {
    valid := 0;
    for i := 0 to count
      invariant valid == |Valid(codes[..i])| <= i
      invariant sorted[..valid] == SortBy(Identity, Valid(codes[..i]))
    {
      ValidStep(codes, i);
      if !(codes[i] >= MISSING || codes[i] == 0) {
        InsertShifting(sorted, valid, codes[i]);
        valid := valid + 1;
      }
    }
  }

  lemma ValidStep(codes: seq<Code>, i: nat)
    requires i < |codes|
    ensures var kept, more := Valid(codes[..i]), Valid(codes[..i + 1]);
      if codes[i] >= MISSING || codes[i] == 0 then more == kept
      else |more| == |kept| + 1 && SortBy(Identity, more) == InsertBy(Identity, SortBy(Identity, kept), codes[i])
  {
    assert codes[..i + 1][..i] == codes[..i];
    var kept, more := Valid(codes[..i]), Valid(codes[..i + 1]);
    if !(codes[i] >= MISSING || codes[i] == 0) {
      assert more == kept + [codes[i]];
      assert more[..|kept|] == kept;
    }
  }

  /** `wifi_filter`, in place on a five-element buffer. */
  method FilterWifi(codes: seq<Code>) returns (sample: Sample)
    ensures sample == WifiFilter(codes)
  {
    hide SortBy, Valid, Kept, Sum, RoundedMean;
    var sorted := new int[SCANS];
    var count := if |codes| > SCANS then SCANS else |codes|;
    assert codes[..count] == FirstScans(codes);
    var valid := CollectValid(codes, sorted, count);
    if valid < MIN_VALID {
      return NoSample;
    }
    var code, spread := TrimmedMean(sorted, valid);
    WifiResult(Valid(FirstScans(codes)), sorted[..valid], code, spread);
    sample := Sample(code, spread);
  }

  method TrimmedMean(sorted: array<int>, valid: nat) returns (code: int, spread: int)
    requires MIN_VALID <= valid <= SCANS == sorted.Length
    ensures var kept := Kept(sorted[..valid]);
      0 < |kept| <= 3 && code == RoundedMean(Sum(kept), |kept|) && spread == kept[|kept| - 1] - kept[0]
  {
    var trim := valid / 4;
    var kept := valid - 2 * trim;
    var sum := SumRange(sorted, trim, valid - trim);
    assert sorted[..valid][trim..valid - trim] == sorted[trim..valid - trim];
    code := RoundedMean(sum, kept);
    spread := sorted[valid - trim - 1] - sorted[trim];
  }

  lemma WifiResult(scans: seq<int>, s: seq<int>, code: int, spread: int)
    requires MIN_VALID <= |scans| <= SCANS && InRange(scans)
    requires s == SortBy(Identity, scans)
    requires 0 < |Kept(s)| <= 3 && code == RoundedMean(Sum(Kept(s)), |Kept(s)|)
    requires spread == Kept(s)[|Kept(s)| - 1] - Kept(s)[0]
    ensures 0 <= code < 128 && 0 <= spread < 128
    ensures FromScans(scans) == Sample(code, spread)
  {
    KeptBounds(scans);
    MeanBetween(Kept(s), Kept(s)[0], Kept(s)[|Kept(s)| - 1]);
  }

  /** A reported sample rests on at least three scans, its code lies between the kept ones,
      and its spread is exactly their range; otherwise nothing is reported. */
  lemma WifiFilterRange(codes: seq<Code>)
    ensures var scans := Valid(FirstScans(codes));
      var r := WifiFilter(codes);
      && (r.code == MISSING <==> |scans| < MIN_VALID)
      && (r.code != MISSING ==>
           var kept := Kept(SortBy(Identity, scans));
           && kept != []
           && kept[0] <= r.code <= kept[0] + r.spread
           && forall i :: 0 <= i < |kept| ==> kept[0] <= kept[i] <= kept[0] + r.spread)
  {
    var scans := Valid(FirstScans(codes));
    if |scans| >= MIN_VALID {
      KeptBounds(scans);
      var kept := Kept(SortBy(Identity, scans));
      MeanBetween(kept, kept[0], kept[|kept| - 1]);
    }
  }

  lemma {:induction false} ValidIgnoresMissing(codes: seq<Code>, x: int)
    ensures multiset(Valid(codes))[x] == if 1 <= x <= 126 then multiset(codes)[x as int] else 0
  {
    hide Valid;
    if codes == [] {
      NoneValid();
    } else {
      var before, last := codes[..|codes| - 1], codes[|codes| - 1];
      assert codes == before + [last];
      ValidIgnoresMissing(before, x);
      ValidLast(before, last);
      CodesMore(before, last, x);
      OneMore(Valid(before), last, x);
    }
  }

  lemma CodesMore(codes: seq<Code>, code: Code, x: int)
    ensures multiset(codes + [code])[x as int] == multiset(codes)[x as int] + (if code == x then 1 else 0)
  {}

  lemma NoneValid()
    ensures Valid([]) == []
  {}

  lemma ValidLast(before: seq<Code>, last: Code)
    ensures Valid(before + [last]) == if last == 0 || last >= MISSING then Valid(before) else Valid(before) + [last]
  {
    assert (before + [last])[..|before|] == before;
  }

  lemma OneMore(s: seq<int>, v: int, x: int)
    ensures multiset(s + [v])[x] == multiset(s)[x] + (if v == x then 1 else 0)
  {}

  lemma ValidSameContents(a: seq<Code>, b: seq<Code>)
    requires multiset(a) == multiset(b)
    ensures multiset(Valid(a)) == multiset(Valid(b))
  {
    forall x ensures multiset(Valid(a))[x] == multiset(Valid(b))[x] {
      ValidIgnoresMissing(a, x);
      ValidIgnoresMissing(b, x);
    }
  }

  lemma FromScansIgnoresOrder(x: seq<int>, y: seq<int>)
    requires |x| <= SCANS && |y| <= SCANS && InRange(x) && InRange(y)
    requires multiset(x) == multiset(y)
    ensures FromScans(x) == FromScans(y)
  {
    assert |x| == |multiset(x)| && |y| == |multiset(y)|;
    SortIgnoresOrder(x, y);
    if |x| >= MIN_VALID {
      KeptBounds(x);
      var kept := Kept(SortBy(Identity, x));
      MeanBetween(kept, kept[0], kept[|kept| - 1]);
      WifiResult(x, SortBy(Identity, x), RoundedMean(Sum(kept), |kept|), kept[|kept| - 1] - kept[0]);
      WifiResult(y, SortBy(Identity, y), RoundedMean(Sum(kept), |kept|), kept[|kept| - 1] - kept[0]);
    }
  }

  /** The order in which five scans arrive does not matter. */
  lemma WifiFilterIgnoresOrder(a: seq<Code>, b: seq<Code>)
    requires |a| <= SCANS && |b| <= SCANS && multiset(a) == multiset(b)
    ensures WifiFilter(a) == WifiFilter(b)
  {
    ValidSameContents(a, b);
    FromScansIgnoresOrder(Valid(a), Valid(b));
  }

  // What the filters mean, without sorting.

  /** No reading of the one is above any of the other. */
  ghost predicate AllBelow(low: seq<int>, high: seq<int>) {
    forall i, j :: 0 <= i < |low| && 0 <= j < |high| ==> low[i] <= high[j]
  }

  lemma InOrder(s: seq<int>)
    requires SortedBy(Identity, s)
    ensures forall i, j :: 0 <= i <= j < |s| ==> s[i] <= s[j]
  {
    forall i, j | 0 <= i <= j < |s| ensures s[i] <= s[j] {
      if i < j { assert Identity(s[i]) <= Identity(s[j]); }
    }
  }

  lemma SortedSplit(s: seq<int>, trim: nat) returns (low: seq<int>, kept: seq<int>, high: seq<int>)
    requires SortedBy(Identity, s) && 2 * trim <= |s|
    ensures low == s[..trim] && kept == s[trim..|s| - trim] && high == s[|s| - trim..]
    ensures low + kept + high == s
    ensures AllBelow(low, kept) && AllBelow(kept, high)
    ensures forall i :: 0 <= i < |kept| ==> kept[0] <= kept[i] <= kept[|kept| - 1]
  {
    InOrder(s);
    hide SortedBy;
    low, kept, high := s[..trim], s[trim..|s| - trim], s[|s| - trim..];
    forall i, j | 0 <= i < |low| && 0 <= j < |kept| ensures low[i] <= kept[j] { assert low[i] == s[i] && kept[j] == s[trim + j]; }
    forall i, j | 0 <= i < |kept| && 0 <= j < |high| ensures kept[i] <= high[j] {
      assert kept[i] == s[trim + i] && high[j] == s[|s| - trim + j];
    }
    forall i | 0 <= i < |kept| ensures kept[0] <= kept[i] <= kept[|kept| - 1] {
      assert kept[i] == s[trim + i] && kept[0] == s[trim] && kept[|kept| - 1] == s[|s| - trim - 1];
    }
  }

  /** The BLE average: three of the twelve readings are put aside on either side, and it is the
      mean of the other six, rounded to the nearest. */
  lemma FilteredMeans(codes: seq<Code>) returns (low: seq<int>, kept: seq<int>, high: seq<int>)
    requires |codes| == SAMPLES
    ensures multiset(low + kept + high) == multiset(Dbm(codes))
    ensures |low| == |high| == 3 && |kept| == 6
    ensures AllBelow(low, kept) && AllBelow(kept, high)
    ensures -2 <= Sum(kept) - 6 * FilteredRssi(codes) <= 3
  {
    SortIsSorted(Identity, Dbm(codes));
    low, kept, high := SortedSplit(SortBy(Identity, Dbm(codes)), 3);
    FilteredRounds(codes);
  }

  /** The mean, halves rounded up, without dividing. */
  predicate RoundsTo(sum: int, count: nat, mean: int) {
    count * mean <= sum + count / 2 < count * (mean + 1)
  }

  lemma MeanRounds(sum: int, count: nat)
    requires 1 <= count <= 3
    ensures RoundsTo(sum, count, RoundedMean(sum, count))
  {
    if count == 1 {
      assert RoundedMean(sum, 1) == sum;
    } else if count == 2 {
      assert RoundedMean(sum, 2) == (sum + 1) / 2;
    } else {
      assert RoundedMean(sum, 3) == (sum + 1) / 3;
    }
  }

  lemma WifiRounds(scans: seq<int>)
    requires 3 <= |scans| <= 5 && InRange(scans)
    ensures var s := SortBy(Identity, scans);
      var kept := s[|s| / 4..|s| - |s| / 4];
      var r := FromScans(scans);
      && 0 < |kept| <= 3 && r.spread == kept[|kept| - 1] - kept[0]
      && RoundsTo(Sum(kept), |kept|, r.code)
  {
    hide SortBy, Sum, RoundedMean, RoundsTo;
    KeptBounds(scans);
    var kept := Kept(SortBy(Identity, scans));
    MeanBetween(kept, kept[0], kept[|kept| - 1]);
    MeanRounds(Sum(kept), |kept|);
  }

  /** A result is missing with fewer than three scans. Otherwise a quarter of them, rounded down,
      is put aside on either side; the spread is the range of the others, and the code their
      mean. */
  ghost predicate Explains(low: seq<int>, kept: seq<int>, high: seq<int>, r: Sample) {
    var n := |low| + |kept| + |high|;
    if n < 3 then r == Sample(127, 0)
    else
      && |low| == |high| == n / 4 && |kept| > 0
      && AllBelow(low, kept) && AllBelow(kept, high)
      && (forall i :: 0 <= i < |kept| ==> kept[0] <= kept[i] <= kept[0] + r.spread)
      && kept[|kept| - 1] == kept[0] + r.spread
      && RoundsTo(Sum(kept), |kept|, r.code)
  }

  lemma SortedSize(scans: seq<int>)
    ensures SortedBy(Identity, SortBy(Identity, scans)) && |SortBy(Identity, scans)| == |scans|
  {
    SortIsSorted(Identity, scans);
    assert |multiset(SortBy(Identity, scans))| == |multiset(scans)|;
  }

  lemma ExplainScans(scans: seq<int>) returns (low: seq<int>, kept: seq<int>, high: seq<int>)
    requires |scans| <= 5 && InRange(scans)
    ensures low + kept + high == SortBy(Identity, scans) && Explains(low, kept, high, FromScans(scans))
  {
    hide SortBy, SortedBy, Explains;
    SortedSize(scans);
    var s := SortBy(Identity, scans);
    low, kept, high := SortedSplit(s, |s| / 4);
    ScansExplained(scans, low, kept, high);
  }

  lemma ScansExplained(scans: seq<int>, low: seq<int>, kept: seq<int>, high: seq<int>)
    requires |scans| <= 5 && InRange(scans) && |SortBy(Identity, scans)| == |scans|
    requires var s := SortBy(Identity, scans);
      low == s[..|s| / 4] && kept == s[|s| / 4..|s| - |s| / 4] && high == s[|s| - |s| / 4..]
    requires AllBelow(low, kept) && AllBelow(kept, high)
    requires forall i :: 0 <= i < |kept| ==> kept[0] <= kept[i] <= kept[|kept| - 1]
    ensures Explains(low, kept, high, FromScans(scans))
  {
    hide SortBy, Sum, FromScans, RoundsTo, AllBelow;
    if |scans| >= 3 {
      WifiRounds(scans);
    } else {
      FewValid(scans);
    }
  }

  /** Of the first five scans the missing ones are left out, and the others explain the result. */
  lemma WifiMeans(codes: seq<Code>) returns (low: seq<int>, kept: seq<int>, high: seq<int>)
    ensures var scans := if |codes| > 5 then codes[..5] else codes;
      forall x :: multiset(low + kept + high)[x] == if 1 <= x <= 126 then multiset(scans)[x as int] else 0
    ensures Explains(low, kept, high, WifiFilter(codes))
  {
    hide SortBy, Valid, SortedBy, FromScans, FirstScans, WifiFilter, Explains;
    var scans := if |codes| > 5 then codes[..5] else codes;
    SortedScans(scans);
    FewScans(codes, scans);
    low, kept, high := ExplainScans(Valid(scans));
  }

  lemma SortedScans(codes: seq<Code>)
    ensures var s := SortBy(Identity, Valid(codes));
      && SortedBy(Identity, s) && |s| == |Valid(codes)| && InRange(Valid(codes))
      && forall x :: multiset(s)[x] == if 1 <= x <= 126 then multiset(codes)[x as int] else 0
  {
    var scans := Valid(codes);
    SortIsSorted(Identity, scans);
    var s := SortBy(Identity, scans);
    assert |s| == |scans| by { assert |multiset(s)| == |multiset(scans)|; }
    forall x ensures multiset(s)[x] == if 1 <= x <= 126 then multiset(codes)[x as int] else 0 {
      ValidIgnoresMissing(codes, x);
    }
  }

  lemma FewScans(codes: seq<Code>, scans: seq<Code>)
    requires scans == if |codes| > 5 then codes[..5] else codes
    ensures |Valid(scans)| <= 5 && WifiFilter(codes) == FromScans(Valid(scans))
  {}

  lemma FewValid(scans: seq<int>)
    requires |scans| < 3 && InRange(scans)
    ensures FromScans(scans) == Sample(127, 0)
  {}
}
