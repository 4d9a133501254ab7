/** The insertion sort that the filters and the median reference share, as a function:
    a value moves left past every strictly larger one, so equal values keep their order. */
module Sorting {

  type Key<!T> = T -> int

  function InsertBy<T>(key: Key<T>, s: seq<T>, v: T): (r: seq<T>)
    ensures |r| == |s| + 1
  {
    var n := |s|;
    if n == 0 || key(s[n - 1]) <= key(v) then s + [v]
    else InsertBy(key, s[..n - 1], v) + [s[n - 1]]
  }

  function SortBy<T>(key: Key<T>, s: seq<T>): (r: seq<T>)
    ensures |r| == |s|
  {
    if s == [] then [] else InsertBy(key, SortBy(key, s[..|s| - 1]), s[|s| - 1])
  }

  ghost predicate SortedBy<T>(key: Key<T>, s: seq<T>) {
    forall i, j :: 0 <= i < j < |s| ==> key(s[i]) <= key(s[j])
  }

  lemma {:induction false} InsertKeepsContents<T>(key: Key<T>, s: seq<T>, v: T)
    ensures multiset(InsertBy(key, s, v)) == multiset(s) + multiset{v}
  {
    var n := |s|;
    if n > 0 && key(s[n - 1]) > key(v) {
      InsertKeepsContents(key, s[..n - 1], v);
      assert s == s[..n - 1] + [s[n - 1]];
    }
  }

  lemma {:induction false} InsertBounded<T>(key: Key<T>, s: seq<T>, v: T, bound: int)
    requires key(v) <= bound && forall i :: 0 <= i < |s| ==> key(s[i]) <= bound
    ensures forall i :: 0 <= i <= |s| ==> key(InsertBy(key, s, v)[i]) <= bound
  {
    var n := |s|;
    if n > 0 && key(s[n - 1]) > key(v) {
      InsertBounded(key, s[..n - 1], v, bound);
    }
  }

  lemma {:induction false} InsertIsSorted<T>(key: Key<T>, s: seq<T>, v: T)
    requires SortedBy(key, s)
    ensures SortedBy(key, InsertBy(key, s, v))
  {
    var n := |s|;
    if n > 0 && key(s[n - 1]) > key(v) {
      InsertIsSorted(key, s[..n - 1], v);
      InsertBounded(key, s[..n - 1], v, key(s[n - 1]));
    }
  }

  lemma {:induction false} SortIsSorted<T>(key: Key<T>, s: seq<T>)
    ensures SortedBy(key, SortBy(key, s))
    ensures multiset(SortBy(key, s)) == multiset(s)
  {
    if s != [] {
      var n := |s| - 1;
      SortIsSorted(key, s[..n]);
      InsertIsSorted(key, SortBy(key, s[..n]), s[n]);
      InsertKeepsContents(key, SortBy(key, s[..n]), s[n]);
      assert s == s[..n] + [s[n]];
    }
  }

  /** One swap of the inner loop: what is left to insert, and what is already in place. */
  lemma {:induction false} InsertPassesLarger<T>(key: Key<T>, s: seq<T>, v: T, j: nat)
    requires j <= |s|
    requires forall k :: j <= k < |s| ==> key(s[k]) > key(v)
    ensures InsertBy(key, s, v) == InsertBy(key, s[..j], v) + s[j..]
  {
    if j == |s| {
      assert s[..j] == s;
    } else {
      var n := |s| - 1;
      InsertPassesLarger(key, s[..n], v, j);
      assert s[..n][..j] == s[..j];
      assert s[..n][j..] + [s[n]] == s[j..];
    }
  }

  lemma InsertedAt<T>(key: Key<T>, s: seq<T>, v: T, j: nat)
    requires j <= |s|
    requires j > 0 ==> key(s[j - 1]) <= key(v)
    requires forall k :: j <= k < |s| ==> key(s[k]) > key(v)
    ensures InsertBy(key, s, v) == s[..j] + [v] + s[j..]
  {
    InsertPassesLarger(key, s, v, j);
    if j > 0 { assert s[..j][j - 1] == s[j - 1]; }
    assert InsertBy(key, s[..j], v) == s[..j] + [v];
  }

  lemma SortSnoc<T>(key: Key<T>, s: seq<T>, i: nat)
    requires i < |s|
    ensures SortBy(key, s[..i + 1]) == InsertBy(key, SortBy(key, s[..i]), s[i])
  {
    assert s[..i + 1][..i] == s[..i];
  }

  /** `sorted[j] = v` after moving every larger element of `values` one place right: the
      shifting form used by both RSSI filters. */
  method InsertShifting(a: array<int>, count: nat, value: int)
    requires count < a.Length
    modifies a
    ensures a[..count + 1] == InsertBy(Identity, old(a[..count]), value)
    ensures forall k :: count < k < a.Length ==> a[k] == old(a[k])
  {
    hide InsertBy;
    ghost var s := a[..count];
    var j := count;
    while j > 0 && a[j - 1] > value
      invariant 0 <= j <= count
      invariant a[..j] == s[..j]
      invariant forall k :: j < k <= count ==> a[k] == s[k - 1]
      invariant forall k :: j <= k < count ==> s[k] > value
      invariant forall k :: count < k < a.Length ==> a[k] == old(a[k])
    {
      a[j] := a[j - 1];
      j := j - 1;
      assert a[..j] == s[..j];
    }
    a[j] := value;
    assert a[..count + 1] == s[..j] + [value] + s[j..];
    InsertedAt(Identity, s, value, j);
  }

  /** Inserting by adjacent swaps: the form used by the median reference. */
  method InsertSwapping<T>(key: Key<T>, sorted: array<T>, count: nat, v: T)
    requires count < sorted.Length
    modifies sorted
    ensures sorted[..count + 1] == InsertBy(key, old(sorted[..count]), v)
    ensures forall k :: count < k < sorted.Length ==> sorted[k] == old(sorted[k])
  {
    hide InsertBy;
    ghost var s := sorted[..count];
    sorted[count] := v;
    var j := count;
    while j > 0 && key(sorted[j]) < key(sorted[j - 1])
      invariant 0 <= j <= count
      invariant sorted[j] == v
      invariant forall k :: 0 <= k < j ==> sorted[k] == s[k]
      invariant forall k :: j < k <= count ==> sorted[k] == s[k - 1]
      invariant forall k :: j <= k < count ==> key(s[k]) > key(v)
      invariant forall k :: count < k < sorted.Length ==> sorted[k] == old(sorted[k])
    {
      sorted[j], sorted[j - 1] := sorted[j - 1], sorted[j];
      j := j - 1;
    }
    Spliced(sorted[..count + 1], s, v, j);
    InsertedAt(key, s, v, j);
  }

  lemma Spliced<T>(t: seq<T>, s: seq<T>, v: T, j: nat)
    requires |t| == |s| + 1 && j <= |s| && t[j] == v
    requires forall k :: 0 <= k < j ==> t[k] == s[k]
    requires forall k :: j < k <= |s| ==> t[k] == s[k - 1]
    ensures t == s[..j] + [v] + s[j..]
  {}

  function Identity(n: int): int {
    n
  }

  method SortInPlace(a: array<int>)
    modifies a
    ensures a[..] == SortBy(Identity, old(a[..]))
  {
    ghost var was := a[..];
    if a.Length == 0 { return; }
    assert was[..1][..0] == [] && a[..1] == was[..1];
    for i := 1 to a.Length
      invariant a[..i] == SortBy(Identity, was[..i])
      invariant forall k :: i <= k < a.Length ==> a[k] == was[k]
    {
      SortSnoc(Identity, was, i);
      InsertShifting(a, i, a[i]);
    }
    assert was[..a.Length] == was && a[..a.Length] == a[..];
  }

  /** What sorting integers gives, index by index. */
  lemma SortedIndices(s: seq<int>, low: int, high: int)
    requires forall i :: 0 <= i < |s| ==> low <= s[i] <= high
    ensures forall i :: 0 <= i < |s| ==> low <= SortBy(Identity, s)[i] <= high
    ensures forall i, j :: 0 <= i <= j < |s| ==> SortBy(Identity, s)[i] <= SortBy(Identity, s)[j]
  {
    var r := SortBy(Identity, s);
    SortIsSorted(Identity, s);
    forall i | 0 <= i < |s| ensures low <= r[i] <= high {
      assert r[i] in multiset(r);
      assert r[i] in multiset(s);
    }
    forall i, j | 0 <= i <= j < |s| ensures r[i] <= r[j] {
      if i < j { assert Identity(r[i]) <= Identity(r[j]); }
    }
  }

  // Sorted integers are determined by what they contain.

  lemma LastIsLargest(s: seq<int>, x: int)
    requires SortedBy(Identity, s) && x in multiset(s)
    ensures x <= s[|s| - 1]
  {
    var i :| 0 <= i < |s| && s[i] == x;
    assert Identity(s[i]) <= Identity(s[|s| - 1]);
  }

  lemma DropLast(s: seq<int>)
    requires s != []
    ensures multiset(s[..|s| - 1]) == multiset(s) - multiset{s[|s| - 1]}
  {
    assert s == s[..|s| - 1] + [s[|s| - 1]];
  }

  lemma {:induction false} SortedUnique(s: seq<int>, t: seq<int>)
    requires SortedBy(Identity, s) && SortedBy(Identity, t)
    requires multiset(s) == multiset(t)
    ensures s == t
  {
    hide SortedBy;
    assert |s| == |multiset(s)| == |multiset(t)| == |t|;
    if s != [] {
      var n := |s| - 1;
      SameLast(s, t);
      SortedPrefix(s);
      SortedPrefix(t);
      SortedUnique(s[..n], t[..n]);
      Rejoin(s, t);
    }
  }

  lemma SortedPrefix(s: seq<int>)
    requires SortedBy(Identity, s) && s != []
    ensures SortedBy(Identity, s[..|s| - 1])
  {}

  lemma SameLast(s: seq<int>, t: seq<int>)
    requires SortedBy(Identity, s) && SortedBy(Identity, t)
    requires multiset(s) == multiset(t) && |s| == |t| > 0
    ensures s[|s| - 1] == t[|t| - 1] && multiset(s[..|s| - 1]) == multiset(t[..|t| - 1])
  {
    hide SortedBy;
    var n := |s| - 1;
    assert s[n] in multiset(s) && t[n] in multiset(t);
    LastIsLargest(s, t[n]);
    LastIsLargest(t, s[n]);
    DropLast(s);
    DropLast(t);
  }

  lemma Rejoin(s: seq<int>, t: seq<int>)
    requires |s| == |t| > 0 && s[..|s| - 1] == t[..|t| - 1] && s[|s| - 1] == t[|t| - 1]
    ensures s == t
  {
    assert s == s[..|s| - 1] + [s[|s| - 1]];
    assert t == t[..|t| - 1] + [t[|t| - 1]];
  }

  /** Sorting depends only on the values present, not on their order. */
  lemma SortIgnoresOrder(s: seq<int>, t: seq<int>)
    requires multiset(s) == multiset(t)
    ensures SortBy(Identity, s) == SortBy(Identity, t)
  {
    SortIsSorted(Identity, s);
    SortIsSorted(Identity, t);
    SortedUnique(SortBy(Identity, s), SortBy(Identity, t));
  }

  ghost predicate Below(s: seq<int>, t: seq<int>) {
    |s| == |t| && forall i :: 0 <= i < |s| ==> s[i] <= t[i]
  }

  lemma AppendBelow(s: seq<int>, t: seq<int>, x: int, y: int)
    requires Below(s, t) && x <= y
    ensures Below(s + [x], t + [y])
  {}

  lemma BelowPrefix(s: seq<int>, t: seq<int>)
    requires Below(s, t) && |s| > 0
    requires SortedBy(Identity, s) && SortedBy(Identity, t)
    ensures Below(s[..|s| - 1], t[..|t| - 1]) && s[|s| - 1] <= t[|t| - 1]
    ensures SortedBy(Identity, s[..|s| - 1]) && SortedBy(Identity, t[..|t| - 1])
  {}

  lemma {:induction false} InsertMonotone(s: seq<int>, t: seq<int>, v: int, w: int)
    requires SortedBy(Identity, s) && SortedBy(Identity, t)
    requires Below(s, t) && v <= w
    ensures Below(InsertBy(Identity, s, v), InsertBy(Identity, t, w))
  {
    var n := |s|;
    if n > 0 {
      BelowPrefix(s, t);
      hide Below, SortedBy;
      var x, y := s[n - 1], t[n - 1];
      if x <= v && y <= w {
        AppendBelow(s, t, v, w);
      } else if x > v && y > w {
        InsertMonotone(s[..n - 1], t[..n - 1], v, w);
        AppendBelow(InsertBy(Identity, s[..n - 1], v), InsertBy(Identity, t[..n - 1], w), x, y);
      } else if x <= v {
        InsertKeepsLower(s, t, v, w);
      } else {
        InsertKeepsUpper(s, t, v, w);
      }
    }
  }

  /** s grows at its end, t somewhere before its end. */
  lemma {:induction false} InsertKeepsLower(s: seq<int>, t: seq<int>, v: int, w: int)
    requires SortedBy(Identity, s) && SortedBy(Identity, t)
    requires Below(s, t) && v <= w
    requires forall i :: 0 <= i < |s| ==> s[i] <= v
    ensures Below(s + [v], InsertBy(Identity, t, w))
  {
    var n := |t|;
    if n > 0 && t[n - 1] > w {
      InsertKeepsLower(s[..n - 1], t[..n - 1], s[n - 1], w);
      assert s[..n - 1] + [s[n - 1]] == s;
    }
  }

  /** t grows at its end, s somewhere before its end. */
  lemma {:induction false} InsertKeepsUpper(s: seq<int>, t: seq<int>, v: int, w: int)
    requires SortedBy(Identity, s) && SortedBy(Identity, t)
    requires Below(s, t) && v <= w
    requires forall i :: 0 <= i < |t| ==> t[i] <= w
    ensures Below(InsertBy(Identity, s, v), t + [w])
  {
    var n := |s|;
    if n > 0 && s[n - 1] > v {
      InsertKeepsUpper(s[..n - 1], t[..n - 1], v, t[n - 1]);
      assert t[..n - 1] + [t[n - 1]] == t;
    }
  }

  /** Raising some of the values lowers no sorted position. */
  lemma {:induction false} SortMonotone(s: seq<int>, t: seq<int>)
    requires Below(s, t)
    ensures Below(SortBy(Identity, s), SortBy(Identity, t))
  {
    if s != [] {
      var n := |s| - 1;
      SortMonotone(s[..n], t[..n]);
      SortIsSorted(Identity, s[..n]);
      SortIsSorted(Identity, t[..n]);
      InsertMonotone(SortBy(Identity, s[..n]), SortBy(Identity, t[..n]), s[n], t[n]);
    }
  }
}
