/** What the proximity check amounts to over a whole scan: the average of the last twelve
    accepted readings, and three of them in a row at or above the threshold. */
module ProximityHistory {
  import opened Bytes
  import opened PackedBits
  import opened Sorting
  import opened Filters
  import opened TransferClient

  predicate Acceptable(rssi: int) {
    -127 < rssi < 0
  }

  /** The codes of the last twelve readings, oldest first. */
  function LastCodes(rs: seq<int>): (codes: seq<Code>)
    requires |rs| >= SAMPLES
    ensures |codes| == SAMPLES
  {
    seq<Code>(SAMPLES, i requires 0 <= i < SAMPLES => Encode(rs[|rs| - SAMPLES + i]))
  }

  predicate Close(threshold: int, rs: seq<int>) {
    |rs| >= SAMPLES && FilteredRssi(LastCodes(rs)) >= threshold
  }

  /** How many readings in a row, up to the latest, have been close. */
  function CloseRun(threshold: int, rs: seq<int>): nat {
    if rs == [] || !Close(threshold, rs) then 0 else CloseRun(threshold, rs[..|rs| - 1]) + 1
  }

  /** The ring and the counters hold what the readings so far call for. */
  ghost predicate Holds(p: Proximity, rs: seq<int>) {
    && NearBounded(p)
    && p.sampleCount == (if |rs| < SAMPLES then |rs| else SAMPLES) && p.sampleIndex == |rs| % 12
    && (forall j :: 0 <= j < |rs| && |rs| - SAMPLES <= j ==> p.samples[j % 12] == Encode(rs[j]))
    && p.closeCount == CloseRun(p.threshold, rs)
  }

  /** A full ring read in storage order filters like the readings in the order they came. */
  lemma RingFiltersAlike(samples: seq<Code>, rs: seq<int>)
    requires |samples| == SAMPLES <= |rs|
    requires forall j :: |rs| - SAMPLES <= j < |rs| ==> samples[j % 12] == Encode(rs[j])
    ensures FilteredRssi(samples) == FilteredRssi(LastCodes(rs))
  {
    var n := |rs| % 12;
    var d, e := Dbm(samples), Dbm(LastCodes(rs));
    forall i | 0 <= i < SAMPLES ensures e[i] == (d[n..] + d[..n])[i] {
      RingSlot(|rs|, i);
      var j := |rs| - SAMPLES + i;
      assert samples[j % 12] == Encode(rs[j]);
    }
    assert e == d[n..] + d[..n];
    assert d == d[..n] + d[n..];
    FilteredIgnoresOrder(samples, LastCodes(rs));
  }

  lemma RingSlot(n: nat, i: nat)
    requires n >= 12 && i < 12
    ensures (n - 12 + i) % 12 == if n % 12 + i < 12 then n % 12 + i else n % 12 + i - 12
  {}

  lemma RingTakes(p: Proximity, rs: seq<int>, rssi: int)
    requires Holds(p, rs) && Acceptable(rssi)
    ensures var more, samples := rs + [rssi], p.samples[p.sampleIndex := Encode(rssi)];
      forall j :: 0 <= j < |more| && |more| - SAMPLES <= j ==> samples[j % 12] == Encode(more[j])
  {
    hide FilteredRssi, Close;
    var more, samples := rs + [rssi], p.samples[p.sampleIndex := Encode(rssi)];
    forall j | 0 <= j < |more| && |more| - SAMPLES <= j ensures samples[j % 12] == Encode(more[j]) {
      if j < |rs| {
        assert j % 12 != |rs| % 12;
        assert p.samples[j % 12] == Encode(rs[j]);
      }
    }
  }

  /** One more accepted reading. */
  lemma HoldsMore(p: Proximity, rs: seq<int>, rssi: int)
    requires Holds(p, rs) && p.closeCount < REQUIRED_CLOSE_AVERAGES && Acceptable(rssi)
    ensures Holds(AfterReading(p, rssi), rs + [rssi])
  {
    hide FilteredRssi, Close;
    var more := rs + [rssi];
    var samples := p.samples[p.sampleIndex := Encode(rssi)];
    RingTakes(p, rs, rssi);
    if |more| >= SAMPLES { RingFiltersAlike(samples, more); }
    RunMore(p.threshold, rs, rssi);
    assert (|rs| + 1) % 12 == (|rs| % 12 + 1) % 12;
  }

  lemma RunMore(threshold: int, rs: seq<int>, rssi: int)
    ensures CloseRun(threshold, rs + [rssi]) == if Close(threshold, rs + [rssi]) then CloseRun(threshold, rs) + 1 else 0
    ensures |rs + [rssi]| >= SAMPLES ==>
      (Close(threshold, rs + [rssi]) <==> FilteredRssi(LastCodes(rs + [rssi])) >= threshold)
    ensures |rs + [rssi]| < SAMPLES ==> CloseRun(threshold, rs) == 0 && !Close(threshold, rs + [rssi])
  {
    assert (rs + [rssi])[..|rs|] == rs;
  }

  ghost predicate ThreeClose(threshold: int, rs: seq<int>) {
    |rs| >= 3 && Close(threshold, rs) && Close(threshold, rs[..|rs| - 1]) && Close(threshold, rs[..|rs| - 2])
  }

  lemma RunOfThree(threshold: int, rs: seq<int>)
    ensures CloseRun(threshold, rs) >= 3 <==> ThreeClose(threshold, rs)
  {
    hide Close;
    if |rs| < 3 {
      ShortRun(threshold, rs);
    } else {
      var one, two := rs[..|rs| - 1], rs[..|rs| - 2];
      assert one[..|one| - 1] == two;
      assert CloseRun(threshold, rs) == if Close(threshold, rs) then CloseRun(threshold, one) + 1 else 0;
      assert CloseRun(threshold, one) == if Close(threshold, one) then CloseRun(threshold, two) + 1 else 0;
      assert CloseRun(threshold, two) > 0 <==> Close(threshold, two);
    }
  }

  lemma {:induction false} ShortRun(threshold: int, rs: seq<int>)
    ensures CloseRun(threshold, rs) <= |rs|
    ensures |rs| >= 1 ==> CloseRun(threshold, rs) <= CloseRun(threshold, rs[..|rs| - 1]) + 1
  {
    if rs != [] { ShortRun(threshold, rs[..|rs| - 1]); }
  }

  /** While scanning: a reading that counts is remembered, and the scan is stopped to connect
      exactly when the averages after the last three of them were all close. */
  lemma AdvertDecides(c: Client, rs: seq<int>, target: bool, rssi: int)
    requires Bounded(c) && c.st.phase.Scanning? && Holds(c.near, rs)
    ensures var d := Advertisement(c, target, rssi);
      if c.st.abort || !target || !Acceptable(rssi) then d == c
      else && Holds(d.near, rs + [rssi])
           && (d.st.phase.StoppingForConnect? <==> ThreeClose(c.near.threshold, rs + [rssi]))
           && (d.st.phase.StoppingForConnect? ==> d.st.closeConfirmed)
           && (!d.st.phase.StoppingForConnect? ==> d.st == c.st)
  {
    hide FilteredRssi, Close, FilesBounded;
    if !c.st.abort && target && Acceptable(rssi) {
      HoldsMore(c.near, rs, rssi);
      RunOfThree(c.near.threshold, rs + [rssi]);
      RunNeedsTwelve(c.near.threshold, rs + [rssi]);
    }
  }

  lemma RunNeedsTwelve(threshold: int, rs: seq<int>)
    ensures CloseRun(threshold, rs) > 0 ==> |rs| >= SAMPLES
  {}

  /** A fresh scan has no readings. */
  lemma FreshScanHolds(threshold: int)
    ensures Holds(Proximity(threshold, seq(SAMPLES, _ => 0), 0, 0, 0), [])
  {}
}
