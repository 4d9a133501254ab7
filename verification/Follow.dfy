/** What following one heading decides from its readings: the best point, the frozen
    reference of a suspected dip, and when a decline is confirmed. The robot's loop is proved
    to take exactly these decisions; here is what they amount to, for every sequence of
    readings. */
module Follow {
  import opened Filters
  import opened LineSearch

  const DECLINE_POSITIONS: nat := 3
  const DIP_MAX_PROBES: nat := 2

  /** A stop after a forward block, with the step size then in force; or a check in place
      (the recheck, then the probes). */
  datatype Reading =
    | Stop(position: nat, step: nat, pair: Pair)
    | Check(position: nat, pair: Pair)

  datatype State = State(
    baseline: Pair, progress: bool, best: Pair, bestPosition: nat,
    declines: nat, lastDecline: nat,
    recent: seq<Pair>, recentCount: nat, recentNext: nat,
    reference: Pair, dip: bool)

  datatype Phase =
    | Searching(s: State)
    | Rechecking(s: State)
    | Probing(s: State, probes: nat)
    | Declined(s: State)

  const ZeroPair: Pair := Pair(Sample(0, 0), Sample(0, 0))

  function Start(baseline: Pair): State {
    State(baseline, false, baseline, 0, 0, 0, [baseline, ZeroPair, ZeroPair], 1, 1, baseline, false)
  }

  predicate WellFormed(s: State) {
    |s.recent| == REFERENCE_POSITIONS && s.recentCount <= REFERENCE_POSITIONS && s.recentNext < REFERENCE_POSITIONS
  }

  /** Count a weak position, or end the decline sequence. */
  function Weigh(s: State, position: nat, step: nat, current: Pair): State {
    if ReferenceDeclined(s.reference, current) then
      var counts := s.declines == 0 || position - s.lastDecline >= step;
      s.(dip := true,
         declines := if counts then s.declines + 1 else s.declines,
         lastDecline := if counts then position else s.lastDecline)
    else if s.dip then
      s.(declines := 0, dip := !ReturnConsistent(s.reference, current))
    else s
  }

  predicate NeedsRecheck(s: State, current: Pair) {
    ReferenceDeclined(s.reference, current) && s.declines >= DECLINE_POSITIONS
  }

  predicate IsStronger(s: State, current: Pair) {
    || Compare(s.best, current) > 0
    || (s.progress && Compare(s.baseline, current) > 0 && ConfirmedGain(s.best, current) > 0)
  }

  function TakeBest(s: State, position: nat, current: Pair): State {
    if IsStronger(s, current) then
      s.(dip := false, declines := 0, best := current, bestPosition := position, progress := true)
    else s
  }

  /** Update the three-position history and let the reference strengthen, unless a dip freezes both. */
  function Remember(s: State, current: Pair): State
    requires WellFormed(s)
  {
    if s.dip then s
    else
      var recent := s.recent[s.recentNext := current];
      var count := if s.recentCount < REFERENCE_POSITIONS then s.recentCount + 1 else s.recentCount;
      var candidate := MedianReference(recent);
      s.(recent := recent, recentNext := (s.recentNext + 1) % REFERENCE_POSITIONS, recentCount := count,
         reference := if count == REFERENCE_POSITIONS && ConfirmedGain(s.reference, candidate) > 0
                      then candidate else s.reference)
  }

  function Absorb(s: State, position: nat, current: Pair): State
    requires WellFormed(s)
  {
    Remember(TakeBest(s, position, current), current)
  }

  function Recover(s: State): State {
    s.(dip := false, declines := 0)
  }

  function Advance(p: Phase, r: Reading): Phase
    requires WellFormed(p.s)
  {
    match (p, r)
    case (Searching(s), Stop(position, step, pair)) =>
      var weighed := Weigh(s, position, step, pair);
      if NeedsRecheck(weighed, pair) then Rechecking(weighed)
      else Searching(Absorb(weighed, position, pair))
    case (Rechecking(s), Check(position, pair)) =>
      if ReturnConsistent(s.reference, pair) then Searching(Absorb(Recover(s), position, pair))
      else Probing(s, 0)
    case (Probing(s, n), Check(position, pair)) =>
      if ReturnConsistent(s.reference, pair) then Searching(Absorb(Recover(s), position, pair))
      else if n + 1 >= DIP_MAX_PROBES then Declined(s)
      else Probing(s, n + 1)
    case _ => p
  }

  function Play(baseline: Pair, readings: seq<Reading>): (p: Phase)
    ensures WellFormed(p.s)
  {
    if readings == [] then Searching(Start(baseline))
    else Advance(Play(baseline, readings[..|readings| - 1]), readings[|readings| - 1])
  }

  lemma PlayMore(baseline: Pair, readings: seq<Reading>, r: Reading)
    ensures Play(baseline, readings + [r]) == Advance(Play(baseline, readings), r)
  {
    assert (readings + [r])[..|readings|] == readings;
  }

  // One reading at a time.

  ghost predicate Sound(s: State) {
    && WellFormed(s)
    && (s.progress ==> Compare(s.baseline, s.best) > 0)
    && (!s.progress ==> s.best == s.baseline && s.bestPosition == 0)
    && (s.declines > 0 ==> s.dip)
    && (ValidPair(s.baseline) ==> ValidPair(s.best) && ValidPair(s.reference) && Weaker(s.reference) <= Weaker(s.baseline))
  }

  lemma AbsorbSound(s: State, position: nat, current: Pair)
    requires Sound(s)
    ensures Sound(Absorb(s, position, current))
  {
    var t := TakeBest(s, position, current);
    if Compare(s.best, current) > 0 && s.progress {
      CompareTransitive(s.baseline, s.best, current);
    }
    assert Sound(t);
    if !t.dip {
      var candidate := MedianReference(t.recent[t.recentNext := current]);
      if ConfirmedGain(t.reference, candidate) > 0 {
        GainStrengthens(t.reference, candidate);
      }
    }
  }

  lemma AdvanceSound(p: Phase, r: Reading)
    requires Sound(p.s)
    ensures Sound(Advance(p, r).s) && Advance(p, r).s.baseline == p.s.baseline
  {
    match (p, r) {
      case (Searching(s), Stop(position, step, pair)) =>
        AbsorbSound(Weigh(s, position, step, pair), position, pair);
      case (Rechecking(s), Check(position, pair)) => AbsorbSound(Recover(s), position, pair);
      case (Probing(s, _), Check(position, pair)) => AbsorbSound(Recover(s), position, pair);
      case _ =>
    }
  }

  lemma {:induction false} PlaySound(baseline: Pair, readings: seq<Reading>)
    ensures Sound(Play(baseline, readings).s) && Play(baseline, readings).s.baseline == baseline
  {
    if readings != [] {
      var n := |readings| - 1;
      PlaySound(baseline, readings[..n]);
      AdvanceSound(Play(baseline, readings[..n]), readings[n]);
    }
  }

  /** "Progress" is a confirmed gain over this heading's own baseline, however many small steps
      it took; without it the best point is still the start. */
  lemma ProgressMeansGain(baseline: Pair, readings: seq<Reading>)
    ensures var s := Play(baseline, readings).s;
      && (s.progress <==> Compare(baseline, s.best) > 0)
      && (s.progress ==> Weaker(s.best) + MIN_PROGRESS_DB <= Weaker(baseline))
      && (!s.progress ==> s.best == baseline && s.bestPosition == 0)
  {
    PlaySound(baseline, readings);
    var s := Play(baseline, readings).s;
    if s.progress {
      CompareStrengthens(baseline, s.best);
    }
  }

  /** One more reading: the best point changes only for a strictly stronger weaker batch, the
      reference only for a stronger one, and never while a dip stays active. */
  lemma ReadingOnlyStrengthens(baseline: Pair, readings: seq<Reading>, r: Reading)
    ensures var s, t := Play(baseline, readings).s, Play(baseline, readings + [r]).s;
      && ((t.best == s.best && t.bestPosition == s.bestPosition)
          || (t.best == r.pair && t.bestPosition == r.position && Weaker(t.best) < Weaker(s.best)))
      && (t.reference == s.reference || Weaker(t.reference) < Stronger(s.reference))
      && (t.dip ==> t.reference == s.reference && t.recent == s.recent)
  {
    PlayMore(baseline, readings, r);
    var p := Play(baseline, readings);
    match (p, r) {
      case (Searching(s), Stop(position, step, pair)) =>
        AbsorbStrengthens(Weigh(s, position, step, pair), position, pair);
      case (Rechecking(s), Check(position, pair)) => AbsorbStrengthens(Recover(s), position, pair);
      case (Probing(s, _), Check(position, pair)) => AbsorbStrengthens(Recover(s), position, pair);
      case _ =>
    }
  }

  lemma AbsorbStrengthens(s: State, position: nat, current: Pair)
    requires WellFormed(s)
    ensures var t := Absorb(s, position, current);
      && ((t.best == s.best && t.bestPosition == s.bestPosition)
          || (t.best == current && t.bestPosition == position && Weaker(t.best) < Weaker(s.best)))
      && (t.reference == s.reference || Weaker(t.reference) < Stronger(s.reference))
      && (t.dip ==> s.dip && t.reference == s.reference && t.recent == s.recent && t.declines == s.declines
                    && t.lastDecline == s.lastDecline)
      && (!t.dip ==> t.declines == 0 || t.declines == s.declines)
  {
    if Compare(s.best, current) > 0 {
      CompareStrengthens(s.best, current);
    } else if ConfirmedGain(s.best, current) > 0 {
      GainStrengthens(s.best, current);
    }
    var t := TakeBest(s, position, current);
    if !t.dip {
      var candidate := MedianReference(t.recent[t.recentNext := current]);
      if ConfirmedGain(t.reference, candidate) > 0 {
        GainStrengthens(t.reference, candidate);
      }
    }
  }

  // What a confirmed decline rests on.

  predicate Fits(p: Phase, r: Reading) {
    (p.Searching? && r.Stop?) || (p.Rechecking? && r.Check?) || (p.Probing? && r.Check?)
  }

  /** Readings in the order the loop takes them: stops while searching, checks in between. */
  ghost predicate Proper(baseline: Pair, readings: seq<Reading>) {
    forall k :: 0 <= k < |readings| ==> Fits(Play(baseline, readings[..k]), readings[k])
  }

  lemma ProperMore(baseline: Pair, readings: seq<Reading>, r: Reading)
    requires Proper(baseline, readings) && Fits(Play(baseline, readings), r)
    ensures Proper(baseline, readings + [r]) && Play(baseline, readings + [r]) == Advance(Play(baseline, readings), r)
  {
    var more := readings + [r];
    forall k | 0 <= k < |more| ensures Fits(Play(baseline, more[..k]), more[k]) {
      if k < |readings| {
        assert more[..k] == readings[..k];
      } else {
        assert more[..k] == readings;
      }
    }
    PlayMore(baseline, readings, r);
  }

  /** The heading has been judged, properly, by these readings so far. */
  ghost predicate Judged(baseline: Pair, readings: seq<Reading>, p: Phase) {
    Proper(baseline, readings) && Play(baseline, readings) == p
  }

  lemma JudgedStart(baseline: Pair)
    ensures Judged(baseline, [], Searching(Start(baseline)))
  {}

  lemma JudgedWithoutProgress(baseline: Pair, readings: seq<Reading>, p: Phase)
    requires Judged(baseline, readings, p) && !p.s.progress
    ensures p.s.bestPosition == 0
  {
    PlaySound(baseline, readings);
  }

  /** After `checks` failed checks of a suspected decline. */
  function AfterChecks(s: State, checks: nat): Phase {
    if checks == 0 then Rechecking(s) else if checks <= DIP_MAX_PROBES then Probing(s, checks - 1) else Declined(s)
  }

  lemma JudgedCheck(baseline: Pair, readings: seq<Reading>, s: State, checks: nat, position: nat, current: Pair)
    requires checks <= DIP_MAX_PROBES && Judged(baseline, readings, AfterChecks(s, checks))
    ensures WellFormed(s)
    ensures Judged(baseline, readings + [Check(position, current)],
                   if ReturnConsistent(s.reference, current) then Searching(Absorb(Recover(s), position, current))
                   else AfterChecks(s, checks + 1))
  {
    ProperMore(baseline, readings, Check(position, current));
  }

  lemma JudgedStop(baseline: Pair, readings: seq<Reading>, s: State, position: nat, step: nat, current: Pair)
    requires Judged(baseline, readings, Searching(s))
    ensures WellFormed(s)
    ensures var t := Weigh(s, position, step, current);
      Judged(baseline, readings + [Stop(position, step, current)],
             if NeedsRecheck(t, current) then AfterChecks(t, 0) else Searching(Absorb(t, position, current)))
  {
    ProperMore(baseline, readings, Stop(position, step, current));
  }

  /** Reading k is a stop, weak against `reference`, which was already the reference before it. */
  ghost predicate WeakStop(baseline: Pair, readings: seq<Reading>, k: nat, reference: Pair)
    requires k < |readings|
  {
    && readings[k].Stop?
    && ReferenceDeclined(reference, readings[k].pair)
    && Play(baseline, readings[..k]).s.reference == reference
  }

  /** The weak positions counted so far: each at least its own step past the one before, and
      from the first of them on only weak stops against one unchanged reference. */
  ghost predicate Counted(baseline: Pair, readings: seq<Reading>, c: seq<nat>) {
    var s := Play(baseline, readings).s;
    && |c| == s.declines
    && (forall a :: 0 <= a < |c| ==> c[a] < |readings|)
    && (forall a :: 0 < a < |c| ==> c[a - 1] < c[a] && Spaced(readings, c[a - 1], c[a]))
    && (|c| > 0 ==> s.lastDecline == readings[c[|c| - 1]].position)
    && (|c| > 0 ==> forall k :: c[0] <= k < |readings| ==> WeakStop(baseline, readings, k, s.reference))
  }

  ghost predicate Spaced(readings: seq<Reading>, i: nat, j: nat)
    requires i < |readings| && j < |readings|
  {
    readings[j].Stop? && readings[j].position - readings[i].position >= readings[j].step
  }

  /** What one stop does to the count of weak positions. */
  ghost predicate CountStep(s: State, t: State, r: Reading)
    requires r.Stop?
  {
    || t.declines == 0
    || (&& ReferenceDeclined(s.reference, r.pair) && t.reference == s.reference
        && if t.declines == s.declines then t.lastDecline == s.lastDecline
           else t.declines == s.declines + 1 && t.lastDecline == r.position
                && (s.declines == 0 || r.position - s.lastDecline >= r.step))
  }

  lemma StopCounts(s: State, r: Reading)
    requires Sound(s) && r.Stop?
    ensures CountStep(s, Advance(Searching(s), r).s, r)
  {
    var w := Weigh(s, r.position, r.step, r.pair);
    AbsorbStrengthens(w, r.position, r.pair);
  }

  lemma WeakStopKept(baseline: Pair, before: seq<Reading>, r: Reading, k: nat, reference: Pair)
    requires k < |before| && WeakStop(baseline, before, k, reference)
    ensures WeakStop(baseline, before + [r], k, reference)
  {
    assert (before + [r])[..k] == before[..k];
  }

  lemma CountOne(baseline: Pair, before: seq<Reading>, r: Reading, d: seq<nat>) returns (c: seq<nat>)
    requires Play(baseline, before).Searching? && r.Stop?
    requires Counted(baseline, before, d)
    ensures Counted(baseline, before + [r], c)
    ensures Play(baseline, before + [r]).s.declines > Play(baseline, before).s.declines ==> c == d + [|before|]
  {
    PlaySound(baseline, before);
    PlayMore(baseline, before, r);
    var s, t, after := Play(baseline, before).s, Play(baseline, before + [r]).s, before + [r];
    StopCounts(s, r);
    if t.declines == 0 {
      c := [];
    } else {
      assert after[..|before|] == before;
      c := if t.declines == s.declines then d else d + [|before|];
      CountExtends(baseline, before, r, d, c);
    }
  }

  lemma CountExtends(baseline: Pair, before: seq<Reading>, r: Reading, d: seq<nat>, c: seq<nat>)
    requires r.Stop? && Counted(baseline, before, d)
    requires var s, t := Play(baseline, before).s, Play(baseline, before + [r]).s;
      && t.declines > 0 && CountStep(s, t, r)
      && c == if t.declines == s.declines then d else d + [|before|]
    ensures Counted(baseline, before + [r], c)
  {
    var s, t, after := Play(baseline, before).s, Play(baseline, before + [r]).s, before + [r];
    forall k | c[0] <= k < |after| ensures WeakStop(baseline, after, k, t.reference) {
      if k < |before| {
        WeakStopKept(baseline, before, r, k, s.reference);
      } else {
        assert after[..k] == before;
      }
    }
    forall a | 0 < a < |c| ensures c[a - 1] < c[a] && Spaced(after, c[a - 1], c[a]) {
      if a < |d| {
        assert Spaced(before, d[a - 1], d[a]);
      }
    }
  }

  lemma ProperPrefix(baseline: Pair, readings: seq<Reading>, n: nat)
    requires Proper(baseline, readings) && n <= |readings|
    ensures Proper(baseline, readings[..n])
  {
    forall k | 0 <= k < n ensures Fits(Play(baseline, readings[..n][..k]), readings[..n][k]) {
      assert readings[..n][..k] == readings[..k];
    }
  }

  lemma CheckRecovers(s: State, r: Reading, p: Phase)
    requires Sound(s) && r.Check? && (p == Rechecking(s) || (p.Probing? && p.s == s)) && Advance(p, r).Searching?
    ensures Advance(p, r).s.declines == 0
  {
    AbsorbStrengthens(Recover(s), r.position, r.pair);
  }

  ghost predicate CameFrom(before: Phase, r: Reading, after: Phase) {
    match after
    case Searching(_) => true
    case Rechecking(_) => before.Searching? && r.Stop? && after.s.declines >= DECLINE_POSITIONS
    case Probing(s, m) =>
      && r.Check? && !ReturnConsistent(s.reference, r.pair)
      && before == if m == 0 then Rechecking(s) else Probing(s, m - 1)
    case Declined(s) =>
      && r.Check? && !ReturnConsistent(s.reference, r.pair)
      && before.Probing? && before.s == s && before.probes + 1 >= DIP_MAX_PROBES
  }

  lemma CameFromAdvance(p: Phase, r: Reading)
    requires WellFormed(p.s) && Fits(p, r)
    ensures CameFrom(p, r, Advance(p, r))
  {}

  /** Where the last reading found the machine, read off where it left it. */
  lemma LastReading(baseline: Pair, readings: seq<Reading>, before: seq<Reading>, r: Reading)
    requires readings == before + [r] && Proper(baseline, readings)
    ensures Proper(baseline, before)
    ensures Fits(Play(baseline, before), r)
    ensures CameFrom(Play(baseline, before), r, Play(baseline, readings))
  {
    ProperPrefix(baseline, readings, |before|);
    assert readings[..|before|] == before && readings[|before|] == r;
    assert Fits(Play(baseline, before), r);
    PlayMore(baseline, before, r);
    CameFromAdvance(Play(baseline, before), r);
  }

  /** The machine starts out searching, so any other phase was reached by a reading. */
  lemma SplitLast(baseline: Pair, readings: seq<Reading>) returns (before: seq<Reading>, r: Reading)
    requires Proper(baseline, readings) && !Play(baseline, readings).Searching?
    ensures readings == before + [r] && Proper(baseline, before)
    ensures Fits(Play(baseline, before), r)
    ensures CameFrom(Play(baseline, before), r, Play(baseline, readings))
  {
    assert readings != [];
    before, r := readings[..|readings| - 1], readings[|readings| - 1];
    LastReading(baseline, readings, before, r);
  }

  lemma NothingCounted(baseline: Pair, readings: seq<Reading>)
    requires Play(baseline, readings).s.declines == 0
    ensures Counted(baseline, readings, [])
  {}

  lemma NothingAfterCheck(baseline: Pair, readings: seq<Reading>, before: seq<Reading>, r: Reading)
    requires readings == before + [r] && r.Check? && Fits(Play(baseline, before), r)
    requires Play(baseline, readings).Searching?
    ensures Counted(baseline, readings, [])
  {
    PlaySound(baseline, before);
    PlayMore(baseline, before, r);
    CheckRecovers(Play(baseline, before).s, r, Play(baseline, before));
    NothingCounted(baseline, readings);
  }

  lemma {:induction false} CountedPositions(baseline: Pair, readings: seq<Reading>) returns (c: seq<nat>)
    requires Proper(baseline, readings)
    requires Play(baseline, readings).Searching?
    ensures Counted(baseline, readings, c)
    decreases |readings|
  {
    c := [];
    if readings == [] {
      NothingCounted(baseline, readings);
    } else {
      var before, r := readings[..|readings| - 1], readings[|readings| - 1];
      assert readings == before + [r];
      LastReading(baseline, readings, before, r);
      if r.Stop? {
        var d := CountedPositions(baseline, before);
        c := CountOne(baseline, before, r, d);
      } else {
        NothingAfterCheck(baseline, readings, before, r);
      }
    }
  }

  lemma ProbesAreFew(baseline: Pair, readings: seq<Reading>)
    requires Proper(baseline, readings) && Play(baseline, readings).Probing?
    ensures Play(baseline, readings).probes < DIP_MAX_PROBES
  {
    var before, r := SplitLast(baseline, readings);
    PlayMore(baseline, before, r);
  }

  lemma ProbesSeen(baseline: Pair, readings: seq<Reading>)
    returns (stops: seq<Reading>, c1: Reading, c2: Reading, c3: Reading)
    requires Proper(baseline, readings) && Play(baseline, readings).Declined?
    ensures readings == stops + [c1, c2, c3]
    ensures Proper(baseline, stops) && Play(baseline, stops) == Rechecking(Play(baseline, readings).s)
    ensures FailedCheck(Play(baseline, readings).s, c1) && FailedCheck(Play(baseline, readings).s, c2)
         && FailedCheck(Play(baseline, readings).s, c3)
  {
    var two, one: seq<Reading>;
    two, c3 := SplitLast(baseline, readings);
    ProbesAreFew(baseline, two);
    one, c2 := SplitLast(baseline, two);
    stops, c1 := SplitLast(baseline, one);
  }

  ghost predicate FailedCheck(s: State, r: Reading) {
    r.Check? && !ReturnConsistent(s.reference, r.pair)
  }

  /** While the search goes on, fewer than three weak positions have been counted. */
  lemma {:induction false} SearchingCountsFew(baseline: Pair, readings: seq<Reading>)
    requires Proper(baseline, readings) && Play(baseline, readings).Searching?
    ensures Play(baseline, readings).s.declines < DECLINE_POSITIONS
  {
    if readings != [] {
      var n := |readings| - 1;
      var before, r := readings[..n], readings[n];
      LastReading(baseline, readings, before, r);
      PlayMore(baseline, before, r);
      PlaySound(baseline, before);
      var p := Play(baseline, before);
      if r.Stop? {
        SearchingCountsFew(baseline, before);
        StopKeepsCountLow(p.s, r);
      } else {
        CheckRecovers(p.s, r, p);
      }
    }
  }

  lemma StopKeepsCountLow(s: State, r: Reading)
    requires Sound(s) && r.Stop? && s.declines < DECLINE_POSITIONS && Advance(Searching(s), r).Searching?
    ensures Advance(Searching(s), r).s.declines < DECLINE_POSITIONS
  {
    StopCounts(s, r);
    AbsorbStrengthens(Weigh(s, r.position, r.step, r.pair), r.position, r.pair);
  }

  /** A decline is only ever confirmed by three counted weak stops, with nothing but weak stops
      against one unchanged reference from the first to the last of them, then a recheck and
      two probes that all fail to recover that reference. */
  lemma DeclineMeans(baseline: Pair, readings: seq<Reading>, s: State)
    returns (i: nat, j: nat, k: nat)
    requires Judged(baseline, readings, Declined(s))
    ensures i < j < k && k + 4 == |readings|
    ensures Spaced(readings, i, j) && Spaced(readings, j, k)
    ensures forall m :: i <= m <= k ==> WeakStop(baseline, readings, m, s.reference)
    ensures forall m :: k < m < |readings| ==> FailedCheck(s, readings[m])
  {
    var stops, c1, c2, c3 := ProbesSeen(baseline, readings);
    i, j, k := ThreeCounted(baseline, stops);
    forall m | i <= m <= k ensures WeakStop(baseline, readings, m, s.reference) {
      assert WeakStop(baseline, stops, m, s.reference);
      WeakStopExtends(baseline, stops, [c1, c2, c3], m, s.reference);
    }
    assert Spaced(stops, i, j) && Spaced(stops, j, k);
  }

  lemma WeakStopExtends(baseline: Pair, stops: seq<Reading>, rest: seq<Reading>, m: nat, reference: Pair)
    requires m < |stops| && WeakStop(baseline, stops, m, reference)
    ensures WeakStop(baseline, stops + rest, m, reference)
  {
    assert (stops + rest)[..m] == stops[..m];
  }

  lemma ThreeCounted(baseline: Pair, stops: seq<Reading>) returns (i: nat, j: nat, k: nat)
    requires Proper(baseline, stops) && Play(baseline, stops).Rechecking?
    ensures i < j < k && k + 1 == |stops|
    ensures Spaced(stops, i, j) && Spaced(stops, j, k)
    ensures forall m :: i <= m <= k ==> WeakStop(baseline, stops, m, Play(baseline, stops).s.reference)
  {
    var before, last := SplitLast(baseline, stops);
    var d := CountedPositions(baseline, before);
    SearchingCountsFew(baseline, before);
    PlaySound(baseline, before);
    PlayMore(baseline, before, last);
    StopCounts(Play(baseline, before).s, last);
    var c := CountOne(baseline, before, last, d);
    assert |c| == 3;
    assert c[0] < c[1] < c[2] && Spaced(stops, c[0], c[1]) && Spaced(stops, c[1], c[2]);
    i, j, k := c[0], c[1], c[2];
  }

  // Nothing better was passed over.

  /** Reading k was taken up: after it the search went on. */
  ghost predicate TakenUp(baseline: Pair, readings: seq<Reading>, k: nat)
    requires k < |readings|
  {
    Play(baseline, readings[..k + 1]).Searching?
  }

  ghost predicate Beats(baseline: Pair, readings: seq<Reading>, k: nat)
    requires k < |readings|
  {
    TakenUp(baseline, readings, k) && Compare(baseline, readings[k].pair) > 0
  }

  ghost predicate BestOfAll(baseline: Pair, readings: seq<Reading>) {
    var s := Play(baseline, readings).s;
    && (forall k :: 0 <= k < |readings| && TakenUp(baseline, readings, k) ==> Compare(s.best, readings[k].pair) <= 0)
    && (s.progress <==> exists k :: 0 <= k < |readings| && Beats(baseline, readings, k))
    && (s.progress ==> forall k :: 0 <= k < |readings| && Beats(baseline, readings, k) ==> ConfirmedGain(s.best, readings[k].pair) <= 0)
    && (s.progress ==> exists k :: 0 <= k < |readings| && Beats(baseline, readings, k)
                         && s.best == readings[k].pair && s.bestPosition == readings[k].position)
  }

  /** What taking up a reading does to the best point. */
  lemma BestStep(w: State, position: nat, pair: Pair)
    requires WellFormed(w)
    ensures var t := Absorb(w, position, pair);
      && t.baseline == w.baseline
      && if Compare(w.best, pair) > 0 || (w.progress && Compare(w.baseline, pair) > 0 && ConfirmedGain(w.best, pair) > 0)
         then t.best == pair && t.bestPosition == position && t.progress
         else t.best == w.best && t.bestPosition == w.bestPosition && t.progress == w.progress
  {}

  predicate SameBest(s: State, t: State) {
    s.baseline == t.baseline && s.best == t.best && s.bestPosition == t.bestPosition && s.progress == t.progress
  }

  /** A reading is taken up or leaves the best point alone. */
  lemma AbsorbedOr(p: Phase, r: Reading) returns (w: State)
    requires WellFormed(p.s) && Fits(p, r)
    ensures WellFormed(w) && SameBest(p.s, w)
    ensures var q := Advance(p, r);
      if q.Searching? then q.s == Absorb(w, r.position, r.pair) else SameBest(p.s, q.s)
  {
    w := if r.Stop? then Weigh(p.s, r.position, r.step, r.pair) else Recover(p.s);
  }

  /** No stronger than one that is weaker than the best. */
  lemma StillBest(was: Pair, best: Pair, pair: Pair)
    requires ConfirmedGain(was, best) > 0 && ConfirmedGain(was, pair) <= 0
    ensures ConfirmedGain(best, pair) <= 0
  {}

  lemma BestNow(baseline: Pair, s: State, t: State, pair: Pair)
    requires Sound(s) && s.baseline == baseline
    requires if Compare(s.best, pair) > 0 || (s.progress && Compare(baseline, pair) > 0 && ConfirmedGain(s.best, pair) > 0)
             then t.best == pair && t.progress else t.best == s.best && t.progress == s.progress
    ensures Compare(t.best, pair) <= 0
    ensures Compare(baseline, pair) > 0 ==> t.progress && ConfirmedGain(t.best, pair) <= 0
    ensures t.progress && !s.progress ==> Compare(baseline, pair) > 0
    ensures t.best != s.best && s.progress ==> Compare(baseline, pair) > 0
  {
    if Compare(s.best, pair) > 0 && s.progress { CompareTransitive(baseline, s.best, pair); }
  }

  /** What was no better than the old best is no better than the new one. */
  lemma BestStays(baseline: Pair, s: State, t: State, pair: Pair, earlier: Pair)
    requires Sound(s) && s.baseline == baseline
    requires if Compare(s.best, pair) > 0 || (s.progress && Compare(baseline, pair) > 0 && ConfirmedGain(s.best, pair) > 0)
             then t.best == pair && t.progress else t.best == s.best && t.progress == s.progress
    requires Compare(s.best, earlier) <= 0
    requires s.progress && Compare(baseline, earlier) > 0 ==> ConfirmedGain(s.best, earlier) <= 0
    ensures Compare(t.best, earlier) <= 0
    ensures s.progress && Compare(baseline, earlier) > 0 ==> ConfirmedGain(t.best, earlier) <= 0
  {
    if t.best != s.best {
      if Compare(t.best, earlier) > 0 {
        if Compare(s.best, pair) > 0 {
          CompareTransitive(s.best, pair, earlier);
        } else {
          CompareTransitive(baseline, pair, earlier);
        }
      }
    }
  }

  lemma TakenUpBefore(baseline: Pair, before: seq<Reading>, r: Reading)
    ensures forall k :: 0 <= k < |before| ==> (TakenUp(baseline, before + [r], k) <==> TakenUp(baseline, before, k))
    ensures forall k :: 0 <= k < |before| ==> (Beats(baseline, before + [r], k) <==> Beats(baseline, before, k))
    ensures TakenUp(baseline, before + [r], |before|) <==> Play(baseline, before + [r]).Searching?
  {
    var more := before + [r];
    assert more[..|before| + 1] == more;
    forall k | 0 <= k < |before| ensures TakenUp(baseline, more, k) <==> TakenUp(baseline, before, k) {
      assert more[..k + 1] == before[..k + 1];
    }
  }

  /** For every proper sequence of readings: none that was taken up is better than the retained
      best; there is progress exactly if one of them beats the baseline; and then the best is
      one of those, at its own position, and no other of them is a confirmed gain over it. */
  lemma {:induction false} BestSoFar(baseline: Pair, readings: seq<Reading>)
    requires Proper(baseline, readings)
    ensures BestOfAll(baseline, readings)
  {
    hide BestOfAll, Play, Proper, Fits;
    if readings == [] {
      NothingYet(baseline);
    } else {
      var before, r := readings[..|readings| - 1], readings[|readings| - 1];
      LastFits(baseline, readings);
      BestSoFar(baseline, before);
      BestMore(baseline, before, r);
      assert readings == before + [r];
    }
  }

  lemma LastFits(baseline: Pair, readings: seq<Reading>)
    requires Proper(baseline, readings) && readings != []
    ensures Proper(baseline, readings[..|readings| - 1])
    ensures Fits(Play(baseline, readings[..|readings| - 1]), readings[|readings| - 1])
  {
    ProperPrefix(baseline, readings, |readings| - 1);
  }

  lemma NothingYet(baseline: Pair)
    ensures BestOfAll(baseline, [])
  {}

  lemma BestMore(baseline: Pair, before: seq<Reading>, r: Reading)
    requires BestOfAll(baseline, before) && Fits(Play(baseline, before), r)
    ensures BestOfAll(baseline, before + [r])
  {
    var p, q := Play(baseline, before), Play(baseline, before + [r]);
    PlaySound(baseline, before);
    PlayMore(baseline, before, r);
    var w := AbsorbedOr(p, r);
    if q.Searching? {
      BestStep(w, r.position, r.pair);
      hide Play, Advance, Absorb, Sound, Compare, ConfirmedGain, TakenUp, BestOfAll, Fits;
      BestTaken(baseline, before, r);
    } else {
      hide Play, Advance, Absorb, Sound, Compare, ConfirmedGain, TakenUp, BestOfAll, Fits;
      BestLeft(baseline, before, r);
    }
  }

  /** How the best point moves when a reading is taken up. */
  predicate BestMoves(s: State, t: State, r: Reading) {
    if Compare(s.best, r.pair) > 0 || (s.progress && Compare(s.baseline, r.pair) > 0 && ConfirmedGain(s.best, r.pair) > 0)
    then t.best == r.pair && t.bestPosition == r.position && t.progress
    else t.best == s.best && t.bestPosition == s.bestPosition && t.progress == s.progress
  }

  lemma BestTaken(baseline: Pair, before: seq<Reading>, r: Reading)
    requires BestOfAll(baseline, before) && Sound(Play(baseline, before).s) && Play(baseline, before).s.baseline == baseline
    requires Play(baseline, before + [r]).Searching?
    requires BestMoves(Play(baseline, before).s, Play(baseline, before + [r]).s, r)
    ensures BestOfAll(baseline, before + [r])
  {
    var s, t, more := Play(baseline, before).s, Play(baseline, before + [r]).s, before + [r];
    TakenUpBefore(baseline, before, r);
    BestNow(baseline, s, t, r.pair);
    assert Beats(baseline, more, |before|) <==> Compare(baseline, r.pair) > 0;
    forall k | 0 <= k < |more| && TakenUp(baseline, more, k)
      ensures Compare(t.best, more[k].pair) <= 0
      ensures t.progress && Compare(baseline, more[k].pair) > 0 ==> ConfirmedGain(t.best, more[k].pair) <= 0
    {
      if k < |before| {
        assert TakenUp(baseline, before, k);
        assert Beats(baseline, before, k) <==> Compare(baseline, before[k].pair) > 0;
        BestStays(baseline, s, t, r.pair, before[k].pair);
      }
    }
    hide Play, Sound, Compare, ConfirmedGain, TakenUp;
    if s.progress {
      var k :| 0 <= k < |before| && Beats(baseline, before, k) && s.best == before[k].pair && s.bestPosition == before[k].position;
      assert Beats(baseline, more, k) && more[k] == before[k];
    }
    if t.best == r.pair && t.bestPosition == r.position && t.progress && (t.best != s.best || !s.progress) {
      assert Beats(baseline, more, |before|) && more[|before|] == r;
    }
  }

  lemma BestLeft(baseline: Pair, before: seq<Reading>, r: Reading)
    requires BestOfAll(baseline, before)
    requires !Play(baseline, before + [r]).Searching? && SameBest(Play(baseline, before).s, Play(baseline, before + [r]).s)
    ensures BestOfAll(baseline, before + [r])
  {
    hide Play, Compare, ConfirmedGain;
    var s, t, more := Play(baseline, before).s, Play(baseline, before + [r]).s, before + [r];
    TakenUpBefore(baseline, before, r);
    hide TakenUp;
    forall k | 0 <= k < |more| && TakenUp(baseline, more, k)
      ensures Compare(t.best, more[k].pair) <= 0
      ensures t.progress && Beats(baseline, more, k) ==> ConfirmedGain(t.best, more[k].pair) <= 0
    {
      assert k < |before| && TakenUp(baseline, before, k) && more[k] == before[k];
    }
    if s.progress {
      var k :| 0 <= k < |before| && Beats(baseline, before, k) && s.best == before[k].pair && s.bestPosition == before[k].position;
      assert Beats(baseline, more, k) && more[k] == before[k];
    } else {
      forall k | 0 <= k < |more| ensures !Beats(baseline, more, k) {
        if k < |before| { assert !Beats(baseline, before, k); }
      }
    }
  }

  // The reference keeps up with the last three positions.

  /** The baseline and the pairs taken up outside a dip, in order. */
  ghost function Remembered(baseline: Pair, readings: seq<Reading>): seq<Pair> {
    if readings == [] then [baseline]
    else
      var before, p := readings[..|readings| - 1], Play(baseline, readings);
      Remembered(baseline, before) + (if p.Searching? && !p.s.dip then [readings[|readings| - 1].pair] else [])
  }

  ghost predicate Holds(s: State, pairs: seq<Pair>) {
    && WellFormed(s) && s.recentCount == (if |pairs| < 3 then |pairs| else 3) && s.recentNext == |pairs| % 3
    && forall j :: 0 <= j < |pairs| && |pairs| - 3 <= j ==> s.recent[j % 3] == pairs[j]
  }

  ghost predicate KeepsUp(s: State, pairs: seq<Pair>) {
    Holds(s, pairs) && (|pairs| >= 3 ==> ConfirmedGain(s.reference, MedianReference(s.recent)) <= 0)
  }

  ghost predicate SameMemory(s: State, t: State) {
    s.recent == t.recent && s.recentCount == t.recentCount && s.recentNext == t.recentNext && s.reference == t.reference
  }

  lemma NoGainOnItself(p: Pair)
    ensures ConfirmedGain(p, p) <= 0
  {}

  lemma RememberStep(w: State, pairs: seq<Pair>, position: nat, pair: Pair)
    requires WellFormed(w) && KeepsUp(w, pairs)
    ensures var t := Absorb(w, position, pair);
      KeepsUp(t, if t.dip then pairs else pairs + [pair])
  {
    hide MedianReference, ConfirmedGain, IsStronger;
    var b := TakeBest(w, position, pair);
    var t := Absorb(w, position, pair);
    NoGainOnItself(t.reference);
    if !b.dip {
      var more := pairs + [pair];
      forall j | 0 <= j < |more| && |more| - 3 <= j ensures t.recent[j % 3] == more[j] {
        if j < |pairs| { assert j % 3 != |pairs| % 3 && w.recent[j % 3] == pairs[j]; }
      }
    }
  }

  lemma MemoryOr(p: Phase, r: Reading) returns (w: State)
    requires WellFormed(p.s) && Fits(p, r)
    ensures WellFormed(w) && SameMemory(p.s, w)
    ensures var q := Advance(p, r);
      if q.Searching? then q.s == Absorb(w, r.position, r.pair) else SameMemory(p.s, q.s)
  {
    w := if r.Stop? then Weigh(p.s, r.position, r.step, r.pair) else Recover(p.s);
  }

  /** For every proper sequence of readings: the last three positions remembered are the last
      three taken up outside a dip, and their median, when there are three, is no confirmed gain
      over the reference. */
  lemma {:induction false} ReferenceKeepsUp(baseline: Pair, readings: seq<Reading>)
    requires Proper(baseline, readings)
    ensures KeepsUp(Play(baseline, readings).s, Remembered(baseline, readings))
  {
    hide KeepsUp, Fits, Proper, Absorb, Advance, Play, Remembered;
    if readings == [] {
      RemembersBaseline(baseline);
    } else {
      var before, r := readings[..|readings| - 1], readings[|readings| - 1];
      LastFits(baseline, readings);
      ReferenceKeepsUp(baseline, before);
      var p := Play(baseline, before);
      var w := MemoryOr(p, r);
      KeptUp(p.s, w, Remembered(baseline, before));
      PlayMore(baseline, before, r);
      assert readings == before + [r];
      RememberedMore(baseline, before, r);
      if Play(baseline, readings).Searching? {
        RememberStep(w, Remembered(baseline, before), r.position, r.pair);
      } else {
        KeptUp(p.s, Play(baseline, readings).s, Remembered(baseline, before));
      }
    }
  }

  lemma RemembersBaseline(baseline: Pair)
    ensures KeepsUp(Play(baseline, []).s, Remembered(baseline, []))
  {}

  lemma RememberedMore(baseline: Pair, before: seq<Reading>, r: Reading)
    ensures var p := Play(baseline, before + [r]);
      Remembered(baseline, before + [r]) == if p.Searching? && !p.s.dip then Remembered(baseline, before) + [r.pair] else Remembered(baseline, before)
  {
    hide Play;
    assert (before + [r])[..|before|] == before;
  }

  lemma KeptUp(s: State, t: State, pairs: seq<Pair>)
    requires KeepsUp(s, pairs) && SameMemory(s, t)
    ensures KeepsUp(t, pairs)
  {}

  // Weak positions are counted.

  /** What a stop does to the count of weak positions: weak ones a step or more past the last
      counted one add to it, any other kind ends it, and the third calls for a recheck. Only a
      new best point ends a dip otherwise. */
  lemma StopCounting(baseline: Pair, readings: seq<Reading>, r: Reading)
    requires Play(baseline, readings).Searching? && r.Stop?
    ensures var s, q := Play(baseline, readings).s, Play(baseline, readings + [r]);
      var weak := ReferenceDeclined(s.reference, r.pair);
      var counts := weak && (s.declines == 0 || r.position - s.lastDecline >= r.step);
      var count := s.declines + (if counts then 1 else 0);
      var newBest := q.s.best == r.pair && q.s.bestPosition == r.position && Weaker(r.pair) < Weaker(s.best);
      && (q.Rechecking? <==> weak && count >= 3)
      && (q.Rechecking? || !newBest ==>
            && q.s.declines == (if weak then count else if s.dip then 0 else s.declines)
            && (counts ==> q.s.lastDecline == r.position)
            && (q.s.dip <==> weak || (s.dip && !ReturnConsistent(s.reference, r.pair))))
      && (!q.Rechecking? && newBest ==> q.s.declines == 0 && !q.s.dip)
  {
    PlayMore(baseline, readings, r);
    PlaySound(baseline, readings);
    var s := Play(baseline, readings).s;
    var w := Weigh(s, r.position, r.step, r.pair);
    AbsorbStrengthens(w, r.position, r.pair);
    BestStep(w, r.position, r.pair);
  }
}
