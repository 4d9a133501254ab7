/** Whole runs of the robot's side, and exactly when a COMPLETE can be stale. */
module AttemptRuns {
  import opened Bytes
  import opened PackedBits
  import opened Sorting
  import opened Filters
  import opened Protocol
  import opened Trace
  import opened TransferClient
  import opened ClientTrust

  datatype Happening = Happening(event: RadioEvent, env: Env)

  function Run(c: Client, hs: seq<Happening>): (d: Client)
    requires Bounded(c)
    ensures Bounded(d)
  {
    if hs == [] then c
    else
      var last, before := hs[|hs| - 1], Run(c, hs[..|hs| - 1]);
      BoundedDeliver(before, last.event, last.env);
      Deliver(before, last.event, last.env)
  }

  lemma RunMore(c: Client, hs: seq<Happening>, h: Happening)
    requires Bounded(c)
    ensures Run(c, hs + [h]) == Deliver(Run(c, hs), h.event, h.env)
  {
    hide Bounded;
    assert (hs + [h])[..|hs|] == hs;
  }

  /** No attempt is begun while the last one reports COMPLETE. */
  ghost predicate AllTimely(c: Client, hs: seq<Happening>)
    requires Bounded(c)
  {
    forall k :: 0 <= k < |hs| ==> Timely(Run(c, hs[..k]), hs[k].event)
  }

  /** Whatever the radio, the beacon, the timeouts and STOP do, in any order: a COMPLETE result
      means that the final answer came and that the reply buffer still holds the text that had
      the announced length and CRC. */
  lemma {:induction false} CompleteIsEarned(c: Client, hs: seq<Happening>)
    requires Trusted(c) && AllTimely(c, hs)
    ensures Trusted(Run(c, hs))
    ensures Reported(Run(c, hs).st) ==> Earned(Run(c, hs))
  {
    hide Bounded, Deliver, Checked;
    if hs != [] {
      var n := |hs| - 1;
      forall k | 0 <= k < n ensures Timely(Run(c, hs[..n][..k]), hs[..n][k].event) {
        assert hs[..n][..k] == hs[..k];
        assert Timely(Run(c, hs[..k]), hs[k].event);
      }
      CompleteIsEarned(c, hs[..n]);
      assert Timely(Run(c, hs[..n]), hs[n].event);
      TrustedDeliver(Run(c, hs[..n]), hs[n].event, hs[n].env);
    }
  }

  // One fresh attempt of a client at rest.

  predicate Resting(c: Client) {
    Bounded(c) && c.st.phase.Idle? && !c.st.running && c.connection == INVALID && !c.due.start && !c.due.abort
  }

  predicate NoBegin(hs: seq<Happening>) {
    forall k :: 0 <= k < |hs| ==> !hs[k].event.Begin?
  }

  ghost predicate NextAttemptHonest(c: Client)
    requires Resting(c)
  {
    forall hs :: NoBegin(hs) ==>
      var d := Run(BeginAttempt(c, false), hs);
      Reported(d.st) ==> Earned(d)
  }

  lemma HonestUnlessStale(c: Client)
    requires Resting(c) && c.st.closing != Complete
    ensures NextAttemptHonest(c)
  {
    forall hs | NoBegin(hs)
      ensures var d := Run(BeginAttempt(c, false), hs); Reported(d.st) ==> Earned(d)
    {
      CompleteIsEarned(BeginAttempt(c, false), hs);
    }
  }

  const Willing: Env := Env(true, true, true)

  function Now(e: RadioEvent): Happening {
    Happening(e, Willing)
  }

  /** Twelve readings of -1 dBm average to -1 dBm. */
  lemma AllNear(codes: seq<Code>)
    requires |codes| == SAMPLES && forall i :: 0 <= i < SAMPLES ==> codes[i] == 1
    ensures FilteredRssi(codes) == -1
  {
    var s := SortBy(Identity, Dbm(codes));
    SortIsSorted(Identity, Dbm(codes));
    FilteredRange(codes);
    assert s[3] in multiset(s) && s[8] in multiset(s);
    assert s[3] in multiset(Dbm(codes)) && s[8] in multiset(Dbm(codes));
  }

  /** The proximity check after k such readings. */
  predicate NearAfter(p: Proximity, k: nat) {
    && NearBounded(p) && p.threshold <= -1
    && p.sampleCount == (if k < SAMPLES then k else SAMPLES)
    && p.sampleIndex == k % SAMPLES
    && (forall i :: 0 <= i < k && i < SAMPLES ==> p.samples[i] == 1)
    && p.closeCount == if k < SAMPLES then 0 else k - SAMPLES + 1
  }

  lemma OneReading(p: Proximity, k: nat)
    requires NearAfter(p, k) && k < 14
    ensures NearAfter(AfterReading(p, -1), k + 1)
  {
    var samples := p.samples[p.sampleIndex := Encode(-1)];
    assert Encode(-1) == 1;
    if k + 1 >= SAMPLES { AllNear(samples); }
  }

  // The run that reports a COMPLETE of the past: a beacon qualifies, the main loop gives up
  // while the connection is being made, the connection succeeds all the same.

  predicate StillComplete(c: Client, phase: Phase) {
    && Bounded(c) && c.st.phase == phase && c.st.closing == Complete && c.st.running && !c.shown.acked
    && c.connection == INVALID
  }

  predicate Scanned(c: Client, k: nat) {
    StillComplete(c, Scanning) && !c.st.abort && NearAfter(c.near, k)
  }

  lemma StaleStart(c: Client)
    requires Resting(c) && c.st.closing == Complete && c.near.threshold <= -1
    ensures var d := Deliver(BeginAttempt(c, false), Start, Willing);
      Scanned(d, 0)
  {}

  lemma StaleAdvert(c: Client, k: nat)
    requires Scanned(c, k) && k < 14
    ensures var d := Deliver(c, Advert(true, -1), Willing);
      if k < 13 then Scanned(d, k + 1) && d.st.scanConfirmed == c.st.scanConfirmed
      else StillComplete(d, StoppingForConnect) && !d.st.abort
  {
    hide FilteredRssi, FilesBounded;
    OneReading(c.near, k);
  }

  function Adverts(k: nat): seq<Happening> {
    if k == 0 then [] else Adverts(k - 1) + [Now(Advert(true, -1))]
  }

  lemma {:induction false} AdvertsBeginNothing(k: nat)
    ensures NoBegin(Adverts(k))
  {
    if k > 0 { AdvertsBeginNothing(k - 1); }
  }

  lemma {:induction false} StaleAdverts(c: Client, hs: seq<Happening>, k: nat)
    requires Bounded(c) && Scanned(Run(c, hs), 0) && k <= 14
    ensures if k < 14 then Scanned(Run(c, hs + Adverts(k)), k)
            else StillComplete(Run(c, hs + Adverts(k)), StoppingForConnect) && !Run(c, hs + Adverts(k)).st.abort
  {
    hide Deliver, Bounded, NearAfter;
    if k == 0 {
      assert hs + [] == hs;
    } else {
      StaleAdverts(c, hs, k - 1);
      StaleAdvert(Run(c, hs + Adverts(k - 1)), k - 1);
      RunMore(c, hs + Adverts(k - 1), Now(Advert(true, -1)));
      assert hs + Adverts(k) == hs + Adverts(k - 1) + [Now(Advert(true, -1))];
    }
  }

  lemma StaleConnect(c: Client)
    requires StillComplete(c, StoppingForConnect) && !c.st.abort
    ensures StillComplete(Deliver(c, ScanDone(true), Willing), Connecting)
  {}

  lemma StaleAbort(c: Client)
    requires StillComplete(c, Connecting)
    ensures StillComplete(Deliver(c, RequestAbort, Willing), Connecting)
    ensures Deliver(c, RequestAbort, Willing).st.abort
  {}

  lemma StaleConnected(c: Client)
    requires StillComplete(c, Connecting) && c.st.abort
    ensures var d := Deliver(c, ConnectionDone(true, 1), Willing);
      Bounded(d) && d.st.phase.Closing? && d.connection == 1 && d.st.closing == Complete && !d.shown.acked
  {}

  lemma StaleReported(c: Client)
    requires Bounded(c) && c.st.phase.Closing? && c.connection == 1 && c.st.closing == Complete && !c.shown.acked
    ensures var d := Deliver(c, Disconnection(1), Willing);
      Reported(d.st) && !d.shown.acked
  {}

  lemma StaleRun(c: Client) returns (hs: seq<Happening>)
    requires Resting(c) && c.st.closing == Complete && c.near.threshold <= -1
    ensures NoBegin(hs) && Reported(Run(BeginAttempt(c, false), hs).st) && !Run(BeginAttempt(c, false), hs).shown.acked
  {
    hide Deliver, Bounded, NearAfter, Run;
    var b := BeginAttempt(c, false);
    assert Bounded(b) by { BeginBounded(c); }
    RunOne(b, Now(Start));
    StaleStart(c);
    var h1 := [Now(Start)];
    StaleAdverts(b, h1, 14);
    AdvertsBeginNothing(14);
    var h2 := h1 + Adverts(14);
    var h3, h4, h5 := h2 + [Now(ScanDone(true))], h2 + [Now(ScanDone(true))] + [Now(RequestAbort)],
                      h2 + [Now(ScanDone(true))] + [Now(RequestAbort)] + [Now(ConnectionDone(true, 1))];
    RunMore(b, h2, Now(ScanDone(true)));
    StaleConnect(Run(b, h2));
    RunMore(b, h3, Now(RequestAbort));
    StaleAbort(Run(b, h3));
    RunMore(b, h4, Now(ConnectionDone(true, 1)));
    StaleConnected(Run(b, h4));
    RunMore(b, h5, Now(Disconnection(1)));
    StaleReported(Run(b, h5));
    hs := h5 + [Now(Disconnection(1))];
  }

  lemma BeginBounded(c: Client)
    requires Bounded(c)
    ensures Bounded(BeginAttempt(c, false))
  {}

  lemma RunOne(c: Client, h: Happening)
    requires Bounded(c)
    ensures Run(c, [h]) == Deliver(c, h.event, h.env)
  {
    hide Bounded;
    RunMore(c, [], h);
    assert [] + [h] == [h];
  }

  /** At rest, the next fresh attempt can only report COMPLETE honestly exactly when the last
      one did not end in COMPLETE. */
  lemma HonestIffNotComplete(c: Client)
    requires Resting(c) && c.near.threshold <= -1
    ensures NextAttemptHonest(c) <==> c.st.closing != Complete
  {
    if c.st.closing != Complete {
      HonestUnlessStale(c);
    } else {
      var hs := StaleRun(c);
    }
  }
}
