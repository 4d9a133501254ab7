/** What an outside observer could record of a run, and which recordings are acceptable.
    Every component reports to one trace; a run is safe when each event was acceptable
    after the ones before it. */
module Trace {

  datatype Result = NotClose | Retry | Complete | Fatal

  /** Why a block is driven: along a line, as a dip probe, back to a best point, or on the mat. */
  datatype Purpose = Line | Probe | Return | Mat

  /** Surface under the colour sensor, from unreadable to the darkest ring. */
  datatype Zone = Unknown | Floor | White | Ring1 | Ring2 | Ring3 | Ring4 | Ring5

  predicate Dark(z: Zone) {
    z.Ring4? || z.Ring5?
  }

  predicate LighterMat(z: Zone) {
    z.White? || z.Ring1? || z.Ring2? || z.Ring3?
  }

  /** Where the robot is when it asks colour and the beacon: at the start of the run, after a
      missing sample, at a suspected decline, after a block, or at rest on the mat. */
  datatype Site = Opening | Missed | InPlace | AfterBlock(purpose: Purpose) | AtRest

  const MAT_MAX_SCANS: nat := 6
  const MAX_RUN_MS: nat := 900000

  /** Why a run ends undelivered, besides a refused block and a fatal attempt: STOP, the report or
      the time limit; a save that failed; a turn, pause or block that was not carried out; the
      radio; a block charged out of bounds; no sample; a close beacon lost; a full profile; still
      arrived after waiting at rest on the mat; no direction left. */
  datatype Reason =
    | Halted(stop: bool, reportFailed: bool, elapsed: int)
    | SaveFailed | NotMoved | RadioFailed | Overcharged(duration: nat, actual: nat) | ProfileFull(points: nat)
    | WifiLost(misses: nat) | BeaconLost(tries: nat) | StillArrived(waits: nat) | NoDirection(trials: nat)

  datatype Event =
    | Printed(powered: bool)
    | Saved(powered: bool, scanOpen: bool)
    | SamplerFailed
    | TurnBegan(powered: bool)
    | ScanBegan
    | Looked(zone: Zone)
    | Cleared(stop: bool, reportFailed: bool, elapsed: int)
    | Asked(site: Site)
    | ColourChecked(zones: seq<Zone>, arrived: bool)
    | ColourFailed
    | ScanSawLighter
    | Attempted(first: bool, loose: bool, sensor: bool, powered: bool, scanOpen: bool, result: Result)
    | Drove(purpose: Purpose, duration: nat, actual: nat)
    | Refused(purpose: Purpose, required: nat)
    | Ended(reason: Reason)

  /** How far colour steering has got: scans begun, whether one has begun since the beacon was
      last asked, and where that was. */
  datatype Course = Course(scans: nat, scanned: bool, site: Site)

  /** What has been driven: powered milliseconds, blocks on the mat and blocks along a line. */
  datatype Driven = Driven(charged: nat, mat: nat, lines: nat)

  /** What the acceptance rules need to know of the past. */
  datatype History = History(
    retried: bool,     // some attempt ended in RETRY
    completed: bool,   // some attempt ended in COMPLETE
    sighted: bool,     // a lighter mat surface has been seen
    arrived: bool,     // the latest colour check arrived
    justChecked: bool, // nothing but printing has happened since that check
    driven: Driven,
    saved: bool,       // the log has been saved since the last block
    asked: bool,       // colour or beacon has been asked since the last block
    failed: bool,      // the sampler has failed
    ended: bool,       // there is a reason to end the run undelivered
    cleared: bool,     // the run was last allowed to continue with no block, turn, scan or question since
    looked: bool,      // the present colour scan has seen a lighter mat surface
    course: Course)

  const Beginning: History := History(false, false, false, false, false, Driven(0, 0, 0), false, false, false, false, false, false, Course(0, false, Opening))

  ghost predicate Sighting(zones: seq<Zone>) {
    exists i :: 0 <= i < |zones| && LighterMat(zones[i])
  }

  ghost predicate AllDark(zones: seq<Zone>) {
    forall i :: 0 <= i < |zones| ==> Dark(zones[i])
  }

  ghost function Next(h: History, e: Event): History {
    History(
      h.retried || (e.Attempted? && e.result == Retry),
      h.completed || (e.Attempted? && e.result == Complete),
      h.sighted || e.ScanSawLighter? || (e.ColourChecked? && Sighting(e.zones)),
      if e.ColourChecked? then e.arrived else h.arrived && !e.ColourFailed?,
      e.ColourChecked? || e.ColourFailed? || (e.Printed? && h.justChecked),
      if e.Drove? then Further(h.driven, e.purpose, e.actual) else h.driven,
      e.Saved? || (h.saved && !e.Drove?),
      e.ColourChecked? || e.ColourFailed? || e.Attempted? || (h.asked && !e.Drove?),
      h.failed || e.SamplerFailed?,
      h.ended || e.Ended? || e.Refused? || (e.Attempted? && e.result == Fatal),
      e.Cleared? || (h.cleared && !e.Drove? && !e.TurnBegan? && !e.ScanBegan? && !e.Asked?),
      (e.Looked? && LighterMat(e.zone)) || (h.looked && !e.ScanBegan?),
      NextCourse(h.course, e))
  }

  function Further(d: Driven, purpose: Purpose, actual: nat): Driven {
    Driven(d.charged + actual, if purpose == Mat then d.mat + 1 else d.mat, if purpose == Line then d.lines + 1 else d.lines)
  }

  function NextCourse(c: Course, e: Event): Course {
    match e
    case ScanBegan => Course(c.scans + 1, true, c.site)
    case Asked(site) => Course(c.scans, false, site)
    case _ => c
  }

  /** What a colour check does to the history. */
  lemma NextChecked(h: History, zones: seq<Zone>, arrived: bool)
    ensures Next(h, ColourChecked(zones, arrived)) ==
      h.(sighted := h.sighted || Sighting(zones), arrived := arrived, justChecked := true, asked := true)
    ensures Next(h, ColourFailed) == h.(arrived := false, justChecked := true, asked := true)
  {
    hide Sighting;
  }

  lemma NextCleared(h: History, stop: bool, reportFailed: bool, elapsed: int)
    ensures Next(h, Cleared(stop, reportFailed, elapsed)) == h.(cleared := true, justChecked := false)
  {}

  lemma NextEnded(h: History, reason: Reason)
    ensures Next(h, Ended(reason)) == h.(ended := true, justChecked := false)
  {}

  lemma NextSaved(h: History)
    ensures Next(h, Saved(false, false)) == h.(saved := true, justChecked := false)
  {}

  lemma NextAttempted(h: History, first: bool, loose: bool, sensor: bool, result: Result)
    ensures Next(h, Attempted(first, loose, sensor, false, false, result)) ==
      h.(retried := h.retried || result == Retry, completed := h.completed || result == Complete, justChecked := false, asked := true,
         ended := h.ended || result == Fatal)
  {}

  lemma NextLooked(h: History, zone: Zone)
    ensures Next(h, Looked(zone)) == h.(looked := h.looked || LighterMat(zone), justChecked := false)
  {}

  /** What a block does to the history. */
  lemma NextDrove(h: History, purpose: Purpose, duration: nat, actual: nat)
    ensures Next(h, Drove(purpose, duration, actual)) == h.(driven := Further(h.driven, purpose, actual), saved := false,
      asked := false, justChecked := false, cleared := false)
  {}

  /** Nothing has changed but the freshness of the latest colour check and of the saved log, and
      perhaps the sampler has failed. */
  ghost predicate Steady(h: History, g: History) {
    && g == h.(justChecked := g.justChecked, saved := g.saved, failed := g.failed)
    && (h.saved ==> g.saved) && (h.failed ==> g.failed)
  }

  /** The same, and perhaps a reason has come up to end the run. */
  ghost predicate Lasting(h: History, g: History) {
    && g == h.(justChecked := g.justChecked, saved := g.saved, failed := g.failed, ended := g.ended, cleared := g.cleared)
    && (h.saved ==> g.saved) && (h.failed ==> g.failed) && (h.ended ==> g.ended) && (h.cleared ==> g.cleared)
  }

  /** Nothing has changed but what a colour check changes. */
  ghost predicate OnlyColour(h: History, g: History) {
    g == h.(sighted := g.sighted, arrived := g.arrived, justChecked := g.justChecked, asked := g.asked)
  }

  lemma NothingAtAll(h: History)
    ensures OnlyColour(h, h)
  {}

  lemma LastingOn(h: History)
    ensures Lasting(h, h.(cleared := true, justChecked := false))
    ensures Lasting(h, h.(ended := true, justChecked := false))
  {}

  lemma SteadySame(h: History)
    ensures Steady(h, h)
  {}

  lemma SteadyThen(f: History, g: History, h: History)
    requires Steady(f, g) && Steady(g, h)
    ensures Steady(f, h)
  {}

  lemma SteadyFailing(h: History)
    ensures Steady(h, Next(h, SamplerFailed))
  {}

  /** Where an arrival does not bring the robot under colour steering. */
  predicate Drifts(site: Site) {
    site.Missed? || site.InPlace? || site == AfterBlock(Probe) || site == AfterBlock(Return)
  }

  /** A block along a line never follows an arrival, unless all scans are used up, one has begun
      since, or the arrival was seen where colour steering does not take over. */
  predicate MayGoOn(h: History) {
    !h.arrived || h.course.scans >= MAT_MAX_SCANS || h.course.scanned || Drifts(h.course.site)
  }

  /** Colour steering only begins on the latest check, and not where it does not take over. */
  predicate MaySteer(c: Course) {
    !c.scanned && !Drifts(c.site)
  }

  ghost predicate Acceptable(h: History, e: Event) {
    match e
    case Printed(powered) => !powered
    // Nothing is saved and no attempt started once the sampler has failed.
    case Saved(powered, scanOpen) => !powered && !scanOpen && !h.failed && !h.ended
    case TurnBegan(powered) => !powered && !h.retried && !h.completed && !h.ended
    case ScanBegan => h.course.scans < MAT_MAX_SCANS && MaySteer(h.course) && !h.ended
    // Arrival needs three dark readings and a lighter surface seen strictly earlier.
    case ColourChecked(zones, arrived) => |zones| == 3 && (arrived <==> AllDark(zones) && h.sighted)
    // The loose gate only right after an arrival, the strict one only without a sensor; another
    // attempt exactly after a RETRY; and none after one has completed.
    case Attempted(first, loose, sensor, powered, scanOpen, _) =>
      && !powered && !scanOpen && !h.failed && !h.completed && !h.ended
      && (first ==> if loose then h.arrived && h.justChecked else !sensor)
      && (first <==> !h.retried)
    // Nothing is driven after a RETRY or a COMPLETE, nor on the mat after an arrival; and
    // between two blocks the log is saved and colour or beacon asked.
    case Drove(purpose, _, _) =>
      && !h.retried && !h.completed && !h.ended && h.saved && h.asked && h.cleared
      && (purpose == Mat ==> !h.arrived) && (purpose == Line ==> MayGoOn(h))
    // A block is refused exactly for want of budget, and a return never is.
    case Refused(purpose, required) => purpose != Return && h.driven.charged + required > 60000
    case Ended(Overcharged(duration, actual)) => actual == 0 || actual > duration + 25 || h.driven.charged > 60000
    case Ended(ProfileFull(points)) => points >= 32
    // An arrival ends a run only at rest on the mat; and nothing is given up before or after the third try.
    // The run is allowed to continue exactly without STOP, a failed report and the time limit.
    case Cleared(stop, reportFailed, elapsed) => !stop && !reportFailed && elapsed < MAX_RUN_MS
    case Ended(Halted(stop, reportFailed, elapsed)) => stop || reportFailed || elapsed >= MAX_RUN_MS
    // A colour scan only counts as a sighting if it has seen a lighter surface.
    case ScanSawLighter => h.looked
    case Ended(StillArrived(waits)) => h.arrived && h.course.site.AtRest? && waits == 3
    case Ended(BeaconLost(tries)) => h.retried && tries == 3
    case Ended(WifiLost(misses)) => misses == 3
    case Ended(NoDirection(trials)) => trials == 3
    case _ => true
  }

  ghost function Fold(t: seq<Event>): History {
    if t == [] then Beginning else Next(Fold(t[..|t| - 1]), t[|t| - 1])
  }

  ghost predicate Safe(t: seq<Event>) {
    forall i :: 0 <= i < |t| ==> Acceptable(Fold(t[..i]), t[i])
  }

  lemma SafeMore(t: seq<Event>, e: Event)
    requires Safe(t) && Acceptable(Fold(t), e)
    ensures Safe(t + [e]) && Fold(t + [e]) == Next(Fold(t), e)
  {
    var u := t + [e];
    assert u[..|t|] == t;
    forall i | 0 <= i < |u| ensures Acceptable(Fold(u[..i]), u[i]) {
      if i < |t| { assert u[..i] == t[..i]; }
    }
  }

  // What a safe trace means over time.

  lemma FoldSnoc(t: seq<Event>, n: nat)
    requires 0 < n <= |t|
    ensures Fold(t[..n]) == Next(Fold(t[..n - 1]), t[n - 1])
  {
    hide Next;
    assert t[..n][..n - 1] == t[..n - 1];
  }

  lemma {:induction false} ResultKept(t: seq<Event>, i: nat, n: nat)
    requires i < n <= |t| && t[i].Attempted?
    ensures t[i].result == Retry ==> Fold(t[..n]).retried
    ensures t[i].result == Complete ==> Fold(t[..n]).completed
  {
    hide Fold;
    FoldSnoc(t, n);
    if i < n - 1 {
      ResultKept(t, i, n - 1);
    }
  }

  /** Once an attempt has returned RETRY or COMPLETE the robot never drives again, and after a
      COMPLETE no attempt is ever started. */
  lemma NoDriveAfterResult(t: seq<Event>, i: nat, j: nat)
    requires Safe(t) && i < j < |t| && t[i].Attempted? && t[i].result in {Retry, Complete}
    ensures !t[j].Drove?
    ensures t[i].result == Complete ==> !t[j].Attempted?
  {
    ResultKept(t, i, j);
  }

  lemma LastWitness(t: seq<Event>, n: nat)
    requires 0 < n <= |t|
    ensures t[n - 1].Saved? ==> exists k :: 0 <= k < n && t[k].Saved? && forall m :: k < m < n ==> !t[m].Drove?
    ensures t[n - 1].ColourChecked? || t[n - 1].ColourFailed? || t[n - 1].Attempted? ==>
      exists k :: 0 <= k < n && (t[k].ColourChecked? || t[k].ColourFailed? || t[k].Attempted?) && forall m :: k < m < n ==> !t[m].Drove?
  {
    var k := n - 1;
    assert 0 <= k < n && t[k] == t[n - 1];
  }

  lemma {:induction false} FlagsSince(t: seq<Event>, n: nat)
    requires n <= |t|
    ensures Fold(t[..n]).saved ==> exists k :: 0 <= k < n && t[k].Saved? && forall m :: k < m < n ==> !t[m].Drove?
    ensures Fold(t[..n]).asked ==>
      exists k :: 0 <= k < n && (t[k].ColourChecked? || t[k].ColourFailed? || t[k].Attempted?) && forall m :: k < m < n ==> !t[m].Drove?
  {
    if n > 0 {
      FoldSnoc(t, n);
      hide Fold;
      FlagsSince(t, n - 1);
      LastWitness(t, n);
    } else {
      assert t[..0] == [];
    }
  }

  /** Between two blocks the log is saved, and colour or beacon asked. */
  lemma SavedAndAskedBetween(t: seq<Event>, i: nat, j: nat)
    requires Safe(t) && i < j < |t| && t[i].Drove? && t[j].Drove?
    ensures exists k :: i < k < j && t[k].Saved?
    ensures exists k :: i < k < j && (t[k].ColourChecked? || t[k].ColourFailed? || t[k].Attempted?)
  {
    hide Next, Fold, Sighting, AllDark, MayGoOn;
    FlagsSince(t, j);
    var k :| 0 <= k < j && t[k].Saved? && forall m :: k < m < j ==> !t[m].Drove?;
    var l :| 0 <= l < j && (t[l].ColourChecked? || t[l].ColourFailed? || t[l].Attempted?) && forall m :: l < m < j ==> !t[m].Drove?;
    assert i < k && i < l;
  }

  lemma {:induction false} FreshSince(t: seq<Event>, n: nat) returns (j: nat)
    requires n <= |t| && Fold(t[..n]).justChecked
    ensures j < n && (t[j].ColourChecked? || t[j].ColourFailed?)
    ensures Fold(t[..n]).arrived <==> t[j].ColourChecked? && t[j].arrived
    ensures forall k :: j < k < n ==> t[k].Printed?
  {
    assert n > 0;
    FoldSnoc(t, n);
    hide Fold, Sighting;
    if t[n - 1].Printed? {
      j := FreshSince(t, n - 1);
    } else {
      j := n - 1;
    }
  }

  lemma {:induction false} SightedSince(t: seq<Event>, n: nat) returns (m: nat)
    requires n <= |t| && Fold(t[..n]).sighted
    ensures m < n && (t[m].ScanSawLighter? || (t[m].ColourChecked? && Sighting(t[m].zones)))
  {
    assert n > 0;
    FoldSnoc(t, n);
    hide Fold, Sighting;
    if t[n - 1].ScanSawLighter? || (t[n - 1].ColourChecked? && Sighting(t[n - 1].zones)) {
      m := n - 1;
    } else {
      m := SightedSince(t, n - 1);
    }
  }

  /** A first attempt under the loose gate follows directly on a colour check whose three
      readings were all dark, and some lighter mat surface was seen strictly before that check. */
  lemma LooseGateNeedsArrival(t: seq<Event>, i: nat) returns (j: nat, m: nat)
    requires Safe(t) && i < |t| && t[i].Attempted? && t[i].first && t[i].loose
    ensures m < j < i
    ensures forall k :: j < k < i ==> t[k].Printed?
    ensures t[j].ColourChecked? && t[j].arrived && |t[j].zones| == 3 && AllDark(t[j].zones)
    ensures if t[m].ScanSawLighter? then exists l :: 0 <= l < m && t[l].Looked? && LighterMat(t[l].zone)
            else t[m].ColourChecked? && Sighting(t[m].zones)
  {
    hide Acceptable, Fold, Next, Sighting, AllDark;
    AcceptedAttempt(Fold(t[..i]), t[i]);
    j := FreshSince(t, i);
    AcceptedSighting(Fold(t[..j]), t[j]);
    m := SightedSince(t, j);
    AcceptedSighting(Fold(t[..m]), t[m]);
    if t[m].ScanSawLighter? {
      var l := LookedSince(t, m);
    }
  }

  lemma AcceptedAttempt(h: History, e: Event)
    requires Acceptable(h, e) && e.Attempted? && e.first && e.loose
    ensures h.arrived && h.justChecked
  {}

  lemma AcceptedSighting(h: History, e: Event)
    requires Acceptable(h, e)
    ensures e.ScanSawLighter? ==> h.looked
    ensures e.ColourChecked? ==> |e.zones| == 3 && (e.arrived <==> AllDark(e.zones) && h.sighted)
  {}

  lemma {:induction false} LookedSince(t: seq<Event>, n: nat) returns (l: nat)
    requires n <= |t| && Fold(t[..n]).looked
    ensures l < n && t[l].Looked? && LighterMat(t[l].zone)
  {
    assert n > 0;
    FoldSnoc(t, n);
    hide Fold;
    if t[n - 1].Looked? && LighterMat(t[n - 1].zone) {
      l := n - 1;
    } else {
      l := LookedSince(t, n - 1);
    }
  }

  lemma {:induction false} ClearedSince(t: seq<Event>, n: nat) returns (k: nat)
    requires n <= |t| && Fold(t[..n]).cleared
    ensures k < n && t[k].Cleared?
    ensures forall m :: k < m < n ==> !t[m].Drove? && !t[m].TurnBegan? && !t[m].ScanBegan? && !t[m].Asked?
  {
    assert n > 0;
    FoldSnoc(t, n);
    hide Fold;
    if t[n - 1].Cleared? {
      k := n - 1;
    } else {
      k := ClearedSince(t, n - 1);
    }
  }

  /** Before every block, and after any block, turn, scan or question, the run was found to have
      no STOP, no failed report and time left. */
  lemma BlocksAreCleared(t: seq<Event>, i: nat) returns (k: nat)
    requires Safe(t) && i < |t| && t[i].Drove?
    ensures k < i && t[k].Cleared? && !t[k].stop && !t[k].reportFailed && t[k].elapsed < MAX_RUN_MS
    ensures forall m :: k < m < i ==> !t[m].Drove? && !t[m].TurnBegan? && !t[m].ScanBegan? && !t[m].Asked?
  {
    hide Next, Fold, MayGoOn, AllDark, Sighting;
    assert Acceptable(Fold(t[..i]), t[i]);
    k := ClearedSince(t, i);
    assert Acceptable(Fold(t[..k]), t[k]);
  }

  lemma {:induction false} FailureKept(t: seq<Event>, i: nat, n: nat)
    requires i < n <= |t| && t[i].SamplerFailed?
    ensures Fold(t[..n]).failed
  {
    hide Fold;
    FoldSnoc(t, n);
    if i < n - 1 { FailureKept(t, i, n - 1); }
  }

  /** Once the sampler has failed nothing is saved and no attempt is started any more. */
  lemma NothingAfterFailure(t: seq<Event>, i: nat, j: nat)
    requires Safe(t) && i < j < |t| && t[i].SamplerFailed?
    ensures !t[j].Saved? && !t[j].Attempted?
  {
    FailureKept(t, i, j);
  }

  lemma {:induction false} FirstRetry(t: seq<Event>, n: nat) returns (j: nat)
    requires n <= |t| && Fold(t[..n]).retried
    ensures j < n && t[j].Attempted? && t[j].result == Retry && !Fold(t[..j]).retried
  {
    assert n > 0;
    FoldSnoc(t, n);
    hide Fold;
    if Fold(t[..n - 1]).retried {
      j := FirstRetry(t, n - 1);
    } else {
      j := n - 1;
    }
  }

  /** Another attempt leads back to a first one that returned RETRY, and between the two there
      are further attempts but no block and no turn. */
  lemma RetryLeadsBack(t: seq<Event>, i: nat) returns (j: nat)
    requires Safe(t) && i < |t| && t[i].Attempted? && !t[i].first
    ensures j < i && t[j].Attempted? && t[j].first && t[j].result == Retry
    ensures forall k :: j < k < i ==> !t[k].Drove? && !t[k].TurnBegan? && (t[k].Attempted? ==> !t[k].first)
  {
    hide Next, Fold, Sighting, AllDark, MayGoOn;
    j := FirstRetry(t, i);
    forall k | j < k < i ensures !t[k].Drove? && !t[k].TurnBegan? && (t[k].Attempted? ==> !t[k].first) {
      ResultKept(t, j, k);
      assert Acceptable(Fold(t[..k]), t[k]);
    }
  }

  // Driving on after an arrival.

  /** How many colour scans have begun. */
  function Scans(t: seq<Event>): nat {
    if t == [] then 0 else Scans(t[..|t| - 1]) + (if t[|t| - 1].ScanBegan? then 1 else 0)
  }

  /** Event j is the latest request to colour and the beacon. */
  ghost predicate LatestAsk(t: seq<Event>, j: nat) {
    j < |t| && t[j].Asked? && forall k :: j < k < |t| ==> !t[k].Asked?
  }

  ghost predicate ScannedSince(t: seq<Event>, j: nat) {
    exists k :: j < k < |t| && t[k].ScanBegan?
  }

  lemma {:induction false} ScansAreCounted(t: seq<Event>)
    ensures Fold(t).course.scans == Scans(t)
  {
    if t != [] {
      var before, e := t[..|t| - 1], t[|t| - 1];
      assert Fold(t) == Next(Fold(before), e);
      hide Fold;
      ScansAreCounted(before);
    }
  }

  lemma {:induction false} CourseSince(t: seq<Event>, j: nat)
    requires LatestAsk(t, j)
    ensures Fold(t).course.site == t[j].site && (Fold(t).course.scanned <==> ScannedSince(t, j))
  {
    var before, e := t[..|t| - 1], t[|t| - 1];
    assert Fold(t) == Next(Fold(before), e);
    hide Fold;
    if j < |t| - 1 {
      CourseSince(before, j);
      if ScannedSince(before, j) {
        var k :| j < k < |before| && before[k].ScanBegan?;
        assert t[k] == before[k];
      }
      if ScannedSince(t, j) && !e.ScanBegan? {
        var k :| j < k < |t| && t[k].ScanBegan?;
        assert before[k] == t[k];
      }
    }
  }

  /** After an arrival the robot never drives on the mat; and whether it next drives along a line
      or begins a colour scan is decided: a line block, if all six scans are used up, one has
      begun since the robot last asked, or it last asked after a missing sample, at a suspected
      decline, after a probe or after a return; otherwise a scan. */
  lemma ArrivalDecides(t: seq<Event>, e: Event, j: nat)
    requires Safe(t + [e]) && LatestAsk(t, j) && Fold(t).arrived
    ensures !(e.Drove? && e.purpose == Mat)
    ensures var goesOn := Scans(t) >= MAT_MAX_SCANS || ScannedSince(t, j) || Drifts(t[j].site);
      && (e.Drove? && e.purpose == Line ==> goesOn)
      && (e.ScanBegan? ==> !goesOn)
  {
    hide Next, Fold, Safe, Sighting, AllDark, Scans, ScannedSince, LatestAsk;
    ScansAreCounted(t);
    CourseSince(t, j);
    LastAcceptable(t, e);
  }

  lemma LastAcceptable(t: seq<Event>, e: Event)
    requires Safe(t + [e])
    ensures Acceptable(Fold(t), e)
  {
    hide Next, Fold, Acceptable;
    var u := t + [e];
    assert u[..|t|] == t && u[|t|] == e;
    assert Acceptable(Fold(u[..|t|]), u[|t|]);
  }

  ghost predicate EndsRun(e: Event) {
    e.Ended? || e.Refused? || (e.Attempted? && e.result == Fatal)
  }

  lemma {:induction false} EndKept(t: seq<Event>, i: nat, n: nat)
    requires i < n <= |t| && EndsRun(t[i])
    ensures Fold(t[..n]).ended
  {
    hide Fold;
    FoldSnoc(t, n);
    if i < n - 1 { EndKept(t, i, n - 1); }
  }

  lemma {:induction false} EndedSince(t: seq<Event>, n: nat) returns (i: nat)
    requires n <= |t| && Fold(t[..n]).ended
    ensures i < n && EndsRun(t[i])
  {
    assert n > 0;
    FoldSnoc(t, n);
    hide Fold;
    if EndsRun(t[n - 1]) {
      i := n - 1;
    } else {
      i := EndedSince(t, n - 1);
    }
  }

  /** A run that has come to an end has a reason on record. Nothing is driven, turned, scanned,
      saved or attempted after it, and an arrival is a reason only at rest on the mat,
      the guard only with one of its three causes, and a refusal only where the budget would be
      exceeded. */
  lemma EndIsFinal(t: seq<Event>) returns (i: nat)
    requires Safe(t) && Fold(t).ended
    ensures i < |t| && EndsRun(t[i])
    ensures forall k :: i < k < |t| ==> !t[k].Drove? && !t[k].TurnBegan? && !t[k].ScanBegan? && !t[k].Saved? && !t[k].Attempted?
    ensures t[i].Ended? && t[i].reason.StillArrived? ==> Fold(t[..i]).arrived && Fold(t[..i]).course.site.AtRest?
    ensures t[i].Ended? && t[i].reason.Halted? ==> t[i].reason.stop || t[i].reason.reportFailed || t[i].reason.elapsed >= MAX_RUN_MS
    ensures t[i].Refused? ==> t[i].purpose != Return && PoweredTime(t[..i]) + t[i].required > 60000
  {
    hide Next, Fold, Sighting, AllDark, MayGoOn;
    assert t[..|t|] == t;
    i := EndedSince(t, |t|);
    assert Acceptable(Fold(t[..i]), t[i]);
    ChargedIsPoweredTime(t[..i]);
    forall k | i < k < |t|
      ensures !t[k].Drove? && !t[k].TurnBegan? && !t[k].ScanBegan? && !t[k].Saved? && !t[k].Attempted?
    {
      EndKept(t, i, k);
      assert Acceptable(Fold(t[..k]), t[k]);
    }
  }

  /** The powered time a trace records. */
  function PoweredTime(t: seq<Event>): nat {
    if t == [] then 0
    else PoweredTime(t[..|t| - 1]) + (if t[|t| - 1].Drove? then t[|t| - 1].actual else 0)
  }

  lemma {:induction false} ChargedIsPoweredTime(t: seq<Event>)
    ensures Fold(t).driven.charged == PoweredTime(t)
  {
    if t != [] {
      ChargedIsPoweredTime(t[..|t| - 1]);
    }
  }

  class Recorder {
    ghost var trace: seq<Event>
    ghost var history: History
    var failed: bool           // the report has failed

    ghost predicate Valid()
      reads this
    {
      Safe(trace) && history == Fold(trace)
    }

    constructor ()
      ensures Valid() && trace == [] && history == Beginning
    {
      trace, history, failed := [], Beginning, false;
    }

    ghost method Emit(e: Event)
      requires Valid() && Acceptable(history, e)
      modifies this`trace, this`history
      ensures Valid() && trace == old(trace) + [e] && history == Next(old(history), e)
    {
      SafeMore(trace, e);
      trace, history := trace + [e], Next(history, e);
    }

    /** `report_ok`: a failure of the report may come at any time and stays. */
    method ReportOk() returns (ok: bool)
      modifies this`failed
      ensures ok == !failed && (old(failed) ==> failed)
    {
      var fails: bool := *;
      if fails { failed := true; }
      ok := !failed;
    }

    /** A line of the report is formatted. */
    method Print(ghost powered: bool)
      requires Valid() && !powered
      modifies this`trace, this`history
      ensures Valid() && history == old(history)
    {
      Emit(Printed(powered));
    }
  }
}
