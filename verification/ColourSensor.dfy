/** Arrival by colour: three fresh readings per check, a lighter surface seen beforehand, and a
    sensor that switches itself off after three failed checks. Classifying a reading is left
    to the environment. */
module ColourSensor {
  import opened Trace

  const SAMPLES: nat := 3
  const MAX_FAILED_CHECKS: nat := 3

  predicate MatZone(z: Zone) {
    !z.Unknown? && !z.Floor?
  }

  function Depth(z: Zone): int {
    match z
    case Unknown => -1
    case Floor => 0
    case White => 1
    case Ring1 => 2
    case Ring2 => 3
    case Ring3 => 4
    case Ring4 => 5
    case Ring5 => 6
  }

  class Sensor {
    const recorder: Recorder
    var available: bool
    var lighterSeen: bool
    var onMat: bool
    var lastDepth: int
    var failedChecks: nat

    /** What the sensor remembers of the run agrees with the record of it. */
    ghost predicate Valid()
      reads this, recorder
    {
      Remembers() && (recorder.history.arrived ==> onMat)
    }

    /** The same in the middle of a check. */
    ghost predicate Remembers()
      reads this, recorder
    {
      && recorder.Valid()
      && lighterSeen == recorder.history.sighted
      && (recorder.history.arrived ==> available)
      && (available ==> failedChecks < MAX_FAILED_CHECKS)
    }

    constructor (recorder: Recorder, available: bool)
      requires recorder.Valid() && recorder.history == Beginning
      ensures Valid() && this.recorder == recorder
      ensures recorder.history == old(recorder.history)
    {
      this.recorder, this.available := recorder, available;
      lighterSeen, onMat, lastDepth, failedChecks := false, false, -1, 0;
    }

    /** `colour_arrival_reset`. */
    method Reset()
      requires recorder.Valid() && recorder.history == Beginning
      modifies this`lighterSeen, this`onMat, this`lastDepth, this`failedChecks
      ensures Valid()
    {
      lighterSeen, onMat, lastDepth, failedChecks := false, false, -1, 0;
    }

    predicate OnMat()
      reads this
    {
      available && onMat
    }

    function LastDepth(): int
      reads this
    {
      if available then lastDepth else -1
    }

    method NoteLighter()
      requires Valid() && recorder.history.looked
      modifies this`lighterSeen, recorder
      ensures Valid() && lighterSeen
      ensures recorder.history == Next(old(recorder.history), ScanSawLighter)
    {
      lighterSeen := true;
      recorder.Emit(ScanSawLighter);
    }

    /** `colour_sensor_read` followed by classification. */
    method Read() returns (ok: bool, zone: Zone)
      ensures ok ==> available
    {
      ok := *;
      ok := ok && available;
      zone := *;
    }

    /** The check's reading loop: three readings, or fewer when one fails. */
    method FreshZones() returns (ok: bool, zones: seq<Zone>, allDark: bool)
      ensures ok ==> |zones| == SAMPLES
      ensures allDark <==> AllDark(zones)
    {
      zones, allDark, ok := [], true, true;
      while |zones| < SAMPLES && ok
        invariant |zones| <= SAMPLES
        invariant allDark <==> AllDark(zones)
        decreases SAMPLES - |zones|, ok
      {
        ok := *;
        if ok {
          var zone: Zone := *;
          ghost var before := zones;
          zones := zones + [zone];
          if !Dark(zone) { allDark := false; }
          assert AllDark(zones) <==> AllDark(before) && Dark(zone) by { AllDarkMore(before, zone); }
        }
      }
    }

    /** The check's second loop: what the readings say about the surface. */
    method NoteZones(zones: seq<Zone>)
      requires |zones| == SAMPLES && !onMat
      modifies this`lighterSeen, this`onMat
      ensures lighterSeen <==> old(lighterSeen) || Sighting(zones)
      ensures onMat <==> exists k :: 0 <= k < SAMPLES && MatZone(zones[k])
    {
      for i := 0 to SAMPLES
        invariant lighterSeen <==> old(lighterSeen) || Sighting(zones[..i])
        invariant onMat <==> exists k :: 0 <= k < i && MatZone(zones[k])
      {
        SightingMore(zones, i);
        if LighterMat(zones[i]) { lighterSeen := true; }
        if MatZone(zones[i]) { onMat := true; }
      }
      assert zones[..SAMPLES] == zones;
    }

    /** `colour_arrival_check`. A check never both introduces and satisfies the requirement
        for a lighter surface; a failed check never arrives, and the third in a row disables
        the sensor for good. */
    method ArrivalCheck(ghost powered: bool) returns (arrived: bool)
      requires Valid() && !powered
      modifies this, recorder
      ensures Valid()
      ensures arrived <==> recorder.history.arrived
      ensures old(available) ==> recorder.history.justChecked
      ensures !old(available) ==> recorder.history == old(recorder.history) && !available
      ensures old(available) || old(recorder.history).asked ==> recorder.history.asked
      ensures OnlyColour(old(recorder.history), recorder.history)
      ensures arrived ==> available && onMat && lastDepth >= Depth(Ring4) && old(lighterSeen)
      ensures old(available) && !available ==> old(failedChecks) == 2
    {
      hide Safe, Fold, Acceptable, Next, AllDark, Sighting, MayGoOn, OnlyColour;
      NothingAtAll(recorder.history);
      if !available { return false; }
      onMat, lastDepth := false, -1;
      var readOk, zones, allDark := FreshZones();
      if readOk {
        arrived := Verdict(zones, allDark, powered);
      } else {
        FailedCheck(powered);
        arrived := false;
      }
    }

    /** The way out of a check that could not read the sensor. */
    method FailedCheck(ghost powered: bool)
      requires Remembers() && !powered && available
      modifies this`failedChecks, this`available, recorder
      ensures Valid() && OnlyColour(old(recorder.history), recorder.history)
      ensures !recorder.history.arrived && recorder.history.justChecked && recorder.history.asked
      ensures !available <==> old(failedChecks) == 2
      ensures failedChecks == old(failedChecks) + 1
    {
      hide Safe, Fold, Next, AllDark, MayGoOn;
      failedChecks := failedChecks + 1;
      if failedChecks >= MAX_FAILED_CHECKS {
        available := false;
      }
      NextChecked(recorder.history, [], false);
      recorder.Emit(ColourFailed);
      recorder.Print(powered);
    }

    method Verdict(zones: seq<Zone>, allDark: bool, ghost powered: bool) returns (arrived: bool)
      requires Remembers() && !powered && available && !onMat
      requires |zones| == SAMPLES && (allDark <==> AllDark(zones))
      modifies this`failedChecks, this`lighterSeen, this`onMat, this`lastDepth, recorder
      ensures Valid()
      ensures arrived <==> AllDark(zones) && old(lighterSeen)
      ensures OnlyColour(old(recorder.history), recorder.history)
      ensures recorder.history.arrived == arrived && recorder.history.justChecked && recorder.history.asked
      ensures arrived ==> onMat && lastDepth >= Depth(Ring4)
      ensures failedChecks == 0 && lastDepth == Depth(zones[2])
      ensures lighterSeen <==> old(lighterSeen) || Sighting(zones)
      ensures onMat <==> exists k :: 0 <= k < 3 && MatZone(zones[k])
    {
      hide Safe, Fold;
      failedChecks := 0;
      var seenBefore := lighterSeen;
      NoteZones(zones);
      lastDepth := Depth(zones[SAMPLES - 1]);
      arrived := allDark && seenBefore;
      assert arrived ==> Dark(zones[0]) && Dark(zones[2]);
      NextChecked(recorder.history, zones, arrived);
      recorder.Emit(ColourChecked(zones, arrived));
      recorder.Print(powered);
    }
  }

  lemma AllDarkMore(zones: seq<Zone>, zone: Zone)
    ensures AllDark(zones + [zone]) <==> AllDark(zones) && Dark(zone)
  {
    var more := zones + [zone];
    assert more[|zones|] == zone;
    if AllDark(more) {
      forall i | 0 <= i < |zones| ensures Dark(zones[i]) { assert Dark(more[i]); }
    }
  }

  lemma SightingMore(zones: seq<Zone>, i: nat)
    requires i < |zones|
    ensures Sighting(zones[..i + 1]) <==> Sighting(zones[..i]) || LighterMat(zones[i])
  {
    var more, less := zones[..i + 1], zones[..i];
    if Sighting(more) {
      var k :| 0 <= k < |more| && LighterMat(more[k]);
      if k < i { assert less[k] == more[k]; }
    }
    if Sighting(less) {
      var k :| 0 <= k < |less| && LighterMat(less[k]);
      assert more[k] == less[k];
    }
    if LighterMat(zones[i]) { assert more[i] == zones[i]; }
  }

  /** The kinds of surface are bands of depth: arrival from ring 4 on, a lighter mat surface from
      the white edge up to ring 3. */
  lemma SurfacesByDepth(z: Zone)
    ensures Dark(z) <==> Depth(z) >= Depth(Ring4)
    ensures LighterMat(z) <==> Depth(White) <= Depth(z) < Depth(Ring4)
    ensures MatZone(z) <==> Dark(z) || LighterMat(z)
    ensures Depth(Floor) == 0 && Depth(White) == 1 && Depth(Ring4) == 5 && (Depth(z) < 0 <==> z.Unknown?)
  {}
}
