/** The search for the beacon: follow a line, confirm a decline, drive back, try the other
    directions, steer on the mat. The radio, the clock, the motors and the colours under the
    sensor are arbitrary throughout. */
module Navigator {
  import opened Trace
  import opened Budget
  import opened Motion
  import opened WifiSampler
  import opened ColourSensor
  import opened PackedBits
  import opened Filters
  import opened LineSearch
  import opened Follow

  const MAX_PAYLOAD_ATTEMPTS: nat := 3
  const MAX_MISSING_SAMPLES: nat := 3
  const LINE_FORWARD_BLOCK_MS: nat := 500
  const LINE_MAT_BLOCK_MS: nat := 250
  const LINE_DIP_PROBE_MS: nat := 250
  const LINE_DIRECTION_TEST_MS: nat := 2400
  const LINE_SWEEP_MS: nat := 6000
  const LINE_PROFILE_CAPACITY: nat := 32
  const SEARCH_DIRECTIONS: nat := 3
  const SCAN_STEPS: nat := 12
  const SCAN_READS: nat := 3
  const MAT_STEPS_PER_SCAN: nat := 4
  const MAT_ARRIVED_RETRIES: nat := 3

  datatype FollowEnd = NoGain | Decline | OnTheMat

  datatype Followed = Followed(progress: bool, consistent: bool, end: FollowEnd, position: nat, baseline: Pair)

  /** Back at a point of the line, or past it by one reserve at most. */
  predicate BackAt(along: int, point: nat) {
    along <= point <= along + BLOCK_RESERVE_MS
  }

  function Both(pair: Pair): seq<Sample> {
    [pair.first, pair.second]
  }

  /** The samples behind these readings, in order. */
  function Heard(readings: seq<Reading>): seq<Sample> {
    if readings == [] then [] else Heard(readings[..|readings| - 1]) + Both(readings[|readings| - 1].pair)
  }

  /** Since `earlier` the radio has delivered this baseline and these readings and nothing else. */
  ghost predicate Delivered(present: seq<Sample>, earlier: seq<Sample>, baseline: Pair, readings: seq<Reading>) {
    present == earlier + Both(baseline) + Heard(readings)
  }

  lemma DeliveredMore(present: seq<Sample>, earlier: seq<Sample>, baseline: Pair, readings: seq<Reading>, r: Reading)
    requires Delivered(present, earlier, baseline, readings)
    ensures Delivered(present + Both(r.pair), earlier, baseline, readings + [r])
  {
    assert (readings + [r])[..|readings|] == readings;
  }

  datatype ScanStatus = ScanDone | ScanReadFailed | ScanStopped

  class Robot {
    const chassis: Chassis
    const guard: Guard
    const sampler: Sampler
    const ear: Ear
    const colour: Sensor
    const recorder: Recorder
    var wifiQuiescent: bool
    var colourArrived: bool      // the latest check passed colour arrival
    var stepOnMat: bool
    var translationMs: nat
    var profileCount: nat
    var matScansUsed: nat
    ghost var along: int         // powered milliseconds forwards less those back on the present line

    ghost predicate Valid()
      reads this, sampler, guard, chassis, colour, recorder
    {
      && guard == sampler.guard && ear == sampler.ear && chassis == guard.chassis && recorder == chassis.recorder
      && colour.recorder == recorder
      && sampler.Valid() && chassis.Still() && colour.Valid()
      && translationMs == recorder.history.driven.charged
      && matScansUsed == recorder.history.course.scans <= MAT_MAX_SCANS
      && recorder.history.driven.mat <= MAT_STEPS_PER_SCAN * matScansUsed
    }

    /** The run goes on: everything at rest, nothing delivered or left half done, and the
        budget not exceeded. */
    ghost predicate Rested()
      reads this, sampler, guard, chassis, colour, recorder
    {
      && Valid() && sampler.Quiet() && wifiQuiescent
      && !recorder.history.retried && !recorder.history.completed && !recorder.history.ended
      && translationMs <= LINE_TRANSLATION_MS
      && colourArrived == recorder.history.arrived
    }

    /** The run goes on, and since the last block colour or the beacon has been asked. */
    ghost predicate Ready()
      reads this, sampler, guard, chassis, colour, recorder
    {
      Rested() && recorder.history.asked
    }

    constructor (sampler: Sampler, colour: Sensor)
      requires sampler.Quiet() && colour.Valid() && colour.recorder == sampler.guard.chassis.recorder
      requires colour.recorder.history == Beginning
      ensures Rested() && this.sampler == sampler && this.colour == colour && translationMs == 0
    {
      this.sampler, guard, chassis, recorder := sampler, sampler.guard, sampler.guard.chassis, sampler.guard.chassis.recorder;
      this.colour, ear := colour, sampler.ear;
      wifiQuiescent, colourArrived, stepOnMat := true, false, false;
      translationMs, profileCount, matScansUsed, along := 0, 0, 0, 0;
    }

    /** A reason to end the run undelivered goes on record. */
    ghost method End(reason: Reason)
      requires Valid()
      requires reason.StillArrived? ==> recorder.history.arrived && recorder.history.course.site.AtRest? && reason.waits == 3
      requires reason.BeaconLost? ==> recorder.history.retried && reason.tries == 3
      requires reason.WifiLost? ==> reason.misses == 3
      requires reason.NoDirection? ==> reason.trials == 3
      requires reason.Overcharged? ==> reason.actual == 0 || reason.actual > reason.duration + 25 || translationMs > 60000
      requires reason.ProfileFull? ==> reason.points >= 32
      requires reason.Halted? ==> reason.stop || reason.reportFailed || reason.elapsed >= MAX_RUN_MS
      modifies recorder
      ensures Valid() && recorder.history == old(recorder.history).(ended := true, justChecked := false)
    {
      hide Safe, Fold, Next, MayGoOn;
      NextEnded(recorder.history, reason);
      recorder.Emit(Ended(reason));
    }

    /** And so does the permission to continue. */
    ghost method Clear(elapsed: int)
      requires Valid() && !chassis.stopLatched && !recorder.failed && elapsed < MAX_RUN_MS
      modifies recorder`trace, recorder`history
      ensures Valid() && recorder.history == old(recorder.history).(cleared := true, justChecked := false)
    {
      hide Safe, Fold, Next, MayGoOn;
      NextCleared(recorder.history, chassis.stopLatched, recorder.failed, elapsed);
      recorder.Emit(Cleared(chassis.stopLatched, recorder.failed, elapsed));
    }

    method AskGuard() returns (ok: bool)
      requires Valid()
      modifies chassis`stopLatched, chassis`powered, chassis`left, chassis`right, chassis`active, chassis`elapsedMs, recorder
      ensures Valid() && recorder.history == old(recorder.history)
      ensures ok <==> !chassis.stopLatched && !recorder.failed && chassis.now - guard.runStartedMs < MAX_RUN_MS
    {
      hide Safe, Fold, Acceptable, Next;
      ok := guard.CanContinue();
    }

    /** `run_can_continue`. */
    method MayContinue() returns (ok: bool)
      requires Valid() && !recorder.history.ended
      modifies chassis`stopLatched, chassis`powered, chassis`left, chassis`right, chassis`active, chassis`elapsedMs, recorder
      ensures Valid() && Lasting(old(recorder.history), recorder.history)
      ensures if ok then recorder.history.cleared && !recorder.history.ended else recorder.history.ended
    {
      hide Safe, Fold, Acceptable, Next, Lasting;
      LastingOn(recorder.history);
      ok := AskGuard();
      ghost var elapsed := chassis.now - guard.runStartedMs;
      if ok {
        Clear(elapsed);
      } else {
        End(Halted(chassis.stopLatched, recorder.failed, elapsed));
      }
    }

    /** Everything is brought to rest before a save. */
    method PrepareSave() returns (ok: bool)
      requires Valid()
      modifies sampler, chassis, recorder
      ensures Valid() && Steady(old(recorder.history), recorder.history)
      ensures ok ==> sampler.Quiet() && wifiQuiescent
    {
      hide Safe, Fold, Acceptable, Next;
      chassis.StopDrive();
      if !wifiQuiescent { return false; }
      ok := sampler.Quiesce();
    }

    /** `report_checkpoint`, as the search calls it. */
    method Checkpoint() returns (ok: bool)
      requires Valid() && sampler.Quiet() && !recorder.history.ended
      modifies recorder
      ensures Valid() && sampler.Quiet() && Lasting(old(recorder.history), recorder.history)
      ensures if ok then recorder.history == old(recorder.history).(saved := true, justChecked := false) else recorder.history.ended
    {
      hide Safe, Fold, Next, MayGoOn;
      NextSaved(recorder.history);
      recorder.Emit(Saved(chassis.powered, sampler.scanOpen));
      ok := *;
      if !ok { End(SaveFailed); }
    }

    /** `save_checkpoint`. */
    method SaveCheckpoint() returns (ok: bool)
      requires Valid() && !recorder.history.ended
      modifies sampler, chassis, recorder
      ensures Valid() && Lasting(old(recorder.history), recorder.history)
      ensures ok ==> sampler.Quiet() && wifiQuiescent && recorder.history.saved
      ensures if ok then !recorder.history.ended else recorder.history.ended
      ensures old(recorder.history.cleared) ==> recorder.history.cleared
    {
      hide Safe, Fold, Acceptable, Next;
      ok := PrepareSave();
      if ok {
        ok := Checkpoint();
      } else {
        End(SaveFailed);
      }
    }

    /** `payload_client_attempt` and `payload_client_retry`: the outcome is arbitrary, the
        conditions for starting are not. */
    method Attempt(first: bool, loose: bool) returns (result: Result)
      requires Valid() && sampler.Quiet() && !recorder.history.completed && !recorder.history.ended
      requires first ==> if loose then recorder.history.arrived && recorder.history.justChecked else !colour.available
      requires first <==> !recorder.history.retried
      modifies chassis, recorder
      ensures Valid() && sampler.Quiet()
      ensures recorder.history == old(recorder.history).(
        retried := old(recorder.history).retried || result == Retry, completed := result == Complete, justChecked := false, asked := true,
        ended := result == Fatal)
    {
      hide Safe, Fold, Next, MayGoOn;
      chassis.StopDrive();
      result := *;
      var sensor := colour.available;
      NextAttempted(recorder.history, first, loose, sensor, result);
      recorder.Emit(Attempted(first, loose, colour.available, chassis.powered, sampler.scanOpen, result));
    }

    /** The gate of a first attempt: by colour with a working sensor, by the strict BLE
        threshold without one. */
    method Gate() returns (go: bool, loose: bool)
      requires Valid() && sampler.Quiet()
      modifies this`colourArrived, colour, recorder
      ensures Valid() && sampler.Quiet() && colourArrived == recorder.history.arrived
      ensures recorder.history.retried == old(recorder.history).retried
      ensures recorder.history.completed == old(recorder.history).completed
      ensures recorder.history.driven == old(recorder.history).driven
      ensures !go ==> recorder.history.asked
      ensures go ==> if loose then recorder.history.arrived && recorder.history.justChecked else !colour.available
      ensures go <==> colourArrived || !colour.available
      ensures recorder.history.course == old(recorder.history).course
      ensures recorder.history.ended == old(recorder.history).ended
    {
      var onMat := colour.ArrivalCheck(chassis.powered);
      colourArrived := onMat;
      loose := onMat;
      if !onMat && colour.available {
        recorder.Print(chassis.powered);
        return false, loose;
      }
      if onMat { recorder.Print(chassis.powered); }
      go := true;
    }

    /** An attempt and, unless it was fatal, the log saved after it. */
    method AttemptSaved(first: bool, loose: bool) returns (result: Result)
      requires Valid() && sampler.Quiet() && wifiQuiescent && !recorder.history.completed && !recorder.history.ended
      requires first ==> if loose then recorder.history.arrived && recorder.history.justChecked else !colour.available
      requires first <==> !recorder.history.retried
      modifies sampler, chassis, recorder
      ensures Valid() && recorder.history.asked
      ensures recorder.history.driven == old(recorder.history).driven
      ensures recorder.history.arrived == old(recorder.history).arrived
      ensures result != Fatal ==> sampler.Quiet() && recorder.history.completed == (result == Complete)
      ensures result != Fatal ==> recorder.history.retried == (old(recorder.history).retried || result == Retry)
      ensures recorder.history.course == old(recorder.history).course
      ensures result == Fatal ==> recorder.history.ended
      ensures result != Fatal ==> !recorder.history.ended
    {
      hide Safe, Fold, Acceptable, Next;
      result := Attempt(first, loose);
      if result != Fatal {
        var saved := SaveCheckpoint();
        if !saved { result := Fatal; }
      }
    }

    method BeforeAsking() returns (ok: bool)
      requires Valid() && !recorder.history.ended
      modifies sampler, chassis, recorder
      ensures Valid() && Lasting(old(recorder.history), recorder.history)
      ensures if ok then sampler.Quiet() && wifiQuiescent && !recorder.history.ended else recorder.history.ended
    {
      hide Safe, Fold, Acceptable, Next;
      ok := MayContinue();
      if ok { ok := SaveCheckpoint(); }
    }

    /** One round of `check_payload` up to its saved outcome; `over` when the loop ends here. */
    method Round(wasClose: bool, loose: bool) returns (result: Result, gate: bool, over: bool)
      requires Valid() && sampler.Quiet() && wifiQuiescent && !recorder.history.completed && !recorder.history.ended
      requires wasClose == recorder.history.retried && translationMs <= LINE_TRANSLATION_MS
      modifies this`colourArrived, sampler, chassis, colour, recorder
      ensures Valid() && recorder.history.driven == old(recorder.history).driven
      ensures over ==> result != Retry && (result == Complete ==> recorder.history.completed)
      ensures over && result == NotClose ==> !wasClose && Ready()
      ensures result != Fatal ==> !recorder.history.ended
      ensures !over ==> result != Fatal && sampler.Quiet() && wifiQuiescent && recorder.history.retried && !recorder.history.completed
      ensures recorder.history.course == old(recorder.history).course
      ensures result == Fatal ==> recorder.history.ended
    {
      hide Safe, Fold, Acceptable, Next;
      gate := loose;
      var go := BeforeAsking();
      if !go { return Fatal, gate, true; }
      if !wasClose {
        go, gate := Gate();
        if !go { return NotClose, gate, true; }
      }
      result := AttemptSaved(!wasClose, gate);
      over := result == Complete || result == Fatal || (result == NotClose && !wasClose);
    }

    /** `check_payload`: never RETRY, and NOT_CLOSE only while nothing was ever close. */
    method CheckPayload(ghost site: Site) returns (result: Result)
      requires Rested()
      modifies this`colourArrived, sampler, chassis, colour, recorder
      ensures Valid() && result != Retry
      ensures result == NotClose ==> Ready()
      ensures result == Complete ==> recorder.history.completed
      ensures recorder.history.driven == old(recorder.history).driven
      ensures recorder.history.course == Course(old(recorder.history).course.scans, false, site)
      ensures result == Fatal ==> recorder.history.ended
    {
      hide Safe, Fold, Acceptable;
      var wasClose, loose, over := false, false, false;
      recorder.Emit(Asked(site));
      ghost var course := recorder.history.course;
      colourArrived := false;
      ghost var tries := 0;
      for attempt := 0 to MAX_PAYLOAD_ATTEMPTS
        invariant Valid() && sampler.Quiet() && wifiQuiescent && !recorder.history.completed && !recorder.history.ended
        invariant (attempt > 0 ==> wasClose) && tries == attempt
        invariant recorder.history.driven == old(recorder.history).driven
        invariant recorder.history.course == course
        invariant wasClose == recorder.history.retried
        invariant translationMs <= LINE_TRANSLATION_MS
      {
        result, loose, over := Round(wasClose, loose);
        tries := tries + 1;
        if over { return; }
        wasClose := true;
        if attempt + 1 < MAX_PAYLOAD_ATTEMPTS {
          recorder.Print(chassis.powered);
          var paused := chassis.Pause(200);
          if !paused {
            End(NotMoved);
            return Fatal;
          }
        }
      }
      recorder.Print(chassis.powered);
      End(BeaconLost(tries));
      result := Fatal;
    }

    method SampleAndSave() returns (ok: bool, sample: Sample)
      requires Ready()
      modifies sampler, chassis, recorder, ear
      ensures Valid() && Lasting(old(recorder.history), recorder.history)
      ensures ok ==> Ready() && ear.present == if sample.code == MISSING then old(ear.present) else old(ear.present) + [sample]
      ensures !ok ==> recorder.history.ended
    {
      hide Safe, Fold, Acceptable, Next, WifiFilter;
      ghost var readings: seq<Code>;
      ok, sample, readings := sampler.TakeSample();
      if ok {
        ok := SaveCheckpoint();
      } else {
        End(RadioFailed);
      }
    }

    /** One try to hear the access point; without a sample the beacon is asked. */
    method HearOnce(ghost site: Site) returns (result: Result, sample: Sample, heard: bool)
      requires Ready()
      modifies this`colourArrived, sampler, chassis, colour, recorder, ear
      ensures Valid() && result != Retry
      ensures result == NotClose ==> Ready()
      ensures result == NotClose && heard ==> sample.code != MISSING && ear.present == old(ear.present) + [sample]
      ensures result == NotClose && !heard ==> ear.present == old(ear.present)
      ensures heard && result == NotClose ==> Lasting(old(recorder.history), recorder.history)
      ensures !heard && result == NotClose ==> recorder.history.course == Course(old(recorder.history).course.scans, false, site)
      ensures recorder.history.driven == old(recorder.history).driven
      ensures recorder.history.course == old(recorder.history).course || recorder.history.course == Course(old(recorder.history).course.scans, false, site)
      ensures result == Complete ==> recorder.history.completed
      ensures result == Fatal ==> recorder.history.ended
    {
      hide Safe, Fold, Acceptable, Next, WifiFilter;
      heard := true;
      var ok: bool;
      ok, sample := SampleAndSave();
      if !ok { return Fatal, sample, heard; }
      if sample.code != MISSING { return NotClose, sample, heard; }
      heard := false;
      recorder.Print(chassis.powered);
      result := CheckPayload(site);
      if result == Complete || result == Fatal { return; }
      ok := chassis.Pause(500);
      if !ok {
        End(NotMoved);
        result := Fatal;
      }
    }

    /** `wait_for_wifi`: a present sample, or the run is over. */
    method WaitForWifi(ghost site: Site) returns (result: Result, sample: Sample)
      requires Ready()
      modifies this`colourArrived, sampler, chassis, colour, recorder, ear
      ensures Valid() && result != Retry
      ensures result == NotClose ==> Ready() && sample.code != MISSING && ear.present == old(ear.present) + [sample]
      ensures result == Complete ==> recorder.history.completed
      ensures recorder.history.driven == old(recorder.history).driven
      ensures result == NotClose && site == Missed && old(MayGoOn(recorder.history)) ==> MayGoOn(recorder.history)
      ensures recorder.history.course == old(recorder.history).course || recorder.history.course == Course(old(recorder.history).course.scans, false, site)
      ensures result == Fatal ==> recorder.history.ended
    {
      hide Safe, Fold, Acceptable, Next, WifiFilter;
      sample := NoSample;
      ghost var misses := 0;
      for attempt := 0 to MAX_MISSING_SAMPLES
        invariant misses == attempt
        invariant site == Missed && old(MayGoOn(recorder.history)) ==> MayGoOn(recorder.history)
        invariant recorder.history.course == old(recorder.history).course || recorder.history.course == Course(old(recorder.history).course.scans, false, site)
        invariant Ready() && recorder.history.driven == old(recorder.history).driven && ear.present == old(ear.present)
      {
        var heard: bool;
        result, sample, heard := HearOnce(site);
        if heard || result != NotClose { return; }
        misses := misses + 1;
      }
      recorder.Print(chassis.powered);
      End(WifiLost(misses));
      result := Fatal;
    }

    method MeasurePair() returns (result: Result, pair: Pair)
      requires Ready()
      modifies this`colourArrived, sampler, chassis, colour, recorder, ear
      ensures Valid() && result != Retry
      ensures result == NotClose ==> Ready() && ValidPair(pair) && ear.present == old(ear.present) + Both(pair)
      ensures result == Complete ==> recorder.history.completed
      ensures recorder.history.driven == old(recorder.history).driven
      ensures result == NotClose && old(MayGoOn(recorder.history)) ==> MayGoOn(recorder.history)
      ensures result == Fatal ==> recorder.history.ended
    {
      pair := MissingPair;
      var first, second: Sample;
      result, first := WaitForWifi(Missed);
      if result != NotClose { return; }
      result, second := WaitForWifi(Missed);
      pair := Pair(first, second);
    }

    /** `reserve_translation`. */
    method ReserveTranslation(required: nat, ghost purpose: Purpose) returns (ok: bool)
      requires Ready()
      requires purpose == Return ==> translationMs + required <= LINE_TRANSLATION_MS
      modifies chassis, recorder
      ensures Valid() && Lasting(old(recorder.history), recorder.history)
      ensures ok ==> recorder.history.cleared
      ensures ok ==> Ready() && translationMs + required <= 60000
      ensures !ok ==> recorder.history.ended
    {
      if translationMs <= LINE_TRANSLATION_MS && required <= LINE_TRANSLATION_MS - translationMs {
        ok := MayContinue();
        return;
      }
      chassis.StopDrive();
      recorder.Emit(Refused(purpose, required));
      recorder.Print(chassis.powered);
      ok := false;
    }

    /** One look at a block under way: `ok` only if neither STOP, nor a failed report, nor the time
        limit was found. */
    method PollBlock(acquireMoving: bool) returns (ok: bool)
      requires guard == sampler.guard && chassis == guard.chassis
      requires sampler.Valid() && (chassis.powered ==> chassis.active)
      modifies sampler, chassis`stopLatched, chassis`powered, chassis`left, chassis`right, chassis`active, chassis`elapsedMs, chassis`recoveries,
               chassis`failed, chassis`now, chassis.recorder
      ensures sampler.Valid() && Steady(old(chassis.recorder.history), chassis.recorder.history)
      ensures chassis.powered ==> chassis.active
      ensures chassis.active && ok ==> old(chassis.active) && !old(chassis.stopLatched) && !old(chassis.recorder.failed)
      ensures ok && chassis.active ==> old(chassis.now) - chassis.startedMs < chassis.durationMs && chassis.now >= old(chassis.now)
    {
      hide Safe, Fold, Acceptable, Next;
      ok := chassis.DriveUpdate();
      if ok { ok := guard.CanContinue(); }
      if ok && acquireMoving { ok := sampler.PollMoving(); }
    }

    /** The polling loop of a block: it ends when the block does, or on the first failure. */
    method RunBlock(acquireMoving: bool) returns (ok: bool)
      requires guard == sampler.guard && chassis == guard.chassis
      requires sampler.Valid() && (chassis.powered ==> chassis.active)
      modifies sampler, chassis`stopLatched, chassis`powered, chassis`left, chassis`right, chassis`active, chassis`elapsedMs, chassis`recoveries,
               chassis`failed, chassis`now, chassis.recorder
      ensures sampler.Valid() && Steady(old(chassis.recorder.history), chassis.recorder.history)
    {
      hide Safe, Fold, Acceptable, Next, Steady;
      SteadySame(chassis.recorder.history);
      ok := true;
      while chassis.active
        invariant sampler.Valid() && Steady(old(chassis.recorder.history), chassis.recorder.history)
        invariant chassis.powered ==> chassis.active
        decreases chassis.active, chassis.durationMs - (chassis.now - chassis.startedMs)
      {
        ghost var h := chassis.recorder.history;
        ok := PollBlock(acquireMoving);
        SteadyThen(old(chassis.recorder.history), h, chassis.recorder.history);
        if !ok { break; }
        if chassis.active { chassis.Sleep(5); }
      }
    }

    /** The powered part of a block. */
    method DriveBlock(forwards: bool, duration: nat, acquireMoving: bool, ghost purpose: Purpose)
      returns (started: bool, ok: bool, actual: nat)
      requires Ready() && recorder.history.cleared && recorder.history.saved && (purpose == Mat ==> !colourArrived && recorder.history.driven.mat < MAT_STEPS_PER_SCAN * matScansUsed)
      requires purpose == Line ==> MayGoOn(recorder.history)
      modifies this`translationMs, this`along, this`wifiQuiescent, sampler, chassis, recorder
      ensures Valid()
      ensures translationMs == old(translationMs) + actual
      ensures along == if forwards then old(along) + actual else old(along) - actual
      ensures started ==> duration > 0 && !recorder.history.ended
      ensures recorder.history.driven == if started then Further(old(recorder.history).driven, purpose, actual) else old(recorder.history).driven
      ensures recorder.history.retried == old(recorder.history).retried
      ensures recorder.history.completed == old(recorder.history).completed
      ensures recorder.history.arrived == old(recorder.history).arrived
      ensures !started ==> wifiQuiescent && recorder.history.ended
      ensures recorder.history.course == old(recorder.history).course
    {
      hide Safe, Fold, Acceptable, Next;
      sampler.SetPosition();
      started := chassis.DriveStart(forwards, duration);
      ok, actual := true, 0;
      if !started {
        End(NotMoved);
        return;
      }
      wifiQuiescent := false;
      ok := RunBlock(acquireMoving);
      actual := ChargeBlock(duration, purpose);
    }

    ghost method Charge(purpose: Purpose, duration: nat, actual: nat)
      requires recorder.Valid() && recorder == chassis.recorder
      requires !recorder.history.retried && !recorder.history.completed && recorder.history.saved && recorder.history.asked
      requires recorder.history.cleared && !recorder.history.ended
      requires (purpose == Mat ==> !recorder.history.arrived) && (purpose == Line ==> MayGoOn(recorder.history))
      modifies recorder
      ensures recorder.Valid()
      ensures recorder.history == old(recorder.history).(driven := Further(old(recorder.history).driven, purpose, actual), saved := false,
        asked := false, justChecked := false, cleared := false)
    {
      hide Safe, Fold, Next, MayGoOn;
      NextDrove(recorder.history, purpose, duration, actual);
      recorder.Emit(Drove(purpose, duration, actual));
    }

    /** The motors are stopped and the time they were on is charged. */
    method ChargeBlock(duration: nat, ghost purpose: Purpose) returns (actual: nat)
      requires guard == sampler.guard && chassis == guard.chassis && recorder == chassis.recorder && colour.recorder == recorder
      requires sampler.Valid() && chassis.Valid() && colour.Valid() && translationMs == recorder.history.driven.charged
      requires !recorder.history.retried && !recorder.history.completed && recorder.history.saved && recorder.history.asked && recorder.history.cleared && !recorder.history.ended
      requires purpose == Mat ==> !recorder.history.arrived
      requires purpose == Line ==> MayGoOn(recorder.history)
      modifies this`translationMs, this`along, chassis`powered, chassis`left, chassis`right, chassis`active, chassis`elapsedMs, recorder
      ensures sampler.Valid() && chassis.Still() && colour.Valid()
      ensures translationMs == old(translationMs) + actual
      ensures along == if chassis.speed > 0 then old(along) + actual else old(along) - actual
      ensures recorder.history == old(recorder.history).(driven := Further(old(recorder.history).driven, purpose, actual), saved := false,
        asked := false, justChecked := false, cleared := false)
    {
      hide Safe, Fold, Next, Acceptable;
      chassis.StopDrive();
      actual := chassis.DriveElapsed();
      translationMs, along := translationMs + actual, if chassis.speed > 0 then along + actual else along - actual;
      Charge(purpose, duration, actual);
    }

    /** `translate_block`. */
    method TranslateBlock(forwards: bool, duration: nat, reservedReturn: nat, acquireMoving: bool, ghost purpose: Purpose)
      returns (result: Result, actual: nat)
      requires Ready()
      requires purpose == Return ==> translationMs + Cost(duration) + reservedReturn <= LINE_TRANSLATION_MS
      requires purpose == Mat ==> !colourArrived && recorder.history.driven.mat < MAT_STEPS_PER_SCAN * matScansUsed
      requires purpose == Line ==> MayGoOn(recorder.history)
      modifies this`translationMs, this`along, this`wifiQuiescent, this`colourArrived, sampler, chassis, colour, recorder
      ensures Valid() && result != Retry
      ensures result == NotClose ==> Ready() && duration > 0 && 1 <= actual <= duration + BLOCK_RESERVE_MS
      ensures result == NotClose ==> translationMs == old(translationMs) + actual
      ensures result == NotClose ==> along == if forwards then old(along) + actual else old(along) - actual
      ensures result == NotClose ==> old(translationMs) + Cost(duration) + reservedReturn <= LINE_TRANSLATION_MS
      ensures result == Complete ==> recorder.history.completed
      ensures result == NotClose ==> recorder.history.course == Course(old(recorder.history).course.scans, false, AfterBlock(purpose))
      ensures result == Fatal ==> recorder.history.ended
      ensures recorder.history.driven in {old(recorder.history).driven, Further(old(recorder.history).driven, purpose, actual)}
      ensures result != Fatal ==> recorder.history.driven == Further(old(recorder.history).driven, purpose, actual)
    {
      hide Safe, Fold, Acceptable, Next;
      actual := 0;
      var ok := ReserveTranslation(TranslationCost(duration) + reservedReturn, purpose);
      if !ok { return Fatal, 0; }
      ok := SaveCheckpoint();
      if !ok { return Fatal, 0; }
      var started: bool;
      started, ok, actual := DriveBlock(forwards, duration, acquireMoving, purpose);
      if !started { return Fatal, 0; }
      result := SettleBlock(ok, duration, actual, purpose);
    }

    /** The scan begun while driving is stopped. */
    method QuietRadio() returns (ok: bool)
      requires Valid() && !recorder.history.ended
      modifies this`wifiQuiescent, sampler, chassis, recorder
      ensures Valid() && Lasting(old(recorder.history), recorder.history)
      ensures if ok then sampler.Quiet() && wifiQuiescent && !recorder.history.ended else recorder.history.ended
    {
      hide Safe, Fold, Acceptable, Next, MayGoOn, MaySteer;
      ok := sampler.Quiesce();
      if ok {
        wifiQuiescent := true;
      } else {
        End(RadioFailed);
      }
    }

    method Drain(driven: bool) returns (ok: bool)
      requires Valid() && !recorder.history.ended
      modifies this`wifiQuiescent, sampler, chassis, recorder
      ensures Valid() && Lasting(old(recorder.history), recorder.history)
      ensures if ok then sampler.Quiet() && wifiQuiescent && driven && !recorder.history.ended else recorder.history.ended
    {
      hide Safe, Fold, Acceptable, Next, MayGoOn, MaySteer, AllDark, Sighting, Drifts, Further;
      var finished := chassis.DriveFinish();
      ok := QuietRadio();
      if !ok { return; }
      if !driven || !finished {
        End(NotMoved);
        ok := false;
      }
    }

    /** After a block: settle, drain the radio, check the charge. */
    method ComeToRest(driven: bool, duration: nat, actual: nat) returns (ok: bool)
      requires Valid() && !recorder.history.retried && !recorder.history.completed && !recorder.history.ended && colourArrived == recorder.history.arrived
      modifies this`wifiQuiescent, sampler, chassis, recorder
      ensures Valid() && recorder.history.driven == old(recorder.history).driven && recorder.history.course == old(recorder.history).course
      ensures if ok then Rested() && driven && 1 <= actual <= duration + 25 else recorder.history.ended
    {
      hide Safe, Fold, Acceptable, Next, MayGoOn, MaySteer;
      ok := Drain(driven);
      if !ok { return; }
      ok := MayContinue();
      if !ok { return; }
      if actual == 0 || actual > duration + BLOCK_RESERVE_MS || translationMs > LINE_TRANSLATION_MS {
        recorder.Print(chassis.powered);
        End(Overcharged(duration, actual));
        ok := false;
      }
    }

    /** The second half of `translate_block`: settle, drain the radio, check the charge, ask
        the beacon. */
    method SettleBlock(driven: bool, duration: nat, actual: nat, ghost purpose: Purpose) returns (result: Result)
      requires Valid() && !recorder.history.retried && !recorder.history.completed && !recorder.history.ended && colourArrived == recorder.history.arrived
      modifies this`wifiQuiescent, this`colourArrived, sampler, chassis, colour, recorder
      ensures Valid() && result != Retry
      ensures result == NotClose ==> Ready() && 1 <= actual <= duration + BLOCK_RESERVE_MS
      ensures recorder.history.driven == old(recorder.history).driven
      ensures result == Complete ==> recorder.history.completed
      ensures result == NotClose ==> recorder.history.course == Course(old(recorder.history).course.scans, false, AfterBlock(purpose))
      ensures result == Fatal ==> recorder.history.ended
    {
      hide Safe, Fold, Acceptable, Next, MayGoOn, MaySteer;
      var rests := ComeToRest(driven, duration, actual);
      if !rests { return Fatal; }
      result := CheckPayload(AfterBlock(purpose));
    }

    /** `return_along_line`: never refused for budget, over in finitely many blocks, and the
        way driven back is at least `from - to` and exceeds it by one reserve at most. */
    method ReturnAlongLine(from: nat, to: nat) returns (result: Result, ghost reversed: nat)
      requires Ready() && to <= from && CanReturn(translationMs, from, to)
      requires MayGoOn(recorder.history)
      modifies this`translationMs, this`along, this`wifiQuiescent, this`colourArrived, sampler, chassis, colour, recorder
      ensures Valid() && result != Retry
      ensures result == NotClose ==> Ready() && translationMs == old(translationMs) + reversed && along == old(along) - reversed
      ensures result == NotClose && from > to ==> from - to <= reversed <= from - to + BLOCK_RESERVE_MS
      ensures result == NotClose && from == to ==> reversed == 0
      ensures result == Complete ==> recorder.history.completed
      ensures result == NotClose ==> MayGoOn(recorder.history)
      ensures result == Fatal ==> recorder.history.ended
      ensures recorder.history.driven.lines == old(recorder.history).driven.lines
    {
      hide Safe, Fold, Acceptable, Next;
      recorder.Print(chassis.powered);
      var remaining: nat := from - to;
      reversed := 0;
      while remaining > 0
        invariant Ready() && CanReturn(translationMs, remaining, 0) && translationMs == old(translationMs) + reversed
        invariant recorder.history.driven.lines == old(recorder.history).driven.lines
        invariant MayGoOn(recorder.history)
        invariant along == old(along) - reversed
        invariant remaining > 0 ==> reversed + remaining == from - to
        invariant remaining == 0 && from > to ==> from - to <= reversed <= from - to + BLOCK_RESERVE_MS
        invariant remaining == 0 && from == to ==> reversed == 0
      {
        var block := Block(remaining);
        var actual: nat;
        CostSplits(remaining);
        result, actual := TranslateBlock(false, block, TranslationCost(remaining - block), false, Return);
        if result != NotClose { return; }
        CostAfterBlock(remaining, actual);
        reversed := reversed + actual;
        remaining := if actual < remaining then remaining - actual else 0;
      }
      sampler.SetPosition();
      result := NotClose;
    }

    method RecordPoint() returns (ok: bool)
      requires Ready()
      modifies this`profileCount, sampler, chassis, recorder
      ensures Valid() && (ok ==> Ready())
      ensures ok ==> profileCount <= 32
      ensures Lasting(old(recorder.history), recorder.history)
      ensures !ok ==> recorder.history.ended
      ensures ok ==> profileCount == old(profileCount) + 1
    {
      hide Safe, Fold, Acceptable, Next;
      if profileCount >= LINE_PROFILE_CAPACITY {
        chassis.StopDrive();
        recorder.Print(chassis.powered);
        End(ProfileFull(profileCount));
        return false;
      }
      profileCount := profileCount + 1;
      recorder.Print(chassis.powered);
      ok := SaveCheckpoint();
    }

    method LogDipReading() returns (ok: bool)
      requires Ready()
      modifies sampler, chassis, recorder
      ensures Valid() && (ok ==> Ready())
      ensures Lasting(old(recorder.history), recorder.history)
      ensures !ok ==> recorder.history.ended
    {
      recorder.Print(chassis.powered);
      ok := SaveCheckpoint();
    }

    method ForwardBlockMs() returns (step: nat)
      requires Ready()
      modifies this`stepOnMat, recorder
      ensures recorder.history == old(recorder.history)
      ensures Ready() && step == if colour.OnMat() then LINE_MAT_BLOCK_MS else LINE_FORWARD_BLOCK_MS
    {
      var onMat := colour.OnMat();
      if onMat != stepOnMat {
        stepOnMat := onMat;
        recorder.Print(chassis.powered);
      }
      step := if onMat then LINE_MAT_BLOCK_MS else LINE_FORWARD_BLOCK_MS;
    }

    predicate MatSteeringReady()
      reads this, colour
    {
      colour.OnMat() && matScansUsed < MAT_MAX_SCANS
    }

    /** After a heading: colour steering can begin, or the line can go on. */
    ghost predicate Poised(end: FollowEnd)
      reads this, colour, recorder
    {
      if end == OnTheMat then MatSteeringReady() && MaySteer(recorder.history.course) else MayGoOn(recorder.history)
    }

    /** One forward probe past a suspected dip. */
    method Probe(bestPosition: nat, reference: Pair, from: nat) returns (result: Result, position: nat, current: Pair, recovered: bool)
      requires Ready() && bestPosition <= from && CanReturn(translationMs, from, bestPosition)
      modifies this`translationMs, this`along, this`wifiQuiescent, this`colourArrived, sampler, chassis, colour, recorder, ear
      ensures Valid() && result != Retry
      ensures result == NotClose ==> Ready() && from <= position && CanReturn(translationMs, position, bestPosition)
      ensures result == NotClose ==> along - old(along) == position - from
      ensures result == NotClose ==> translationMs >= old(translationMs)
      ensures result == NotClose ==> (recovered <==> ReturnConsistent(reference, current)) && ear.present == old(ear.present) + Both(current)
      ensures result == Complete ==> recorder.history.completed
      ensures result == NotClose ==> MayGoOn(recorder.history)
      ensures result == Fatal ==> recorder.history.ended
      ensures recorder.history.driven.lines == old(recorder.history).driven.lines
    {
      hide Safe, Fold, Acceptable, Next, Cost, ReturnConsistent, ValidPair;
      recorder.Print(chassis.powered);
      position, current, recovered := from, MissingPair, false;
      var actual: nat;
      result, actual := TranslateBlock(true, LINE_DIP_PROBE_MS,
        TranslationCost(from + LINE_DIP_PROBE_MS + BLOCK_RESERVE_MS - bestPosition), false, Purpose.Probe);
      position := position + actual;
      if result != NotClose { return; }
      WayBackKept(old(translationMs), LINE_DIP_PROBE_MS, actual, from, bestPosition);
      sampler.SetPosition();
      result, current := MeasurePair();
      if result != NotClose { return; }
      recovered := ReturnConsistent(reference, current);
      var logged := LogDipReading();
      if !logged { result := Fatal; }
    }

    /** The check in place before any extra movement. */
    method Recheck(reference: Pair) returns (result: Result, current: Pair, recovered: bool)
      requires Ready()
      modifies this`colourArrived, sampler, chassis, colour, recorder, ear
      ensures Valid() && result != Retry
      ensures result == NotClose ==> Ready() && (recovered <==> ReturnConsistent(reference, current)) && ear.present == old(ear.present) + Both(current)
      ensures result == Complete ==> recorder.history.completed
      ensures result == NotClose ==> MayGoOn(recorder.history)
      ensures result == Fatal ==> recorder.history.ended
      ensures recorder.history.driven.lines == old(recorder.history).driven.lines
    {
      current, recovered := MissingPair, false;
      recorder.Print(chassis.powered);
      result := CheckPayload(InPlace);
      if result != NotClose { return; }
      result, current := MeasurePair();
      if result != NotClose { return; }
      recovered := ReturnConsistent(reference, current);
      var logged := LogDipReading();
      if !logged { result := Fatal; }
    }

    /** The forward probes of a suspected dip, each judged against the frozen reference. */
    method ProbeDip(ghost earlier: seq<Sample>, ghost baseline: Pair, ghost before: seq<Reading>, ghost s: State,
                    bestPosition: nat, reference: Pair, from: nat)
      returns (result: Result, position: nat, current: Pair, recovered: bool, ghost readings: seq<Reading>)
      requires Ready() && CanReturn(translationMs, from, bestPosition)
      requires Delivered(ear.present, earlier, baseline, before)
      requires Judged(baseline, before, AfterChecks(s, 1)) && s.reference == reference
      requires MayGoOn(recorder.history)
      modifies this`translationMs, this`along, this`wifiQuiescent, this`colourArrived, sampler, chassis, colour, recorder, ear
      ensures WellFormed(s)
      ensures Valid() && result != Retry
      ensures result == NotClose ==> Ready() && from <= position && translationMs >= old(translationMs)
      ensures result == NotClose ==> CanReturn(translationMs, position, bestPosition)
      ensures result == NotClose ==> along - old(along) == position - from
      ensures result == NotClose ==> Delivered(ear.present, earlier, baseline, readings)
      ensures result == NotClose ==>
        Judged(baseline, readings, if recovered then Searching(Absorb(Recover(s), position, current)) else Declined(s))
      ensures result == Complete ==> recorder.history.completed
      ensures result == NotClose ==> MayGoOn(recorder.history)
      ensures result == Fatal ==> recorder.history.ended
      ensures recorder.history.driven.lines == old(recorder.history).driven.lines
    {
      hide Safe, Fold, Acceptable, Next, Judged, Delivered, Cost, ReturnConsistent, Absorb;
      position, current, recovered, result, readings := from, MissingPair, false, NotClose, before;
      JudgedCheck(baseline, readings, s, 1, position, current);
      for probe := 0 to DIP_MAX_PROBES
        invariant Ready() && from <= position && !recovered && translationMs >= old(translationMs)
        invariant CanReturn(translationMs, position, bestPosition) && along - old(along) == position - from
        invariant result == NotClose && Judged(baseline, readings, AfterChecks(s, probe + 1))
        invariant recorder.history.driven.lines == old(recorder.history).driven.lines
        invariant MayGoOn(recorder.history)
        invariant Delivered(ear.present, earlier, baseline, readings)
      {
        ghost var present := ear.present;
        result, position, current, recovered := Probe(bestPosition, reference, position);
        if result != NotClose { return; }
        JudgedCheck(baseline, readings, s, probe + 1, position, current);
        DeliveredMore(present, earlier, baseline, readings, Check(position, current));
        readings := readings + [Check(position, current)];
        if recovered { return; }
      }
      recorder.Print(chassis.powered);
    }

    /** `recheck_and_probe_dip`: a check in place, then up to two probes. */
    method RecheckAndProbeDip(ghost earlier: seq<Sample>, ghost baseline: Pair, ghost before: seq<Reading>, ghost s: State,
                              bestPosition: nat, reference: Pair, from: nat)
      returns (result: Result, position: nat, current: Pair, recovered: bool, ghost readings: seq<Reading>)
      requires Ready() && CanReturn(translationMs, from, bestPosition)
      requires Delivered(ear.present, earlier, baseline, before)
      requires Judged(baseline, before, AfterChecks(s, 0)) && s.reference == reference
      requires MayGoOn(recorder.history)
      modifies this`translationMs, this`along, this`wifiQuiescent, this`colourArrived, sampler, chassis, colour, recorder, ear
      ensures WellFormed(s)
      ensures Valid() && result != Retry
      ensures result == NotClose ==> Ready() && from <= position && translationMs >= old(translationMs)
      ensures result == NotClose ==> CanReturn(translationMs, position, bestPosition)
      ensures result == NotClose ==> along - old(along) == position - from
      ensures result == NotClose ==> Delivered(ear.present, earlier, baseline, readings)
      ensures result == NotClose ==>
        Judged(baseline, readings, if recovered then Searching(Absorb(Recover(s), position, current)) else Declined(s))
      ensures result == Complete ==> recorder.history.completed
      ensures result == NotClose ==> MayGoOn(recorder.history)
      ensures result == Fatal ==> recorder.history.ended
      ensures recorder.history.driven.lines == old(recorder.history).driven.lines
    {
      hide Safe, Fold, Acceptable, Next, Judged, Delivered, Cost, ReturnConsistent, Absorb;
      position, readings := from, before;
      chassis.StopDrive();
      JudgedCheck(baseline, readings, s, 0, position, MissingPair);
      result, current, recovered := Recheck(reference);
      if result != NotClose { return; }
      JudgedCheck(baseline, readings, s, 0, position, current);
      DeliveredMore(old(ear.present), earlier, baseline, readings, Check(position, current));
      readings := readings + [Check(position, current)];
      if recovered { return; }
      result, position, current, recovered, readings := ProbeDip(earlier, baseline, readings, s, bestPosition, reference, from);
    }

    /** The bookkeeping of a weak position. */
    method NoteDecline(s: State, position: nat, step: nat, current: Pair) returns (t: State)
      ensures t == Weigh(s, position, step, current)
      ensures t.bestPosition == s.bestPosition && (WellFormed(s) ==> WellFormed(t))
    {
      t := s;
      if ReferenceDeclined(t.reference, current) {
        if !t.dip { t := t.(dip := true); }
        if t.declines == 0 || position - t.lastDecline >= step {
          t := t.(declines := t.declines + 1, lastDecline := position);
        }
      } else if t.dip {
        var recovered := ReturnConsistent(t.reference, current);
        t := t.(declines := 0);
        if recovered { t := t.(dip := false); }
      }
    }

    /** The bookkeeping of the best point, the history and the reference. */
    method TakeReading(s: State, position: nat, current: Pair) returns (t: State)
      requires WellFormed(s)
      ensures t == Absorb(s, position, current)
      ensures t.bestPosition == s.bestPosition || t.bestPosition == position
    {
      t := s;
      var trend := Compare(t.best, current);
      var stronger := trend > 0 || (t.progress && Compare(t.baseline, current) > 0 && ConfirmedGain(t.best, current) > 0);
      if stronger {
        t := t.(dip := false, declines := 0);
        t := t.(best := current, bestPosition := position, progress := true);
      }
      if !t.dip {
        t := t.(recent := t.recent[t.recentNext := current]);
        t := t.(recentNext := (t.recentNext + 1) % REFERENCE_POSITIONS);
        if t.recentCount < REFERENCE_POSITIONS { t := t.(recentCount := t.recentCount + 1); }
        if t.recentCount == REFERENCE_POSITIONS {
          var candidate := MedianOf(t.recent);
          if ConfirmedGain(t.reference, candidate) > 0 { t := t.(reference := candidate); }
        }
      }
    }

    /** One forward block of a line. Where it ends colour steering takes over exactly on the mat
        with scans left; so after an arrival it does exactly where the line may not go on. */
    method ForwardBlock(progress: bool, bestPosition: nat, trialMs: nat, from: nat)
      returns (result: Result, position: nat, step: nat, onMat: bool)
      requires Ready() && CanReturn(translationMs, from, bestPosition)
      requires MayGoOn(recorder.history)
      modifies this`translationMs, this`along, this`wifiQuiescent, this`colourArrived, this`stepOnMat, sampler, chassis, colour, recorder
      ensures Valid() && result != Retry
      ensures result == NotClose ==> Ready() && translationMs > old(translationMs)
      ensures result == NotClose ==> from <= position && CanReturn(translationMs, position, bestPosition)
      ensures result == NotClose ==> along - old(along) == position - from
      ensures step == if old(colour.OnMat()) then 250 else 500
      ensures result == NotClose ==> position <= from + step + BLOCK_RESERVE_MS
      ensures result == NotClose && !progress && from < trialMs ==> position <= trialMs + BLOCK_RESERVE_MS
      ensures result == NotClose ==> (onMat <==> MatSteeringReady())
      ensures result == NotClose ==> if onMat then MaySteer(recorder.history.course) else MayGoOn(recorder.history)
      ensures result == NotClose && colourArrived ==> (onMat <==> !MayGoOn(recorder.history))
      ensures result != Fatal ==> recorder.history.driven.lines == old(recorder.history).driven.lines + 1
      ensures result == Fatal ==> recorder.history.ended
      ensures result == Complete ==> recorder.history.completed
    {
      hide Safe, Fold, Next, Acceptable, Cost;
      onMat, position := false, from;
      step := ForwardBlockMs();
      var block := step;
      if !progress && from < trialMs && block > trialMs - from {
        block := trialMs - from;
      }
      var actual: nat;
      result, actual := TranslateBlock(true, block, TranslationCost(from + block + BLOCK_RESERVE_MS - bestPosition), true, Line);
      position := from + actual;
      if result != NotClose { return; }
      WayBackKept(old(translationMs), block, actual, from, bestPosition);
      if MatSteeringReady() {
        onMat := true;
        recorder.Print(chassis.powered);
      }
    }

    /** One forward block of a line and the reading at its end, unless colour steering takes over. */
    method Forward(progress: bool, bestPosition: nat, trialMs: nat, from: nat)
      returns (result: Result, position: nat, step: nat, onMat: bool, current: Pair)
      requires Ready() && CanReturn(translationMs, from, bestPosition)
      requires MayGoOn(recorder.history)
      modifies this`translationMs, this`along, this`wifiQuiescent, this`colourArrived, this`stepOnMat, this`profileCount,
               sampler, chassis, colour, recorder, ear
      ensures Valid() && result != Retry
      ensures result == NotClose ==> Ready() && translationMs > old(translationMs)
      ensures result == NotClose ==> from <= position && CanReturn(translationMs, position, bestPosition)
      ensures result == NotClose ==> along - old(along) == position - from
      ensures step == if old(colour.OnMat()) then 250 else 500
      ensures result == NotClose ==> position <= from + step + BLOCK_RESERVE_MS
      ensures result == NotClose && !progress && from < trialMs ==> position <= trialMs + BLOCK_RESERVE_MS
      ensures result == NotClose ==> if onMat then MatSteeringReady() else ValidPair(current) && ear.present == old(ear.present) + Both(current)
      ensures result == Complete ==> recorder.history.completed
      ensures result == NotClose && !onMat ==> MayGoOn(recorder.history)
      ensures result == Fatal ==> recorder.history.ended
      ensures result != Fatal ==> recorder.history.driven.lines == old(recorder.history).driven.lines + 1
      ensures result == NotClose && onMat ==> MaySteer(recorder.history.course)
    {
      hide Safe, Fold, Next, Acceptable, Cost, ValidPair;
      current := MissingPair;
      result, position, step, onMat := ForwardBlock(progress, bestPosition, trialMs, from);
      if result != NotClose || onMat { return; }
      sampler.SetPosition();
      result, current := MeasurePair();
      if result != NotClose { return; }
      var recorded := RecordPoint();
      if !recorded { result := Fatal; }
    }

    /** What is decided at a stop: the search goes on from `t`, or a decline is confirmed. */
    method DecideStop(ghost earlier: seq<Sample>, ghost baseline: Pair, ghost before: seq<Reading>, s: State, from: nat, step: nat, seen: Pair)
      returns (result: Result, position: nat, declined: bool, t: State, current: Pair, ghost readings: seq<Reading>)
      requires Ready() && CanReturn(translationMs, from, s.bestPosition)
      requires Delivered(ear.present, earlier, baseline, before + [Stop(from, step, seen)])
      requires Judged(baseline, before, Searching(s))
      requires MayGoOn(recorder.history)
      modifies this`translationMs, this`along, this`wifiQuiescent, this`colourArrived, sampler, chassis, colour, recorder, ear
      ensures Valid() && result != Retry
      ensures result == NotClose ==> Ready() && from <= position && translationMs >= old(translationMs)
      ensures result == NotClose ==> CanReturn(translationMs, position, t.bestPosition)
      ensures result == NotClose ==> along - old(along) == position - from
      ensures result == NotClose ==> Delivered(ear.present, earlier, baseline, readings)
      ensures result == NotClose ==> Judged(baseline, readings, if declined then Declined(t) else Searching(t))
      ensures result == Complete ==> recorder.history.completed
      ensures result == NotClose ==> MayGoOn(recorder.history)
      ensures result == Fatal ==> recorder.history.ended
      ensures recorder.history.driven.lines == old(recorder.history).driven.lines
    {
      hide Judged, Absorb, Weigh, NeedsRecheck, Safe, Fold, Acceptable, Next;
      position, current, declined, result := from, seen, false, NotClose;
      recorder.Print(chassis.powered);
      JudgedStop(baseline, before, s, position, step, current);
      readings := before + [Stop(position, step, current)];
      t := NoteDecline(s, position, step, current);
      if NeedsRecheck(t, current) {
        var recovered: bool;
        result, position, current, recovered, readings :=
          RecheckAndProbeDip(earlier, baseline, readings, t, t.bestPosition, t.reference, position);
        if result != NotClose { return; }
        if !recovered {
          declined := true;
          return;
        }
        t := t.(dip := false, declines := 0);
      }
      t := TakeReading(t, position, current);
    }

    /** Drive back and compare what is heard there with what was heard before. */
    method ReturnAndCompare(from: nat, to: nat, heard: Pair) returns (result: Result, consistent: bool, returned: Pair)
      requires Ready() && CanReturn(translationMs, from, to)
      requires MayGoOn(recorder.history)
      modifies this`translationMs, this`along, this`wifiQuiescent, this`colourArrived, sampler, chassis, colour, recorder, ear
      ensures Valid() && result != Retry
      ensures result == NotClose ==> Ready() && translationMs >= old(translationMs)
      ensures result == NotClose ==> BackAt(from + along - old(along), to)
      ensures result == NotClose ==> ear.present == old(ear.present) + Both(returned) && consistent == ReturnConsistent(heard, returned)
      ensures result == Complete ==> recorder.history.completed
      ensures result == NotClose ==> MayGoOn(recorder.history)
      ensures result == Fatal ==> recorder.history.ended
      ensures recorder.history.driven.lines == old(recorder.history).driven.lines
    {
      hide Safe, Fold, Acceptable, Next, MayGoOn, ReturnConsistent, ValidPair;
      consistent, returned := false, MissingPair;
      recorder.Print(chassis.powered);
      ghost var reversed: nat;
      result, reversed := ReturnAlongLine(from, to);
      if result != NotClose { return; }
      result, returned := MeasurePair();
      if result != NotClose { return; }
      consistent := ReturnConsistent(heard, returned);
      recorder.Print(chassis.powered);
    }

    /** After a confirmed decline: back to the best point, and only there. */
    method ReturnToBest(ghost earlier: seq<Sample>, ghost baseline: Pair, ghost readings: seq<Reading>, s: State, from: nat)
      returns (result: Result, consistent: bool)
      requires Ready() && CanReturn(translationMs, from, s.bestPosition) && along == from
      requires Delivered(ear.present, earlier, baseline, readings)
      requires MayGoOn(recorder.history)
      modifies this`translationMs, this`along, this`wifiQuiescent, this`colourArrived, sampler, chassis, colour, recorder, ear
      ensures Valid() && result != Retry
      ensures result == NotClose ==> Ready() && translationMs >= old(translationMs) && MayGoOn(recorder.history)
      ensures result == NotClose ==> BackAt(along, s.bestPosition)
      ensures result == NotClose ==>
        exists back: Pair :: Delivered(ear.present, earlier, baseline, readings + [Check(s.bestPosition, back)])
          && consistent == ReturnConsistent(s.best, back)
      ensures result == Complete ==> recorder.history.completed
      ensures result == Fatal ==> recorder.history.ended
      ensures recorder.history.driven.lines == old(recorder.history).driven.lines
    {
      hide Safe, Fold, Acceptable, Next, Delivered, ReturnConsistent, ValidPair, MayGoOn;
      var back: Pair;
      result, consistent, back := ReturnAndCompare(from, s.bestPosition, s.best);
      DeliveredMore(old(ear.present), earlier, baseline, readings, Check(s.bestPosition, back));
    }

    /** The start of `follow_direction`: turn, take the baseline, record it. */
    method BeginLine() returns (result: Result, baseline: Pair)
      requires Ready()
      requires MayGoOn(recorder.history)
      modifies this`along, this`profileCount, this`colourArrived, sampler, chassis, colour, recorder, ear
      ensures Valid() && result != Retry
      ensures result == NotClose ==> Ready() && ValidPair(baseline) && along == 0
      ensures result == NotClose ==> Delivered(ear.present, old(ear.present), baseline, [])
      ensures result == Complete ==> recorder.history.completed
      ensures result == NotClose ==> MayGoOn(recorder.history)
      ensures result == Fatal ==> recorder.history.ended
      ensures recorder.history.driven.lines == old(recorder.history).driven.lines
    {
      hide Safe, Fold, Acceptable, ValidPair;
      baseline := MissingPair;
      profileCount, along := 0, 0;
      var turned := chassis.TurnToHeading();
      if !turned {
        End(NotMoved);
        return Fatal, baseline;
      }
      sampler.SetPosition();
      result, baseline := MeasurePair();
      if result != NotClose { return; }
      var recorded := RecordPoint();
      if !recorded { return Fatal, baseline; }
      recorder.Print(chassis.powered);
    }

    /** One round of `follow_direction`: drive to the next stop and decide there. */
    method NextStop(ghost earlier: seq<Sample>, ghost baseline: Pair, ghost before: seq<Reading>, s: State, trialMs: nat, from: nat)
      returns (result: Result, position: nat, onMat: bool, declined: bool, t: State, ghost readings: seq<Reading>)
      requires Ready() && CanReturn(translationMs, from, s.bestPosition)
      requires Delivered(ear.present, earlier, baseline, before)
      requires Judged(baseline, before, Searching(s))
      requires MayGoOn(recorder.history)
      requires trialMs == 0 || from < trialMs || s.progress || s.declines > 0
      modifies this`translationMs, this`along, this`wifiQuiescent, this`colourArrived, this`stepOnMat, this`profileCount,
               sampler, chassis, colour, recorder, ear
      ensures Valid() && result != Retry
      ensures result == NotClose ==> Ready() && from <= position && translationMs > old(translationMs)
      ensures result == NotClose ==> CanReturn(translationMs, position, t.bestPosition)
      ensures result == NotClose ==> along - old(along) == position - from
      ensures result == NotClose && onMat ==> MatSteeringReady()
      ensures result == NotClose && !onMat ==> Delivered(ear.present, earlier, baseline, readings)
      ensures result == NotClose && !onMat ==> Judged(baseline, readings, if declined then Declined(t) else Searching(t))
      ensures result == Complete ==> recorder.history.completed
      ensures result == NotClose && !onMat ==> MayGoOn(recorder.history)
      ensures result == Fatal ==> recorder.history.ended
      ensures result != Fatal ==> recorder.history.driven.lines > old(recorder.history).driven.lines
      ensures result == NotClose && onMat ==> MaySteer(recorder.history.course)
    {
      hide Safe, Fold, Acceptable, Next;
      t, readings, declined, onMat, position := s, before, false, false, from;
      var go := MayContinue();
      if !go { return Fatal, position, onMat, declined, t, readings; }
      var step: nat;
      var current: Pair;
      result, position, step, onMat, current := Forward(s.progress, s.bestPosition, trialMs, from);
      if result != NotClose || onMat { return; }
      DeliveredMore(old(ear.present), earlier, baseline, before, Stop(position, step, current));
      result, position, declined, t, current, readings := DecideStop(earlier, baseline, readings, s, position, step, current);
    }

    /** A new profile every six seconds of travel; it never reverses. */
    method EndInterval(position: nat, segmentStart: nat) returns (ok: bool, start: nat)
      requires Ready() && segmentStart <= position
      modifies this`profileCount, sampler, chassis, recorder
      ensures Valid() && (ok ==> Ready()) && start <= position
      ensures Lasting(old(recorder.history), recorder.history)
      ensures old(MayGoOn(recorder.history)) ==> MayGoOn(recorder.history)
      ensures !ok ==> recorder.history.ended
      ensures recorder.history.driven == old(recorder.history).driven
      ensures start == if position - segmentStart < 6000 then segmentStart else position
      ensures ok && position - segmentStart >= 6000 ==> profileCount == 1
    {
      hide Safe, Fold, Acceptable, Next;
      if position - segmentStart < LINE_SWEEP_MS { return true, segmentStart; }
      recorder.Print(chassis.powered);
      profileCount := 0;
      ok := RecordPoint();
      start := position;
    }

    /** `follow_direction`: a decline is only reported when the readings confirm it, an end
        without gain only of a finite trial that was driven in full, saw no progress and no
        open decline, and can still be driven back; and every heading followed spends some of
        the budget. */
    method FollowDirection(trialMs: nat)
      returns (result: Result, followed: Followed, ghost readings: seq<Reading>, ghost last: State)
      requires Ready()
      requires MayGoOn(recorder.history)
      modifies this`translationMs, this`along, this`wifiQuiescent, this`colourArrived, this`stepOnMat, this`profileCount,
               sampler, chassis, colour, recorder, ear
      ensures Valid() && result != Retry
      ensures result == NotClose ==> Ready() && translationMs > old(translationMs)
      ensures result == NotClose ==> match followed.end
        case Decline =>
          && Judged(followed.baseline, readings, Declined(last)) && followed.progress == last.progress
          && BackAt(along, last.bestPosition)
          && (exists back: Pair :: Delivered(ear.present, old(ear.present), followed.baseline, readings + [Check(last.bestPosition, back)])
                && followed.consistent == ReturnConsistent(last.best, back))
        case NoGain =>
          && Judged(followed.baseline, readings, Searching(last)) && !last.progress && !followed.progress && last.declines == 0
          && 0 < trialMs <= followed.position && CanReturn(translationMs, followed.position, 0) && along == followed.position
          && Delivered(ear.present, old(ear.present), followed.baseline, readings)
        case OnTheMat => MatSteeringReady() && MaySteer(recorder.history.course) && along == followed.position
      ensures result == Complete ==> recorder.history.completed
      ensures result == NotClose && followed.end != OnTheMat ==> MayGoOn(recorder.history)
      ensures result == Fatal ==> recorder.history.ended
      ensures result == NotClose ==> recorder.history.driven.lines > old(recorder.history).driven.lines
    {
      hide Safe, Fold, Acceptable, Next, Judged, Delivered, ReturnConsistent, ValidPair, BackAt, MayGoOn, MaySteer, Lasting;
      followed, readings, last := Followed(false, false, NoGain, 0, MissingPair), [], Start(MissingPair);
      var baseline: Pair;
      result, baseline := BeginLine();
      if result != NotClose { return; }
      followed := followed.(baseline := baseline);
      var s := Start(baseline);
      JudgedStart(baseline);
      var position: nat, segmentStart: nat := 0, 0;
      while true
        invariant recorder.history.driven.lines >= old(recorder.history).driven.lines
        invariant MayGoOn(recorder.history)
        invariant trialMs == 0 || position < trialMs || s.progress || s.declines > 0
        invariant Ready() && result == NotClose && translationMs >= old(translationMs)
        invariant Judged(baseline, readings, Searching(s)) && followed.baseline == baseline
        invariant Delivered(ear.present, old(ear.present), baseline, readings)
        invariant segmentStart <= position == along && CanReturn(translationMs, position, s.bestPosition)
        decreases LINE_TRANSLATION_MS - translationMs
      {
        var onMat, declined: bool;
        result, position, onMat, declined, s, readings := NextStop(old(ear.present), baseline, readings, s, trialMs, position);
        followed := followed.(position := position, progress := s.progress);
        last := s;
        if result != NotClose { return; }
        if onMat {
          followed := followed.(end := OnTheMat);
          return;
        }
        if declined {
          followed := followed.(end := Decline);
          var consistent: bool;
          result, consistent := ReturnToBest(old(ear.present), baseline, readings, s, position);
          followed := followed.(consistent := consistent);
          return;
        }
        if trialMs > 0 && !s.progress && position >= trialMs && s.declines == 0 {
          JudgedWithoutProgress(baseline, readings, Searching(s));
          followed := followed.(end := NoGain);
          recorder.Print(chassis.powered);
          return;
        }
        var recorded: bool;
        recorded, segmentStart := EndInterval(position, segmentStart);
        if !recorded { return Fatal, followed, readings, last; }
      }
    }

    /** A trial that did not find the way: no progress, and either a confirmed decline or the whole
        trial driven. */
    predicate Fruitless(f: Followed) {
      !f.progress && (f.end == Decline || (f.end == NoGain && f.position >= 2400))
    }

    /** One direction of `check_directions`; without success the robot is back where it began. */
    method Trial() returns (result: Result, followed: Followed, found: bool)
      requires Ready()
      requires MayGoOn(recorder.history)
      modifies this`translationMs, this`along, this`wifiQuiescent, this`colourArrived, this`stepOnMat, this`profileCount,
               sampler, chassis, colour, recorder, ear
      ensures Valid() && result != Retry
      ensures result == NotClose ==> Ready() && translationMs > old(translationMs)
      ensures result == NotClose && found ==> (followed.progress || followed.end == OnTheMat) && followed.end != NoGain && Poised(followed.end)
      ensures result == NotClose && !found ==> BackAt(along, 0) && Fruitless(followed) && MayGoOn(recorder.history)
      ensures result == Complete ==> recorder.history.completed
      ensures result == Fatal ==> recorder.history.ended
    {
      hide Safe, Fold, Acceptable, Next, Delivered, MayGoOn, MaySteer, ReturnConsistent, ValidPair;
      found := false;
      ghost var readings: seq<Reading>, last: State;
      result, followed, readings, last := FollowDirection(LINE_DIRECTION_TEST_MS);
      if result != NotClose { return; }
      if followed.progress || followed.end == OnTheMat {
        found := true;
        return;
      }
      if followed.end == Decline {
        JudgedWithoutProgress(followed.baseline, readings, Declined(last));
      } else {
        var consistent: bool, back: Pair;
        result, consistent, back := ReturnAndCompare(followed.position, 0, followed.baseline);
        followed := followed.(consistent := consistent);
      }
    }

    /** `check_directions`: at most three trials; what it finds has made progress or seen the mat. */
    method CheckDirections() returns (result: Result, followed: Followed, found: bool, ghost tried: seq<Followed>)
      requires Ready()
      requires MayGoOn(recorder.history)
      modifies this`translationMs, this`along, this`wifiQuiescent, this`colourArrived, this`stepOnMat, this`profileCount,
               sampler, chassis, colour, recorder, ear
      ensures Valid() && result != Retry
      ensures result == NotClose ==> Ready() && translationMs > old(translationMs)
      ensures result == NotClose && found ==> followed.progress || followed.end == OnTheMat
      ensures result == NotClose && found ==> followed.end != NoGain
      ensures result == NotClose && !found ==> BackAt(along, 0)
      ensures result == Complete ==> recorder.history.completed
      ensures result == NotClose ==> if found then Poised(followed.end) else MayGoOn(recorder.history)
      ensures result == Fatal ==> recorder.history.ended
      ensures result == NotClose && !found ==> |tried| == 3
      ensures forall k :: 0 <= k < |tried| ==> Fruitless(tried[k])
    {
      hide Safe, Fold, Acceptable, Next, MayGoOn, MaySteer, Fruitless, BackAt;
      followed, found, result, tried := Followed(false, false, NoGain, 0, MissingPair), false, NotClose, [];
      recorder.Print(chassis.powered);
      for i := 0 to SEARCH_DIRECTIONS
        invariant Ready() && result == NotClose && !found
        invariant translationMs >= old(translationMs) && (i > 0 ==> translationMs > old(translationMs))
        invariant |tried| == i && forall k :: 0 <= k < i ==> Fruitless(tried[k])
        invariant MayGoOn(recorder.history)
        invariant i > 0 ==> BackAt(along, 0)
      {
        result, followed, found := Trial();
        if result != NotClose || found { return; }
        tried := tried + [followed];
      }
    }

    /** `colour_scan_turn`: every step turns, reads and saves with the motors off. What the
        readings are worth is left open. */
    method ColourScanTurn() returns (status: ScanStatus, ringFound: bool, sawLighter: bool)
      requires Ready() && !recorder.history.looked
      modifies chassis, recorder
      ensures Valid() && (status != ScanStopped ==> Ready())
      ensures recorder.history.driven == old(recorder.history).driven
      ensures recorder.history.course == old(recorder.history).course
      ensures status == ScanStopped ==> recorder.history.ended
      ensures sawLighter <==> recorder.history.looked
      ensures recorder.history.sighted == old(recorder.history).sighted
    {
      hide Safe, Fold;
      sawLighter, ringFound := false, *;
      for i := 0 to SCAN_STEPS
        invariant sawLighter <==> recorder.history.looked
        invariant recorder.history.sighted == old(recorder.history).sighted
        invariant recorder.history.course == old(recorder.history).course
        invariant Ready() && recorder.history.driven == old(recorder.history).driven
      {
        var zone: Zone;
        status, zone := ScanStep();
        if LighterMat(zone) { sawLighter := true; }
        if status != ScanDone { return; }
      }
      recorder.Print(chassis.powered);
      status := ScanDone;
    }

    ghost method Look(zone: Zone)
      requires Valid()
      modifies recorder
      ensures Valid() && recorder.history == old(recorder.history).(looked := old(recorder.history).looked || LighterMat(zone), justChecked := false)
    {
      hide Safe, Fold, Next;
      NextLooked(recorder.history, zone);
      recorder.Emit(Looked(zone));
    }

    method TurnAndWait() returns (ok: bool)
      requires Ready()
      modifies chassis, recorder
      ensures Valid() && (ok ==> Ready())
      ensures recorder.history.driven == old(recorder.history).driven && recorder.history.course == old(recorder.history).course
      ensures recorder.history.looked == old(recorder.history).looked && recorder.history.sighted == old(recorder.history).sighted
      ensures !ok ==> recorder.history.ended
    {
      hide Safe, Fold, Acceptable, MayGoOn;
      ok := chassis.TurnToHeading();
      if ok { ok := chassis.Pause(200); }
      if !ok { End(NotMoved); }
    }

    /** One stop of a colour scan: turn, wait, read, save. */
    method ScanStep() returns (status: ScanStatus, zone: Zone)
      requires Ready()
      modifies chassis, recorder
      ensures Valid() && (status != ScanStopped ==> Ready())
      ensures status == ScanReadFailed ==> zone == Unknown
      ensures recorder.history.driven == old(recorder.history).driven
      ensures recorder.history.course == old(recorder.history).course
      ensures status == ScanStopped ==> recorder.history.ended
      ensures recorder.history.looked <==> old(recorder.history).looked || LighterMat(zone)
      ensures recorder.history.sighted == old(recorder.history).sighted
    {
      hide Safe, Fold, Acceptable, Next, MayGoOn;
      zone := Unknown;
      var go := MayContinue();
      if !go { return ScanStopped, zone; }
      go := TurnAndWait();
      if !go { return ScanStopped, zone; }
      var read, seen := ScanRead();
      recorder.Print(chassis.powered);
      if !read { return ScanReadFailed, zone; }
      zone := seen;
      Look(zone);
      var saved := Checkpoint();
      status := if saved then ScanDone else ScanStopped;
    }

    /** `scan_read`: three readings, of which one is kept. */
    method ScanRead() returns (ok: bool, zone: Zone)
      ensures ok ==> colour.available
    {
      ok, zone := true, Unknown;
      for i := 0 to SCAN_READS
        invariant i > 0 ==> colour.available
      {
        var reading: Zone;
        ok, reading := colour.Read();
        if !ok { return; }
        var kept: bool := *;
        if kept { zone := reading; }
      }
    }

    /** `mat_wait_on_arrival`: goes on only once the latest check no longer arrives. */
    method MatWaitOnArrival() returns (result: Result)
      requires Ready()
      requires MaySteer(recorder.history.course)
      modifies this`colourArrived, sampler, chassis, colour, recorder
      ensures Valid() && result != Retry
      ensures result == NotClose ==> Ready() && !colourArrived
      ensures result == Complete ==> recorder.history.completed
      ensures recorder.history.driven == old(recorder.history).driven
      ensures result == Fatal ==> recorder.history.ended
      ensures result == NotClose ==> MaySteer(recorder.history.course)
    {
      hide Safe, Fold, Acceptable, Next;
      ghost var waits := 0;
      for retry := 1 to MAT_ARRIVED_RETRIES + 1
        invariant waits == retry - 1
        invariant retry > 1 ==> colourArrived && recorder.history.course.site.AtRest?
        invariant MaySteer(recorder.history.course)
        invariant Ready() && recorder.history.driven == old(recorder.history).driven
      {
        recorder.Print(chassis.powered);
        var paused := chassis.Pause(1000);
        if !paused {
          End(NotMoved);
          return Fatal;
        }
        result := CheckPayload(AtRest);
        if result != NotClose { return; }
        if !colourArrived { return; }
        waits := waits + 1;
      }
      recorder.Print(chassis.powered);
      End(StillArrived(waits));
      result := Fatal;
    }

    /** Wait while arrived, as after every check on the mat. */
    method CheckOnMat(checked: Result) returns (result: Result)
      requires Valid() && checked != Retry && (checked == NotClose ==> Ready())
      requires checked == Complete ==> recorder.history.completed
      requires checked == Fatal ==> recorder.history.ended
      requires checked == NotClose ==> MaySteer(recorder.history.course)
      modifies this`colourArrived, sampler, chassis, colour, recorder
      ensures Valid() && result != Retry
      ensures result == NotClose ==> Ready() && !colourArrived
      ensures result == Complete ==> recorder.history.completed
      ensures recorder.history.driven == old(recorder.history).driven
      ensures result == Fatal ==> recorder.history.ended
      ensures result == NotClose ==> MaySteer(recorder.history.course)
    {
      result := checked;
      if result != NotClose { return; }
      if colourArrived {
        result := MatWaitOnArrival();
      }
    }

    /** The small steps after one scan: at most four, each after a check that did not arrive. */
    method MatSteps() returns (result: Result, ghost depths: seq<int>)
      requires Ready() && !colourArrived && matScansUsed > 0
      requires recorder.history.driven.mat <= MAT_STEPS_PER_SCAN * (matScansUsed - 1)
      requires MaySteer(recorder.history.course)
      modifies this`translationMs, this`along, this`wifiQuiescent, this`colourArrived, sampler, chassis, colour, recorder
      ensures Valid() && result != Retry
      ensures result == NotClose ==> Ready() && translationMs >= old(translationMs)
      ensures result == Complete ==> recorder.history.completed
      ensures result == NotClose ==> !colourArrived
      ensures result == Fatal ==> recorder.history.ended
      ensures result == NotClose ==> MaySteer(recorder.history.course)
      ensures result == NotClose ==> recorder.history.driven.mat - old(recorder.history.driven.mat) == |depths| - 1
      ensures forall k :: 0 < k < |depths| - 1 ==> depths[k - 1] <= depths[k]
      ensures result == NotClose && |depths| - 1 < MAT_STEPS_PER_SCAN ==> |depths| >= 2 && depths[|depths| - 1] < depths[|depths| - 2]
    {
      hide Safe, Fold, Acceptable, Next;
      result := NotClose;
      var previous := colour.LastDepth();
      depths := [previous];
      for step := 1 to MAT_STEPS_PER_SCAN + 1
        invariant MaySteer(recorder.history.course)
        invariant |depths| == step && previous == depths[step - 1] && forall k :: 0 < k < step ==> depths[k - 1] <= depths[k]
        invariant recorder.history.driven.mat - old(recorder.history.driven.mat) == step - 1
        invariant Ready() && !colourArrived && result == NotClose && translationMs >= old(translationMs)
        invariant recorder.history.driven.mat <= MAT_STEPS_PER_SCAN * (matScansUsed - 1) + step - 1
      {
        var actual: nat;
        result, actual := TranslateBlock(true, LINE_MAT_BLOCK_MS, 0, false, Mat);
        if result != NotClose { return; }
        var depth := colour.LastDepth();
        depths := depths + [depth];
        recorder.Print(chassis.powered);
        result := CheckOnMat(result);
        if result != NotClose { return; }
        if depth < previous { return; }
        previous := depth;
      }
    }

    /** A scan and the turn towards what it found: `steering` when the robot faces a ring. */
    method FaceDarkest() returns (result: Result, steering: bool)
      requires Ready() && !recorder.history.looked
      modifies chassis, colour, recorder
      ensures Valid() && result in {NotClose, Fatal}
      ensures result == NotClose ==> Ready()
      ensures recorder.history.driven == old(recorder.history).driven
      ensures recorder.history.course == old(recorder.history).course
      ensures result == Fatal ==> recorder.history.ended
      ensures result == NotClose && steering && recorder.history.looked ==> recorder.history.sighted
    {
      hide Safe, Fold, Acceptable, MayGoOn, MaySteer, Lasting, Steady;
      var status, ringFound, sawLighter := ColourScanTurn();
      if status == ScanStopped { return Fatal, false; }
      if status == ScanReadFailed {
        recorder.Print(chassis.powered);
        return NotClose, false;
      }
      if sawLighter { colour.NoteLighter(); }
      recorder.Print(chassis.powered);
      if !ringFound { return NotClose, false; }
      var turned := chassis.TurnToHeading();
      if !turned {
        End(NotMoved);
        return Fatal, false;
      }
      return NotClose, true;
    }

    method CountScan()
      requires Ready() && matScansUsed < MAT_MAX_SCANS && MaySteer(recorder.history.course)
      modifies this`matScansUsed, recorder
      ensures Ready() && matScansUsed == old(matScansUsed) + 1
      ensures recorder.history.course.scanned && recorder.history.driven == old(recorder.history).driven
      ensures !recorder.history.looked
    {
      hide Safe, Fold;
      matScansUsed := matScansUsed + 1;
      recorder.Emit(ScanBegan);
    }

    /** One scan of `mat_approach`: `steering` while it may scan again. */
    method MatScan() returns (result: Result, steering: bool)
      requires Ready() && matScansUsed < MAT_MAX_SCANS
      requires MaySteer(recorder.history.course)
      modifies this`matScansUsed, this`translationMs, this`along, this`wifiQuiescent, this`colourArrived, sampler, chassis, colour, recorder
      ensures Valid() && result != Retry && matScansUsed >= old(matScansUsed)
      ensures result == NotClose ==> Ready() && translationMs >= old(translationMs)
      ensures result == NotClose && steering ==> matScansUsed == old(matScansUsed) + 1
      ensures result == NotClose && steering ==> recorder.history.driven.mat > old(recorder.history.driven.mat)
      ensures result == Complete ==> recorder.history.completed
      ensures result == NotClose ==> MayGoOn(recorder.history)
      ensures result == Fatal ==> recorder.history.ended
      ensures result == NotClose && steering ==> MaySteer(recorder.history.course)
    {
      hide Safe, Fold, Acceptable, Next;
      steering := false;
      var go := MayContinue();
      if !go { return Fatal, false; }
      CountScan();
      result, steering := FaceDarkest();
      if result != NotClose || !steering { return; }
      result := CheckPayload(AtRest);
      result := CheckOnMat(result);
      if result != NotClose { return; }
      ghost var depths: seq<int>;
      result, depths := MatSteps();
    }

    /** `mat_approach`. */
    method MatApproach() returns (result: Result)
      requires Ready()
      requires matScansUsed < MAT_MAX_SCANS
      requires MaySteer(recorder.history.course)
      modifies this`matScansUsed, this`translationMs, this`along, this`wifiQuiescent, this`colourArrived, sampler, chassis, colour, recorder
      ensures Valid() && result != Retry
      ensures result == NotClose ==> Ready() && translationMs >= old(translationMs)
      ensures result == Complete ==> recorder.history.completed
      ensures result == NotClose ==> MayGoOn(recorder.history)
      ensures result == Fatal ==> recorder.history.ended
    {
      recorder.Print(chassis.powered);
      while matScansUsed < MAT_MAX_SCANS
        invariant matScansUsed > old(matScansUsed) ==> MayGoOn(recorder.history)
        invariant matScansUsed >= old(matScansUsed)
        invariant MaySteer(recorder.history.course)
        invariant Ready() && translationMs >= old(translationMs)
        decreases MAT_MAX_SCANS - matScansUsed
      {
        var steering: bool;
        result, steering := MatScan();
        if result != NotClose || !steering { return; }
      }
      recorder.Print(chassis.powered);
      result := NotClose;
    }

    /** The first half of `approach_beacon`: `settled` when the run is already decided. */
    method BeginApproach() returns (settled: bool, delivered: bool)
      requires Rested() && recorder.history == Beginning
      modifies this`colourArrived, sampler, chassis, colour, recorder, ear
      ensures Valid() && (!settled ==> Ready())
      ensures settled && delivered ==> recorder.history.completed
      ensures !settled && !MatSteeringReady() ==> MayGoOn(recorder.history)
      ensures settled && !delivered ==> recorder.history.ended
      ensures !settled ==> MaySteer(recorder.history.course)
    {
      hide Safe, Fold, Acceptable, Lasting;
      colour.Reset();
      var result := CheckPayload(Opening);
      if result == Complete { return true, true; }
      if result == Fatal { return true, false; }
      var initial: Sample;
      result, initial := WaitForWifi(Opening);
      if result == Complete { return true, true; }
      if result == Fatal { return true, false; }
      var learnt := chassis.LearnDirection();
      if !learnt {
        End(NotMoved);
        return true, false;
      }
      recorder.Print(chassis.powered);
      return false, false;
    }

    /** One round of `approach_beacon` after a heading has ended; a heading that made no
        progress never gets here. */
    method NextHeading(ended: Followed) returns (settled: bool, delivered: bool, followed: Followed)
      requires Ready() && ended.end != NoGain && Poised(ended.end)
      modifies this`matScansUsed, this`translationMs, this`along, this`wifiQuiescent, this`colourArrived, this`stepOnMat,
               this`profileCount, sampler, chassis, colour, recorder, ear
      ensures Valid() && (!settled ==> Ready() && followed.end != NoGain && Poised(followed.end) && translationMs > old(translationMs))
      ensures settled && delivered ==> recorder.history.completed
      ensures settled && !delivered ==> recorder.history.ended
    {
      hide Safe, Fold, Acceptable, Next, Judged, Delivered;
      followed := ended;
      var result: Result;
      if followed.end == OnTheMat {
        result := MatApproach();
        if result != NotClose { return true, result == Complete, followed; }
        recorder.Print(chassis.powered);
        ghost var readings: seq<Reading>, last: State;
        result, followed, readings, last := FollowDirection(0);
        return result != NotClose, result == Complete, followed;
      }
      // "Ended without a confirmed decline" cannot happen.
      if followed.end != Decline {
        assert false;
      }
      recorder.Print(chassis.powered);
      var found: bool;
      ghost var tried: seq<Followed>;
      result, followed, found, tried := CheckDirections();
      if result == NotClose && !found {
        recorder.Print(chassis.powered);
        End(NoDirection(|tried|));
        return true, false, followed;
      }
      return result != NotClose, result == Complete, followed;
    }

    /** `approach_beacon`: it ends even if the run limit never strikes, because every heading
        followed spends budget; true only after an attempt completed; and the whole record of
        the run is safe. */
    method ApproachBeacon() returns (delivered: bool)
      requires Rested() && recorder.history == Beginning
      modifies this, sampler, chassis, colour, recorder, ear
      ensures Valid() && Safe(recorder.trace)
      ensures delivered ==> recorder.history.completed
      ensures recorder.history.driven.mat <= 24
      ensures !delivered ==> recorder.history.ended
    {
      hide Fold, Acceptable, Next, Judged, Delivered;
      var settled: bool;
      settled, delivered := BeginApproach();
      if settled { return; }
      var followed := Followed(false, false, OnTheMat, 0, MissingPair);
      if !MatSteeringReady() {
        var result: Result;
        ghost var readings: seq<Reading>, last: State;
        result, followed, readings, last := FollowDirection(0);
        if result != NotClose { return result == Complete; }
      }
      while true
        invariant Ready() && followed.end != NoGain && Poised(followed.end)
        decreases LINE_TRANSLATION_MS - translationMs
      {
        var go := MayContinue();
        if !go { return false; }
        settled, delivered, followed := NextHeading(followed);
        if settled { return; }
      }
    }
  }
}
