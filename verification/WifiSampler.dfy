/** The Wi-Fi sampler as far as the radio, the motors and the log constrain each other: one
    scan at a time, nothing written while it is open, and a failure that latches. */
module WifiSampler {
  import opened Trace
  import opened Motion
  import opened PackedBits
  import opened Filters

  const SCAN_TIMEOUT_MS: nat := 15000
  const MOVING_INTERVAL_MS: nat := 750
  const SCAN_START_LIMIT_MS: nat := 5
  const RECORD_CAPACITY: nat := 64
  const QUALIFICATION_WINDOWS: nat := 3

  /** `run_can_continue`: STOP, a failed report and the run limit all stop the motors first. */
  class Guard {
    const chassis: Chassis
    const runStartedMs: nat

    constructor (chassis: Chassis)
      requires chassis.Valid()
      ensures this.chassis == chassis && runStartedMs == chassis.now
    {
      this.chassis, runStartedMs := chassis, chassis.now;
    }

    method CanContinue() returns (ok: bool)
      requires chassis.Valid()
      modifies chassis`stopLatched, chassis`powered, chassis`left, chassis`right, chassis`active, chassis`elapsedMs, chassis.recorder
      ensures chassis.Valid() && chassis.recorder.history == old(chassis.recorder.history)
      ensures ok <==> !chassis.stopLatched && !chassis.recorder.failed && chassis.now - runStartedMs < MAX_RUN_MS
      ensures (old(chassis.stopLatched) ==> chassis.stopLatched) && (old(chassis.recorder.failed) ==> chassis.recorder.failed)
      ensures ok ==> chassis.powered == old(chassis.powered) && chassis.active == old(chassis.active)
      ensures !ok ==> chassis.Still()
      ensures chassis.active == old(chassis.active) ==> chassis.elapsedMs == old(chassis.elapsedMs)
      ensures chassis.active ==> old(chassis.active)
    {
      var stop := chassis.StopPressed();
      if stop {
        chassis.StopDrive();
        return false;
      }
      var reportOk := chassis.recorder.ReportOk();
      if !reportOk {
        chassis.StopDrive();
        return false;
      }
      if chassis.now - runStartedMs >= MAX_RUN_MS {
        chassis.StopDrive();
        chassis.recorder.Print(chassis.powered);
        return false;
      }
      ok := true;
    }
  }

  /** The present samples that the radio has really delivered, in order. */
  class Ear {
    ghost var present: seq<Sample>

    constructor ()
      ensures present == []
    {
      present := [];
    }

    ghost method Hear(sample: Sample)
      modifies this
      ensures present == if sample.code == MISSING then old(present) else old(present) + [sample]
    {
      if sample.code != MISSING { present := present + [sample]; }
    }
  }

  function Present(codes: seq<Code>): nat {
    if codes == [] then 0 else Present(codes[..|codes| - 1]) + (if codes[|codes| - 1] != MISSING then 1 else 0)
  }

  class Sampler {
    const guard: Guard
    const ear: Ear
    const movingSamples: bool        // LINE_SEARCH_MOVING_SAMPLES
    var scanOpen: bool
    var movingScan: bool
    var fallback: bool
    var failed: bool
    var qualificationWindows: nat
    var recordCount: nat
    var movingCount: nat
    var scanStartedMs: nat
    var pendingCode: Code
    ghost var heard: seq<Code>       // the result of every scan begun

    ghost predicate Valid()
      reads this, guard, guard.chassis, guard.chassis.recorder
    {
      && guard.chassis.Valid() && scanStartedMs <= guard.chassis.now && movingCount < SCANS
      && failed == guard.chassis.recorder.history.failed
    }

    /** Motors off and no scan: the only state in which flash or BLE may be used. */
    ghost predicate Quiet()
      reads this, guard, guard.chassis, guard.chassis.recorder
    {
      Valid() && guard.chassis.Still() && !scanOpen && !failed
    }

    constructor (guard: Guard, ear: Ear, movingSamples: bool)
      requires guard.chassis.Still() && !guard.chassis.recorder.history.failed
      ensures Quiet() && this.guard == guard && this.ear == ear && this.movingSamples == movingSamples
      ensures Steady(old(guard.chassis.recorder.history), guard.chassis.recorder.history)
      ensures fresh(this)
    {
      this.guard, this.ear, this.movingSamples := guard, ear, movingSamples;
      scanOpen, movingScan, fallback, failed := false, false, false, false;
      qualificationWindows, recordCount, movingCount, scanStartedMs := 0, 0, 0, guard.chassis.now;
      pendingCode, heard := MISSING, [];
    }

    function MovingEnabled(): bool
      reads this
    {
      movingSamples && !fallback && qualificationWindows >= QUALIFICATION_WINDOWS
    }

    /** `wifi_sampler_set_position`: a new frame restarts the moving window. */
    method SetPosition()
      requires Valid()
      modifies this`movingCount
      ensures Valid()
    {
      movingCount := 0;
    }

    /** A failure is for good. */
    method Fail()
      requires Valid()
      modifies this`failed, guard.chassis.recorder
      ensures Valid() && failed && Steady(old(guard.chassis.recorder.history), guard.chassis.recorder.history)
    {
      SteadyFailing(guard.chassis.recorder.history);
      failed := true;
      guard.chassis.recorder.Emit(SamplerFailed);
    }

    /** `cyw43_wifi_scan_active`: the driver's own view, arbitrary. */
    method ScanActive() returns (busy: bool) {
      busy := *;
    }

    method Begin(moving: bool) returns (ok: bool)
      requires Valid()
      modifies this, guard.chassis`stopLatched, guard.chassis`powered, guard.chassis`left, guard.chassis`right, guard.chassis`active, guard.chassis`elapsedMs,
               guard.chassis`now, guard.chassis.recorder
      ensures Valid() && Steady(old(guard.chassis.recorder.history), guard.chassis.recorder.history)
      ensures old(failed) ==> failed
      ensures ok ==> scanOpen && !failed
      ensures old(guard.chassis.Still()) ==> guard.chassis.Still()
      ensures guard.chassis.powered ==> old(guard.chassis.powered) && guard.chassis.active == old(guard.chassis.active)
      ensures guard.chassis.active ==> old(guard.chassis.active)
      ensures !old(guard.chassis.active) ==> guard.chassis.elapsedMs == old(guard.chassis.elapsedMs)
      ensures guard.chassis.now >= old(guard.chassis.now)
      ensures (old(fallback) ==> fallback) && qualificationWindows == old(qualificationWindows)
      ensures ok ==> heard == old(heard) + [pendingCode]
      ensures ok ==> !old(failed) && !old(scanOpen) && !guard.chassis.stopLatched && !old(guard.chassis.recorder.failed)
    {
      hide Safe, Fold, Acceptable, Next, Steady;
      SteadySame(guard.chassis.recorder.history);
      if failed || scanOpen { return false; }
      var go := guard.CanContinue();
      if !go { return false; }
      if recordCount >= RECORD_CAPACITY {
        guard.chassis.StopDrive();
        Fail();
        return false;
      }
      ok := StartScan(moving);
    }

    /** The second half of `sampler_begin`: a scan that cannot start, or starts late while
        moving, stops the motors. */
    method StartScan(moving: bool) returns (ok: bool)
      requires Valid() && !failed
      modifies this`pendingCode, this`heard, this`scanStartedMs, this`scanOpen, this`movingScan, this`failed, this`fallback,
               guard.chassis`powered, guard.chassis`left, guard.chassis`right, guard.chassis`active, guard.chassis`elapsedMs, guard.chassis`now, guard.chassis.recorder
      ensures Valid() && Steady(old(guard.chassis.recorder.history), guard.chassis.recorder.history)
      ensures ok ==> scanOpen && !failed
      ensures guard.chassis.Still() || (guard.chassis.powered == old(guard.chassis.powered)
                                        && guard.chassis.active == old(guard.chassis.active)
                                        && guard.chassis.elapsedMs == old(guard.chassis.elapsedMs))
      ensures !old(guard.chassis.active) ==> guard.chassis.elapsedMs == old(guard.chassis.elapsedMs)
      ensures guard.chassis.now >= old(guard.chassis.now)
      ensures old(fallback) ==> fallback
      ensures ok && moving && guard.chassis.now - scanStartedMs > SCAN_START_LIMIT_MS ==> fallback && !guard.chassis.powered
      ensures ok ==> heard == old(heard) + [pendingCode]
    {
      hide Safe, Fold, Acceptable, Next, Steady;
      SteadySame(guard.chassis.recorder.history);
      scanStartedMs, scanOpen, movingScan := guard.chassis.now, true, moving;
      var error: bool := *;
      var code: Code :| 0 <= code <= MISSING;
      pendingCode := code;     // the radio callback keeps the strongest result
      heard := heard + [code];
      guard.chassis.Sleep(0);
      if error {
        scanOpen := false;
        guard.chassis.StopDrive();
        Fail();
        guard.chassis.recorder.Print(guard.chassis.powered);
        return false;
      }
      if moving && guard.chassis.now - scanStartedMs > SCAN_START_LIMIT_MS {
        fallback := true;
        guard.chassis.StopDrive();
      }
      ok := true;
    }

    /** What a finished scan means for a block under way: a missing or late one ends moving
        acquisition, a full weaker window only the block. */
    method JudgeMoving() returns (ghost late: bool, ghost stopped: bool, ghost weaker: bool)
      requires Valid()
      modifies this`fallback, this`movingCount, guard.chassis`powered, guard.chassis`left, guard.chassis`right, guard.chassis`active,
               guard.chassis`elapsedMs
      ensures Valid() && (old(fallback) ==> fallback)
      ensures pendingCode == MISSING ==> fallback && !guard.chassis.powered
      ensures fallback <==> old(fallback) || pendingCode == MISSING || late
      ensures fallback && !old(fallback) ==> !guard.chassis.powered
      ensures pendingCode != MISSING && !late ==>
        movingCount == (if stopped then 0 else if old(movingCount) == 4 then 0 else old(movingCount) + 1)
        && (!stopped && old(movingCount) == 4 && weaker ==> !guard.chassis.powered)
      ensures old(guard.chassis.Still()) ==> guard.chassis.Still()
      ensures guard.chassis.powered ==> old(guard.chassis.powered) && guard.chassis.active == old(guard.chassis.active)
      ensures guard.chassis.active ==> old(guard.chassis.active)
      ensures !old(guard.chassis.active) ==> guard.chassis.elapsedMs == old(guard.chassis.elapsedMs)
    {
      var overdue: bool := *;
      var paused: bool := *;
      late, stopped, weaker := overdue, paused, false;
      if pendingCode == MISSING || overdue {
        fallback := true;
        guard.chassis.StopDrive();
      } else if paused {
        movingCount := 0;
      } else {
        movingCount := movingCount + 1;
        if movingCount == SCANS {
          var fading: bool := *;
          weaker := fading;
          if fading { guard.chassis.StopDrive(); }
          movingCount := 0;
        }
      }
    }

    method Collect() returns (ok: bool)
      requires Valid()
      modifies this, guard.chassis`powered, guard.chassis`left, guard.chassis`right, guard.chassis`active, guard.chassis`elapsedMs, guard.chassis.recorder
      ensures Valid() && Steady(old(guard.chassis.recorder.history), guard.chassis.recorder.history)
      ensures !old(failed) && ok ==> !failed
      ensures old(failed) ==> failed
      ensures !ok ==> failed
      ensures scanOpen ==> old(scanOpen)
      ensures old(guard.chassis.Still()) ==> guard.chassis.Still()
      ensures guard.chassis.powered ==> old(guard.chassis.powered) && guard.chassis.active == old(guard.chassis.active)
      ensures guard.chassis.active ==> old(guard.chassis.active)
      ensures !old(guard.chassis.active) ==> guard.chassis.elapsedMs == old(guard.chassis.elapsedMs)
      ensures (old(fallback) ==> fallback) && qualificationWindows == old(qualificationWindows)
      ensures heard == old(heard) && pendingCode == old(pendingCode)
    {
      hide Safe, Fold, Acceptable, Next, Steady;
      SteadySame(guard.chassis.recorder.history);
      if !scanOpen { return true; }
      var busy := ScanActive();
      if busy { return true; }
      if recordCount >= RECORD_CAPACITY {
        guard.chassis.StopDrive();
        Fail();
        return false;
      }
      recordCount := recordCount + 1;
      scanOpen := false;
      if movingScan {
        ghost var late, stopped, weaker := JudgeMoving();
      }
      ok := true;
    }

    /** `sampler_flush`: only ever called with the motors stopped. */
    method Flush() returns (ok: bool)
      requires Valid() && !guard.chassis.powered
      modifies this`recordCount, guard.chassis.recorder
      ensures Valid() && guard.chassis.recorder.history == old(guard.chassis.recorder.history)
      ensures ok ==> !guard.chassis.active && !scanOpen && recordCount == 0
    {
      var busy := ScanActive();
      if guard.chassis.active || scanOpen || busy { return false; }
      for i := 0 to recordCount
        invariant Valid() && guard.chassis.recorder.history == old(guard.chassis.recorder.history)
      {
        guard.chassis.recorder.Print(guard.chassis.powered);
      }
      recordCount := 0;
      ok := *;
    }

    /** `wifi_sampler_quiesce`: success leaves the robot quiet; a stuck scan fails for good. */
    method Quiesce() returns (ok: bool)
      requires Valid()
      modifies this, guard.chassis`stopLatched, guard.chassis`powered, guard.chassis`left, guard.chassis`right, guard.chassis`active, guard.chassis`elapsedMs,
               guard.chassis`now, guard.chassis.recorder
      ensures Valid() && guard.chassis.Still() && Steady(old(guard.chassis.recorder.history), guard.chassis.recorder.history)
      ensures ok ==> Quiet()
      ensures old(failed) ==> failed && !ok
      ensures !old(guard.chassis.active) ==> guard.chassis.elapsedMs == old(guard.chassis.elapsedMs)
      ensures guard.chassis.now >= old(guard.chassis.now)
      ensures (old(fallback) ==> fallback) && qualificationWindows == old(qualificationWindows)
      ensures heard == old(heard) && pendingCode == old(pendingCode)
    {
      hide Safe, Fold, Acceptable, Next, Steady;
      SteadySame(guard.chassis.recorder.history);
      guard.chassis.StopDrive();
      if failed { return false; }
      var busy := ScanActive();
      while scanOpen && busy
        invariant Valid() && guard.chassis.Still() && !failed
        invariant heard == old(heard) && pendingCode == old(pendingCode)
        invariant (old(fallback) ==> fallback) && qualificationWindows == old(qualificationWindows)
        invariant guard.chassis.recorder.history == old(guard.chassis.recorder.history)
        invariant !old(guard.chassis.active) ==> guard.chassis.elapsedMs == old(guard.chassis.elapsedMs)
        invariant guard.chassis.now >= old(guard.chassis.now)
        decreases SCAN_TIMEOUT_MS - (guard.chassis.now - scanStartedMs)
      {
        var go := guard.CanContinue();
        if !go || guard.chassis.now - scanStartedMs >= SCAN_TIMEOUT_MS {
          Fail();
          guard.chassis.recorder.Print(guard.chassis.powered);
          return false;
        }
        guard.chassis.Sleep(5);
        busy := ScanActive();
      }
      ok := Collect();
      if !ok { return; }
      ok := Flush();
    }

    /** `wifi_sampler_poll_moving`. */
    method PollMoving() returns (ok: bool)
      requires Valid() && (guard.chassis.powered ==> guard.chassis.active)
      modifies this, guard.chassis`stopLatched, guard.chassis`powered, guard.chassis`left, guard.chassis`right, guard.chassis`active, guard.chassis`elapsedMs,
               guard.chassis`now, guard.chassis.recorder
      ensures Valid() && Steady(old(guard.chassis.recorder.history), guard.chassis.recorder.history)
      ensures guard.chassis.powered ==> guard.chassis.active
      ensures guard.chassis.active ==> old(guard.chassis.active)
      ensures !old(guard.chassis.active) ==> guard.chassis.elapsedMs == old(guard.chassis.elapsedMs)
      ensures guard.chassis.now >= old(guard.chassis.now)
      ensures (old(fallback) ==> fallback) && qualificationWindows == old(qualificationWindows)
      ensures scanOpen && !old(scanOpen) ==> movingSamples && !old(fallback) && old(qualificationWindows) >= 3
      ensures old(MovingEnabled()) && old(scanOpen) && old(guard.chassis.now) - old(scanStartedMs) >= 750 && ok ==> fallback && !guard.chassis.powered
    {
      hide Safe, Fold, Acceptable, Next, Steady;
      SteadySame(guard.chassis.recorder.history);
      var go := guard.CanContinue();
      if !go {
        guard.chassis.StopDrive();
        return false;
      }
      if !MovingEnabled() { return true; }
      if scanOpen && guard.chassis.now - scanStartedMs >= MOVING_INTERVAL_MS {
        fallback := true;
        guard.chassis.StopDrive();
        return true;
      }
      ok := Collect();
      if !ok { return; }
      ghost var h := guard.chassis.recorder.history;
      if guard.chassis.active && MovingEnabled() && !scanOpen {
        ok := Begin(true);
        SteadyThen(old(guard.chassis.recorder.history), h, guard.chassis.recorder.history);
      }
    }

    /** The scans of one sample, one at a time, each over before the next begins. */
    method TakeScans() returns (ok: bool, codes: seq<Code>, valid: nat)
      requires Quiet()
      modifies this, guard.chassis`stopLatched, guard.chassis`powered, guard.chassis`left, guard.chassis`right, guard.chassis`active, guard.chassis`elapsedMs,
               guard.chassis`now, guard.chassis.recorder
      ensures Valid() && guard.chassis.Still() && Steady(old(guard.chassis.recorder.history), guard.chassis.recorder.history)
      ensures ok ==> Quiet() && |codes| == SCANS && valid == Present(codes)
      ensures guard.chassis.now >= old(guard.chassis.now)
      ensures (old(fallback) ==> fallback) && qualificationWindows == old(qualificationWindows)
      ensures ok ==> heard == old(heard) + codes
    {
      hide Safe, Fold, Acceptable, Next, Steady;
      SteadySame(guard.chassis.recorder.history);
      codes, valid := [], 0;
      for i := 0 to SCANS
        invariant heard == old(heard) + codes
        invariant (old(fallback) ==> fallback) && qualificationWindows == old(qualificationWindows)
        invariant |codes| == i && valid == Present(codes) && guard.chassis.now >= old(guard.chassis.now)
        invariant Quiet() && Steady(old(guard.chassis.recorder.history), guard.chassis.recorder.history)
      {
        ghost var h := guard.chassis.recorder.history;
        ok := Begin(false);
        SteadyThen(old(guard.chassis.recorder.history), h, guard.chassis.recorder.history);
        if !ok { return; }
        h := guard.chassis.recorder.history;
        ok := Quiesce();
        SteadyThen(old(guard.chassis.recorder.history), h, guard.chassis.recorder.history);
        if !ok { return; }
        codes := codes + [pendingCode];
        if pendingCode != MISSING { valid := valid + 1; }
      }
      ok := true;
    }

    /** Moving acquisition is earned by full windows taken in time, and lost for good with one
        that is not. */
    method Qualify(valid: nat) returns (ghost inTime: bool)
      modifies this`qualificationWindows, this`fallback
      ensures old(fallback) ==> fallback
      ensures qualificationWindows == 0 || (valid == SCANS && !fallback
                && qualificationWindows == old(qualificationWindows) + (if old(qualificationWindows) < QUALIFICATION_WINDOWS then 1 else 0))
      ensures movingSamples && valid < SCANS ==> fallback
      ensures qualificationWindows > 0 <==> !old(fallback) && valid == SCANS && inTime
      ensures fallback <==> old(fallback) || (movingSamples && qualificationWindows == 0)
    {
      var taken: bool := *;
      inTime := taken;
      if !fallback && valid == SCANS && taken {
        if qualificationWindows < QUALIFICATION_WINDOWS { qualificationWindows := qualificationWindows + 1; }
      } else {
        qualificationWindows := 0;
        if movingSamples { fallback := true; }
      }
    }

    method Conclude() returns (ok: bool)
      requires Quiet()
      modifies guard.chassis`stopLatched, guard.chassis`powered, guard.chassis`left, guard.chassis`right, guard.chassis`active, guard.chassis`elapsedMs,
               guard.chassis.recorder
      ensures Quiet() && guard.chassis.recorder.history == old(guard.chassis.recorder.history)
      ensures ok ==> !guard.chassis.stopLatched && !guard.chassis.recorder.failed
    {
      hide Safe, Fold, Acceptable, Next;
      guard.chassis.recorder.Print(guard.chassis.powered);
      var go := guard.CanContinue();
      var reportOk := guard.chassis.recorder.ReportOk();
      ok := go && reportOk;
    }

    /** `wifi_sampler_sample`: five stationary scans, filtered. */
    method TakeSample() returns (ok: bool, sample: Sample, ghost readings: seq<Code>)
      requires Valid()
      modifies this, guard.chassis`stopLatched, guard.chassis`powered, guard.chassis`left, guard.chassis`right, guard.chassis`active, guard.chassis`elapsedMs,
               guard.chassis`now, guard.chassis.recorder, ear
      ensures Valid() && guard.chassis.Still() && Steady(old(guard.chassis.recorder.history), guard.chassis.recorder.history)
      ensures ok ==> Quiet() && |readings| == SCANS && sample == WifiFilter(readings)
      ensures ok ==> ear.present == if sample.code == MISSING then old(ear.present) else old(ear.present) + [sample]
      ensures old(failed) ==> failed && !ok
      ensures guard.chassis.now >= old(guard.chassis.now)
      ensures old(fallback) ==> fallback
      ensures ok ==> qualificationWindows == 0 || (Present(readings) == SCANS && !fallback
                       && qualificationWindows == old(qualificationWindows) + (if old(qualificationWindows) < QUALIFICATION_WINDOWS then 1 else 0))
      ensures ok && movingSamples && Present(readings) < SCANS ==> fallback
      ensures ok ==> heard == old(heard) + readings
    {
      hide Safe, Fold, Acceptable, Next, Steady, Present, WifiFilter;
      SteadySame(guard.chassis.recorder.history);
      sample, readings := NoSample, [];
      ok := Quiesce();
      if !ok { return; }
      guard.chassis.recorder.Print(guard.chassis.powered);
      var codes: seq<Code>, valid: nat;
      ghost var h := guard.chassis.recorder.history;
      ok, codes, valid := TakeScans();
      SteadyThen(old(guard.chassis.recorder.history), h, guard.chassis.recorder.history);
      if !ok { return; }
      sample := FilterWifi(codes);
      readings := codes;
      ear.Hear(sample);
      ghost var inTime := Qualify(valid);
      ok := Conclude();
    }
  }
}
