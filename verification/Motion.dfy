/** The drive interlock and the powered-time accounting of the motors. Gyro readings, the
    clock and the STOP button are arbitrary; only what they can do to the motors is modelled. */
module Motion {
  import opened Trace

  const DRIVE_DUTY: int := 35
  const TURN_DUTY: int := 25
  const MAX_STEERING_ADJUSTMENT: int := 8
  const MAX_MOVING_RECOVERIES: nat := 2
  const TURN_TIMEOUT_MS: nat := 6000
  const TURN_START_TIMEOUT_MS: nat := 1000
  const TURN_CORRECTION_MAX_MS: nat := 200
  const TURN_MAX_CORRECTIONS: nat := 2
  const MOTOR_SETTLE_MS: nat := 300

  /** Both wheels turn the way of the block. */
  predicate Onward(speed: int, left: int, right: int) {
    if speed > 0 then left > 0 && right > 0 else speed < 0 && left < 0 && right < 0
  }

  function Magnitude(n: int): nat {
    if n < 0 then -n else n
  }

  /** `steering_adjustment`: what the gyro asks for where that is possible, and never enough to
      stop a wheel or turn it the other way. */
  function SteeringAdjustment(speed: int, wanted: int): (adjustment: int)
    ensures Magnitude(adjustment) <= MAX_STEERING_ADJUSTMENT
    ensures speed != 0 ==> Onward(speed, speed + adjustment, speed - adjustment)
    ensures Magnitude(wanted) < Magnitude(speed) && Magnitude(wanted) <= MAX_STEERING_ADJUSTMENT ==> adjustment == wanted
  {
    var most: int := Magnitude(speed) - 1;
    var limit := if most < 0 then 0 else if most > MAX_STEERING_ADJUSTMENT then MAX_STEERING_ADJUSTMENT else most;
    if wanted > limit then limit else if wanted < -limit then -limit else wanted
  }

  datatype GyroUse = PreDrive | Drive | PreTurn | Turn

  class Chassis {
    const recorder: Recorder
    var stopArmed: bool
    var stopLatched: bool
    var left: int              // the duties last written to the wheels
    var right: int
    var powered: bool          // motors_powered: some PWM level is not zero
    var speed: int             // the duty of the block under way, negative in reverse
    var active: bool           // a drive block is under way
    var pending: bool          // it has not been finished
    var failed: bool
    var signKnown: bool
    var recoveries: nat
    var now: nat
    var startedMs: nat
    var elapsedMs: nat
    var durationMs: nat

    ghost predicate Valid()
      reads this, recorder
    {
      && recorder.Valid() && startedMs <= now
      && (powered <==> left != 0 || right != 0)
      && (active ==> speed != 0 && (powered ==> Onward(speed, left, right)))
    }

    /** At rest: no PWM, no block under way. */
    ghost predicate Still()
      reads this, recorder
    {
      Valid() && !powered && !active
    }

    constructor (recorder: Recorder)
      requires recorder.Valid()
      ensures Still() && this.recorder == recorder && recorder.history == old(recorder.history)
    {
      this.recorder := recorder;
      left, right, speed := 0, 0, 0;
      stopArmed, stopLatched, powered, active, pending, failed, signKnown := false, false, false, false, false, false, false;
      recoveries, now, startedMs, elapsedMs, durationMs := 0, 0, 0, 0, 0;
    }

    method Sleep(ms: nat)
      modifies this`now
      ensures now >= old(now) + ms
    {
      var extra: nat :| extra >= 0;
      now := now + ms + extra;
    }

    method StopPressed() returns (stop: bool)
      modifies this`stopLatched
      ensures stop == stopLatched && (old(stopLatched) ==> stopLatched)
    {
      var pressed: bool := *;
      if stopArmed && pressed {
        stopLatched := true;
      }
      stop := stopLatched;
    }

    method MotorsSet(left: int, right: int)
      modifies this`stopLatched, this`powered, this`left, this`right
      ensures if stopArmed && !stopLatched then this.left == left && this.right == right else this.left == 0 && this.right == 0
      ensures powered <==> this.left != 0 || this.right != 0
      ensures old(stopLatched) ==> stopLatched
    {
      var l, r := left, right;
      var stop := StopPressed();
      if !stopArmed || stop {
        l, r := 0, 0;
      }
      this.left, this.right := l, r;
      powered := l != 0 || r != 0;
    }

    method MotorsStop()
      modifies this`powered, this`left, this`right
      ensures !powered && left == 0 && right == 0
    {
      left, right := 0, 0;
      powered := false;
    }

    /** `stop_drive`: a block that was powered is charged at least one millisecond. */
    method StopDrive()
      requires Valid()
      modifies this`powered, this`left, this`right, this`active, this`elapsedMs
      ensures Still()
      ensures old(active) ==> elapsedMs == if old(powered) && now == startedMs then 1 else now - startedMs
      ensures !old(active) ==> elapsedMs == old(elapsedMs)
    {
      var wasPowered := powered;
      MotorsStop();
      if active {
        elapsedMs := now - startedMs;
        if wasPowered && elapsedMs == 0 {
          elapsedMs := 1;
        }
        active := false;
      }
    }

    method RecoverGyroStopped() returns (ok: bool)
      requires Valid() && !powered
      modifies this`stopLatched, recorder
      ensures Valid() && recorder.history == old(recorder.history)
      ensures old(stopLatched) ==> stopLatched
      ensures recorder.failed == old(recorder.failed)
    {
      for attempt := 0 to 2
        invariant Valid() && recorder.history == old(recorder.history)
        invariant recorder.failed == old(recorder.failed)
        invariant old(stopLatched) ==> stopLatched
      {
        var stop := StopPressed();
        if stop { return false; }
        stop := StopPressed();
        if stop { return false; }
        var read: bool := *;
        recorder.Print(powered);
        if read {
          stop := StopPressed();
          return !stop;
        }
      }
      ok := false;
    }

    /** A missed gyro sample: the motors stop first, and while driving it is forgiven twice. */
    method RecoverFromMiss(kind: GyroUse) returns (ok: bool)
      requires Valid()
      modifies this`stopLatched, this`powered, this`left, this`right, this`active, this`elapsedMs, this`recoveries, recorder
      ensures Valid() && !powered && !active && recorder.history == old(recorder.history)
      ensures !old(active) ==> elapsedMs == old(elapsedMs)
      ensures (old(stopLatched) ==> stopLatched) && recorder.failed == old(recorder.failed)
      ensures recoveries == old(recoveries) || (kind == Drive && recoveries == old(recoveries) + 1 <= 2)
      ensures kind == Drive && ok ==> recoveries == old(recoveries) + 1
    {
      hide Safe, Fold, Acceptable, Next;
      if active {
        StopDrive();
      } else {
        MotorsStop();
      }
      recorder.Print(powered);
      if kind == Turn || (kind == Drive && recoveries >= MAX_MOVING_RECOVERIES) {
        recorder.Print(powered);
        return false;
      }
      var recovered := RecoverGyroStopped();
      if !recovered {
        recorder.Print(powered);
        return false;
      }
      if kind == Drive {
        var gapTooLong: bool := *;
        if gapTooLong {
          recorder.Print(powered);
          return false;
        }
        recoveries := recoveries + 1;
        recorder.Print(powered);
      }
      ok := true;
    }

    /** `read_motion_gyro`: whenever it fails the motors are already off, and a missed sample
        while driving never leaves the block powered. */
    method ReadMotionGyro(kind: GyroUse) returns (ok: bool)
      requires Valid()
      modifies this`stopLatched, this`powered, this`left, this`right, this`active, this`elapsedMs, this`recoveries, recorder
      ensures Valid() && recorder.history == old(recorder.history)
      ensures !ok ==> !powered
      ensures powered ==> old(powered) && active == old(active)
      ensures active ==> old(active) && elapsedMs == old(elapsedMs)
      ensures !old(active) ==> elapsedMs == old(elapsedMs)
      ensures old(stopLatched) ==> stopLatched
      ensures recorder.failed == old(recorder.failed)
      ensures recoveries == old(recoveries) || (kind == Drive && recoveries == old(recoveries) + 1 <= 2 && !powered && !active)
    {
      hide Safe, Fold, Acceptable, Next;
      var stop := StopPressed();
      if stop {
        MotorsStop();
        return false;
      }
      var readOk: bool := *;
      if !readOk {
        ok := RecoverFromMiss(kind);
        if !ok { return; }
      }
      var saturated: bool := *;
      if saturated {
        MotorsStop();
        recorder.Print(powered);
        return false;
      }
      ok := true;
    }

    method SettleMotion(kind: GyroUse) returns (ok: bool)
      requires Still()
      modifies this`stopLatched, this`powered, this`left, this`right, this`active, this`elapsedMs, this`recoveries, this`now, recorder
      ensures Still() && recorder.history == old(recorder.history) && elapsedMs == old(elapsedMs) && now >= old(now)
    {
      var start := now;
      while now - start < MOTOR_SETTLE_MS
        invariant start <= now
        invariant Still() && recorder.history == old(recorder.history) && elapsedMs == old(elapsedMs)
        decreases MOTOR_SETTLE_MS - (now - start)
      {
        ok := ReadMotionGyro(kind);
        if !ok { return; }
        Sleep(5);
      }
      ok := ReadMotionGyro(kind);
    }

    /** `motion_drive_start`. */
    method DriveStart(forwards: bool, durationMs: nat) returns (ok: bool)
      requires Still()
      modifies this`stopLatched, this`powered, this`left, this`right, this`speed, this`active, this`pending, this`failed,
               this`recoveries, this`startedMs, this`elapsedMs, this`durationMs, recorder
      ensures Valid() && recorder.history == old(recorder.history)
      ensures ok ==> active && pending && !failed && this.durationMs == durationMs > 0
      ensures ok ==> speed == if forwards then DRIVE_DUTY else -DRIVE_DUTY
      ensures ok ==> !old(stopLatched)
      ensures !ok ==> Still()
    {
      hide Safe, Fold, Acceptable, Next;
      ok := MayDrive(durationMs);
      if !ok { return; }
      speed := if forwards then DRIVE_DUTY else -DRIVE_DUTY;
      recorder.Print(powered);
      this.durationMs, elapsedMs, failed, startedMs, pending, active := durationMs, 0, false, now, true, true;
      MotorsSet(speed, speed);
    }

    /** The reasons not to start a block. */
    method MayDrive(durationMs: nat) returns (ok: bool)
      requires Still()
      modifies this`stopLatched, this`powered, this`left, this`right, this`active, this`elapsedMs, this`recoveries, recorder
      ensures Still() && recorder.history == old(recorder.history)
      ensures ok ==> !old(stopLatched)
      ensures ok ==> !pending && signKnown && durationMs > 0
    {
      var stop := StopPressed();
      if pending || !stopArmed || stop || !signKnown || durationMs == 0 {
        StopDrive();
        return false;
      }
      var read := ReadMotionGyro(PreDrive);
      if !read { return false; }
      var offHeading: bool := *;
      if offHeading {
        recorder.Print(powered);
        return false;
      }
      ok := true;
    }

    /** `motion_drive_update`: ends the block on time, on any error and on a missed sample. */
    method DriveUpdate() returns (ok: bool)
      requires Valid() && (powered ==> active)
      modifies this`stopLatched, this`powered, this`left, this`right, this`active, this`elapsedMs, this`recoveries, this`failed, recorder
      ensures Valid() && recorder.history == old(recorder.history)
      ensures powered ==> active
      ensures ok && active ==> old(active) && now - startedMs < durationMs
      ensures !ok ==> !active && !powered && failed
      ensures old(stopLatched) ==> stopLatched
      ensures recorder.failed == old(recorder.failed)
    {
      if !active { return !failed; }
      var read := ReadMotionGyro(Drive);
      if !read {
        StopDrive();
        failed := true;
        return false;
      }
      var offHeading: bool := *;
      if offHeading {
        StopDrive();
        failed := true;
        recorder.Print(powered);
        return false;
      }
      if !active { return true; }
      if now - startedMs >= durationMs {
        StopDrive();
        return true;
      }
      var wanted: int := *;
      var adjustment := SteeringAdjustment(speed, wanted);
      MotorsSet(speed + adjustment, speed - adjustment);
      ok := true;
    }

    method DriveElapsed() returns (ms: nat)
      requires Valid()
      ensures ms == if active then now - startedMs else elapsedMs
    {
      ms := if active then now - startedMs else elapsedMs;
    }

    /** `motion_drive_finish`. */
    method DriveFinish() returns (ok: bool)
      requires Valid()
      modifies this`stopLatched, this`powered, this`left, this`right, this`active, this`elapsedMs, this`recoveries, this`now, this`pending, recorder
      ensures Still() && !pending && recorder.history == old(recorder.history) && now >= old(now)
      ensures !old(active) ==> elapsedMs == old(elapsedMs)
    {
      StopDrive();
      if !pending { return !failed; }
      pending := false;
      var stop := StopPressed();
      if failed || stop { return false; }
      var settled := SettleMotion(Drive);
      if !settled { return false; }
      var offHeading: bool := *;
      recorder.Print(powered);
      ok := !offHeading;
    }

    ghost method BeginTurn()
      requires Still() && !recorder.history.retried && !recorder.history.completed && !recorder.history.ended
      modifies recorder
      ensures Still() && recorder.history == Next(old(recorder.history), TurnBegan(false))
    {
      hide Safe, Fold, Next;
      recorder.Emit(TurnBegan(powered));
    }

    /** `turn_degrees`: a turn begins with the motors off, and every way out leaves them off. */
    method TurnDegrees() returns (ok: bool)
      requires Still() && !recorder.history.retried && !recorder.history.completed && !recorder.history.ended
      modifies this`stopLatched, this`powered, this`left, this`right, this`active, this`elapsedMs, this`recoveries, this`now, this`signKnown, recorder
      ensures Still()
      ensures recorder.history == old(recorder.history) || recorder.history == Next(old(recorder.history), TurnBegan(false))
      ensures now >= old(now)
      ensures elapsedMs == old(elapsedMs)
    {
      hide Safe, Fold, Next, Acceptable;
      ok := false;
      var stop := StopPressed();
      if stop {
        MotorsStop();
        return;
      }
      var nothingToDo: bool := *;
      if nothingToDo { return true; }
      var read := ReadMotionGyro(PreTurn);
      if !read { return; }
      BeginTurn();
      ghost var h := recorder.history;
      var start := now;
      for attempt := 0 to TURN_MAX_CORRECTIONS + 1
        invariant Still() && recorder.history == h && old(now) <= start <= now && elapsedMs == old(elapsedMs)
      {
        var within: bool := *;
        if signKnown && within { return true; }
        var segmentDone := TurnSegment(start, attempt);
        if !segmentDone { return; }
        MotorsStop();
        var settled := SettleMotion(Turn);
        if !settled { return; }
        var accurate: bool := *;
        recorder.Print(powered);
        if accurate { return true; }
      }
      MotorsStop();
      recorder.Print(powered);
    }

    /** The powered loop of one turn attempt. */
    method TurnSegment(start: nat, attempt: nat) returns (done: bool)
      requires Still() && start <= now
      modifies this`stopLatched, this`powered, this`left, this`right, this`active, this`elapsedMs, this`recoveries, this`now, this`signKnown, recorder
      ensures Valid() && !active && recorder.history == old(recorder.history) && now >= old(now)
      ensures elapsedMs == old(elapsedMs)
      ensures !done ==> !powered
    {
      var segmentStart := now;
      MotorsSet(-TURN_DUTY, TURN_DUTY);
      while true
        invariant Valid() && !active && recorder.history == old(recorder.history)
        invariant start <= segmentStart == old(now) <= now && elapsedMs == old(elapsedMs)
        decreases TURN_TIMEOUT_MS - (now - start)
      {
        if now - start >= TURN_TIMEOUT_MS {
          MotorsStop();
          recorder.Print(powered);
          return false;
        }
        var read := ReadMotionGyro(Turn);
        if !read { return false; }
        var learnt: bool := *;
        if !signKnown && learnt { signKnown := true; }
        var reached: bool := *;
        if signKnown && reached { return true; }
        var opposite: bool := *;
        if opposite {
          MotorsStop();
          recorder.Print(powered);
          return false;
        }
        var stalled: bool := *;
        if now - segmentStart >= TURN_START_TIMEOUT_MS && stalled {
          MotorsStop();
          recorder.Print(powered);
          return false;
        }
        if attempt > 0 && now - segmentStart >= TURN_CORRECTION_MAX_MS { return true; }
        MotorsSet(-TURN_DUTY, TURN_DUTY);
        Sleep(5);
      }
    }

    method TurnToHeading() returns (ok: bool)
      requires Still() && !recorder.history.retried && !recorder.history.completed && !recorder.history.ended
      modifies this`stopLatched, this`powered, this`left, this`right, this`active, this`elapsedMs, this`recoveries, this`now, this`signKnown, recorder
      ensures Still()
      ensures recorder.history == old(recorder.history) || recorder.history == Next(old(recorder.history), TurnBegan(false))
      ensures now >= old(now)
    {
      if !signKnown { return false; }
      ok := TurnDegrees();
    }

    /** `motion_learn_direction`. */
    method LearnDirection() returns (ok: bool)
      requires Still() && !recorder.history.retried && !recorder.history.completed && !recorder.history.ended
      modifies this`stopLatched, this`powered, this`left, this`right, this`active, this`elapsedMs, this`recoveries, this`now, this`signKnown, recorder
      ensures Still()
      ensures recorder.history == old(recorder.history) || recorder.history == Next(old(recorder.history), TurnBegan(false))
      ensures now >= old(now)
    {
      recorder.Print(powered);
      ok := TurnDegrees();
      if ok {
        ok := TurnToHeading();
      }
      MotorsStop();
      if ok {
        recorder.Print(powered);
      }
    }

    method Pause(ms: nat) returns (ok: bool)
      requires Still()
      modifies this`stopLatched, this`powered, this`left, this`right, this`now
      ensures Still() && now >= old(now)
    {
      var start := now;
      while now - start < ms
        invariant Still() && start == old(now) <= now
        decreases ms - (now - start)
      {
        var stop := StopPressed();
        if stop {
          MotorsStop();
          return false;
        }
        Sleep(5);
      }
      ok := true;
    }
  }
}
