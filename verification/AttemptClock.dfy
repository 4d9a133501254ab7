/** How long an attempt can keep the robot waiting, on a clock that wraps after 2^32 ms and
    whatever the callbacks do or fail to do. */
module AttemptClock {
  import opened Trace
  import opened TransferClient

  const SCAN_WINDOW_MS: nat := 5000
  const PHASE_TIMEOUT_MS: nat := 5000
  const SETUP_TIMEOUT_MS: nat := 15000
  const CLEANUP_TIMEOUT_MS: nat := 3000
  const ATTEMPT_TIMEOUT_MS: nat := 30000
  const POLL_MS: nat := 10
  const WRAP: nat := 0x1_0000_0000

  /** `now_ms`: the time since boot in 32 bits. */
  function Clock(time: nat): nat {
    time % WRAP
  }

  /** The 32-bit difference of two readings. */
  function Since(now: nat, earlier: nat): nat {
    (now - earlier) % WRAP
  }

  lemma SinceIsElapsed(now: nat, earlier: nat)
    requires earlier <= now < earlier + WRAP
    ensures Since(Clock(now), Clock(earlier)) == now - earlier
  {
    var a, b := now / 0x1_0000_0000, earlier / 0x1_0000_0000;
    assert now == 0x1_0000_0000 * a + Clock(now) && earlier == 0x1_0000_0000 * b + Clock(earlier);
    assert a == b || a == b + 1;
  }

  /** `phase_timeout`. */
  function PhaseTimeout(p: Phase): nat {
    match p
    case Scanning => SCAN_WINDOW_MS
    case Connecting => SETUP_TIMEOUT_MS
    case DiscoverService => SETUP_TIMEOUT_MS
    case DiscoverCharacteristic => SETUP_TIMEOUT_MS
    case EnableNotifications => SETUP_TIMEOUT_MS
    case StoppingScan => CLEANUP_TIMEOUT_MS
    case Closing => CLEANUP_TIMEOUT_MS
    case _ => PHASE_TIMEOUT_MS
  }

  predicate CleaningUp(p: Phase) {
    p.Closing? || p.StoppingScan?
  }

  /** What one look at the attempt finds: when, whether it is still running, its phase and since
      when by the 32-bit clock, and whether STOP has been requested. */
  datatype Look = Look(time: nat, running: bool, phase: Phase, phaseStarted: nat, stop: bool)

  /** How long the phase has lasted by the clock. */
  function InPhase(l: Look): nat {
    Since(Clock(l.time), l.phaseStarted)
  }

  /** Cleaning up has taken too long. */
  predicate CleanupOver(l: Look) {
    CleaningUp(l.phase) && InPhase(l) >= CLEANUP_TIMEOUT_MS
  }

  /** A reason to give up: STOP, a phase past its limit, or the whole attempt. */
  predicate WantsAbort(began: nat, l: Look) {
    l.stop || InPhase(l) >= PhaseTimeout(l.phase) || l.time - began >= ATTEMPT_TIMEOUT_MS
  }

  /** All looks but the last found the attempt running and no cleanup overdue. Of them the abort
      was asked for at the first that gave a reason, `asked`, or at none if none did. */
  ghost predicate Polled(began: nat, looks: seq<Look>, asked: int) {
    && -1 <= asked < |looks|
    && (forall k :: 0 <= k < |looks| ==> looks[k].running && !CleanupOver(looks[k]))
    && (forall k :: 0 <= k < |looks| && (asked < 0 || k < asked) ==> !WantsAbort(began, looks[k]))
    && (asked >= 0 ==> WantsAbort(began, looks[asked]))
    && (asked >= 0 ==> forall k :: asked <= k < |looks| ==> looks[k].time - looks[asked].time < CLEANUP_TIMEOUT_MS)
  }

  /** The limits: 15 s to connect, discover and subscribe, 3 s to clean up, 5 s for anything else. */
  lemma Limits(p: Phase)
    ensures PhaseTimeout(p) ==
      if p in {Connecting, DiscoverService, DiscoverCharacteristic, EnableNotifications} then 15000
      else if CleaningUp(p) then 3000 else 5000
  {}

  /** The polling loop of `run_attempt`. A round takes at most `work` between its readings of the
      clock and sleeps at most `nap`, so `work + nap` is the polling interval. What the
      callbacks have done to the phase, its start and the running flag is arbitrary at every
      look; the abort flag is set here only.

      It ends in time; with the result found in the status once the attempt no longer runs, or
      FATAL if STOP has been requested by then; and before that only, as FATAL, when cleaning up
      is overdue, in its phase or since the abort was asked for. */
  method RunAttempt(began: nat, work: nat, nap: nat)
      returns (ended: nat, result: Result, ghost looks: seq<Look>, ghost asked: int, ghost last: Look, ghost status: Result)
    requires POLL_MS <= nap && ATTEMPT_TIMEOUT_MS + work + nap < WRAP
    ensures began <= ended <= began + 33000 + 2 * (work + nap)
    ensures ended == last.time
    ensures Polled(began, looks, asked)
    ensures !last.running ==> result == if last.stop then Fatal else status
    ensures last.running ==> result == Fatal
    ensures last.running ==> CleanupOver(last) || (asked >= 0 && last.time - looks[asked].time >= CLEANUP_TIMEOUT_MS)
  {
    var time := began;
    var abort := false;
    var abortStarted := 0;
    looks, asked, status := [], -1, NotClose;
    ghost var checked := began;     // the last look at the deadline then in force
    var running: bool := *;
    while running
      invariant Polled(began, looks, asked) && (abort <==> asked >= 0)
      invariant began <= checked <= time <= checked + nap
      invariant !abort ==> checked < began + ATTEMPT_TIMEOUT_MS
      invariant abort ==> began <= looks[asked].time <= checked < looks[asked].time + CLEANUP_TIMEOUT_MS
      invariant abort ==> abortStarted == Clock(looks[asked].time) && looks[asked].time < began + ATTEMPT_TIMEOUT_MS + work + nap
      decreases began + ATTEMPT_TIMEOUT_MS + CLEANUP_TIMEOUT_MS + 2 * (work + nap) + nap - time
    {
      var phase: Phase := *;
      var phaseStarted: nat :| phaseStarted < WRAP;
      var stop: bool := *;
      var spent: nat :| spent <= work;
      time := time + spent;
      last := Look(time, true, phase, phaseStarted, stop);
      var elapsed := Since(Clock(time), phaseStarted);
      if CleaningUp(phase) && elapsed >= CLEANUP_TIMEOUT_MS {
        return time, Fatal, looks, asked, last, status;
      }
      if !abort { SinceIsElapsed(time, began); }
      if !abort && (stop || elapsed >= PhaseTimeout(phase) || Since(Clock(time), Clock(began)) >= ATTEMPT_TIMEOUT_MS) {
        abort := true;
        abortStarted := Clock(time);
        asked := |looks|;
      }
      ghost var since := if asked == |looks| then time else if abort then looks[asked].time else time;
      if abort {
        SinceIsElapsed(time, since);
        if Since(Clock(time), abortStarted) >= CLEANUP_TIMEOUT_MS {
          return time, Fatal, looks, asked, last, status;
        }
      }
      looks := looks + [last];
      checked := time;
      var slept: nat :| POLL_MS <= slept <= nap;
      time := time + slept;
      running := *;
    }
    var stop: bool := *;
    var found: Result := *;
    status := found;
    last := Look(time, running, Idle, 0, stop);
    result := if stop then Fatal else found;
    ended := time;
  }
}
