# What the robot and the beacon can be relied on for

A Dafny model of the search robot of `getting_there/` and of the transfer beacon of
`ble_transfer_powerbank/`, with proofs of what they promise. `dafny verify dfyconfig.toml`
checks all of it.

The model follows the source's own form. What the source computes by expressions is a function;
what it does step by step, in place or in a loop is a method over fields, sequences and arrays.
Radio, clock, colours, motors, gyro, flash failures and STOP are arbitrary choices wherever the
source asks for them, so every statement holds for all of their behaviours.

**Navigation** (`Budget`, `Follow`, `LineSearch`, `Filters`, `Trace`, `Motion`, `WifiSampler`,
`ColourSensor`, `Navigator`). Every component reports what it does to one trace. An event can only
be recorded if it is acceptable after those before it: no line formatted, page written, attempt
started or turn begun with the motors on; nothing written and no attempt started with a scan open
or after the sampler has failed; no movement after RETRY or COMPLETE; no block without the log
saved and colour or the beacon asked since the one before, or without the run having been found free
of STOP, a failed report and the time limit since the last block, turn, scan or question; no return refused for want of budget;
nothing driven, turned, scanned, saved or attempted once a reason to end the run is on record.
`Navigator.Robot.ApproachBeacon` is proved to record only such events, to terminate, and to drive
at most 24 blocks on the mat. What a heading is judged by is a pure machine in `Follow`; the
imperative loop is proved to take exactly its decisions on exactly the samples the radio delivered,
and the machine's meaning is proved for all sequences of readings. How long the wheels were really
powered forwards and back is kept beside the position the code believes in, so that "back at the
best point" is a statement about the driving and not about that counter.

**The run log** (`NorFlash`, `LogPage`, `DamagedLength`, `ReportStore`, `RunReport`, `UsbQueue`,
`ReportOutput`). Flash programming may stop after any byte and report anything. At every moment the
flash is an image of the chunks written so far and a tail; replay is characterised on every such
image. Lines may arrive from callbacks between any two steps of a checkpoint and between any two
pages of it; formatting and flash writing touch disjoint state, so a callback in the middle of a
page is one before or after it.

**The transfer** (`Protocol`, `TransferClient`, `ClientTrust`, `AttemptRuns`, `NotificationOrder`,
`Transcript`, `ProximityHistory`, `ProximityRuns`, `SetupRuns`, `AttemptClock`, `StatusWord`,
`BeaconServer`, `Transfer`, `Schedule`, `WholeTransfer`, and the classes `PayloadClient` and `Beacon`). Each side is specified as a
function from state and event to state; the classes are proved to do exactly that with their
buffers and counters. The theorems about all event sequences and all schedules of the joined system
are about these functions. The link carries one write at a time (Bluetooth Core Specification, Vol
3 Part F, section 3.3.2).

Three promises do not hold as one might state them; the exact conditions are proved.

- A COMPLETE result can be stale: when a connection succeeds after the main loop has given up
  (`getting_there/payload_client.c:534-538`) the closing result of the attempt before is
  reported. At rest, the next fresh attempt is honest for all events if and only if the last
  closing result was not COMPLETE (`AttemptRuns.HonestIffNotComplete`). The navigation never
  starts an attempt after a COMPLETE (`Trace.NoDriveAfterResult`), so it never sees one.
- One damaged byte of a log page can go unnoticed. It does exactly if it is the low byte of the
  length, the new length is possible, and the CRC over the new extent is the stored one
  (`DamagedLength.OneDamagedByte`). Where at least four bytes of text are cut off, that is so for
  exactly one of all settings of the last four (`DamagedLength.CutUnnoticedOnce`).
- "Declined" and "return consistent" use different margins and some readings are both; for which
  spreads is stated in `LineSearch.DeclinedCanBeConsistent`.

Where the documentation and the code disagree the model follows the code:
`getting_there/README.md:379-380` gives the two dip probes 200 ms in total; the code drives 250 ms
each. `getting_there/README.md:70-71` says of colour steering that on ring 4 with the beacon out of
range the robot never drives on. What is proved of it is that after an arrival it never drives on
the mat, and ends the run for still being arrived only there (`Trace.EndIsFinal`); whether a line
block or a colour scan can come next after an arrival is decided by `Trace.ArrivalDecides`; and
where the line may go on, `Navigator.Robot.NextStop` has driven a block of it unless the run ends
for one of the recorded reasons.

## Model

| member | source | states |
|---|---|---|
| Budget.TranslationCost | getting_there/getting_there.c:133-136 | the closed form equals the sum, block by block, of each length and one 25 ms reserve |
| Budget.CostInClosedForm | getting_there/getting_there.c:133-136 | that equality, by induction over 750 ms blocks |
| Budget.CostMonotone | getting_there/getting_there.c:133-136 | a longer way never costs less |
| Budget.CostSplits | getting_there/getting_there.c:182-191 | the cost of the next reverse block and of the rest add up to what was reserved |
| Budget.CostAfterBlock | getting_there/getting_there.c:186-193 | after a reverse block that stopped early or ran over by at most 25 ms, what is left of the budget still pays for what is left of the way |
| Budget.WayBackKept | getting_there/getting_there.c:427-430 | a forward block or probe admitted with its reserve leaves the way back from wherever it really ended affordable |
| Navigator.Robot.ReserveTranslation | getting_there/getting_there.c:138-147 | an admitted requirement fits the 60 s budget and is cleared to continue; a refusal is only recorded where it would not have fitted, and never of a return |
| Navigator.Robot.MayContinue | getting_there/getting_there.c:27-38 | the permission goes on record as well as a refusal, either with what was found of STOP, the report and the time |
| Navigator.Robot.AskGuard | getting_there/getting_there.c:27-38 | true exactly if STOP is not latched, the report has not failed and less than 900 s have passed |
| Navigator.Robot.SaveCheckpoint | getting_there/getting_there.c:40-47 | flash is only written with the motors off, no scan open and no latched sampler failure; success means it was, failure is on record as the reason to end |
| Navigator.Robot.Attempt | getting_there/payload_client.c:689-696 | an attempt starts only at rest, before any COMPLETE, under the gate that colour or its absence calls for |
| Navigator.Robot.Gate | getting_there/getting_there.c:68-88 | an attempt exactly on an arrival just checked or without a working sensor: the loose gate for the one, the strict gate for the other |
| Navigator.Robot.BeforeAsking | getting_there/getting_there.c:65-67 | before each attempt the run was allowed to continue and the log was saved |
| Navigator.Robot.Round | getting_there/getting_there.c:65-99 | one round of the attempt loop: NOT_CLOSE ends it only if nothing was ever close |
| Navigator.Robot.AttemptSaved | getting_there/getting_there.c:89-93 | an outcome other than fatal is on record and leaves the robot quiet |
| Navigator.Robot.CheckPayload | getting_there/getting_there.c:61-109 | exactly three attempts before a close beacon counts as lost; never RETRY; NOT_CLOSE leaves the run ready to go on and the arrival flag equal to the last check; COMPLETE only after an attempt completed; FATAL only with its reason on record |
| Navigator.Robot.HearOnce | getting_there/getting_there.c:114-119 | one try for a sample: heard, or the beacon has been asked instead |
| Navigator.Robot.WaitForWifi | getting_there/getting_there.c:111-123 | NOT_CLOSE comes with the one present sample the radio delivered meanwhile |
| Navigator.Robot.MeasurePair | getting_there/getting_there.c:126-131 | NOT_CLOSE comes with the two present samples the radio delivered meanwhile, in order |
| Navigator.Robot.PollBlock | getting_there/getting_there.c:162-166 | a block is under way after a look only if before it there was no STOP, no failed report and time left in the block |
| Navigator.Robot.RunBlock | getting_there/getting_there.c:162-166 | the polling loop ends, no line formatted in it finds the motors on, and a sampler that fails in it stays failed |
| Navigator.Robot.DriveBlock | getting_there/getting_there.c:158-169 | the measured powered time is what is charged, and what the wheels were driven forwards or back |
| Navigator.Robot.ComeToRest | getting_there/getting_there.c:170-178 | after a block the robot is at rest with the radio quiet, a charge between 1 and the length plus 25 ms and the budget kept, or a reason to end is on record, and a charge out of bounds only where it is |
| Navigator.Robot.SettleBlock | getting_there/getting_there.c:170-179 | a run only continues after a charge between 1 and the length plus 25 ms, within the budget |
| Navigator.Robot.TranslateBlock | getting_there/getting_there.c:151-180 | a block that the run survives was paid for in advance together with its reserved return, charged 1..duration+25 ms, and driven the way it was asked |
| Navigator.Robot.ReturnAlongLine | getting_there/getting_there.c:182-197 | terminates, is never refused for budget, and drives back at least from - to and at most from - to + 25 ms |
| Navigator.Robot.RecordPoint | getting_there/getting_there.c:208-223 | one more profile point, never more than 32, and the profile is only full with that many |
| Navigator.Robot.ForwardBlockMs | getting_there/getting_there.c:251-261 | 250 ms on the mat, 500 ms elsewhere |
| Navigator.Robot.Probe | getting_there/getting_there.c:423-437 | a forward probe moves the robot by what its position says, keeps the way back affordable, and is judged by the pair then delivered |
| Navigator.Robot.Recheck | getting_there/getting_there.c:412-421 | the check in place is judged against the frozen reference |
| Navigator.Robot.ProbeDip | getting_there/getting_there.c:423-440 | two probes at most, each a step of the decision machine, the way back affordable throughout |
| Navigator.Robot.RecheckAndProbeDip | getting_there/getting_there.c:408-441 | the outcome is exactly that of the decision machine on the readings taken: recovered, or a confirmed decline |
| Navigator.Robot.NoteDecline | getting_there/getting_there.c:502-546 | counts weak positions and clears the count as the decision machine does |
| Navigator.Robot.TakeReading | getting_there/getting_there.c:547-575 | updates best point, three-position history and reference as the decision machine does |
| Navigator.Robot.ForwardBlock | getting_there/getting_there.c:474-490 | a block of 250 ms from the mat and 500 ms elsewhere, cut to what is left of a trial, overrunning by at most 25 ms; colour steering takes over where it ends exactly on the mat with scans left, so after an arrival exactly where the line may not go on |
| Navigator.Robot.Forward | getting_there/getting_there.c:474-495 | one forward block and the pair delivered after it: the run ends for a recorded reason, or a line block was driven; it spends budget and keeps the way back to the best point affordable |
| Navigator.Robot.DecideStop | getting_there/getting_there.c:496-575 | a stop ends in the state the decision machine reaches on the same readings |
| Navigator.Robot.NextStop | getting_there/getting_there.c:472-575 | one round of the loop drives and then decides; never past a finite trial without progress or an open decline; whatever the colour checks say, it has driven along the line unless the run ends for a recorded reason |
| Navigator.Robot.EndInterval | getting_there/getting_there.c:582-591 | a new profile starts at the position where 6000 ms have been travelled since the last, and not before |
| Navigator.Robot.ReturnAndCompare | getting_there/getting_there.c:521-533 | ends at the point returned to or at most 25 ms before it, and compares the pair delivered there with the one heard before |
| Navigator.Robot.ReturnToBest | getting_there/getting_there.c:521-533 | after a confirmed decline the robot is back at the best point or at most 25 ms before it, and what it hears there is all it has heard since |
| Navigator.Robot.BeginLine | getting_there/getting_there.c:446-459 | the baseline is the first pair delivered after the turn |
| Navigator.Robot.ChargeBlock | getting_there/getting_there.c:166-169 | stops the motors and records the block with the time they were on |
| Navigator.Robot.FollowDirection | getting_there/getting_there.c:446-594 | DECLINE exactly with readings that confirm it, and ends at the best point or at most 25 ms before it; NO_GAIN only of a finite trial driven in full, without progress or open decline, from where the start can still be paid for; the readings are all the present samples the radio delivered, in order; every heading followed spends budget |
| Navigator.Robot.Trial | getting_there/getting_there.c:609-626 | one direction: found with progress or on the mat, or back at the start after a confirmed decline or at least 2400 ms without progress |
| Navigator.Robot.CheckDirections | getting_there/getting_there.c:601-629 | at most three trials; what it finds has progress or sees the mat, so never ends without gain; without, all three were driven in full or to a confirmed decline and the robot is back at the start of the last or at most 25 ms behind it |
| Navigator.Robot.ColourScanTurn | getting_there/getting_there.c:287-314 | every turn begins and every save happens with the motors off; a lighter surface counts as seen exactly if one of the twelve readings was one |
| Navigator.Robot.ScanStep | getting_there/getting_there.c:291-312 | one stop of a colour scan turns, reads and saves with the motors off and asks nobody |
| Navigator.Robot.MatWaitOnArrival | getting_there/getting_there.c:335-348 | steering only resumes after a check that does not arrive; a run ended for still being arrived is at rest on the mat and has waited three times |
| Navigator.Robot.MatSteps | getting_there/getting_there.c:387-402 | at most four steps per scan, each after a latest check that was not arrived; the steps go on exactly as long as the depth does not fall |
| Navigator.Robot.CountScan | getting_there/getting_there.c:358-360 | a scan only begins with scans left, none begun since the robot last asked, and not where a line goes on after an arrival |
| Navigator.Robot.MatScan | getting_there/getting_there.c:358-386 | each scan that goes on to steer uses up one of six and has driven on the mat |
| Navigator.Robot.MatApproach | getting_there/getting_there.c:353-406 | terminates with the run ready to go on, or ends it |
| Navigator.Robot.NextHeading | getting_there/getting_there.c:655-684 | "ended without a confirmed decline" is unreachable, and each round spends budget |
| Navigator.Robot.ApproachBeacon | getting_there/getting_there.c:631-686 | terminates even if the run limit never strikes; true only after an attempt completed, false only with a reason on record; at most 24 mat blocks; the whole record of the run is safe |
| Trace.NoDriveAfterResult | getting_there/getting_there.c:94-108 | in a safe record nothing is driven after RETRY or COMPLETE, and no attempt follows a COMPLETE |
| Trace.LooseGateNeedsArrival | getting_there/getting_there.c:68-88 | an attempt under the loose gate follows directly on three dark readings, with a lighter surface seen strictly earlier, by a check or by a reading of a colour scan |
| Trace.ChargedIsPoweredTime | getting_there/getting_there.c:167-169 | the charge equals the powered time on record |
| Trace.SavedAndAskedBetween | getting_there/getting_there.c:151-180 | between two blocks of a safe record the log is saved, and colour or the beacon asked |
| Trace.BlocksAreCleared | getting_there/getting_there.c:138-147 | before every block of a safe record, and after any block, turn, scan or question before it, the run was found to have no STOP, no failed report and time left |
| Trace.NothingAfterFailure | getting_there/getting_there.c:40-47 | once the sampler has failed nothing is saved and no attempt is started, at any later point of a safe record |
| Trace.RetryLeadsBack | getting_there/getting_there.c:61-109 | every repeated attempt leads back to a first one that returned RETRY, with no block and no turn in between |
| Trace.ArrivalDecides | getting_there/getting_there.c:474-495 | after an arrival nothing is driven on the mat, and what comes next is decided: a line block only if the six scans are used up, a scan has begun since, or the robot last asked after a missing sample, at a suspected decline, after a probe or after a return; a scan only if none of these |
| Trace.EndIsFinal | getting_there/getting_there.c:631-686 | a run that has come to an end has a reason on record, after which nothing is driven, turned, scanned, saved or attempted; an arrival is a reason only at rest on the mat, the guard only with STOP, a failed report or the time limit, a refusal only if the powered time on record and the requirement exceed 60 s |
| Trace.Recorder.Emit | getting_there/getting_there.c:40-47 | an event is only recorded if it is acceptable after those before it |
| Follow.DeclineMeans | getting_there/getting_there.c:502-533 | a confirmed decline rests on three counted weak stops, each its step past the one before, only weak stops against one unchanged reference in between, then a failed recheck and two failed probes |
| Follow.SearchingCountsFew | getting_there/getting_there.c:515-538 | while the search goes on, fewer than three weak positions are counted |
| Follow.CountedPositions | getting_there/getting_there.c:509-512 | what the counter stands for |
| Follow.ProgressMeansGain | getting_there/getting_there.c:549-561 | progress holds exactly if the best point beats the baseline, by at least 3 dB in its weaker batch; without it the best point is the start |
| Follow.ReadingOnlyStrengthens | getting_there/getting_there.c:549-575 | the best point changes only for a strictly stronger weaker batch, the reference only for a stronger one and never while a dip stays active |
| Follow.BestSoFar | getting_there/getting_there.c:547-561 | for every proper sequence of readings: no reading taken up is better than the retained best; there is progress exactly if one of them beats the baseline; and then the best is one of those, at its own position, and no other of them is a confirmed gain over it |
| Follow.ReferenceKeepsUp | getting_there/getting_there.c:562-575 | for every proper sequence of readings: what is remembered are the last three positions taken up outside a dip, and their median is no confirmed gain over the reference |
| Follow.StopCounting | getting_there/getting_there.c:502-546 | a weak stop counts exactly a step or more past the last counted one; any other ends the count; the third counted calls for the recheck; a dip lasts until recovery or a new best point |
| Follow.PlaySound | getting_there/getting_there.c:458-575 | the invariants of the decision machine, for every sequence of readings |
| LineSearch.CompareAntisymmetric | getting_there/line_search.c:55-62 | no pair is better than one that is better than it |
| LineSearch.CompareTransitive | getting_there/line_search.c:55-62 | "better" is transitive in spite of margins that depend on the spreads |
| LineSearch.CompareStrengthens | getting_there/line_search.c:55-62 | better means at least 3 dB stronger in the weaker batch |
| LineSearch.GainStrengthens | getting_there/line_search.c:45-53 | a confirmed gain beats the stronger of the earlier batches |
| LineSearch.BetterMeans | getting_there/line_search.c:45-62 | better exactly if both batches beat both earlier ones by 3 dB and by more than every spread |
| LineSearch.DeclinedMeans | getting_there/line_search.c:81-87 | declined exactly if both batches fall behind both of the reference by more than 3 dB and by more than every spread and 1 dB |
| LineSearch.ConsistentMeans | getting_there/line_search.c:89-99 | consistent exactly if the batches agree and each is within its tolerance of some batch of the best point |
| LineSearch.DeclinedNotStronger | getting_there/line_search.c:81-87 | a declined pair is never better |
| LineSearch.DeclinedCanBeConsistent | getting_there/line_search.c:81-99 | for given spreads some pair is both declined and return-consistent exactly when both return margins exceed the decline margin and codes are left below the reference |
| LineSearch.DeclinedAndConsistentExample | getting_there/line_search.c:81-99 | a concrete pair that is both |
| LineSearch.MedianOf | getting_there/line_search.c:64-79 | the in-place sort finds the specified median |
| LineSearch.MedianIsMiddle | getting_there/line_search.c:64-79 | the median is one of the three, with one on either side |
| Filters.FilterWifi | getting_there/wifi_sampler.c:47-63 | the loops compute, in place, the sample that WifiMeans explains |
| Filters.WifiMeans | getting_there/wifi_sampler.c:47-63 | of the first five scans exactly the valid ones count; with fewer than three there is no sample; otherwise a quarter of them is put aside on either side, the spread is the range of the others and the code their mean, rounded by sum and count |
| Filters.WifiFilterRange | getting_there/wifi_sampler.c:47-63 | the result lies between kept readings and the spread is theirs |
| Filters.WifiFilterIgnoresOrder | getting_there/wifi_sampler.c:47-63 | it depends only on which readings were taken, not on their order |
| WifiSampler.Guard.CanContinue | getting_there/getting_there.c:27-38 | true exactly if STOP is not latched, the report has not failed and less than 900 s have passed; otherwise the motors are off |
| WifiSampler.Sampler.Begin | getting_there/wifi_sampler.c:112-144 | one scan at a time, never after a failure and only while the run may continue |
| WifiSampler.Sampler.Collect | getting_there/wifi_sampler.c:146-190 | collecting can stop the motors but never starts anything; a failure is recorded and stays |
| WifiSampler.Sampler.JudgeMoving | getting_there/wifi_sampler.c:164-188 | moving acquisition ends for good, and the block with it, exactly on a missing or late scan; the window counts to five, starts again after a pause, and a full weaker one ends the block |
| WifiSampler.Sampler.Fail | getting_there/wifi_sampler.c:128-131 | a failure of the sampler goes on record and is never taken back |
| WifiSampler.Sampler.Flush | getting_there/wifi_sampler.c:192-204 | records are only written out with no drive block and no scan |
| WifiSampler.Sampler.Quiesce | getting_there/wifi_sampler.c:206-221 | terminates; success leaves motors off, no scan and no failure; a failure latches |
| WifiSampler.Sampler.PollMoving | getting_there/wifi_sampler.c:223-236 | polling while driving never powers the motors, opens a scan only once that was earned by full windows, gives moving acquisition up after 750 ms, and keeps a failure |
| WifiSampler.Sampler.TakeSample | getting_there/wifi_sampler.c:238-266 | five scans with the motors off, the sample filtered from exactly what they heard; a window with a scan missing ends moving acquisition for good |
| WifiSampler.Sampler.TakeScans | getting_there/wifi_sampler.c:243-248 | the codes are what each scan heard, in order; each scan is over before the next begins, and the present ones are counted |
| WifiSampler.Sampler.Qualify | getting_there/wifi_sampler.c:252-258 | the count of windows grows exactly on a full one in time, up to three; any other drops it and, for good, moving acquisition |
| Motion.Chassis.MotorsSet | getting_there/motion.c:110-116 | the duties asked for, except none at all without an armed stop button or once STOP has latched |
| Motion.SteeringAdjustment | getting_there/motion.c:166-179 | the correction asked for where possible, limited so that both wheels keep turning the way of the block |
| Motion.Chassis.StopDrive | getting_there/motion.c:272-283 | a powered block is charged its time, at least 1 ms |
| Motion.Chassis.ReadMotionGyro | getting_there/motion.c:204-257 | whenever it fails the motors are off, and a missed sample ends a powered block |
| Motion.Chassis.RecoverFromMiss | getting_there/motion.c:204-257 | a third missed sample of one block is not recovered from |
| Motion.Chassis.DriveStart | getting_there/motion.c:285-318 | drives off in the direction asked, or refuses with the motors off while a block is pending or the direction sign unknown |
| Motion.Chassis.DriveUpdate | getting_there/motion.c:320-350 | motors on only inside a block, both wheels always in its direction; it ends on time or on any error |
| Motion.Chassis.DriveFinish | getting_there/motion.c:357-377 | leaves everything at rest and the charge unchanged |
| Motion.Chassis.TurnDegrees | getting_there/motion.c:379-490 | begins with the motors off and leaves them off on every way out |
| Motion.Chassis.TurnSegment | getting_there/motion.c:395-470 | the powered loop ends |
| ColourSensor.Sensor.ArrivalCheck | getting_there/colour_sensor.c:116-153 | arrival only with a working sensor, three dark readings and a lighter surface seen before this check; the third failed check in a row disables the sensor |
| ColourSensor.Sensor.Verdict | getting_there/colour_sensor.c:139-152 | arrival exactly on three dark readings and an earlier sighting; the depth is that of the last reading, the mat that of any, and the count of failures starts again |
| ColourSensor.Sensor.FailedCheck | getting_there/colour_sensor.c:129-138 | disables exactly on the third failure in a row |
| ColourSensor.Sensor.FreshZones | getting_there/colour_sensor.c:121-128 | all dark means every reading taken was dark |
| ColourSensor.Sensor.NoteZones | getting_there/colour_sensor.c:142-146 | what three readings add to the history |
| ColourSensor.SurfacesByDepth | getting_there/colour_sensor.c:111-127 | dark is ring 4 and deeper, lighter is from the white edge up to ring 3, and the mat is one or the other |
| Crc.CrcBytes | getting_there/report_store.c:23-32 | the byte loop computes the register of the specification |
| Crc.TransferCrc32 | ble_transfer/transfer_protocol.h:60-73 | the double loop computes the CRC-32 of section 8 of RFC 1952 |
| Crc.FeedConcat | getting_there/report_store.c:34-38 | the register over a concatenation is that over the parts in turn |
| Crc.BurstChangesCrc | ble_transfer/transfer_protocol.h:60-73 | any change confined to four consecutive bytes changes the CRC, whatever is before and after |
| Crc.CheckValue | ble_transfer/transfer_protocol.h:60-73 | the nine digits 1 to 9 have the check value CBF43926 of this CRC |
| Bytes.U32RoundTrip | ble_transfer/transfer_protocol.h:44-58 | a written 32-bit field is read back |
| Bytes.U16RoundTrip | ble_transfer/transfer_protocol.h:33-42 | a written 16-bit field is read back |
| PackedBits.BitarrayGet | getting_there/packed_bits.h:49-56 | the bit loop reads the field |
| PackedBits.BitarrayPut | getting_there/packed_bits.h:58-66 | the bit loop changes the bits of one field and no other |
| PackedBits.PutThenGet | getting_there/packed_bits.h:46-66 | a field reads back what was put in it, and every other field keeps its value |
| PackedBits.CodesKept | getting_there/packed_bits.h:68-78 | seven bits keep every RSSI code |
| StatusWord.PhaseKept | getting_there/packed_bits.h:18-30 | a five-bit phase is read back and leaves results and flags alone |
| StatusWord.ResultKept | getting_there/packed_bits.h:18-30 | so is the result |
| StatusWord.ClosingKept | getting_there/packed_bits.h:18-30 | and the closing result |
| StatusWord.StatusReadBack | getting_there/payload_client.c:35-60 | a status of any of the 23 phases, both results and all flags is read back whole from the word, whatever the two start-up flags are |
| StatusWord.PutsAreUpdates | getting_there/payload_client.c:64-82 | writing a phase, a result or a closing result is the update of that field of the status and of no other |
| StatusWord.FlagsAreUpdates | getting_there/payload_client.c:76-81 | setting or clearing any flag is the update of that flag of the status and of nothing else |
| NorFlash.ProgrammedOverBlank | getting_there/report_flash.c:61-73 | programming the first bytes over an erased page leaves exactly those bytes |
| NorFlash.Flash.Erase | getting_there/report_flash.c:36-59 | sector by sector, stopping at the first failure |
| NorFlash.Flash.Program | getting_there/report_flash.c:67-73 | some first bytes get programmed, whatever is reported; bits are only cleared |
| LogPage.PageCrc | getting_there/report_store.c:34-38 | carrying the register from header to text gives the CRC of the two in one piece |
| LogPage.MadePage | getting_there/report_store.c:40-49 | a page that was made is valid and is read back as it was made |
| LogPage.TornHeaderInvalid | getting_there/report_store.c:98-113 | a page of which at most seven bytes were programmed never looks like a record, whatever the CRC |
| LogPage.TornEmptyRecord | getting_there/report_store.c:98-115 | a start or end record passes exactly when nothing of it is missing |
| LogPage.TornTailRejected | getting_there/report_store.c:98-118 | a text page with at most its last four bytes missing passes exactly when nothing is missing |
| LogPage.DamagedTextRejected | getting_there/report_store.c:98-118 | damage to up to four neighbouring bytes of the text is always rejected |
| LogPage.DamagedHeadRejected | getting_there/report_store.c:98-118 | so is damage to up to four neighbouring bytes of magic number and index |
| LogPage.DamagedCrcRejected | getting_there/report_store.c:98-118 | so is any damage to the stored CRC |
| DamagedLength.OneDamagedByte | getting_there/report_store.c:98-118 | one damaged byte of header, CRC or text is noticed, unless it is the low byte of the length, the new length is possible, and the two covers have the same CRC: an if and only if over all pages |
| DamagedLength.CutUnnoticedOnce | getting_there/report_store.c:98-118 | a damaged length that cuts off four bytes of text or more goes unnoticed for exactly one setting of the last four, whatever the rest |
| DamagedLength.CutUnnoticedAtMostOnce | getting_there/report_store.c:98-118 | one that cuts off up to four goes unnoticed for at most one setting of those |
| DamagedLength.EndingWith | getting_there/report_store.c:23-38 | every CRC is reached by exactly one four-byte ending of a text |
| DamagedLength.DamagedLengthExample | getting_there/report_store.c:98-118 | a page that one damaged length byte cuts short unnoticed |
| ReportStore.ReplayOfImage | getting_there/report_store.c:98-122 | at every moment of a run replay finds every whole page in order, and the page being written exactly if it passes the check |
| ReportStore.ReplayReads | getting_there/report_store.c:98-122 | whatever is on the flash: a run is reported exactly if page 0 carries a start record; its text is that of the text records that follow one another with their own numbers, and it is complete exactly if the end record comes next; what a record is, is stated byte by byte |
| ReportStore.CompleteMeansEnd | getting_there/report_store.c:114-120 | COMPLETE exactly when every byte of the end mark is there, and then with all the text |
| ReportStore.WholePagesIff | getting_there/report_store.c:98-118 | what replay recovers is whole pages only, exactly unless an incomplete page passes the check |
| ReportStore.UnambiguousTail | getting_there/report_store.c:98-118 | which it cannot with at most seven bytes, all but four bytes of its text, or as an end mark |
| ReportStore.ReplayOfTornStart | getting_there/report_store.c:59-67 | a start record that is not whole is no run at all |
| ReportStore.ReplayOfErasedStart | getting_there/report_store.c:59-67 | erasing stopped after its first sector leaves no run, old or new |
| ReportStore.SeriesFits | getting_there/report_store.c:69-83 | a series of appends fits exactly when its pages are at most those before the last one |
| ReportStore.LargestText | getting_there/report_store.c:69-83 | in one piece, exactly up to 499224 bytes |
| ReportStore.PagesInClosedForm | getting_there/report_store.c:72-80 | pages taken: the length over 244, rounded up |
| ReportStore.Journal.WritePage | getting_there/report_store.c:40-57 | counted only if it reads back whole; on erased, working flash it always does |
| ReportStore.Journal.Begin | getting_there/report_store.c:59-67 | after a failure there is the old run, no run, or a new and empty one |
| ReportStore.Journal.AppendChunk | getting_there/report_store.c:72-80 | one more whole page, or at most one page begun and the journal closed |
| ReportStore.Journal.Append | getting_there/report_store.c:69-83 | the text follows in order and without a gap; on failure a first part of it does; with working flash it fails exactly for want of pages |
| ReportStore.Journal.Finish | getting_there/report_store.c:85-91 | at most the end mark is added; with working flash there is always a page for it |
| ReportStore.Journal.ReplayRun | getting_there/report_store.c:98-122 | the loop emits what the specification of replay says |
| RunReport.Report.Format | getting_there/run_report.c:42-58 | a line is taken in whole, or the report fails: exactly on a line of 512 bytes or a buffer of 32768 that it would overfill |
| RunReport.Report.Callbacks | getting_there/run_report.c:42-58 | any number of lines at any moment keep the accounts |
| RunReport.Report.TakeSnapshot | getting_there/run_report.c:126-130 | everything pending is taken, and nothing else |
| RunReport.Report.SavePage | getting_there/run_report.c:131 | one page of the snapshot: what the log takes of it follows what it had |
| RunReport.Report.SaveSnapshot | getting_there/run_report.c:131 | with callbacks between any two pages the log takes the snapshot in order; with working flash it fails only for want of pages |
| RunReport.Report.Checkpoint | getting_there/run_report.c:121-133 | with callbacks before, between and after, saved, taken and pending text still make up what was accepted; with working flash and room for it the checkpoint succeeds unless a callback has dropped a line |
| RunReport.Report.Begin | getting_there/run_report.c:110-119 | without a new run on the flash the old one is there or none is; with working flash it succeeds unless a callback has dropped a line |
| RunReport.Report.Finish | getting_there/run_report.c:135-146 | true only if replay will say COMPLETE and give back exactly the accepted text; with working flash and room it is true unless a line was dropped |
| RunReport.CompleteMeansEverything | getting_there/run_report.c:110-146 | COMPLETE on replay means every line accepted before closing, in order, and none dropped |
| RunReport.ReplayIsPrefix | getting_there/run_report.c:110-146 | otherwise replay gives a gap-free first part of the accepted text |
| UsbQueue.Queue.Put | getting_there/run_report.c:59-66 | a line is queued whole or not at all |
| UsbQueue.Queue.Flush | getting_there/run_report.c:86-106 | at most 512 bytes from the front; nothing lost or reordered while connected |
| UsbQueue.RingRest | getting_there/run_report.c:97-100 | taking from the front only moves the head |
| ReportOutput.Output.Format | getting_there/run_report.c:42-68 | each line goes to the saved report and, whole or not at all, to the display, in order; the display never decides what is saved |
| ReportOutput.Output.Flush | getting_there/run_report.c:86-107 | what goes out continues what went out before |
| TransferClient.BoundedDeliver | getting_there/payload_client.c:85-98 | for every event no counter outgrows its bit field, no offset its buffer |
| ClientTrust.TrustedDeliver | getting_there/payload_client.c:175-226 | every event keeps: COMPLETE is only about to be reported, or reported, with a checked reply and the final answer |
| ClientTrust.TrustedReplyEnd | getting_there/payload_client.c:357-366 | the last write starts only with a reply of the announced length and CRC |
| ClientTrust.TrustedAck | getting_there/payload_client.c:367-377 | only the final answer makes COMPLETE the closing result |
| AttemptRuns.CompleteIsEarned | getting_there/payload_client.c:520-638 | for every sequence of radio, beacon, timeout and STOP events: COMPLETE means final answer received and reply unchanged since its check |
| Transcript.CompleteTellsAll | getting_there/payload_client.c:285-381 | for every sequence of events: an attempt that reports COMPLETE has heard, since it began and in this order, HELLO_ACK, FILE_READY, FILE_RECEIVED with verdict 0 and the CRC of the file, a reply announced with its length and CRC, its pieces in sequence, its end with the same CRC, and the final answer; the reply kept is their payload |
| Transcript.ScriptIsFollowed | getting_there/payload_client.c:285-381 | at every moment of every run the notifications acted on are a first part of that script, as far as the phase says |
| Transcript.HeardWasNotified | getting_there/payload_client.c:285-381 | whatever has been acted on was notified since the attempt began |
| AttemptRuns.HonestIffNotComplete | getting_there/payload_client.c:534-538 | at rest, every outcome of the next fresh attempt is honest exactly when the last one did not end in COMPLETE |
| AttemptRuns.StaleRun | getting_there/payload_client.c:534-538 | the run that reports a COMPLETE of the past |
| NotificationOrder.OrderDoesNotMatter | getting_there/payload_client.c:285-297 | notified before or after the end of the write, successful or not, the same state results |
| NotificationOrder.SecondNotificationFails | getting_there/payload_client.c:285-297 | during a write one notification of at most 20 bytes is kept; a longer one, or a second, ends the attempt |
| ProximityHistory.HoldsMore | getting_there/payload_client.c:503-508 | one more accepted reading: ring and counters again hold the last twelve and the averages in a row that were close |
| ProximityHistory.AdvertDecides | getting_there/payload_client.c:498-518 | one advertisement while scanning: ignored, remembered, or the scan is stopped to connect, exactly when the last three averages were close |
| ProximityRuns.ConnectsOnlyWhenClose | getting_there/payload_client.c:498-518 | for every sequence of events and attempts after the start of a first one: while scanning, the ring holds exactly what was heard in this scan; a connection is only made if the last three averages of the latest scan were close |
| ProximityRuns.KeptDeliver | getting_there/payload_client.c:392-638 | no other event touches what the client has heard or moves it towards a connection |
| ProximityRuns.LinkedNeverNotClose | getting_there/payload_client.c:187-226 | from the decision to connect on, no event closes the attempt as NOT_CLOSE, except a connection that succeeds after it was given up |
| ProximityRuns.ScanNeverRetries | getting_there/payload_client.c:187-226 | a scan that is cut short never closes as RETRY |
| ProximityRuns.LateAbortChangesNothing | getting_there/payload_client.c:627-638 | an attempt being cleaned up, or over, is not closed again |
| ProximityRuns.RadioFailureIsFatal | getting_there/payload_client.c:187-218 | a scan that never began, or a link that cannot be closed, closes as FATAL |
| ProximityRuns.DeafAfterGivingUp | getting_there/payload_client.c:392-396 | nothing heard on the connection is acted on once the attempt was given up |
| SetupRuns.BeginsWhen | getting_there/payload_client.c:689-696 | an attempt begins exactly with none under way, the radio ready and no STOP, a repeated one only from rest after a RETRY with a beacon that was close |
| SetupRuns.ErrorsEnd | getting_there/payload_client.c:383-420 | a failed query and an ERROR of the beacon end the attempt, in any phase that listens |
| SetupRuns.NothingFoundEnds | getting_there/payload_client.c:422-432 | so does a search that found no service, or no characteristic |
| SetupRuns.RadioEnds | getting_there/payload_client.c:520-599 | so do the loss of the link, a connection that cannot be made and a failed scan command, the last as FATAL |
| SetupRuns.OthersMeanNothing | getting_there/payload_client.c:392-420 | what comes from another connection changes nothing |
| SetupRuns.SetupSubscribes | getting_there/payload_client.c:421-440 | from a stopped scan six events without a failure lead to the subscription, from where a whole transfer completes |
| ProximityHistory.RingFiltersAlike | getting_there/payload_client.c:481-496 | the filter gives the same in ring order as in order of arrival |
| Filters.FilterRssi | getting_there/payload_client.c:481-496 | decoding, insertion sort and sum compute the specified average |
| Filters.FilteredRounds | getting_there/payload_client.c:491-495 | the mean of the middle six, rounded to the nearest |
| Filters.FilteredMeans | getting_there/payload_client.c:481-496 | three of the twelve readings are put aside on either side, and the average is the mean of the other six to the nearest |
| Filters.FilteredRange | getting_there/payload_client.c:481-496 | it lies between the fourth reading from either end |
| Filters.FilteredIgnoresOrder | getting_there/payload_client.c:481-496 | it depends only on which readings there are |
| Filters.FilteredMonotone | getting_there/payload_client.c:481-496 | stronger readings never average weaker |
| Sorting.InsertShifting | getting_there/payload_client.c:486-490 | one round of the insertion sort |
| Sorting.SortInPlace | getting_there/payload_client.c:486-490 | the array is sorted into the specified order |
| PayloadClient.PayloadClient.FinishAttempt | getting_there/payload_client.c:175-185 | the closing result becomes the reported one, the attempt is over and the link forgotten |
| PayloadClient.PayloadClient.CloseAttempt | getting_there/payload_client.c:187-218 | scan stopped, link closed or nothing left to wait for, branch by branch in place; a scan that never began and a link that cannot be closed are fatal |
| PayloadClient.PayloadClient.TransferFailed | getting_there/payload_client.c:220-226 | nothing counts as verified, and the attempt closes as RETRY or NOT_CLOSE by whether the beacon was close |
| PayloadClient.PayloadClient.StartConnection | getting_there/payload_client.c:228-240 | the connection is asked for, or the attempt fails at once |
| PayloadClient.PayloadClient.WritePacket | getting_there/payload_client.c:250-260 | the packet is copied for sending and the phase awaits the end of the write, or the attempt fails |
| PayloadClient.PayloadClient.WriteNextRobotChunk | getting_there/payload_client.c:268-283 | the next 17 bytes or fewer go out under the next sequence number, or the end of the file |
| PayloadClient.PayloadClient.HelloAck | getting_there/payload_client.c:299-312 | the file is announced with its length and CRC, to the right beacon only |
| PayloadClient.PayloadClient.FileReady | getting_there/payload_client.c:313-319 | the first chunk goes out, to the right beacon only |
| PayloadClient.PayloadClient.FileReceived | getting_there/payload_client.c:320-326 | the reply is asked for only if the beacon confirms the CRC of the file |
| PayloadClient.PayloadClient.ReplyStart | getting_there/payload_client.c:327-342 | a length of 1 to 256 and the CRC are taken over, anything else fails |
| PayloadClient.PayloadClient.ReplyData | getting_there/payload_client.c:343-356 | a chunk in sequence and within the announced length lands in the buffer at its offset, anything else fails |
| PayloadClient.PayloadClient.ReplyEnd | getting_there/payload_client.c:357-366 | COMPLETE is written only over a whole reply whose bytes in the buffer have the announced CRC |
| PayloadClient.PayloadClient.CompleteAck | getting_there/payload_client.c:367-377 | the final answer verifies the transfer and closes it as COMPLETE |
| PayloadClient.PayloadClient.HandleNotification | getting_there/payload_client.c:285-381 | kept in the one slot during a write, otherwise acted on by its kind and phase |
| PayloadClient.PayloadClient.Proceed | getting_there/payload_client.c:421-455 | each completed query or write leads to the next phase |
| PayloadClient.PayloadClient.TakeUpPending | getting_there/payload_client.c:456-462 | a kept notification is taken up once its write is over, and the slot emptied first |
| PayloadClient.PayloadClient.QueryCompleted | getting_there/payload_client.c:383-463 | failure, next phase and kept notification, in this order |
| PayloadClient.PayloadClient.AdvertisementReceived | getting_there/payload_client.c:498-518 | an accepted reading goes into the packed ring and the average of the ring is judged |
| PayloadClient.PayloadClient.ConnectionComplete | getting_there/payload_client.c:520-546 | success, failure, and success after the attempt was given up |
| PayloadClient.PayloadClient.ScanCommandComplete | getting_there/payload_client.c:557-576 | scan begun, scan stopped to connect, scan stopped to close |
| PayloadClient.PayloadClient.DisconnectionComplete | getting_there/payload_client.c:589-599 | the closing result is reported, or an interruption is |
| PayloadClient.PayloadClient.StartAttemptCallback | getting_there/payload_client.c:604-625 | a first attempt clears ring, counters and flags and scans; a repeated one connects |
| PayloadClient.PayloadClient.AbortAttemptCallback | getting_there/payload_client.c:627-638 | what the timeout or STOP closes, by phase, once |
| PayloadClient.PayloadClient.StoreChunk | getting_there/payload_client.c:351 | the chunk lands at the offset and nothing else in the buffer changes |
| PayloadClient.PayloadClient.PutReading | getting_there/payload_client.c:503 | one code of the packed ring changes |
| PayloadClient.PayloadClient.constructor | getting_there/payload_client.c:85-112 | after power-on the client is at rest and nothing is about to be reported, so the theorems about runs and fresh attempts apply from there |
| PayloadClient.PayloadClient.Handle | getting_there/payload_client.c:392-638 | every event does what its specification says, keeps all counters in bounds and keeps COMPLETE trustworthy |
| AttemptClock.RunAttempt | getting_there/payload_client.c:707-737 | returns within 33000 ms and two polling intervals; before a cleanup deadline only after a look that found the attempt over; the abort is asked for at the first look with STOP, a phase past its limit or 30000 ms gone, and at no other; the result is FATAL on STOP or an overdue cleanup, and else the one in the status |
| AttemptClock.Limits | getting_there/payload_client.c:161-173 | 15 s to connect, discover and subscribe, 3 s to clean up, 5 s for anything else |
| AttemptClock.SinceIsElapsed | getting_there/payload_client.c:124 | the 32-bit difference is the time elapsed |
| BeaconServer.ReplyStaysFitting | ble_transfer_powerbank/beacon_server.c:102-105 | the kept reply fits its buffer whatever is written |
| BeaconServer.HelloForgets | ble_transfer_powerbank/beacon_server.c:205-217 | after an accepted HELLO two beacons with the same link and reply are in the same state, whatever transfers they were in |
| BeaconServer.HelloAnswered | ble_transfer_powerbank/beacon_server.c:205-217 | HELLO is acknowledged exactly for this protocol version and this beacon |
| BeaconServer.ReceivedInStep | ble_transfer_powerbank/beacon_server.c:241-264 | whatever chunks are written: what is received is the payload of some of them, in order, numbered without a gap or a repetition, and never more than announced |
| BeaconServer.VerdictTells | ble_transfer_powerbank/beacon_server.c:266-283 | the verdict tells whether the file was verified, and the CRC of what was received |
| BeaconServer.NotifiedOnlySubscribed | ble_transfer_powerbank/beacon_server.c:186-197 | after a disconnection nothing is queued until the next robot has itself subscribed |
| BeaconServer.ChunksReceived | ble_transfer_powerbank/beacon_server.c:241-264 | chunks of any sizes within the announced length are all received, in order and without gaps, however often the sequence number wraps |
| BeaconServer.VerifiedIff | ble_transfer_powerbank/beacon_server.c:219-283 | a file sent in any such chunks is verified exactly if it has the announced length and CRC |
| BeaconServer.ChunksFit | ble_transfer_powerbank/beacon_server.c:241-258 | the check of a chunk keeps every chunk within the receive buffer exactly if the announced length is within it or a full chunk still has room |
| BeaconServer.WritesStayInBuffer | ble_transfer_powerbank/beacon_server.c:176-317 | as long as no longer file is announced, no sequence of writes leads out of the receive buffer |
| Beacon.Store | ble_transfer_powerbank/beacon_server.c:115 | bytes are copied to their place in a buffer and nothing else in it changes |
| Beacon.Beacon.QueueNotification | ble_transfer_powerbank/beacon_server.c:107-118 | at most the 20 bytes that the one slot holds are copied into it, and nothing without a subscriber |
| Beacon.Beacon.SendReplyPiece | ble_transfer_powerbank/beacon_server.c:136-174 | the packet for the next piece is taken from the reply buffer at the offset and put in the slot |
| Beacon.Beacon.FileData | ble_transfer_powerbank/beacon_server.c:241-264 | an accepted chunk lands right behind the bytes received before, and the rest of the 256-byte buffer is untouched; it has no place exactly if the bytes received would no longer fit |
| Beacon.Beacon.FileEnd | ble_transfer_powerbank/beacon_server.c:266-283 | the verdict is about the part of the buffer that was received |
| Beacon.Beacon.FormatReply | ble_transfer_powerbank/beacon_server.c:286-288 | the reply and its terminator fit the 64-byte buffer, and only the reply counts |
| Beacon.Beacon.AttWrite | ble_transfer_powerbank/beacon_server.c:176-317 | every write that stays within the buffers has the effect that the theorems about sequences of writes and whole transfers assume, and those that do not are told apart exactly |
| Beacon.Beacon.CanSendNow | ble_transfer_powerbank/beacon_server.c:370-379 | what was queued goes out, once |
| Transfer.ServerTakes | ble_transfer_powerbank/beacon_server.c:176-317 | each write of a transfer moves the beacon to the next exchange and makes it answer as it should |
| Transfer.WriteFitsBuffer | ble_transfer_powerbank/beacon_server.c:241-258 | no write of a transfer leads out of the receive buffer, whatever was in it |
| Transfer.ClientAnswered | getting_there/payload_client.c:285-381 | each answer leads the robot to its next write, with the right packet |
| Transfer.ClientChunked | getting_there/payload_client.c:268-283 | each completed chunk leads to the next, or to the end of the file |
| Schedule.EnabledActions | ble_transfer_powerbank/beacon_server.c:107-118 | which link events are possible at each point; none overwrites a kept notification, and unless the transfer is over one is possible |
| Schedule.OneStep | getting_there/payload_client.c:392-463 | every possible link event brings the transfer exactly one step nearer its end |
| WholeTransfer.EverySchedule | getting_there/payload_client.c:268-463 | so does every sequence of them |
| WholeTransfer.TransferLength | getting_there/payload_client.c:268-283 | n pieces of the file and m of the reply take n + m + 6 writes and 2n + 4(m + 6) steps |
| WholeTransfer.EveryTransferCompletes | getting_there/payload_client.c:268-463 | every schedule that cannot be continued has exactly that many steps and writes, overwrites nothing, and has delivered both files and the final answer |
| WholeTransfer.BeaconNeverOverflows | ble_transfer_powerbank/beacon_server.c:225-263 | the beacon never receives more than the file, nor more than its buffer holds |
| WholeTransfer.ReadyAfterDisconnection | ble_transfer_powerbank/beacon_server.c:355-368 | whatever a beacon has been through, one disconnection, connection and subscription later it is ready for a whole transfer |
| WholeTransfer.DeliveredReports | getting_there/payload_client.c:589-599 | the disconnection that follows reports COMPLETE |

## Left out

- Gyro integration, heading control and steering: a turn or a block may fail at any reading; only what that does to the motors and to the charge is modelled.
- The colour thresholds and the direction estimate of a colour scan: readings and estimate are arbitrary.
- WifiSampler.Sampler.JudgeMoving: leaves open when a scan or window taken while driving is late or weaker; only what follows from it is stated. Such a window can stop a block early and decides nothing else.
- WifiSampler.Sampler.Qualify: likewise leaves open whether a window was taken in time.
- Headings, timestamps and wording of the report lines: a line is a sequence of bytes, a heading is not kept.
- `main`, buttons, start-up, the calibration tool, cues, faults and the beacon's load loop: they only call what is modelled.
- GATT discovery contents and advertisement parsing: whether a report is the target's, and whether a notification is for the payload characteristic, are inputs.
- Interrupt masking around the status word and the critical section of the report: each callback is one step of the model, so the model does not show interleavings inside them.
- `PayloadClient` keeps the status word as a record and the small counters as another; that the word stands for that record, and writing one of its fields for the update of one, is proved apart, in `StatusWord`.
- Beacon.Beacon.AttWrite: does not model what happens to the memory behind the receive buffer when a chunk is accepted that has no place in it, which is possible because the beacon stores an announced length before checking it; such a write is told apart (`beyond`), `BeaconServer.ChunksFit` says exactly when none can come, and whole transfers have none (`Transfer.WriteFitsBuffer`).
- Beacon.Beacon.FileData: likewise.
- DamagedLength.OneDamagedByte: gives the condition for a raised length as the equality of the two CRCs; how many texts meet it is only counted for shortened lengths (`CutUnnoticedOnce`, `CutUnnoticedAtMostOnce`).
- Navigator.Robot.Attempt: takes the outcome of an attempt as arbitrary; what an outcome COMPLETE stands for is proved of the client by itself (`AttemptRuns.CompleteIsEarned`).
- Navigator.Robot.ApproachBeacon: states what every run keeps, not that a given run occurs, because the choices of the environment are arbitrary.
- Powered time is counted in unbounded milliseconds; a run ends at 60000, far below the source's 32 bits.
- A page that loses power is modelled as its first bytes programmed and the rest erased, and a sector as erased or not: half-programmed bytes and half-erased sectors are not modelled.
- WholeTransfer.EveryTransferCompletes: states the reply for up to 63 bytes, because that is what the beacon's 64-byte buffer holds; the robot's own limit of 256 is proved in TransferClient.BoundedDeliver.
- AttemptClock.RunAttempt: models the sleep and the work between two looks at the clock by upper bounds of the caller's choice, because their real length is not decided by the code.
