/** The proximity check over whole runs: whatever happens, and over however many attempts, the
    robot connects only to a beacon it has heard close three times in a row. */
module ProximityRuns {
  import opened Bytes
  import opened Crc
  import opened PackedBits
  import opened Filters
  import opened Protocol
  import opened Trace
  import opened TransferClient
  import opened AttemptRuns
  import P = ProximityHistory

  /** Does this event add a reading to the scan? */
  predicate Accepts(c: Client, e: RadioEvent) {
    e.Advert? && e.target && c.st.phase.Scanning? && !c.st.abort && P.Acceptable(e.rssi)
  }

  /** Does this event start a scan? */
  predicate StartsScan(c: Client, e: RadioEvent) {
    e.Start? && c.due.start && !c.st.abort && !c.st.reconnect
  }

  function Reading(e: RadioEvent): int {
    if e.Advert? then e.rssi else 0
  }

  /** The accepted readings of the beacon in the latest scan. */
  function Readings(c: Client, hs: seq<Happening>): seq<int>
    requires Bounded(c)
  {
    if hs == [] then []
    else
      var n := |hs| - 1;
      var before, e := Run(c, hs[..n]), hs[n].event;
      if StartsScan(before, e) then []
      else if Accepts(before, e) then Readings(c, hs[..n]) + [Reading(e)]
      else Readings(c, hs[..n])
  }

  /** From the decision to connect until the attempt closes. */
  predicate Linked(p: Phase) {
    !p.Idle? && !p.Starting? && !p.Scanning? && !p.StoppingScan? && !p.Closing?
  }

  /** What the client believes of the beacon is what it has heard. */
  ghost predicate Heard(c: Client, rs: seq<int>) {
    && Bounded(c)
    && (c.st.phase.Scanning? ==> P.Holds(c.near, rs) && !c.st.closeConfirmed)
    && (Linked(c.st.phase) ==> c.st.closeConfirmed)
    && (c.due.start && c.st.reconnect ==> c.st.closeConfirmed)
    && (c.st.closeConfirmed ==> P.ThreeClose(c.near.threshold, rs))
  }

  /** d may follow c without any new reading. */
  predicate Kept(c: Client, d: Client) {
    && d.near == c.near && d.st.closeConfirmed == c.st.closeConfirmed && d.st.reconnect == c.st.reconnect
    && (d.due.start ==> c.due.start)
    && (Linked(d.st.phase) ==> Linked(c.st.phase)) && (d.st.phase.Scanning? ==> c.st.phase.Scanning?)
  }

  lemma KeptHeard(c: Client, d: Client, rs: seq<int>)
    requires Heard(c, rs) && Kept(c, d) && Bounded(d)
    ensures Heard(d, rs)
  {
    hide Bounded, P.Holds, P.ThreeClose;
  }

  lemma KeptFailed(c: Client, env: Env)
    ensures Kept(c, Failed(c, env))
  {}

  lemma KeptClose(c: Client, result: Result, env: Env)
    ensures Kept(c, Close(c, result, env))
  {}

  lemma KeptWrite(c: Client, d: Client, packet: seq<Byte>, phase: Phase, env: Env)
    requires Linked(c.st.phase) && !phase.Scanning? && Kept(c, d)
    ensures Kept(c, Write(d, packet, phase, env))
  {
    var w := SetPhase(d, phase).(tx := packet, shown := d.shown.(written := d.shown.written + 1));
    hide Failed;
    KeptFailed(w, env);
  }

  lemma KeptChunk(c: Client, d: Client, env: Env)
    requires Linked(c.st.phase) && Kept(c, d) && FilesBounded(d.files)
    ensures Kept(c, WriteNextChunk(d, env))
  {
    hide Write, FilesBounded;
    var phase := if d.files.robotOffset == |d.files.robot| then WriteFileEnd else WriteFileData;
    KeptWrite(c, d.(files := AfterPacket(d.files)), NextPacket(d.files), phase, env);
  }

  lemma KeptThen(b: Client, c: Client, d: Client)
    ensures Kept(b, c) && Kept(c, d) ==> Kept(b, d)
  {}

  lemma KeptHelloAck(c: Client, value: seq<Byte>, env: Env)
    requires Bounded(c) && Linked(c.st.phase)
    ensures Kept(c, OnHelloAck(c, value, env))
  {
    hide Write, Failed;
    KeptFailed(c, env);
    var f := c.files;
    KeptWrite(c, c.(files := f.(robotOffset := 0, robotSequence := 0, robotCrc := Crc32(f.robot))),
              StartPacket(f.robot), WriteFileStart, env);
  }

  lemma KeptReplyData(c: Client, value: seq<Byte>, env: Env)
    requires Bounded(c) && Linked(c.st.phase)
    ensures Kept(c, OnReplyData(c, value, env)) && Kept(c, OnReplyEnd(c, value, env))
  {
    hide Write, Failed, GoodChunk, GoodEnd, AfterChunk;
    KeptFailed(c, env);
    if GoodChunk(c.files, value) {
      KeptWrite(c, c.(files := AfterChunk(c.files, value)), [REPLY_NEXT], WriteReplyNext, env);
    }
    KeptWrite(c, c.(shown := c.shown.(checked := ReplyText(c.files))), [COMPLETE], WriteComplete, env);
  }

  lemma KeptAck(c: Client, value: seq<Byte>, env: Env)
    ensures Kept(c, OnCompleteAck(c, value, env))
  {
    hide Failed, Close;
    KeptFailed(c, env);
    KeptClose(c.(st := c.st.(verified := true), shown := c.shown.(acked := true)), Complete, env);
  }

  lemma KeptFileAnswers(c: Client, value: seq<Byte>, env: Env)
    requires Bounded(c) && Linked(c.st.phase)
    ensures Kept(c, OnFileReady(c, value, env)) && Kept(c, OnFileReceived(c, value, env))
  {
    hide Write, Failed, WriteNextChunk, ReadU32;
    KeptFailed(c, env);
    KeptChunk(c, c, env);
    KeptWrite(c, c, [REPLY_REQUEST], WriteReplyRequest, env);
  }

  lemma KeptAnswer(c: Client, value: seq<Byte>, env: Env)
    requires Bounded(c) && value != []
    ensures Kept(c, Answer(c, value, env))
  {
    if Linked(c.st.phase) {
      KeptHelloAck(c, value, env);
      KeptFileAnswers(c, value, env);
      KeptReplyStart(c, value, env);
      KeptReplyData(c, value, env);
      KeptAck(c, value, env);
      hide OnHelloAck, OnFileReady, OnFileReceived, OnReplyStart, OnReplyData, OnReplyEnd, OnCompleteAck;
    }
  }

  lemma KeptReplyStart(c: Client, value: seq<Byte>, env: Env)
    requires Linked(c.st.phase)
    ensures Kept(c, OnReplyStart(c, value, env))
  {
    hide Write, Failed;
    KeptFailed(c, env);
    if |value| == 7 && 1 <= ReadU16(value[1..3]) <= MAX_FILE {
      var f := c.files.(replyLength := ReadU16(value[1..3]), replyCrc := ReadU32(value[3..]), replyOffset := 0, replySequence := 0);
      KeptWrite(c, c.(files := f), [REPLY_NEXT], WriteReplyNext, env);
    }
  }

  lemma KeptNotification(c: Client, value: seq<Byte>, env: Env)
    requires Bounded(c)
    ensures Kept(c, Notification(c, value, env))
  {
    hide Failed, Answer, FilesBounded, NearBounded;
    KeptFailed(c, env);
    if value != [] { KeptAnswer(c, value, env); }
  }

  lemma KeptCompleted(c: Client, env: Env)
    requires Bounded(c) && Expecting(c.st.phase)
    ensures Kept(c, Completed(c, env))
  {
    hide Write, WriteNextChunk, Failed, NearBounded, FilesBounded;
    KeptFailed(c, env);
    KeptFailed(c.(st := c.st.(characteristicFound := false, phase := DiscoverCharacteristic)), env);
    KeptFailed(c.(st := c.st.(listening := true, phase := EnableNotifications)), env);
    KeptWrite(c, c, [HELLO, PROTOCOL_VERSION, BEACON_ID], WriteHello, env);
    KeptChunk(c, c, env);
  }

  lemma KeptQuery(c: Client, ok: bool, env: Env)
    requires Bounded(c)
    ensures Kept(c, QueryComplete(c, ok, env))
  {
    hide Failed, Completed, Notification, FilesBounded, NearBounded;
    KeptFailed(c, env);
    if Expecting(c.st.phase) {
      KeptCompleted(c, env);
      BoundedCompleted(c, env);
      var d := Completed(c, env);
      KeptNotification(d.(pending := []), d.pending, env);
    }
  }

  /** Changes of phase and connection alone. */
  lemma KeptMove(c: Client, st: Status, connection: Handle)
    requires st.closeConfirmed == c.st.closeConfirmed && st.reconnect == c.st.reconnect
    requires (Linked(st.phase) ==> Linked(c.st.phase)) && (st.phase.Scanning? ==> c.st.phase.Scanning?)
    ensures Kept(c, c.(st := st, connection := connection))
  {}

  lemma KeptEnds(c: Client)
    ensures Kept(c, Finish(c)) && Kept(c, FinishWith(c, Fatal, c.st.verified))
  {}

  lemma KeptRefusal(c: Client, env: Env)
    ensures Kept(c, Failed(SetPhase(c, Idle).(connection := INVALID), env))
  {
    hide Failed;
    KeptMove(c, c.st.(phase := Idle), INVALID);
    KeptFailed(SetPhase(c, Idle).(connection := INVALID), env);
  }

  lemma KeptLink(c: Client, handle: Handle, env: Env)
    requires c.st.phase.Connecting?
    ensures Kept(c, Query(c.(st := c.st.(serviceFound := false, phase := DiscoverService), connection := handle), env))
  {
    hide Failed;
    var asking := c.(st := c.st.(serviceFound := false, phase := DiscoverService), connection := handle);
    KeptMove(c, asking.st, handle);
    KeptFailed(asking, env);
  }

  lemma KeptConnected(c: Client, ok: bool, handle: Handle, env: Env)
    ensures Kept(c, Connected(c, ok, handle, env))
  {
    hide Failed, Query, Kept, Finish;
    KeptEnds(c);
    KeptItself(c);
    KeptRefusal(c, env);
    KeptMove(c, c.st.(phase := Closing), handle);
    if c.st.phase.Connecting? { KeptLink(c, handle, env); }
  }

  lemma KeptScan(c: Client, ok: bool, env: Env)
    ensures Kept(c, ScanCommand(c, ok, env))
  {
    hide Failed, Kept, Finish, FinishWith;
    KeptEnds(c);
    KeptItself(c);
    KeptMove(c, c.st.(phase := Idle), c.connection);
    KeptMove(c, c.st.(scanConfirmed := true), c.connection);
    if c.st.phase.StoppingForConnect? { KeptMove(c, c.st.(phase := Connecting), c.connection); }
    var idle := SetPhase(c, Idle);
    KeptFailed(idle, env);
    KeptThen(c, idle, Failed(idle, env));
  }

  lemma KeptItself(c: Client)
    ensures Kept(c, c)
  {}

  lemma KeptAbort(c: Client, stop: bool, env: Env)
    ensures Kept(c, AbortAttempt(c, stop, env))
  {
    KeptClose(c, if stop then Fatal else Interrupted(c), env);
    hide Close;
  }

  lemma KeptDisconnected(c: Client, handle: Handle)
    ensures Kept(c, Disconnected(c, handle))
  {}

  /** No other event than these three touches what the client has heard. */
  lemma KeptDeliver(c: Client, e: RadioEvent, env: Env)
    requires Bounded(c) && !e.Begin? && !e.Start? && !e.Advert?
    ensures Kept(c, Deliver(c, e, env))
  {
    hide QueryComplete, Notification, Connected, ScanCommand, AbortAttempt, Disconnected, FilesBounded, NearBounded;
    match e
    case Abort(stop) => KeptAbort(c.(due := c.due.(abort := false)), stop, env);
    case ScanDone(ok) => KeptScan(c, ok, env);
    case ConnectionDone(ok, handle) => KeptConnected(c, ok, handle, env);
    case Disconnection(handle) => KeptDisconnected(c, handle);
    case QueryDone(_, ok) => KeptQuery(c, ok, env);
    case Notify(_, _, value) => KeptNotification(c, value, env);
    case _ =>
  }

  lemma HeardStart(c: Client, rs: seq<int>, env: Env)
    requires Heard(c, rs) && c.due.start
    ensures Heard(Deliver(c, Start, env), if StartsScan(c, Start) then [] else rs)
  {
    hide P.ThreeClose, FilesBounded, Failed;
    BoundedDeliver(c, Start, env);
    P.FreshScanHolds(c.near.threshold);
    var near := Proximity(c.near.threshold, seq(SAMPLES, _ => 0), 0, 0, 0);
    var d := c.(due := c.due.(start := false),
                st := c.st.(closeConfirmed := c.st.reconnect && c.st.closeConfirmed, scanConfirmed := false, verified := false),
                near := near, files := c.files.(replyLength := 0, replyOffset := 0), pending := [], shown := Proof(c.shown.written, [], false));
    KeptFailed(SetPhase(d, Idle), env);
  }

  lemma HeardAdvert(c: Client, rs: seq<int>, e: RadioEvent, env: Env)
    requires Heard(c, rs) && e.Advert?
    ensures Heard(Deliver(c, e, env), if Accepts(c, e) then rs + [e.rssi] else rs)
  {
    BoundedDeliver(c, e, env);
    if Accepts(c, e) { P.AdvertDecides(c, rs, e.target, e.rssi); }
    hide P.ThreeClose, P.Holds, FilesBounded, NearBounded, AfterReading;
  }

  lemma HeardBegin(c: Client, rs: seq<int>, e: RadioEvent, env: Env)
    requires Heard(c, rs) && e.Begin?
    ensures Heard(Deliver(c, e, env), rs)
  {
    hide P.ThreeClose, P.Holds, FilesBounded, NearBounded;
  }

  /** Whatever the radio, the beacon, the timeouts, STOP and the main loop do after the start of
      a first attempt, in any order and through any number of further attempts: while the robot
      scans, ring and counters hold exactly what it has heard in this scan; and it connects, in
      this attempt or in one retried, only if the averages after the last three readings of its
      latest scan were all close. */
  lemma {:induction false} ConnectsOnlyWhenClose(c: Client, hs: seq<Happening>)
    requires Resting(c)
    ensures var b := BeginAttempt(c, false);
      var d, rs := Run(b, hs), Readings(b, hs);
      && Heard(d, rs)
      && (d.st.phase.Scanning? ==> P.Holds(d.near, rs) && !P.ThreeClose(d.near.threshold, rs))
      && (Linked(d.st.phase) ==> P.ThreeClose(d.near.threshold, rs))
  {
    hide P.ThreeClose, P.Holds, Deliver, Bounded;
    var b := BeginAttempt(c, false);
    assert Bounded(b) by { BeginBounded(c); }
    if hs != [] {
      var n := |hs| - 1;
      ConnectsOnlyWhenClose(c, hs[..n]);
      HeardMore(Run(b, hs[..n]), Readings(b, hs[..n]), hs[n].event, hs[n].env);
    }
    var d, rs := Run(b, hs), Readings(b, hs);
    if d.st.phase.Scanning? { NotYetClose(d, rs); }
  }

  lemma HeardMore(c: Client, rs: seq<int>, e: RadioEvent, env: Env)
    requires Heard(c, rs)
    ensures Heard(Deliver(c, e, env),
                  if StartsScan(c, e) then [] else if Accepts(c, e) then rs + [Reading(e)] else rs)
  {
    hide Bounded, P.ThreeClose, P.Holds, StartAttempt, BeginAttempt, QueryComplete, Notification, Connected, ScanCommand, Close, Advertisement;
    match e
    case Begin(_, _) => HeardBegin(c, rs, e, env);
    case Start => if c.due.start { HeardStart(c, rs, env); }
    case Advert(_, _) => HeardAdvert(c, rs, e, env);
    case _ =>
      KeptDeliver(c, e, env);
      BoundedDeliver(c, e, env);
      KeptHeard(c, Deliver(c, e, env), rs);
  }

  lemma NotYetClose(d: Client, rs: seq<int>)
    requires Bounded(d) && d.st.phase.Scanning? && P.Holds(d.near, rs)
    ensures !P.ThreeClose(d.near.threshold, rs)
  {
    P.RunOfThree(d.near.threshold, rs);
  }

  // What an attempt that fails reports.

  /** With a beacon that was heard close, the attempt goes on, or what it closes with says so. */
  predicate Tells(c: Client, d: Client) {
    c.st.closeConfirmed ==> d.st.closeConfirmed && (Linked(d.st.phase) || d.st.closing != NotClose)
  }

  lemma TellsFailed(c: Client, env: Env)
    ensures Tells(c, Failed(c, env))
    ensures !c.st.closeConfirmed ==> Failed(c, env).st.closing in {NotClose, Fatal}
  {}

  lemma TellsWrite(c: Client, packet: seq<Byte>, phase: Phase, env: Env)
    requires Linked(phase)
    ensures Tells(c, Write(c, packet, phase, env))
  {
    hide Failed;
    TellsFailed(SetPhase(c, phase).(tx := packet, shown := c.shown.(written := c.shown.written + 1)), env);
  }

  lemma TellsChunk(c: Client, env: Env)
    requires FilesBounded(c.files)
    ensures Tells(c, WriteNextChunk(c, env))
  {
    hide Write, FilesBounded;
    var phase := if c.files.robotOffset == |c.files.robot| then WriteFileEnd else WriteFileData;
    TellsWrite(c.(files := AfterPacket(c.files)), NextPacket(c.files), phase, env);
  }

  lemma TellsFileAnswers(c: Client, value: seq<Byte>, env: Env)
    requires Bounded(c) && value != [] && Linked(c.st.phase)
    ensures Tells(c, OnHelloAck(c, value, env)) && Tells(c, OnFileReady(c, value, env)) && Tells(c, OnFileReceived(c, value, env))
  {
    hide Failed, Write, WriteNextChunk, ReadU32;
    TellsFailed(c, env);
    TellsChunk(c, env);
    TellsWrite(c, [REPLY_REQUEST], WriteReplyRequest, env);
    var f := c.files;
    TellsWrite(c.(files := f.(robotOffset := 0, robotSequence := 0, robotCrc := Crc32(f.robot))), StartPacket(f.robot), WriteFileStart, env);
  }

  lemma TellsReplyStart(c: Client, value: seq<Byte>, env: Env)
    requires Linked(c.st.phase)
    ensures Tells(c, OnReplyStart(c, value, env))
  {
    hide Failed, Write;
    TellsFailed(c, env);
    if |value| == 7 && 1 <= ReadU16(value[1..3]) <= MAX_FILE {
      var f := c.files.(replyLength := ReadU16(value[1..3]), replyCrc := ReadU32(value[3..]), replyOffset := 0, replySequence := 0);
      TellsWrite(c.(files := f), [REPLY_NEXT], WriteReplyNext, env);
    }
  }

  lemma TellsReplyData(c: Client, value: seq<Byte>, env: Env)
    requires Bounded(c) && Linked(c.st.phase)
    ensures Tells(c, OnReplyData(c, value, env)) && Tells(c, OnReplyEnd(c, value, env))
  {
    hide Failed, Write, GoodChunk, GoodEnd, AfterChunk;
    TellsFailed(c, env);
    TellsWrite(c.(shown := c.shown.(checked := ReplyText(c.files))), [COMPLETE], WriteComplete, env);
    if GoodChunk(c.files, value) { TellsWrite(c.(files := AfterChunk(c.files, value)), [REPLY_NEXT], WriteReplyNext, env); }
  }

  lemma TellsAck(c: Client, value: seq<Byte>, env: Env)
    requires Linked(c.st.phase)
    ensures Tells(c, OnCompleteAck(c, value, env))
  {
    TellsFailed(c, env);
    hide Failed;
  }

  lemma TellsAnswer(c: Client, value: seq<Byte>, env: Env)
    requires Bounded(c) && value != [] && Linked(c.st.phase)
    ensures Tells(c, Answer(c, value, env))
  {
    hide OnHelloAck, OnFileReady, OnFileReceived, OnReplyStart, OnReplyData, OnReplyEnd, OnCompleteAck, FilesBounded, NearBounded;
    TellsFileAnswers(c, value, env);
    TellsReplyStart(c, value, env);
    TellsReplyData(c, value, env);
    TellsAck(c, value, env);
  }

  lemma TellsNotification(c: Client, value: seq<Byte>, env: Env)
    requires Bounded(c) && Linked(c.st.phase)
    ensures Tells(c, Notification(c, value, env))
  {
    hide Failed, Answer, FilesBounded, NearBounded;
    TellsFailed(c, env);
    if value != [] { TellsAnswer(c, value, env); }
  }

  lemma FailedQuery(c: Client, env: Env)
    requires Linked(c.st.phase) && !c.st.phase.StoppingForConnect?
    ensures Failed(c, env).st.phase.Closing? || Failed(c, env).st.phase.Idle?
  {}

  lemma TellsSetup(c: Client, env: Env)
    requires c.st.phase.DiscoverService? || c.st.phase.DiscoverCharacteristic?
    ensures var m := if c.st.phase.DiscoverService? then ServicesKnown(c, env) else CharacteristicsKnown(c, env);
      Tells(c, m) && (Linked(m.st.phase) || m.st.phase.Closing? || m.st.phase.Idle?)
  {
    hide Failed;
    var a := c.(st := c.st.(characteristicFound := false, phase := DiscoverCharacteristic));
    var b := c.(st := c.st.(listening := true, phase := EnableNotifications));
    TellsFailed(c, env);
    TellsFailed(a, env);
    TellsFailed(b, env);
    FailedQuery(c, env);
    FailedQuery(a, env);
    FailedQuery(b, env);
  }

  lemma WriteLeads(c: Client, packet: seq<Byte>, phase: Phase, env: Env)
    requires Linked(phase) && !phase.StoppingForConnect?
    ensures var m := Write(c, packet, phase, env);
      m.st.phase == phase || m.st.phase.Closing? || m.st.phase.Idle?
  {
    hide Failed;
    FailedQuery(SetPhase(c, phase).(tx := packet, shown := c.shown.(written := c.shown.written + 1)), env);
  }

  lemma TellsCompleted(c: Client, env: Env)
    requires Bounded(c) && Expecting(c.st.phase)
    ensures var m := Completed(c, env);
      Tells(c, m) && (Linked(m.st.phase) || m.st.phase.Closing? || m.st.phase.Idle?)
  {
    hide Write, WriteNextChunk, ServicesKnown, CharacteristicsKnown, FilesBounded, NearBounded;
    if c.st.phase.DiscoverService? || c.st.phase.DiscoverCharacteristic? {
      TellsSetup(c, env);
    } else if c.st.phase.EnableNotifications? {
      TellsWrite(c, [HELLO, PROTOCOL_VERSION, BEACON_ID], WriteHello, env);
      WriteLeads(c, [HELLO, PROTOCOL_VERSION, BEACON_ID], WriteHello, env);
    } else if c.st.phase.WriteFileData? {
      TellsChunk(c, env);
      ChunkLeads(c, env);
    }
  }

  lemma ChunkLeads(c: Client, env: Env)
    requires FilesBounded(c.files)
    ensures var m := WriteNextChunk(c, env);
      Linked(m.st.phase) || m.st.phase.Closing? || m.st.phase.Idle?
  {
    hide Write, FilesBounded;
    var phase := if c.files.robotOffset == |c.files.robot| then WriteFileEnd else WriteFileData;
    WriteLeads(c.(files := AfterPacket(c.files)), NextPacket(c.files), phase, env);
  }

  lemma TellsQuery(c: Client, ok: bool, env: Env)
    requires Bounded(c) && Linked(c.st.phase)
    ensures Tells(c, QueryComplete(c, ok, env))
  {
    hide Failed, Completed, Notification, FilesBounded, NearBounded;
    TellsFailed(c, env);
    if ok && Expecting(c.st.phase) {
      TellsCompleted(c, env);
      BoundedCompleted(c, env);
      var m := Completed(c, env);
      if Linked(m.st.phase) {
        TellsNotification(m.(pending := []), m.pending, env);
      } else {
        OverTakesNone(m, env);
      }
    }
  }

  lemma OverTakesNone(m: Client, env: Env)
    requires Bounded(m)
    ensures m.st.phase.Closing? || m.st.phase.Idle? ==> TakePending(m, env).st == m.st
  {
    hide FilesBounded, NearBounded;
  }

  /** A connection, once decided on, never closes as NOT_CLOSE, whatever happens to it, except one
      that succeeds only after it was given up. */
  lemma LinkedNeverNotClose(c: Client, e: RadioEvent, env: Env)
    requires Bounded(c) && Linked(c.st.phase) && c.st.closeConfirmed && !e.Begin? && !e.Start?
    requires !(e.ConnectionDone? && e.ok && c.st.abort)
    ensures var d := Deliver(c, e, env);
      Linked(d.st.phase) || d.st.closing != NotClose
  {
    hide QueryComplete, Notification, AbortAttempt, ScanCommand, Connected, Disconnected, Advertisement, FilesBounded, NearBounded;
    match e
    case QueryDone(_, ok) => TellsQuery(c, ok, env);
    case Notify(_, _, value) => TellsNotification(c, value, env);
    case Abort(stop) => TellsAbort(c, stop, env);
    case ScanDone(ok) => TellsScan(c, ok, env);
    case Advert(target, rssi) => TellsAdvert(c, target, rssi);
    case ConnectionDone(ok, handle) => TellsConnected(c, ok, handle, env);
    case Disconnection(handle) => TellsDisconnected(c, handle);
    case _ =>
  }

  lemma TellsAdvert(c: Client, target: bool, rssi: int)
    requires Bounded(c) && Linked(c.st.phase)
    ensures Advertisement(c, target, rssi) == c
  {}

  lemma TellsDisconnected(c: Client, handle: Handle)
    requires c.st.closeConfirmed && Linked(c.st.phase)
    ensures Disconnected(c, handle) == c || Disconnected(c, handle).st.closing == Retry
  {}

  lemma TellsAbort(c: Client, stop: bool, env: Env)
    requires c.st.closeConfirmed && Linked(c.st.phase)
    ensures var d := AbortAttempt(c.(due := c.due.(abort := false)), stop, env);
      Linked(d.st.phase) || d.st.closing != NotClose
  {}

  lemma TellsScan(c: Client, ok: bool, env: Env)
    requires c.st.closeConfirmed && Linked(c.st.phase)
    ensures var d := ScanCommand(c, ok, env);
      Linked(d.st.phase) || d.st.closing != NotClose
  {
    hide Failed;
    TellsFailed(SetPhase(c, Idle), env);
  }

  lemma TellsConnected(c: Client, ok: bool, handle: Handle, env: Env)
    requires c.st.closeConfirmed && Linked(c.st.phase) && !(ok && c.st.abort)
    ensures var d := Connected(c, ok, handle, env);
      Linked(d.st.phase) || d.st.closing != NotClose
  {
    hide Failed;
    TellsFailed(SetPhase(c, Idle).(connection := INVALID), env);
    TellsFailed(c.(st := c.st.(serviceFound := false, phase := DiscoverService), connection := handle), env);
  }

  /** And a scan that is cut short never closes as RETRY. */
  lemma ScanNeverRetries(c: Client, e: RadioEvent, env: Env)
    requires Bounded(c) && c.st.phase.Scanning? && !c.st.closeConfirmed && !e.Begin? && !e.Start?
    ensures var d := Deliver(c, e, env);
      d.st.closing == c.st.closing || d.st.closing != Retry
  {
    hide QueryComplete, Notification, AbortAttempt, Failed, ScanCommand, Connected, Disconnected, Advertisement, FilesBounded, NearBounded;
    TellsFailed(c, env);
    match e
    case QueryDone(_, ok) => ScanningHearsNothing(c, ok, [], env);
    case Notify(_, _, value) => ScanningHearsNothing(c, true, value, env);
    case Abort(stop) => ScanAborted(c, stop, env);
    case ScanDone(ok) => ScanCommanded(c, ok, env);
    case Advert(target, rssi) => ScanAdvert(c, target, rssi);
    case ConnectionDone(ok, handle) => ScanConnected(c, ok, handle, env);
    case Disconnection(handle) => ScanDisconnected(c, handle);
    case _ =>
  }

  lemma ScanningHearsNothing(c: Client, ok: bool, value: seq<Byte>, env: Env)
    requires Bounded(c) && c.st.phase.Scanning?
    ensures QueryComplete(c, ok, env) in {c, Failed(c, env)} && Notification(c, value, env) in {c, Failed(c, env)}
  {
    hide Failed, FilesBounded, NearBounded;
  }

  lemma ScanAborted(c: Client, stop: bool, env: Env)
    requires !c.st.closeConfirmed
    ensures var d := AbortAttempt(c.(due := c.due.(abort := false)), stop, env);
      d.st.closing == c.st.closing || d.st.closing != Retry
  {}

  lemma ScanCommanded(c: Client, ok: bool, env: Env)
    requires c.st.phase.Scanning?
    ensures ScanCommand(c, ok, env).st.closing in {c.st.closing, Fatal}
  {}

  lemma ScanAdvert(c: Client, target: bool, rssi: int)
    requires Bounded(c)
    ensures Advertisement(c, target, rssi).st.closing == c.st.closing
  {
    hide AfterReading, FilesBounded;
  }

  lemma ScanConnected(c: Client, ok: bool, handle: Handle, env: Env)
    requires c.st.phase.Scanning?
    ensures Connected(c, ok, handle, env) == c
  {}

  lemma ScanDisconnected(c: Client, handle: Handle)
    requires c.st.phase.Scanning? && !c.st.closeConfirmed
    ensures Disconnected(c, handle).st.closing in {c.st.closing, NotClose}
  {}

  /** An attempt that is being cleaned up, or is over, is not closed again by a late abort. */
  lemma LateAbortChangesNothing(c: Client, stop: bool, env: Env)
    requires Bounded(c) && (c.st.phase.Closing? || c.st.phase.StoppingScan? || !c.st.running)
    ensures Deliver(c, Abort(stop), env) == c.(due := c.due.(abort := false))
  {}

  /** A scan that never began, and a connection that cannot be closed, close the attempt as FATAL. */
  lemma RadioFailureIsFatal(c: Client, result: Result, env: Env)
    requires if ScanOn(c.st.phase) then !c.st.scanConfirmed else c.connection != INVALID && !env.disconnect
    ensures Close(c, result, env).st.closing == Fatal
  {}

  /** Nothing from the connection is acted on after the attempt was given up. */
  lemma DeafAfterGivingUp(c: Client, e: RadioEvent, env: Env)
    requires Bounded(c) && c.st.abort
    requires e.QueryDone? || e.Notify? || e.ServiceFound? || e.CharacteristicFound?
    ensures Deliver(c, e, env) == c
  {}
}
