/** What a COMPLETE result of the robot's side is worth. */
module ClientTrust {
  import opened Bytes
  import opened Crc
  import opened Filters
  import opened Protocol
  import opened Trace
  import opened TransferClient

  /** The reply on hand is the one that passed its check: its announced length and CRC. */
  predicate Checked(f: Files, shown: Proof) {
    && FilesBounded(f) && 1 <= f.replyLength && ReplyText(f) == shown.checked && Crc32(shown.checked) == f.replyCrc
  }

  predicate Earned(c: Client) {
    Checked(c.files, c.shown) && c.shown.acked
  }

  predicate Reported(st: Status) {
    st.result == Complete && !st.running
  }

  /** COMPLETE is only ever about to be reported, or reported, with a checked reply and the
      final answer, and nothing touches either afterwards. */
  predicate Trusted(c: Client) {
    && Bounded(c)
    && (c.st.phase.WriteReplyNext? || c.st.phase.WaitReplyPiece? ==> 1 <= c.files.replyLength)
    && (c.st.phase.WriteComplete? || c.st.phase.WaitCompleteAck? ==> Checked(c.files, c.shown))
    && (c.st.closing == Complete ==> Over(c.st.phase) && Earned(c) && !c.due.start)
    && (Reported(c.st) ==> c.st.closing == Complete && c.st.phase.Idle?)
    && (c.due.start ==> c.st.phase.Starting? || Over(c.st.phase))
  }

  lemma TrustedFailed(c: Client, env: Env)
    requires Bounded(c) && !Reported(c.st) && (c.due.start ==> !ScanOn(c.st.phase))
    ensures Trusted(Failed(c, env)) && Failed(c, env).due == c.due
  {
    BoundedFailed(c, env);
  }

  lemma TrustedFinish(c: Client, closing: Result, verified: bool)
    requires Bounded(c) && (closing == Complete ==> Earned(c) && !c.due.start)
    ensures Trusted(FinishWith(c, closing, verified))
  {
    hide Checked, FilesBounded, NearBounded;
  }

  /** A phase that promises nothing yet. */
  lemma TrustedPhase(c: Client, st: Status, connection: Handle)
    requires Bounded(c) && !Reported(c.st) && !c.due.start && c.st.closing != Complete
    requires st.phase.Connecting? || st.phase.DiscoverService?
    requires st.closing == c.st.closing && st.running == c.st.running && st.result == c.st.result
    ensures Trusted(c.(st := st, connection := connection))
  {
    hide Checked, FilesBounded, NearBounded;
  }

  /** A write in a phase that promises nothing yet. */
  lemma TrustedWrite(c: Client, packet: seq<Byte>, phase: Phase, env: Env)
    requires Bounded(c) && !Reported(c.st) && !c.due.start && c.st.closing != Complete
    requires Writing(phase) && !phase.WriteComplete? && (phase.WriteReplyNext? ==> 1 <= c.files.replyLength)
    ensures Trusted(Write(c, packet, phase, env)) && Write(c, packet, phase, env).due == c.due
  {
    hide Failed, FilesBounded, NearBounded;
    var d := SetPhase(c, phase).(tx := packet, shown := c.shown.(written := c.shown.written + 1));
    TrustedFailed(d, env);
  }

  lemma TrustedLast(c: Client, env: Env)
    requires Bounded(c) && !Reported(c.st) && !c.due.start && c.st.closing != Complete && Checked(c.files, c.shown)
    ensures Trusted(Write(c, [COMPLETE], WriteComplete, env))
  {
    hide Failed, FilesBounded, NearBounded;
    var d := SetPhase(c, WriteComplete).(tx := [COMPLETE], shown := c.shown.(written := c.shown.written + 1));
    TrustedFailed(d, env);
  }

  lemma TrustedChunk(c: Client, env: Env)
    requires Bounded(c) && !Reported(c.st) && !c.due.start && c.st.closing != Complete
    ensures Trusted(WriteNextChunk(c, env)) && WriteNextChunk(c, env).due == c.due
  {
    hide Write;
    var phase := if c.files.robotOffset == |c.files.robot| then WriteFileEnd else WriteFileData;
    TrustedWrite(c.(files := AfterPacket(c.files)), NextPacket(c.files), phase, env);
  }

  lemma TrustedAck(c: Client, value: seq<Byte>, env: Env)
    requires Trusted(c) && !Over(c.st.phase) && !c.due.start
    ensures Trusted(OnCompleteAck(c, value, env))
  {
    TrustedFailed(c, env);
  }

  lemma TrustedHelloAck(c: Client, value: seq<Byte>, env: Env)
    requires Trusted(c) && !Over(c.st.phase) && !c.due.start
    ensures Trusted(OnHelloAck(c, value, env))
  {
    hide Write, Failed;
    TrustedFailed(c, env);
    TrustedWrite(c.(files := c.files.(robotOffset := 0, robotSequence := 0, robotCrc := Crc32(c.files.robot))),
                 StartPacket(c.files.robot), WriteFileStart, env);
  }

  lemma TrustedReplyStart(c: Client, value: seq<Byte>, env: Env)
    requires Trusted(c) && !Over(c.st.phase) && !c.due.start
    ensures Trusted(OnReplyStart(c, value, env))
  {
    hide Write, Failed;
    TrustedFailed(c, env);
    if |value| == 7 && 1 <= ReadU16(value[1..3]) <= MAX_FILE {
      var f := c.files.(replyLength := ReadU16(value[1..3]), replyCrc := ReadU32(value[3..]), replyOffset := 0, replySequence := 0);
      TrustedWrite(c.(files := f), [REPLY_NEXT], WriteReplyNext, env);
    }
  }

  lemma TrustedReplyData(c: Client, value: seq<Byte>, env: Env)
    requires Trusted(c) && !Over(c.st.phase) && !c.due.start
    ensures Trusted(OnReplyData(c, value, env))
  {
    hide Write, Failed, GoodChunk;
    TrustedFailed(c, env);
    if c.st.phase.WaitReplyPiece? && GoodChunk(c.files, value) {
      assert AfterChunk(c.files, value).replyLength == c.files.replyLength;
      TrustedWrite(c.(files := AfterChunk(c.files, value)), [REPLY_NEXT], WriteReplyNext, env);
    }
  }

  lemma TrustedReplyEnd(c: Client, value: seq<Byte>, env: Env)
    requires Trusted(c) && !Over(c.st.phase) && !c.due.start
    ensures Trusted(OnReplyEnd(c, value, env))
  {
    hide Write, Failed;
    TrustedFailed(c, env);
    if c.st.phase.WaitReplyPiece? && GoodEnd(c.files, value) {
      TrustedLast(c.(shown := c.shown.(checked := ReplyText(c.files))), env);
    }
  }

  lemma AnswerTooEarly(c: Client, value: seq<Byte>, env: Env)
    requires Bounded(c) && c.st.phase.Starting? && value != []
    ensures Answer(c, value, env) == c
  {}

  lemma TrustedAnswer(c: Client, value: seq<Byte>, env: Env)
    requires Trusted(c) && !Over(c.st.phase) && value != []
    ensures Trusted(Answer(c, value, env))
  {
    if c.due.start {
      AnswerTooEarly(c, value, env);
      return;
    }
    hide OnHelloAck, OnFileReady, OnFileReceived, OnReplyStart, OnReplyData, OnReplyEnd, OnCompleteAck, Trusted;
    TrustedHelloAck(c, value, env);
    TrustedFileAnswers(c, value, env);
    TrustedReplyStart(c, value, env);
    TrustedReplyData(c, value, env);
    TrustedReplyEnd(c, value, env);
    TrustedAck(c, value, env);
  }

  lemma TrustedFileAnswers(c: Client, value: seq<Byte>, env: Env)
    requires Trusted(c) && !Over(c.st.phase) && !c.due.start
    ensures Trusted(OnFileReady(c, value, env)) && Trusted(OnFileReceived(c, value, env))
  {
    hide Write, Failed, WriteNextChunk, Checked, FilesBounded, NearBounded;
    TrustedFailed(c, env);
    if c.st.phase.WaitFileReady? { TrustedChunk(c, env); }
    if c.st.phase.WaitFileReceived? { TrustedWrite(c, [REPLY_REQUEST], WriteReplyRequest, env); }
  }

  lemma TrustedNotification(c: Client, value: seq<Byte>, env: Env)
    requires Trusted(c)
    ensures Trusted(Notification(c, value, env))
  {
    hide Failed, Answer, FilesBounded, NearBounded, Checked;
    if value != [] && !Over(c.st.phase) {
      TrustedFailed(c, env);
      TrustedAnswer(c, value, env);
    }
  }

  lemma TrustedServices(c: Client, env: Env)
    requires Trusted(c) && !c.due.start && c.st.phase.DiscoverService?
    ensures Trusted(ServicesKnown(c, env)) && ServicesKnown(c, env).due == c.due
  {
    hide Failed, Checked, FilesBounded, NearBounded;
    TrustedFailed(c, env);
    var d := c.(st := c.st.(characteristicFound := false, phase := DiscoverCharacteristic));
    TrustedFailed(d, env);
  }

  lemma TrustedCharacteristics(c: Client, env: Env)
    requires Trusted(c) && !c.due.start && c.st.phase.DiscoverCharacteristic?
    ensures Trusted(CharacteristicsKnown(c, env)) && CharacteristicsKnown(c, env).due == c.due
  {
    hide Failed, Checked, FilesBounded, NearBounded;
    TrustedFailed(c, env);
    var d := c.(st := c.st.(listening := true, phase := EnableNotifications));
    TrustedFailed(d, env);
  }

  lemma TrustedCompleted(c: Client, env: Env)
    requires Trusted(c) && !c.due.start && Expecting(c.st.phase)
    ensures Trusted(Completed(c, env)) && Completed(c, env).due == c.due
  {
    hide Write, WriteNextChunk, ServicesKnown, CharacteristicsKnown, Checked, FilesBounded, NearBounded;
    if c.st.phase.DiscoverService? {
      TrustedServices(c, env);
    } else if c.st.phase.DiscoverCharacteristic? {
      TrustedCharacteristics(c, env);
    } else if c.st.phase.EnableNotifications? {
      TrustedWrite(c, [HELLO, PROTOCOL_VERSION, BEACON_ID], WriteHello, env);
    } else if c.st.phase.WriteFileData? {
      TrustedChunk(c, env);
    }
  }

  lemma TrustedQuery(c: Client, ok: bool, env: Env)
    requires Trusted(c) && !Over(c.st.phase)
    ensures Trusted(QueryComplete(c, ok, env))
  {
    hide Failed, Completed, Notification, FilesBounded, NearBounded, Checked;
    TrustedFailed(c, env);
    if ok && Expecting(c.st.phase) {
      TrustedCompleted(c, env);
      var d := Completed(c, env);
      TrustedNotification(d.(pending := []), d.pending, env);
    }
  }

  lemma TrustedConnection(c: Client, env: Env)
    requires Bounded(c) && !Reported(c.st) && !c.due.start && c.st.closing != Complete
    ensures Trusted(BeginConnection(c, env))
  {
    hide Failed, Checked, FilesBounded, NearBounded, Trusted;
    if env.connect {
      TrustedPhase(c, c.st.(phase := Connecting), c.connection);
    } else {
      var idle := SetPhase(c, Idle);
      TrustedFailed(idle, env);
    }
  }

  lemma TrustedStart(c: Client, env: Env)
    requires Bounded(c) && !Reported(c.st) && !c.due.start && c.st.closing != Complete
    ensures Trusted(StartAttempt(c, env))
  {
    hide BeginConnection, FinishWith, Checked;
    if c.st.abort {
      TrustedFinish(c, Fatal, c.st.verified);
    } else {
      var d := c.(st := c.st.(closeConfirmed := c.st.reconnect && c.st.closeConfirmed, scanConfirmed := false, verified := false),
                  near := Proximity(c.near.threshold, seq(SAMPLES, _ => 0), 0, 0, 0),
                  files := c.files.(replyLength := 0, replyOffset := 0), pending := [], shown := Proof(c.shown.written, [], false));
      TrustedConnection(d, env);
    }
  }

  lemma TrustedScanOver(c: Client, ok: bool, env: Env)
    requires Trusted(c)
    requires !ok || c.st.phase.StoppingScan? || (c.st.phase.StoppingForConnect? && c.st.abort)
    ensures Trusted(ScanCommand(c, ok, env))
  {
    hide FinishWith, BeginConnection, Checked, FilesBounded, NearBounded;
    TrustedFinish(c, Fatal, c.st.verified);
    TrustedFinish(c, c.st.closing, c.st.verified);
  }

  lemma TrustedScanOn(c: Client, env: Env)
    requires Trusted(c) && c.st.phase.Scanning?
    ensures Trusted(ScanCommand(c, true, env))
  {
    hide Checked, FilesBounded, NearBounded, BeginConnection, FinishWith;
  }

  lemma TrustedScanToConnect(c: Client, env: Env)
    requires Trusted(c) && c.st.phase.StoppingForConnect? && !c.st.abort
    ensures Trusted(ScanCommand(c, true, env))
  {
    hide Checked, FilesBounded, NearBounded, BeginConnection, FinishWith;
    TrustedConnection(c, env);
  }

  lemma TrustedScan(c: Client, ok: bool, env: Env)
    requires Trusted(c)
    ensures Trusted(ScanCommand(c, ok, env))
  {
    hide Trusted;
    if !ok || c.st.phase.StoppingScan? || (c.st.phase.StoppingForConnect? && c.st.abort) {
      TrustedScanOver(c, ok, env);
    } else if c.st.phase.Scanning? {
      TrustedScanOn(c, env);
    } else if c.st.phase.StoppingForConnect? {
      TrustedScanToConnect(c, env);
    }
  }

  lemma TrustedAbort(c: Client, stop: bool, env: Env)
    requires Trusted(c) && (c.due.start ==> c.st.phase.Starting? || Over(c.st.phase))
    ensures Trusted(AbortAttempt(c, stop, env))
  {
    hide Checked;
  }

  lemma TrustedConnected(c: Client, ok: bool, handle: Handle, env: Env)
    requires Trusted(c)
    ensures Trusted(Connected(c, ok, handle, env))
  {
    hide Trusted;
    if c.st.phase.Closing? {
      TrustedClosing(c, ok, handle, env);
    } else if c.st.phase.Connecting? {
      TrustedOpening(c, ok, handle, env);
    }
  }

  lemma HandleWhileClosing(c: Client, handle: Handle, env: Env)
    requires c.st.phase.Closing?
    ensures Connected(c, true, handle, env) == c.(connection := handle)
  {
    assert c.st.(phase := Closing) == c.st;
  }

  lemma TrustedHandle(c: Client, handle: Handle)
    requires Trusted(c)
    ensures Trusted(c.(connection := handle))
  {
    hide Checked, FilesBounded, NearBounded;
  }

  lemma TrustedClosing(c: Client, ok: bool, handle: Handle, env: Env)
    requires Trusted(c) && c.st.phase.Closing?
    ensures Trusted(Connected(c, ok, handle, env))
  {
    if ok {
      hide Connected, Trusted;
      HandleWhileClosing(c, handle, env);
      TrustedHandle(c, handle);
    } else {
      hide FinishWith, Checked, FilesBounded, NearBounded;
      TrustedFinish(c, c.st.closing, c.st.verified);
    }
  }

  lemma TrustedOpening(c: Client, ok: bool, handle: Handle, env: Env)
    requires Trusted(c) && c.st.phase.Connecting?
    ensures Trusted(Connected(c, ok, handle, env))
  {
    hide Failed, FinishWith, Checked, FilesBounded, NearBounded;
    if !ok {
      var idle := SetPhase(c, Idle).(connection := INVALID);
      TrustedFailed(idle, env);
    } else if !c.st.abort {
      var st := c.st.(serviceFound := false, phase := DiscoverService);
      TrustedPhase(c, st, handle);
      var open := c.(st := st, connection := handle);
      TrustedFailed(open, env);
    }
  }

  /** An attempt that is not begun after a COMPLETE. */
  predicate Timely(c: Client, e: RadioEvent) {
    e.Begin? ==> c.st.closing != Complete
  }

  lemma TrustedAdvert(c: Client, target: bool, rssi: int)
    requires Trusted(c)
    ensures Trusted(Advertisement(c, target, rssi))
  {
    hide Checked, FilesBounded, FilteredRssi;
  }

  lemma TrustedDisconnected(c: Client, handle: Handle)
    requires Trusted(c)
    ensures Trusted(Disconnected(c, handle))
  {
    hide FinishWith, Checked, FilesBounded, NearBounded;
    TrustedFinish(c, Interrupted(c), false);
    if c.st.phase.Closing? {
      TrustedFinish(c, c.st.closing, c.st.verified);
    }
  }

  lemma TrustedDeliver(c: Client, e: RadioEvent, env: Env)
    requires Trusted(c) && Timely(c, e)
    ensures Trusted(Deliver(c, e, env))
  {
    hide StartAttempt, QueryComplete, Notification, Connected, ScanCommand, AbortAttempt, Advertisement, Disconnected,
      FilesBounded, NearBounded, Checked;
    match e
    case Start => if c.due.start { TrustedStart(c.(due := c.due.(start := false)), env); }
    case Abort(stop) => TrustedAbort(c.(due := c.due.(abort := false)), stop, env);
    case ScanDone(ok) => TrustedScan(c, ok, env);
    case Advert(target, rssi) => TrustedAdvert(c, target, rssi);
    case ConnectionDone(ok, handle) => TrustedConnected(c, ok, handle, env);
    case Disconnection(handle) => TrustedDisconnected(c, handle);
    case QueryDone(handle, ok) => if !Deaf(c, handle) { TrustedQuery(c, ok, env); }
    case Notify(handle, _, value) => if !Deaf(c, handle) { TrustedNotification(c, value, env); }
    case _ =>
  }
}
