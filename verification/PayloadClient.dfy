/** The robot's side as it runs: callbacks updating the status word, the counters and the
    buffers in place. Every callback is proved to do what TransferClient says of its event. */
module PayloadClient {
  import opened Bytes
  import opened Crc
  import opened PackedBits
  import opened Filters
  import opened Protocol
  import opened Trace
  import opened TransferClient
  import opened ClientTrust
  import AttemptRuns

  const RING_BYTES: nat := 11

  /** The counters that only callbacks touch. */
  datatype Counters = Counters(sampleCount: nat, sampleIndex: nat, closeCount: nat, pendingLength: nat,
                               robotOffset: nat, replyOffset: nat, replyLength: nat)

  /** Closing with the scan on, step by step. */
  lemma CloseFromScan(c: Client, result: Result, env: Env)
    requires ScanOn(c.st.phase)
    ensures Close(c, result, env) ==
      if c.st.scanConfirmed then c.(st := c.st.(closing := result, phase := StoppingScan), pending := [])
      else Finish(c.(st := c.st.(closing := Fatal, phase := StoppingScan), pending := []))
  {}

  /** Closing with a connection open or being made. */
  lemma CloseLink(c: Client, result: Result, env: Env)
    requires !ScanOn(c.st.phase) && (c.connection != INVALID || c.st.phase.Connecting?)
    ensures Close(c, result, env) ==
      c.(st := c.st.(closing := if c.connection != INVALID && !env.disconnect then Fatal else result, phase := Closing), pending := [])
  {}

  class PayloadClient {
    var status: Status
    var connection: Handle
    var closeThreshold: int
    var counters: Counters
    const rssiSamples: array<bv8>       // twelve readings of seven bits, back to back
    const robotFile: seq<Byte>
    var robotSequence: Byte
    var robotCrc: Word
    const replyFile: array<Byte>
    var replySequence: Byte
    var replyCrc: Word
    const pendingNotification: array<Byte>
    var txPacket: seq<Byte>
    var due: Due
    ghost var shown: Proof

    ghost predicate Shaped()
      reads this`counters
    {
      && rssiSamples.Length == RING_BYTES && replyFile.Length == MAX_FILE && pendingNotification.Length == PACKET_SIZE
      && pendingNotification != replyFile && counters.pendingLength <= PACKET_SIZE
    }

    ghost function Near(): Proximity
      requires Shaped()
      reads this`counters, this`closeThreshold, rssiSamples
    {
      Proximity(closeThreshold, Ring(rssiSamples[..]), counters.sampleCount, counters.sampleIndex, counters.closeCount)
    }

    ghost function FilesNow(): Files
      requires Shaped()
      reads this`counters, this`robotSequence, this`robotCrc, this`replySequence, this`replyCrc, replyFile
    {
      Files(robotFile, counters.robotOffset, robotSequence, robotCrc,
            replyFile[..], counters.replyOffset, counters.replyLength, replySequence, replyCrc)
    }

    ghost function Kept(): seq<Byte>
      requires Shaped()
      reads this`counters, pendingNotification
    {
      pendingNotification[..counters.pendingLength]
    }

    ghost function State(): Client
      requires Shaped()
      reads this, rssiSamples, replyFile, pendingNotification
    {
      Client(status, connection, Near(), FilesNow(), Kept(), txPacket, due, shown)
    }

    ghost predicate Valid()
      reads this, rssiSamples, replyFile, pendingNotification
    {
      Shaped() && Bounded(State())
    }

    constructor (robotFile: seq<Byte>, threshold: int)
      requires |robotFile| <= MAX_FILE
      ensures Valid() && fresh(rssiSamples) && fresh(replyFile) && fresh(pendingNotification)
      ensures AttemptRuns.Resting(State()) && Trusted(State()) && State().st.closing == NotClose && !shown.acked
    {
      status := Status(Idle, NotClose, NotClose, false, false, false, false, false, false, false, false, false);
      connection, closeThreshold := INVALID, threshold;
      counters := Counters(0, 0, 0, 0, 0, 0, 0);
      rssiSamples := new bv8[RING_BYTES](_ => 0);
      replyFile := new Byte[MAX_FILE](_ => 0);
      pendingNotification := new Byte[PACKET_SIZE](_ => 0);
      this.robotFile := robotFile;
      robotSequence, robotCrc, replySequence, replyCrc, txPacket := 0, 0, 0, 0, [];
      due, shown := Due(false, false), Proof(0, [], false);
    }

    /** `finish_attempt`. */
    method FinishAttempt()
      requires Shaped()
      modifies this`status, this`connection
      ensures Shaped() && State() == Finish(old(State()))
    {
      if status.listening {
        status := status.(listening := false);
      }
      connection := INVALID;
      status := status.(phase := Idle, result := status.closing, running := false);
    }

    /** `close_attempt` while the scan is on or being stopped. */
    method CloseScan(result: Result, env: Env)
      requires Shaped() && ScanOn(status.phase)
      modifies this`status, this`connection, this`counters
      ensures Shaped() && State() == Close(old(State()), result, env)
    {
      hide Close, Finish;
      CloseFromScan(State(), result, env);
      counters := counters.(pendingLength := 0);
      if status.scanConfirmed {
        status := status.(closing := result, phase := StoppingScan);
      } else {
        status := status.(closing := Fatal, phase := StoppingScan);
        FinishAttempt();
      }
    }

    /** `close_attempt` with nothing to wait for. */
    method CloseIdle(result: Result, env: Env)
      requires Shaped() && !ScanOn(status.phase) && connection == INVALID && !status.phase.Connecting?
      modifies this`status, this`connection, this`counters
      ensures Shaped() && State() == Close(old(State()), result, env)
    {
      counters := counters.(pendingLength := 0);
      status := status.(closing := result);
      FinishAttempt();
    }

    /** `close_attempt`. */
    method CloseAttempt(result: Result, env: Env)
      requires Shaped()
      modifies this`status, this`connection, this`counters
      ensures Shaped() && State() == Close(old(State()), result, env)
    {
      hide Close;
      if status.phase.Scanning? || status.phase.StoppingForConnect? {
        CloseScan(result, env);
      } else if connection != INVALID {
        CloseLink(State(), result, env);
        counters := counters.(pendingLength := 0);
        status := status.(closing := if env.disconnect then result else Fatal, phase := Closing);
      } else if status.phase.Connecting? {
        CloseLink(State(), result, env);
        counters := counters.(pendingLength := 0);
        status := status.(closing := result, phase := Closing);
      } else {
        CloseIdle(result, env);
      }
    }

    /** `transfer_failed`. */
    method TransferFailed(env: Env)
      requires Shaped()
      modifies this`status, this`connection, this`counters
      ensures Shaped() && State() == Failed(old(State()), env)
    {
      status := status.(verified := false);
      CloseAttempt(if status.closeConfirmed then Retry else NotClose, env);
    }

    /** `begin_connection`. */
    method StartConnection(env: Env)
      requires Shaped()
      modifies this`status, this`connection, this`counters
      ensures Shaped() && State() == BeginConnection(old(State()), env)
    {
      status := status.(phase := Connecting);
      if !env.connect {
        status := status.(phase := Idle);
        TransferFailed(env);
      }
    }

    /** `write_packet`. */
    method WritePacket(packet: seq<Byte>, next: Phase, env: Env)
      requires Shaped()
      modifies this`status, this`connection, this`counters, this`txPacket, this`shown
      ensures Shaped() && State() == Write(old(State()), packet, next, env)
    {
      txPacket := packet;
      status := status.(phase := next);
      shown := shown.(written := shown.written + 1);
      if !env.start {
        TransferFailed(env);
      }
    }

    /** `write_next_robot_chunk`. */
    method WriteNextRobotChunk(env: Env)
      requires Valid()
      modifies this`status, this`connection, this`counters, this`txPacket, this`shown, this`robotSequence
      ensures Shaped() && State() == WriteNextChunk(old(State()), env)
    {
      hide Write, NearBounded;
      var length := |robotFile|;
      if counters.robotOffset == length {
        WritePacket([FILE_END], WriteFileEnd, env);
        return;
      }
      var remaining := length - counters.robotOffset;
      var chunk := ChunkOf(remaining);
      var packet := [FILE_DATA, robotSequence, chunk] + robotFile[counters.robotOffset..counters.robotOffset + chunk];
      robotSequence := Increment(robotSequence);
      counters := counters.(robotOffset := counters.robotOffset + chunk);
      WritePacket(packet, WriteFileData, env);
    }

    // `handle_notification`, message by message.

    method HelloAck(value: seq<Byte>, env: Env)
      requires Valid()
      modifies this`status, this`connection, this`counters, this`txPacket, this`shown, this`robotSequence, this`robotCrc
      ensures Shaped() && State() == OnHelloAck(old(State()), value, env)
    {
      hide Write, Failed;
      if !status.phase.WaitHelloAck? { return; }
      if |value| != 2 || value[1] != BEACON_ID {
        TransferFailed(env);
        return;
      }
      counters := counters.(robotOffset := 0);
      robotSequence := 0;
      robotCrc := TransferCrc32(robotFile);
      var packet := [FILE_START] + U16(|robotFile|) + U32(robotCrc);
      WritePacket(packet, WriteFileStart, env);
    }

    method FileReady(value: seq<Byte>, env: Env)
      requires Valid()
      modifies this`status, this`connection, this`counters, this`txPacket, this`shown, this`robotSequence
      ensures Shaped() && State() == OnFileReady(old(State()), value, env)
    {
      hide WriteNextChunk, Failed;
      if !status.phase.WaitFileReady? { return; }
      if |value| != 2 || value[1] != BEACON_ID {
        TransferFailed(env);
        return;
      }
      WriteNextRobotChunk(env);
    }

    method FileReceived(value: seq<Byte>, env: Env)
      requires Valid()
      modifies this`status, this`connection, this`counters, this`txPacket, this`shown
      ensures Shaped() && State() == OnFileReceived(old(State()), value, env)
    {
      hide Write, Failed;
      if !status.phase.WaitFileReceived? { return; }
      if |value| != 6 || value[1] != 0 || ReadU32(value[2..]) != robotCrc {
        TransferFailed(env);
        return;
      }
      WritePacket([REPLY_REQUEST], WriteReplyRequest, env);
    }

    method ReplyStart(value: seq<Byte>, env: Env)
      requires Valid()
      modifies this`status, this`connection, this`counters, this`txPacket, this`shown, this`replyCrc, this`replySequence
      ensures Shaped() && State() == OnReplyStart(old(State()), value, env)
    {
      hide Write, Failed;
      if !status.phase.WaitReplyStart? { return; }
      if |value| != 7 {
        TransferFailed(env);
        return;
      }
      var announced := ReadU16(value[1..3]);
      if announced == 0 || announced > MAX_FILE {
        TransferFailed(env);
        return;
      }
      replyCrc := ReadU32(value[3..]);
      counters := counters.(replyLength := announced, replyOffset := 0);
      replySequence := 0;
      WritePacket([REPLY_NEXT], WriteReplyNext, env);
    }

    /** `memcpy` into the reply buffer. */
    method StoreChunk(data: seq<Byte>)
      requires Shaped() && counters.replyOffset + |data| <= MAX_FILE
      modifies replyFile
      ensures replyFile[..] == WithChunk(old(replyFile[..]), counters.replyOffset, data)
    {
      var offset := counters.replyOffset;
      for k := 0 to |data|
        invariant replyFile[..offset] == old(replyFile[..offset])
        invariant replyFile[offset..offset + k] == data[..k]
        invariant replyFile[offset + |data|..] == old(replyFile[offset + |data|..])
      {
        replyFile[offset + k] := data[k];
      }
      assert replyFile[..] == replyFile[..offset] + replyFile[offset..offset + |data|] + replyFile[offset + |data|..];
    }

    method ReplyData(value: seq<Byte>, env: Env)
      requires Valid()
      modifies this`status, this`connection, this`counters, this`txPacket, this`shown, this`replySequence, replyFile
      ensures Shaped() && State() == OnReplyData(old(State()), value, env)
    {
      hide Write, Failed;
      if !status.phase.WaitReplyPiece? { return; }
      if |value| < 3 {
        TransferFailed(env);
        return;
      }
      var chunk := value[2] as nat;
      if value[1] != replySequence || chunk == 0 || chunk > DATA_BYTES || |value| != 3 + chunk
         || counters.replyOffset + chunk > counters.replyLength {
        TransferFailed(env);
        return;
      }
      StoreChunk(value[3..]);
      counters := counters.(replyOffset := counters.replyOffset + chunk);
      replySequence := Increment(replySequence);
      WritePacket([REPLY_NEXT], WriteReplyNext, env);
    }

    method ReplyEnd(value: seq<Byte>, env: Env)
      requires Valid()
      modifies this`status, this`connection, this`counters, this`txPacket, this`shown
      ensures Shaped() && State() == OnReplyEnd(old(State()), value, env)
    {
      hide Write, Failed;
      if !status.phase.WaitReplyPiece? { return; }
      var text := replyFile[..counters.replyLength];
      assert text == replyFile[..][..counters.replyLength];
      var crc := TransferCrc32(text);
      if |value| != 5 || counters.replyOffset != counters.replyLength || crc != replyCrc || ReadU32(value[1..]) != replyCrc {
        TransferFailed(env);
        return;
      }
      shown := shown.(checked := text);
      WritePacket([COMPLETE], WriteComplete, env);
    }

    method CompleteAck(value: seq<Byte>, env: Env)
      requires Valid()
      modifies this`status, this`connection, this`counters, this`shown
      ensures Shaped() && State() == OnCompleteAck(old(State()), value, env)
    {
      hide Close, Failed;
      if !status.phase.WaitCompleteAck? { return; }
      if |value| != 2 || value[1] != BEACON_ID {
        TransferFailed(env);
        return;
      }
      status := status.(verified := true);
      shown := shown.(acked := true);
      CloseAttempt(Complete, env);
    }

    /** The dispatch of `handle_notification` once nothing is being written. */
    method HandleAnswer(value: seq<Byte>, env: Env)
      requires Valid() && value != []
      modifies this, replyFile
      ensures Shaped() && State() == Answer(old(State()), value, env)
    {
      hide OnHelloAck, OnFileReady, OnFileReceived, OnReplyStart, OnReplyData, OnReplyEnd, OnCompleteAck;
      if value[0] == HELLO_ACK {
        HelloAck(value, env);
      } else if value[0] == FILE_READY {
        FileReady(value, env);
      } else if value[0] == FILE_RECEIVED {
        FileReceived(value, env);
      } else if value[0] == REPLY_START {
        ReplyStart(value, env);
      } else if value[0] == REPLY_DATA {
        ReplyData(value, env);
      } else if value[0] == REPLY_END {
        ReplyEnd(value, env);
      } else if value[0] == COMPLETE_ACK {
        CompleteAck(value, env);
      }
    }

    /** `memcpy` into the one slot for early notifications. */
    method KeepNotification(value: seq<Byte>)
      requires Shaped() && |value| <= PACKET_SIZE
      modifies this`counters, pendingNotification
      ensures Shaped() && State() == old(State()).(pending := value)
    {
      for k := 0 to |value|
        invariant pendingNotification[..k] == value[..k] && counters == old(counters)
      {
        pendingNotification[k] := value[k];
      }
      assert value[..|value|] == value;
      counters := counters.(pendingLength := |value|);
    }

    /** `handle_notification`. */
    method HandleNotification(value: seq<Byte>, env: Env)
      requires Valid()
      modifies this, replyFile, pendingNotification
      ensures Shaped() && State() == Notification(old(State()), value, env)
    {
      hide Failed, Answer, Near, FilesNow;
      if value == [] || status.phase.Closing? || status.phase.Idle? { return; }
      if value[0] == ERROR {
        TransferFailed(env);
        return;
      }
      if Writing(status.phase) {
        if |value| > PACKET_SIZE || counters.pendingLength != 0 {
          TransferFailed(env);
          return;
        }
        KeepNotification(value);
        return;
      }
      HandleAnswer(value, env);
    }

    // `gatt_handler`.

    /** The switch over the phase whose query or write has completed. */
    method Proceed(env: Env)
      requires Valid()
      modifies this`status, this`connection, this`counters, this`txPacket, this`shown, this`robotSequence
      ensures Shaped() && State() == Completed(old(State()), env)
    {
      hide Write, WriteNextChunk, Failed, Near, FilesNow, Kept;
      if status.phase.DiscoverService? {
        if !status.serviceFound {
          TransferFailed(env);
          return;
        }
        status := status.(characteristicFound := false, phase := DiscoverCharacteristic);
        if !env.start { TransferFailed(env); }
      } else if status.phase.DiscoverCharacteristic? {
        if !status.characteristicFound {
          TransferFailed(env);
          return;
        }
        status := status.(listening := true, phase := EnableNotifications);
        if !env.start { TransferFailed(env); }
      } else if status.phase.EnableNotifications? {
        WritePacket([HELLO, PROTOCOL_VERSION, BEACON_ID], WriteHello, env);
      } else if status.phase.WriteFileData? {
        WriteNextRobotChunk(env);
      } else {
        status := status.(phase := WaitPhase(status.phase));
      }
    }

    /** A notification kept for this write is taken up. */
    method TakeUpPending(env: Env)
      requires Valid()
      modifies this, replyFile, pendingNotification
      ensures Shaped() && State() == TakePending(old(State()), env)
    {
      hide Notification;
      if counters.pendingLength != 0 && !Writing(status.phase) {
        var value := pendingNotification[..counters.pendingLength];
        counters := counters.(pendingLength := 0);
        assert State() == old(State()).(pending := []);
        HandleNotification(value, env);
      }
    }

    method QueryCompleted(ok: bool, env: Env)
      requires Valid()
      modifies this, replyFile, pendingNotification
      ensures Shaped() && State() == QueryComplete(old(State()), ok, env)
    {
      hide Failed, Completed, TakePending, Near, FilesNow, Kept;
      if !ok {
        TransferFailed(env);
        return;
      }
      if !Expecting(status.phase) { return; }
      BoundedCompleted(State(), env);
      Proceed(env);
      TakeUpPending(env);
    }

    // `hci_handler`, and the callbacks of the run loop.

    /** `bitarray_put` of one reading: the ring of codes changes in one place. */
    method PutReading(rssi: int)
      requires Shaped() && counters.sampleIndex < SAMPLES && -127 < rssi < 0
      modifies rssiSamples
      ensures Ring(rssiSamples[..]) == old(Ring(rssiSamples[..]))[counters.sampleIndex := Encode(rssi)]
    {
      ghost var was := rssiSamples[..];
      var index := counters.sampleIndex;
      BitarrayPut(rssiSamples, index, RSSI_BITS, Encode(rssi));
      ghost var now := rssiSamples[..];
      assert PackedBits.Stored(was, now, index * RSSI_BITS, RSSI_BITS, Encode(rssi));
      CodesKept(was, now, SAMPLES, index, rssi);
      assert Ring(now) == Ring(was)[index := Encode(rssi)];
    }

    /** `advertisement_received`. */
    method AdvertisementReceived(target: bool, rssi: int)
      requires Valid()
      modifies this`status, this`counters, rssiSamples
      ensures Shaped() && State() == Advertisement(old(State()), target, rssi)
    {
      hide FilteredRssi;
      if !status.phase.Scanning? { return; }
      if status.abort || !target { return; }
      if rssi >= 0 || rssi <= -127 { return; }
      PutReading(rssi);
      counters := counters.(sampleIndex := (counters.sampleIndex + 1) % SAMPLES,
                            sampleCount := if counters.sampleCount < SAMPLES then counters.sampleCount + 1 else counters.sampleCount);
      if counters.sampleCount < SAMPLES { return; }
      var average := FilterRssi(rssiSamples);
      counters := counters.(closeCount := if average >= closeThreshold then counters.closeCount + 1 else 0);
      if counters.closeCount < REQUIRED_CLOSE_AVERAGES { return; }
      status := status.(closeConfirmed := true, phase := StoppingForConnect);
    }

    /** `connection_complete`. */
    method ConnectionComplete(ok: bool, handle: Handle, env: Env)
      requires Valid()
      modifies this`status, this`connection, this`counters
      ensures Shaped() && State() == Connected(old(State()), ok, handle, env)
    {
      hide Failed, Near, FilesNow;
      if !status.phase.Connecting? && !status.phase.Closing? { return; }
      if !ok {
        connection := INVALID;
        if status.phase.Closing? {
          FinishAttempt();
        } else {
          status := status.(phase := Idle);
          TransferFailed(env);
        }
        return;
      }
      connection := handle;
      if status.abort || status.phase.Closing? {
        status := status.(phase := Closing);
        return;
      }
      status := status.(serviceFound := false, phase := DiscoverService);
      if !env.start { TransferFailed(env); }
    }

    /** The end of a scan command. */
    method ScanCommandComplete(ok: bool, env: Env)
      requires Valid()
      modifies this`status, this`connection, this`counters
      ensures Shaped() && State() == ScanCommand(old(State()), ok, env)
    {
      hide BeginConnection, Near, FilesNow, Kept;
      if !ok {
        status := status.(closing := Fatal);
        FinishAttempt();
      } else if status.phase.Scanning? {
        status := status.(scanConfirmed := true);
      } else if status.phase.StoppingForConnect? {
        if status.abort {
          status := status.(closing := Fatal);
          FinishAttempt();
        } else {
          StartConnection(env);
        }
      } else if status.phase.StoppingScan? {
        FinishAttempt();
      }
    }

    method DisconnectionComplete(handle: Handle)
      requires Valid()
      modifies this`status, this`connection
      ensures Shaped() && State() == Disconnected(old(State()), handle)
    {
      hide Near, FilesNow, Kept, FinishWith;
      if handle != connection { return; }
      if status.phase.Closing? {
        FinishAttempt();
      } else {
        LoseConnection();
      }
    }

    /** A connection that ends before the attempt does. */
    method LoseConnection()
      requires Shaped()
      modifies this`status, this`connection
      ensures Shaped() && State() == FinishWith(old(State()), Interrupted(old(State())), false)
    {
      connection := INVALID;
      status := status.(verified := false, closing := if status.closeConfirmed then Retry else NotClose);
      FinishAttempt();
    }

    /** `start_attempt_callback`. */
    method StartAttemptCallback(env: Env)
      requires Valid()
      modifies this`status, this`connection, this`counters, this`shown, rssiSamples
      ensures Shaped() && State() == StartAttempt(old(State()), env)
    {
      hide BeginConnection;
      if status.abort {
        status := status.(closing := Fatal);
        FinishAttempt();
        return;
      }
      ClearForStart();
      if status.reconnect {
        StartConnection(env);
        return;
      }
      status := status.(phase := Scanning);
    }

    method ClearForStart()
      requires Shaped()
      modifies this`status, this`counters, this`shown, rssiSamples
      ensures Shaped()
      ensures State() == old(State()).(
        st := old(status).(closeConfirmed := old(status).reconnect && old(status).closeConfirmed, scanConfirmed := false, verified := false),
        near := Proximity(closeThreshold, seq(SAMPLES, _ => 0), 0, 0, 0),
        files := old(FilesNow()).(replyLength := 0, replyOffset := 0), pending := [], shown := Proof(old(shown).written, [], false))
    {
      status := status.(closeConfirmed := status.reconnect && status.closeConfirmed, scanConfirmed := false, verified := false);
      counters := Counters(0, 0, 0, 0, counters.robotOffset, 0, 0);
      shown := Proof(shown.written, [], false);
      for i := 0 to RING_BYTES
        modifies rssiSamples
        invariant forall k :: 0 <= k < i ==> rssiSamples[k] == 0
      {
        rssiSamples[i] := 0;
      }
      ClearRing(rssiSamples[..]);
    }

    /** `abort_attempt_callback`. */
    method AbortAttemptCallback(stop: bool, env: Env)
      requires Valid()
      modifies this`status, this`connection, this`counters
      ensures Shaped() && State() == AbortAttempt(old(State()), stop, env)
    {
      hide Close;
      if !status.running || status.phase.StoppingScan? || status.phase.Closing? { return; }
      CloseAttempt(if stop then Fatal else if status.closeConfirmed then Retry else NotClose, env);
    }

    // The event handlers.

    /** `gatt_handler`. */
    method GattHandler(e: RadioEvent, env: Env)
      requires Valid() && (e.ServiceFound? || e.CharacteristicFound? || e.QueryDone? || e.Notify?)
      modifies this, replyFile, pendingNotification
      ensures Shaped() && State() == Deliver(old(State()), e, env)
    {
      hide QueryComplete, Notification, Near, FilesNow, Kept;
      if status.abort || status.phase.Closing? || status.phase.Idle? || e.handle != connection { return; }
      match e
      case ServiceFound(_) =>
        if status.phase.DiscoverService? { status := status.(serviceFound := true); }
      case CharacteristicFound(_) =>
        if status.phase.DiscoverCharacteristic? { status := status.(characteristicFound := true); }
      case QueryDone(_, ok) => QueryCompleted(ok, env);
      case Notify(_, ours, value) => if ours { HandleNotification(value, env); }
    }

    /** `hci_handler`. */
    method HciHandler(e: RadioEvent, env: Env)
      requires Valid() && (e.ScanDone? || e.Advert? || e.ConnectionDone? || e.Disconnection?)
      modifies this, rssiSamples
      ensures Shaped() && State() == Deliver(old(State()), e, env)
    {
      hide ScanCommand, Advertisement, Connected, Disconnected, Near, FilesNow, Kept;
      match e
      case ScanDone(ok) => ScanCommandComplete(ok, env);
      case Advert(target, rssi) => AdvertisementReceived(target, rssi);
      case ConnectionDone(ok, handle) => ConnectionComplete(ok, handle, env);
      case Disconnection(handle) => DisconnectionComplete(handle);
    }

    /** The run loop calls a callback it was given, and the main loop starts or gives up an
        attempt. */
    method LoopEvent(e: RadioEvent, env: Env)
      requires Valid() && (e.Begin? || e.Start? || e.RequestAbort? || e.Abort?)
      modifies this, rssiSamples
      ensures Shaped() && State() == Deliver(old(State()), e, env)
    {
      hide StartAttempt, AbortAttempt, Near, FilesNow, Kept, FilesBounded, NearBounded;
      match e
      case Begin(again, stop) =>
        if status.running || stop { return; }
        if again && (!status.closeConfirmed || !status.phase.Idle? || status.result != Retry) { return; }
        status := status.(reconnect := again, abort := false, closeConfirmed := again && status.closeConfirmed,
                          running := true, phase := Starting);
        due := due.(start := true);
      case Start =>
        if due.start {
          due := due.(start := false);
          StartAttemptCallback(env);
        }
      case RequestAbort =>
        if status.running {
          status := status.(abort := true);
          due := due.(abort := true);
        }
      case Abort(stop) =>
        if due.abort {
          due := due.(abort := false);
          AbortAttemptCallback(stop, env);
        }
    }

    /** Every event is handled as specified, leaves the client valid, and keeps COMPLETE
        trustworthy. */
    method Handle(e: RadioEvent, env: Env)
      requires Valid()
      modifies this, rssiSamples, replyFile, pendingNotification
      ensures Valid() && State() == Deliver(old(State()), e, env)
      ensures old(Trusted(State())) && Timely(old(State()), e) ==> Trusted(State())
    {
      hide Deliver, Near, FilesNow, Kept, FilesBounded, NearBounded, Trusted, Timely;
      BoundedDeliver(State(), e, env);
      if Trusted(State()) && Timely(State(), e) { TrustedDeliver(State(), e, env); }
      if e.ServiceFound? || e.CharacteristicFound? || e.QueryDone? || e.Notify? {
        GattHandler(e, env);
      } else if e.ScanDone? || e.Advert? || e.ConnectionDone? || e.Disconnection? {
        HciHandler(e, env);
      } else {
        LoopEvent(e, env);
      }
    }
  }

  lemma {:induction false} ClearGather(s: seq<bv8>, start: nat, count: nat)
    requires start + count <= 8 * |s| && forall k :: 0 <= k < |s| ==> s[k] == 0
    ensures Gather(s, start, count) == 0
  {
    if count > 0 {
      ClearGather(s, start, count - 1);
      ClearBit(s[(start + count - 1) / 8], (start + count - 1) % 8);
    }
  }

  lemma ClearBit(b: bv8, k: nat)
    requires k < 8 && b == 0
    ensures !Bit(b, k)
  {}

  /** Cleared memory is a ring of zeros. */
  lemma ClearRing(s: seq<bv8>)
    requires |s| == RING_BYTES && forall k :: 0 <= k < |s| ==> s[k] == 0
    ensures Ring(s) == seq(SAMPLES, _ => 0)
  {
    forall i | 0 <= i < SAMPLES ensures Ring(s)[i] == 0 {
      ClearGather(s, i * RSSI_BITS, RSSI_BITS);
    }
  }
}
