/** The robot's side of a transfer attempt: what each event makes of its state. */
module TransferClient {
  import opened Bytes
  import opened Crc
  import opened PackedBits
  import opened Filters
  import opened Protocol
  import opened Trace

  const REQUIRED_CLOSE_AVERAGES: nat := 3

  datatype Phase =
    | Idle | Starting | Scanning | StoppingForConnect | Connecting
    | DiscoverService | DiscoverCharacteristic | EnableNotifications
    | WriteHello | WaitHelloAck | WriteFileStart | WaitFileReady | WriteFileData | WriteFileEnd | WaitFileReceived
    | WriteReplyRequest | WaitReplyStart | WriteReplyNext | WaitReplyPiece | WriteComplete | WaitCompleteAck
    | StoppingScan | Closing

  type Handle = nat
  const INVALID: Handle := 0xFFFF

  /** The status word. */
  datatype Status = Status(
    phase: Phase, result: Result, closing: Result,
    running: bool, abort: bool, closeConfirmed: bool, scanConfirmed: bool, verified: bool, listening: bool,
    serviceFound: bool, characteristicFound: bool, reconnect: bool)

  /** The file being sent and the reply being received. */
  datatype Files = Files(
    robot: seq<Byte>, robotOffset: nat, robotSequence: Byte, robotCrc: Word,
    reply: seq<Byte>, replyOffset: nat, replyLength: nat, replySequence: Byte, replyCrc: Word)

  /** The proximity check: the last twelve readings and the run of close averages. */
  datatype Proximity = Proximity(threshold: int, samples: seq<Code>, sampleCount: nat, sampleIndex: nat, closeCount: nat)

  /** For the record: how many packets were handed over for writing, the reply that passed its
      check, and whether the final answer came. */
  datatype Proof = Proof(written: nat, checked: seq<Byte>, acked: bool)

  /** Callbacks handed to the run loop and not called yet. */
  datatype Due = Due(start: bool, abort: bool)

  datatype Client = Client(st: Status, connection: Handle, near: Proximity, files: Files,
                           pending: seq<Byte>, tx: seq<Byte>, due: Due, shown: Proof)

  /** What the radio stack answers when it is asked to start something. */
  datatype Env = Env(start: bool, disconnect: bool, connect: bool)

  /** Every count fits the bit field that holds it, every offset its buffer. */
  predicate Bounded(c: Client) {
    && NearBounded(c.near) && (c.st.phase.Scanning? ==> c.near.closeCount < REQUIRED_CLOSE_AVERAGES)
    && FilesBounded(c.files) && |c.pending| <= PACKET_SIZE
  }

  predicate NearBounded(p: Proximity) {
    && |p.samples| == SAMPLES && p.sampleCount <= SAMPLES && p.sampleIndex < SAMPLES
    && p.closeCount <= REQUIRED_CLOSE_AVERAGES
  }

  predicate FilesBounded(f: Files) {
    && |f.robot| <= MAX_FILE && f.robotOffset <= |f.robot|
    && |f.reply| == MAX_FILE && f.replyOffset <= f.replyLength <= MAX_FILE
  }

  function SetPhase(c: Client, phase: Phase): Client {
    c.(st := c.st.(phase := phase))
  }

  // Ending an attempt.

  /** `finish_attempt`. */
  function Finish(c: Client): Client {
    FinishWith(c, c.st.closing, c.st.verified)
  }

  function FinishWith(c: Client, closing: Result, verified: bool): Client {
    c.(st := c.st.(listening := false, phase := Idle, result := closing, closing := closing, verified := verified, running := false),
       connection := INVALID)
  }

  predicate ScanOn(p: Phase) {
    p.Scanning? || p.StoppingForConnect?
  }

  /** Closing an attempt ends it at once when nothing is left to wait for. */
  predicate EndsAtOnce(c: Client) {
    if ScanOn(c.st.phase) then !c.st.scanConfirmed else c.connection == INVALID && !c.st.phase.Connecting?
  }

  /** What closing reports: a scan that never began, and a connection that cannot be closed,
      are fatal. */
  function ClosingResult(c: Client, result: Result, env: Env): Result {
    if ScanOn(c.st.phase) then if c.st.scanConfirmed then result else Fatal
    else if c.connection != INVALID && !env.disconnect then Fatal
    else result
  }

  function ClosedStatus(c: Client, result: Result, env: Env): Status {
    var over, closing := EndsAtOnce(c), ClosingResult(c, result, env);
    c.st.(closing := closing,
          phase := if over then Idle else if ScanOn(c.st.phase) then StoppingScan else Closing,
          result := if over then closing else c.st.result, running := c.st.running && !over,
          listening := c.st.listening && !over)
  }

  /** `close_attempt`. */
  function Close(c: Client, result: Result, env: Env): Client {
    c.(st := ClosedStatus(c, result, env), pending := [], connection := if EndsAtOnce(c) then INVALID else c.connection)
  }

  function Interrupted(c: Client): Result {
    if c.st.closeConfirmed then Retry else NotClose
  }

  /** `transfer_failed`. */
  function Failed(c: Client, env: Env): Client {
    Close(c.(st := c.st.(verified := false)), Interrupted(c), env)
  }

  // Writing.

  predicate Writing(p: Phase) {
    p.WriteHello? || p.WriteFileStart? || p.WriteFileData? || p.WriteFileEnd? || p.WriteReplyRequest?
    || p.WriteReplyNext? || p.WriteComplete?
  }

  /** `write_packet`. */
  function Write(c: Client, packet: seq<Byte>, phase: Phase, env: Env): Client {
    var d := SetPhase(c, phase).(tx := packet, shown := c.shown.(written := c.shown.written + 1));
    if env.start then d else Failed(d, env)
  }

  /** `write_next_robot_chunk`: what is written, in which phase, and what is left to send. */
  function NextPacket(f: Files): seq<Byte>
    requires FilesBounded(f)
  {
    if f.robotOffset == |f.robot| then [FILE_END]
    else
      var chunk := ChunkOf(|f.robot| - f.robotOffset);
      [FILE_DATA, f.robotSequence, chunk] + f.robot[f.robotOffset..f.robotOffset + chunk]
  }

  function AfterPacket(f: Files): (g: Files)
    requires FilesBounded(f)
    ensures FilesBounded(g)
  {
    if f.robotOffset == |f.robot| then f
    else f.(robotOffset := f.robotOffset + ChunkOf(|f.robot| - f.robotOffset), robotSequence := Increment(f.robotSequence))
  }

  function WriteNextChunk(c: Client, env: Env): Client
    requires FilesBounded(c.files)
  {
    var phase := if c.files.robotOffset == |c.files.robot| then WriteFileEnd else WriteFileData;
    Write(c.(files := AfterPacket(c.files)), NextPacket(c.files), phase, env)
  }

  // Notifications.

  function StartPacket(robot: seq<Byte>): seq<Byte>
    requires |robot| <= MAX_FILE
  {
    [FILE_START] + U16(|robot|) + U32(Crc32(robot))
  }

  function OnHelloAck(c: Client, value: seq<Byte>, env: Env): Client
    requires Bounded(c)
  {
    if !c.st.phase.WaitHelloAck? then c
    else if |value| != 2 || value[1] != BEACON_ID then Failed(c, env)
    else
      var f := c.files;
      Write(c.(files := f.(robotOffset := 0, robotSequence := 0, robotCrc := Crc32(f.robot))),
            StartPacket(f.robot), WriteFileStart, env)
  }

  function OnFileReady(c: Client, value: seq<Byte>, env: Env): Client
    requires Bounded(c)
  {
    if !c.st.phase.WaitFileReady? then c
    else if |value| != 2 || value[1] != BEACON_ID then Failed(c, env)
    else WriteNextChunk(c, env)
  }

  function OnFileReceived(c: Client, value: seq<Byte>, env: Env): Client {
    if !c.st.phase.WaitFileReceived? then c
    else if |value| != 6 || value[1] != 0 || ReadU32(value[2..]) != c.files.robotCrc then Failed(c, env)
    else Write(c, [REPLY_REQUEST], WriteReplyRequest, env)
  }

  /** The announced length is checked as it came, before it is stored in nine bits. */
  function OnReplyStart(c: Client, value: seq<Byte>, env: Env): Client {
    if !c.st.phase.WaitReplyStart? then c
    else if |value| != 7 || !(1 <= ReadU16(value[1..3]) <= MAX_FILE) then Failed(c, env)
    else
      var f := c.files.(replyLength := ReadU16(value[1..3]), replyCrc := ReadU32(value[3..]), replyOffset := 0, replySequence := 0);
      Write(c.(files := f), [REPLY_NEXT], WriteReplyNext, env)
  }

  /** The reply buffer with a chunk stored at an offset. */
  function WithChunk(reply: seq<Byte>, offset: nat, data: seq<Byte>): (s: seq<Byte>)
    requires offset + |data| <= |reply|
    ensures |s| == |reply|
  {
    reply[..offset] + data + reply[offset + |data|..]
  }

  predicate GoodChunk(f: Files, value: seq<Byte>) {
    && |value| >= 3 && value[1] == f.replySequence && 1 <= value[2] <= DATA_BYTES && |value| == 3 + value[2] as nat
    && f.replyOffset + value[2] as nat <= f.replyLength
  }

  function AfterChunk(f: Files, value: seq<Byte>): (g: Files)
    requires FilesBounded(f) && GoodChunk(f, value)
    ensures FilesBounded(g)
  {
    f.(reply := WithChunk(f.reply, f.replyOffset, value[3..]), replyOffset := f.replyOffset + value[2] as nat,
       replySequence := Increment(f.replySequence))
  }

  function OnReplyData(c: Client, value: seq<Byte>, env: Env): Client
    requires Bounded(c)
  {
    if !c.st.phase.WaitReplyPiece? then c
    else if !GoodChunk(c.files, value) then Failed(c, env)
    else Write(c.(files := AfterChunk(c.files, value)), [REPLY_NEXT], WriteReplyNext, env)
  }

  function ReplyText(f: Files): seq<Byte>
    requires FilesBounded(f)
  {
    f.reply[..f.replyLength]
  }

  predicate GoodEnd(f: Files, value: seq<Byte>)
    requires FilesBounded(f)
  {
    |value| == 5 && f.replyOffset == f.replyLength && Crc32(ReplyText(f)) == f.replyCrc && ReadU32(value[1..]) == f.replyCrc
  }

  function OnReplyEnd(c: Client, value: seq<Byte>, env: Env): Client
    requires Bounded(c)
  {
    if !c.st.phase.WaitReplyPiece? then c
    else if !GoodEnd(c.files, value) then Failed(c, env)
    else Write(c.(shown := c.shown.(checked := ReplyText(c.files))), [COMPLETE], WriteComplete, env)
  }

  function OnCompleteAck(c: Client, value: seq<Byte>, env: Env): Client {
    if !c.st.phase.WaitCompleteAck? then c
    else if |value| != 2 || value[1] != BEACON_ID then Failed(c, env)
    else Close(c.(st := c.st.(verified := true), shown := c.shown.(acked := true)), Complete, env)
  }

  function Answer(c: Client, value: seq<Byte>, env: Env): Client
    requires Bounded(c) && value != []
  {
    if value[0] == HELLO_ACK then OnHelloAck(c, value, env)
    else if value[0] == FILE_READY then OnFileReady(c, value, env)
    else if value[0] == FILE_RECEIVED then OnFileReceived(c, value, env)
    else if value[0] == REPLY_START then OnReplyStart(c, value, env)
    else if value[0] == REPLY_DATA then OnReplyData(c, value, env)
    else if value[0] == REPLY_END then OnReplyEnd(c, value, env)
    else if value[0] == COMPLETE_ACK then OnCompleteAck(c, value, env)
    else c
  }

  predicate Over(p: Phase) {
    p.Closing? || p.Idle?
  }

  /** `handle_notification`. */
  function Notification(c: Client, value: seq<Byte>, env: Env): Client
    requires Bounded(c)
  {
    if value == [] || Over(c.st.phase) then c
    else if value[0] == ERROR then Failed(c, env)
    else if Writing(c.st.phase) then
      if |value| > PACKET_SIZE || c.pending != [] then Failed(c, env) else c.(pending := value)
    else Answer(c, value, env)
  }

  // Completed queries and writes.

  predicate Expecting(p: Phase) {
    p.DiscoverService? || p.DiscoverCharacteristic? || p.EnableNotifications? || Writing(p)
  }

  function Query(c: Client, env: Env): Client {
    if env.start then c else Failed(c, env)
  }

  function ServicesKnown(c: Client, env: Env): Client {
    if !c.st.serviceFound then Failed(c, env)
    else Query(c.(st := c.st.(characteristicFound := false, phase := DiscoverCharacteristic)), env)
  }

  function CharacteristicsKnown(c: Client, env: Env): Client {
    if !c.st.characteristicFound then Failed(c, env)
    else Query(c.(st := c.st.(listening := true, phase := EnableNotifications)), env)
  }

  /** The phase that waits for the answer to a write. */
  function WaitPhase(p: Phase): (w: Phase)
    ensures !w.Scanning? || w == p
  {
    match p
    case WriteHello => WaitHelloAck
    case WriteFileStart => WaitFileReady
    case WriteFileEnd => WaitFileReceived
    case WriteReplyRequest => WaitReplyStart
    case WriteReplyNext => WaitReplyPiece
    case WriteComplete => WaitCompleteAck
    case _ => p
  }

  /** What the end of the current query or write leads to, before any notification kept for it. */
  function Completed(c: Client, env: Env): Client
    requires Bounded(c)
  {
    if c.st.phase.DiscoverService? then ServicesKnown(c, env)
    else if c.st.phase.DiscoverCharacteristic? then CharacteristicsKnown(c, env)
    else if c.st.phase.EnableNotifications? then Write(c, [HELLO, PROTOCOL_VERSION, BEACON_ID], WriteHello, env)
    else if c.st.phase.WriteFileData? then WriteNextChunk(c, env)
    else SetPhase(c, WaitPhase(c.st.phase))
  }

  /** A notification that came before its write completed is taken up afterwards. */
  function TakePending(c: Client, env: Env): Client
    requires Bounded(c)
  {
    if c.pending != [] && !Writing(c.st.phase) then Notification(c.(pending := []), c.pending, env) else c
  }

  function QueryComplete(c: Client, ok: bool, env: Env): Client
    requires Bounded(c)
  {
    if !ok then Failed(c, env)
    else if !Expecting(c.st.phase) then c
    else
      BoundedCompleted(c, env);
      TakePending(Completed(c, env), env)
  }

  lemma BoundedFailed(c: Client, env: Env)
    requires Bounded(c)
    ensures Bounded(Failed(c, env))
  {}

  lemma BoundedWrite(c: Client, packet: seq<Byte>, phase: Phase, env: Env)
    requires Bounded(c) && !phase.Scanning?
    ensures Bounded(Write(c, packet, phase, env))
  {
    BoundedFailed(SetPhase(c, phase).(tx := packet, shown := c.shown.(written := c.shown.written + 1)), env);
  }

  lemma BoundedChunk(c: Client, env: Env)
    requires Bounded(c)
    ensures Bounded(WriteNextChunk(c, env))
  {
    hide Write, FilesBounded;
    var phase := if c.files.robotOffset == |c.files.robot| then WriteFileEnd else WriteFileData;
    BoundedWrite(c.(files := AfterPacket(c.files)), NextPacket(c.files), phase, env);
  }

  lemma BoundedSetup(c: Client, env: Env)
    requires Bounded(c)
    ensures Bounded(ServicesKnown(c, env)) && Bounded(CharacteristicsKnown(c, env))
  {
    hide Failed;
    BoundedFailed(c, env);
    BoundedFailed(c.(st := c.st.(characteristicFound := false, phase := DiscoverCharacteristic)), env);
    BoundedFailed(c.(st := c.st.(listening := true, phase := EnableNotifications)), env);
  }

  lemma BoundedCompleted(c: Client, env: Env)
    requires Bounded(c)
    ensures Bounded(Completed(c, env))
  {
    hide Write, WriteNextChunk, ServicesKnown, CharacteristicsKnown, NearBounded, FilesBounded;
    BoundedSetup(c, env);
    BoundedWrite(c, [HELLO, PROTOCOL_VERSION, BEACON_ID], WriteHello, env);
    BoundedChunk(c, env);
  }

  // The radio.

  /** `begin_connection`. */
  function BeginConnection(c: Client, env: Env): Client {
    if env.connect then SetPhase(c, Connecting) else Failed(SetPhase(c, Idle), env)
  }

  /** `start_attempt_callback`. */
  function StartAttempt(c: Client, env: Env): Client {
    if c.st.abort then FinishWith(c, Fatal, c.st.verified)
    else
      var d := c.(st := c.st.(closeConfirmed := c.st.reconnect && c.st.closeConfirmed, scanConfirmed := false, verified := false),
                  near := Proximity(c.near.threshold, seq(SAMPLES, _ => 0), 0, 0, 0),
                  files := c.files.(replyLength := 0, replyOffset := 0), pending := [], shown := Proof(c.shown.written, [], false));
      if c.st.reconnect then BeginConnection(d, env) else SetPhase(d, Scanning)
  }

  /** `abort_attempt_callback`. */
  function AbortAttempt(c: Client, stop: bool, env: Env): Client {
    if !c.st.running || c.st.phase.StoppingScan? || c.st.phase.Closing? then c
    else Close(c, if stop then Fatal else Interrupted(c), env)
  }

  /** The scan command has been carried out, or has failed. */
  function ScanCommand(c: Client, ok: bool, env: Env): Client {
    if !ok || (c.st.phase.StoppingForConnect? && c.st.abort) then FinishWith(c, Fatal, c.st.verified)
    else if c.st.phase.Scanning? then c.(st := c.st.(scanConfirmed := true))
    else if c.st.phase.StoppingForConnect? then BeginConnection(c, env)
    else if c.st.phase.StoppingScan? then Finish(c)
    else c
  }

  /** A reading goes into the ring; from the twelfth on the filtered average is judged. */
  function AfterReading(p: Proximity, rssi: int): Proximity
    requires NearBounded(p) && -127 < rssi < 0
  {
    var samples := p.samples[p.sampleIndex := Encode(rssi)];
    var count := if p.sampleCount < SAMPLES then p.sampleCount + 1 else p.sampleCount;
    p.(samples := samples, sampleIndex := (p.sampleIndex + 1) % SAMPLES, sampleCount := count,
       closeCount := if count < SAMPLES then p.closeCount
                     else if FilteredRssi(samples) >= p.threshold then p.closeCount + 1 else 0)
  }

  /** `advertisement_received`. */
  function Advertisement(c: Client, target: bool, rssi: int): Client
    requires Bounded(c)
  {
    if !c.st.phase.Scanning? || c.st.abort || !target || !(-127 < rssi < 0) then c
    else
      var near := AfterReading(c.near, rssi);
      var close := near.sampleCount == SAMPLES && near.closeCount >= REQUIRED_CLOSE_AVERAGES;
      c.(near := near,
         st := if close then c.st.(closeConfirmed := true, phase := StoppingForConnect) else c.st)
  }

  /** `connection_complete`. */
  function Connected(c: Client, ok: bool, handle: Handle, env: Env): Client {
    if !c.st.phase.Connecting? && !c.st.phase.Closing? then c
    else if !ok then
      if c.st.phase.Closing? then Finish(c) else Failed(SetPhase(c, Idle).(connection := INVALID), env)
    else if c.st.abort || c.st.phase.Closing? then SetPhase(c, Closing).(connection := handle)
    else Query(c.(st := c.st.(serviceFound := false, phase := DiscoverService), connection := handle), env)
  }

  function Disconnected(c: Client, handle: Handle): Client {
    if handle != c.connection then c
    else if c.st.phase.Closing? then Finish(c)
    else FinishWith(c, Interrupted(c), false)
  }

  // Events.

  datatype RadioEvent =
    | Begin(again: bool, stop: bool)                              // the main loop starts an attempt
    | Start                                                       // the run loop calls the start callback
    | RequestAbort                                                // the main loop gives up
    | Abort(stop: bool)                                           // the run loop calls the abort callback
    | ScanDone(ok: bool)
    | Advert(target: bool, rssi: int)
    | ConnectionDone(ok: bool, handle: Handle)
    | Disconnection(handle: Handle)
    | ServiceFound(handle: Handle)
    | CharacteristicFound(handle: Handle)
    | QueryDone(handle: Handle, ok: bool)
    | Notify(handle: Handle, ours: bool, value: seq<Byte>)

  /** The entry of `run_attempt`: an attempt under way, a pressed STOP or a radio that is not ready
      (either is `stop` here), or a retry without a qualified beacon refuse. */
  predicate Refused(c: Client, again: bool, stop: bool) {
    c.st.running || stop || (again && (!c.st.closeConfirmed || !c.st.phase.Idle? || c.st.result != Retry))
  }

  function BeginAttempt(c: Client, again: bool): Client {
    c.(st := c.st.(reconnect := again, abort := false, closeConfirmed := again && c.st.closeConfirmed, running := true,
                   phase := Starting),
       due := c.due.(start := true))
  }

  /** `gatt_handler` listens only while an attempt is open. */
  predicate Deaf(c: Client, handle: Handle) {
    c.st.abort || Over(c.st.phase) || handle != c.connection
  }

  function Deliver(c: Client, e: RadioEvent, env: Env): Client
    requires Bounded(c)
  {
    match e
    case Begin(again, stop) => if Refused(c, again, stop) then c else BeginAttempt(c, again)
    case Start => if c.due.start then StartAttempt(c.(due := c.due.(start := false)), env) else c
    case RequestAbort => if c.st.running then c.(st := c.st.(abort := true), due := c.due.(abort := true)) else c
    case Abort(stop) => if c.due.abort then AbortAttempt(c.(due := c.due.(abort := false)), stop, env) else c
    case ScanDone(ok) => ScanCommand(c, ok, env)
    case Advert(target, rssi) => Advertisement(c, target, rssi)
    case ConnectionDone(ok, handle) => Connected(c, ok, handle, env)
    case Disconnection(handle) => Disconnected(c, handle)
    case ServiceFound(handle) =>
      if Deaf(c, handle) || !c.st.phase.DiscoverService? then c else c.(st := c.st.(serviceFound := true))
    case CharacteristicFound(handle) =>
      if Deaf(c, handle) || !c.st.phase.DiscoverCharacteristic? then c else c.(st := c.st.(characteristicFound := true))
    case QueryDone(handle, ok) => if Deaf(c, handle) then c else QueryComplete(c, ok, env)
    case Notify(handle, ours, value) => if Deaf(c, handle) || !ours then c else Notification(c, value, env)
  }

  lemma BoundedConnection(c: Client, env: Env)
    requires Bounded(c)
    ensures Bounded(BeginConnection(c, env))
  {
    BoundedFailed(SetPhase(c, Idle), env);
  }

  lemma BoundedStart(c: Client, env: Env)
    requires Bounded(c)
    ensures Bounded(StartAttempt(c, env))
  {
    hide BeginConnection;
    var d := c.(st := c.st.(closeConfirmed := c.st.reconnect && c.st.closeConfirmed, scanConfirmed := false, verified := false),
                near := Proximity(c.near.threshold, seq(SAMPLES, _ => 0), 0, 0, 0),
                files := c.files.(replyLength := 0, replyOffset := 0), pending := [], shown := Proof(c.shown.written, [], false));
    BoundedConnection(d, env);
  }

  lemma BoundedAnswer(c: Client, value: seq<Byte>, env: Env)
    requires Bounded(c) && value != []
    ensures Bounded(Answer(c, value, env))
  {
    hide Write, Failed, WriteNextChunk, GoodChunk, GoodEnd, FilesBounded, NearBounded;
    BoundedFailed(c, env);
    BoundedChunk(c, env);
    BoundedWrite(c, [REPLY_REQUEST], WriteReplyRequest, env);
    if value[0] == HELLO_ACK {
      BoundedHelloAck(c, value, env);
    } else if value[0] == REPLY_START {
      BoundedReplyStart(c, value, env);
    } else if value[0] == REPLY_DATA && GoodChunk(c.files, value) {
      BoundedWrite(c.(files := AfterChunk(c.files, value)), [REPLY_NEXT], WriteReplyNext, env);
    } else if value[0] == REPLY_END {
      BoundedWrite(c.(shown := c.shown.(checked := ReplyText(c.files))), [COMPLETE], WriteComplete, env);
    } else if value[0] == COMPLETE_ACK {
      BoundedAck(c, value, env);
    }
  }

  lemma BoundedHelloAck(c: Client, value: seq<Byte>, env: Env)
    requires Bounded(c)
    ensures Bounded(OnHelloAck(c, value, env))
  {
    hide Write, Failed;
    BoundedFailed(c, env);
    BoundedWrite(c.(files := c.files.(robotOffset := 0, robotSequence := 0, robotCrc := Crc32(c.files.robot))),
                 StartPacket(c.files.robot), WriteFileStart, env);
  }

  lemma BoundedReplyStart(c: Client, value: seq<Byte>, env: Env)
    requires Bounded(c)
    ensures Bounded(OnReplyStart(c, value, env))
  {
    hide Write, Failed;
    BoundedFailed(c, env);
    if |value| == 7 && 1 <= ReadU16(value[1..3]) <= MAX_FILE {
      var f := c.files.(replyLength := ReadU16(value[1..3]), replyCrc := ReadU32(value[3..]), replyOffset := 0, replySequence := 0);
      BoundedWrite(c.(files := f), [REPLY_NEXT], WriteReplyNext, env);
    }
  }

  lemma BoundedAck(c: Client, value: seq<Byte>, env: Env)
    requires Bounded(c)
    ensures Bounded(OnCompleteAck(c, value, env))
  {
    BoundedFailed(c, env);
  }

  lemma BoundedNotification(c: Client, value: seq<Byte>, env: Env)
    requires Bounded(c)
    ensures Bounded(Notification(c, value, env))
  {
    hide Failed, Answer, FilesBounded, NearBounded;
    BoundedFailed(c, env);
    if value != [] { BoundedAnswer(c, value, env); }
  }

  lemma BoundedQuery(c: Client, ok: bool, env: Env)
    requires Bounded(c)
    ensures Bounded(QueryComplete(c, ok, env))
  {
    hide Failed, Completed, Notification, FilesBounded, NearBounded;
    BoundedFailed(c, env);
    BoundedCompleted(c, env);
    var d := Completed(c, env);
    BoundedNotification(d.(pending := []), d.pending, env);
  }

  lemma BoundedConnected(c: Client, ok: bool, handle: Handle, env: Env)
    requires Bounded(c)
    ensures Bounded(Connected(c, ok, handle, env))
  {
    hide Failed;
    BoundedFailed(SetPhase(c, Idle).(connection := INVALID), env);
    BoundedFailed(c.(st := c.st.(serviceFound := false, phase := DiscoverService), connection := handle), env);
  }

  lemma BoundedScan(c: Client, ok: bool, env: Env)
    requires Bounded(c)
    ensures Bounded(ScanCommand(c, ok, env))
  {
    hide BeginConnection;
    BoundedConnection(c, env);
  }

  /** Whatever happens, no counter outgrows its bit field and no offset its buffer. */
  lemma BoundedDeliver(c: Client, e: RadioEvent, env: Env)
    requires Bounded(c)
    ensures Bounded(Deliver(c, e, env))
  {
    hide StartAttempt, QueryComplete, Notification, Connected, ScanCommand, FilesBounded;
    match e
    case Start => BoundedStart(c.(due := c.due.(start := false)), env);
    case ScanDone(ok) => BoundedScan(c, ok, env);
    case ConnectionDone(ok, handle) => BoundedConnected(c, ok, handle, env);
    case QueryDone(_, ok) => BoundedQuery(c, ok, env);
    case Notify(_, _, value) => BoundedNotification(c, value, env);
    case _ =>
  }
}
