/** The beacon's side of a transfer: what each write of the robot makes of its state. */
module BeaconServer {
  import opened Bytes
  import opened Crc
  import opened Protocol

  const REPLY_BUFFER: nat := 64
  const NO_CONNECTION: nat := 0xFFFF

  datatype Progress = Advertising | Linked | Ready | Handshake | Receiving | FileVerified | SendingReply | Finished | Fault

  /** `received` is the part of the receive buffer that counts, `reply` that of the reply
      buffer; `text` is what the beacon answers with. */
  datatype Server = Server(
    progress: Progress, connection: nat, notifying: bool, pending: seq<Byte>,
    expectedLength: nat, expectedCrc: Word, received: seq<Byte>, expectedSequence: Byte,
    text: seq<Byte>, reply: seq<Byte>, replyOffset: nat, replySequence: Byte)

  /** Between two robots. */
  function Idle(text: seq<Byte>): Server {
    Server(Advertising, NO_CONNECTION, false, [], 0, 0, [], 0, text, [], 0, 0)
  }

  /** The bytes received are within the receive buffer. */
  predicate InBuffer(s: Server) {
    |s.received| <= MAX_FILE
  }

  /** `queue_notification`. */
  function Queue(s: Server, packet: seq<Byte>): Server {
    if !s.notifying || s.connection == NO_CONNECTION then s
    else s.(pending := if |packet| > PACKET_SIZE then packet[..PACKET_SIZE] else packet)
  }

  /** `reset_transfer`. */
  function Reset(s: Server): Server {
    s.(expectedLength := 0, received := [], expectedCrc := 0, expectedSequence := 0, replyOffset := 0, replySequence := 0)
  }

  function Reject(s: Server, code: Byte): Server {
    Queue(s.(progress := Fault), [ERROR, code])
  }

  // The reply, one piece per request.

  function Announcement(reply: seq<Byte>): seq<Byte>
    requires |reply| < 0x1_0000
  {
    [REPLY_START] + U16(|reply|) + U32(Crc32(reply))
  }

  function Ending(reply: seq<Byte>): seq<Byte> {
    [REPLY_END] + U32(Crc32(reply))
  }

  function Piece(reply: seq<Byte>, offset: nat, sequence: Byte): seq<Byte>
    requires offset <= |reply|
  {
    var chunk := ChunkOf(|reply| - offset);
    [REPLY_DATA, sequence, chunk] + reply[offset..offset + chunk]
  }

  function Decrement(b: Byte): Byte {
    if b == 0 then 0xFF else b - 1
  }

  predicate ReplyFits(s: Server) {
    |s.reply| < REPLY_BUFFER && s.replyOffset <= |s.reply| && |s.text| < REPLY_BUFFER
  }

  /** `send_reply_piece`. */
  function SendReply(s: Server): Server
    requires ReplyFits(s)
  {
    if s.replyOffset == 0 && s.replySequence == 0 then Queue(s.(replySequence := 1), Announcement(s.reply))
    else if s.replyOffset < |s.reply| then
      var chunk := ChunkOf(|s.reply| - s.replyOffset);
      Queue(s.(replyOffset := s.replyOffset + chunk, replySequence := Increment(s.replySequence)),
            Piece(s.reply, s.replyOffset, Decrement(s.replySequence)))
    else Queue(s, Ending(s.reply))
  }

  // What the robot writes.

  function OnHello(s: Server, value: seq<Byte>): Server {
    if |value| < 3 || value[1] != PROTOCOL_VERSION || value[2] != BEACON_ID then Reject(s, 1)
    else Queue(Reset(s).(progress := Handshake), [HELLO_ACK, BEACON_ID])
  }

  /** The announced length is stored before it is checked. */
  function OnFileStart(s: Server, value: seq<Byte>): Server {
    if |value| < 7 then Reject(s, 2)
    else
      var t := s.(expectedLength := ReadU16(value[1..3]), expectedCrc := ReadU32(value[3..7]), received := [], expectedSequence := 0);
      if t.expectedLength > MAX_FILE then Reject(t, 3)
      else Queue(t.(progress := Receiving), [FILE_READY, BEACON_ID])
  }

  function OnFileData(s: Server, value: seq<Byte>): Server {
    if |value| < 3 then Reject(s, 4)
    else
      var chunk := value[2] as nat;
      if value[1] != s.expectedSequence || chunk > DATA_BYTES || |value| != 3 + chunk
         || |s.received| + chunk > s.expectedLength
      then Reject(s, 5)
      else s.(received := s.received + value[3..], expectedSequence := Increment(s.expectedSequence))
  }

  function Verdict(s: Server): seq<Byte> {
    var valid := |s.received| == s.expectedLength && Crc32(s.received) == s.expectedCrc;
    var flag: Byte := if valid then 0 else 1;
    [FILE_RECEIVED, flag] + U32(Crc32(s.received))
  }

  function OnFileEnd(s: Server): Server {
    var valid := |s.received| == s.expectedLength && Crc32(s.received) == s.expectedCrc;
    Queue(s.(progress := if valid then FileVerified else Fault), Verdict(s))
  }

  function OnReplyRequest(s: Server): Server
    requires ReplyFits(s)
  {
    SendReply(s.(reply := s.text, replyOffset := 0, replySequence := 0, progress := SendingReply))
  }

  /** `att_write_callback` for the transfer characteristic. */
  function OnWrite(s: Server, value: seq<Byte>): Server
    requires ReplyFits(s)
  {
    if value == [] then s
    else if value[0] == HELLO then OnHello(s, value)
    else if value[0] == FILE_START then OnFileStart(s, value)
    else if value[0] == FILE_DATA then OnFileData(s, value)
    else if value[0] == FILE_END then OnFileEnd(s)
    else if value[0] == REPLY_REQUEST then OnReplyRequest(s)
    else if value[0] == REPLY_NEXT then SendReply(s)
    else if value[0] == COMPLETE then Queue(s.(progress := Finished), [COMPLETE_ACK, BEACON_ID])
    else Reject(s, 6)
  }

  /** `att_write_callback` for the subscription. */
  function OnSubscribe(s: Server, value: seq<Byte>, connection: nat): Server {
    var on := |value| >= 2 && ReadU16(value[..2]) == 1;
    s.(notifying := on, connection := connection, progress := if on then Ready else Linked)
  }

  function OnLink(s: Server, connection: nat): Server {
    s.(connection := connection, progress := Linked)
  }

  function OnDisconnect(s: Server): Server {
    Reset(s).(connection := NO_CONNECTION, notifying := false, pending := [], progress := Advertising)
  }

  lemma SendStaysFitting(s: Server)
    requires ReplyFits(s)
    ensures ReplyFits(SendReply(s)) && SendReply(s).text == s.text
  {}

  lemma HelloStaysFitting(s: Server, value: seq<Byte>)
    requires ReplyFits(s)
    ensures ReplyFits(OnHello(s, value)) && OnHello(s, value).text == s.text
    ensures ReplyFits(OnFileEnd(s)) && OnFileEnd(s).text == s.text
  {}

  lemma FileStaysFitting(s: Server, value: seq<Byte>)
    requires ReplyFits(s)
    ensures ReplyFits(OnFileStart(s, value)) && OnFileStart(s, value).text == s.text
    ensures ReplyFits(OnFileData(s, value)) && OnFileData(s, value).text == s.text
  {}

  /** The reply the beacon keeps always fits its buffer, and what it answers with never changes. */
  lemma ReplyStaysFitting(s: Server, value: seq<Byte>)
    requires ReplyFits(s)
    ensures ReplyFits(OnWrite(s, value)) && OnWrite(s, value).text == s.text
  {
    hide OnHello, OnFileStart, OnFileData, OnFileEnd, SendReply;
    HelloStaysFitting(s, value);
    FileStaysFitting(s, value);
    SendStaysFitting(s);
    var t := s.(reply := s.text, replyOffset := 0, replySequence := 0, progress := SendingReply);
    SendStaysFitting(t);
  }

  function Bytes17(n: nat): (s: seq<Byte>)
    requires n <= DATA_BYTES
    ensures |s| == n
  {
    seq(n, _ => 0)
  }

  /** When the beacon's own check keeps every further chunk within the receive buffer: exactly if
      the announced length does, or even a full chunk still has room. */
  lemma ChunksFit(s: Server)
    requires InBuffer(s)
    ensures (forall value :: InBuffer(OnFileData(s, value)))
            <==> s.expectedLength <= MAX_FILE || |s.received| + DATA_BYTES <= MAX_FILE
  {
    if s.expectedLength > MAX_FILE && |s.received| + DATA_BYTES > MAX_FILE {
      var room: nat := s.expectedLength - |s.received|;
      var chunk: Byte := if room < DATA_BYTES then room else DATA_BYTES;
      var value := [FILE_DATA, s.expectedSequence, chunk] + Bytes17(chunk as nat);
      assert value[3..] == Bytes17(chunk as nat);
      assert !InBuffer(OnFileData(s, value));
    }
  }

  /** A write that announces no more than the buffer holds. */
  predicate Announces(value: seq<Byte>) {
    |value| >= 7 && value[0] == FILE_START ==> ReadU16(value[1..3]) <= MAX_FILE
  }

  function AfterWrites(s: Server, writes: seq<seq<Byte>>): (t: Server)
    requires ReplyFits(s)
    ensures ReplyFits(t)
  {
    if writes == [] then s
    else
      var n := |writes| - 1;
      ReplyStaysFitting(AfterWrites(s, writes[..n]), writes[n]);
      OnWrite(AfterWrites(s, writes[..n]), writes[n])
  }

  lemma OneWriteFits(s: Server, value: seq<Byte>)
    requires ReplyFits(s) && InBuffer(s) && s.expectedLength <= MAX_FILE && Announces(value)
    ensures InBuffer(OnWrite(s, value)) && OnWrite(s, value).expectedLength <= MAX_FILE
  {
    hide Queue;
    QueueOnlyQueues(s);
  }

  lemma QueueOnlyQueues(s: Server)
    ensures forall t, packet :: Queue(t, packet).received == t.received && Queue(t, packet).expectedLength == t.expectedLength
  {}

  /** As long as no longer file is announced, no sequence of writes, well-formed or not, ever
      leads out of the receive buffer. */
  lemma {:induction false} WritesStayInBuffer(s: Server, writes: seq<seq<Byte>>)
    requires ReplyFits(s) && InBuffer(s) && s.expectedLength <= MAX_FILE
    requires forall k :: 0 <= k < |writes| ==> Announces(writes[k])
    ensures InBuffer(AfterWrites(s, writes)) && AfterWrites(s, writes).expectedLength <= MAX_FILE
  {
    if writes != [] {
      var n := |writes| - 1;
      WritesStayInBuffer(s, writes[..n]);
      OneWriteFits(AfterWrites(s, writes[..n]), writes[n]);
    }
  }

  // What a transfer leaves behind, and what it takes.

  /** Two beacons whose link and reply agree, whatever transfer they were in. */
  predicate SameLink(s: Server, t: Server) {
    && s.connection == t.connection && s.notifying == t.notifying && s.pending == t.pending
    && s.text == t.text && s.reply == t.reply
  }

  /** An accepted HELLO makes the beacon forget how far any earlier transfer had got. */
  lemma HelloForgets(s: Server, t: Server, value: seq<Byte>)
    requires SameLink(s, t) && |value| >= 3 && value[1] == PROTOCOL_VERSION && value[2] == BEACON_ID
    ensures OnHello(s, value) == OnHello(t, value)
  {}

  predicate Small(chunks: seq<seq<Byte>>) {
    forall k :: 0 <= k < |chunks| ==> |chunks[k]| <= DATA_BYTES
  }

  function DataPacket(sequence: Byte, chunk: seq<Byte>): seq<Byte>
    requires |chunk| <= DATA_BYTES
  {
    var length: Byte := |chunk|;
    [FILE_DATA, sequence, length] + chunk
  }

  /** FILE_DATA writes numbered from 0 on, around after 255. */
  function TakeChunks(s: Server, chunks: seq<seq<Byte>>): Server
    requires Small(chunks)
  {
    if chunks == [] then s
    else
      var n := |chunks| - 1;
      OnFileData(TakeChunks(s, chunks[..n]), DataPacket(n % 0x100, chunks[n]))
  }

  lemma OneChunk(s: Server, n: nat, chunk: seq<Byte>)
    requires |chunk| <= DATA_BYTES && s.expectedSequence == n % 0x100
    ensures var t := OnFileData(s, DataPacket(n % 0x100, chunk));
      if |s.received| + |chunk| <= s.expectedLength
      then t == s.(received := s.received + chunk, expectedSequence := (n + 1) % 0x100)
      else t.received == s.received && t.progress.Fault?
  {
    assert DataPacket(n % 0x100, chunk)[3..] == chunk;
    hide Queue;
    QueueOnlyQueues(s);
    assert Reject(s, 5).progress.Fault? by { QueueKeepsProgress(s.(progress := Fault), [ERROR, 5]); }
  }

  lemma QueueKeepsProgress(s: Server, packet: seq<Byte>)
    ensures Queue(s, packet).progress == s.progress
  {}

  /** Chunks of any sizes that make up no more than was announced are all received, in order and
      without gaps, however often the sequence number wraps. */
  lemma {:induction false} ChunksReceived(s: Server, chunks: seq<seq<Byte>>)
    requires s.received == [] && s.expectedSequence == 0
    requires Small(chunks) && |Concat(chunks)| <= s.expectedLength
    ensures TakeChunks(s, chunks) == s.(received := Concat(chunks), expectedSequence := |chunks| % 0x100)
  {
    if chunks != [] {
      var n := |chunks| - 1;
      ChunksReceived(s, chunks[..n]);
      hide OnFileData;
      OneChunk(TakeChunks(s, chunks[..n]), n, chunks[n]);
    }
  }

  /** A file announced and sent in any chunks is verified exactly if what was sent has the
      announced length and CRC. */
  lemma VerifiedIff(s: Server, length: nat, crc: Word, chunks: seq<seq<Byte>>)
    requires length <= MAX_FILE && Small(chunks) && |Concat(chunks)| <= length
    ensures var announced := OnFileStart(s, [FILE_START] + U16(length) + U32(crc));
      var taken := TakeChunks(announced, chunks);
      && taken.received == Concat(chunks)
      && (OnFileEnd(taken).progress.FileVerified? <==> |Concat(chunks)| == length && Crc32(Concat(chunks)) == crc)
  {
    var packet := [FILE_START] + U16(length) + U32(crc);
    var announced := OnFileStart(s, packet);
    StartAnnounces(s, length, crc);
    ChunksReceived(announced, chunks);
    hide Queue, OnFileStart;
    var taken := TakeChunks(announced, chunks);
    QueueKeepsProgress(taken.(progress := if |taken.received| == taken.expectedLength && Crc32(taken.received) == taken.expectedCrc
                                          then FileVerified else Fault), Verdict(taken));
  }

  lemma StartAnnounces(s: Server, length: nat, crc: Word)
    requires length <= MAX_FILE
    ensures var announced := OnFileStart(s, [FILE_START] + U16(length) + U32(crc));
      announced.expectedLength == length && announced.expectedCrc == crc && announced.received == [] && announced.expectedSequence == 0
  {
    var packet := [FILE_START] + U16(length) + U32(crc);
    assert packet[1..3] == U16(length) && packet[3..7] == U32(crc);
    U16RoundTrip(length);
    U32RoundTrip(crc);
  }

  // Whatever is written.

  /** A link with a subscriber. */
  predicate Open(s: Server) {
    s.notifying && s.connection != NO_CONNECTION
  }

  /** HELLO is acknowledged exactly for this protocol version and this beacon. */
  lemma HelloAnswered(s: Server, value: seq<Byte>)
    requires Open(s)
    ensures OnHello(s, value).pending ==
      if |value| >= 3 && value[1] == 1 && value[2] == 1 then [0x02, 1] else [0x7F, 1]
  {}

  /** The verdict on a file tells whether it was verified, and the CRC of what was received. */
  lemma VerdictTells(s: Server)
    requires Open(s)
    ensures var t := OnFileEnd(s);
      && |t.pending| == 6 && t.pending[0] == 0x07 && t.pending[2..] == U32(Crc32(s.received))
      && (t.pending[1] == 0 <==> t.progress.FileVerified?)
  {}

  /** A robot is only notified once it has itself subscribed on this connection. */
  lemma NotifiedOnlySubscribed(s: Server, value: seq<Byte>, handle: nat, packet: seq<Byte>)
    ensures Queue(OnDisconnect(s), packet).pending == [] && Queue(OnLink(OnDisconnect(s), handle), packet).pending == []
    ensures OnSubscribe(s, value, handle).notifying <==> |value| >= 2 && value[0] == 1 && value[1] == 0
  {}

  /** FILE_DATA writes of any content, one after the other. */
  function TakeWrites(s: Server, writes: seq<seq<Byte>>): Server {
    if writes == [] then s else OnFileData(TakeWrites(s, writes[..|writes| - 1]), writes[|writes| - 1])
  }

  /** The payloads of the writes that were taken. */
  function Payloads(writes: seq<seq<Byte>>, taken: seq<nat>): seq<Byte>
    requires forall a :: 0 <= a < |taken| ==> taken[a] < |writes| && |writes[taken[a]]| >= 3
  {
    if taken == [] then []
    else Payloads(writes, taken[..|taken| - 1]) + writes[taken[|taken| - 1]][3..]
  }

  /** They were taken in the order they came, and numbered 0, 1, 2 and so on, around after 255. */
  ghost predicate InStep(writes: seq<seq<Byte>>, taken: seq<nat>) {
    && (forall a :: 0 <= a < |taken| ==> taken[a] < |writes| && |writes[taken[a]]| >= 3)
    && (forall a, b :: 0 <= a < b < |taken| ==> taken[a] < taken[b])
    && (forall a :: 0 <= a < |taken| ==> writes[taken[a]][1] as nat == a % 0x100)
  }

  lemma PayloadsMore(writes: seq<seq<Byte>>, w: seq<Byte>, taken: seq<nat>)
    requires InStep(writes, taken)
    ensures InStep(writes + [w], taken) && Payloads(writes + [w], taken) == Payloads(writes, taken)
  {
    if taken != [] { PayloadsMore(writes, w, taken[..|taken| - 1]); }
  }

  /** Whatever is written after a file has been announced: what is received is made up of the
      payloads of some of the writes, in their order, numbered without a gap or a repetition,
      and never more than was announced. */
  lemma {:induction false} ReceivedInStep(s: Server, writes: seq<seq<Byte>>) returns (taken: seq<nat>)
    requires s.received == [] && s.expectedSequence == 0
    ensures InStep(writes, taken)
    ensures var t := TakeWrites(s, writes);
      && t.received == Payloads(writes, taken) && t.expectedSequence as nat == |taken| % 0x100
      && |t.received| <= t.expectedLength == s.expectedLength
  {
    hide OnFileData, Payloads, InStep;
    taken := [];
    if writes == [] {
      NothingTaken();
    } else {
      var before, w := writes[..|writes| - 1], writes[|writes| - 1];
      taken := ReceivedInStep(s, before);
      assert writes == before + [w];
      taken := OneMoreTaken(TakeWrites(s, before), before, w, taken);
    }
  }

  lemma NothingTaken()
    ensures InStep([], []) && Payloads([], []) == []
  {}

  lemma OneMoreTaken(t: Server, before: seq<seq<Byte>>, w: seq<Byte>, taken: seq<nat>) returns (more: seq<nat>)
    requires InStep(before, taken) && t.received == Payloads(before, taken) && t.expectedSequence as nat == |taken| % 0x100
    requires |t.received| <= t.expectedLength
    ensures InStep(before + [w], more)
    ensures var u := OnFileData(t, w);
      && u.received == Payloads(before + [w], more) && u.expectedSequence as nat == |more| % 0x100
      && |u.received| <= u.expectedLength == t.expectedLength
  {
    hide OnFileData, Payloads;
    PayloadsMore(before, w, taken);
    OneWriteTaken(t, w);
    var u := OnFileData(t, w);
    more := taken;
    if !(u.received == t.received && u.expectedSequence == t.expectedSequence) {
      assert (before + [w])[|before|] == w;
      PayloadsSnoc(before + [w], taken, |before|);
      more := taken + [|before|];
      WrapsOn(|taken|);
    }
  }

  lemma WrapsOn(n: nat)
    ensures (n + 1) % 0x100 == if n % 0x100 == 0xFF then 0 else n % 0x100 + 1
  {}

  lemma PayloadsSnoc(writes: seq<seq<Byte>>, taken: seq<nat>, k: nat)
    requires InStep(writes, taken) && k < |writes| && |writes[k]| >= 3
    ensures Payloads(writes, taken + [k]) == Payloads(writes, taken) + writes[k][3..]
  {
    assert (taken + [k])[..|taken|] == taken;
  }

  /** A write is taken whole, in its turn and within the announced length, or not at all. */
  lemma OneWriteTaken(t: Server, w: seq<Byte>)
    ensures var u := OnFileData(t, w);
      && u.expectedLength == t.expectedLength
      && ((u.received == t.received && u.expectedSequence == t.expectedSequence)
          || (&& |w| >= 3 && w[1] == t.expectedSequence && u.received == t.received + w[3..] && |u.received| <= t.expectedLength
              && u.expectedSequence == Increment(t.expectedSequence)))
  {}
}
