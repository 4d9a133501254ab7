/** Robot and beacon joined by a link with one write outstanding at a time: the exchanges of a
    transfer and what each of them leaves on both sides. */
module Transfer {
  import opened Bytes
  import opened Crc
  import opened Protocol
  import opened Trace
  import C = TransferClient
  import opened TransferClient
  import opened BeaconServer

  /** What robot and beacon want to exchange. */
  datatype Job = Job(robot: seq<Byte>, text: seq<Byte>)

  predicate Fits(job: Job) {
    |job.robot| <= MAX_FILE && 1 <= |job.text| < REPLY_BUFFER
  }

  /** The writes of a transfer, in order: chunk k of the file, request j for the reply. */
  datatype Exchange = Hello | FileStart | Chunk(k: nat) | FileEnd | ReplyRequest | ReplyNext(j: nat) | Finale | Done

  predicate Proper(job: Job, x: Exchange) {
    match x
    case Chunk(k) => 17 * k < |job.robot|
    case ReplyNext(j) => j == 0 || 17 * (j - 1) < |job.text|
    case _ => true
  }

  function Upto(offset: nat, length: nat): nat {
    if offset < length then offset else length
  }

  function Succ(job: Job, x: Exchange): (y: Exchange)
    requires Proper(job, x) && !x.Done?
    ensures Proper(job, y)
  {
    match x
    case Hello => FileStart
    case FileStart => if |job.robot| == 0 then FileEnd else Chunk(0)
    case Chunk(k) => if 17 * (k + 1) < |job.robot| then Chunk(k + 1) else FileEnd
    case FileEnd => ReplyRequest
    case ReplyRequest => ReplyNext(0)
    case ReplyNext(j) => if 17 * j < |job.text| then ReplyNext(j + 1) else Finale
    case Finale => Done
  }

  function Small(n: nat): Byte
    requires n < 0x100
  {
    n
  }

  lemma FewPieces(job: Job, x: Exchange)
    requires Fits(job) && Proper(job, x)
    ensures x.Chunk? ==> x.k < 16
    ensures x.ReplyNext? ==> x.j < 5
  {}

  /** The packet of each write. */
  function PacketOf(job: Job, x: Exchange): seq<Byte>
    requires Fits(job) && Proper(job, x) && !x.Done?
  {
    FewPieces(job, x);
    match x
    case Hello => [HELLO, PROTOCOL_VERSION, BEACON_ID]
    case FileStart => StartPacket(job.robot)
    case Chunk(k) =>
      var data := job.robot[17 * k..Upto(17 * (k + 1), |job.robot|)];
      [FILE_DATA, Small(k), Small(|data|)] + data
    case FileEnd => [FILE_END]
    case ReplyRequest => [REPLY_REQUEST]
    case ReplyNext(_) => [REPLY_NEXT]
    case Finale => [COMPLETE]
  }

  /** The notification that answers it; a chunk of the file is not answered. */
  function NoteOf(job: Job, x: Exchange): seq<Byte>
    requires Fits(job) && Proper(job, x) && !x.Done?
  {
    FewPieces(job, x);
    match x
    case Hello => [HELLO_ACK, BEACON_ID]
    case FileStart => [FILE_READY, BEACON_ID]
    case Chunk(_) => []
    case FileEnd => [FILE_RECEIVED, 0] + U32(Crc32(job.robot))
    case ReplyRequest => Announcement(job.text)
    case ReplyNext(j) => if 17 * j < |job.text| then Piece(job.text, 17 * j, Small(j)) else Ending(job.text)
    case Finale => [COMPLETE_ACK, BEACON_ID]
  }

  function PhaseOf(x: Exchange): Phase {
    match x
    case Hello => WriteHello
    case FileStart => WriteFileStart
    case Chunk(_) => WriteFileData
    case FileEnd => WriteFileEnd
    case ReplyRequest => WriteReplyRequest
    case ReplyNext(_) => WriteReplyNext
    case Finale => WriteComplete
    case Done => Closing
  }

  // What the beacon holds before each write.

  predicate FileAnnounced(job: Job, s: Server) {
    s.expectedLength == |job.robot| && s.expectedCrc == Crc32(job.robot)
  }

  predicate ServerAt(job: Job, s: Server, x: Exchange)
    requires Fits(job) && Proper(job, x)
  {
    && ReplyFits(s) && s.text == job.text && s.notifying && s.connection != NO_CONNECTION && s.pending == []
    && match x
       case Hello => true
       case FileStart => true
       case Chunk(k) => FileAnnounced(job, s) && s.received == job.robot[..17 * k] && s.expectedSequence == k
       case FileEnd => FileAnnounced(job, s) && s.received == job.robot
       case ReplyRequest => s.received == job.robot
       case ReplyNext(j) =>
         && s.received == job.robot && s.reply == job.text && s.replyOffset == Upto(17 * j, |job.text|)
         && s.replySequence == j + 1
       case Finale => s.received == job.robot
       case Done => s.received == job.robot
  }

  predicate ServerTook(job: Job, s: Server, x: Exchange)
    requires Fits(job) && Proper(job, x) && !x.Done?
  {
    s.pending == NoteOf(job, x) && ServerAt(job, s.(pending := []), Succ(job, x))
  }

  lemma NoteFits(job: Job, x: Exchange)
    requires Fits(job) && Proper(job, x) && !x.Done?
    ensures |NoteOf(job, x)| <= PACKET_SIZE
    ensures x.Chunk? <==> NoteOf(job, x) == []
    ensures NoteOf(job, x) != [] ==> NoteOf(job, x)[0] != ERROR
  {}

  lemma ServerTakesChunk(job: Job, s: Server, k: nat)
    requires Fits(job) && Proper(job, Chunk(k)) && ServerAt(job, s, Chunk(k))
    ensures ServerTook(job, OnWrite(s, PacketOf(job, Chunk(k))), Chunk(k))
  {
    FewPieces(job, Chunk(k));
    var to := Upto(17 * (k + 1), |job.robot|);
    var data := job.robot[17 * k..to];
    var packet := PacketOf(job, Chunk(k));
    assert packet[3..] == data;
    assert job.robot[..17 * k] + data == job.robot[..to];
    assert job.robot[..|job.robot|] == job.robot;
  }

  lemma ServerTakesStart(job: Job, s: Server)
    requires Fits(job) && ServerAt(job, s, FileStart)
    ensures ServerTook(job, OnWrite(s, PacketOf(job, FileStart)), FileStart)
  {
    var packet := PacketOf(job, FileStart);
    assert packet[1..3] == U16(|job.robot|) && packet[3..7] == U32(Crc32(job.robot));
    U16RoundTrip(|job.robot|);
    U32RoundTrip(Crc32(job.robot));
    assert job.robot[..0] == [];
  }

  lemma ServerTakesNext(job: Job, s: Server, j: nat)
    requires Fits(job) && Proper(job, ReplyNext(j)) && ServerAt(job, s, ReplyNext(j))
    ensures ServerTook(job, OnWrite(s, PacketOf(job, ReplyNext(j))), ReplyNext(j))
  {
    FewPieces(job, ReplyNext(j));
  }

  /** One write moves the beacon to the next exchange and makes it answer as it should. */
  lemma ServerTakes(job: Job, s: Server, x: Exchange)
    requires Fits(job) && Proper(job, x) && !x.Done? && ServerAt(job, s, x)
    ensures ServerTook(job, OnWrite(s, PacketOf(job, x)), x)
  {
    match x
    case Chunk(k) => ServerTakesChunk(job, s, k);
    case FileStart => ServerTakesStart(job, s);
    case ReplyNext(j) => ServerTakesNext(job, s, j);
    case _ =>
  }

  /** No write of a transfer leads out of the beacon's receive buffer, whatever was in it. */
  lemma WriteFitsBuffer(job: Job, s: Server, x: Exchange)
    requires Fits(job) && Proper(job, x) && !x.Done? && ServerAt(job, s, x)
    ensures InBuffer(OnWrite(s, PacketOf(job, x)))
  {
    ServerTakes(job, s, x);
    if x.FileStart? { assert OnWrite(s, PacketOf(job, x)).received == []; }
  }

  // What the robot holds while each write is on its way.

  const Willing: Env := Env(true, true, true)

  predicate ReplyUpto(job: Job, f: Files, offset: nat) {
    && FilesBounded(f) && offset <= |job.text| && f.replyOffset == offset && f.replyLength == |job.text|
    && f.reply[..offset] == job.text[..offset]
  }

  predicate FilesAt(job: Job, f: Files, x: Exchange)
    requires Proper(job, x)
  {
    && FilesBounded(f) && f.robot == job.robot
    && match x
       case Hello => true
       case FileStart => f.robotOffset == 0 && f.robotSequence == 0 && f.robotCrc == Crc32(job.robot)
       case Chunk(k) =>
         f.robotOffset == Upto(17 * (k + 1), |job.robot|) && f.robotSequence == k + 1 && f.robotCrc == Crc32(job.robot)
       case FileEnd => f.robotCrc == Crc32(job.robot)
       case ReplyRequest => true
       case ReplyNext(j) => ReplyUpto(job, f, Upto(17 * j, |job.text|)) && f.replySequence == j && f.replyCrc == Crc32(job.text)
       case Finale => ReplyUpto(job, f, |job.text|)
       case Done => ReplyUpto(job, f, |job.text|)
  }

  predicate ClientAt(job: Job, c: Client, x: Exchange)
    requires Fits(job) && Proper(job, x)
  {
    && Bounded(c) && c.st.phase == PhaseOf(x) && !c.st.abort && c.connection != INVALID && c.pending == []
    && FilesAt(job, c.files, x)
    && if x.Done? then c.st.closing == Complete && c.shown.acked else c.tx == PacketOf(job, x)
  }

  /** The same, with the write completed and its answer outstanding. */
  function Waits(c: Client): Client {
    SetPhase(c, WaitPhase(c.st.phase))
  }

  /** Writes from this exchange on. */
  function WritesFrom(job: Job, x: Exchange): nat
    requires Fits(job) && Proper(job, x)
    decreases Rank(job, x)
  {
    if x.Done? then 0 else 1 + WritesFrom(job, Succ(job, x))
  }

  function Rank(job: Job, x: Exchange): nat
    requires Fits(job) && Proper(job, x)
  {
    FewPieces(job, x);
    match x
    case Hello => 30
    case FileStart => 29
    case Chunk(k) => 28 - k
    case FileEnd => 12
    case ReplyRequest => 11
    case ReplyNext(j) => 10 - j
    case Finale => 1
    case Done => 0
  }

  ghost predicate Advanced(job: Job, c: Client, d: Client, x: Exchange)
    requires Fits(job) && Proper(job, x) && !x.Done?
  {
    ClientAt(job, d, Succ(job, x)) && d.shown.written == c.shown.written + (if Succ(job, x).Done? then 0 else 1)
    && d.connection == c.connection
  }

  lemma AnsweredHello(job: Job, c: Client)
    requires Fits(job) && ClientAt(job, c, Hello)
    ensures Advanced(job, c, Notification(Waits(c), NoteOf(job, Hello), Willing), Hello)
  {}

  lemma NextChunk(job: Job, c: Client, k: nat)
    requires Fits(job) && Proper(job, Chunk(k)) && Bounded(c) && c.connection != INVALID
    requires c.files.robot == job.robot && c.files.robotOffset == 17 * k && c.files.robotSequence == k
    ensures NextPacket(c.files) == PacketOf(job, Chunk(k))
    ensures AfterPacket(c.files).robotOffset == Upto(17 * (k + 1), |job.robot|)
    ensures AfterPacket(c.files).robotSequence == k + 1
  {
    FewPieces(job, Chunk(k));
  }

  /** A write with the right files and packet puts the robot at its exchange. */
  lemma Issued(job: Job, c: Client, f: Files, y: Exchange)
    requires Fits(job) && Proper(job, y) && !y.Done?
    requires Bounded(c) && !c.st.abort && c.connection != INVALID && c.pending == [] && FilesAt(job, f, y)
    ensures var d := Write(c.(files := f), PacketOf(job, y), PhaseOf(y), Willing);
      ClientAt(job, d, y) && d.shown.written == c.shown.written + 1 && d.connection == c.connection
  {
    hide FilesAt, PacketOf;
    assert FilesBounded(f) by { FilesAtBounded(job, f, y); }
  }

  lemma FilesAtBounded(job: Job, f: Files, y: Exchange)
    requires Proper(job, y) && FilesAt(job, f, y)
    ensures FilesBounded(f)
  {}

  lemma AnsweredStart(job: Job, c: Client)
    requires Fits(job) && ClientAt(job, c, FileStart)
    ensures Advanced(job, c, Notification(Waits(c), NoteOf(job, FileStart), Willing), FileStart)
  {
    hide Write;
    if |job.robot| > 0 { NextChunk(job, c, 0); }
    var f := AfterPacket(c.files);
    Issued(job, Waits(c), f, Succ(job, FileStart));
  }

  lemma AnsweredEnd(job: Job, c: Client)
    requires Fits(job) && ClientAt(job, c, FileEnd)
    ensures Advanced(job, c, Notification(Waits(c), NoteOf(job, FileEnd), Willing), FileEnd)
  {
    hide Write, ReadU32;
    VerdictRead(job);
    Issued(job, Waits(c), c.files, ReplyRequest);
  }

  lemma VerdictRead(job: Job)
    requires Fits(job)
    ensures var note := NoteOf(job, FileEnd);
      |note| == 6 && note[1] == 0 && ReadU32(note[2..]) == Crc32(job.robot)
  {
    var note := NoteOf(job, FileEnd);
    assert note[2..] == U32(Crc32(job.robot));
    U32RoundTrip(Crc32(job.robot));
  }

  lemma FilesAfterRequest(job: Job, f: Files)
    requires Fits(job) && FilesAt(job, f, ReplyRequest)
    ensures var note := NoteOf(job, ReplyRequest);
      && |note| == 7 && ReadU16(note[1..3]) == |job.text| && ReadU32(note[3..]) == Crc32(job.text)
      && FilesAt(job, f.(replyLength := |job.text|, replyCrc := Crc32(job.text), replyOffset := 0, replySequence := 0), ReplyNext(0))
  {
    var note := NoteOf(job, ReplyRequest);
    assert note[1..3] == U16(|job.text|) && note[3..] == U32(Crc32(job.text));
    U16RoundTrip(|job.text|);
    U32RoundTrip(Crc32(job.text));
    assert job.text[..0] == [];
  }

  lemma AnsweredRequest(job: Job, c: Client)
    requires Fits(job) && ClientAt(job, c, ReplyRequest)
    ensures Advanced(job, c, Notification(Waits(c), NoteOf(job, ReplyRequest), Willing), ReplyRequest)
  {
    hide Write, FilesAt, ReadU16, ReadU32;
    FilesAfterRequest(job, c.files);
    var f := c.files.(replyLength := |job.text|, replyCrc := Crc32(job.text), replyOffset := 0, replySequence := 0);
    Issued(job, Waits(c), f, ReplyNext(0));
  }

  lemma FilesAfterPiece(job: Job, f: Files, j: nat)
    requires Fits(job) && Proper(job, ReplyNext(j)) && 17 * j < |job.text| && FilesAt(job, f, ReplyNext(j))
    ensures var note := NoteOf(job, ReplyNext(j));
      && note[0] == REPLY_DATA && GoodChunk(f, note) && FilesAt(job, AfterChunk(f, note), ReplyNext(j + 1))
  {
    FewPieces(job, ReplyNext(j));
    var note := NoteOf(job, ReplyNext(j));
    var to := Upto(17 * (j + 1), |job.text|);
    var data := job.text[17 * j..to];
    assert note[3..] == data;
    assert WithChunk(f.reply, 17 * j, data)[..to] == f.reply[..17 * j] + data;
    assert job.text[..17 * j] + data == job.text[..to];
  }

  lemma AnsweredPiece(job: Job, c: Client, j: nat)
    requires Fits(job) && Proper(job, ReplyNext(j)) && 17 * j < |job.text| && ClientAt(job, c, ReplyNext(j))
    ensures Advanced(job, c, Notification(Waits(c), NoteOf(job, ReplyNext(j)), Willing), ReplyNext(j))
  {
    hide Write, FilesAt, GoodChunk, AfterChunk, NoteOf;
    FilesAfterPiece(job, c.files, j);
    Issued(job, Waits(c), AfterChunk(c.files, NoteOf(job, ReplyNext(j))), ReplyNext(j + 1));
  }

  lemma FilesAtEnding(job: Job, f: Files, j: nat)
    requires Fits(job) && Proper(job, ReplyNext(j)) && 17 * j >= |job.text| && FilesAt(job, f, ReplyNext(j))
    ensures var note := NoteOf(job, ReplyNext(j));
      note[0] == REPLY_END && GoodEnd(f, note) && FilesAt(job, f, Finale)
  {
    var note := NoteOf(job, ReplyNext(j));
    assert note[1..] == U32(Crc32(job.text));
    U32RoundTrip(Crc32(job.text));
    assert job.text[..|job.text|] == job.text;
    assert ReplyText(f) == job.text;
  }

  lemma AnsweredEnding(job: Job, c: Client, j: nat)
    requires Fits(job) && Proper(job, ReplyNext(j)) && 17 * j >= |job.text| && ClientAt(job, c, ReplyNext(j))
    ensures Advanced(job, c, Notification(Waits(c), NoteOf(job, ReplyNext(j)), Willing), ReplyNext(j))
  {
    hide Write, FilesAt, GoodEnd, NoteOf;
    FilesAtEnding(job, c.files, j);
    var w := Waits(c).(shown := c.shown.(checked := ReplyText(c.files)));
    Issued(job, w, c.files, Finale);
  }

  lemma AnsweredFinale(job: Job, c: Client)
    requires Fits(job) && ClientAt(job, c, Finale)
    ensures Advanced(job, c, Notification(Waits(c), NoteOf(job, Finale), Willing), Finale)
  {
    hide Write, FilesBounded, NearBounded, ReplyUpto;
  }

  /** An answered write leads to the next one. */
  lemma ClientAnswered(job: Job, c: Client, x: Exchange)
    requires Fits(job) && Proper(job, x) && !x.Done? && !x.Chunk? && ClientAt(job, c, x)
    ensures Bounded(Waits(c))
    ensures Advanced(job, c, Notification(Waits(c), NoteOf(job, x), Willing), x)
  {
    hide Notification, ClientAt;
    assert Bounded(Waits(c)) by { WaitsBounded(job, c, x); }
    match x
    case Hello => AnsweredHello(job, c);
    case FileStart => AnsweredStart(job, c);
    case FileEnd => AnsweredEnd(job, c);
    case ReplyRequest => AnsweredRequest(job, c);
    case ReplyNext(j) => if 17 * j < |job.text| { AnsweredPiece(job, c, j); } else { AnsweredEnding(job, c, j); }
    case Finale => AnsweredFinale(job, c);
  }

  lemma WaitsBounded(job: Job, c: Client, x: Exchange)
    requires Fits(job) && Proper(job, x) && !x.Done? && ClientAt(job, c, x)
    ensures Bounded(Waits(c))
  {}

  /** A chunk needs no answer: its completed write leads to the next one. */
  lemma ClientChunked(job: Job, c: Client, k: nat)
    requires Fits(job) && Proper(job, Chunk(k)) && ClientAt(job, c, Chunk(k))
    ensures Advanced(job, c, QueryComplete(c, true, Willing), Chunk(k))
  {
    FewPieces(job, Chunk(k));
    if 17 * (k + 1) < |job.robot| { NextChunk(job, c, k + 1); }
  }
}
