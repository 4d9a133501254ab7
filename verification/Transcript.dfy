/** What a COMPLETE attempt has been told, notification by notification. The transcript is that of
    an observer who sees the events and whether the robot went on after them. */
module Transcript {
  import opened Bytes
  import opened Crc
  import opened Filters
  import opened Protocol
  import opened Trace
  import opened TransferClient
  import opened ClientTrust
  import opened AttemptRuns

  /** The attempt begins afresh: earlier notifications no longer matter. */
  predicate StartsAfresh(c: Client, e: RadioEvent) {
    e.Start? && c.due.start && !c.st.abort
  }

  /** The robot went on: it wrote another packet, or the transfer was acknowledged. */
  predicate WentOn(c: Client, d: Client) {
    d.shown.written > c.shown.written || (d.shown.acked && !c.shown.acked)
  }

  /** The notification that this event made the robot consider, if any: one that arrives, or one
      kept until its write was over. */
  function Considered(c: Client, e: RadioEvent, d: Client): seq<seq<Byte>> {
    if e.Notify? then [e.value]
    else if e.QueryDone? && c.pending != [] && d.pending == [] then [c.pending]
    else []
  }

  /** The notifications after which the robot went on, in order, since the attempt began. */
  function Heard(c: Client, hs: seq<Happening>): seq<seq<Byte>>
    requires Bounded(c)
  {
    if hs == [] then []
    else
      var n := |hs| - 1;
      var before, after, e := Run(c, hs[..n]), Run(c, hs), hs[n].event;
      MoreHeard(before, Heard(c, hs[..n]), e, after)
  }

  function MoreHeard(c: Client, h: seq<seq<Byte>>, e: RadioEvent, d: Client): seq<seq<Byte>> {
    if StartsAfresh(c, e) then []
    else if WentOn(c, d) then h + Considered(c, e, d)
    else h
  }

  /** The notifications that have arrived since the attempt began. */
  function Notified(c: Client, hs: seq<Happening>): seq<seq<Byte>>
    requires Bounded(c)
  {
    if hs == [] then []
    else
      var n := |hs| - 1;
      var e := hs[n].event;
      if StartsAfresh(Run(c, hs[..n]), e) then []
      else if e.Notify? && e.ours then Notified(c, hs[..n]) + [e.value]
      else Notified(c, hs[..n])
  }

  // The script.

  const HelloAcked: seq<Byte> := [0x02, 1]
  const ReadyForFile: seq<Byte> := [0x04, 1]
  const Acknowledged: seq<Byte> := [0x0E, 1]

  /** The beacon confirms exactly this file. */
  function Confirmed(robot: seq<Byte>): seq<Byte> {
    [0x07, 0] + U32(Crc32(robot))
  }

  function Announced(length: nat, crc: Word): seq<Byte>
    requires length < 0x1_0000
  {
    [0x09] + U16(length) + U32(crc)
  }

  function Finished(crc: Word): seq<Byte> {
    [0x0C] + U32(crc)
  }

  /** Pieces numbered from 0 on, around after 255, of 1 to 17 bytes. */
  predicate Pieces(notes: seq<seq<Byte>>) {
    forall k :: 0 <= k < |notes| ==>
      && 4 <= |notes[k]| <= 20 && notes[k][0] == 0x0B && notes[k][1] as nat == k % 0x100 && notes[k][2] as nat == |notes[k]| - 3
  }

  function Payload(notes: seq<seq<Byte>>): seq<Byte>
    requires Pieces(notes)
  {
    if notes == [] then [] else Payload(notes[..|notes| - 1]) + notes[|notes| - 1][3..]
  }

  predicate OpeningOf(h: seq<seq<Byte>>, robot: seq<Byte>, length: nat, crc: Word) {
    && |h| >= 4 && h[0] == HelloAcked && h[1] == ReadyForFile && h[2] == Confirmed(robot)
    && length < 0x1_0000 && h[3] == Announced(length, crc)
  }

  /** The whole script of a transfer that delivers `robot` and brings back `reply`. */
  predicate Script(h: seq<seq<Byte>>, robot: seq<Byte>, reply: seq<Byte>) {
    && |h| >= 6 && OpeningOf(h, robot, |reply|, Crc32(reply))
    && Pieces(h[4..|h| - 2]) && Payload(h[4..|h| - 2]) == reply
    && h[|h| - 2] == Finished(Crc32(reply)) && h[|h| - 1] == Acknowledged
  }

  // Where in the script the robot is.

  function Stage(p: Phase): nat {
    match p
    case Idle => 0
    case Starting => 0
    case StoppingScan => 0
    case Closing => 0
    case WriteFileStart => 2
    case WaitFileReady => 2
    case WriteFileData => 3
    case WriteFileEnd => 3
    case WaitFileReceived => 3
    case WriteReplyRequest => 4
    case WaitReplyStart => 4
    case WriteReplyNext => 5
    case WaitReplyPiece => 5
    case WriteComplete => 6
    case WaitCompleteAck => 6
    case _ => 1
  }

  predicate PiecesSoFar(f: Files, notes: seq<seq<Byte>>) {
    && Pieces(notes) && |notes| % 0x100 == f.replySequence as nat && f.replyOffset <= |f.reply|
    && Payload(notes) == f.reply[..f.replyOffset]
  }

  predicate SaidAt(stage: nat, f: Files, p: Proof, h: seq<seq<Byte>>) {
    && (stage > 0 ==> !p.acked)
    && (stage >= 2 ==> f.robotCrc == Crc32(f.robot))
    && (stage == 0 && p.acked ==> Script(h, f.robot, p.checked))
    && (stage == 1 ==> h == [])
    && (stage == 2 ==> h == [HelloAcked])
    && (stage == 3 ==> h == [HelloAcked, ReadyForFile])
    && (stage == 4 ==> h == [HelloAcked, ReadyForFile, Confirmed(f.robot)])
    && (stage == 5 ==> OpeningOf(h, f.robot, f.replyLength, f.replyCrc) && PiecesSoFar(f, h[4..]))
    && (stage == 6 ==> |h| >= 5 && OpeningOf(h, f.robot, f.replyLength, f.replyCrc) && PiecesSoFar(f, h[4..|h| - 1])
                       && h[|h| - 1] == Finished(f.replyCrc) && f.replyOffset == f.replyLength
                       && p.checked == f.reply[..f.replyOffset] && f.replyCrc == Crc32(p.checked))
  }

  predicate Said(c: Client, h: seq<seq<Byte>>) {
    SaidAt(Stage(c.st.phase), c.files, c.shown, h)
  }

  /** As far as the script is concerned nothing has happened, or the attempt is over. */
  predicate SameFiles(f: Files, g: Files) {
    && f.robot == g.robot && f.robotCrc == g.robotCrc && f.reply == g.reply && f.replyOffset == g.replyOffset
    && f.replyLength == g.replyLength && f.replySequence == g.replySequence && f.replyCrc == g.replyCrc
  }

  predicate Still(c: Client, d: Client) {
    && SameFiles(c.files, d.files) && d.shown.checked == c.shown.checked && d.shown.acked == c.shown.acked
    && (Stage(d.st.phase) == Stage(c.st.phase) || Stage(d.st.phase) == 0)
  }

  lemma StillSaid(c: Client, d: Client, h: seq<seq<Byte>>)
    requires Said(c, h) && Still(c, d)
    ensures Said(d, h)
  {
    hide Script, OpeningOf, Pieces, Stage;
  }

  lemma StillThen(c: Client, d: Client, e: Client)
    ensures Still(c, d) && Still(d, e) ==> Still(c, e)
  {
    hide Stage;
  }

  lemma StillItself(c: Client)
    ensures Still(c, c)
  {}

  lemma StillClose(c: Client, result: Result, env: Env)
    ensures Still(c, Close(c, result, env)) && Close(c, result, env).pending == []
  {}

  lemma StillFailed(c: Client, env: Env)
    ensures Still(c, Failed(c, env)) && Failed(c, env).pending == [] && Failed(c, env).shown == c.shown
  {}

  lemma StillMove(c: Client, st: Status, connection: Handle)
    requires Stage(st.phase) == Stage(c.st.phase) || Stage(st.phase) == 0
    ensures Still(c, c.(st := st, connection := connection))
  {
    hide Stage;
  }

  /** A packet is handed over at its stage, or the attempt is over. */
  lemma SaidWrite(c: Client, packet: seq<Byte>, phase: Phase, env: Env, h: seq<seq<Byte>>)
    requires !c.shown.acked && SaidAt(Stage(phase), c.files, c.shown, h)
    ensures Said(Write(c, packet, phase, env), h)
    ensures Write(c, packet, phase, env).shown == c.shown.(written := c.shown.written + 1)
  {
    hide Failed, Script, OpeningOf, PiecesSoFar, Stage;
    var d := SetPhase(c, phase).(tx := packet, shown := c.shown.(written := c.shown.written + 1));
    assert Said(d, h);
    StillFailed(d, env);
    StillSaid(d, Failed(d, env), h);
  }

  // What is said after each answer.

  ghost predicate GoesOn(c: Client, d: Client, h: seq<seq<Byte>>, value: seq<Byte>) {
    Said(d, if WentOn(c, d) then h + [value] else h)
  }

  lemma NotOn(c: Client, d: Client, h: seq<seq<Byte>>, value: seq<Byte>)
    requires Said(c, h) && Still(c, d) && d.shown == c.shown
    ensures GoesOn(c, d, h, value)
  {
    hide Script, OpeningOf, PiecesSoFar, Stage;
    StillSaid(c, d, h);
  }

  lemma GoneOn(c: Client, d: Client, h: seq<seq<Byte>>, value: seq<Byte>)
    requires Said(d, h + [value]) && d.shown.written > c.shown.written
    ensures GoesOn(c, d, h, value)
  {}

  lemma SaidHelloAck(c: Client, value: seq<Byte>, env: Env, h: seq<seq<Byte>>)
    requires Bounded(c) && Said(c, h) && value != [] && value[0] == HELLO_ACK
    ensures GoesOn(c, OnHelloAck(c, value, env), h, value)
  {
    hide Write, Failed, Script, OpeningOf, PiecesSoFar;
    StillItself(c);
    StillFailed(c, env);
    if !c.st.phase.WaitHelloAck? {
      NotOn(c, c, h, value);
    } else if |value| != 2 || value[1] != BEACON_ID {
      NotOn(c, Failed(c, env), h, value);
    } else {
      assert value == HelloAcked && h + [value] == [HelloAcked];
      var d := c.(files := c.files.(robotOffset := 0, robotSequence := 0, robotCrc := Crc32(c.files.robot)));
      SaidWrite(d, StartPacket(c.files.robot), WriteFileStart, env, h + [value]);
      GoneOn(c, OnHelloAck(c, value, env), h, value);
    }
  }

  lemma SaidFileReady(c: Client, value: seq<Byte>, env: Env, h: seq<seq<Byte>>)
    requires Bounded(c) && Said(c, h) && value != [] && value[0] == FILE_READY
    ensures GoesOn(c, OnFileReady(c, value, env), h, value)
  {
    hide Write, Failed, Script, OpeningOf, PiecesSoFar;
    StillItself(c);
    StillFailed(c, env);
    if !c.st.phase.WaitFileReady? {
      NotOn(c, c, h, value);
    } else if |value| != 2 || value[1] != BEACON_ID {
      NotOn(c, Failed(c, env), h, value);
    } else {
      assert value == ReadyForFile && h + [value] == [HelloAcked, ReadyForFile];
      var d := c.(files := AfterPacket(c.files));
      var phase := if c.files.robotOffset == |c.files.robot| then WriteFileEnd else WriteFileData;
      SaidWrite(d, NextPacket(c.files), phase, env, h + [value]);
      GoneOn(c, OnFileReady(c, value, env), h, value);
    }
  }

  lemma ConfirmedIs(value: seq<Byte>, robot: seq<Byte>)
    requires |value| == 6 && value[0] == FILE_RECEIVED && value[1] == 0 && ReadU32(value[2..]) == Crc32(robot)
    ensures value == Confirmed(robot)
  {
    U32RoundTrip(Crc32(robot));
    U32Injective(value[2..], U32(Crc32(robot)));
    assert value == value[..2] + value[2..];
    assert value[..2] == [FILE_RECEIVED, 0];
  }

  lemma SaidFileReceived(c: Client, value: seq<Byte>, env: Env, h: seq<seq<Byte>>)
    requires Said(c, h) && value != [] && value[0] == FILE_RECEIVED
    ensures GoesOn(c, OnFileReceived(c, value, env), h, value)
  {
    hide Write, Failed, Script, OpeningOf, PiecesSoFar, ReadU32;
    StillItself(c);
    StillFailed(c, env);
    if !c.st.phase.WaitFileReceived? {
      NotOn(c, c, h, value);
    } else if |value| != 6 || value[1] != 0 || ReadU32(value[2..]) != c.files.robotCrc {
      NotOn(c, Failed(c, env), h, value);
    } else {
      ConfirmedIs(value, c.files.robot);
      assert h + [value] == [HelloAcked, ReadyForFile, Confirmed(c.files.robot)];
      SaidWrite(c, [REPLY_REQUEST], WriteReplyRequest, env, h + [value]);
      GoneOn(c, OnFileReceived(c, value, env), h, value);
    }
  }

  lemma AnnouncedIs(value: seq<Byte>)
    requires |value| == 7 && value[0] == REPLY_START
    ensures value == Announced(ReadU16(value[1..3]), ReadU32(value[3..]))
  {
    var length, crc := ReadU16(value[1..3]), ReadU32(value[3..]);
    U16RoundTrip(length);
    U32RoundTrip(crc);
    U16Injective(value[1..3], U16(length));
    U32Injective(value[3..], U32(crc));
    assert value == [value[0]] + value[1..3] + value[3..];
  }

  lemma NoPieces(f: Files)
    requires f.replyOffset == 0 && f.replySequence == 0
    ensures PiecesSoFar(f, [])
  {
    assert f.reply[..0] == [];
  }

  lemma SaidReplyStart(c: Client, value: seq<Byte>, env: Env, h: seq<seq<Byte>>)
    requires Said(c, h) && value != [] && value[0] == REPLY_START
    ensures GoesOn(c, OnReplyStart(c, value, env), h, value)
  {
    hide Write, Failed, Script, PiecesSoFar, ReadU16, ReadU32;
    StillItself(c);
    StillFailed(c, env);
    if !c.st.phase.WaitReplyStart? {
      NotOn(c, c, h, value);
    } else if |value| != 7 || !(1 <= ReadU16(value[1..3]) <= MAX_FILE) {
      NotOn(c, Failed(c, env), h, value);
    } else {
      AnnouncedIs(value);
      var f := c.files.(replyLength := ReadU16(value[1..3]), replyCrc := ReadU32(value[3..]), replyOffset := 0, replySequence := 0);
      var more := h + [value];
      assert more == [HelloAcked, ReadyForFile, Confirmed(c.files.robot), value] && more[4..] == [];
      NoPieces(f);
      SaidWrite(c.(files := f), [REPLY_NEXT], WriteReplyNext, env, more);
      GoneOn(c, OnReplyStart(c, value, env), h, value);
    }
  }

  lemma OnePiece(f: Files, notes: seq<seq<Byte>>, value: seq<Byte>)
    requires FilesBounded(f) && PiecesSoFar(f, notes) && GoodChunk(f, value) && value[0] == REPLY_DATA
    ensures PiecesSoFar(AfterChunk(f, value), notes + [value])
  {
    var more, g := notes + [value], AfterChunk(f, value);
    assert more[..|notes|] == notes;
    var data := value[3..];
    assert g.reply[..g.replyOffset] == f.reply[..f.replyOffset] + data;
  }

  lemma SaidReplyData(c: Client, value: seq<Byte>, env: Env, h: seq<seq<Byte>>)
    requires Bounded(c) && Said(c, h) && value != [] && value[0] == REPLY_DATA
    ensures GoesOn(c, OnReplyData(c, value, env), h, value)
  {
    hide Write, Failed, Script, PiecesSoFar, GoodChunk, AfterChunk;
    StillItself(c);
    StillFailed(c, env);
    if !c.st.phase.WaitReplyPiece? {
      NotOn(c, c, h, value);
    } else if !GoodChunk(c.files, value) {
      NotOn(c, Failed(c, env), h, value);
    } else {
      OnePiece(c.files, h[4..], value);
      AfterChunkKeeps(c.files, value);
      assert (h + [value])[4..] == h[4..] + [value];
      SaidWrite(c.(files := AfterChunk(c.files, value)), [REPLY_NEXT], WriteReplyNext, env, h + [value]);
      GoneOn(c, OnReplyData(c, value, env), h, value);
    }
  }

  lemma AfterChunkKeeps(f: Files, value: seq<Byte>)
    requires FilesBounded(f) && GoodChunk(f, value)
    ensures var g := AfterChunk(f, value);
      g.robot == f.robot && g.robotCrc == f.robotCrc && g.replyLength == f.replyLength && g.replyCrc == f.replyCrc
  {}

  lemma FinishedIs(value: seq<Byte>)
    requires |value| == 5 && value[0] == REPLY_END
    ensures value == Finished(ReadU32(value[1..]))
  {
    U32RoundTrip(ReadU32(value[1..]));
    U32Injective(value[1..], U32(ReadU32(value[1..])));
    assert value == [value[0]] + value[1..];
  }

  lemma SaidReplyEnd(c: Client, value: seq<Byte>, env: Env, h: seq<seq<Byte>>)
    requires Bounded(c) && Said(c, h) && value != [] && value[0] == REPLY_END
    ensures GoesOn(c, OnReplyEnd(c, value, env), h, value)
  {
    hide Write, Failed, Script, PiecesSoFar, ReadU32;
    StillItself(c);
    StillFailed(c, env);
    if !c.st.phase.WaitReplyPiece? {
      NotOn(c, c, h, value);
    } else if !GoodEnd(c.files, value) {
      NotOn(c, Failed(c, env), h, value);
    } else {
      FinishedIs(value);
      var d := c.(shown := c.shown.(checked := ReplyText(c.files)));
      assert (h + [value])[4..|h + [value]| - 1] == h[4..];
      SaidWrite(d, [COMPLETE], WriteComplete, env, h + [value]);
      GoneOn(c, OnReplyEnd(c, value, env), h, value);
    }
  }

  lemma ScriptIs(f: Files, p: Proof, h: seq<seq<Byte>>)
    requires FilesBounded(f) && SaidAt(6, f, p, h)
    ensures Script(h + [Acknowledged], f.robot, p.checked)
  {
    var more := h + [Acknowledged];
    assert more[4..|more| - 2] == h[4..|h| - 1];
  }

  lemma SaidCompleteAck(c: Client, value: seq<Byte>, env: Env, h: seq<seq<Byte>>)
    requires Bounded(c) && Said(c, h) && value != [] && value[0] == COMPLETE_ACK
    ensures GoesOn(c, OnCompleteAck(c, value, env), h, value)
  {
    StillItself(c);
    StillFailed(c, env);
    hide Failed, Script, OpeningOf, PiecesSoFar, FilesBounded, NearBounded;
    if !c.st.phase.WaitCompleteAck? {
      NotOn(c, c, h, value);
    } else if |value| != 2 || value[1] != BEACON_ID {
      NotOn(c, Failed(c, env), h, value);
    } else {
      assert value == Acknowledged;
      ScriptIs(c.files, c.shown, h);
    }
  }

  lemma SaidAnswer(c: Client, value: seq<Byte>, env: Env, h: seq<seq<Byte>>)
    requires Bounded(c) && Said(c, h) && value != []
    ensures GoesOn(c, Answer(c, value, env), h, value)
  {
    hide OnHelloAck, OnFileReady, OnFileReceived, OnReplyStart, OnReplyData, OnReplyEnd, OnCompleteAck, Said;
    if value[0] == HELLO_ACK {
      SaidHelloAck(c, value, env, h);
    } else if value[0] == FILE_READY {
      SaidFileReady(c, value, env, h);
    } else if value[0] == FILE_RECEIVED {
      SaidFileReceived(c, value, env, h);
    } else if value[0] == REPLY_START {
      SaidReplyStart(c, value, env, h);
    } else if value[0] == REPLY_DATA {
      SaidReplyData(c, value, env, h);
    } else if value[0] == REPLY_END {
      SaidReplyEnd(c, value, env, h);
    } else if value[0] == COMPLETE_ACK {
      SaidCompleteAck(c, value, env, h);
    } else {
      StillItself(c);
      NotOn(c, c, h, value);
    }
  }

  // Every event.

  /** A notification is only kept while a write is under way, or left over from an attempt. */
  predicate KeptInWriting(c: Client) {
    c.pending != [] ==> Writing(c.st.phase) || Stage(c.st.phase) == 0
  }

  lemma AnswerOver(c: Client, value: seq<Byte>, env: Env)
    requires Bounded(c) && value != [] && Stage(c.st.phase) == 0
    ensures Answer(c, value, env) == c
  {
    hide FilesBounded, NearBounded;
  }

  lemma OverSaid(c: Client, h: seq<seq<Byte>>)
    requires Stage(c.st.phase) == 0 && !c.shown.acked
    ensures Said(c, h)
  {}

  lemma WriteKeeps(c: Client, packet: seq<Byte>, phase: Phase, env: Env)
    ensures Write(c, packet, phase, env).pending == (if env.start then c.pending else [])
    ensures env.start ==> Write(c, packet, phase, env).st.phase == phase
    ensures !env.start ==> Stage(Write(c, packet, phase, env).st.phase) == 0
    ensures Write(c, packet, phase, env).shown == c.shown.(written := c.shown.written + 1)
  {
    hide Failed;
    StillFailed(SetPhase(c, phase).(tx := packet, shown := c.shown.(written := c.shown.written + 1)), env);
    FailedIsOver(SetPhase(c, phase).(tx := packet, shown := c.shown.(written := c.shown.written + 1)), env);
  }

  lemma FailedIsOver(c: Client, env: Env)
    ensures Stage(Failed(c, env).st.phase) == 0
  {}

  lemma ChunkKeeps(c: Client, env: Env)
    requires FilesBounded(c.files)
    ensures var d := WriteNextChunk(c, env);
      && d.pending == (if env.start then c.pending else []) && d.shown == c.shown.(written := c.shown.written + 1)
      && if env.start then d.st.phase.WriteFileData? || d.st.phase.WriteFileEnd? else Stage(d.st.phase) == 0
  {
    hide Write, FilesBounded, Stage;
    var phase := if c.files.robotOffset == |c.files.robot| then WriteFileEnd else WriteFileData;
    WriteKeeps(c.(files := AfterPacket(c.files)), NextPacket(c.files), phase, env);
  }

  lemma AnswerKeepsNone(c: Client, value: seq<Byte>, env: Env)
    requires Bounded(c) && value != [] && c.pending == []
    ensures Answer(c, value, env).pending == []
  {
    StillFailed(c, env);
    hide Failed, Write, WriteNextChunk, Close, GoodChunk, GoodEnd, AfterChunk;
    ChunkKeeps(c, env);
    WriteKeeps(c, [REPLY_REQUEST], WriteReplyRequest, env);
    var f := c.files;
    WriteKeeps(c.(files := f.(robotOffset := 0, robotSequence := 0, robotCrc := Crc32(f.robot))), StartPacket(f.robot), WriteFileStart, env);
    WriteKeeps(c.(shown := c.shown.(checked := ReplyText(f))), [COMPLETE], WriteComplete, env);
    if value[0] == REPLY_START && |value| == 7 {
      WriteKeeps(c.(files := f.(replyLength := ReadU16(value[1..3]), replyCrc := ReadU32(value[3..]), replyOffset := 0, replySequence := 0)),
                 [REPLY_NEXT], WriteReplyNext, env);
    }
    if GoodChunk(f, value) { WriteKeeps(c.(files := AfterChunk(f, value)), [REPLY_NEXT], WriteReplyNext, env); }
    StillClose(c.(st := c.st.(verified := true), shown := c.shown.(acked := true)), Complete, env);
  }

  lemma SaidNotification(c: Client, value: seq<Byte>, env: Env, h: seq<seq<Byte>>)
    requires Bounded(c) && Said(c, h) && KeptInWriting(c)
    ensures var d := Notification(c, value, env);
      GoesOn(c, d, h, value) && KeptInWriting(d) && (!Writing(c.st.phase) && c.pending == [] ==> d.pending == [])
  {
    hide Answer, Failed, Said;
    StillItself(c);
    StillFailed(c, env);
    if value == [] || Over(c.st.phase) {
      NotOn(c, c, h, value);
    } else if value[0] == ERROR {
      NotOn(c, Failed(c, env), h, value);
    } else if Writing(c.st.phase) {
      if |value| > PACKET_SIZE || c.pending != [] {
        NotOn(c, Failed(c, env), h, value);
      } else {
        NotOn(c, c.(pending := value), h, value);
      }
    } else {
      SaidAnswer(c, value, env, h);
      if c.pending == [] {
        AnswerKeepsNone(c, value, env);
      } else {
        AnswerOver(c, value, env);
      }
    }
  }

  lemma SaidCompleted(c: Client, env: Env, h: seq<seq<Byte>>)
    requires Bounded(c) && Said(c, h) && KeptInWriting(c) && Expecting(c.st.phase)
    ensures var m := Completed(c, env);
      && Said(m, h)
      && (m.pending == c.pending || (m.pending == [] && Stage(m.st.phase) == 0 && !m.shown.acked))
      && (m.pending != [] && !Writing(m.st.phase) ==> m.shown == c.shown && !Over(m.st.phase))
  {
    hide Write, WriteNextChunk, Failed, Said, FilesBounded, NearBounded;
    if c.st.phase.DiscoverService? || c.st.phase.DiscoverCharacteristic? {
      SaidSetup(c, env, h);
    } else if c.st.phase.EnableNotifications? {
      SaidWritten(c, [HELLO, PROTOCOL_VERSION, BEACON_ID], WriteHello, env, h);
    } else if c.st.phase.WriteFileData? {
      SaidChunk(c, env, h);
    } else {
      SaidWaits(c, h);
    }
  }

  lemma SaidWaits(c: Client, h: seq<seq<Byte>>)
    requires Said(c, h) && Writing(c.st.phase) && !c.st.phase.WriteFileData?
    ensures var m := SetPhase(c, WaitPhase(c.st.phase));
      Said(m, h) && !Over(m.st.phase) && Stage(m.st.phase) > 0 && m.pending == c.pending && m.shown == c.shown
  {
    hide Script, OpeningOf, PiecesSoFar;
    StillMove(c, c.st.(phase := WaitPhase(c.st.phase)), c.connection);
    StillSaid(c, SetPhase(c, WaitPhase(c.st.phase)), h);
  }

  lemma SaidSetup(c: Client, env: Env, h: seq<seq<Byte>>)
    requires Said(c, h) && c.pending == [] && Stage(c.st.phase) == 1
    ensures Said(ServicesKnown(c, env), h) && ServicesKnown(c, env).pending == []
    ensures Said(CharacteristicsKnown(c, env), h) && CharacteristicsKnown(c, env).pending == []
  {
    var a := c.(st := c.st.(characteristicFound := false, phase := DiscoverCharacteristic));
    var b := c.(st := c.st.(listening := true, phase := EnableNotifications));
    StillMove(c, a.st, c.connection);
    StillMove(c, b.st, c.connection);
    StillFailed(c, env);
    StillFailed(a, env);
    StillFailed(b, env);
    hide Failed, Still, Said;
    StillThen(c, a, Failed(a, env));
    StillThen(c, b, Failed(b, env));
    StillSaid(c, a, h);
    StillSaid(c, b, h);
    StillSaid(c, Failed(c, env), h);
    StillSaid(c, Failed(a, env), h);
    StillSaid(c, Failed(b, env), h);
  }

  lemma SaidWritten(c: Client, packet: seq<Byte>, phase: Phase, env: Env, h: seq<seq<Byte>>)
    requires Said(c, h) && Stage(phase) == Stage(c.st.phase) > 0 && Writing(phase)
    ensures var m := Write(c, packet, phase, env);
      && Said(m, h) && (m.pending == c.pending || (m.pending == [] && Stage(m.st.phase) == 0 && !m.shown.acked))
      && (m.pending != [] ==> Writing(m.st.phase))
  {
    hide Write, Stage;
    SaidWrite(c, packet, phase, env, h);
    WriteKeeps(c, packet, phase, env);
  }

  lemma SaidChunk(c: Client, env: Env, h: seq<seq<Byte>>)
    requires Bounded(c) && Said(c, h) && c.st.phase.WriteFileData?
    ensures var m := WriteNextChunk(c, env);
      && Said(m, h) && (m.pending == c.pending || (m.pending == [] && Stage(m.st.phase) == 0 && !m.shown.acked))
      && (m.pending != [] ==> Writing(m.st.phase))
  {
    hide Write, FilesBounded, NearBounded;
    var phase := if c.files.robotOffset == |c.files.robot| then WriteFileEnd else WriteFileData;
    var d := c.(files := AfterPacket(c.files));
    assert Still(c, d) by { AfterPacketKeeps(c.files); }
    StillSaid(c, d, h);
    SaidWritten(d, NextPacket(c.files), phase, env, h);
  }

  lemma AfterPacketKeeps(f: Files)
    requires FilesBounded(f)
    ensures SameFiles(f, AfterPacket(f))
  {}

  lemma SaidQuery(c: Client, ok: bool, env: Env, h: seq<seq<Byte>>)
    requires Bounded(c) && Said(c, h) && KeptInWriting(c)
    ensures var d := QueryComplete(c, ok, env);
      && KeptInWriting(d)
      && Said(d, if WentOn(c, d) then h + (if c.pending != [] && d.pending == [] then [c.pending] else []) else h)
  {
    hide Completed, Notification, Failed, Said, Stage, FilesBounded, NearBounded;
    StillItself(c);
    StillFailed(c, env);
    if !ok {
      StillSaid(c, Failed(c, env), h);
    } else if Expecting(c.st.phase) {
      SaidCompleted(c, env, h);
      BoundedCompleted(c, env);
      var m := Completed(c, env);
      if m.pending != [] && !Writing(m.st.phase) {
        var n := m.(pending := []);
        SaidSame(m, n, h);
        SaidNotification(n, m.pending, env, h);
      } else if m.pending == [] && c.pending != [] {
        OverSaid(m, h + [c.pending]);
      }
      assert h + [] == h;
    }
  }

  lemma SaidSame(m: Client, n: Client, h: seq<seq<Byte>>)
    requires Said(m, h) && n == m.(pending := [])
    ensures Said(n, h)
  {}

  lemma StillEnds(c: Client, closing: Result, verified: bool)
    ensures Still(c, FinishWith(c, closing, verified)) && FinishWith(c, closing, verified).shown == c.shown
  {}

  lemma StillScan(c: Client, ok: bool, env: Env)
    ensures var d := ScanCommand(c, ok, env);
      Still(c, d) && d.shown == c.shown && (d.pending == c.pending || d.pending == [])
      && (d.st.phase == c.st.phase || c.st.phase.StoppingForConnect? || Stage(d.st.phase) == 0)
  {
    hide Failed, FinishWith;
    StillItself(c);
    StillEnds(c, Fatal, c.st.verified);
    StillEnds(c, c.st.closing, c.st.verified);
    EndsKeep(c, Fatal, c.st.verified);
    EndsKeep(c, c.st.closing, c.st.verified);
    if c.st.phase.StoppingForConnect? {
      StillMove(c, c.st.(phase := Connecting), c.connection);
      StillMove(c, c.st.(phase := Idle), c.connection);
      var idle := SetPhase(c, Idle);
      StillFailed(idle, env);
      StillThen(c, idle, Failed(idle, env));
    }
    StillMove(c, c.st.(scanConfirmed := true), c.connection);
  }

  lemma EndsKeep(c: Client, closing: Result, verified: bool)
    ensures FinishWith(c, closing, verified).pending == c.pending && Stage(FinishWith(c, closing, verified).st.phase) == 0
  {}

  lemma StillConnected(c: Client, ok: bool, handle: Handle, env: Env)
    ensures var d := Connected(c, ok, handle, env);
      Still(c, d) && d.shown == c.shown && (d.pending == c.pending || d.pending == [])
      && (d.st.phase == c.st.phase || c.st.phase.Connecting? || Stage(d.st.phase) == 0)
  {
    hide Failed, FinishWith;
    StillItself(c);
    StillEnds(c, c.st.closing, c.st.verified);
    EndsKeep(c, c.st.closing, c.st.verified);
    if c.st.phase.Connecting? {
      StillLink(c, handle, env);
    }
    StillMove(c, c.st.(phase := Closing), handle);
  }

  lemma StillLink(c: Client, handle: Handle, env: Env)
    requires c.st.phase.Connecting?
    ensures var idle := SetPhase(c, Idle).(connection := INVALID);
      Still(c, Failed(idle, env)) && Failed(idle, env).shown == c.shown && Failed(idle, env).pending == []
      && Stage(Failed(idle, env).st.phase) == 0
    ensures var d := Query(c.(st := c.st.(serviceFound := false, phase := DiscoverService), connection := handle), env);
      Still(c, d) && d.shown == c.shown && (d.pending == c.pending || d.pending == [])
  {
    hide Failed;
    var idle := SetPhase(c, Idle).(connection := INVALID);
    var asking := c.(st := c.st.(serviceFound := false, phase := DiscoverService), connection := handle);
    StillMove(c, c.st.(phase := Idle), INVALID);
    StillMove(c, asking.st, handle);
    StillFailed(idle, env);
    FailedIsOver(idle, env);
    StillFailed(asking, env);
    hide Still;
    StillThen(c, idle, Failed(idle, env));
    StillThen(c, asking, Failed(asking, env));
  }

  /** d follows c without another word: the script stands where it did, or the attempt is over. */
  predicate Wordless(c: Client, d: Client) {
    && Still(c, d) && d.shown == c.shown && (d.pending == c.pending || d.pending == [])
    && (d.st.phase == c.st.phase || Stage(d.st.phase) == 0 || (Stage(c.st.phase) == 1 && !Writing(c.st.phase)))
  }

  lemma WordlessSaid(c: Client, d: Client, h: seq<seq<Byte>>)
    requires Said(c, h) && KeptInWriting(c) && Wordless(c, d)
    ensures Said(d, h) && KeptInWriting(d) && !WentOn(c, d)
  {
    hide Script, OpeningOf, PiecesSoFar;
    StillSaid(c, d, h);
  }

  lemma WordlessFlags(c: Client, st: Status, due: Due)
    requires st.phase == c.st.phase
    ensures Wordless(c, c.(st := st, due := due))
  {}

  lemma WordlessAbort(c: Client, stop: bool, env: Env)
    ensures var d := c.(due := c.due.(abort := false));
      Wordless(c, AbortAttempt(d, stop, env))
  {
    var d := c.(due := c.due.(abort := false));
    var result := if stop then Fatal else Interrupted(d);
    StillClose(d, result, env);
    CloseIsOver(d, result, env);
    hide Close;
  }

  lemma CloseIsOver(c: Client, result: Result, env: Env)
    ensures Stage(Close(c, result, env).st.phase) == 0 && Close(c, result, env).shown == c.shown
  {}

  lemma WordlessScan(c: Client, ok: bool, env: Env)
    ensures Wordless(c, ScanCommand(c, ok, env))
  {
    StillScan(c, ok, env);
    hide ScanCommand;
  }

  lemma WordlessConnected(c: Client, ok: bool, handle: Handle, env: Env)
    ensures Wordless(c, Connected(c, ok, handle, env))
  {
    StillConnected(c, ok, handle, env);
    hide Connected;
  }

  lemma WordlessEnds(c: Client, closing: Result, verified: bool)
    ensures Wordless(c, FinishWith(c, closing, verified))
  {}

  lemma WordlessAdvert(c: Client, target: bool, rssi: int)
    requires Bounded(c)
    ensures Wordless(c, Advertisement(c, target, rssi))
  {
    hide AfterReading, FilesBounded;
  }

  lemma WordlessBegin(c: Client, again: bool)
    ensures Wordless(c, BeginAttempt(c, again))
  {}

  lemma WordlessItself(c: Client)
    ensures Wordless(c, c)
  {}

  lemma WordlessDeliver(c: Client, e: RadioEvent, env: Env)
    requires Bounded(c) && !e.Notify? && !e.QueryDone? && !e.Start?
    ensures Wordless(c, Deliver(c, e, env))
  {
    hide ScanCommand, Connected, AbortAttempt, FinishWith, Advertisement, BeginAttempt, Wordless, FilesBounded, NearBounded;
    WordlessItself(c);
    match e
    case Begin(again, _) => WordlessBegin(c, again);
    case RequestAbort => WordlessFlags(c, c.st.(abort := true), c.due.(abort := true));
    case Abort(stop) => WordlessAbort(c, stop, env);
    case ScanDone(ok) => WordlessScan(c, ok, env);
    case Advert(target, rssi) => WordlessAdvert(c, target, rssi);
    case ConnectionDone(ok, handle) => WordlessConnected(c, ok, handle, env);
    case Disconnection(_) =>
      WordlessEnds(c, c.st.closing, c.st.verified);
      WordlessEnds(c, Interrupted(c), false);
    case ServiceFound(_) => WordlessFlags(c, c.st.(serviceFound := true), c.due);
    case CharacteristicFound(_) => WordlessFlags(c, c.st.(characteristicFound := true), c.due);
  }

  lemma SaidStart(c: Client, env: Env, h: seq<seq<Byte>>)
    requires Bounded(c) && Said(c, h) && KeptInWriting(c)
    ensures var d := Deliver(c, Start, env);
      Said(d, MoreHeard(c, h, Start, d)) && KeptInWriting(d)
  {
    hide FilesBounded, NearBounded, Script, OpeningOf, PiecesSoFar, Failed;
    if c.due.start && !c.st.abort {
      var d := c.(due := c.due.(start := false),
                  st := c.st.(closeConfirmed := c.st.reconnect && c.st.closeConfirmed, scanConfirmed := false, verified := false),
                  near := Proximity(c.near.threshold, seq(SAMPLES, _ => 0), 0, 0, 0),
                  files := c.files.(replyLength := 0, replyOffset := 0), pending := [], shown := Proof(c.shown.written, [], false));
      StillFailed(SetPhase(d, Idle), env);
      FailedIsOver(SetPhase(d, Idle), env);
    } else if c.due.start {
      WordlessAborted(c);
      WordlessSaid(c, Deliver(c, Start, env), h);
    }
  }

  lemma WordlessAborted(c: Client)
    ensures Wordless(c, FinishWith(c.(due := c.due.(start := false)), Fatal, c.st.verified))
  {}

  lemma SaidDeliver(c: Client, e: RadioEvent, env: Env, h: seq<seq<Byte>>)
    requires Bounded(c) && Said(c, h) && KeptInWriting(c)
    ensures var d := Deliver(c, e, env);
      Said(d, MoreHeard(c, h, e, d)) && KeptInWriting(d)
  {
    hide Said, KeptInWriting, Wordless, Notification, QueryComplete, StartAttempt, FilesBounded, NearBounded;
    if e.Start? {
      SaidStart(c, env, h);
    } else if e.Notify? {
      if Deaf(c, e.handle) || !e.ours {
        WordlessItself(c);
        WordlessSaid(c, c, h);
      } else {
        SaidNotification(c, e.value, env, h);
      }
    } else if e.QueryDone? {
      if Deaf(c, e.handle) {
        WordlessItself(c);
        WordlessSaid(c, c, h);
      } else {
        SaidQuery(c, e.ok, env, h);
      }
    } else {
      hide Deliver;
      WordlessDeliver(c, e, env);
      WordlessSaid(c, Deliver(c, e, env), h);
    }
  }

  /** For every sequence of events and attempts of a client at rest: the notifications it went on
      after are, at every moment, the script up to where it is; and if an attempt has reported
      COMPLETE, the whole script of this file and of the reply it keeps. */
  lemma {:induction false} ScriptIsFollowed(c: Client, hs: seq<Happening>)
    requires Bounded(c) && Stage(c.st.phase) == 0 && !c.shown.acked && KeptInWriting(c)
    ensures Said(Run(c, hs), Heard(c, hs)) && KeptInWriting(Run(c, hs))
  {
    hide Bounded, Deliver, Said, KeptInWriting;
    if hs == [] {
      OverSaid(c, []);
    } else {
      var n := |hs| - 1;
      ScriptIsFollowed(c, hs[..n]);
      SaidDeliver(Run(c, hs[..n]), hs[n].event, hs[n].env, Heard(c, hs[..n]));
    }
  }

  // All of it was notified.

  predicate Known(c: Client, notes: seq<seq<Byte>>) {
    c.pending == [] || c.pending in notes || Stage(c.st.phase) == 0
  }

  ghost predicate AllIn(h: seq<seq<Byte>>, notes: seq<seq<Byte>>) {
    forall i :: 0 <= i < |h| ==> h[i] in notes
  }

  function MoreNotified(c: Client, notes: seq<seq<Byte>>, e: RadioEvent): seq<seq<Byte>> {
    if StartsAfresh(c, e) then [] else if e.Notify? && e.ours then notes + [e.value] else notes
  }

  lemma KnownNotification(c: Client, value: seq<Byte>, env: Env)
    requires Bounded(c)
    ensures var d := Notification(c, value, env);
      && (d.pending == [] || d.pending == c.pending || d.pending == value)
      && (Stage(c.st.phase) == 0 ==> Stage(d.st.phase) == 0 && !WentOn(c, d))
      && (!Writing(c.st.phase) && c.pending == [] ==> d.pending == [])
  {
    hide Answer, Failed, FilesBounded, NearBounded;
    StillFailed(c, env);
    FailedIsOver(c, env);
    if value != [] && !Over(c.st.phase) && value[0] != ERROR && !Writing(c.st.phase) {
      if Stage(c.st.phase) == 0 {
        AnswerOver(c, value, env);
      } else if c.pending == [] {
        AnswerKeepsNone(c, value, env);
      } else {
        AnswerKeeps(c, value, env);
      }
    }
  }

  lemma AnswerKeeps(c: Client, value: seq<Byte>, env: Env)
    requires Bounded(c) && value != []
    ensures Answer(c, value, env).pending == [] || Answer(c, value, env).pending == c.pending
  {
    StillFailed(c, env);
    hide Failed, Write, WriteNextChunk, Close, GoodChunk, GoodEnd, AfterChunk;
    ChunkKeeps(c, env);
    WriteKeeps(c, [REPLY_REQUEST], WriteReplyRequest, env);
    var f := c.files;
    WriteKeeps(c.(files := f.(robotOffset := 0, robotSequence := 0, robotCrc := Crc32(f.robot))), StartPacket(f.robot), WriteFileStart, env);
    WriteKeeps(c.(shown := c.shown.(checked := ReplyText(f))), [COMPLETE], WriteComplete, env);
    if value[0] == REPLY_START && |value| == 7 {
      WriteKeeps(c.(files := f.(replyLength := ReadU16(value[1..3]), replyCrc := ReadU32(value[3..]), replyOffset := 0, replySequence := 0)),
                 [REPLY_NEXT], WriteReplyNext, env);
    }
    if GoodChunk(f, value) { WriteKeeps(c.(files := AfterChunk(f, value)), [REPLY_NEXT], WriteReplyNext, env); }
    StillClose(c.(st := c.st.(verified := true), shown := c.shown.(acked := true)), Complete, env);
  }

  lemma KnownQuery(c: Client, ok: bool, env: Env)
    requires Bounded(c) && KeptInWriting(c) && exists h :: Said(c, h)
    ensures var d := QueryComplete(c, ok, env);
      && (d.pending == [] || d.pending == c.pending)
      && (Stage(c.st.phase) == 0 ==> Stage(d.st.phase) == 0 && !WentOn(c, d))
  {
    hide Completed, Notification, Failed, Said, FilesBounded, NearBounded;
    StillFailed(c, env);
    FailedIsOver(c, env);
    if ok && Expecting(c.st.phase) {
      var h :| Said(c, h);
      SaidCompleted(c, env, h);
      BoundedCompleted(c, env);
      var m := Completed(c, env);
      KnownNotification(m.(pending := []), m.pending, env);
    }
  }

  lemma MoreKnown(c: Client, e: RadioEvent, env: Env, h: seq<seq<Byte>>, notes: seq<seq<Byte>>)
    requires Bounded(c) && Said(c, h) && KeptInWriting(c) && Known(c, notes) && AllIn(h, notes)
    ensures var d := Deliver(c, e, env);
      Known(d, MoreNotified(c, notes, e)) && AllIn(MoreHeard(c, h, e, d), MoreNotified(c, notes, e))
  {
    hide Said, KeptInWriting, Wordless, Notification, QueryComplete, StartAttempt, Stage, FilesBounded, NearBounded;
    if e.Start? {
      KnownStart(c, env, h, notes);
    } else if e.Notify? {
      KnownNotify(c, e, env, h, notes);
    } else if e.QueryDone? {
      KnownDone(c, e, env, h, notes);
    } else {
      hide Deliver;
      WordlessDeliver(c, e, env);
      WordlessSaid(c, Deliver(c, e, env), h);
      KnownStill(c, Deliver(c, e, env), notes);
    }
  }

  lemma KnownStill(c: Client, d: Client, notes: seq<seq<Byte>>)
    requires Known(c, notes) && Wordless(c, d)
    ensures Known(d, notes)
  {}

  lemma KnownStart(c: Client, env: Env, h: seq<seq<Byte>>, notes: seq<seq<Byte>>)
    requires Bounded(c) && Known(c, notes) && AllIn(h, notes) && Said(c, h) && KeptInWriting(c)
    ensures var d := Deliver(c, Start, env);
      Known(d, MoreNotified(c, notes, Start)) && AllIn(MoreHeard(c, h, Start, d), MoreNotified(c, notes, Start))
  {
    hide FilesBounded, NearBounded, Said, KeptInWriting, Failed;
    if c.due.start && !c.st.abort {
      var d := c.(due := c.due.(start := false),
                  st := c.st.(closeConfirmed := c.st.reconnect && c.st.closeConfirmed, scanConfirmed := false, verified := false),
                  near := Proximity(c.near.threshold, seq(SAMPLES, _ => 0), 0, 0, 0),
                  files := c.files.(replyLength := 0, replyOffset := 0), pending := [], shown := Proof(c.shown.written, [], false));
      StillFailed(SetPhase(d, Idle), env);
    } else if c.due.start {
      WordlessAborted(c);
      WordlessSaid(c, Deliver(c, Start, env), h);
      KnownStill(c, Deliver(c, Start, env), notes);
    }
  }

  lemma KnownNotify(c: Client, e: RadioEvent, env: Env, h: seq<seq<Byte>>, notes: seq<seq<Byte>>)
    requires Bounded(c) && e.Notify? && Known(c, notes) && AllIn(h, notes)
    ensures var d := Deliver(c, e, env);
      Known(d, MoreNotified(c, notes, e)) && AllIn(MoreHeard(c, h, e, d), MoreNotified(c, notes, e))
  {
    hide FilesBounded, NearBounded, Notification, Stage;
    if !Deaf(c, e.handle) && e.ours { KnownNotification(c, e.value, env); }
  }

  lemma KnownDone(c: Client, e: RadioEvent, env: Env, h: seq<seq<Byte>>, notes: seq<seq<Byte>>)
    requires Bounded(c) && e.QueryDone? && Known(c, notes) && AllIn(h, notes) && Said(c, h) && KeptInWriting(c)
    ensures var d := Deliver(c, e, env);
      Known(d, MoreNotified(c, notes, e)) && AllIn(MoreHeard(c, h, e, d), MoreNotified(c, notes, e))
  {
    hide FilesBounded, NearBounded, QueryComplete, Stage, Said, KeptInWriting;
    if !Deaf(c, e.handle) { KnownQuery(c, e.ok, env); }
  }

  lemma {:induction false} HeardWasNotified(c: Client, hs: seq<Happening>)
    requires Bounded(c) && Stage(c.st.phase) == 0 && !c.shown.acked && KeptInWriting(c)
    ensures Known(Run(c, hs), Notified(c, hs)) && AllIn(Heard(c, hs), Notified(c, hs))
  {
    hide Bounded, Deliver, Said, KeptInWriting, Known, AllIn, Stage;
    if hs == [] {
      NothingKnown(c);
    } else {
      var n := |hs| - 1;
      HeardWasNotified(c, hs[..n]);
      ScriptIsFollowed(c, hs[..n]);
      MoreKnown(Run(c, hs[..n]), hs[n].event, hs[n].env, Heard(c, hs[..n]), Notified(c, hs[..n]));
    }
  }

  lemma NothingKnown(c: Client)
    requires Stage(c.st.phase) == 0
    ensures Known(c, []) && AllIn([], [])
  {}

  /** What a COMPLETE is worth, in bytes: in every run of a client at rest in which no attempt is
      begun after a COMPLETE, an attempt that has reported COMPLETE went on after exactly the
      notifications of the script, each of them notified since the attempt began. The beacon has
      confirmed the CRC of the file; the reply kept is the payload of the pieces in their order,
      and has the length and CRC announced and confirmed at its end. */
  lemma CompleteTellsAll(c: Client, hs: seq<Happening>)
    requires Resting(c) && Trusted(c) && !c.shown.acked && AllTimely(c, hs)
    ensures var d, h := Run(c, hs), Heard(c, hs);
      Reported(d.st) ==>
        && Script(h, d.files.robot, ReplyText(d.files))
        && forall i :: 0 <= i < |h| ==> h[i] in Notified(c, hs)
  {
    assert KeptInWriting(c) && Stage(c.st.phase) == 0;
    CompleteIsEarned(c, hs);
    ScriptIsFollowed(c, hs);
    HeardWasNotified(c, hs);
    var d := Run(c, hs);
    hide Script, Run, Heard, Notified, OpeningOf, PiecesSoFar;
    if Reported(d.st) { ReportedScript(d, Heard(c, hs)); }
  }

  lemma ReportedScript(d: Client, h: seq<seq<Byte>>)
    requires Trusted(d) && Reported(d.st) && Said(d, h)
    ensures Script(h, d.files.robot, ReplyText(d.files))
  {
    hide Script, OpeningOf, PiecesSoFar;
  }
}
