/** Every order in which the link may carry writes, completions and notifications leads the two
    sides through the same transfer. */
module Schedule {
  import opened Bytes
  import opened Crc
  import opened Protocol
  import opened Trace
  import opened TransferClient
  import opened NotificationOrder
  import opened BeaconServer
  import opened Transfer

  /** What is on its way: a write to the beacon (if not empty), the completion of one, and
      notifications to the robot. */
  datatype System = System(c: Client, s: Server, write: seq<Byte>, responding: bool, notes: seq<seq<Byte>>)

  datatype Action =
    | TakeWrite      // the beacon receives the write
    | SendNote       // the beacon may send its notification
    | Respond        // the robot learns that its write has completed
    | HearNote       // the robot receives a notification

  predicate Sane(sys: System) {
    Bounded(sys.c) && ReplyFits(sys.s)
  }

  predicate Enabled(sys: System, a: Action) {
    match a
    case TakeWrite => sys.write != []
    case SendNote => sys.s.pending != []
    case Respond => sys.responding
    case HearNote => sys.notes != []
  }

  /** The event hands over a packet exactly when the client wrote one. */
  function Heard(sys: System, e: RadioEvent): (next: System)
    requires Sane(sys)
    ensures Sane(next)
  {
    BoundedDeliver(sys.c, e, Willing);
    var d := Deliver(sys.c, e, Willing);
    sys.(c := d, write := if d.shown.written > sys.c.shown.written then d.tx else sys.write)
  }

  function Step(sys: System, a: Action): (next: System)
    requires Sane(sys) && Enabled(sys, a)
    ensures Sane(next)
  {
    match a
    case TakeWrite =>
      ReplyStaysFitting(sys.s, sys.write);
      sys.(s := OnWrite(sys.s, sys.write), write := [], responding := true)
    case SendNote => sys.(s := sys.s.(pending := []), notes := sys.notes + [sys.s.pending])
    case Respond => Heard(sys.(responding := false), QueryDone(sys.c.connection, true))
    case HearNote => Heard(sys.(notes := sys.notes[1..]), Notify(sys.c.connection, true, sys.notes[0]))
  }

  /** A step that would put a notification over one that is still kept. */
  predicate Overwrites(sys: System, a: Action) {
    (a.TakeWrite? && sys.s.pending != []) || (a.HearNote? && sys.c.pending != [])
  }

  // Where the system can be while an exchange is under way.

  datatype Stage = Fresh | Taken | Acked | Sent | Early | Awaiting

  ghost predicate ClientWaits(job: Job, c: Client, x: Exchange)
    requires Fits(job) && Transfer.Proper(job, x) && !x.Done?
  {
    c.st.phase == WaitPhase(PhaseOf(x)) && ClientAt(job, SetPhase(c, PhaseOf(x)), x)
  }

  ghost predicate ClientEarly(job: Job, c: Client, x: Exchange)
    requires Fits(job) && Transfer.Proper(job, x) && !x.Done?
  {
    c.pending == NoteOf(job, x) && ClientAt(job, c.(pending := []), x)
  }

  ghost predicate Sides(job: Job, sys: System, x: Exchange, stage: Stage)
    requires Fits(job) && Transfer.Proper(job, x) && !x.Done?
  {
    match stage
    case Fresh => ClientAt(job, sys.c, x) && ServerAt(job, sys.s, x)
    case Taken => ClientAt(job, sys.c, x) && ServerTook(job, sys.s, x)
    case Acked => ClientWaits(job, sys.c, x) && ServerTook(job, sys.s, x)
    case Sent => ClientAt(job, sys.c, x) && ServerAt(job, sys.s, Succ(job, x))
    case Early => ClientEarly(job, sys.c, x) && ServerAt(job, sys.s, Succ(job, x))
    case Awaiting => ClientWaits(job, sys.c, x) && ServerAt(job, sys.s, Succ(job, x))
  }

  ghost predicate Config(job: Job, goal: nat, sys: System, x: Exchange, stage: Stage)
    requires Fits(job) && Transfer.Proper(job, x)
  {
    && Sane(sys)
    && if x.Done? then
         && stage.Fresh? && sys.write == [] && !sys.responding && sys.notes == [] && sys.c.shown.written == goal
         && ClientAt(job, sys.c, x) && ServerAt(job, sys.s, x)
       else
         && (x.Chunk? ==> stage.Fresh? || stage.Taken?)
         && sys.write == (if stage.Fresh? then PacketOf(job, x) else [])
         && sys.responding == (stage.Taken? || stage.Sent? || stage.Early?)
         && sys.notes == (if stage.Sent? || stage.Awaiting? then [NoteOf(job, x)] else [])
         && sys.c.shown.written + WritesFrom(job, Succ(job, x)) == goal
         && Sides(job, sys, x, stage)
  }

  function StagesLeft(x: Exchange, stage: Stage): nat {
    if x.Chunk? then if stage.Fresh? then 2 else 1
    else match stage
         case Fresh => 4
         case Taken => 3
         case Acked => 2
         case Sent => 2
         case Early => 1
         case Awaiting => 1
  }

  /** Steps from the moment this exchange's write is issued. */
  function StepsFrom(job: Job, x: Exchange): nat
    requires Fits(job) && Transfer.Proper(job, x)
    decreases Rank(job, x)
  {
    if x.Done? then 0 else (if x.Chunk? then 2 else 4) + StepsFrom(job, Succ(job, x))
  }

  function Left(job: Job, x: Exchange, stage: Stage): nat
    requires Fits(job) && Transfer.Proper(job, x)
  {
    if x.Done? then 0 else StagesLeft(x, stage) + StepsFrom(job, Succ(job, x))
  }

  lemma PacketNotEmpty(job: Job, x: Exchange)
    requires Fits(job) && Transfer.Proper(job, x) && !x.Done?
    ensures PacketOf(job, x) != []
  {}

  /** What can happen next, stage by stage: nothing is ever overwritten, and unless the transfer
      is over something can happen. */
  lemma EnabledActions(job: Job, goal: nat, sys: System, x: Exchange, stage: Stage)
    requires Fits(job) && Transfer.Proper(job, x) && Config(job, goal, sys, x, stage)
    ensures forall a :: Enabled(sys, a) ==> !Overwrites(sys, a)
    ensures x.Done? <==> forall a: Action :: !Enabled(sys, a)
    ensures !x.Done? ==>
      (Enabled(sys, TakeWrite) <==> stage.Fresh?)
      && (Enabled(sys, SendNote) <==> !x.Chunk? && (stage.Taken? || stage.Acked?))
      && (Enabled(sys, Respond) <==> stage.Taken? || stage.Sent? || stage.Early?)
      && (Enabled(sys, HearNote) <==> stage.Sent? || stage.Awaiting?)
  {
    hide ReplyFits, FilesBounded, NearBounded, FilesAt, FileAnnounced;
    if !x.Done? {
      PacketNotEmpty(job, x);
      NoteFits(job, x);
    }
    assert Enabled(sys, TakeWrite) || Enabled(sys, SendNote) || Enabled(sys, Respond) || Enabled(sys, HearNote) || x.Done?;
  }

  /** The robot has everything for this exchange, so it is at the next. */
  lemma NextExchange(job: Job, goal: nat, sys: System, next: System, x: Exchange, c: Client, d: Client)
    requires Fits(job) && Transfer.Proper(job, x) && !x.Done? && Sane(next)
    requires Advanced(job, c, d, x) && c.shown.written + WritesFrom(job, Succ(job, x)) == goal
    requires next.c == d && ServerAt(job, next.s, Succ(job, x)) && !next.responding && next.notes == []
    requires next.write == if d.shown.written > c.shown.written then d.tx else []
    ensures Config(job, goal, next, Succ(job, x), Fresh)
  {
    hide ServerAt, ReplyFits, FilesBounded, NearBounded, FilesAt;
  }

  lemma StepTakeWrite(job: Job, goal: nat, sys: System, x: Exchange)
    requires Fits(job) && Transfer.Proper(job, x) && !x.Done? && Config(job, goal, sys, x, Fresh)
    ensures Enabled(sys, TakeWrite) && Config(job, goal, Step(sys, TakeWrite), x, Taken)
  {
    hide OnWrite, ServerAt, ReplyFits, FilesBounded, NearBounded, FilesAt, PacketOf;
    PacketNotEmpty(job, x);
    ServerTakes(job, sys.s, x);
  }

  lemma StepSendNote(job: Job, goal: nat, sys: System, x: Exchange, stage: Stage)
    requires Fits(job) && Transfer.Proper(job, x) && !x.Done? && !x.Chunk? && (stage.Taken? || stage.Acked?)
    requires Config(job, goal, sys, x, stage)
    ensures Enabled(sys, SendNote) && Config(job, goal, Step(sys, SendNote), x, if stage.Taken? then Sent else Awaiting)
  {
    hide FilesBounded, NearBounded, FilesAt, PacketOf, ClientAt;
    NoteFits(job, x);
  }

  lemma WritingPhase(x: Exchange)
    requires !x.Done?
    ensures Writing(PhaseOf(x)) && (PhaseOf(x).WriteFileData? <==> x.Chunk?)
  {}

  /** The completed write of an exchange whose answer is outstanding. */
  lemma Completes(job: Job, c: Client, x: Exchange)
    requires Fits(job) && Transfer.Proper(job, x) && !x.Done? && !x.Chunk? && ClientAt(job, c, x)
    ensures Deliver(c, QueryDone(c.connection, true), Willing) == Waits(c)
    ensures ClientWaits(job, Waits(c), x) && Waits(c).shown == c.shown
  {
    hide QueryComplete, Notification, FilesBounded, NearBounded, FilesAt, PacketOf;
    WritingPhase(x);
    NoteFits(job, x);
    AnswerFirst(c, NoteOf(job, x), Willing);
    assert SetPhase(Waits(c), PhaseOf(x)) == c;
  }

  lemma StepRespondWaiting(job: Job, goal: nat, sys: System, x: Exchange, stage: Stage)
    requires Fits(job) && Transfer.Proper(job, x) && !x.Done? && !x.Chunk? && (stage.Taken? || stage.Sent?)
    requires Config(job, goal, sys, x, stage)
    ensures Enabled(sys, Respond) && Config(job, goal, Step(sys, Respond), x, if stage.Taken? then Acked else Awaiting)
  {
    hide Deliver, ClientAt, ServerAt, ServerTook, Bounded, ReplyFits, FilesAt, PacketOf, ClientWaits, Waits;
    Completes(job, sys.c, x);
  }

  lemma StepRespondChunk(job: Job, goal: nat, sys: System, x: Exchange)
    requires Fits(job) && Transfer.Proper(job, x) && x.Chunk? && Config(job, goal, sys, x, Taken)
    ensures Enabled(sys, Respond) && Config(job, goal, Step(sys, Respond), Succ(job, x), Fresh)
  {
    hide QueryComplete, Bounded, ReplyFits, FilesAt, PacketOf, ServerAt;
    var c := sys.c;
    ClientChunked(job, c, x.k);
    NoteFits(job, x);
    WritingPhase(x);
    assert sys.s.(pending := []) == sys.s;
    NextExchange(job, goal, sys, Step(sys, Respond), x, c, QueryComplete(c, true, Willing));
  }

  lemma EarlyAnswer(job: Job, c: Client, x: Exchange)
    requires Fits(job) && Transfer.Proper(job, x) && !x.Done? && !x.Chunk? && Bounded(c) && ClientEarly(job, c, x)
    ensures Advanced(job, c.(pending := []), Deliver(c, QueryDone(c.connection, true), Willing), x)
  {
    hide QueryComplete, Notification, FilesBounded, NearBounded, FilesAt, PacketOf, NoteOf;
    var base := c.(pending := []);
    WritingPhase(x);
    NoteFits(job, x);
    ClientAnswered(job, base, x);
    AnswerFirst(base, c.pending, Willing);
    assert base.(pending := c.pending) == c;
  }

  lemma StepRespondEarly(job: Job, goal: nat, sys: System, x: Exchange)
    requires Fits(job) && Transfer.Proper(job, x) && !x.Done? && !x.Chunk? && Config(job, goal, sys, x, Early)
    ensures Enabled(sys, Respond) && Config(job, goal, Step(sys, Respond), Succ(job, x), Fresh)
  {
    hide Deliver, Bounded, ReplyFits, PacketOf, ServerAt, Advanced;
    var c := sys.c;
    EarlyAnswer(job, c, x);
    NextExchange(job, goal, sys, Step(sys, Respond), x, c.(pending := []), Deliver(c, QueryDone(c.connection, true), Willing));
  }

  lemma HearsEarly(job: Job, c: Client, x: Exchange)
    requires Fits(job) && Transfer.Proper(job, x) && !x.Done? && !x.Chunk? && ClientAt(job, c, x)
    ensures var d := Deliver(c, Notify(c.connection, true, NoteOf(job, x)), Willing);
      d == c.(pending := NoteOf(job, x)) && ClientEarly(job, d, x)
  {
    hide Notification, FilesBounded, NearBounded, FilesAt, PacketOf, NoteOf;
    WritingPhase(x);
    NoteFits(job, x);
    NotifyWhileWriting(c, NoteOf(job, x), Willing);
    assert c.(pending := NoteOf(job, x)).(pending := []) == c;
  }

  lemma StepHearEarly(job: Job, goal: nat, sys: System, x: Exchange)
    requires Fits(job) && Transfer.Proper(job, x) && !x.Done? && !x.Chunk? && Config(job, goal, sys, x, Sent)
    ensures Enabled(sys, HearNote) && Config(job, goal, Step(sys, HearNote), x, Early)
  {
    hide Deliver, Bounded, ReplyFits, PacketOf, ServerAt, ClientAt, ClientEarly, NoteOf;
    HearsEarly(job, sys.c, x);
  }

  lemma HearsAnswer(job: Job, c: Client, x: Exchange)
    requires Fits(job) && Transfer.Proper(job, x) && !x.Done? && !x.Chunk? && Bounded(c) && ClientWaits(job, c, x)
    ensures Advanced(job, SetPhase(c, PhaseOf(x)), Deliver(c, Notify(c.connection, true, NoteOf(job, x)), Willing), x)
  {
    hide Notification, FilesBounded, NearBounded, FilesAt, PacketOf, NoteOf;
    var base := SetPhase(c, PhaseOf(x));
    WritingPhase(x);
    NoteFits(job, x);
    ClientAnswered(job, base, x);
    AnswerFirst(base, NoteOf(job, x), Willing);
    assert Waits(base) == c;
  }

  lemma StepHearAnswer(job: Job, goal: nat, sys: System, x: Exchange)
    requires Fits(job) && Transfer.Proper(job, x) && !x.Done? && !x.Chunk? && Config(job, goal, sys, x, Awaiting)
    ensures Enabled(sys, HearNote) && Config(job, goal, Step(sys, HearNote), Succ(job, x), Fresh)
  {
    hide Deliver, Bounded, ReplyFits, PacketOf, ServerAt, Advanced, NoteOf;
    var c := sys.c;
    HearsAnswer(job, c, x);
    NextExchange(job, goal, sys, Step(sys, HearNote), x, SetPhase(c, PhaseOf(x)),
                 Deliver(c, Notify(c.connection, true, NoteOf(job, x)), Willing));
  }

  /** Whatever happens next brings the transfer exactly one step nearer its end. */
  lemma OneStep(job: Job, goal: nat, sys: System, x: Exchange, stage: Stage, a: Action) returns (y: Exchange, next: Stage)
    requires Fits(job) && Transfer.Proper(job, x) && Config(job, goal, sys, x, stage) && Enabled(sys, a)
    ensures Transfer.Proper(job, y) && Config(job, goal, Step(sys, a), y, next)
    ensures Left(job, y, next) + 1 == Left(job, x, stage)
  {
    hide Config, Step, Succ;
    EnabledActions(job, goal, sys, x, stage);
    StageFits(job, goal, sys, x, stage);
    y, next := x, stage;
    match a
    case TakeWrite =>
      StepTakeWrite(job, goal, sys, x);
      next := Taken;
    case SendNote =>
      StepSendNote(job, goal, sys, x, stage);
      next := if stage.Taken? then Sent else Awaiting;
    case Respond =>
      if x.Chunk? {
        StepRespondChunk(job, goal, sys, x);
        y, next := Succ(job, x), Fresh;
      } else if stage.Early? {
        StepRespondEarly(job, goal, sys, x);
        y, next := Succ(job, x), Fresh;
      } else {
        StepRespondWaiting(job, goal, sys, x, stage);
        next := if stage.Taken? then Acked else Awaiting;
      }
    case HearNote =>
      if stage.Sent? {
        StepHearEarly(job, goal, sys, x);
        next := Early;
      } else {
        StepHearAnswer(job, goal, sys, x);
        y, next := Succ(job, x), Fresh;
      }
  }

  lemma StageFits(job: Job, goal: nat, sys: System, x: Exchange, stage: Stage)
    requires Fits(job) && Transfer.Proper(job, x) && Config(job, goal, sys, x, stage)
    ensures Sane(sys) && (x.Chunk? ==> stage.Fresh? || stage.Taken?)
  {}
}
