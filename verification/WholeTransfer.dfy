/** Whole transfers: every schedule the link allows takes the same number of steps and delivers
    both files. */
module WholeTransfer {
  import opened Bytes
  import opened Protocol
  import opened Trace
  import opened TransferClient
  import opened BeaconServer
  import opened Transfer
  import opened Schedule

  /** Actions that are each possible when they are taken. */
  ghost predicate Legal(sys: System, actions: seq<Action>)
    requires Sane(sys)
    decreases |actions|
  {
    actions == [] || (Enabled(sys, actions[0]) && Legal(Step(sys, actions[0]), actions[1..]))
  }

  ghost function After(sys: System, actions: seq<Action>): (end: System)
    requires Sane(sys) && Legal(sys, actions)
    ensures Sane(end)
    decreases |actions|
  {
    if actions == [] then sys else After(Step(sys, actions[0]), actions[1..])
  }

  /** No action on the way overwrites a kept notification. */
  ghost predicate NeverOverwrites(sys: System, actions: seq<Action>)
    requires Sane(sys) && Legal(sys, actions)
    decreases |actions|
  {
    actions == [] || (!Overwrites(sys, actions[0]) && NeverOverwrites(Step(sys, actions[0]), actions[1..]))
  }

  lemma {:induction false} EverySchedule(job: Job, goal: nat, sys: System, x: Exchange, stage: Stage, actions: seq<Action>)
    returns (y: Exchange, last: Stage)
    requires Fits(job) && Transfer.Proper(job, x) && Config(job, goal, sys, x, stage)
    requires Sane(sys) && Legal(sys, actions)
    ensures Transfer.Proper(job, y) && Config(job, goal, After(sys, actions), y, last)
    ensures Left(job, y, last) + |actions| == Left(job, x, stage)
    ensures NeverOverwrites(sys, actions)
    decreases |actions|
  {
    hide Config, Step, Bounded, ReplyFits, Left, Overwrites, Enabled;
    if actions == [] {
      y, last := x, stage;
    } else {
      EnabledActions(job, goal, sys, x, stage);
      var x1, s1 := OneStep(job, goal, sys, x, stage, actions[0]);
      y, last := EverySchedule(job, goal, Step(sys, actions[0]), x1, s1, actions[1..]);
    }
  }

  // How long a transfer is.

  /** Pieces of at most 17 bytes. */
  function Pieces(length: nat): nat {
    (length + 16) / 17
  }

  lemma {:induction false} ChunkSteps(job: Job, k: nat)
    requires Fits(job) && Transfer.Proper(job, Chunk(k))
    ensures StepsFrom(job, Chunk(k)) == 2 * (Pieces(|job.robot|) - k) + StepsFrom(job, FileEnd)
    ensures WritesFrom(job, Chunk(k)) == Pieces(|job.robot|) - k + WritesFrom(job, FileEnd)
    decreases |job.robot| - 17 * k
  {
    if 17 * (k + 1) < |job.robot| { ChunkSteps(job, k + 1); }
  }

  lemma {:induction false} ReplySteps(job: Job, j: nat)
    requires Fits(job) && Transfer.Proper(job, ReplyNext(j))
    ensures StepsFrom(job, ReplyNext(j)) == 4 * (Pieces(|job.text|) - j + 2)
    ensures WritesFrom(job, ReplyNext(j)) == Pieces(|job.text|) - j + 2
    decreases |job.text| + 17 - 17 * j
  {
    assert Succ(job, Finale) == Done;
    assert StepsFrom(job, Done) == 0 && WritesFrom(job, Done) == 0;
    assert StepsFrom(job, Finale) == 4 && WritesFrom(job, Finale) == 1;
    if 17 * j < |job.text| { ReplySteps(job, j + 1); }
  }

  /** n pieces of the robot's file and m of the reply take n + m + 6 writes and 2n + 4(m + 6) steps. */
  lemma TransferLength(job: Job)
    requires Fits(job)
    ensures StepsFrom(job, Hello) == 2 * Pieces(|job.robot|) + 4 * (Pieces(|job.text|) + 6)
    ensures WritesFrom(job, Hello) == Pieces(|job.robot|) + Pieces(|job.text|) + 6
  {
    if |job.robot| > 0 { ChunkSteps(job, 0); }
    ReplySteps(job, 0);
    assert StepsFrom(job, FileEnd) == 4 + StepsFrom(job, ReplyRequest);
    assert WritesFrom(job, FileEnd) == 1 + WritesFrom(job, ReplyRequest);
    assert StepsFrom(job, Hello) == 4 + StepsFrom(job, FileStart);
    assert WritesFrom(job, Hello) == 1 + WritesFrom(job, FileStart);
  }

  // From the subscription to the end.

  /** The subscription has just been confirmed and nothing is under way. */
  predicate Subscribed(job: Job, c: Client, s: Server) {
    && Bounded(c) && c.st.phase.EnableNotifications? && !c.st.abort && c.connection != INVALID && c.pending == []
    && c.files.robot == job.robot
    && ReplyFits(s) && s.text == job.text && s.notifying && s.connection != NO_CONNECTION && s.pending == []
  }

  /** The robot's first write, HELLO. */
  function Opening(c: Client, s: Server): System
    requires Bounded(c)
  {
    var d := Deliver(c, QueryDone(c.connection, true), Willing);
    System(d, s, d.tx, false, [])
  }

  lemma OpeningConfig(job: Job, c: Client, s: Server)
    requires Fits(job) && Subscribed(job, c, s)
    ensures Config(job, c.shown.written + WritesFrom(job, Hello), Opening(c, s), Hello, Fresh)
  {
    hide FilesBounded, NearBounded;
    BoundedDeliver(c, QueryDone(c.connection, true), Willing);
    SubscriptionDone(job, c);
  }

  lemma SubscriptionDone(job: Job, c: Client)
    requires Fits(job) && Bounded(c) && c.st.phase.EnableNotifications? && !c.st.abort && c.connection != INVALID
    requires c.pending == [] && c.files.robot == job.robot
    ensures var d := Deliver(c, QueryDone(c.connection, true), Willing);
      ClientAt(job, d, Hello) && d.shown.written == c.shown.written + 1
  {}

  /** What a finished transfer amounts to. */
  predicate Delivered(job: Job, sys: System) {
    && Bounded(sys.c) && sys.c.st.phase.Closing? && sys.c.st.closing == Complete && sys.c.shown.acked
    && sys.s.received == job.robot
    && sys.c.files.replyLength == |job.text| && ReplyText(sys.c.files) == job.text
  }

  /** Once the file has been announced the beacon never receives more of it than there is, and
      never more than its buffer holds. */
  lemma BeaconNeverOverflows(job: Job, goal: nat, sys: System, x: Exchange, stage: Stage)
    requires Fits(job) && Transfer.Proper(job, x) && Config(job, goal, sys, x, stage)
    requires !x.Hello? && !(x.FileStart? && stage.Fresh?)
    ensures |sys.s.received| <= |job.robot| <= MAX_FILE && sys.s.received <= job.robot
  {
    hide ClientAt, ClientWaits, ClientEarly, FilesBounded, NearBounded, NoteOf, PacketOf;
    assert job.robot[..|job.robot|] == job.robot;
  }

  lemma DoneIsDelivered(job: Job, goal: nat, sys: System)
    requires Fits(job) && Config(job, goal, sys, Done, Fresh)
    ensures Delivered(job, sys) && sys.c.shown.written == goal
  {
    assert job.text[..|job.text|] == job.text;
  }

  /** From the confirmed subscription on, with neither abort nor disconnection nor radio error:
      every schedule has at most 2n + 4(m + 6) steps and never overwrites a kept notification;
      one that cannot be continued has exactly that many, has taken n + m + 6 writes, and has
      delivered both files and the final answer. */
  lemma EveryTransferCompletes(job: Job, c: Client, s: Server, actions: seq<Action>)
    requires Fits(job) && Subscribed(job, c, s)
    requires Sane(Opening(c, s)) && Legal(Opening(c, s), actions)
    ensures var steps := 2 * Pieces(|job.robot|) + 4 * (Pieces(|job.text|) + 6);
      var end := After(Opening(c, s), actions);
      && |actions| <= steps && NeverOverwrites(Opening(c, s), actions)
      && ((forall a: Action :: !Enabled(end, a)) <==> |actions| == steps)
      && (|actions| == steps ==>
            Delivered(job, end) && end.c.shown.written == c.shown.written + Pieces(|job.robot|) + Pieces(|job.text|) + 6)
  {
    hide Config, Step, Bounded, ReplyFits, Enabled, Legal, NeverOverwrites, Delivered, StepsFrom, WritesFrom, Opening;
    var goal := c.shown.written + WritesFrom(job, Hello);
    OpeningConfig(job, c, s);
    TransferLength(job);
    StepsHello(job);
    var y, last := EverySchedule(job, goal, Opening(c, s), Hello, Fresh, actions);
    EnabledActions(job, goal, After(Opening(c, s), actions), y, last);
    if y.Done? {
      DoneStage(job, goal, After(Opening(c, s), actions), last);
      DoneIsDelivered(job, goal, After(Opening(c, s), actions));
    }
  }

  lemma StepsHello(job: Job)
    requires Fits(job)
    ensures StepsFrom(job, Hello) == Left(job, Hello, Fresh)
  {}

  lemma DoneStage(job: Job, goal: nat, sys: System, stage: Stage)
    requires Fits(job) && Config(job, goal, sys, Done, stage)
    ensures stage == Fresh
  {}

  /** Whatever a beacon has been through, one disconnection, one connection and one subscription
      later it is ready for a whole transfer again. */
  lemma ReadyAfterDisconnection(job: Job, c: Client, s: Server, handle: nat)
    requires Bounded(c) && c.st.phase.EnableNotifications? && !c.st.abort && c.connection != INVALID && c.pending == []
    requires c.files.robot == job.robot && ReplyFits(s) && s.text == job.text && handle != NO_CONNECTION
    ensures Subscribed(job, c, OnSubscribe(OnLink(OnDisconnect(s), handle), U16(1), handle))
  {
    U16RoundTrip(1);
    assert U16(1)[..2] == U16(1);
  }

  /** The disconnection that follows reports COMPLETE. */
  lemma DeliveredReports(job: Job, sys: System)
    requires Delivered(job, sys)
    ensures var d := Deliver(sys.c, Disconnection(sys.c.connection), Willing);
      d.st.result == Complete && !d.st.running && d.files == sys.c.files
  {}
}
