/** A beacon may answer before the robot learns that its write has completed. It makes no
    difference. */
module NotificationOrder {
  import opened Bytes
  import opened Crc
  import opened Protocol
  import opened TransferClient

  /** Closing forgets a kept notification, so it does not matter whether there was one. */
  lemma FailedForgets(c: Client, value: seq<Byte>, env: Env)
    requires c.pending == []
    ensures Failed(c.(pending := value), env) == Failed(c, env)
  {}

  lemma WriteKeeps(c: Client, value: seq<Byte>, packet: seq<Byte>, phase: Phase, env: Env)
    requires c.pending == []
    ensures var d := Write(c, packet, phase, env);
      Write(c.(pending := value), packet, phase, env) == if env.start then d.(pending := value) else d
    ensures Write(c, packet, phase, env).pending == []
  {
    var d := SetPhase(c, phase).(tx := packet, shown := c.shown.(written := c.shown.written + 1));
    FailedForgets(d, value, env);
  }

  lemma FailedIsOver(c: Client, env: Env)
    requires !ScanOn(c.st.phase)
    ensures Over(Failed(c, env).st.phase) && Failed(c, env).pending == []
  {}

  /** Notified first: what the end of the write then makes of it. */
  function NotifiedFirst(c: Client, value: seq<Byte>, ok: bool, env: Env): Client
    requires Bounded(c) && |value| <= PACKET_SIZE
  {
    QueryComplete(c.(pending := value), ok, env)
  }

  lemma ChunkFirst(c: Client, value: seq<Byte>, env: Env)
    requires Bounded(c) && c.st.phase.WriteFileData? && c.pending == [] && 1 <= |value| <= PACKET_SIZE && value[0] != ERROR
    ensures var d := QueryComplete(c, true, env);
      NotifiedFirst(c, value, true, env) == if env.start then Notification(d, value, env) else d
    ensures QueryComplete(c, true, env).pending == []
    ensures env.start <==> Writing(QueryComplete(c, true, env).st.phase)
    ensures !env.start ==> Over(QueryComplete(c, true, env).st.phase)
    ensures Bounded(QueryComplete(c, true, env))
  {
    hide Write, FilesBounded, NearBounded;
    BoundedQuery(c, true, env);
    var f := AfterPacket(c.files);
    var phase := if c.files.robotOffset == |c.files.robot| then WriteFileEnd else WriteFileData;
    WriteKeeps(c.(files := f), value, NextPacket(c.files), phase, env);
    WrittenPhase(c.(files := f), NextPacket(c.files), phase, env);
    assert c.(pending := value).(files := f) == c.(files := f).(pending := value);
  }

  lemma WrittenPhase(c: Client, packet: seq<Byte>, phase: Phase, env: Env)
    requires Writing(phase)
    ensures if env.start then Write(c, packet, phase, env).st.phase == phase else Over(Write(c, packet, phase, env).st.phase)
  {}

  lemma AnswerFirst(c: Client, value: seq<Byte>, env: Env)
    requires Bounded(c) && Writing(c.st.phase) && !c.st.phase.WriteFileData? && c.pending == []
    requires 1 <= |value| <= PACKET_SIZE
    ensures QueryComplete(c, true, env) == SetPhase(c, WaitPhase(c.st.phase))
    ensures !Writing(WaitPhase(c.st.phase)) && !Over(WaitPhase(c.st.phase))
    ensures Bounded(SetPhase(c, WaitPhase(c.st.phase)))
    ensures NotifiedFirst(c, value, true, env) == Notification(SetPhase(c, WaitPhase(c.st.phase)), value, env)
  {
    hide Notification, FilesBounded, NearBounded;
    var d := SetPhase(c, WaitPhase(c.st.phase));
    assert SetPhase(c.(pending := value), WaitPhase(c.st.phase)).(pending := []) == d;
  }

  /** "Notified, then written" and "written, then notified" leave the same state, whether the
      write succeeds or fails. */
  lemma OrderDoesNotMatter(c: Client, value: seq<Byte>, ok: bool, env: Env)
    requires Bounded(c) && Writing(c.st.phase) && c.pending == [] && !c.st.abort
    requires 1 <= |value| <= PACKET_SIZE && value[0] != ERROR
    ensures var notify, written := Notify(c.connection, true, value), QueryDone(c.connection, ok);
      && Bounded(Deliver(c, notify, env)) && Bounded(Deliver(c, written, env))
      && Deliver(Deliver(c, notify, env), written, env) == Deliver(Deliver(c, written, env), notify, env)
  {
    hide QueryComplete, Notification, Failed, FilesBounded, NearBounded;
    var notify, written := Notify(c.connection, true, value), QueryDone(c.connection, ok);
    BoundedDeliver(c, notify, env);
    BoundedDeliver(c, written, env);
    NotifyWhileWriting(c, value, env);
    assert Deliver(c, notify, env) == c.(pending := value);
    assert Deliver(Deliver(c, notify, env), written, env) == NotifiedFirst(c, value, ok, env);
    if !ok {
      FailedQuery(c, value, env);
    } else if c.st.phase.WriteFileData? {
      ChunkFirst(c, value, env);
      SameLink(c, env);
    } else {
      AnswerFirst(c, value, env);
    }
  }

  lemma NotifyWhileWriting(c: Client, value: seq<Byte>, env: Env)
    requires Bounded(c) && Writing(c.st.phase) && c.pending == [] && 1 <= |value| <= PACKET_SIZE && value[0] != ERROR
    ensures Notification(c, value, env) == c.(pending := value)
  {}

  lemma FailedQuery(c: Client, value: seq<Byte>, env: Env)
    requires Bounded(c) && Writing(c.st.phase) && c.pending == [] && |value| <= PACKET_SIZE
    ensures NotifiedFirst(c, value, false, env) == QueryComplete(c, false, env) == Failed(c, env)
    ensures Over(Failed(c, env).st.phase)
  {
    FailedForgets(c, value, env);
    FailedIsOver(c, env);
  }

  lemma SameLink(c: Client, env: Env)
    requires Bounded(c) && c.st.phase.WriteFileData? && c.pending == []
    ensures env.start ==> QueryComplete(c, true, env).connection == c.connection && !QueryComplete(c, true, env).st.abort == !c.st.abort
  {}

  lemma FailedWhileWriting(c: Client, env: Env)
    requires Writing(c.st.phase)
    ensures Over(Failed(c, env).st.phase)
  {}

  /** The slot holds one notification, of at most 20 bytes: a longer one ends the attempt, and so
      does a second one before the write is over. */
  lemma SecondNotificationFails(c: Client, first: seq<Byte>, second: seq<Byte>, env: Env)
    requires Bounded(c) && Writing(c.st.phase) && c.pending == []
    requires first != [] && second != [] && first[0] != ERROR && second[0] != ERROR
    ensures |first| > 20 ==> Over(Notification(c, first, env).st.phase)
    ensures |first| <= 20 ==> Notification(c, first, env) == c.(pending := first)
    ensures |first| <= 20 ==> Over(Notification(c.(pending := first), second, env).st.phase)
  {
    hide Failed, Answer, FilesBounded, NearBounded;
    FailedWhileWriting(c, env);
    FailedWhileWriting(c.(pending := first), env);
  }
}
