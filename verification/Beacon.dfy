/** The beacon as it runs: ATT and HCI callbacks updating buffers of fixed size and counters into
    them, each proved to do what BeaconServer says of it and to stay inside its buffers. */
module Beacon {
  import opened Bytes
  import opened Crc
  import opened Protocol
  import opened BeaconServer

  class Beacon {
    var progress: Progress
    var connection: nat
    var notificationsEnabled: bool
    const pendingNotification: array<Byte>
    var pendingLength: nat
    var expectedFileLength: nat
    var expectedFileCrc: Word
    const receivedFile: array<Byte>
    var receivedLength: nat
    var expectedSequence: Byte
    const replyText: seq<Byte>
    const replyFile: array<Byte>
    var replyLength: nat
    var replyOffset: nat
    var replySequence: Byte

    ghost predicate Shaped()
      reads this
    {
      && pendingNotification.Length == PACKET_SIZE && pendingLength <= PACKET_SIZE
      && receivedFile.Length == MAX_FILE && receivedLength <= MAX_FILE
      && replyFile.Length == REPLY_BUFFER && replyLength <= REPLY_BUFFER
      && pendingNotification != receivedFile && pendingNotification != replyFile && receivedFile != replyFile
    }

    /** What the buffers hold as far as they count. */
    ghost function State(): Server
      requires Shaped()
      reads this, pendingNotification, receivedFile, replyFile
    {
      Server(progress, connection, notificationsEnabled, pendingNotification[..pendingLength], expectedFileLength, expectedFileCrc,
             receivedFile[..receivedLength], expectedSequence, replyText, replyFile[..replyLength], replyOffset, replySequence)
    }

    ghost predicate Valid()
      reads this, pendingNotification, receivedFile, replyFile
    {
      Shaped() && ReplyFits(State())
    }

    constructor (replyText: seq<Byte>)
      requires |replyText| < REPLY_BUFFER
      ensures Valid() && State() == Idle(replyText)
      ensures fresh(pendingNotification) && fresh(receivedFile) && fresh(replyFile)
    {
      this.replyText := replyText;
      progress, connection, notificationsEnabled := Advertising, NO_CONNECTION, false;
      pendingNotification, pendingLength := new Byte[PACKET_SIZE](_ => 0), 0;
      receivedFile, receivedLength := new Byte[MAX_FILE](_ => 0), 0;
      replyFile, replyLength := new Byte[REPLY_BUFFER](_ => 0), 0;
      expectedFileLength, expectedFileCrc, expectedSequence := 0, 0, 0;
      replyOffset, replySequence := 0, 0;
    }

    /** `queue_notification`: one slot, overwritten by the next, of which no more is filled than
        it holds. */
    method QueueNotification(data: seq<Byte>)
      requires Shaped()
      modifies this`pendingLength, pendingNotification
      ensures Shaped() && State() == Queue(old(State()), data)
    {
      if !notificationsEnabled || connection == NO_CONNECTION { return; }
      var length := |data|;
      if length > PACKET_SIZE { length := PACKET_SIZE; }
      Store(pendingNotification, 0, data[..length]);
      pendingLength := length;
      StoredAt(old(pendingNotification[..]), 0, data[..length]);
      assert pendingNotification[..length] == pendingNotification[..][..length];
    }

    method SendSimple(kind: Byte, value: Byte)
      requires Shaped()
      modifies this`pendingLength, pendingNotification
      ensures Shaped() && State() == Queue(old(State()), [kind, value])
    {
      var packet := [kind, value];
      QueueNotification(packet);
    }

    /** `reset_transfer`. */
    method ResetTransfer()
      requires Shaped()
      modifies this`expectedFileLength, this`receivedLength, this`expectedFileCrc, this`expectedSequence, this`replyOffset,
               this`replySequence
      ensures Shaped() && State() == Reset(old(State()))
    {
      expectedFileLength := 0;
      receivedLength := 0;
      expectedFileCrc := 0;
      expectedSequence := 0;
      replyOffset := 0;
      replySequence := 0;
    }

    /** `send_reply_piece`. */
    method SendReplyPiece()
      requires Valid()
      modifies this`replyOffset, this`replySequence, this`pendingLength, pendingNotification
      ensures Shaped() && State() == SendReply(old(State()))
    {
      hide Queue;
      var reply := replyFile[..replyLength];
      if replyOffset == 0 && replySequence == 0 {
        var crc := TransferCrc32(reply);
        var packet := [REPLY_START] + U16(replyLength) + U32(crc);
        replySequence := 1;
        QueueNotification(packet);
        return;
      }
      if replyOffset < replyLength {
        var remaining := replyLength - replyOffset;
        var chunk := ChunkOf(remaining);
        var packet := [REPLY_DATA, Decrement(replySequence), chunk] + reply[replyOffset..replyOffset + chunk];
        replyOffset := replyOffset + chunk;
        replySequence := Increment(replySequence);
        QueueNotification(packet);
        return;
      }
      var crc := TransferCrc32(reply);
      QueueNotification([REPLY_END] + U32(crc));
    }

    method Refuse(code: Byte)
      requires Shaped()
      modifies this`progress, this`pendingLength, pendingNotification
      ensures Shaped() && State() == Reject(old(State()), code)
    {
      progress := Fault;
      SendSimple(ERROR, code);
    }

    method Hello(value: seq<Byte>)
      requires Shaped()
      modifies this, pendingNotification
      ensures Shaped() && State() == OnHello(old(State()), value)
    {
      hide Queue, Reject;
      if |value| < 3 || value[1] != PROTOCOL_VERSION || value[2] != BEACON_ID {
        Refuse(1);
        return;
      }
      ResetTransfer();
      progress := Handshake;
      SendSimple(HELLO_ACK, BEACON_ID);
    }

    method FileStart(value: seq<Byte>)
      requires Shaped()
      modifies this, pendingNotification
      ensures Shaped() && State() == OnFileStart(old(State()), value)
    {
      hide Queue, Reject;
      if |value| < 7 {
        Refuse(2);
        return;
      }
      expectedFileLength := ReadU16(value[1..3]);
      expectedFileCrc := ReadU32(value[3..7]);
      receivedLength := 0;
      expectedSequence := 0;
      assert receivedFile[..0] == [];
      if expectedFileLength > MAX_FILE {
        Refuse(3);
        return;
      }
      progress := Receiving;
      SendSimple(FILE_READY, BEACON_ID);
    }

    /** A chunk that is accepted lands in the buffer right behind the bytes received before it.
        `beyond` when it is accepted but there is no such place left; what the source's copy
        does to the memory behind the buffer is not modelled. */
    method FileData(value: seq<Byte>) returns (beyond: bool)
      requires Shaped()
      modifies this, pendingNotification, receivedFile
      ensures Shaped() && (beyond <==> !InBuffer(OnFileData(old(State()), value)))
      ensures State() == if beyond then old(State()) else OnFileData(old(State()), value)
      ensures receivedFile[receivedLength..] == old(receivedFile[..])[receivedLength..]
    {
      hide Queue, Reject;
      if |value| < 3 {
        Refuse(4);
        return false;
      }
      var sequence, chunk := value[1], value[2] as nat;
      if sequence != expectedSequence || chunk > DATA_BYTES || |value| != 3 + chunk
         || receivedLength + chunk > expectedFileLength {
        Refuse(5);
        return false;
      }
      if receivedLength + chunk > MAX_FILE { return true; }
      Store(receivedFile, receivedLength, value[3..]);
      StoredAt(old(receivedFile[..]), receivedLength, value[3..]);
      assert receivedFile[..receivedLength + chunk] == receivedFile[..][..receivedLength + chunk];
      assert old(receivedFile[..])[..receivedLength] == old(receivedFile[..receivedLength]);
      receivedLength := receivedLength + chunk;
      expectedSequence := Increment(expectedSequence);
      beyond := false;
    }

    method FileEnd()
      requires Shaped()
      modifies this, pendingNotification
      ensures Shaped() && State() == OnFileEnd(old(State()))
    {
      hide Queue;
      var crc := TransferCrc32(receivedFile[..receivedLength]);
      var valid := receivedLength == expectedFileLength && crc == expectedFileCrc;
      progress := if valid then FileVerified else Fault;
      var flag: Byte := if valid then 0 else 1;
      QueueNotification([FILE_RECEIVED, flag] + U32(crc));
    }

    /** The reply is formatted into its buffer, with the terminator that does not count. */
    method FormatReply()
      requires Valid()
      modifies this`replyLength, replyFile
      ensures Shaped() && State() == old(State()).(reply := replyText)
    {
      Store(replyFile, 0, replyText);
      StoredAt(old(replyFile[..]), 0, replyText);
      replyLength := |replyText|;
      assert replyFile[..][..replyLength] == replyText;
      replyFile[replyLength] := 0;
      assert replyFile[..replyLength] == replyText;
    }

    method ReplyRequest()
      requires Valid()
      modifies this, pendingNotification, replyFile
      ensures Shaped() && State() == OnReplyRequest(old(State()))
    {
      hide SendReply;
      FormatReply();
      replyOffset := 0;
      replySequence := 0;
      progress := SendingReply;
      SendReplyPiece();
    }

    /** `att_write_callback`: the buffers only ever hold what the writes so far call for. */
    method AttWrite(value: seq<Byte>) returns (beyond: bool)
      requires Valid()
      modifies this, pendingNotification, receivedFile, replyFile
      ensures Valid() && (beyond <==> !InBuffer(OnWrite(old(State()), value)))
      ensures State() == if beyond then old(State()) else OnWrite(old(State()), value)
    {
      beyond := false;
      hide OnHello, OnFileStart, OnFileData, OnFileEnd, OnReplyRequest, SendReply, Queue, Reject, ReplyFits;
      ReplyStaysFitting(State(), value);
      if value == [] { return; }
      if value[0] == HELLO {
        Hello(value);
      } else if value[0] == FILE_START {
        FileStart(value);
      } else if value[0] == FILE_DATA {
        beyond := FileData(value);
      } else if value[0] == FILE_END {
        FileEnd();
      } else if value[0] == REPLY_REQUEST {
        ReplyRequest();
      } else if value[0] == REPLY_NEXT {
        SendReplyPiece();
      } else if value[0] == COMPLETE {
        progress := Finished;
        SendSimple(COMPLETE_ACK, BEACON_ID);
      } else {
        Refuse(6);
      }
    }

    /** `att_write_callback` for the subscription. */
    method Subscribe(value: seq<Byte>, handle: nat)
      requires Valid()
      modifies this`notificationsEnabled, this`connection, this`progress
      ensures Valid() && State() == OnSubscribe(old(State()), value, handle)
    {
      notificationsEnabled := |value| >= 2 && ReadU16(value[..2]) == 1;
      connection := handle;
      progress := if notificationsEnabled then Ready else Linked;
    }

    method Connected(handle: nat)
      requires Valid()
      modifies this`connection, this`progress
      ensures Valid() && State() == OnLink(old(State()), handle)
    {
      connection := handle;
      progress := Linked;
    }

    method Disconnected()
      requires Valid()
      modifies this
      ensures Valid() && State() == OnDisconnect(old(State()))
    {
      connection := NO_CONNECTION;
      notificationsEnabled := false;
      pendingLength := 0;
      ResetTransfer();
      progress := Advertising;
    }

    /** The chance to send: what was queued goes out, once. */
    method CanSendNow() returns (sent: seq<Byte>)
      requires Valid()
      modifies this`pendingLength
      ensures Valid() && sent == old(State()).pending && State() == old(State()).(pending := [])
    {
      sent := pendingNotification[..pendingLength];
      if pendingLength != 0 {
        pendingLength := 0;
      }
    }
  }

  /** A buffer with some bytes stored at an offset. */
  function Stored(buffer: seq<Byte>, offset: nat, data: seq<Byte>): seq<Byte>
    requires offset + |data| <= |buffer|
  {
    buffer[..offset] + data + buffer[offset + |data|..]
  }

  lemma StoredAt(buffer: seq<Byte>, offset: nat, data: seq<Byte>)
    requires offset + |data| <= |buffer|
    ensures Stored(buffer, offset, data)[..offset + |data|] == buffer[..offset] + data
  {}

  /** `memcpy` into a buffer. */
  method Store(buffer: array<Byte>, offset: nat, data: seq<Byte>)
    requires offset + |data| <= buffer.Length
    modifies buffer
    ensures buffer[..] == Stored(old(buffer[..]), offset, data)
  {
    for k := 0 to |data|
      invariant buffer[..offset] == old(buffer[..offset])
      invariant buffer[offset..offset + k] == data[..k]
      invariant buffer[offset + |data|..] == old(buffer[offset + |data|..])
    {
      buffer[offset + k] := data[k];
    }
    assert buffer[..] == buffer[..offset] + buffer[offset..offset + |data|] + buffer[offset + |data|..];
  }
}
