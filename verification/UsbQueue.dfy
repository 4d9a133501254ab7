/** The display queue between radio callbacks and the USB port: a ring that is written whole
    lines at a time and read in order; it may drop a line, never part of one. */
module UsbQueue {
  import opened Bytes

  const USB_QUEUE_CAPACITY: nat := 4096
  const USB_CHUNK: nat := 512

  function Slot(head: nat, k: nat): nat {
    (head + k) % 4096
  }

  function Ring(buffer: seq<Byte>, head: nat, length: nat): (s: seq<Byte>)
    requires |buffer| == USB_QUEUE_CAPACITY
    ensures |s| == length
  {
    seq(length, k requires 0 <= k => buffer[Slot(head, k)])
  }

  lemma SlotSum(head: nat, j: nat, k: nat)
    ensures Slot(Slot(head, j), k) == Slot(head, j + k)
  {
    var wraps := (head + j) / 4096;
    assert head + j == 4096 * wraps + Slot(head, j);
  }

  /** Taking from the front moves the head. */
  lemma RingRest(buffer: seq<Byte>, head: nat, length: nat, taken: nat)
    requires |buffer| == USB_QUEUE_CAPACITY && taken <= length
    ensures Ring(buffer, Slot(head, taken), length - taken) == Ring(buffer, head, length)[taken..]
    ensures Ring(buffer, head, taken) == Ring(buffer, head, length)[..taken]
  {
    forall k | 0 <= k < length - taken ensures Slot(Slot(head, taken), k) == Slot(head, taken + k) {
      SlotSum(head, taken, k);
    }
  }

  lemma SlotsApart(head: nat, j: nat, k: nat)
    requires j < k < USB_QUEUE_CAPACITY
    ensures Slot(head, j) != Slot(head, k)
  {}

  /** Writing the next free slot adds at the back. */
  lemma RingMore(buffer: seq<Byte>, head: nat, length: nat, b: Byte)
    requires |buffer| == USB_QUEUE_CAPACITY && length < USB_QUEUE_CAPACITY
    ensures Ring(buffer[Slot(head, length) := b], head, length + 1) == Ring(buffer, head, length) + [b]
  {
    forall k | 0 <= k < length ensures Slot(head, k) != Slot(head, length) {
      SlotsApart(head, k, length);
    }
  }

  class Queue {
    const buffer: array<Byte>
    var head: nat
    var length: nat
    var overflow: bool

    ghost predicate Valid()
      reads this, buffer
    {
      buffer.Length == USB_QUEUE_CAPACITY && head < USB_QUEUE_CAPACITY && length <= USB_QUEUE_CAPACITY
    }

    ghost function Contents(): seq<Byte>
      requires Valid()
      reads this, buffer
    {
      Ring(buffer[..], head, length)
    }

    constructor ()
      ensures Valid() && fresh(buffer) && Contents() == [] && !overflow
    {
      buffer := new Byte[USB_QUEUE_CAPACITY](_ => 0);
      head, length, overflow := 0, 0, false;
    }

    /** The queue's share of `report_format`. */
    method Put(line: seq<Byte>)
      requires Valid()
      modifies this`length, this`overflow, buffer
      ensures Valid()
      ensures |line| <= USB_QUEUE_CAPACITY - old(length) ==> Contents() == old(Contents()) + line && overflow == old(overflow)
      ensures |line| > USB_QUEUE_CAPACITY - old(length) ==> Contents() == old(Contents()) && overflow
    {
      if |line| <= USB_QUEUE_CAPACITY - length {
        ghost var was := Contents();
        for i := 0 to |line|
          invariant Ring(buffer[..], head, length + i) == was + line[..i]
          invariant length == old(length) && overflow == old(overflow)
        {
          RingMore(buffer[..], head, length + i, line[i]);
          buffer[(head + length + i) % USB_QUEUE_CAPACITY] := line[i];
          assert line[..i + 1] == line[..i] + [line[i]];
          assert was + line[..i] + [line[i]] == was + line[..i + 1];
        }
        assert line[..|line|] == line;
        length := length + |line|;
      } else {
        overflow := true;
      }
    }

    /** `report_flush_usb`: at most 512 bytes per call, from the front; everything is discarded
        while no host is connected. */
    method Flush(connected: bool) returns (text: seq<Byte>, notice: bool)
      requires Valid()
      modifies this`head, this`length, this`overflow
      ensures Valid() && !overflow
      ensures connected ==> text + Contents() == old(Contents()) && notice == old(overflow)
      ensures connected ==> |text| == if old(length) > 512 then 512 else old(length)
      ensures !connected ==> text == [] && Contents() == [] && !notice
    {
      if !connected {
        head, length, overflow := 0, 0, false;
        return [], false;
      }
      var taken := if length > USB_CHUNK then USB_CHUNK else length;
      text := [];
      for i := 0 to taken
        invariant text == Ring(buffer[..], head, i)
      {
        text := text + [buffer[(head + i) % USB_QUEUE_CAPACITY]];
      }
      RingRest(buffer[..], head, length, taken);
      head := (head + taken) % USB_QUEUE_CAPACITY;
      length := length - taken;
      notice := overflow;
      overflow := false;
    }
  }
}
