/** One line, two destinations: the saved report, which fails rather than lose a byte, and the
    display queue, which may lose a whole line. */
module ReportOutput {
  import opened Bytes
  import opened RunReport
  import opened UsbQueue

  class Output {
    const report: Report
    const usb: Queue
    ghost var lines: seq<seq<Byte>>   // lines queued since the host was last seen missing
    ghost var shown: seq<Byte>        // and what of them has gone out

    ghost predicate Valid()
      reads this, report, report.journal, report.journal.flash, usb, usb.buffer
    {
      report.Valid() && usb.Valid() && shown + usb.Contents() == Concat(lines)
    }

    constructor (report: Report, usb: Queue)
      requires report.Valid() && usb.Valid() && usb.Contents() == []
      ensures Valid() && this.report == report && this.usb == usb && lines == [] && shown == []
    {
      this.report, this.usb, lines, shown := report, usb, [], [];
    }

    /** `report_format`: the saved report does what it does without a display, and the display
        shows whole lines in order, of which one is missing only if it found no room. */
    method Format(line: seq<Byte>, deferred: bool, connected: bool) returns (text: seq<Byte>)
      requires Valid()
      modifies this, report`pending, report`failed, report`accepted, report`dropped,
               usb`head, usb`length, usb`overflow, usb.buffer
      ensures Valid()
      ensures !report.closed && line != [] ==>
        if report.failed then report.dropped && report.accepted == old(report.accepted) else report.accepted == old(report.accepted) + line
      ensures !report.closed && line != [] && !old(report.failed) ==>
        (report.failed <==> |line| >= 512 || |old(report.pending)| + |line| > 32768)
      ensures report.closed ==> report.accepted == old(report.accepted) && report.failed == old(report.failed)
      ensures line != [] && |Kept(line)| <= USB_QUEUE_CAPACITY - old(usb.length) && (deferred || connected) ==>
        lines == old(lines) + [Kept(line)] && shown == old(shown) + text
      ensures line != [] && |Kept(line)| > USB_QUEUE_CAPACITY - old(usb.length) && (deferred || connected) ==>
        lines == old(lines) && shown == old(shown) + text
    {
      hide Accounted, Ended, Ring, Concat;
      text := [];
      report.Format(line);
      if line == [] { return; }
      var kept := Kept(line);
      ghost var before := usb.Contents();
      var room := |kept| <= USB_QUEUE_CAPACITY - usb.length;
      usb.Put(kept);
      if room {
        LineMore(lines, kept);
        assert shown + (before + kept) == shown + before + kept;
        lines := lines + [kept];
      }
      if !deferred { text := Flush(connected); }
    }

    /** `report_flush_usb`. */
    method Flush(connected: bool) returns (text: seq<Byte>)
      requires Valid()
      modifies this`lines, this`shown, usb`head, usb`length, usb`overflow
      ensures Valid()
      ensures connected ==> lines == old(lines) && shown == old(shown) + text
      ensures !connected ==> text == [] && lines == []
    {
      ghost var before := usb.Contents();
      var notice: bool;
      text, notice := usb.Flush(connected);
      if connected {
        assert shown + text + usb.Contents() == shown + (text + usb.Contents());
        shown := shown + text;
      } else {
        lines, shown := [], [];
      }
    }
  }

  lemma LineMore(lines: seq<seq<Byte>>, line: seq<Byte>)
    ensures Concat(lines + [line]) == Concat(lines) + line
  {
    assert (lines + [line])[..|lines|] == lines;
  }
}
