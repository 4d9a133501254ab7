/** The text of a run on its way to the flash. Lines arrive from the foreground and, at any
    moment, from callbacks; a checkpoint moves what has arrived to the saved log. */
module RunReport {
  import opened Bytes
  import opened NorFlash
  import opened LogPage
  import opened ReportStore

  const REPORT_CAPACITY: nat := 32768
  const LINE_CAPACITY: nat := 512

  /** What the line buffer keeps of a line. */
  function Kept(line: seq<Byte>): seq<Byte> {
    if |line| >= LINE_CAPACITY then line[..LINE_CAPACITY - 1] else line
  }

  /** Where the accepted text is: saved, taken for saving, or pending. What is saved, with the
      page begun after it, is always a first part of it, and an end mark is only ever begun
      once all of it is saved. */
  ghost predicate Accounted(saved: seq<Byte>, tail: Tail, inFlight: seq<Byte>, pending: seq<Byte>, accepted: seq<Byte>) {
    && accepted == saved + (inFlight + pending)
    && saved + Ahead(tail) <= accepted
    && (Ended(tail) ==> accepted == saved)
  }

  predicate Ended(tail: Tail) {
    tail.Begun? && tail.end
  }

  lemma AccountLine(saved: seq<Byte>, tail: Tail, inFlight: seq<Byte>, pending: seq<Byte>, accepted: seq<Byte>, line: seq<Byte>)
    requires Accounted(saved, tail, inFlight, pending, accepted) && !Ended(tail)
    ensures Accounted(saved, tail, inFlight, pending + line, accepted + line)
  {
    assert saved + (inFlight + pending) + line == saved + (inFlight + (pending + line));
  }

  lemma AccountSnapshot(saved: seq<Byte>, tail: Tail, inFlight: seq<Byte>, pending: seq<Byte>, accepted: seq<Byte>)
    requires Accounted(saved, tail, inFlight, pending, accepted)
    ensures Accounted(saved, tail, inFlight + pending, [], accepted)
  {
    assert inFlight + pending == inFlight + pending + [];
  }

  /** The snapshot has followed what was saved, in full or in part. */
  lemma AccountSaved(before: seq<Byte>, was: Tail, data: seq<Byte>, saved: seq<Byte>, tail: Tail, rest: seq<Byte>,
                     pending: seq<Byte>, accepted: seq<Byte>)
    requires Accounted(before, was, data, pending, accepted)
    requires before + data == saved + rest && Follows(before, data, saved, tail) && !Ended(tail)
    ensures Accounted(saved, tail, rest, pending, accepted)
  {
    assert before + (data + pending) == before + data + pending;
    assert saved + (rest + pending) == saved + rest + pending;
  }

  lemma AccountEnd(saved: seq<Byte>, was: Tail, accepted: seq<Byte>, tail: Tail)
    requires Accounted(saved, was, [], [], accepted) && tail.Begun? && tail.chunk == []
    ensures Accounted(saved, tail, [], [], accepted)
  {}

  lemma TakenOver(before: seq<Byte>, chunk: seq<Byte>, rest: seq<Byte>)
    ensures before + (chunk + rest) == before + chunk + rest
  {}

  class Report {
    const journal: Journal
    var pending: seq<Byte>
    var active: bool
    var failed: bool
    var closed: bool
    ghost var inFlight: seq<Byte>   // taken from pending, not saved (yet)
    ghost var accepted: seq<Byte>   // every line taken in before closing, in order
    ghost var dropped: bool         // some line before closing was not

    ghost predicate Valid()
      reads this, journal, journal.flash
    {
      && journal.Valid() && |pending| <= REPORT_CAPACITY
      && (dropped ==> failed)
      && (active ==> journal.begun)
      && Accounted(journal.saved, journal.tail, inFlight, pending, accepted)
      && (Ended(journal.tail) ==> closed && !dropped)
    }

    /** No checkpoint is under way: what was taken is saved, unless the log has failed. */
    ghost predicate Settled()
      reads this, journal, journal.flash
    {
      Valid() && (journal.active ==> active && inFlight == []) && (!failed || !journal.begun ==> inFlight == [])
    }

    constructor (journal: Journal)
      requires journal.Valid() && !journal.active && !journal.begun
      ensures Settled() && this.journal == journal
      ensures accepted == [] && !dropped && !closed && !failed && !active
    {
      this.journal, pending, active, failed, closed := journal, [], false, false, false;
      inFlight, accepted, dropped := [], [], false;
    }

    /** `report_format` with the line as it would have been written in full: the line buffer
        keeps at most 511 bytes of it. */
    method Format(line: seq<Byte>)
      requires Valid()
      modifies this`pending, this`failed, this`accepted, this`dropped
      ensures Valid() && (old(failed) ==> failed)
      ensures closed ==> pending == old(pending) && failed == old(failed) && accepted == old(accepted) && dropped == old(dropped)
      ensures !closed && line != [] ==>
        if failed then dropped && accepted == old(accepted) && pending == old(pending)
        else pending == old(pending) + line && accepted == old(accepted) + line
      ensures !closed && line != [] && !old(failed) ==>
        (failed <==> |line| >= 512 || |old(pending)| + |line| > 32768)
      ensures (failed && !old(failed) ==> dropped) && (old(dropped) ==> dropped)
    {
      if line == [] { return; }
      var kept := Kept(line);
      if !closed {
        if |line| >= LINE_CAPACITY || |pending| + |kept| > REPORT_CAPACITY {
          failed, dropped := true, true;
        } else if !failed {
          AccountLine(journal.saved, journal.tail, inFlight, pending, accepted, kept);
          pending := pending + kept;
          accepted := accepted + kept;
        } else {
          dropped := true;
        }
      }
    }

    /** Any number of lines from callbacks. */
    method Callbacks()
      requires Valid()
      modifies this`pending, this`failed, this`accepted, this`dropped
      ensures Valid() && (old(failed) ==> failed)
      ensures closed ==> pending == old(pending) && failed == old(failed) && accepted == old(accepted) && dropped == old(dropped)
      ensures (failed && !old(failed) ==> dropped) && (old(dropped) ==> dropped)
    {
      var lines: nat :| lines >= 0;
      for i := 0 to lines
        invariant (failed && !old(failed) ==> dropped) && (old(dropped) ==> dropped)
        invariant Valid() && (old(failed) ==> failed)
        invariant closed ==> pending == old(pending) && failed == old(failed) && accepted == old(accepted) && dropped == old(dropped)
      {
        var line: seq<Byte> := *;
        Format(line);
      }
    }

    /** The critical section of a checkpoint: everything pending is taken, and callbacks may
        refill the buffer from here on. */
    method TakeSnapshot() returns (snapshot: seq<Byte>)
      requires Valid()
      modifies this`pending, this`inFlight
      ensures Valid() && snapshot == old(pending) && inFlight == old(inFlight) + snapshot && pending == []
    {
      AccountSnapshot(journal.saved, journal.tail, inFlight, pending, accepted);
      snapshot := pending;
      inFlight := inFlight + pending;
      pending := [];
    }

    /** One page of a checkpoint. */
    method SavePage(rest: seq<Byte>) returns (ok: bool, chunk: Chunk)
      requires Valid() && journal.active && inFlight == rest != []
      modifies this`inFlight, journal, journal.flash
      ensures Valid() && journal.begun && journal.active == ok
      ensures ok ==> chunk <= rest && inFlight == rest[|chunk|..] && journal.next == old(journal.next) + 1
      ensures |chunk| == if |rest| > PAGE_DATA then PAGE_DATA else |rest|
      ensures journal.flash.reliable ==> (ok <==> old(journal.next) < PAGE_COUNT - 1)
    {
      ghost var before, was := journal.saved, journal.tail;
      chunk := if |rest| > PAGE_DATA then rest[..PAGE_DATA] else rest;
      ok := journal.AppendChunk(chunk);
      ghost var left := if ok then rest[|chunk|..] else rest;
      assert before + rest == journal.saved + left by { assert rest == chunk + rest[|chunk|..]; TakenOver(before, chunk, rest[|chunk|..]); }
      if ok {
        PartFollows(before, chunk, [], rest, journal.tail);
      } else {
        PartFollows(before, [], chunk, rest, journal.tail);
        assert before + [] == before;
      }
      AccountSaved(before, was, rest, journal.saved, journal.tail, left, pending, accepted);
      inFlight := left;
    }

    /** The flash writes of a checkpoint, with callbacks between any two pages. */
    method SaveSnapshot(snapshot: seq<Byte>) returns (ok: bool)
      requires Valid() && (journal.active ==> inFlight == snapshot)
      modifies this`pending, this`failed, this`inFlight, this`accepted, this`dropped, journal, journal.flash
      ensures Valid() && journal.begun == old(journal.begun) && (old(failed) ==> failed)
      ensures journal.active == ok && (ok ==> old(journal.active) && inFlight == [])
      ensures journal.flash.reliable && old(journal.active) ==> (ok <==> old(journal.next) + Pages(|snapshot|) <= PAGE_COUNT - 1)
      ensures closed ==> accepted == old(accepted) && dropped == old(dropped) && pending == old(pending) && failed == old(failed)
      ensures (failed && !old(failed) ==> dropped) && (old(dropped) ==> dropped)
    {
      hide Accounted, TextImage, TailPage;
      if !journal.active { return false; }
      var rest := snapshot;
      while rest != []
        invariant (failed && !old(failed) ==> dropped) && (old(dropped) ==> dropped)
        invariant Valid() && journal.active && inFlight == rest && journal.begun == old(journal.begun)
        invariant journal.next + Pages(|rest|) == old(journal.next) + Pages(|snapshot|) && journal.next <= PAGE_COUNT - 1
        invariant old(failed) ==> failed
        invariant closed ==> accepted == old(accepted) && dropped == old(dropped) && pending == old(pending) && failed == old(failed)
        decreases |rest|
      {
        var chunk: Chunk;
        ok, chunk := SavePage(rest);
        if !ok { return; }
        rest := rest[|chunk|..];
        Callbacks();
      }
      ok := true;
    }

    /** The rest of a checkpoint after its snapshot. */
    method Deliver(snapshot: seq<Byte>) returns (ok: bool)
      requires Valid() && active && (snapshot == [] ==> inFlight == [] || failed)
      requires journal.active ==> inFlight == snapshot
      modifies this`pending, this`failed, this`inFlight, this`accepted, this`dropped, journal, journal.flash
      ensures Settled() && ok == !failed && journal.begun == old(journal.begun)
      ensures old(failed) ==> failed
      ensures closed ==> accepted == old(accepted) && dropped == old(dropped) && pending == old(pending)
      ensures (snapshot == [] && !old(failed) ==> ok) && (old(dropped) ==> dropped)
      ensures ok && old(journal.active) ==> journal.active
      ensures journal.flash.reliable && old(journal.active) && !old(failed) ==>
        old(journal.next) + Pages(|snapshot|) <= PAGE_COUNT - 1 ==> ok || dropped
    {
      hide Image, Accounted;
      if snapshot == [] { return !failed; }
      var saved := SaveSnapshot(snapshot);
      Callbacks();
      if !saved { failed := true; }
      ok := !failed;
    }

    /** `report_checkpoint`: callbacks run between the snapshot and the flash writes, and
        between those and the verdict. */
    method Checkpoint() returns (ok: bool)
      requires Settled()
      modifies this`pending, this`failed, this`inFlight, this`accepted, this`dropped, journal, journal.flash
      ensures Settled() && ok == !failed && journal.begun == old(journal.begun)
      ensures old(failed) ==> failed
      ensures closed ==> accepted == old(accepted) && dropped == old(dropped) && (active ==> pending == [])
      ensures !active ==> journal.flash.pages == old(journal.flash.pages)
      ensures old(dropped) ==> dropped
      ensures ok && old(journal.active) ==> journal.active
      ensures journal.flash.reliable && old(active) && old(journal.active) && !old(failed) ==>
        old(journal.next) + Pages(|old(pending)|) <= PAGE_COUNT - 1 ==> ok || dropped
    {
      hide Image, Accounted;
      if !active { return !failed; }
      var snapshot := TakeSnapshot();
      Callbacks();
      ok := Deliver(snapshot);
    }

    /** `report_begin`. */
    method Begin() returns (ok: bool)
      requires Settled() && !active && !journal.begun
      modifies this, journal, journal.flash
      ensures Settled() && ok == !failed && closed == old(closed)
      ensures !journal.begun ==>
        journal.flash.pages == old(journal.flash.pages) || Replay(journal.flash.pages) == NoRun
      ensures journal.flash.reliable && !old(failed) ==> ok || dropped
    {
      hide Image, Accounted;
      var begun := journal.Begin();
      Callbacks();
      active := begun;
      if !begun { failed := true; }
      PagesInClosedForm(|pending|);
      ok := Checkpoint();
    }

    /** `report_finish`: true only if a replay will say COMPLETE and give back exactly the
        accepted text. */
    method Finish() returns (ok: bool)
      requires Settled() && !closed
      modifies this, journal, journal.flash
      ensures Valid() && closed && !active && ok == !failed && accepted == old(accepted)
      ensures ok ==> journal.begun && Replay(journal.flash.pages) == Run(accepted, true)
      ensures journal.flash.reliable && old(active) && old(journal.active) && !old(failed) ==>
        old(journal.next) + Pages(|old(pending)|) <= PAGE_COUNT - 1 ==> ok || dropped
    {
      hide Image, Accounted, Replay, Whole, Concat, TailText;
      closed := true;
      ok := Checkpoint();
      if ok {
        ghost var was, wasActive := journal.tail, journal.active;
        var ended := journal.Finish();
        if wasActive { AccountEnd(journal.saved, was, accepted, journal.tail); }
        if ended {
          CompleteMeansEnd(journal.flash.pages, journal.chunks, journal.tail);
        } else {
          failed := true;
        }
      }
      active := false;
      ok := !failed;
    }
  }

  /** COMPLETE on replay means every line accepted before closing, in order, and none dropped,
      whatever the callbacks did and wherever the run stopped. */
  lemma CompleteMeansEverything(report: Report)
    requires report.Valid() && report.journal.begun
    ensures var run := Replay(report.journal.flash.pages);
      run.Run? && (run.complete ==> run.text == report.accepted && report.closed && !report.dropped)
  {
    var j := report.journal;
    CompleteMeansEnd(j.flash.pages, j.chunks, j.tail);
  }

  /** In every other case what replay finds is a first part of the accepted text, as long as a
      page with bytes missing does not pass the CRC check; which it cannot when at most seven
      of its bytes, or all but at most four of its text, were programmed. */
  lemma ReplayIsPrefix(report: Report)
    requires report.Valid() && report.journal.begun
    requires var j := report.journal;
      Unambiguous(j.tail) || (Passes(j.tail, |j.chunks| + 1) ==> Whole(j.tail, |j.chunks| + 1))
    ensures var run := Replay(report.journal.flash.pages);
      run.Run? && run.text <= report.accepted
  {
    var j := report.journal;
    if Unambiguous(j.tail) {
      UnambiguousTail(j.tail, |j.chunks| + 1);
    }
    WholePagesIff(j.flash.pages, j.chunks, j.tail);
    SavedPrefix(j.saved, Ahead(j.tail), report.accepted);
  }

  lemma SavedPrefix(saved: seq<Byte>, ahead: seq<Byte>, accepted: seq<Byte>)
    requires saved + ahead <= accepted
    ensures saved <= accepted
  {}

}
