/** The crash-safe log: pages written once each, and a replay that recovers what is whole. */
module ReportStore {
  import opened Bytes
  import opened Crc
  import opened NorFlash
  import opened LogPage

  // What replay makes of the flash.

  datatype Replayed = NoRun | Run(text: seq<Byte>, complete: bool)

  predicate IsEnd(p: Page) {
    Magic(p) == END_MAGIC && Length(p) == 0
  }

  predicate IsStart(p: Page) {
    ValidAt(p, 0) && Magic(p) == START_MAGIC && Length(p) == 0
  }

  predicate IsText(p: Page) {
    Magic(p) == DATA_MAGIC && Length(p) != 0
  }

  /** The recovered text from page i on: up to the first page that is not a valid record. */
  function ReplayFrom(pages: seq<Page>, i: nat): (run: Replayed)
    requires i <= |pages|
    ensures run.Run?
    decreases |pages| - i
  {
    if i == |pages| || !ValidAt(pages[i], i) then Run([], false)
    else if IsEnd(pages[i]) then Run([], true)
    else if !IsText(pages[i]) then Run([], false)
    else
      var rest := ReplayFrom(pages, i + 1);
      Run(Data(pages[i]) + rest.text, rest.complete)
  }

  function Replay(pages: seq<Page>): Replayed
    requires |pages| == PAGE_COUNT
  {
    if !IsStart(pages[0]) then NoRun else ReplayFrom(pages, 1)
  }

  // What a run leaves on the flash, at every moment.

  /** The page after the last whole one: erased, or begun with its first bytes. */
  type Chunk = s: seq<Byte> | 0 < |s| <= PAGE_DATA witness [0]

  datatype Tail = Untouched | Begun(end: bool, chunk: Text, done: nat)

  predicate TailOk(tail: Tail) {
    tail.Begun? ==> tail.done <= PAGE_BYTES && (if tail.end then tail.chunk == [] else tail.chunk != [])
  }

  /** The record the tail was to become, and as much of it as is there. */
  function TailRecord(tail: Tail, i: nat): Page
    requires tail.Begun? && i < PAGE_COUNT
  {
    MakePage(if tail.end then END_MAGIC else DATA_MAGIC, i, tail.chunk)
  }

  function TailPage(tail: Tail, i: nat): Page
    requires i < PAGE_COUNT && TailOk(tail)
  {
    if tail.Untouched? then BlankPage() else Torn(TailRecord(tail, i), tail.done)
  }

  /** A begun run without its tail: the start record, one record per chunk, erased pages. */
  function TextImage(chunks: seq<Chunk>): (pages: seq<Page>)
    requires |chunks| + 1 < PAGE_COUNT
    ensures |pages| == PAGE_COUNT
  {
    if chunks == [] then [MakePage(START_MAGIC, 0, [])] + BlankPages(PAGE_COUNT - 1)
    else TextImage(chunks[..|chunks| - 1])[|chunks| := MakePage(DATA_MAGIC, |chunks|, chunks[|chunks| - 1])]
  }

  /** What a begun run leaves on the flash at every moment. */
  ghost predicate Image(pages: seq<Page>, chunks: seq<Chunk>, tail: Tail) {
    && |chunks| + 1 < PAGE_COUNT && TailOk(tail)
    && pages == TextImage(chunks)[|chunks| + 1 := TailPage(tail, |chunks| + 1)]
  }

  /** One text record per chunk, in order, after the start record. */
  ghost predicate TextPages(pages: seq<Page>, chunks: seq<Chunk>) {
    && |pages| == PAGE_COUNT && |chunks| + 1 < PAGE_COUNT
    && forall j :: 0 <= j < |chunks| ==> pages[j + 1] == MakePage(DATA_MAGIC, j + 1, chunks[j])
  }

  lemma {:induction false} TextImagePages(chunks: seq<Chunk>)
    requires |chunks| + 1 < PAGE_COUNT
    ensures var pages := TextImage(chunks);
      && TextPages(pages, chunks) && pages[0] == MakePage(START_MAGIC, 0, [])
      && forall j :: |chunks| < j < PAGE_COUNT ==> pages[j] == BlankPage()
  {
    hide MakePage, BlankPage;
    if chunks == [] {
      FirstImage();
    } else {
      var n := |chunks| - 1;
      TextImagePages(chunks[..n]);
      TextImageMore(TextImage(chunks[..n]), chunks[..n], chunks[n]);
      assert chunks == chunks[..n] + [chunks[n]];
    }
  }

  lemma FirstImage()
    ensures TextImage([])[0] == MakePage(START_MAGIC, 0, [])
    ensures forall j :: 0 < j < PAGE_COUNT ==> TextImage([])[j] == BlankPage()
  {
    hide MakePage, BlankPage;
  }

  lemma TextImageMore(pages: seq<Page>, chunks: seq<Chunk>, chunk: Chunk)
    requires TextPages(pages, chunks) && |chunks| + 2 < PAGE_COUNT
    ensures TextPages(pages[|chunks| + 1 := MakePage(DATA_MAGIC, |chunks| + 1, chunk)], chunks + [chunk])
  {}

  /** Page by page. */
  lemma ImagePages(pages: seq<Page>, chunks: seq<Chunk>, tail: Tail)
    requires Image(pages, chunks, tail)
    ensures TextPages(pages, chunks) && pages[0] == MakePage(START_MAGIC, 0, [])
    ensures pages[|chunks| + 1] == TailPage(tail, |chunks| + 1)
    ensures |chunks| + 2 < PAGE_COUNT ==> pages[|chunks| + 2] == BlankPage()
  {
    TextImagePages(chunks);
  }

  /** The tail passes for a record. */
  predicate Passes(tail: Tail, i: nat)
    requires i < PAGE_COUNT && TailOk(tail)
  {
    ValidAt(TailPage(tail, i), i)
  }

  /** The tail is all there. */
  predicate Whole(tail: Tail, i: nat)
    requires i < PAGE_COUNT && TailOk(tail)
  {
    tail.Begun? && TailPage(tail, i) == TailRecord(tail, i)
  }

  /** A passing tail keeps its header, so it is an end mark exactly if it was to be one. */
  lemma PassingTail(tail: Tail, i: nat)
    requires 0 < i < PAGE_COUNT && TailOk(tail) && Passes(tail, i)
    ensures tail.Begun? && tail.done >= 8
    ensures Length(TailPage(tail, i)) == |tail.chunk|
    ensures tail.end <==> IsEnd(TailPage(tail, i))
    ensures !tail.end <==> IsText(TailPage(tail, i))
  {
    if tail.Untouched? {
      BlankInvalid(i);
    } else {
      var magic := if tail.end then END_MAGIC else DATA_MAGIC;
      MadePage(magic, i, tail.chunk);
      if tail.done <= 7 {
        TornHeaderInvalid(TailRecord(tail, i), tail.done, i);
      } else {
        TornHeader(TailRecord(tail, i), tail.done);
      }
    }
  }

  /** The end mark is recognised only when every byte of it is there. */
  lemma EndNeedsWhole(tail: Tail, i: nat)
    requires 0 < i < PAGE_COUNT && TailOk(tail) && tail.Begun? && tail.end
    ensures Passes(tail, i) <==> Whole(tail, i)
  {
    TornEmptyRecord(END_MAGIC, i, tail.done);
  }

  lemma EndHasNoText(tail: Tail, i: nat)
    requires 0 < i < PAGE_COUNT && TailOk(tail) && tail.Begun? && tail.end
    ensures TailText(tail, i) == []
  {
    if Passes(tail, i) {
      PassingTail(tail, i);
    }
  }

  function TailText(tail: Tail, i: nat): seq<Byte>
    requires 0 < i < PAGE_COUNT && TailOk(tail)
  {
    if Passes(tail, i) && Length(TailPage(tail, i)) <= PAGE_DATA then Data(TailPage(tail, i)) else []
  }

  lemma ReplayTail(pages: seq<Page>, chunks: seq<Chunk>, tail: Tail)
    requires Image(pages, chunks, tail)
    ensures var n := |chunks| + 1;
      ReplayFrom(pages, n) == Run(TailText(tail, n), Passes(tail, n) && tail.Begun? && tail.end)
  {
    var n := |chunks| + 1;
    ImagePages(pages, chunks, tail);
    if Passes(tail, n) {
      PassingTail(tail, n);
      if tail.end {
        assert |TailText(tail, n)| == 0;
      } else {
        assert ReplayFrom(pages, n + 1) == Run([], false) by {
          if n + 1 < PAGE_COUNT { BlankInvalid(n + 1); }
        }
      }
    }
  }

  lemma ReplayText(pages: seq<Page>, i: nat, chunk: Chunk)
    requires 0 < i < PAGE_COUNT == |pages| && pages[i] == MakePage(DATA_MAGIC, i, chunk)
    ensures var rest := ReplayFrom(pages, i + 1);
      ReplayFrom(pages, i) == Run(chunk + rest.text, rest.complete)
  {
    MadePage(DATA_MAGIC, i, chunk);
  }

  function Join(text: seq<Byte>, rest: Replayed): Replayed {
    if rest.Run? then Run(text + rest.text, rest.complete) else NoRun
  }

  lemma JoinMore(a: seq<Byte>, b: seq<Byte>, rest: Replayed)
    ensures Join(a, Join(b, rest)) == Join(a + b, rest)
  {
    if rest.Run? {
      assert a + (b + rest.text) == a + b + rest.text;
    }
  }

  lemma JoinLast(text: seq<Byte>, complete: bool)
    ensures Join(text, Run([], complete)) == Run(text, complete)
  {
    assert text + [] == text;
  }

  /** If each stage adds its own chunk, all of them together add all the chunks. */
  lemma {:induction false} JoinAll(stage: nat -> Replayed, chunks: seq<seq<Byte>>, i: nat)
    requires i <= |chunks|
    requires forall j :: i <= j < |chunks| ==> stage(j) == Join(chunks[j], stage(j + 1))
    ensures stage(i) == Join(Concat(chunks[i..]), stage(|chunks|)) || !stage(|chunks|).Run?
    decreases |chunks| - i
  {
    if i == |chunks| {
      assert chunks[i..] == [];
    } else {
      JoinAll(stage, chunks, i + 1);
      if stage(|chunks|).Run? {
        ConcatMore(chunks, i, stage(|chunks|).text);
      }
    }
  }

  lemma StageAt(pages: seq<Page>, stage: nat -> Replayed, chunks: seq<Chunk>, j: nat)
    requires TextPages(pages, chunks) && j < |chunks|
    requires stage(j) == ReplayFrom(pages, j + 1) && stage(j + 1) == ReplayFrom(pages, j + 2)
    ensures stage(j) == Join(chunks[j], stage(j + 1))
  {
    ReplayText(pages, j + 1, chunks[j]);
  }

  lemma StagesJoin(pages: seq<Page>, stage: nat -> Replayed, chunks: seq<Chunk>)
    requires TextPages(pages, chunks)
    requires forall j {:trigger stage(j)} :: 0 <= j <= |chunks| ==> stage(j) == ReplayFrom(pages, j + 1)
    ensures stage(0) == Join(Concat(chunks), stage(|chunks|))
  {
    hide ReplayFrom, Join;
    forall j | 0 <= j < |chunks| ensures stage(j) == Join(chunks[j], stage(j + 1)) {
      StageAt(pages, stage, chunks, j);
    }
    assert stage(|chunks|).Run?;
    JoinAll(stage, chunks, 0);
    assert chunks[0..] == chunks;
  }

  lemma ReplayChunks(pages: seq<Page>, chunks: seq<Chunk>)
    requires TextPages(pages, chunks)
    ensures ReplayFrom(pages, 1) == Join(Concat(chunks), ReplayFrom(pages, |chunks| + 1))
  {
    hide ReplayFrom, Join, Concat, MakePage;
    var stage := (j: nat) => if j < |pages| then ReplayFrom(pages, j + 1) else NoRun;
    StagesJoin(pages, stage, chunks);
  }

  lemma ConcatMore(chunks: seq<seq<Byte>>, i: nat, text: seq<Byte>)
    requires i < |chunks|
    ensures chunks[i] + (Concat(chunks[i + 1..]) + text) == Concat(chunks[i..]) + text
  {
    ConcatFirst(chunks[i..]);
    assert chunks[i..][1..] == chunks[i + 1..];
  }

  lemma {:induction false} ConcatFirst(chunks: seq<seq<Byte>>)
    requires chunks != []
    ensures Concat(chunks) == chunks[0] + Concat(chunks[1..])
  {
    var n := |chunks| - 1;
    if n > 0 {
      ConcatFirst(chunks[..n]);
      assert chunks[..n][1..] == chunks[1..][..n - 1];
    }
  }

  /** Whatever moment the power fails at, replay finds every whole page in order, and then the
      tail exactly if it passes the check. */
  lemma ReplayOfImage(pages: seq<Page>, chunks: seq<Chunk>, tail: Tail)
    requires Image(pages, chunks, tail)
    ensures var n := |chunks| + 1;
      Replay(pages) == Run(Concat(chunks) + TailText(tail, n), Passes(tail, n) && tail.Begun? && tail.end)
  {
    MadePage(START_MAGIC, 0, []);
    ImagePages(pages, chunks, tail);
    ReplayTail(pages, chunks, tail);
    ReplayChunks(pages, chunks);
  }

  // What replay reads off any flash at all.

  /** A page that begins with the record of this text: header, CRC and text, byte by byte. */
  predicate Carries(p: Page, magic: Word, i: nat, data: Text)
    requires i < PAGE_COUNT
  {
    && p[..8] == U32(magic) + U16(i) + U16(|data|)
    && p[8..12] == U32(Crc32(p[..8] + data))
    && p[12..12 + |data|] == data
  }

  lemma SameFields(header: seq<Byte>, magic: Word, i: nat, n: nat)
    requires |header| == 8 && i < PAGE_COUNT && n <= PAGE_DATA
    requires ReadU32(header[..4]) == magic && ReadU16(header[4..6]) == i && ReadU16(header[6..8]) == n
    ensures header == Header(magic, i, n)
  {
    HeaderParts(magic, i, n);
    U32RoundTrip(magic);
    U16RoundTrip(i);
    U16RoundTrip(n);
    U32Injective(header[..4], U32(magic));
    U16Injective(header[4..6], U16(i));
    U16Injective(header[6..8], U16(n));
    Split3(header, 4, 6);
    Split3(Header(magic, i, n), 4, 6);
  }

  /** The check passes exactly the pages that carry a record of theirs. */
  lemma PassesIffCarried(p: Page, magic: Word, i: nat, data: Text)
    requires i < PAGE_COUNT
    ensures Carries(p, magic, i, data) <==>
      ValidAt(p, i) && Magic(p) == magic && Length(p) == |data| && Data(p) == data
  {
    SubSlices(p);
    if Carries(p, magic, i, data) {
      HeaderFields(p, magic, i, |data|);
      U32RoundTrip(Crc32(p[..8] + data));
    } else if ValidAt(p, i) && Magic(p) == magic && Length(p) == |data| && Data(p) == data {
      SameFields(p[..8], magic, i, |data|);
      U32RoundTrip(Crc32(p[..8] + data));
      U32Injective(p[8..12], U32(Crc32(p[..8] + data)));
    }
  }

  /** From page i on there is one text record for each chunk, and then the end record if
      `complete`, and otherwise neither it nor another text record. */
  ghost predicate ReadsAs(pages: seq<Page>, i: nat, chunks: seq<Chunk>, complete: bool)
    requires |pages| == PAGE_COUNT
  {
    && i + |chunks| <= PAGE_COUNT
    && (forall j :: 0 <= j < |chunks| ==> Carries(pages[i + j], 0x31415444, i + j, chunks[j]))
    && (complete ==> i + |chunks| < PAGE_COUNT && EndAt(pages[i + |chunks|], i + |chunks|))
    && (!complete && i + |chunks| < PAGE_COUNT ==> Foreign(pages[i + |chunks|], i + |chunks|))
  }

  predicate EndAt(p: Page, i: nat)
    requires i < PAGE_COUNT
  {
    Carries(p, 0x31444e45, i, [])
  }

  ghost predicate Foreign(p: Page, i: nat)
    requires i < PAGE_COUNT
  {
    !EndAt(p, i) && forall chunk: Chunk :: !Carries(p, 0x31415444, i, chunk)
  }

  lemma StopsAt(pages: seq<Page>, i: nat)
    requires i < |pages| == PAGE_COUNT
    ensures EndAt(pages[i], i) ==> ReplayFrom(pages, i) == Run([], true)
    ensures Foreign(pages[i], i) ==> ReplayFrom(pages, i) == Run([], false)
    ensures !EndAt(pages[i], i) && !Foreign(pages[i], i) ==>
      ValidAt(pages[i], i) && IsText(pages[i]) && Carries(pages[i], 0x31415444, i, Data(pages[i]))
  {
    hide ValidAt, Carries;
    var p := pages[i];
    PassesIffCarried(p, 0x31444e45, i, []);
    if ValidAt(p, i) && IsText(p) {
      assert Length(p) <= PAGE_DATA by { LengthFits(p, i); }
      PassesIffCarried(p, 0x31415444, i, Data(p));
      var chunk: Chunk := Data(p);
      assert Carries(p, 0x31415444, i, chunk);
    } else {
      forall chunk: Chunk ensures !Carries(p, 0x31415444, i, chunk) {
        PassesIffCarried(p, 0x31415444, i, chunk);
      }
    }
    if ValidAt(p, i) && IsEnd(p) {
      assert Length(p) <= PAGE_DATA by { LengthFits(p, i); }
      assert Data(p) == [];
    }
  }

  lemma LengthFits(p: Page, i: nat)
    requires ValidAt(p, i)
    ensures Length(p) <= PAGE_DATA
  {}

  lemma {:induction false} ReplayReadsFrom(pages: seq<Page>, i: nat) returns (chunks: seq<Chunk>)
    requires i <= |pages| == PAGE_COUNT
    ensures ReadsAs(pages, i, chunks, ReplayFrom(pages, i).complete) && ReplayFrom(pages, i).text == Concat(chunks)
    decreases PAGE_COUNT - i
  {
    hide ValidAt, Carries, EndAt, Foreign;
    chunks := [];
    if i < PAGE_COUNT {
      StopsAt(pages, i);
      if !EndAt(pages[i], i) && !Foreign(pages[i], i) {
        LengthFits(pages[i], i);
        var rest := ReplayReadsFrom(pages, i + 1);
        var chunk: Chunk := Data(pages[i]);
        chunks := [chunk] + rest;
        ConcatFirst(chunks);
        assert chunks[1..] == rest;
        assert !IsEnd(pages[i]);
      }
    }
  }

  /** Whatever is on the flash: a run is reported exactly if page 0 carries the start record, its
      text is that of the text records that follow one another from page 1 on, each with its own
      number in it, and it is complete exactly if the page after them carries the end record. */
  lemma ReplayReads(pages: seq<Page>)
    requires |pages| == PAGE_COUNT
    ensures Replay(pages).Run? <==> Carries(pages[0], 0x31474f4c, 0, [])
    ensures Replay(pages).Run? ==>
      exists chunks: seq<Chunk> ::
        ReadsAs(pages, 1, chunks, Replay(pages).complete) && Replay(pages).text == Concat(chunks)
  {
    hide ValidAt, Carries, ReadsAs;
    PassesIffCarried(pages[0], 0x31474f4c, 0, []);
    if IsStart(pages[0]) {
      LengthFits(pages[0], 0);
      assert Data(pages[0]) == [];
    }
    var chunks := ReplayReadsFrom(pages, 1);
  }

  /** COMPLETE means that the whole end mark is there, after all the text there ever was. */
  lemma CompleteMeansEnd(pages: seq<Page>, chunks: seq<Chunk>, tail: Tail)
    requires Image(pages, chunks, tail)
    ensures Replay(pages).Run?
    ensures Replay(pages).complete <==> tail.Begun? && tail.end && Whole(tail, |chunks| + 1)
    ensures Replay(pages).complete ==> Replay(pages).text == Concat(chunks)
  {
    var n := |chunks| + 1;
    ReplayOfImage(pages, chunks, tail);
    if tail.Begun? && tail.end {
      EndHasNoText(tail, n);
      EndNeedsWhole(tail, n);
      SamePrefix(Concat(chunks), TailText(tail, n), []);
    }
  }

  lemma TailTextIff(tail: Tail, i: nat)
    requires 0 < i < PAGE_COUNT && TailOk(tail)
    ensures TailText(tail, i) == [] || (tail.Begun? && Whole(tail, i) && TailText(tail, i) == tail.chunk)
            <==> (Passes(tail, i) ==> Whole(tail, i))
  {
    if Passes(tail, i) {
      PassingTail(tail, i);
      if tail.end {
        EndNeedsWhole(tail, i);
      } else {
        assert |TailText(tail, i)| > 0;
        if Whole(tail, i) {
          MadePage(DATA_MAGIC, i, tail.chunk);
        }
      }
    }
  }

  lemma SamePrefix(a: seq<Byte>, x: seq<Byte>, y: seq<Byte>)
    ensures a + x == a + y <==> x == y
    ensures a + x == a <==> x == []
  {
    if a + x == a + y {
      assert x == (a + x)[|a|..] && y == (a + y)[|a|..];
    }
    if x == [] {
      assert a + x == a;
    } else {
      assert |a + x| > |a|;
    }
  }

  /** Replay recovers whole pages only, exactly unless a page of which some bytes are missing
      passes the CRC check. */
  lemma WholePagesIff(pages: seq<Page>, chunks: seq<Chunk>, tail: Tail)
    requires Image(pages, chunks, tail)
    ensures Replay(pages).Run?
    ensures var n, text := |chunks| + 1, Replay(pages).text;
      (text == Concat(chunks) || (tail.Begun? && Whole(tail, n) && text == Concat(chunks) + tail.chunk))
      <==> (Passes(tail, n) ==> Whole(tail, n))
  {
    var n := |chunks| + 1;
    ReplayOfImage(pages, chunks, tail);
    TailTextIff(tail, n);
    SamePrefix(Concat(chunks), TailText(tail, n), if tail.Begun? then tail.chunk else []);
  }

  /** The page that was being written leaves no doubt when at most seven of its bytes, or all
      but at most four of its text, had been programmed, or when it was the end mark. */
  predicate Unambiguous(tail: Tail) {
    tail.Untouched? || tail.end || tail.done <= 7 || (tail.done >= 12 && 12 + |tail.chunk| <= tail.done + 4)
  }

  lemma UnambiguousTail(tail: Tail, i: nat)
    requires 0 < i < PAGE_COUNT && TailOk(tail) && Unambiguous(tail)
    ensures Passes(tail, i) ==> Whole(tail, i)
  {
    if Passes(tail, i) {
      PassingTail(tail, i);
      if tail.end {
        EndNeedsWhole(tail, i);
      } else if tail.done <= 12 + |tail.chunk| {
        TornTailRejected(DATA_MAGIC, i, tail.chunk, tail.done);
      } else {
        FullTail(tail, i);
      }
    }
  }

  lemma FullTail(tail: Tail, i: nat)
    requires 0 < i < PAGE_COUNT && TailOk(tail) && tail.Begun? && !tail.end && 12 + |tail.chunk| <= tail.done
    ensures Whole(tail, i)
  {
    var p := TailRecord(tail, i);
    MadePage(DATA_MAGIC, i, tail.chunk);
    TornPrefix(p, tail.done, tail.done);
    TornSuffix(p, tail.done, tail.done) by {
      assert p[tail.done..] == p[12 + |tail.chunk|..][tail.done - 12 - |tail.chunk|..];
    }
    assert p == p[..tail.done] + p[tail.done..];
    assert Torn(p, tail.done) == Torn(p, tail.done)[..tail.done] + Torn(p, tail.done)[tail.done..];
  }

  /** A start record of which some bytes are missing is no run at all. */
  lemma ReplayOfTornStart(pages: seq<Page>, done: nat)
    requires |pages| == PAGE_COUNT && done <= PAGE_BYTES
    requires pages[0] == Torn(MakePage(START_MAGIC, 0, []), done)
    requires forall j :: 0 < j < PAGE_COUNT ==> pages[j] == BlankPage()
    ensures Replay(pages) == if pages[0] == MakePage(START_MAGIC, 0, []) then Run([], false) else NoRun
  {
    TornEmptyRecord(START_MAGIC, 0, done);
    MadePage(START_MAGIC, 0, []);
    BlankInvalid(1);
  }

  /** Erasing stopped anywhere after its first sector also leaves no run, old or new. */
  lemma ReplayOfErasedStart(pages: seq<Page>)
    requires |pages| == PAGE_COUNT && pages[0] == BlankPage()
    ensures Replay(pages) == NoRun
  {
    BlankInvalid(0);
  }

  // How the image grows.

  lemma ImageBegun(pages: seq<Page>, chunks: seq<Chunk>, tail: Tail, after: seq<Page>)
    requires Image(pages, chunks, Untouched) && TailOk(tail) && tail.Begun?
    requires var n := |chunks| + 1;
      after == pages[n := Programmed(pages[n], TailRecord(tail, n), tail.done)]
    ensures Image(after, chunks, tail)
  {
    ImagePages(pages, chunks, Untouched);
    ProgrammedOverBlank(TailRecord(tail, |chunks| + 1), tail.done);
  }

  lemma ImageMore(pages: seq<Page>, chunks: seq<Chunk>, chunk: Chunk, after: seq<Page>)
    requires Image(pages, chunks, Untouched) && |chunks| + 2 < PAGE_COUNT
    requires var n := |chunks| + 1;
      after == pages[n := MakePage(DATA_MAGIC, n, chunk)]
    ensures Image(after, chunks + [chunk], Untouched)
  {
    TextImagePages(chunks);
    TextImagePages(chunks + [chunk]);
    assert (chunks + [chunk])[..|chunks|] == chunks;
    assert after == TextImage(chunks + [chunk]);
  }

  lemma ImageStart(pages: seq<Page>)
    requires |pages| == PAGE_COUNT && pages[0] == MakePage(START_MAGIC, 0, [])
    requires forall j :: 0 < j < PAGE_COUNT ==> pages[j] == BlankPage()
    ensures Image(pages, [], Untouched)
  {}

  lemma ConcatSnoc(chunks: seq<seq<Byte>>, chunk: seq<Byte>)
    ensures Concat(chunks + [chunk]) == Concat(chunks) + chunk
  {
    assert (chunks + [chunk])[..|chunks|] == chunks;
  }

  /** The pages a text of this length takes. */
  function Pages(length: nat): nat {
    if length == 0 then 0 else 1 + Pages(if length > PAGE_DATA then length - PAGE_DATA else 0)
  }

  lemma {:induction false} PagesInClosedForm(length: nat)
    ensures Pages(length) == (length + 243) / 244
  {
    if length > PAGE_DATA {
      PagesInClosedForm(length - PAGE_DATA);
    }
  }

  /** A series of appends from page `next` on, each by itself short of the last page. */
  predicate AllFit(next: nat, lengths: seq<nat>)
    decreases |lengths|
  {
    lengths == [] || (next + Pages(lengths[0]) <= PAGE_COUNT - 1 && AllFit(next + Pages(lengths[0]), lengths[1..]))
  }

  function TotalPages(lengths: seq<nat>): nat {
    if lengths == [] then 0 else Pages(lengths[0]) + TotalPages(lengths[1..])
  }

  /** A series of appends fits exactly when it takes at most 2046 pages together; in one piece
      that is 499224 bytes. */
  lemma {:induction false} SeriesFits(next: nat, lengths: seq<nat>)
    requires next <= PAGE_COUNT - 1
    ensures AllFit(next, lengths) <==> next + TotalPages(lengths) <= PAGE_COUNT - 1
    decreases |lengths|
  {
    if lengths != [] && next + Pages(lengths[0]) <= PAGE_COUNT - 1 {
      SeriesFits(next + Pages(lengths[0]), lengths[1..]);
    }
  }

  lemma LargestText(length: nat)
    ensures AllFit(1, [length]) <==> length <= 499224
  {
    PagesInClosedForm(length);
    assert AllFit(1 + Pages(length), [length][1..]);
  }

  /** Text that was to follow the whole pages. */
  function Ahead(tail: Tail): seq<Byte> {
    if tail.Begun? then tail.chunk else []
  }

  /** Of `data`, a first part has followed `before`, and the page begun after it holds what
      comes next. */
  ghost predicate Follows(before: seq<Byte>, data: seq<Byte>, saved: seq<Byte>, tail: Tail) {
    && before <= saved && saved + Ahead(tail) <= before + data
    && (tail.Begun? ==> !tail.end)
  }

  lemma PartFollows(before: seq<Byte>, sent: seq<Byte>, chunk: seq<Byte>, data: seq<Byte>, tail: Tail)
    requires sent + chunk <= data
    requires tail.Untouched? || (!tail.end && tail.chunk == chunk)
    ensures Follows(before, data, before + sent, tail)
  {
    assert before + sent + chunk <= before + data by {
      assert before + data == before + (sent + chunk) + data[|sent + chunk|..];
    }
    if tail.Untouched? {
      assert before + sent + [] == before + sent;
    }
  }

  class Journal {
    const flash: Flash
    var next: nat
    var active: bool
    ghost var begun: bool            // the start record of this run is on the flash
    ghost var chunks: seq<Chunk>     // its whole text pages
    ghost var saved: seq<Byte>       // and the text in them
    ghost var tail: Tail

    ghost predicate Valid()
      reads this, flash
    {
      && flash.Valid()
      && saved == Concat(chunks)
      && (if begun then Image(flash.pages, chunks, tail) else saved == [] && tail.Untouched?)
      && (active ==> begun && tail.Untouched? && next == |chunks| + 1)
    }

    constructor (flash: Flash)
      requires flash.Valid()
      ensures Valid() && this.flash == flash && !active && !begun && saved == [] && tail.Untouched?
    {
      this.flash, next, active, begun, chunks, saved, tail := flash, 0, false, false, [], [], Untouched;
    }

    /** `write_page`: programmed once, read back, counted only if it reads back whole. */
    method WritePage(magic: Word, data: seq<Byte>) returns (ok: bool, ghost done: nat)
      requires flash.Valid()
      modifies this`next, flash
      ensures flash.Valid() && done <= PAGE_BYTES
      ensures old(next) >= PAGE_COUNT || |data| > PAGE_DATA ==> !ok && flash.pages == old(flash.pages)
      ensures old(next) < PAGE_COUNT && |data| <= PAGE_DATA ==>
        && flash.pages == old(flash.pages)[old(next) := Programmed(old(flash.pages[next]), MakePage(magic, old(next), data), done)]
        && (ok ==> flash.pages[old(next)] == MakePage(magic, old(next), data))
        && (flash.reliable && old(flash.pages[next]) == BlankPage() ==> ok)
      ensures next == if ok then old(next) + 1 else old(next)
    {
      if next >= PAGE_COUNT || |data| > PAGE_DATA { return false, 0; }
      var header := Header(magic, next, |data|);
      var page: Page := Assemble(header, Blank(4), data);
      AssembledParts(header, Blank(4), data);
      HeaderFields(page, magic, next, |data|);
      var crc := PageCrc(page);
      page := Assemble(header, U32(crc), data);
      assert page == MakePage(magic, next, data);
      ok, done := flash.Program(next, page);
      ghost var was := old(flash.pages[next]);
      if was == BlankPage() && done == PAGE_BYTES {
        ProgrammedOverBlank(page, done);
        assert Torn(page, done) == page;
      }
      if !ok { return; }
      if page != flash.pages[next] { return false, done; }
      next := next + 1;
    }

    /** `report_store_begin`: the previous run is gone as soon as a sector is erased, and a new
        one exists as soon as its start record is whole. */
    method Begin() returns (ok: bool)
      requires Valid()
      modifies this, flash
      ensures Valid() && ok == active
      ensures chunks == [] && saved == [] && tail.Untouched?
      ensures !begun ==> flash.pages == old(flash.pages) || Replay(flash.pages) == NoRun
      ensures flash.reliable ==> ok
    {
      active, next, begun, chunks, saved, tail := false, 0, false, [], [], Untouched;
      var erased: bool;
      ghost var sectors: nat;
      erased, sectors := flash.Erase();
      if !erased {
        if sectors > 0 {
          ReplayOfErasedStart(flash.pages);
        } else {
          assert flash.pages == old(flash.pages);
        }
        return false;
      }
      ghost var done: nat;
      ok, done := WritePage(START_MAGIC, []);
      ProgrammedOverBlank(MakePage(START_MAGIC, 0, []), done);
      ReplayOfTornStart(flash.pages, done);
      begun := flash.pages[0] == MakePage(START_MAGIC, 0, []);
      if begun { ImageStart(flash.pages); }
      if !ok { return; }
      active := true;
    }

    /** One chunk of `report_store_append`. */
    method AppendChunk(chunk: Chunk) returns (ok: bool)
      requires Valid() && active
      modifies this, flash
      ensures Valid() && begun && active == ok
      ensures ok ==> saved == old(saved) + chunk && next == old(next) + 1 && tail.Untouched?
      ensures !ok ==> saved == old(saved) && (tail.Untouched? || (!tail.end && tail.chunk == chunk))
      ensures flash.reliable ==> (ok <==> old(next) < PAGE_COUNT - 1)
    {
      if next >= PAGE_COUNT - 1 {
        active := false;
        return false;
      }
      ghost var was := flash.pages;
      ghost var done: nat;
      ok, done := WritePage(DATA_MAGIC, chunk);
      if ok {
        ImageMore(was, chunks, chunk, flash.pages);
        ConcatSnoc(chunks, chunk);
        chunks, saved := chunks + [chunk], saved + chunk;
      } else {
        tail := Begun(false, chunk, done);
        ImageBegun(was, chunks, tail, flash.pages);
        active := false;
      }
    }

    /** `report_store_append`: the text follows what is there, in order and without a gap; on a
        failure a whole-page prefix of it does, and at most one page is left begun. With
        working flash it fails only for want of pages. */
    method Append(data: seq<Byte>) returns (ok: bool)
      requires Valid()
      modifies this, flash
      ensures Valid() && begun == old(begun)
      ensures !old(active) ==> !ok && !active && flash.pages == old(flash.pages) && saved == old(saved) && tail == old(tail)
      ensures old(active) ==> active == ok
      ensures ok ==> saved == old(saved) + data && tail.Untouched?
      ensures old(active) && !ok ==> Follows(old(saved), data, saved, tail)
      ensures flash.reliable && old(active) ==> (ok <==> old(next) + Pages(|data|) <= PAGE_COUNT - 1)
      ensures ok ==> next == old(next) + Pages(|data|)
    {
      if !active { return false; }
      ghost var before := saved;
      ghost var sent: seq<Byte> := [];
      var rest := data;
      while rest != []
        invariant Valid() && active && begun && before + sent == saved && sent + rest == data
        invariant next + Pages(|rest|) == old(next) + Pages(|data|)
        invariant next <= PAGE_COUNT - 1
        decreases |rest|
      {
        var chunk: Chunk := if |rest| > PAGE_DATA then rest[..PAGE_DATA] else rest;
        ok := AppendChunk(chunk);
        Followed(before, sent, chunk, rest, data);
        if !ok {
          PartFollows(before, sent, chunk, data, tail);
          return;
        }
        sent := sent + chunk;
        rest := rest[|chunk|..];
      }
      assert sent == data;
      ok := true;
    }

    /** `report_store_finish`: at most the end mark is added. */
    method Finish() returns (ok: bool)
      requires Valid()
      modifies this, flash
      ensures Valid() && !active && begun == old(begun) && saved == old(saved)
      ensures !old(active) ==> !ok && flash.pages == old(flash.pages) && tail == old(tail)
      ensures old(active) ==> tail.Begun? && tail.end && tail.chunk == []
      ensures ok ==> Whole(tail, |chunks| + 1)
      ensures flash.reliable && old(active) ==> ok
    {
      if !active { return false; }
      ghost var was := flash.pages;
      ghost var done: nat;
      ok, done := WritePage(END_MAGIC, []);
      tail := Begun(true, [], done);
      ImageBegun(was, chunks, tail, flash.pages);
      active := false;
    }

    /** `report_store_replay`. */
    method ReplayRun() returns (run: Replayed)
      requires Valid()
      ensures run == Replay(flash.pages)
    {
      hide ValidAt, Image;
      var text: seq<Byte> := [];
      var complete := false;
      var i := 0;
      while i < PAGE_COUNT
        invariant i <= PAGE_COUNT && !complete
        invariant i == 0 ==> text == []
        invariant i > 0 ==> IsStart(flash.pages[0]) && Replay(flash.pages) == Join(text, ReplayFrom(flash.pages, i))
      {
        var page := flash.pages[i];
        var valid := CheckPage(page, i);
        if i == 0 {
          if !valid || Magic(page) != START_MAGIC || Length(page) != 0 { return NoRun; }
        } else {
          if !valid { break; }
          if IsEnd(page) {
            complete := true;
            break;
          }
          if !IsText(page) { break; }
          JoinMore(text, Data(page), ReplayFrom(flash.pages, i + 1));
          text := text + Data(page);
        }
        i := i + 1;
      }
      JoinLast(text, complete);
      run := Run(text, complete);
    }

    method CheckPage(page: Page, i: nat) returns (valid: bool)
      ensures valid <==> ValidAt(page, i)
      ensures valid ==> Length(page) <= PAGE_DATA
    {
      if Index(page) != i || Length(page) > PAGE_DATA { return false; }
      var crc := PageCrc(page);
      valid := Stored(page) == crc;
    }
  }

  lemma Followed(before: seq<Byte>, sent: seq<Byte>, chunk: seq<Byte>, rest: seq<Byte>, data: seq<Byte>)
    requires chunk <= rest && sent + rest == data
    ensures sent + chunk <= data
    ensures (sent + chunk) + rest[|chunk|..] == data
    ensures (before + sent) + chunk == before + (sent + chunk)
  {}
}
