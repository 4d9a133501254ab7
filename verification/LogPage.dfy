/** One record of the saved log: a header, the CRC of header and text, the text, erased padding. */
module LogPage {
  import opened Bytes
  import opened Crc
  import opened NorFlash

  const START_MAGIC: Word := 0x31474f4c
  const DATA_MAGIC: Word := 0x31415444
  const END_MAGIC: Word := 0x31444e45
  const PAGE_DATA: nat := 244

  type Text = s: seq<Byte> | |s| <= PAGE_DATA

  function Header(magic: Word, index: nat, length: nat): (s: seq<Byte>)
    requires index < 0x1_0000 && length < 0x1_0000
    ensures |s| == 8
  {
    U32(magic) + U16(index) + U16(length)
  }

  function Assemble(header: seq<Byte>, crc: seq<Byte>, data: Text): Page
    requires |header| == 8 && |crc| == 4
  {
    header + crc + data + Blank(PAGE_DATA - |data|)
  }

  function MakePage(magic: Word, index: nat, data: Text): Page
    requires index < PAGE_COUNT
  {
    var header := Header(magic, index, |data|);
    Assemble(header, U32(Crc32(header + data)), data)
  }

  function Magic(p: Page): Word { ReadU32(p[..4]) }

  function Index(p: Page): nat { ReadU16(p[4..6]) }

  function Length(p: Page): nat { ReadU16(p[6..8]) }

  function Stored(p: Page): Word { ReadU32(p[8..12]) }

  function Data(p: Page): Text
    requires Length(p) <= PAGE_DATA
  {
    p[12..12 + Length(p)]
  }

  /** What a page's CRC covers. */
  function Covered(p: Page): seq<Byte>
    requires Length(p) <= PAGE_DATA
  {
    p[..8] + Data(p)
  }

  /** The check of `report_store_replay`. */
  predicate ValidAt(p: Page, i: nat) {
    Index(p) == i && Length(p) <= PAGE_DATA && Stored(p) == Crc32(Covered(p))
  }

  /** `page_crc`: the register is carried from the header over to the text, and the result is
      the CRC of the two in one piece. */
  method PageCrc(p: Page) returns (crc: Word)
    requires Length(p) <= PAGE_DATA
    ensures crc == Crc32(Covered(p))
  {
    var register := CrcBytes(SEED, p[..8]);
    register := CrcBytes(register, Data(p));
    FeedConcat(SEED, p[..8], Data(p));
    crc := Final(register);
  }

  // Reading back what was put together.

  lemma AssembledParts(header: seq<Byte>, crc: seq<Byte>, data: Text)
    requires |header| == 8 && |crc| == 4
    ensures Assemble(header, crc, data)[..8] == header
    ensures Assemble(header, crc, data)[8..12] == crc
    ensures Assemble(header, crc, data)[12..12 + |data|] == data
    ensures Assemble(header, crc, data)[12 + |data|..] == Blank(PAGE_DATA - |data|)
  {}

  lemma HeaderParts(magic: Word, index: nat, length: nat)
    requires index < 0x1_0000 && length < 0x1_0000
    ensures Header(magic, index, length)[..4] == U32(magic)
    ensures Header(magic, index, length)[4..6] == U16(index)
    ensures Header(magic, index, length)[6..8] == U16(length)
  {}

  lemma SubSlices(p: Page)
    ensures p[..4] == p[..8][..4] && p[4..6] == p[..8][4..6] && p[6..8] == p[..8][6..8]
  {}

  lemma HeaderFields(p: Page, magic: Word, index: nat, length: nat)
    requires index < 0x1_0000 && length < 0x1_0000
    requires p[..8] == Header(magic, index, length)
    ensures Magic(p) == magic && Index(p) == index && Length(p) == length
  {
    SubSlices(p);
    HeaderParts(magic, index, length);
    U32RoundTrip(magic);
    U16RoundTrip(index);
    U16RoundTrip(length);
  }

  /** A page that was made is read back as it was made. */
  lemma MadePage(magic: Word, index: nat, data: Text)
    requires index < PAGE_COUNT
    ensures var p := MakePage(magic, index, data);
      && ValidAt(p, index) && Magic(p) == magic && Length(p) == |data| && Data(p) == data
      && Covered(p) == Header(magic, index, |data|) + data
      && p[12 + |data|..] == Blank(PAGE_DATA - |data|)
  {
    var header := Header(magic, index, |data|);
    var crc := Crc32(header + data);
    AssembledParts(header, U32(crc), data);
    HeaderFields(MakePage(magic, index, data), magic, index, |data|);
    U32RoundTrip(crc);
  }

  lemma BlankInvalid(i: nat)
    requires i < PAGE_COUNT
    ensures !ValidAt(BlankPage(), i)
  {
    assert BlankPage()[4..6] == [0xFF, 0xFF];
  }

  // A page of which only the first bytes reached the flash.

  /** Up to seven bytes never look like a record, whatever the CRC would say. */
  lemma TornHeaderInvalid(p: Page, done: nat, i: nat)
    requires done <= 7 && i < PAGE_COUNT
    ensures !ValidAt(Torn(p, done), i)
  {
    var t := Torn(p, done);
    if done <= 5 {
      assert t[4..6][1] == 0xFF;
    } else {
      assert t[6..8][1] == 0xFF;
    }
  }

  lemma TornPrefix(p: Page, done: nat, n: nat)
    requires n <= done <= PAGE_BYTES
    ensures Torn(p, done)[..n] == p[..n]
  {}

  lemma TornSuffix(p: Page, done: nat, n: nat)
    requires done <= n <= PAGE_BYTES && p[n..] == Blank(PAGE_BYTES - n)
    ensures Torn(p, done)[n..] == p[n..]
  {}

  lemma TornHeader(p: Page, done: nat)
    requires 8 <= done <= PAGE_BYTES
    ensures Torn(p, done)[..8] == p[..8]
    ensures Magic(Torn(p, done)) == Magic(p) && Index(Torn(p, done)) == Index(p) && Length(Torn(p, done)) == Length(p)
  {
    TornPrefix(p, done, 8);
    SubSlices(p);
    SubSlices(Torn(p, done));
  }

  lemma ThreePieces(p: Page, q: Page, n: nat)
    requires n <= PAGE_DATA
    requires p[..8] == q[..8] && p[8..12] == q[8..12] && p[12..12 + n] == q[12..12 + n] && p[12 + n..] == q[12 + n..]
    ensures p == q
  {
    assert p == p[..8] + p[8..12] + p[12..12 + n] + p[12 + n..];
    assert q == q[..8] + q[8..12] + q[12..12 + n] + q[12 + n..];
  }

  /** If a torn page passes the check with the right text in it, nothing was lost. */
  lemma TornSameText(magic: Word, i: nat, data: Text, done: nat)
    requires i < PAGE_COUNT && 8 <= done <= PAGE_BYTES
    requires var t := Torn(MakePage(magic, i, data), done);
      ValidAt(t, i) && Data(t) == data
    ensures Torn(MakePage(magic, i, data), done) == MakePage(magic, i, data)
  {
    var p := MakePage(magic, i, data);
    var t := Torn(p, done);
    MadePage(magic, i, data);
    TornHeader(p, done);
    U32Injective(t[8..12], p[8..12]);
    var n := |data|;
    if done >= 12 + n {
      TornSuffix(p, done, done) by { assert p[done..] == p[12 + n..][done - 12 - n..]; }
      assert t[..done] == p[..done] by { TornPrefix(p, done, done); }
      assert t == t[..done] + t[done..] && p == p[..done] + p[done..];
    } else {
      TornSuffix(p, done, 12 + n);
      ThreePieces(t, p, n);
    }
  }

  /** A record without text is torn undetectably only where nothing was lost. */
  lemma TornEmptyRecord(magic: Word, i: nat, done: nat)
    requires i < PAGE_COUNT && done <= PAGE_BYTES
    ensures var p := MakePage(magic, i, []);
      ValidAt(Torn(p, done), i) <==> Torn(p, done) == p
  {
    var p := MakePage(magic, i, []);
    var t := Torn(p, done);
    MadePage(magic, i, []);
    if ValidAt(t, i) {
      if done <= 7 {
        TornHeaderInvalid(p, done, i);
      } else {
        TornHeader(p, done);
        assert Data(t) == [];
        TornSameText(magic, i, [], done);
      }
    }
  }

  // A page damaged after it was written.

  lemma Split3(s: seq<Byte>, a: nat, b: nat)
    requires a <= b <= |s|
    ensures s == s[..a] + s[a..b] + s[b..]
  {}

  lemma Regroup(a: seq<Byte>, b: seq<Byte>, c: seq<Byte>, d: seq<Byte>)
    ensures a + b + c + d == a + b + (c + d)
    ensures a + (b + c + d) == (a + b) + c + d
  {}

  lemma SliceOfSlice(s: seq<Byte>, a: nat, b: nat, i: nat, j: nat)
    requires a <= b <= |s| && i <= j <= b - a
    ensures s[a..b][i..j] == s[a + i..a + j]
  {
    var inner, direct := s[a..b][i..j], s[a + i..a + j];
    forall k | 0 <= k < j - i ensures inner[k] == direct[k] {}
  }

  lemma CoveredText(p: Page, from: nat, to: nat)
    requires Length(p) <= PAGE_DATA && 12 <= from <= to <= 12 + Length(p)
    ensures Covered(p) == (p[..8] + p[12..from]) + p[from..to] + p[to..12 + Length(p)]
  {
    var data := Data(p);
    Split3(data, from - 12, to - 12);
    SliceOfSlice(p, 12, 12 + Length(p), 0, from - 12);
    SliceOfSlice(p, 12, 12 + Length(p), from - 12, to - 12);
    SliceOfSlice(p, 12, 12 + Length(p), to - 12, Length(p));
    Regroup(p[..8], p[12..from], p[from..to], p[to..12 + Length(p)]);
  }

  lemma SameBefore(p: Page, q: Page, from: nat, a: nat, b: nat)
    requires a <= b <= from <= PAGE_BYTES && p[..from] == q[..from]
    ensures p[a..b] == q[a..b]
  {
    forall k | a <= k < b ensures p[k] == q[k] {
      assert p[k] == p[..from][k] && q[k] == q[..from][k];
    }
  }

  /** Damage to at most four neighbouring bytes of the text is always noticed. */
  lemma DamagedTextRejected(p: Page, q: Page, i: nat, from: nat, to: nat)
    requires ValidAt(p, i) && 12 <= from <= to <= 12 + Length(p) && to - from <= 4
    requires p[..from] == q[..from] && p[to..] == q[to..] && p != q
    ensures !ValidAt(q, i)
  {
    var n := 12 + Length(p);
    SubSlices(p);
    SubSlices(q);
    SameBefore(p, q, from, 0, 8);
    SameBefore(p, q, from, 8, 12);
    SameBefore(p, q, from, 12, from);
    SameAfter(p, q, to, to, n);
    Split3(p, from, to);
    Split3(q, from, to);
    CoveredText(p, from, to);
    CoveredText(q, from, to);
    BurstChangesCrc(p[..8] + p[12..from], p[from..to], q[from..to], p[to..n]);
  }

  lemma SameAfter(p: Page, q: Page, to: nat, a: nat, b: nat)
    requires to <= a <= b <= PAGE_BYTES && p[to..] == q[to..]
    ensures p[a..b] == q[a..b]
  {
    SliceOfSlice(p, to, PAGE_BYTES, a - to, b - to);
    SliceOfSlice(q, to, PAGE_BYTES, a - to, b - to);
  }

  lemma CoveredHead(p: Page, from: nat, to: nat)
    requires from <= to <= 8 && Length(p) <= PAGE_DATA
    ensures Covered(p) == p[..from] + p[from..to] + (p[to..8] + Data(p))
  {
    var head := p[..8];
    Split3(head, from, to);
    SliceOfSlice(p, 0, 8, 0, from);
    SliceOfSlice(p, 0, 8, from, to);
    SliceOfSlice(p, 0, 8, to, 8);
    Regroup(p[..from], p[from..to], p[to..8], Data(p));
  }

  /** So is damage to at most four neighbouring bytes of the magic number and the index. */
  lemma DamagedHeadRejected(p: Page, q: Page, i: nat, from: nat, to: nat)
    requires ValidAt(p, i) && from <= to <= 6 && to - from <= 4
    requires p[..from] == q[..from] && p[to..] == q[to..] && p != q
    ensures !ValidAt(q, i)
  {
    SameAfter(p, q, to, 6, 8);
    SameAfter(p, q, to, 8, 12);
    SameAfter(p, q, to, 12, 12 + Length(p));
    SameAfter(p, q, to, to, 8);
    Split3(p, from, to);
    Split3(q, from, to);
    var rest := p[to..8] + Data(p);
    CoveredHead(p, from, to);
    CoveredHead(q, from, to);
    BurstChangesCrc(p[..from], p[from..to], q[from..to], rest);
  }

  /** And any damage to the stored CRC itself. */
  lemma DamagedCrcRejected(p: Page, q: Page, i: nat)
    requires ValidAt(p, i) && p[..8] == q[..8] && p[12..] == q[12..] && p != q
    ensures !ValidAt(q, i)
  {
    SubSlices(p);
    SubSlices(q);
    var n := Length(p);
    assert p[12..12 + n] == p[12..][..n] && q[12..12 + n] == q[12..][..n];
    Split3(p, 8, 12);
    Split3(q, 8, 12);
    if Stored(p) == Stored(q) {
      U32Injective(p[8..12], q[8..12]);
    }
  }

  /** With at most the last four bytes of the text missing, a torn page never passes unless
      nothing was lost. */
  lemma TornTailRejected(magic: Word, i: nat, data: Text, done: nat)
    requires i < PAGE_COUNT && 12 <= done <= 12 + |data| <= done + 4
    ensures var p := MakePage(magic, i, data);
      ValidAt(Torn(p, done), i) <==> Torn(p, done) == p
  {
    var p := MakePage(magic, i, data);
    MadePage(magic, i, data);
    if Torn(p, done) != p {
      TornPrefix(p, done, done);
      TornSuffix(p, done, 12 + |data|);
      DamagedTextRejected(p, Torn(p, done), i, done, 12 + |data|);
    }
  }
}
