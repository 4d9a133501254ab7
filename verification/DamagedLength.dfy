/** The one field of a log page whose damage can go unnoticed: a wrong length also changes what
    the CRC covers, and one byte can make two different covers agree. */
module DamagedLength {
  import opened Bytes
  import opened Crc
  import opened NorFlash
  import opened LogPage

  /** With only the length damaged, a valid page still passes exactly when the CRC over the new
      header and the new extent happens to be the stored one. */
  lemma LengthDamagePasses(p: Page, q: Page, i: nat)
    requires ValidAt(p, i) && p[..6] == q[..6] && p[8..] == q[8..]
    ensures ValidAt(q, i) <==> Length(q) <= PAGE_DATA && Crc32(Covered(q)) == Crc32(Covered(p))
  {
    assert p[4..6] == p[..6][4..6] && q[4..6] == q[..6][4..6];
    SameAfter(p, q, 8, 8, 12);
  }

  /** One damaged byte of header, CRC or text is noticed, wherever it is and whatever it has
      become, unless it is the low byte of the length, the new length is one a page can have,
      and the two covers have the same CRC. */
  lemma OneDamagedByte(p: Page, q: Page, i: nat, b: nat)
    requires ValidAt(p, i) && b < 12 + Length(p) && p[b] != q[b]
    requires p[..b] == q[..b] && p[b + 1..] == q[b + 1..]
    ensures ValidAt(q, i) <==> b == 6 && Length(q) <= PAGE_DATA && Crc32(Covered(q)) == Crc32(Covered(p))
  {
    hide ValidAt;
    assert p != q;
    if b < 6 {
      DamagedHeadRejected(p, q, i, b, b + 1);
    } else if b < 8 {
      SameBefore(p, q, b, 0, 6);
      SameToEnd(p, q, b + 1, 8);
      LengthDamagePasses(p, q, i);
      if b == 7 { HighByteTooLong(p, q, i); }
    } else if b < 12 {
      SameBefore(p, q, b, 0, 8);
      SameToEnd(p, q, b + 1, 12);
      DamagedCrcRejected(p, q, i);
    } else {
      DamagedTextRejected(p, q, i, b, b + 1);
    }
  }

  lemma SameToEnd(p: Page, q: Page, to: nat, a: nat)
    requires to <= a <= PAGE_BYTES && p[to..] == q[to..]
    ensures p[a..] == q[a..]
  {
    SameAfter(p, q, to, a, PAGE_BYTES);
    var n := PAGE_BYTES;
    assert |p| == n && p[a..n] == p[a..];
    assert |q| == n && q[a..n] == q[a..];
  }

  lemma HighByteTooLong(p: Page, q: Page, i: nat)
    requires ValidAt(p, i) && p[7] != q[7]
    ensures Length(q) > PAGE_DATA
  {
    assert p[6..8][1] == p[7] && q[6..8][1] == q[7];
  }

  // How much chance there is in a length that goes unnoticed.

  function Numbers(n: nat): set<nat> {
    if n == 0 then {} else Numbers(n - 1) + {n - 1}
  }

  lemma {:induction false} NumbersBelow(n: nat)
    ensures |Numbers(n)| == n && forall x: nat :: x in Numbers(n) <==> x < n
  {
    if n > 0 { NumbersBelow(n - 1); }
  }

  predicate Injective(f: nat -> nat, n: nat) {
    forall x, y :: 0 <= x < y < n ==> f(x) != f(y)
  }

  function Image(f: nat -> nat, n: nat): set<nat> {
    if n == 0 then {} else Image(f, n - 1) + {f(n - 1)}
  }

  lemma {:induction false} ImageIs(f: nat -> nat, n: nat)
    ensures forall y :: y in Image(f, n) ==> exists x: nat :: x < n && f(x) == y
  {
    if n > 0 { ImageIs(f, n - 1); }
  }

  lemma {:induction false} ImageSize(f: nat -> nat, n: nat)
    requires Injective(f, n)
    ensures |Image(f, n)| == n
  {
    if n > 0 {
      ImageSize(f, n - 1);
      ImageIs(f, n - 1);
    }
  }

  lemma SameSize(a: set<nat>, b: set<nat>)
    requires a <= b && |a| == |b|
    ensures a == b
  {
    if x :| x in b && x !in a {
      assert a <= b - {x};
      SubsetSize(a, b - {x});
    }
  }

  lemma {:induction false} SubsetSize(a: set<nat>, b: set<nat>)
    requires a <= b
    ensures |a| <= |b|
  {
    if a != {} {
      var x :| x in a;
      SubsetSize(a - {x}, b - {x});
    }
  }

  /** An injective function of the first n numbers into themselves takes every value. */
  lemma TakesEveryValue(f: nat -> nat, n: nat, y: nat) returns (x: nat)
    requires Injective(f, n) && (forall x: nat :: x < n ==> f(x) < n) && y < n
    ensures x < n && f(x) == y
  {
    ImageSize(f, n);
    ImageIs(f, n);
    NumbersBelow(n);
    SameSize(Image(f, n), Numbers(n));
    assert y in Image(f, n);
    x :| x < n && f(x) == y;
  }

  /** Four bytes at the end decide the CRC: different ones give different CRCs, and every CRC is
      reached. */
  lemma FourBytesDecide(before: seq<Byte>, v: seq<Byte>, w: seq<Byte>)
    requires |v| == |w| <= 4 && v != w
    ensures Crc32(before + v) != Crc32(before + w)
  {
    assert before + v + [] == before + v && before + w + [] == before + w;
    BurstChangesCrc(before, v, w, []);
  }

  function EndedBy(before: seq<Byte>): nat -> nat {
    x => if x < 0x1_0000_0000 then Crc32(before + U32(x)) else x
  }

  lemma EndingWith(before: seq<Byte>, crc: Word) returns (w: seq<Byte>)
    ensures |w| == 4 && forall v :: |v| == 4 ==> (Crc32(before + v) == crc <==> v == w)
  {
    var f := EndedBy(before);
    forall x, y | 0 <= x < y < 0x1_0000_0000 ensures f(x) != f(y) {
      U32RoundTrip(x);
      U32RoundTrip(y);
      FourBytesDecide(before, U32(x), U32(y));
    }
    var x := TakesEveryValue(f, 0x1_0000_0000, crc);
    w := U32(x);
    forall v: seq<Byte> | |v| == 4 && v != w ensures Crc32(before + v) != crc { FourBytesDecide(before, v, w); }
  }

  /** A page whose length is damaged to one too short. */
  function CutTo(p: Page, shorter: Byte): Page {
    p[6 := shorter]
  }

  lemma CutPasses(magic: Word, i: nat, text: Text, shorter: Byte)
    requires i < PAGE_COUNT && shorter < |text|
    ensures var q := CutTo(MakePage(magic, i, text), shorter);
      ValidAt(q, i) <==> Crc32(Header(magic, i, |text|) + text) == Crc32(Header(magic, i, shorter) + text[..shorter])
  {
    var p := MakePage(magic, i, text);
    var q := CutTo(p, shorter);
    MadePage(magic, i, text);
    assert p[..6] == q[..6] && p[8..] == q[8..];
    LengthDamagePasses(p, q, i);
    CutCover(magic, i, text, shorter);
  }

  lemma CutCover(magic: Word, i: nat, text: Text, shorter: Byte)
    requires i < PAGE_COUNT && shorter < |text|
    ensures var q := CutTo(MakePage(magic, i, text), shorter);
      Length(q) == shorter && Covered(q) == Header(magic, i, shorter) + text[..shorter]
  {
    var header := Header(magic, i, |text|);
    var p := MakePage(magic, i, text);
    var q := CutTo(p, shorter);
    AssembledParts(header, U32(Crc32(header + text)), text);
    HeaderParts(magic, i, |text|);
    HeaderParts(magic, i, shorter);
    assert q[..8] == Header(magic, i, shorter) by {
      assert q[..8] == p[..8][6 := shorter];
      assert U16(|text|)[0 := shorter] == U16(shorter);
    }
    assert q[6..8] == U16(shorter) by { SubSlices(q); }
    U16RoundTrip(shorter);
    assert q[12..12 + shorter] == p[12..12 + |text|][..shorter];
  }

  /** If the damage cuts off at least four bytes of text, then whatever the rest of the text, it
      goes unnoticed for exactly one setting of the last four. */
  lemma CutUnnoticedOnce(magic: Word, i: nat, start: seq<Byte>, shorter: Byte) returns (w: seq<Byte>)
    requires i < PAGE_COUNT && |start| + 4 <= PAGE_DATA && shorter <= |start|
    ensures |w| == 4
    ensures forall v :: |v| == 4 ==> (ValidAt(CutTo(MakePage(magic, i, start + v), shorter), i) <==> v == w)
  {
    hide ValidAt, MakePage, Header, CutTo;
    var header := Header(magic, i, |start| + 4);
    var crc := Crc32(Header(magic, i, shorter) + start[..shorter]);
    w := EndingWith(header + start, crc);
    forall v: seq<Byte> | |v| == 4
      ensures ValidAt(CutTo(MakePage(magic, i, start + v), shorter), i) <==> v == w
    {
      CutPasses(magic, i, start + v, shorter);
      assert (start + v)[..shorter] == start[..shorter];
      assert header + (start + v) == header + start + v;
    }
  }

  /** If it cuts off fewer, it goes unnoticed for one setting of those at most. */
  lemma CutUnnoticedAtMostOnce(magic: Word, i: nat, kept: seq<Byte>, v: seq<Byte>, w: seq<Byte>)
    requires i < PAGE_COUNT && |v| == |w| <= 4 && v != w && |kept| + |v| <= PAGE_DATA && |kept| < 0x100
    requires ValidAt(CutTo(MakePage(magic, i, kept + v), |kept|), i)
    ensures !ValidAt(CutTo(MakePage(magic, i, kept + w), |kept|), i)
  {
    hide ValidAt, MakePage;
    var header := Header(magic, i, |kept| + |v|);
    CutPasses(magic, i, kept + v, |kept|);
    CutPasses(magic, i, kept + w, |kept|);
    assert (kept + v)[..|kept|] == kept && (kept + w)[..|kept|] == kept;
    assert header + (kept + v) == header + kept + v && header + (kept + w) == header + kept + w;
    FourBytesDecide(header + kept, v, w);
  }

  const MAGIC_BYTES: seq<Byte> := [68, 84, 65, 49]
  const LONG: seq<Byte> := [1, 0, 8, 0]
  const SHORT: seq<Byte> := [1, 0, 4, 0]
  const KEPT: seq<Byte> := [97, 98, 99, 100]
  const LOST: seq<Byte> := [146, 154, 67, 219]

  lemma AfterMagic()
    ensures Feed(0xFFFF_FFFF, MAGIC_BYTES) == 0x19c4179b
  {
    OneByte(0xFFFF_FFFF, 68, 0x5c4c95fb);
    OneByte(0x5c4c95fb, 84, 0x4635f2ec);
    OneByte(0x4635f2ec, 65, 0xa821eaa7);
    OneByte(0xa821eaa7, 49, 0x19c4179b);
    FourBytes(0xFFFF_FFFF, MAGIC_BYTES, 0x5c4c95fb, 0x4635f2ec, 0xa821eaa7, 0x19c4179b);
  }

  lemma AfterLong()
    ensures Feed(0x19c4179b, LONG) == 0xc8b084b7
  {
    OneByte(0x19c4179b, 1, 0x10c3be4d);
    OneByte(0x10c3be4d, 0, 0x87dfe93);
    OneByte(0x87dfe93, 8, 0x67d53732);
    OneByte(0x67d53732, 0, 0xc8b084b7);
    FourBytes(0x19c4179b, LONG, 0x10c3be4d, 0x87dfe93, 0x67d53732, 0xc8b084b7);
  }

  lemma AfterShort()
    ensures Feed(0x19c4179b, SHORT) == 0x6405cbbb
  {
    OneByte(0x19c4179b, 1, 0x10c3be4d);
    OneByte(0x10c3be4d, 0, 0x87dfe93);
    OneByte(0x87dfe93, 4, 0x6e637b19);
    OneByte(0x6e637b19, 0, 0x6405cbbb);
    FourBytes(0x19c4179b, SHORT, 0x10c3be4d, 0x87dfe93, 0x6e637b19, 0x6405cbbb);
  }

  lemma LongText()
    ensures Feed(0xc8b084b7, KEPT) == 0xdb253348
  {
    OneByte(0xc8b084b7, 97, 0x6f78c765);
    OneByte(0x6f78c765, 98, 0x9e0bed64);
    OneByte(0x9e0bed64, 99, 0x9efa9e4e);
    OneByte(0x9efa9e4e, 100, 0xdb253348);
    FourBytes(0xc8b084b7, KEPT, 0x6f78c765, 0x9e0bed64, 0x9efa9e4e, 0xdb253348);
  }

  lemma LongTail()
    ensures Feed(0xdb253348, LOST) == 0xace7f333
  {
    OneByte(0xdb253348, 146, 0x66dd1ef9);
    OneByte(0x66dd1ef9, 154, 0xd4ddedfc);
    OneByte(0xd4ddedfc, 67, 0x5b0a73f0);
    OneByte(0x5b0a73f0, 219, 0xace7f333);
    FourBytes(0xdb253348, LOST, 0x66dd1ef9, 0xd4ddedfc, 0x5b0a73f0, 0xace7f333);
  }

  lemma ShortText()
    ensures Feed(0x6405cbbb, KEPT) == 0xace7f333
  {
    OneByte(0x6405cbbb, 97, 0x66623e01);
    OneByte(0x66623e01, 98, 0xd4dd52dc);
    OneByte(0xd4dd52dc, 99, 0x5b0a734f);
    OneByte(0x5b0a734f, 100, 0xace7f333);
    FourBytes(0x6405cbbb, KEPT, 0x66623e01, 0xd4dd52dc, 0x5b0a734f, 0xace7f333);
  }

  /** Eight bytes of text and their first four get the same CRC under their own headers. */
  lemma SameCrc()
    ensures Crc32((MAGIC_BYTES + LONG) + (KEPT + LOST)) == Crc32((MAGIC_BYTES + SHORT) + KEPT)
  {
    AfterMagic();
    AfterLong();
    LongText();
    LongTail();
    AfterShort();
    ShortText();
    FeedConcat(SEED, MAGIC_BYTES, LONG);
    FeedConcat(SEED, MAGIC_BYTES, SHORT);
    FeedConcat(SEED, MAGIC_BYTES + LONG, KEPT + LOST);
    FeedConcat(Feed(SEED, MAGIC_BYTES + LONG), KEPT, LOST);
    FeedConcat(SEED, MAGIC_BYTES + SHORT, KEPT);
  }

  /** So one damaged byte, the length, can cut a page short unnoticed. */
  lemma DamagedLengthExample() returns (p: Page, q: Page)
    ensures p == MakePage(DATA_MAGIC, 1, KEPT + LOST)
    ensures q == p[6 := 4] && q != p
    ensures ValidAt(p, 1) && ValidAt(q, 1) && Data(q) == KEPT
  {
    p := MakePage(DATA_MAGIC, 1, KEPT + LOST);
    MadePage(DATA_MAGIC, 1, KEPT + LOST);
    MadeHeader(p);
    q := p[6 := 4];
    assert q[..8] == MAGIC_BYTES + SHORT by { assert p[..8] == MAGIC_BYTES + LONG; }
    assert q[6..8] == [4, 0];
    assert Length(q) == 4;
    assert Data(q) == q[12..16] == p[12..20][..4] == KEPT;
    SameCrc();
    assert q[8..] == p[8..] && q[..6] == p[..6];
    LengthDamagePasses(p, q, 1);
  }

  lemma MadeHeader(p: Page)
    requires p == MakePage(DATA_MAGIC, 1, KEPT + LOST)
    ensures p[..8] == MAGIC_BYTES + LONG && p[12..20] == KEPT + LOST
  {
    var data := KEPT + LOST;
    AssembledParts(Header(DATA_MAGIC, 1, 8), U32(Crc32(Header(DATA_MAGIC, 1, 8) + data)), data);
    assert U32(DATA_MAGIC) == MAGIC_BYTES;
    assert U16(1) + U16(8) == LONG;
    assert Header(DATA_MAGIC, 1, 8) == MAGIC_BYTES + LONG;
  }
}
