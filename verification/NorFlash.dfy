/** The flash under the saved log: erasing sets every bit, programming only clears bits, and
    either may stop part-way. */
module NorFlash {
  import opened Bytes

  const PAGE_BYTES: nat := 256
  const PAGE_COUNT: nat := 2048
  const SECTOR_PAGES: nat := 16

  type Page = s: seq<Byte> | |s| == PAGE_BYTES witness seq(PAGE_BYTES, _ => 0xFF)

  /** What programming b over a leaves: the bits set in both. */
  function And(a: nat, b: nat): (c: nat)
    ensures c <= b
  {
    if a == 0 || b == 0 then 0
    else 2 * And(a / 2, b / 2) + (if a % 2 == 1 && b % 2 == 1 then 1 else 0)
  }

  predicate AllOnes(a: nat) {
    a == 0 || (a % 2 == 1 && AllOnes(a / 2))
  }

  lemma {:induction false} AndAllOnes(a: nat, b: nat)
    requires AllOnes(a) && b <= a
    ensures And(a, b) == b
  {
    if a > 0 && b > 0 {
      AndAllOnes(a / 2, b / 2);
    }
  }

  lemma ErasedByteTakes(b: Byte)
    ensures And(0xFF, b) == b
  {
    assert AllOnes(1) && AllOnes(3) && AllOnes(7) && AllOnes(15);
    assert AllOnes(31) && AllOnes(63) && AllOnes(127);
    AndAllOnes(0xFF, b);
  }

  function Blank(count: nat): (s: seq<Byte>)
    ensures |s| == count
  {
    seq(count, _ => 0xFF)
  }

  function BlankPage(): Page {
    Blank(PAGE_BYTES)
  }

  function BlankPages(count: nat): (pages: seq<Page>)
    ensures |pages| == count && forall j :: 0 <= j < count ==> pages[j] == BlankPage()
  {
    seq<Page>(count, _ => BlankPage())
  }

  /** A page after `done` bytes of `page` have been programmed over it. */
  function Programmed(was: Page, page: Page, done: nat): Page
    requires done <= PAGE_BYTES
  {
    seq(PAGE_BYTES, j requires 0 <= j < PAGE_BYTES => if j < done then ProgrammedByte(was[j], page[j]) else was[j])
  }

  function ProgrammedByte(a: Byte, b: Byte): Byte {
    And(a, b)
  }

  /** The first `done` bytes of a page and nothing after them. */
  function Torn(page: Page, done: nat): Page
    requires done <= PAGE_BYTES
  {
    page[..done] + Blank(PAGE_BYTES - done)
  }

  lemma ProgrammedOverBlank(page: Page, done: nat)
    requires done <= PAGE_BYTES
    ensures Programmed(BlankPage(), page, done) == Torn(page, done)
  {
    forall j | 0 <= j < PAGE_BYTES ensures Programmed(BlankPage(), page, done)[j] == Torn(page, done)[j] {
      ErasedByteTakes(page[j]);
    }
  }

  class Flash {
    const reliable: bool
    var pages: seq<Page>

    ghost predicate Valid()
      reads this
    {
      |pages| == PAGE_COUNT
    }

    constructor (pages: seq<Page>, reliable: bool)
      requires |pages| == PAGE_COUNT
      ensures Valid() && this.pages == pages && this.reliable == reliable
    {
      this.pages, this.reliable := pages, reliable;
    }

    /** `report_flash_erase`: sector by sector, stopping at the first that fails. */
    method Erase() returns (ok: bool, ghost sectors: nat)
      requires Valid()
      modifies this
      ensures Valid() && SECTOR_PAGES * sectors <= PAGE_COUNT
      ensures forall j :: 0 <= j < PAGE_COUNT ==>
        pages[j] == if j < SECTOR_PAGES * sectors then BlankPage() else old(pages)[j]
      ensures ok ==> SECTOR_PAGES * sectors == PAGE_COUNT
      ensures reliable ==> ok
    {
      sectors := 0;
      var first := 0;
      while first < PAGE_COUNT
        invariant Valid() && first == SECTOR_PAGES * sectors <= PAGE_COUNT
        invariant forall j :: 0 <= j < PAGE_COUNT ==> pages[j] == if j < first then BlankPage() else old(pages)[j]
      {
        var erased: bool := *;
        if !reliable && !erased { return false, sectors; }
        pages := pages[..first] + BlankPages(SECTOR_PAGES) + pages[first + SECTOR_PAGES..];
        first := first + SECTOR_PAGES;
        sectors := sectors + 1;
      }
      ok := true;
    }

    /** `report_flash_program`: `done` bytes get programmed, whatever it reports. */
    method Program(index: nat, page: Page) returns (ok: bool, ghost done: nat)
      requires Valid() && index < PAGE_COUNT
      modifies this
      ensures Valid() && done <= PAGE_BYTES
      ensures pages == old(pages)[index := Programmed(old(pages)[index], page, done)]
      ensures reliable ==> ok && done == PAGE_BYTES
    {
      ok := *;
      var count: nat :| count <= PAGE_BYTES;
      if reliable { ok, count := true, PAGE_BYTES; }
      pages := pages[index := Programmed(pages[index], page, count)];
      done := count;
    }
  }
}
