/** The two-page preview reader (components/BookPreview.tsx): the page list with its
    fallback, the guarded next/previous counter and the page-number labels. */
module Preview {
  import opened Types

  /** The pages shown for a book without preview pages (lines 12-16). */
  const FALLBACK_PAGES: seq<string> := [
    "ይህ መፅሀፍ በአሁኑ ሰዓት የቅምሻ ገጾች የሉትም።",
    "እባክዎን በቅርቡ እንደገና ይሞክሩ።",
    "ለማንበብ ስለፈለጉ እናመሰግናለን!"
  ]

  /** `book.previewPages || fallback`: an array, even an empty one, is truthy and kept. */
  function PagesOf(book: Book): (r: seq<string>)
    ensures book.previewPages.None? ==> r == FALLBACK_PAGES && |r| == 3
    ensures book.previewPages.Some? ==> r == book.previewPages.value
  {
    match book.previewPages
    case Some(pages) => pages
    case None => FALLBACK_PAGES
  }

  /** A book whose preview-page list is present but empty gets no pages at all. */
  lemma EmptyPreviewKept(book: Book)
    requires book.previewPages == Some([])
    ensures PagesOf(book) == []
  {
  }

  /** The page counter of a reader with `total` pages is meaningful: within
      [0, total - 1], or 0 when there are no pages. */
  predicate InRange(cur: int, total: int) {
    0 <= cur && (cur <= total - 1 || cur == 0)
  }

  /** `nextPage` (lines 20-22) as a function of the counter. */
  function NextPageOf(cur: int, total: int): (r: int)
    ensures r == cur + 1 <==> cur < total - 1
    ensures r == cur <==> !(cur < total - 1)
    ensures InRange(cur, total) ==> InRange(r, total)
  {
    if cur < total - 1 then cur + 1 else cur
  }

  /** `prevPage` (lines 24-26) as a function of the counter. */
  function PrevPageOf(cur: int): (r: int)
    ensures r == cur - 1 <==> cur > 0
    ensures r == cur <==> cur <= 0
    ensures forall total :: InRange(cur, total) ==> InRange(r, total)
  {
    if cur > 0 then cur - 1 else cur
  }

  /** A press of one of the two navigation buttons. */
  datatype Nav = Next | Prev

  function Step(cur: int, total: int, nav: Nav): int {
    match nav
    case Next => NextPageOf(cur, total)
    case Prev => PrevPageOf(cur)
  }

  /** The counter after pressing `navs` in order. */
  function Run(cur: int, total: int, navs: seq<Nav>): int
    decreases |navs|
  {
    if navs == [] then cur else Run(Step(cur, total, navs[0]), total, navs[1..])
  }

  /** No sequence of presses takes the counter out of range. */
  lemma {:induction false} RunStaysInRange(cur: int, total: int, navs: seq<Nav>)
    requires InRange(cur, total)
    ensures InRange(Run(cur, total, navs), total)
    decreases |navs|
  {
    if navs != [] {
      RunStaysInRange(Step(cur, total, navs[0]), total, navs[1..]);
    }
  }

  /** From the first page of a book with at least one page, the counter always indexes a page. */
  lemma FromFirstPage(total: int, navs: seq<Nav>)
    requires total >= 1
    ensures 0 <= Run(0, total, navs) < total
  {
    RunStaysInRange(0, total, navs);
  }

  /** Before the last page, going forward and back returns to the same page. */
  lemma NextThenPrev(cur: int, total: int)
    requires 0 <= cur < total - 1
    ensures PrevPageOf(NextPageOf(cur, total)) == cur
  {
  }

  /** A button is disabled (lines 86, 94) exactly when pressing it would change nothing. */
  lemma DisabledIffNoOp(cur: int, total: int)
    requires total >= 1 && InRange(cur, total)
    ensures PrevPageOf(cur) == cur <==> cur == 0
    ensures NextPageOf(cur, total) == cur <==> cur == total - 1
  {
  }

  /** The number printed under the left page (line 65). */
  function LeftLabel(cur: int): (n: int)
    ensures n % 2 == 1
    ensures cur >= 0 ==> n >= 1
  {
    cur * 2 + 1
  }

  /** The number printed under the right page (line 79): the even successor of the left one. */
  function RightLabel(cur: int): (n: int)
    ensures n == LeftLabel(cur) + 1
    ensures n % 2 == 0
  {
    cur * 2 + 2
  }

  /** Every page number from 1 on appears on exactly one spread. */
  lemma SpreadsTilePageNumbers(n: int, cur: int)
    requires n >= 1 && cur >= 0
    ensures n == LeftLabel(cur) || n == RightLabel(cur) <==> cur == (n - 1) / 2
  {
  }

  /** The reader's state: the book's pages and the current spread. */
  class BookPreview {
    const pages: seq<string>
    var currentPage: int

    ghost predicate Valid()
      reads this
    {
      InRange(currentPage, |pages|)
    }

    /** Opening a book (line 11) starts on the first spread. */
    constructor(book: Book)
      ensures pages == PagesOf(book) && currentPage == 0
      ensures Valid()
    {
      pages := PagesOf(book);
      currentPage := 0;
    }

    method NextPage()
      requires Valid()
      modifies this`currentPage
      ensures currentPage == NextPageOf(old(currentPage), |pages|)
      ensures Valid()
    {
      if currentPage < |pages| - 1 {
        currentPage := currentPage + 1;
      }
    }

    method PrevPage()
      requires Valid()
      modifies this`currentPage
      ensures currentPage == PrevPageOf(old(currentPage))
      ensures Valid()
    {
      if currentPage > 0 {
        currentPage := currentPage - 1;
      }
    }

    /** The text of the current page, when the book has pages (line 75). */
    function CurrentText(): (t: Option<string>)
      reads this
      requires Valid()
      ensures t.Some? <==> |pages| > 0
      ensures t.Some? ==> t.value == pages[currentPage]
    {
      if |pages| > 0 then Some(pages[currentPage]) else None
    }
  }
}
