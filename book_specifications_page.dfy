/** The book-specification list page (src/pages/BookSpecifications.tsx):
    the pager's Previous and Next buttons over `currentPage` and
    `totalPages`, the way a loaded page of results sets them, and the
    fallbacks of the table cells. */
module BookSpecificationsPage {
  import opened Common

  /** The cells of one specification row that have fallbacks; a field the
      server leaves out is "". */
  datatype SpecRow = SpecRow(isbn: string, isbn10: string, isbn13: string, subject: string, gradeLevel: string)

  /** The page of results a successful response carries: the rows, which
      may be missing, and the page count, `None` when missing. */
  datatype Listing = Listing(rows: Option<seq<SpecRow>>, totalPages: Option<int>)

  /** The first non-empty text of `xs`, or `fallback` when all are empty:
      `xs[0] || xs[1] || ... || fallback`. */
  function FirstNonEmpty(xs: seq<string>, fallback: string): (r: string)
    ensures r in xs || r == fallback
    ensures r != "" || fallback == ""
  {
    if xs == [] then fallback
    else if xs[0] != "" then xs[0]
    else FirstNonEmpty(xs[1..], fallback)
  }

  /** Every text before the chosen one is empty, so it is the first
      non-empty one. */
  lemma {:induction false} FirstNonEmptyIsFirst(xs: seq<string>, fallback: string, k: int)
    requires 0 <= k < |xs| && xs[k] != ""
    requires forall j :: 0 <= j < k ==> xs[j] == ""
    ensures FirstNonEmpty(xs, fallback) == xs[k]
    decreases k
  {
    if k > 0 {
      assert forall j :: 0 <= j < k - 1 ==> xs[1..][j] == xs[j + 1];
      FirstNonEmptyIsFirst(xs[1..], fallback, k - 1);
    }
  }

  /** When every text is empty the fallback is shown. */
  lemma {:induction false} AllEmptyFallback(xs: seq<string>, fallback: string)
    requires forall i :: 0 <= i < |xs| ==> xs[i] == ""
    ensures FirstNonEmpty(xs, fallback) == fallback
  {
    if xs != [] {
      AllEmptyFallback(xs[1..], fallback);
    }
  }

  /** `spec.isbn || spec.isbn10 || spec.isbn13 || 'N/A'`. */
  function IsbnCell(s: SpecRow): (r: string)
    ensures r != ""
  {
    OrText(s.isbn, OrText(s.isbn10, OrText(s.isbn13, "N/A")))
  }

  /** The ISBN cell is the first non-empty of the three ISBN fields, and
      'N/A' when all three are empty. */
  lemma IsbnCellFirstNonEmpty(s: SpecRow)
    ensures IsbnCell(s) == FirstNonEmpty([s.isbn, s.isbn10, s.isbn13], "N/A")
  {
    var xs := [s.isbn, s.isbn10, s.isbn13];
    if s.isbn != "" {
      FirstNonEmptyIsFirst(xs, "N/A", 0);
    } else if s.isbn10 != "" {
      FirstNonEmptyIsFirst(xs, "N/A", 1);
    } else if s.isbn13 != "" {
      FirstNonEmptyIsFirst(xs, "N/A", 2);
    } else {
      AllEmptyFallback(xs, "N/A");
    }
  }

  /** `spec.subject || 'N/A'` and `spec.gradeLevel || 'N/A'`. */
  function SubjectCell(s: SpecRow): (r: string)
    ensures r != "" && (s.subject != "" ==> r == s.subject)
    ensures s.subject == "" ==> r == "N/A"
  {
    OrText(s.subject, "N/A")
  }

  function GradeCell(s: SpecRow): (r: string)
    ensures r != "" && (s.gradeLevel != "" ==> r == s.gradeLevel)
    ensures s.gradeLevel == "" ==> r == "N/A"
  {
    OrText(s.gradeLevel, "N/A")
  }

  /** `response.data.totalPages || 1`: a missing or zero count becomes one
      page. */
  function TotalPagesOr(n: Option<int>): (r: int)
    ensures n.Some? && n.value != 0 ==> r == n.value
    ensures n.None? || n.value == 0 ==> r == 1
    ensures (n.None? || n.value >= 0) ==> r >= 1
  {
    if n.Some? && n.value != 0 then n.value else 1
  }

  /** The pager is only rendered when `totalPages > 1`. */
  predicate ShowPager(totalPages: int) {
    totalPages > 1
  }

  /** The page Previous sets: `Math.max(1, currentPage - 1)`. */
  function Previous(page: int): (r: int)
    ensures r >= 1
    ensures page > 1 ==> r == page - 1
    ensures page <= 1 ==> r == 1
  {
    if page - 1 > 1 then page - 1 else 1
  }

  /** The page Next sets: `Math.min(totalPages, currentPage + 1)`. */
  function Next(page: int, totalPages: int): (r: int)
    ensures r <= totalPages
    ensures page < totalPages ==> r == page + 1
    ensures page >= totalPages ==> r == totalPages
  {
    if page + 1 < totalPages then page + 1 else totalPages
  }

  predicate InRange(page: int, totalPages: int) {
    1 <= page <= totalPages
  }

  /** Previous is disabled exactly on page 1, where clicking it would not
      move the page anyway. */
  lemma DisabledPreviousStays(page: int)
    requires page == 1
    ensures Previous(page) == page
  {
  }

  /** Next is disabled exactly on the last page, where clicking it would
      not move the page anyway. */
  lemma DisabledNextStays(page: int, totalPages: int)
    requires page == totalPages
    ensures Next(page, totalPages) == page
  {
  }

  /** Next undoes Previous away from the first page, and Previous undoes
      Next away from the last. */
  lemma NextUndoesPrevious(page: int, totalPages: int)
    requires 1 < page <= totalPages
    ensures Next(Previous(page), totalPages) == page
  {
  }

  lemma PreviousUndoesNext(page: int, totalPages: int)
    requires 1 <= page < totalPages
    ensures Previous(Next(page, totalPages)) == page
  {
  }

  /** With a single page both buttons are inert (and the pager is hidden). */
  lemma SinglePageInert(page: int, totalPages: int)
    requires InRange(page, totalPages) && !ShowPager(totalPages)
    ensures Previous(page) == page && Next(page, totalPages) == page
  {
  }

  /** When a reload leaves `currentPage` beyond a smaller `totalPages`,
      Next moves backwards, to the last page. */
  lemma NextAfterShrink(page: int, totalPages: int)
    requires page > totalPages
    ensures Next(page, totalPages) == totalPages < page
  {
  }

  datatype Click = PreviousClick | NextClick

  /** The page after a sequence of clicks. */
  function Run(page: int, totalPages: int, clicks: seq<Click>): int
    decreases |clicks|
  {
    if clicks == [] then page
    else
      var p := if clicks[0].PreviousClick? then Previous(page) else Next(page, totalPages);
      Run(p, totalPages, clicks[1..])
  }

  /** A page in [1, totalPages] stays there whatever the buttons do. */
  lemma {:induction false} RunStaysInRange(page: int, totalPages: int, clicks: seq<Click>)
    requires InRange(page, totalPages)
    ensures InRange(Run(page, totalPages, clicks), totalPages)
    decreases |clicks|
  {
    if clicks != [] {
      var p := if clicks[0].PreviousClick? then Previous(page) else Next(page, totalPages);
      RunStaysInRange(p, totalPages, clicks[1..]);
    }
  }

  /** `n` clicks on Next go forward `n` pages, stopping at the last one. */
  lemma {:induction false} NextClicks(page: int, totalPages: int, n: nat)
    requires InRange(page, totalPages)
    ensures Run(page, totalPages, seq(n, _ => NextClick)) == if page + n < totalPages then page + n else totalPages
    decreases n
  {
    if n > 0 {
      var clicks := seq(n, _ => NextClick);
      assert clicks[1..] == seq(n - 1, _ => NextClick);
      NextClicks(Next(page, totalPages), totalPages, n - 1);
    }
  }

  /** `n` clicks on Previous go back `n` pages, stopping at page 1. */
  lemma {:induction false} PreviousClicks(page: int, totalPages: int, n: nat)
    requires InRange(page, totalPages)
    ensures Run(page, totalPages, seq(n, _ => PreviousClick)) == if page - n > 1 then page - n else 1
    decreases n
  {
    if n > 0 {
      var clicks := seq(n, _ => PreviousClick);
      assert clicks[1..] == seq(n - 1, _ => PreviousClick);
      PreviousClicks(Previous(page), totalPages, n - 1);
    }
  }

  /** The page's list state: the rows shown and the pager. */
  class SpecificationsList {
    var specifications: seq<SpecRow>
    var currentPage: int
    var totalPages: int

    predicate Valid()
      reads this
    {
      InRange(currentPage, totalPages)
    }

    constructor ()
      ensures specifications == [] && currentPage == 1 && totalPages == 1
      ensures Valid()
    {
      specifications := [];
      currentPage := 1;
      totalPages := 1;
    }

    predicate PreviousDisabled()
      reads this
    {
      currentPage == 1
    }

    predicate NextDisabled()
      reads this
    {
      currentPage == totalPages
    }

    /** A click on Previous; a disabled button does not fire. */
    method ClickPrevious()
      modifies this`currentPage
      ensures currentPage == Previous(old(currentPage))
      ensures old(Valid()) ==> Valid()
    {
      if !PreviousDisabled() {
        currentPage := Previous(currentPage);
      }
    }

    /** A click on Next; a disabled button does not fire. */
    method ClickNext()
      modifies this`currentPage
      ensures currentPage == Next(old(currentPage), totalPages)
      ensures old(Valid()) ==> Valid()
    {
      if !NextDisabled() {
        currentPage := Next(currentPage, totalPages);
      }
    }

    /** A successful response: `setSpecifications(response.data.data || [])`
        and `setTotalPages(response.data.totalPages || 1)`; the current page
        is left as it was. */
    method Load(listing: Listing)
      modifies this`specifications, this`totalPages
      ensures specifications == (if listing.rows.Some? then listing.rows.value else [])
      ensures totalPages == TotalPagesOr(listing.totalPages)
    {
      specifications := if listing.rows.Some? then listing.rows.value else [];
      totalPages := TotalPagesOr(listing.totalPages);
    }
  }
}
