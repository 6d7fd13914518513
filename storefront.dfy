/** The catalog view of App.tsx: the four ANDed filter predicates, the sort switch, the
    `isFiltered` summary, the interaction history and the sidebar state.
    `toLowerCase` is a character map `lower`; `a.localeCompare(b, 'am') <= 0` is a
    relation `le` on strings, assumed only to be a total preorder. */
module Storefront {
  import opened Types
  import opened Seqs
  import opened TextSearch
  import Catalog

  // ---------------------------------------------------------------- filter criteria

  /** The five options of the sort selector (App.tsx:12). */
  datatype SortOption = Default | ByTitle | ByAuthor | PriceLow | PriceHigh

  /** `priceRange`: `[lo, hi]`, both ends inclusive. */
  datatype PriceRange = PriceRange(lo: int, hi: int)

  /** The state the catalog view is computed from. */
  datatype Criteria = Criteria(
    activeCategory: string,
    searchQuery: string,
    priceRange: PriceRange,
    minRating: real,
    sortBy: SortOption
  )

  /** The category id that disables the category test. */
  const ALL_CATEGORIES: string := "all"

  /** The largest value of the price slider, and the initial upper bound. */
  const SLIDER_MAX: int := 1000

  /** The initial state of App (App.tsx:15-17, 28-29). */
  const DEFAULT_CRITERIA: Criteria :=
    Criteria(ALL_CATEGORIES, "", PriceRange(0, SLIDER_MAX), 0.0, Default)

  predicate MatchesCategory(c: Criteria, b: Book) {
    c.activeCategory == ALL_CATEGORIES || b.category == c.activeCategory
  }

  predicate MatchesPrice(c: Criteria, b: Book) {
    c.priceRange.lo <= b.price && b.price <= c.priceRange.hi
  }

  predicate MatchesRating(c: Criteria, b: Book) {
    b.rating >= c.minRating
  }

  /** The conjunction the catalog filter applies to each book. */
  predicate Matches(c: Criteria, lower: char -> char, b: Book) {
    && MatchesCategory(c, b)
    && MatchesSearch(lower, b, c.searchQuery)
    && MatchesPrice(c, b)
    && MatchesRating(c, b)
  }

  /** `BOOKS.filter(...)`: the books passing all four tests, in catalog order. */
  function Visible(books: seq<Book>, c: Criteria, lower: char -> char): (r: seq<Book>)
    ensures forall b :: b in r <==> b in books && Matches(c, lower, b)
    ensures forall b :: multiset(r)[b] == if Matches(c, lower, b) then multiset(books)[b] else 0
    ensures IsSubsequence(r, books)
  {
    FilterIsSubsequence(b => Matches(c, lower, b), books);
    Filter(b => Matches(c, lower, b), books)
  }

  // ---------------------------------------------------------------- sorting

  /** `le` orders strings totally and transitively (ties allowed). */
  ghost predicate TotalPreorder(le: (string, string) -> bool) {
    && (forall x, y :: le(x, y) || le(y, x))
    && (forall x, y, z :: le(x, y) && le(y, z) ==> le(x, z))
  }

  /** `x` may precede `y` under `opt`: the comparator of App.tsx:76-85 is not positive. */
  predicate InOrder(opt: SortOption, le: (string, string) -> bool, x: Book, y: Book) {
    match opt
    case Default => true
    case ByTitle => le(x.title, y.title)
    case ByAuthor => le(x.author, y.author)
    case PriceLow => x.price <= y.price
    case PriceHigh => y.price <= x.price
  }

  /** Every earlier book may precede every later one. */
  predicate SortedBy(opt: SortOption, le: (string, string) -> bool, s: seq<Book>) {
    forall i, j :: 0 <= i < j < |s| ==> InOrder(opt, le, s[i], s[j])
  }

  lemma InOrderTotal(opt: SortOption, le: (string, string) -> bool, x: Book, y: Book)
    requires TotalPreorder(le)
    ensures InOrder(opt, le, x, y) || InOrder(opt, le, y, x)
  {
  }

  lemma InOrderTransitive(opt: SortOption, le: (string, string) -> bool, x: Book, y: Book, z: Book)
    requires TotalPreorder(le)
    requires InOrder(opt, le, x, y) && InOrder(opt, le, y, z)
    ensures InOrder(opt, le, x, z)
  {
  }

  /** `result.sort(cmp)`: reorders `a` in place so that it is sorted under `opt`.
      The library sort is modelled by an insertion sort with the same postcondition. */
  method SortInPlace(a: array<Book>, opt: SortOption, le: (string, string) -> bool)
    requires TotalPreorder(le)
    modifies a
    ensures SortedBy(opt, le, a[..])
    ensures multiset(a[..]) == multiset(old(a[..]))
  {
    var i := 0;
    while i < a.Length
      invariant 0 <= i <= a.Length
      invariant forall k, l :: 0 <= k < l < i ==> InOrder(opt, le, a[k], a[l])
      invariant multiset(a[..]) == multiset(old(a[..]))
    {
      InsertLast(a, i, opt, le);
      i := i + 1;
    }
  }

  /** Moves `a[i]` left into the sorted prefix `a[..i]`, so that `a[..i + 1]` is sorted. */
  method InsertLast(a: array<Book>, i: int, opt: SortOption, le: (string, string) -> bool)
    requires TotalPreorder(le)
    requires 0 <= i < a.Length
    requires forall k, l :: 0 <= k < l < i ==> InOrder(opt, le, a[k], a[l])
    modifies a
    ensures forall k, l :: 0 <= k < l <= i ==> InOrder(opt, le, a[k], a[l])
    ensures multiset(a[..]) == multiset(old(a[..]))
  {
    var j := i;
    while j > 0 && !InOrder(opt, le, a[j - 1], a[j])
      invariant 0 <= j <= i
      invariant forall k, l :: 0 <= k < l <= i && k != j && l != j ==> InOrder(opt, le, a[k], a[l])
      invariant forall l :: j < l <= i ==> InOrder(opt, le, a[j], a[l])
      invariant multiset(a[..]) == multiset(old(a[..]))
    {
      InOrderTotal(opt, le, a[j - 1], a[j]);
      Swap(a, j - 1, j);
      j := j - 1;
    }
    forall k, l | 0 <= k < l <= i
      ensures InOrder(opt, le, a[k], a[l])
    {
      if l == j && k < j - 1 {
        InOrderTransitive(opt, le, a[k], a[j - 1], a[j]);
      }
    }
  }

  /** Exchanges two neighbouring elements of `a`. */
  method Swap(a: array<Book>, i: int, j: int)
    requires 0 <= i < j < a.Length
    modifies a
    ensures a[i] == old(a[j]) && a[j] == old(a[i])
    ensures forall k :: 0 <= k < a.Length && k != i && k != j ==> a[k] == old(a[k])
    ensures multiset(a[..]) == multiset(old(a[..]))
  {
    a[i], a[j] := a[j], a[i];
  }

  /** `filteredAndSortedBooks` (App.tsx:63-92): filter, then sort unless the option
      is `default`. */
  method FilterAndSort(books: seq<Book>, c: Criteria, lower: char -> char, le: (string, string) -> bool)
    returns (result: seq<Book>)
    requires TotalPreorder(le)
    ensures multiset(result) == multiset(Visible(books, c, lower))
    ensures SortedBy(c.sortBy, le, result)
    ensures c.sortBy == Default ==> result == Visible(books, c, lower)
    ensures forall b :: b in result <==> b in books && Matches(c, lower, b)
  {
    var filtered := Visible(books, c, lower);
    var a := new Book[|filtered|](k requires 0 <= k < |filtered| => filtered[k]);
    assert a[..] == filtered;
    if c.sortBy != Default {
      SortInPlace(a, c.sortBy, le);
    }
    result := a[..];
    forall b
      ensures b in result <==> b in filtered
    {
      assert b in result <==> b in multiset(result);
      assert b in filtered <==> b in multiset(filtered);
    }
  }

  // ---------------------------------------------------------------- filter facts

  /** `isFiltered` (App.tsx:94): some test other than the search is narrower than
      the initial state. */
  predicate IsFiltered(c: Criteria) {
    || c.activeCategory != ALL_CATEGORIES
    || c.minRating > 0.0
    || c.priceRange.lo > 0
    || c.priceRange.hi < SLIDER_MAX
  }

  /** A book the unfiltered view can show: price within the slider, rating within 0..5. */
  predicate InSliderScale(b: Book) {
    0 <= b.price <= SLIDER_MAX && 0.0 <= b.rating <= 5.0
  }

  /** `isFiltered` holds exactly when the criteria reject some in-scale book that the
      search alone would show; the search query and sort option play no part. */
  lemma IsFilteredIff(c: Criteria, lower: char -> char)
    ensures IsFiltered(c) <==>
      exists b :: InSliderScale(b) && MatchesSearch(lower, b, c.searchQuery) && !Matches(c, lower, b)
  {
    if IsFiltered(c) {
      var category := if c.activeCategory != ALL_CATEGORIES then ALL_CATEGORIES else "";
      var price := if c.priceRange.lo > 0 then 0 else SLIDER_MAX;
      var rating := if c.minRating > 0.0 then 0.0 else 5.0;
      var b := Book("", c.searchQuery, "", "", price, category, "", rating, None, None, None);
      TitleMatchesItself(lower, b);
      assert InSliderScale(b) && !Matches(c, lower, b);
    }
  }

  /** Every book of `books` is within the slider and the rating scale. */
  predicate AllInSliderScale(books: seq<Book>) {
    forall i :: 0 <= i < |books| ==> InSliderScale(books[i])
  }

  /** The catalog lies within the slider and the rating scale. */
  lemma CatalogInSliderScale()
    ensures AllInSliderScale(Catalog.BOOKS)
  {
    Catalog.BooksPricedWithinSlider();
    Catalog.BooksRatedWithinScale();
  }

  /** Unfiltered criteria show every in-scale book the search matches, in list order. */
  lemma UnfilteredShowsSearchMatches(books: seq<Book>, c: Criteria, lower: char -> char)
    requires AllInSliderScale(books)
    requires !IsFiltered(c)
    ensures Visible(books, c, lower) == Filter(b => MatchesSearch(lower, b, c.searchQuery), books)
  {
    FilterCongruent(b => Matches(c, lower, b), b => MatchesSearch(lower, b, c.searchQuery), books);
  }

  /** The empty query and the `all` category match every book. */
  lemma NeutralCategoryAndQuery(c: Criteria, lower: char -> char, b: Book)
    requires c.activeCategory == ALL_CATEGORIES && c.searchQuery == ""
    ensures MatchesCategory(c, b) && MatchesSearch(lower, b, c.searchQuery)
  {
    EmptyQueryMatches(lower, b);
  }

  /** The initial criteria show an in-scale list unchanged. */
  lemma DefaultCriteriaShowAll(books: seq<Book>, lower: char -> char)
    requires AllInSliderScale(books)
    ensures Visible(books, DEFAULT_CRITERIA, lower) == books
  {
    forall i | 0 <= i < |books|
      ensures Matches(DEFAULT_CRITERIA, lower, books[i])
    {
      EmptyQueryMatches(lower, books[i]);
    }
    FilterKeepsAll(b => Matches(DEFAULT_CRITERIA, lower, b), books);
  }

  /** The initial state shows all eighteen catalog books in catalog order. */
  lemma DefaultCriteriaShowCatalog(lower: char -> char)
    ensures Visible(Catalog.BOOKS, DEFAULT_CRITERIA, lower) == Catalog.BOOKS
    ensures |Visible(Catalog.BOOKS, DEFAULT_CRITERIA, lower)| == 18
  {
    CatalogInSliderScale();
    DefaultCriteriaShowAll(Catalog.BOOKS, lower);
  }

  /** A category no book of `books` is filed under shows nothing. */
  lemma UnusedCategoryShowsNothing(books: seq<Book>, c: Criteria, lower: char -> char)
    requires c.activeCategory != ALL_CATEGORIES
    requires forall i :: 0 <= i < |books| ==> books[i].category != c.activeCategory
    ensures Visible(books, c, lower) == []
  {
    FilterDropsAll(b => Matches(c, lower, b), books);
  }

  /** Selecting the `new` or the `kids` category shows no catalog book at all. */
  lemma NewAndKidsShowNothing(c: Criteria, lower: char -> char)
    requires c.activeCategory == "new" || c.activeCategory == "kids"
    ensures Visible(Catalog.BOOKS, c, lower) == []
  {
    Catalog.NoBookInNewOrKids();
    UnusedCategoryShowsNothing(Catalog.BOOKS, c, lower);
  }

  /** With the slider at its initial range the price test never excludes an in-scale book. */
  lemma DefaultSliderExcludesNothing(books: seq<Book>, c: Criteria, lower: char -> char)
    requires AllInSliderScale(books)
    requires c.priceRange == PriceRange(0, SLIDER_MAX)
    ensures Visible(books, c, lower) ==
      Filter(b => MatchesCategory(c, b) && MatchesSearch(lower, b, c.searchQuery) && MatchesRating(c, b), books)
  {
    FilterCongruent(b => Matches(c, lower, b),
      b => MatchesCategory(c, b) && MatchesSearch(lower, b, c.searchQuery) && MatchesRating(c, b),
      books);
  }

  /** The 350 ETB fiction book is shown for the window [300, 400] and hidden for [0, 100]. */
  lemma PriceWindowScenario(lower: char -> char)
    ensures Catalog.BOOK_1 in Visible(Catalog.BOOKS, DEFAULT_CRITERIA.(activeCategory := "fiction", priceRange := PriceRange(300, 400)), lower)
    ensures Catalog.BOOK_1 !in Visible(Catalog.BOOKS, DEFAULT_CRITERIA.(activeCategory := "fiction", priceRange := PriceRange(0, 100)), lower)
  {
    var b := Catalog.BOOKS[0];
    assert b == Catalog.BOOK_1 && b in Catalog.BOOKS;
    EmptyQueryMatches(lower, b);
    assert Matches(DEFAULT_CRITERIA.(activeCategory := "fiction", priceRange := PriceRange(300, 400)), lower, b);
  }

  // ---------------------------------------------------------------- interaction history

  /** How many recently viewed books are kept (App.tsx:39). */
  const MAX_INTERACTIONS: nat := 10

  /** The updater of `addToInteractions` (App.tsx:37-41): a book already present leaves
      the history as it is (it is not moved); otherwise it goes in front and the
      history is cut to ten entries. */
  function WithInteraction(prev: seq<Book>, book: Book): (r: seq<Book>)
    ensures HasId(prev, book.id) ==> r == prev
    ensures !HasId(prev, book.id) ==>
      && |r| == Min(|prev| + 1, MAX_INTERACTIONS)
      && r[0] == book
      && r[1..] == prev[..|r| - 1]
    ensures HasId(r, book.id)
    ensures |prev| <= MAX_INTERACTIONS ==> |r| <= MAX_INTERACTIONS
    ensures DistinctIds(prev) ==> DistinctIds(r)
  {
    if HasId(prev, book.id) then prev
    else
      var r := ([book] + prev)[..Min(|prev| + 1, MAX_INTERACTIONS)];
      assert r[0] == book;
      r
  }

  /** The history after viewing `views` in order, starting from none. */
  function History(views: seq<Book>): seq<Book> {
    if views == [] then [] else WithInteraction(History(views[..|views| - 1]), views[|views| - 1])
  }

  /** Whatever is viewed, the history keeps at most ten books with distinct ids. */
  lemma {:induction false} HistoryBoundedAndDistinct(views: seq<Book>)
    ensures |History(views)| <= MAX_INTERACTIONS
    ensures DistinctIds(History(views))
  {
    if views != [] {
      HistoryBoundedAndDistinct(views[..|views| - 1]);
    }
  }

  /** Putting `x` in front of the first `m` elements of `s` and cutting at `cap` is the
      same as cutting `[x] + s` at `cap`, when `m` already was the cut of `s`. */
  lemma ConsOfPrefix(x: Book, s: seq<Book>, cap: nat)
    requires cap >= 1
    ensures ([x] + s[..Min(|s|, cap)])[..Min(Min(|s|, cap) + 1, cap)] == ([x] + s)[..Min(|s| + 1, cap)]
  {
    var m := Min(|s|, cap);
    var lhs := ([x] + s[..m])[..Min(m + 1, cap)];
    var rhs := ([x] + s)[..Min(|s| + 1, cap)];
    assert |lhs| == |rhs|;
    forall k | 0 <= k < |lhs|
      ensures lhs[k] == rhs[k]
    {
      if k > 0 {
        assert lhs[k] == s[k - 1] == rhs[k];
      }
    }
  }

  /** A book whose id differs from every id of `views` is not in any cut of their reversal. */
  lemma FreshIdNotInReversedPrefix(views: seq<Book>, x: Book, m: nat)
    requires forall i :: 0 <= i < |views| ==> views[i].id != x.id
    requires m <= |views|
    ensures !HasId(Reversed(views)[..m], x.id)
  {
    var h := Reversed(views)[..m];
    forall k | 0 <= k < |h|
      ensures h[k].id != x.id
    {
      assert h[k] == views[|views| - 1 - k];
    }
  }

  /** Viewing books with distinct ids leaves the ten most recent, most recent first. */
  lemma {:induction false} HistoryOfDistinctViews(views: seq<Book>)
    requires DistinctIds(views)
    ensures History(views) == Reversed(views)[..Min(|views|, MAX_INTERACTIONS)]
  {
    if views != [] {
      var n := |views|;
      var earlier := views[..n - 1];
      var x := views[n - 1];
      assert DistinctIds(earlier);
      HistoryOfDistinctViews(earlier);
      var m := Min(n - 1, MAX_INTERACTIONS);
      var h := History(earlier);
      assert h == Reversed(earlier)[..m];
      assert forall i :: 0 <= i < |earlier| ==> earlier[i].id != x.id;
      FreshIdNotInReversedPrefix(earlier, x, m);
      assert History(views) == ([x] + h)[..Min(m + 1, MAX_INTERACTIONS)];
      ConsOfPrefix(x, Reversed(earlier), MAX_INTERACTIONS);
      assert Reversed(views) == [x] + Reversed(earlier);
    }
  }

  // ---------------------------------------------------------------- sidebar sections

  datatype Section = Categories | Price | Rating

  /** `expandedSections`: which sidebar panels are open. */
  datatype Sections = Sections(categories: bool, price: bool, rating: bool) {
    function Get(s: Section): bool {
      match s
      case Categories => categories
      case Price => price
      case Rating => rating
    }
  }

  const DEFAULT_SECTIONS: Sections := Sections(true, true, false)

  /** The updater of `toggleSection` (App.tsx:59-61). */
  function Toggled(ss: Sections, s: Section): (r: Sections)
    ensures r.Get(s) == !ss.Get(s)
    ensures forall o :: o != s ==> r.Get(o) == ss.Get(o)
  {
    match s
    case Categories => ss.(categories := !ss.categories)
    case Price => ss.(price := !ss.price)
    case Rating => ss.(rating := !ss.rating)
  }

  // ---------------------------------------------------------------- the component state

  /** The state fields of the App component that the catalog logic uses. */
  class App {
    var activeCategory: string
    var searchQuery: string
    var sortBy: SortOption
    var priceRange: PriceRange
    var minRating: real
    var expandedSections: Sections
    var interactedBooks: seq<Book>

    ghost predicate Valid()
      reads this
    {
      |interactedBooks| <= MAX_INTERACTIONS && DistinctIds(interactedBooks)
    }

    /** The filter inputs currently selected. */
    function Filters(): Criteria
      reads this
    {
      Criteria(activeCategory, searchQuery, priceRange, minRating, sortBy)
    }

    constructor ()
      ensures Valid()
      ensures Filters() == DEFAULT_CRITERIA
      ensures expandedSections == DEFAULT_SECTIONS && interactedBooks == []
    {
      activeCategory := ALL_CATEGORIES;
      searchQuery := "";
      sortBy := Default;
      priceRange := PriceRange(0, SLIDER_MAX);
      minRating := 0.0;
      expandedSections := DEFAULT_SECTIONS;
      interactedBooks := [];
    }

    /** `addToInteractions`, called by the detail, quick-view and preview openers. */
    method AddToInteractions(book: Book)
      requires Valid()
      modifies this`interactedBooks
      ensures Valid()
      ensures interactedBooks == WithInteraction(old(interactedBooks), book)
    {
      interactedBooks := WithInteraction(interactedBooks, book);
    }

    /** `toggleSection`: flips one panel and no other. */
    method ToggleSection(s: Section)
      requires Valid()
      modifies this`expandedSections
      ensures Valid()
      ensures expandedSections == Toggled(old(expandedSections), s)
      ensures expandedSections.Get(s) == !old(expandedSections).Get(s)
    {
      expandedSections := Toggled(expandedSections, s);
    }

    /** The price slider's change handler (App.tsx:213): replaces the upper bound only. */
    method SetMaxPrice(value: int)
      requires Valid()
      modifies this`priceRange
      ensures Valid()
      ensures priceRange == PriceRange(old(priceRange).lo, value)
    {
      priceRange := PriceRange(priceRange.lo, value);
    }

    /** The memoised catalog view for the current state. */
    method FilteredAndSortedBooks(lower: char -> char, le: (string, string) -> bool)
      returns (result: seq<Book>)
      requires TotalPreorder(le)
      ensures multiset(result) == multiset(Visible(Catalog.BOOKS, Filters(), lower))
      ensures SortedBy(sortBy, le, result)
      ensures sortBy == Default ==> result == Visible(Catalog.BOOKS, Filters(), lower)
      ensures forall b :: b in result <==> b in Catalog.BOOKS && Matches(Filters(), lower, b)
    {
      result := FilterAndSort(Catalog.BOOKS, Filters(), lower, le);
    }
  }
}
