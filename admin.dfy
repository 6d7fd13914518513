/** The catalog editor of components/AdminDashboard.tsx: the table search, the add/edit
    form lifecycle and the integer stats. `Date.now()`, `Math.random()` and the current
    year are passed in as parameters. */
module Admin {
  import opened Types
  import opened Seqs
  import opened TextSearch
  import Catalog

  // ---------------------------------------------------------------- partial books

  /** `Partial<Book>`: a key the object lacks is None. */
  datatype Draft = Draft(
    id: Option<string>,
    title: Option<string>,
    author: Option<string>,
    description: Option<string>,
    price: Option<int>,
    category: Option<string>,
    coverImage: Option<string>,
    rating: Option<real>,
    year: Option<string>,
    previewPages: Option<seq<string>>,
    isNew: Option<bool>
  )

  /** The object with no keys at all. */
  const NO_KEYS: Draft := Draft(None, None, None, None, None, None, None, None, None, None, None)

  /** One key under `{ ...base, ...patch }`: the patch's value when it has the key. */
  function Pick<T>(patch: Option<T>, base: Option<T>): Option<T> {
    if patch.Some? then patch else base
  }

  /** The keys of a whole book: the required ones always, the optional ones when set. */
  function DraftOf(b: Book): Draft {
    Draft(Some(b.id), Some(b.title), Some(b.author), Some(b.description), Some(b.price),
      Some(b.category), Some(b.coverImage), Some(b.rating), b.year, b.previewPages, b.isNew)
  }

  /** Every key a Book requires, other than `id`, is present. */
  predicate Complete(d: Draft) {
    && d.title.Some? && d.author.Some? && d.description.Some? && d.price.Some?
    && d.category.Some? && d.coverImage.Some? && d.rating.Some?
  }

  /** `{ ...base, ...patch }`: every key of `patch` overrides, every other key of `base` stays. */
  function Overlay(base: Draft, patch: Draft): (r: Draft)
    ensures patch == NO_KEYS ==> r == base
    ensures Complete(base) || Complete(patch) ==> Complete(r)
  {
    Draft(Pick(patch.id, base.id), Pick(patch.title, base.title), Pick(patch.author, base.author),
      Pick(patch.description, base.description), Pick(patch.price, base.price),
      Pick(patch.category, base.category), Pick(patch.coverImage, base.coverImage),
      Pick(patch.rating, base.rating), Pick(patch.year, base.year),
      Pick(patch.previewPages, base.previewPages), Pick(patch.isNew, base.isNew))
  }

  /** Two successive spreads are one spread of the combined patch, so a run of field
      edits acts like a single edit. */
  lemma OverlayComposes(base: Draft, p: Draft, q: Draft)
    ensures Overlay(Overlay(base, p), q) == Overlay(base, Overlay(p, q))
  {
  }

  // ---------------------------------------------------------------- submitting

  /** `{ ...editingBook, ...formData } as Book` (line 63): the edited book with every form
      key overriding it. */
  function Merge(editing: Book, form: Draft): (r: Book)
    ensures DraftOf(r) == Overlay(DraftOf(editing), form)
    ensures form == DraftOf(editing) ==> r == editing
  {
    Book(
      Pick(form.id, Some(editing.id)).value,
      Pick(form.title, Some(editing.title)).value,
      Pick(form.author, Some(editing.author)).value,
      Pick(form.description, Some(editing.description)).value,
      Pick(form.price, Some(editing.price)).value,
      Pick(form.category, Some(editing.category)).value,
      Pick(form.coverImage, Some(editing.coverImage)).value,
      Pick(form.rating, Some(editing.rating)).value,
      Pick(form.year, editing.year),
      Pick(form.previewPages, editing.previewPages),
      Pick(form.isNew, editing.isNew))
  }

  /** `{ ...formData, id: Date.now().toString() } as Book` (line 65), given the fresh id. */
  function NewBook(form: Draft, freshId: string): (r: Book)
    requires Complete(form)
    ensures r.id == freshId
    ensures DraftOf(r) == Overlay(form, NO_KEYS.(id := Some(freshId)))
  {
    Book(freshId, form.title.value, form.author.value, form.description.value,
      form.price.value, form.category.value, form.coverImage.value, form.rating.value,
      form.year, form.previewPages, form.isNew)
  }

  /** Which callback `handleSubmit` calls, and with what book. */
  datatype Submission = Added(book: Book) | Updated(book: Book)

  /** The callback `handleSubmit` makes (lines 62-66): exactly one of `onUpdate` (while
      editing) and `onAdd` (otherwise). */
  function Submitted(editing: Option<Book>, form: Draft, freshId: string): (s: Submission)
    requires editing.None? ==> Complete(form)
    ensures s.Updated? <==> editing.Some?
    ensures editing.Some? ==> DraftOf(s.book) == Overlay(DraftOf(editing.value), form)
    ensures editing.None? ==> s.book.id == freshId && DraftOf(s.book) == form.(id := Some(freshId))
  {
    match editing
    case Some(b) => Updated(Merge(b, form))
    case None => Added(NewBook(form, freshId))
  }

  /** Opening a book for editing and submitting at once hands back that very book. */
  lemma EditWithoutChangesIsIdentity(b: Book, freshId: string)
    ensures Submitted(Some(b), DraftOf(b), freshId) == Updated(b)
  {
  }

  // ---------------------------------------------------------------- the form

  /** The cover of the form's initial state (line 32). */
  const INITIAL_COVER: string := "https://picsum.photos/seed/newbook/400/600"

  /** The rating a new book starts with. */
  const DEFAULT_RATING: real := 5.0

  /** The form that `handleOpenAdd` installs (lines 40-50), and the form's initial state
      (lines 26-36) with `coverImage` = INITIAL_COVER, given the cover and the year. */
  function BlankForm(coverImage: string, year: string): (d: Draft)
    ensures Complete(d)
    ensures d.id.None? && d.previewPages.None?
    ensures d.title == Some("") && d.author == Some("") && d.description == Some("")
    ensures d.price == Some(0) && d.category == Some("fiction") && d.rating == Some(DEFAULT_RATING)
    ensures d.isNew == Some(true) && d.coverImage == Some(coverImage) && d.year == Some(year)
  {
    NO_KEYS.(title := Some(""), author := Some(""), description := Some(""), price := Some(0),
      category := Some("fiction"), coverImage := Some(coverImage), rating := Some(DEFAULT_RATING),
      year := Some(year), isNew := Some(true))
  }

  /** The editing state of the dashboard. */
  class AdminDashboard {
    var isModalOpen: bool
    var editingBook: Option<Book>
    var searchTerm: string
    var formData: Draft

    /** The form always holds every key a new book needs. */
    ghost predicate Valid()
      reads this
    {
      Complete(formData)
    }

    constructor (year: string)
      ensures Valid()
      ensures !isModalOpen && editingBook == None && searchTerm == ""
      ensures formData == BlankForm(INITIAL_COVER, year)
    {
      isModalOpen := false;
      editingBook := None;
      searchTerm := "";
      formData := BlankForm(INITIAL_COVER, year);
    }

    /** `handleOpenAdd` (lines 38-52), given the random cover URL and the current year. */
    method OpenAdd(coverImage: string, year: string)
      modifies this`editingBook, this`formData, this`isModalOpen
      ensures Valid()
      ensures editingBook == None && formData == BlankForm(coverImage, year) && isModalOpen
    {
      editingBook := None;
      formData := BlankForm(coverImage, year);
      isModalOpen := true;
    }

    /** `handleOpenEdit` (lines 54-58). */
    method OpenEdit(book: Book)
      modifies this`editingBook, this`formData, this`isModalOpen
      ensures Valid()
      ensures editingBook == Some(book) && formData == DraftOf(book) && isModalOpen
    {
      editingBook := Some(book);
      formData := DraftOf(book);
      isModalOpen := true;
    }

    /** An input's change handler, `setFormData({ ...formData, key: value })`
        (lines 216-297), with `patch` holding the changed key. */
    method EditForm(patch: Draft)
      requires Valid()
      modifies this`formData
      ensures Valid()
      ensures formData == Overlay(old(formData), patch)
    {
      formData := Overlay(formData, patch);
    }

    /** `handleSubmit` (lines 60-68), given the fresh id: emits one callback, then closes. */
    method Submit(freshId: string) returns (s: Submission)
      requires Valid()
      modifies this`isModalOpen
      ensures Valid()
      ensures s == Submitted(editingBook, formData, freshId)
      ensures !isModalOpen
    {
      s := Submitted(editingBook, formData, freshId);
      isModalOpen := false;
    }

    /** The close and cancel buttons (lines 206, 312). */
    method Close()
      requires Valid()
      modifies this`isModalOpen
      ensures Valid()
      ensures !isModalOpen
    {
      isModalOpen := false;
    }

    /** The search box's change handler (line 97). */
    method SetSearchTerm(term: string)
      requires Valid()
      modifies this`searchTerm
      ensures Valid()
      ensures searchTerm == term
    {
      searchTerm := term;
    }
  }

  // ---------------------------------------------------------------- table and stats

  /** `filteredBooks` (lines 70-73): the books whose lowercased title or author contains
      the lowercased term, in their original order. */
  function FilteredBooks(books: seq<Book>, term: string, lower: char -> char): (r: seq<Book>)
    ensures forall b :: b in r <==> b in books && MatchesSearch(lower, b, term)
    ensures forall b :: multiset(r)[b] == if MatchesSearch(lower, b, term) then multiset(books)[b] else 0
    ensures IsSubsequence(r, books)
    ensures |r| <= |books|
  {
    FilterIsSubsequence(b => MatchesSearch(lower, b, term), books);
    Filter(b => MatchesSearch(lower, b, term), books)
  }

  /** An empty search term keeps the whole list. */
  lemma EmptyTermKeepsAll(books: seq<Book>, lower: char -> char)
    ensures FilteredBooks(books, "", lower) == books
  {
    forall i | 0 <= i < |books|
      ensures MatchesSearch(lower, books[i], "")
    {
      EmptyQueryMatches(lower, books[i]);
    }
    FilterKeepsAll(b => MatchesSearch(lower, b, ""), books);
  }

  /** `b.isNew` is truthy. */
  predicate MarkedNew(b: Book) {
    b.isNew == Some(true)
  }

  /** The "new arrivals" stat, `books.filter(b => b.isNew).length` (line 118). */
  function NewCount(books: seq<Book>): (n: nat)
    ensures n <= |books|
    ensures n == 0 <==> forall i :: 0 <= i < |books| ==> !MarkedNew(books[i])
    ensures n == |books| <==> forall i :: 0 <= i < |books| ==> MarkedNew(books[i])
  {
    if books == [] then 0
    else (if MarkedNew(books[0]) then 1 else 0) + NewCount(books[1..])
  }

  /** The categories stat, `CATEGORIES.length - 1` (line 119). */
  function CategoryStat(cats: seq<Category>): int {
    |cats| - 1
  }

  /** A category other than the pseudo-category `all`. */
  predicate NotAll(c: Category) {
    c.id != "all"
  }

  /** A category a book can be filed under: neither `all` nor `new`. */
  predicate Selectable(c: Category) {
    c.id != "all" && c.id != "new"
  }

  /** The category selector's options (line 236): every category but `all` and `new`. */
  function SelectableCategories(cats: seq<Category>): (r: seq<Category>)
    ensures forall c :: c in r <==> c in cats && Selectable(c)
  {
    Filter(Selectable, cats)
  }

  /** The recursive count is the length of the filtered list, as the dashboard computes it. */
  lemma {:induction false} NewCountIsFilterLength(books: seq<Book>)
    ensures NewCount(books) == |Filter(MarkedNew, books)|
  {
    if books != [] {
      NewCountIsFilterLength(books[1..]);
    }
  }

  /** The categories stat counts the six shipped categories other than `all`. */
  lemma CatalogCategoryStat()
    ensures CategoryStat(Catalog.CATEGORIES) == |Filter(NotAll, Catalog.CATEGORIES)| == 6
  {
    var cats := Catalog.CATEGORIES;
    assert cats[0].id == "all";
    FilterKeepsAll(NotAll, cats[1..]);
  }

  /** The selector drops exactly the two pseudo-categories in front of the shipped list. */
  lemma SelectableCatalogCategories()
    ensures SelectableCategories(Catalog.CATEGORIES) == Catalog.CATEGORIES[2..]
  {
    var cats := Catalog.CATEGORIES;
    assert cats[0].id == "all" && cats[1].id == "new";
    FilterKeepsAll(Selectable, cats[2..]);
    assert cats[1..][1..] == cats[2..];
  }

  /** The selector's option ids are the five real categories. */
  lemma SelectableCatalogIds()
    ensures Map(Catalog.CategoryId, SelectableCategories(Catalog.CATEGORIES))
      == ["fiction", "history", "romance", "self-help", "kids"]
  {
    SelectableCatalogCategories();
    Catalog.RealCategoryIds();
  }

  /** Every real catalog category is offered by the selector. */
  lemma RealCategoryIsSelectable(id: string)
    requires Catalog.IsRealCategory(id)
    ensures id in Map(Catalog.CategoryId, SelectableCategories(Catalog.CATEGORIES))
  {
    Catalog.RealCategoriesAreFive(id);
    SelectableCatalogIds();
  }

  /** Every shipped book's category, and the blank form's `fiction`, is offered by the selector. */
  lemma CatalogSelectableCategories()
    ensures forall i :: 0 <= i < |Catalog.BOOKS| ==>
      Catalog.BOOKS[i].category in Map(Catalog.CategoryId, SelectableCategories(Catalog.CATEGORIES))
    ensures forall cover, year :: BlankForm(cover, year).category.value in Map(Catalog.CategoryId, SelectableCategories(Catalog.CATEGORIES))
  {
    Catalog.BooksInRealCategories();
    forall i | 0 <= i < |Catalog.BOOKS|
      ensures Catalog.BOOKS[i].category in Map(Catalog.CategoryId, SelectableCategories(Catalog.CATEGORIES))
    {
      RealCategoryIsSelectable(Catalog.BOOKS[i].category);
    }
    SelectableCatalogIds();
  }
}
