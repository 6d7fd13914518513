# Awash digital bookstore — a verified model of its list and state logic

The bookstore is a client-side React application that sells Amharic books. This
project models in Dafny the deterministic logic behind its screens:

- **Storefront catalog view** (`Storefront`, App.tsx). Four tests are ANDed over the
  catalog: category, case-insensitive title/author search, inclusive price window and
  minimum rating. An optional sort follows, by title, author, ascending price or
  descending price; it is modelled as an in-place array sort. The module also covers
  the `isFiltered` summary, the capped and de-duplicated history of viewed books, the
  sidebar toggles and the price slider. The App component is a class whose fields are
  the React state variables.
- **Admin catalog editor** (`Admin`, components/AdminDashboard.tsx). It covers the
  table search, the form lifecycle (open for adding, open for editing, field edits,
  submit) with `Partial<Book>` objects and object spread, the "new arrivals" and
  categories stats, and the category selector.
- **Preview reader** (`Preview`, components/BookPreview.tsx). It covers the page list
  with its three-page fallback, the guarded next/previous page counter and the page
  numbers printed under the two open pages.
- **Rating stars** (`Stars`, components/RatingStars.tsx). Each of `max` stars is full,
  half or empty.
- **Shipped data** (`Catalog`, constants.tsx). The 18 books and 7 categories are Dafny
  constants with every field as written. The lemmas prove the facts the filter relies
  on.

Shared pieces:
- `Types` holds the records of types.ts.
- `Seqs` holds `Array.prototype.filter` and its order and membership facts.
- `TextSearch` holds the `toLowerCase().includes(...)` search.

Browser-provided behaviour enters as parameters:
- `toLowerCase` is an arbitrary character map `lower`.
- `a.localeCompare(b, 'am') <= 0` is a relation `le` on strings, assumed only to be a
  total preorder (total and transitive, ties allowed).
- `Date.now()` gives the fresh id passed to `Admin.AdminDashboard.Submit`.
- `Math.random()` gives the cover URL passed to `Admin.AdminDashboard.OpenAdd`.
- `new Date().getFullYear()` gives the year passed to the same method.

What the code does, in four points the model follows:
- Viewing a book that is already in the history leaves the history as it is; the
  history is not move-to-front (App.tsx:38).
- There is no pagination and no author filter.
- The `new` category is an ordinary category id. No shipped book is filed under it, so
  selecting it shows nothing (`Storefront.NewAndKidsShowNothing`).
- The code never calls `setMinRating`, so the rating floor stays 0 in the running
  store. The model keeps `minRating` as a field and proves the filter for any value.

## Model

| member | source | states |
|---|---|---|
| Seqs.Filter | App.tsx:64-72 | the kept elements are exactly those of the input that pass the test: every occurrence of a passing element is kept and every other one dropped (multiplicities), so the length never grows |
| Seqs.FilterIsSubsequence | App.tsx:64 | filtering keeps the relative order of the kept elements (the result is a subsequence of the input) |
| TextSearch.Lower | App.tsx:66-67 | lowercasing keeps the length and maps every character through the lowercase map |
| TextSearch.EmptyQueryMatches | App.tsx:66-67 | the empty query matches every book, whatever the lowercase map |
| TextSearch.Includes | App.tsx:66-67 | definition of `hay.includes(needle)`: the needle occurs at some position |
| TextSearch.MatchesSearch | App.tsx:66-67 | definition of the search test, also used at components/AdminDashboard.tsx:71-72: the lowercased title or author contains the lowercased query |
| TextSearch.TitleMatchesItself | App.tsx:66 | a book is found by its own title |
| Catalog.CatalogIds | constants.tsx:4-107 | the shipped books carry the ids "1" to "18" in order |
| Catalog.CatalogIdsDistinct | constants.tsx:4-107 | the ids "1" to "18" are pairwise distinct |
| Catalog.BooksHaveDistinctIds | constants.tsx:4-107 | there are 18 books and no two share an id |
| Catalog.BooksPricedWithinSlider | constants.tsx:10-106 | every price lies in [0, 1000] |
| Catalog.BooksRatedWithinScale | constants.tsx:13-106 | every rating lies in [0, 5] |
| Catalog.RealCategoryIds | constants.tsx:109-117 | past `all` and `new` the category ids are fiction, history, romance, self-help and kids |
| Catalog.RealCategoriesAreFive | constants.tsx:109-117 | an id is a listed category other than `all` and `new` exactly when it is one of those five |
| Catalog.BooksInRealCategories | constants.tsx:4-117 | every book's category is a listed category id other than `all` and `new`; the category ids are pairwise distinct |
| Catalog.NoBookInNewOrKids | constants.tsx:4-117 | no book is filed under `new` or `kids` |
| Storefront.MatchesCategory | App.tsx:65 | definition of the category test: the active id is `all` or equals the book's category |
| Storefront.MatchesPrice | App.tsx:68 | definition of the price test: the price lies in the window, both ends inclusive |
| Storefront.MatchesRating | App.tsx:69 | definition of the rating test: the rating is at least the floor |
| Storefront.Matches | App.tsx:65-71 | definition of the conjunction of the four tests |
| Storefront.Visible | App.tsx:64-72 | a book is shown exactly when it is in the list and passes all four tests at once; each passing book is shown as many times as it occurs, and the shown books keep their list order |
| Storefront.InOrder | App.tsx:76-85 | definition of the four comparators as "may precede": collated title, collated author, non-decreasing price, non-increasing price |
| Storefront.InOrderTotal | App.tsx:74-86 | under a total-preorder collation, any two books are ordered one way or the other for every sort option |
| Storefront.InOrderTransitive | App.tsx:74-86 | the order of each sort option is transitive |
| Storefront.SortInPlace | App.tsx:76-85 | the array ends sorted under the option's comparator (non-decreasing price, non-increasing price, or collated title or author) and holds the same books with the same multiplicities |
| Storefront.FilterAndSort | App.tsx:63-92 | the result is a permutation of the filtered list, sorted under the option; with `default` it is the filtered list itself; it holds exactly the books that pass all four tests |
| Storefront.IsFiltered | App.tsx:94 | definition of `isFiltered`: category other than `all`, a positive rating floor, or a price window narrower than [0, 1000] |
| Storefront.IsFilteredIff | App.tsx:94 | `isFiltered` holds exactly when the criteria reject some in-scale book that the search alone would show, so the query plays no part |
| Storefront.CatalogInSliderScale | constants.tsx:10-106 | every shipped book lies within the slider range and the rating scale |
| Storefront.UnfilteredShowsSearchMatches | App.tsx:64-72 | when `isFiltered` is false, the view of an in-scale list is exactly the search matches, in order |
| Storefront.NeutralCategoryAndQuery | App.tsx:65-67 | the category `all` and the empty query accept every book |
| Storefront.DefaultCriteriaShowAll | App.tsx:15-29 | the initial filter state shows an in-scale list unchanged |
| Storefront.DefaultCriteriaShowCatalog | App.tsx:63-72 | the initial state shows all 18 shipped books in catalog order |
| Storefront.UnusedCategoryShowsNothing | App.tsx:65 | a category no book is filed under shows an empty list |
| Storefront.NewAndKidsShowNothing | App.tsx:65 | selecting `new` or `kids` shows no shipped book |
| Storefront.DefaultSliderExcludesNothing | App.tsx:68 | with the slider at [0, 1000] the price test excludes no in-scale book |
| Storefront.PriceWindowScenario | App.tsx:68 | the 350 ETB fiction book is shown for the window [300, 400] and not for [0, 100] |
| Storefront.WithInteraction | App.tsx:37-41 | a viewed book already present leaves the history unchanged; otherwise the book comes first, followed by the old history cut so that at most 10 remain; the book is then present, the cap of 10 and distinct ids are kept |
| Storefront.HistoryBoundedAndDistinct | App.tsx:36-42 | after any sequence of views the history has at most 10 books with distinct ids |
| Storefront.HistoryOfDistinctViews | App.tsx:36-42 | viewing books with distinct ids leaves the 10 most recent, most recent first |
| Storefront.Toggled | App.tsx:59-61 | toggling flips the named panel and leaves the other two as they were |
| Storefront.App.constructor | App.tsx:15-34 | the initial state: category `all`, empty query, `default` sort, price [0, 1000], rating floor 0, panels (open, open, closed), empty history |
| Storefront.App.AddToInteractions | App.tsx:36-42 | the history becomes the updater's result, and the cap and distinct ids are preserved |
| Storefront.App.ToggleSection | App.tsx:59-61 | only the named panel flips |
| Storefront.App.SetMaxPrice | App.tsx:213 | the slider replaces the upper bound and keeps the lower one |
| Storefront.App.FilteredAndSortedBooks | App.tsx:63-92 | the shown list is a permutation of the filtered catalog, sorted under the current option, in catalog order for `default`, and holds exactly the catalog books passing the current tests |
| Admin.DraftOf | components/AdminDashboard.tsx:56 | definition of a whole book seen as a form object: every required key set, each optional key as the book has it |
| Admin.Overlay | components/AdminDashboard.tsx:63 | spreading an empty patch changes nothing; a base or patch that has every key of a book gives a result that has them all |
| Admin.OverlayComposes | components/AdminDashboard.tsx:216-297 | two successive spreads equal one spread of the combined patch |
| Admin.Merge | components/AdminDashboard.tsx:63 | the edited book's keys are those of the original with every form key overriding; a form equal to the original gives back the original |
| Admin.NewBook | components/AdminDashboard.tsx:65 | the added book has the fresh id and otherwise exactly the form's keys |
| Admin.Submitted | components/AdminDashboard.tsx:60-66 | exactly one callback: `onUpdate` with the merged book while editing, `onAdd` with the form plus the fresh id otherwise |
| Admin.EditWithoutChangesIsIdentity | components/AdminDashboard.tsx:54-63 | opening a book and submitting at once hands back that very book |
| Admin.BlankForm | components/AdminDashboard.tsx:40-50 | the reset form: empty title, author and description, price 0, category `fiction`, rating 5.0, isNew true, the given cover and year, no id |
| Admin.AdminDashboard.constructor | components/AdminDashboard.tsx:21-36 | modal closed, nothing being edited, empty search, the blank form with the seeded cover |
| Admin.AdminDashboard.OpenAdd | components/AdminDashboard.tsx:38-52 | clears the edited book, resets the form, opens the modal |
| Admin.AdminDashboard.OpenEdit | components/AdminDashboard.tsx:54-58 | records the edited book, loads it into the form, opens the modal |
| Admin.AdminDashboard.EditForm | components/AdminDashboard.tsx:216-297 | a field edit spreads its key over the form, which keeps every key a book needs |
| Admin.AdminDashboard.Submit | components/AdminDashboard.tsx:60-68 | emits the submission for the current editing state and form, then the modal is closed |
| Admin.AdminDashboard.Close | components/AdminDashboard.tsx:206 | the modal is closed |
| Admin.AdminDashboard.SetSearchTerm | components/AdminDashboard.tsx:97 | the search term becomes the typed text |
| Admin.FilteredBooks | components/AdminDashboard.tsx:70-73 | a book is listed exactly when it is in the list and its lowercased title or author contains the lowercased term; each matching book is listed as many times as it occurs, in the original order |
| Admin.EmptyTermKeepsAll | components/AdminDashboard.tsx:70-73 | an empty term lists every book in its original order |
| Admin.MarkedNew | components/AdminDashboard.tsx:118 | definition of the truthiness of `b.isNew` |
| Admin.NewCount | components/AdminDashboard.tsx:118 | at most the number of books; zero exactly when no book is marked new; the total exactly when every book is |
| Admin.NewCountIsFilterLength | components/AdminDashboard.tsx:118 | the count equals the length of the list filtered on `isNew` |
| Admin.CategoryStat | components/AdminDashboard.tsx:119 | definition of the categories stat, the list length minus one |
| Admin.CatalogCategoryStat | components/AdminDashboard.tsx:119 | the categories stat, the list length minus one, is the number of shipped categories other than `all`, which is 6 |
| Admin.Selectable | components/AdminDashboard.tsx:236 | definition of the selector test: the id is neither `all` nor `new` |
| Admin.SelectableCategories | components/AdminDashboard.tsx:236 | a category is offered exactly when it is listed and is neither `all` nor `new` |
| Admin.SelectableCatalogCategories | components/AdminDashboard.tsx:236 | from the shipped list the selector drops exactly the leading `all` and `new` |
| Admin.SelectableCatalogIds | components/AdminDashboard.tsx:236 | the offered ids are fiction, history, romance, self-help and kids |
| Admin.RealCategoryIsSelectable | components/AdminDashboard.tsx:236 | every real catalog category is offered |
| Admin.CatalogSelectableCategories | components/AdminDashboard.tsx:233-236 | every shipped book's category, and the blank form's `fiction`, is among the offered options |
| Preview.PagesOf | components/BookPreview.tsx:12-16 | the fallback when the book has no preview pages, the book's own list otherwise |
| Preview.EmptyPreviewKept | components/BookPreview.tsx:12-16 | an empty preview list is kept as it is, not replaced by the fallback |
| Preview.NextPageOf | components/BookPreview.tsx:20-22 | advances by one exactly when not on the last page, otherwise stays; keeps the counter in range |
| Preview.PrevPageOf | components/BookPreview.tsx:24-26 | goes back by one exactly when past the first page, otherwise stays; keeps the counter in range |
| Preview.RunStaysInRange | components/BookPreview.tsx:20-26 | no sequence of presses takes an in-range counter out of range |
| Preview.FromFirstPage | components/BookPreview.tsx:11-26 | starting on the first page of a book with at least one page, the counter always indexes a page |
| Preview.NextThenPrev | components/BookPreview.tsx:20-26 | before the last page, forward then back returns to the same page |
| Preview.DisabledIffNoOp | components/BookPreview.tsx:84-99 | a button is disabled exactly when pressing it would change nothing |
| Preview.LeftLabel | components/BookPreview.tsx:65 | the left page number is odd, and positive from the first spread on |
| Preview.RightLabel | components/BookPreview.tsx:79 | the right page number is the even successor of the left one |
| Preview.SpreadsTilePageNumbers | components/BookPreview.tsx:65-79 | every page number from 1 on appears on exactly one spread |
| Preview.BookPreview.constructor | components/BookPreview.tsx:11-18 | opening a book takes its page list and starts on the first spread |
| Preview.BookPreview.NextPage | components/BookPreview.tsx:20-22 | the counter becomes its guarded successor and stays in range |
| Preview.BookPreview.PrevPage | components/BookPreview.tsx:24-26 | the counter becomes its guarded predecessor and stays in range |
| Preview.BookPreview.CurrentText | components/BookPreview.tsx:75 | the current page text exists exactly when the book has pages, and is then the page at the counter |
| Stars.StarAt | components/RatingStars.tsx:19-21 | a star is full exactly when the rating reaches its number; half exactly when it is not full and the rating reaches its number minus 0.5; otherwise empty |
| Stars.Stars | components/RatingStars.tsx:18-21 | exactly `max` stars; full stars form a prefix; a half star follows only full stars and precedes only empty ones, so there is at most one; a rating below 0.5 fills none; a rating of `max` or more fills all |
| Stars.StarsFor | components/RatingStars.tsx:11 | without a `max` the row has 5 stars |
| Stars.FullStarsAreWholePart | components/RatingStars.tsx:18-21 | the number of full stars is the whole part of the rating, clamped to [0, max] |

## Left out

- JSX rendering, styling, animations and visual-only state are not modelled. This
  covers the detail, quick-view, preview and share modal flags set by
  `handleOpenDetail`, `handleOpenQuickView` and `handleOpenPreview`, and the progress
  dots. Those handlers' one piece of logic is `addToInteractions`, which is modelled.
- components/Librarian.tsx is not part of this model. It is a network client for a
  generative-AI service with local-storage persistence.
- ShareModal.tsx, ReadLaterModal.tsx, NewArrivals.tsx, BookCard.tsx, Skeleton.tsx,
  AboutUs.tsx and ScrollReveal.tsx are not part of this model. They are browser calls,
  DOM metrics and markup.
- Unicode `toLowerCase` and Amharic collation are abstract parameters. Nothing is
  claimed about their actual tables.
- Storefront.SortInPlace: the library sort is modelled as an insertion sort with the
  same postcondition. Stability is not stated.
- The admin `averageRating` stat and every `toFixed(1)` label are floating-point
  formatting and are not modelled.
- The total-books stat `books.length` is not modelled, being the list length itself.
- Deleting a book (`onDelete` behind `window.confirm`) is not modelled. It is a browser
  dialog plus a callback into the parent, whose code is not shown.
- What the parent does with `onAdd` and `onUpdate` is outside this model.
- Admin.AdminDashboard.EditForm: inputs are modelled as already-converted values.
  `Number(e.target.value)` with its NaN and fractional results is not modelled. Prices
  are unbounded integers rather than JavaScript doubles.
- Admin.Submitted: adding requires the form to hold every key a book needs. The model
  proves that the dashboard's invariant guarantees this; the source instead casts with
  `as Book`.
- Admin.AdminDashboard.OpenAdd: the cover URL, built from `Math.random()`, and the
  current year are parameters rather than computed.
- The category, search, sort and rating setters of App.tsx are plain field assignments
  and are not modelled as methods. The filter is proved for every value of those
  fields.
- Preview.DisabledIffNoOp: stated for books with at least one page. With an empty page
  list the next button stays enabled (0 is not −1) although pressing it does nothing.
- Stars.Stars: `max` is a natural number; a negative or fractional `max`, which makes
  `Array(max)` throw or misbehave, is not modelled.
- React's asynchronous state batching is not modelled: setters are immediate field
  updates.
- The unused `year-newest` and `year-oldest` sort options of types.ts are not part of
  App's own five-option type and are left out.
