/** The records shared by every component of the bookstore (types.ts). */
module Types {

  datatype Option<T> = None | Some(value: T) {
    function GetOr(default: T): T {
      match this
      case Some(v) => v
      case None => default
    }
  }

  /** A catalog entry. Prices are whole ETB amounts, ratings are reals in the
      catalog's 0..5 scale; `year`, `previewPages` and `isNew` are optional keys. */
  datatype Book = Book(
    id: string,
    title: string,
    author: string,
    description: string,
    price: int,
    category: string,
    coverImage: string,
    rating: real,
    year: Option<string>,
    previewPages: Option<seq<string>>,
    isNew: Option<bool>
  )

  /** A filter category shown in the sidebar (`caption` is the source's `label`, a Dafny
      keyword); `all` and `new` are pseudo-categories. */
  datatype Category = Category(id: string, caption: string, icon: string)

  /** No two books of `xs` share an id. */
  predicate DistinctIds(xs: seq<Book>) {
    forall i, j :: 0 <= i < j < |xs| ==> xs[i].id != xs[j].id
  }

  /** Some book of `xs` has id `id` (the truthiness of `xs.find(b => b.id === id)`). */
  predicate HasId(xs: seq<Book>, id: string) {
    exists i :: 0 <= i < |xs| && xs[i].id == id
  }
}
