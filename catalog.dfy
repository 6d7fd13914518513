/** The static catalog of constants.tsx: eighteen books and seven categories, and the
    facts about them that the storefront filter and the admin form rely on. */
module Catalog {
  import opened Types
  import opened Seqs

  // Book(id, title, author, description, price, category, coverImage, rating, year,
  //      previewPages, isNew); an optional key the literal omits is None.

  const BOOK_1: Book := Book(
    "1", "ፍቅር እስከ መቃብር", "ሀዲስ አለማየሁ",
    "የኢትዮጵያ ስነ-ጽሁፍ ድንቅ ስራ የሆነው ይህ መፅሀፍ ስለ ፍቅር፣ ስለ ማህበራዊ ህይወት እና ስለ ባህል በጥልቀት ይተርካል።",
    350, "fiction",
    "https://images.unsplash.com/photo-1589998059171-988d887df646?q=80&w=800&h=1067&auto=format&fit=crop",
    4.9, Some("1958"),
    Some([
      "ምዕራፍ አንድ፡ የመጀመርያው ገጽ። በኢትዮጵያ ስነ-ጽሁፍ ውስጥ ትልቅ ቦታ ያለው ይህ ድንቅ ስራ ሲጀምር እንዲህ ይላል...",
      "ፍቅር ማለት ምን እንደሆነ የሚገልጽ ድንቅ ምንባብ። ቦጋለ እና ሰብለ ወንጌል ለመጀመርያ ጊዜ የተገናኙበት ቅጽበት...",
      "የማህበራዊ ህይወት እና የባህል ግጭቶች የሚታዩበት ጥልቅ የታሪክ ክፍል..."
    ]),
    Some(true))

  const BOOK_2: Book := Book(
    "2", "አደፍርስ", "ዳኛቸው ወርቁ",
    "በዘመናዊ የኢትዮጵያ ስነ-ጽሁፍ ውስጥ ልዩ ስፍራ ያለውና የሰውን ልጅ ማንነት የሚመረምር ድንቅ ስራ።",
    280, "fiction",
    "https://picsum.photos/seed/book2/400/600",
    4.7, Some("1962"),
    Some([
      "ገጽ ፩፡ አደፍርስ በሃሳብ ተውጧል። በአዲስ አበባ ጎዳናዎች ላይ ሲራመድ የነበረው ጥልቅ ትዝታ...",
      "የሰው ልጅ ማንነት እና የዘመናዊነት ግጭት በዳኛቸው ወርቁ ብዕር ሲገለጽ...",
      "የፍልስፍና እና የታሪክ ውህደት የሚታይበት ድንቅ ገጽ..."
    ]),
    None)

  const BOOK_3: Book := Book(
    "3", "ኦሮማይ", "በአሉ ግርማ",
    "የታሪክ፣ የፖለቲካ እና የሰው ልጅ እልህ የሚታይበት፣ በኢትዮጵያ ስነ-ጽሁፍ ውስጥ ትልቅ አነጋጋሪነት የነበረው መፅሀፍ።",
    320, "history",
    "https://picsum.photos/seed/book3/400/600",
    4.8, Some("1983"),
    Some([
      "ምዕራፍ አንድ፡ የቀይ ኮከብ ዘመቻ። የአስመራ ከተማ ግርግር እና የወታደራዊ እንቅስቃሴው መጀመሪያ...",
      "ጸጋዬ እና አሊማ ለመጀመሪያ ጊዜ የተያዩበት ቅጽበት። በጦርነት መሃል የበቀለ ፍቅር...",
      "የእልህ እና የፖለቲካ ውጥረት የሚታይበት አነጋጋሪ ክፍል..."
    ]),
    Some(true))

  const BOOK_4: Book := Book(
    "4", "ሰመመን", "ሲሳይ ንጉሱ",
    "በወጣቶች ህይወት and በፍቅር ዙሪያ የሚያጠነጥን፣ በርካታ አንባቢዎችን ቀልብ የገዛ መፅሀፍ።",
    250, "romance",
    "https://picsum.photos/seed/book4/400/600",
    4.5, Some("1987"),
    Some([
      "በዩኒቨርሲቲ ግቢ ውስጥ የጀመረው የሰመመን ታሪክ። የወጣቶች ህልም እና ተስፋ...",
      "የፍቅር ሰመመን ውስጥ የገቡት ገጸ-ባህሪያት ስሜት የሚገልጽ ክፍል...",
      "የህይወት ፈተናዎች እና የፍቅር ጥንካሬ የሚታይበት ድንቅ ምዕራፍ..."
    ]),
    None)

  const BOOK_5: Book := Book(
    "5", "የኢትዮጵያ ታሪክ", "ተክለፃዲቅ መኩሪያ",
    "ስለ ኢትዮጵያ ዘመናዊ ታሪክ ግንዛቤን የሚሰጥ መሰረታዊ መፅሀፍ።",
    450, "history",
    "https://picsum.photos/seed/book5/400/600",
    4.9, Some("1945"),
    None,
    Some(true))

  const BOOK_6: Book := Book(
    "6", "Atomic Habits", "James Clear",
    "An easy & proven way to build good habits & break bad ones.",
    420, "self-help",
    "https://picsum.photos/seed/book6/400/600",
    4.8, Some("2018"),
    None,
    Some(true))

  const BOOK_7: Book := Book(
    "7", "የቀይ ኮከብ ጥሪ", "በአሉ ግርማ",
    "ስለ ኢትዮጵያ አብዮት እና ስለ ሶማሊያ ጦርነት የሚተርክ ድንቅ ስራ።",
    310, "history",
    "https://picsum.photos/seed/book7/400/600",
    4.6, Some("1980"),
    None,
    None)

  const BOOK_8: Book := Book(
    "8", "ልጅነት", "ዘነበ ወላ",
    "ስለ ልጅነት ትዝታ እና ስለ ኢትዮጵያ ማህበረሰብ የሚተርክ መፅሀፍ።",
    180, "fiction",
    "https://picsum.photos/seed/book8/400/600",
    4.4, Some("2005"),
    None,
    None)

  const BOOK_9: Book := Book(
    "9", "ተልባ", "አዳም ረታ",
    "የአዳም ረታን ልዩ የፅሁፍ ስልት የሚያሳይ ድንቅ የልብ ወለድ ስራ።",
    290, "fiction",
    "https://picsum.photos/seed/book9/400/600",
    4.7, Some("2010"),
    None,
    None)

  const BOOK_10: Book := Book(
    "10", "The Alchemist", "Paulo Coelho",
    "A fable about following your dreams and listening to your heart.",
    380, "fiction",
    "https://picsum.photos/seed/book10/400/600",
    4.9, Some("1988"),
    None,
    None)

  const BOOK_11: Book := Book(
    "11", "ባለ እጅ ስራው", "ስብሃት ገብረእግዚአብሔር",
    "ስለ ህይወት እና ስለ ፍልስፍና የሚተርኩ የስብሃት ድንቅ አጫጭር ታሪኮች።",
    220, "fiction",
    "https://picsum.photos/seed/book11/400/600",
    4.8, Some("1995"),
    None,
    None)

  const BOOK_12: Book := Book(
    "12", "Deep Work", "Cal Newport",
    "Rules for focused success in a distracted world.",
    450, "self-help",
    "https://picsum.photos/seed/book12/400/600",
    4.7, Some("2016"),
    None,
    None)

  const BOOK_13: Book := Book(
    "13", "ሀገሬ", "ፀጋዬ ገብረመድህን",
    "ስለ ኢትዮጵያዊነት እና ስለ ሀገር ፍቅር የሚሰብኩ ድንቅ ግጥሞች።",
    150, "fiction",
    "https://picsum.photos/seed/book13/400/600",
    5.0, Some("1970"),
    None,
    None)

  const BOOK_14: Book := Book(
    "14", "The Power of Now", "Eckhart Tolle",
    "A guide to spiritual enlightenment.",
    410, "self-help",
    "https://picsum.photos/seed/book14/400/600",
    4.6, Some("1997"),
    None,
    None)

  const BOOK_15: Book := Book(
    "15", "Sapiens", "Yuval Noah Harari",
    "A brief history of humankind.",
    550, "history",
    "https://picsum.photos/seed/book15/400/600",
    4.8, Some("2011"),
    None,
    None)

  const BOOK_16: Book := Book(
    "16", "Thinking, Fast and Slow", "Daniel Kahneman",
    "An exploration of the two systems that drive the way we think.",
    490, "self-help",
    "https://picsum.photos/seed/book16/400/600",
    4.7, Some("2011"),
    None,
    None)

  const BOOK_17: Book := Book(
    "17", "መቅደስ", "ይስማዕከ ወርቁ",
    "ዘመናዊ የኢትዮጵያ ስነ-ጽሁፍ ፍጥረት የሆነ አሳታሚ ስራ።",
    260, "fiction",
    "https://picsum.photos/seed/book17/400/600",
    4.5, Some("2014"),
    None,
    Some(true))

  const BOOK_18: Book := Book(
    "18", "ኑሮ በዘዴ", "ዶ/ር ምህረት ደበበ",
    "የስነ-ልቦና እውቀትን ለህይወት ስኬት የሚጠቀም ድንቅ መፅሀፍ።",
    340, "self-help",
    "https://picsum.photos/seed/book18/400/600",
    4.8, Some("2013"),
    None,
    None)

  const BOOKS: seq<Book> := [
    BOOK_1, BOOK_2, BOOK_3, BOOK_4, BOOK_5, BOOK_6, BOOK_7, BOOK_8, BOOK_9,
    BOOK_10, BOOK_11, BOOK_12, BOOK_13, BOOK_14, BOOK_15, BOOK_16, BOOK_17, BOOK_18
  ]

  const CATEGORIES: seq<Category> := [
    Category("all", "ሁሉም", "📚"),
    Category("new", "አዲስ የገቡ", "✨"),
    Category("fiction", "ልብ ወለድ", "🎨"),
    Category("history", "ታሪክ", "🏛️"),
    Category("romance", "ፍቅር", "💖"),
    Category("self-help", "ራስን ማገዝ", "🧘"),
    Category("kids", "ለልጆች", "🧸")
  ]

  function CategoryId(c: Category): string {
    c.id
  }

  function BookId(b: Book): string {
    b.id
  }

  /** A real catalog category: listed in CATEGORIES and neither of the pseudo-categories. */
  predicate IsRealCategory(id: string) {
    id in Map(CategoryId, CATEGORIES) && id != "all" && id != "new"
  }

  /** The ids "1" to "18". */
  const CATALOG_IDS: seq<string> := ["1", "2", "3", "4", "5", "6", "7", "8", "9",
    "10", "11", "12", "13", "14", "15", "16", "17", "18"]

  /** The catalog's ids are "1" to "18", in order. */
  lemma CatalogIds()
    ensures Map(BookId, BOOKS) == CATALOG_IDS
  {
  }

  /** The ids "1" to "18" are pairwise distinct. */
  lemma CatalogIdsDistinct()
    ensures forall i, j :: 0 <= i < j < |CATALOG_IDS| ==> CATALOG_IDS[i] != CATALOG_IDS[j]
  {
  }

  /** A list of books whose ids are pairwise distinct has distinct ids. */
  lemma DistinctIdsOfDistinctList(xs: seq<Book>)
    requires forall i, j :: 0 <= i < j < |xs| ==> Map(BookId, xs)[i] != Map(BookId, xs)[j]
    ensures DistinctIds(xs)
  {
    forall i, j | 0 <= i < j < |xs|
      ensures xs[i].id != xs[j].id
    {
      assert Map(BookId, xs)[i] != Map(BookId, xs)[j];
    }
  }

  /** Eighteen books with the pairwise distinct ids "1" to "18". */
  lemma BooksHaveDistinctIds()
    ensures |BOOKS| == 18 && DistinctIds(BOOKS)
  {
    CatalogIds();
    CatalogIdsDistinct();
    DistinctIdsOfDistinctList(BOOKS);
  }

  /** Every price lies within the slider's range [0, 1000]. */
  lemma BooksPricedWithinSlider()
    ensures forall i :: 0 <= i < |BOOKS| ==> 0 <= BOOKS[i].price <= 1000
  {
  }

  /** Every rating lies within [0, 5]. */
  lemma BooksRatedWithinScale()
    ensures forall i :: 0 <= i < |BOOKS| ==> 0.0 <= BOOKS[i].rating <= 5.0
  {
  }

  /** Past the two pseudo-categories come the five real ones. */
  lemma RealCategoryIds()
    ensures Map(CategoryId, CATEGORIES[2..]) == ["fiction", "history", "romance", "self-help", "kids"]
  {
  }

  /** The real categories are exactly the five past the pseudo-categories. */
  lemma RealCategoriesAreFive(id: string)
    ensures IsRealCategory(id) <==> id in ["fiction", "history", "romance", "self-help", "kids"]
  {
    assert Map(CategoryId, CATEGORIES) == ["all", "new"] + ["fiction", "history", "romance", "self-help", "kids"];
  }

  /** Every book belongs to a real category, and category ids are distinct. */
  lemma BooksInRealCategories()
    ensures forall i :: 0 <= i < |BOOKS| ==> IsRealCategory(BOOKS[i].category)
    ensures forall i, j :: 0 <= i < j < |CATEGORIES| ==> CATEGORIES[i].id != CATEGORIES[j].id
  {
    assert Map(CategoryId, CATEGORIES) == ["all", "new", "fiction", "history", "romance", "self-help", "kids"];
  }

  /** No book is filed under the pseudo-category `new` or under `kids`. */
  lemma NoBookInNewOrKids()
    ensures forall i :: 0 <= i < |BOOKS| ==> BOOKS[i].category != "new" && BOOKS[i].category != "kids"
  {
  }
}
