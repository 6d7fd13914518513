/** The case-insensitive title/author search shared by the storefront (App.tsx:66-67)
    and the admin table (components/AdminDashboard.tsx:70-73).
    `toLowerCase` is a parameter `lower`, applied character by character. */
module TextSearch {
  import opened Types
  import opened Seqs

  /** `s.toLowerCase()` under the character map `lower`. */
  function Lower(lower: char -> char, s: string): (r: string)
    ensures |r| == |s|
    ensures forall k :: 0 <= k < |s| ==> r[k] == lower(s[k])
  {
    Map(lower, s)
  }

  /** `hay.includes(needle)`: `needle` occurs in `hay` at some position. */
  predicate Includes(hay: string, needle: string) {
    exists i :: 0 <= i <= |hay| && needle <= hay[i..]
  }

  /** The title or the author contains the query, both lowercased. */
  predicate MatchesSearch(lower: char -> char, b: Book, query: string) {
    || Includes(Lower(lower, b.title), Lower(lower, query))
    || Includes(Lower(lower, b.author), Lower(lower, query))
  }

  /** The empty string occurs in every string. */
  lemma IncludesEmpty(hay: string)
    ensures Includes(hay, "")
  {
    assert "" <= hay[0..];
  }

  /** Every string occurs in itself. */
  lemma IncludesSelf(s: string)
    ensures Includes(s, s)
  {
    assert s <= s[0..];
  }

  /** An empty query matches every book, whatever the lowercase map. */
  lemma EmptyQueryMatches(lower: char -> char, b: Book)
    ensures MatchesSearch(lower, b, "")
  {
    assert Lower(lower, "") == "";
    IncludesEmpty(Lower(lower, b.title));
  }

  /** A book whose title is the query itself matches that query. */
  lemma TitleMatchesItself(lower: char -> char, b: Book)
    ensures MatchesSearch(lower, b, b.title)
  {
    IncludesSelf(Lower(lower, b.title));
  }
}
