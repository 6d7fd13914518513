/** The star row of components/RatingStars.tsx: `max` stars, each full, half or empty
    according to the rating. */
module Stars {
  import opened Types

  datatype Star = Full | Half | Empty

  /** The row length when the caller gives none (line 11). */
  const DEFAULT_MAX: nat := 5

  /** Star `i` (0-based) of the row (lines 19-21): full once the rating reaches `i + 1`,
      half once it reaches `i + 0.5` without being full. */
  function StarAt(rating: real, i: int): (s: Star)
    ensures s == Full <==> rating >= (i + 1) as real
    ensures s == Half <==> rating < (i + 1) as real && rating >= (i + 1) as real - 0.5
    ensures s == Empty <==> rating < (i + 1) as real - 0.5
  {
    var starValue := (i + 1) as real;
    var isFull := rating >= starValue;
    var isHalf := !isFull && rating >= starValue - 0.5;
    if isFull then Full else if isHalf then Half else Empty
  }

  /** `[...Array(max)].map((_, i) => …)` (line 18). */
  function Stars(rating: real, max: nat): (r: seq<Star>)
    ensures |r| == max
    ensures forall i :: 0 <= i < max ==> r[i] == StarAt(rating, i)
    // full stars form a prefix
    ensures forall i, j :: 0 <= j < i < max && r[i] == Full ==> r[j] == Full
    // a half star follows every full star and precedes only empty ones
    ensures forall i :: 0 <= i < max && r[i] == Half ==>
      (forall j :: 0 <= j < i ==> r[j] == Full) && (forall j :: i < j < max ==> r[j] == Empty)
    // so there is at most one half star
    ensures forall i, j :: 0 <= i < max && 0 <= j < max && r[i] == Half && r[j] == Half ==> i == j
    ensures rating < 0.5 ==> forall i :: 0 <= i < max ==> r[i] == Empty
    ensures rating >= max as real ==> forall i :: 0 <= i < max ==> r[i] == Full
  {
    seq(max, i requires 0 <= i < max => StarAt(rating, i))
  }

  /** The row for an optional `max` prop. */
  function StarsFor(rating: real, max: Option<nat>): (r: seq<Star>)
    ensures |r| == max.GetOr(DEFAULT_MAX)
    ensures max.None? ==> r == Stars(rating, 5)
  {
    Stars(rating, max.GetOr(DEFAULT_MAX))
  }

  /** The number of full stars in `r`. */
  function CountFull(r: seq<Star>): nat {
    if r == [] then 0 else (if r[0] == Full then 1 else 0) + CountFull(r[1..])
  }

  /** `x` clamped into [lo, hi]. */
  function Clamp(x: int, lo: int, hi: int): int
    requires lo <= hi
  {
    if x < lo then lo else if x > hi then hi else x
  }

  /** A row whose full stars are exactly its first `k` has `k` full stars. */
  lemma {:induction false} CountFullPrefix(r: seq<Star>, k: int)
    requires 0 <= k <= |r|
    requires forall i :: 0 <= i < |r| ==> (r[i] == Full <==> i < k)
    ensures CountFull(r) == k
  {
    if r != [] {
      var k' := if k > 0 then k - 1 else 0;
      forall i | 0 <= i < |r| - 1
        ensures r[1..][i] == Full <==> i < k'
      {
        assert r[1..][i] == r[i + 1];
      }
      CountFullPrefix(r[1..], k');
    }
  }

  /** The row shows the whole part of the rating in full stars, between none and `max`. */
  lemma FullStarsAreWholePart(rating: real, max: nat)
    ensures CountFull(Stars(rating, max)) == Clamp(rating.Floor, 0, max)
  {
    var r := Stars(rating, max);
    var k := Clamp(rating.Floor, 0, max);
    forall i | 0 <= i < max
      ensures r[i] == Full <==> i < k
    {
      assert r[i] == Full <==> i + 1 <= rating.Floor;
    }
    CountFullPrefix(r, k);
  }
}
