/**
 * The two orderings the review list uses: `sortedBy { it.rating }` and
 * `sortedByDescending { it.rating }`. Both are stable sorts, so the result is
 * fully determined: sorted by the key, a permutation of the input, and
 * reviews with equal ratings keep their relative order. The reference
 * definition here is an insertion sort on the key `rating` (ascending) or
 * `-rating` (descending); a stable descending sort by rating is exactly a
 * stable ascending sort by the negated rating.
 */
module RatingSort {
  import opened ReviewMapping

  function Key(descending: bool, r: Review): real {
    if descending then -r.rating else r.rating
  }

  predicate SortedByKey(s: seq<Review>, descending: bool) {
    forall i, j :: 0 <= i < j < |s| ==> Key(descending, s[i]) <= Key(descending, s[j])
  }

  /** The reviews of `s` whose rating is `k`, in the order they appear in `s`. */
  function WithRating(s: seq<Review>, k: real): seq<Review> {
    if s == [] then [] else RunOf(s[0], k) + WithRating(s[1..], k)
  }

  /** `r` alone if it has rating `k`, otherwise nothing. */
  function RunOf(r: Review, k: real): seq<Review> {
    if r.rating == k then [r] else []
  }

  /** Every review in `s` has a key of at least `b`. */
  predicate KeysAtLeast(b: real, s: seq<Review>, descending: bool) {
    forall k :: 0 <= k < |s| ==> b <= Key(descending, s[k])
  }

  lemma KeysAtLeastOfMultiset(b: real, t: seq<Review>, u: seq<Review>, x: Review, descending: bool)
    requires multiset(t) == multiset(u) + multiset{x}
    requires KeysAtLeast(b, u, descending) && b <= Key(descending, x)
    ensures KeysAtLeast(b, t, descending)
  {
    forall k | 0 <= k < |t| ensures b <= Key(descending, t[k]) {
      assert t[k] in multiset(t);
      if t[k] != x {
        assert t[k] in multiset(u);
        assert t[k] in u;
      }
    }
  }

  lemma SortedCons(h: Review, t: seq<Review>, descending: bool)
    requires SortedByKey(t, descending) && KeysAtLeast(Key(descending, h), t, descending)
    ensures SortedByKey([h] + t, descending)
  {
  }

  lemma BelowSortedHead(b: real, s: seq<Review>, descending: bool)
    requires SortedByKey(s, descending)
    requires s == [] || b <= Key(descending, s[0])
    ensures KeysAtLeast(b, s, descending)
  {
    forall k | 0 <= k < |s| ensures b <= Key(descending, s[k]) {
      if k > 0 {
        assert Key(descending, s[0]) <= Key(descending, s[k]);
      }
    }
  }

  /** Puts `x` in front of the first element whose key is not below its own. */
  function Insert(x: Review, s: seq<Review>, descending: bool): (r: seq<Review>)
    requires SortedByKey(s, descending)
    ensures SortedByKey(r, descending)
    ensures multiset(r) == multiset(s) + multiset{x}
  {
    if s == [] || Key(descending, x) <= Key(descending, s[0]) then
      BelowSortedHead(Key(descending, x), s, descending);
      SortedCons(x, s, descending);
      [x] + s
    else
      var t := Insert(x, s[1..], descending);
      assert s == [s[0]] + s[1..];
      KeysAtLeastOfMultiset(Key(descending, s[0]), t, s[1..], x, descending);
      SortedCons(s[0], t, descending);
      assert multiset([s[0]] + t) == multiset{s[0]} + multiset(t);
      [s[0]] + t
  }

  /** Stable sort by `Key(descending, _)`. */
  function StableSort(s: seq<Review>, descending: bool): (r: seq<Review>)
    ensures SortedByKey(r, descending)
    ensures multiset(r) == multiset(s)
  {
    if s == [] then []
    else
      assert s == [s[0]] + s[1..];
      Insert(s[0], StableSort(s[1..], descending), descending)
  }

  /** The run of rating `k` in `[x] + t`. */
  lemma WithRatingCons(x: Review, t: seq<Review>, k: real)
    ensures WithRating([x] + t, k) == RunOf(x, k) + WithRating(t, k)
  {
    assert ([x] + t)[1..] == t;
  }

  /** When `x` goes past `s[0]`, the run of `s[0]` comes first. */
  lemma InsertStepTies(x: Review, s: seq<Review>, descending: bool, k: real)
    requires SortedByKey(s, descending)
    requires s != [] && Key(descending, s[0]) < Key(descending, x)
    ensures WithRating(Insert(x, s, descending), k) == RunOf(s[0], k) + WithRating(Insert(x, s[1..], descending), k)
  {
    WithRatingCons(s[0], Insert(x, s[1..], descending), k);
  }

  /** Reviews of different ratings can trade places without changing any run. */
  lemma SwapTies(x: Review, s: seq<Review>, k: real)
    requires s != [] && x.rating != s[0].rating
    ensures WithRating([x] + s, k) == RunOf(s[0], k) + WithRating([x] + s[1..], k)
  {
    var rx, r0, rest := RunOf(x, k), RunOf(s[0], k), WithRating(s[1..], k);
    assert rx == [] || r0 == [];
    assert rx + r0 == r0 + rx;
    calc {
      WithRating([x] + s, k);
      { WithRatingCons(x, s, k); }
      rx + WithRating(s, k);
      rx + (r0 + rest);
      (rx + r0) + rest;
      (r0 + rx) + rest;
      r0 + (rx + rest);
      { WithRatingCons(x, s[1..], k); }
      r0 + WithRating([x] + s[1..], k);
    }
  }

  lemma {:induction false} InsertKeepsTies(x: Review, s: seq<Review>, descending: bool, k: real)
    requires SortedByKey(s, descending)
    ensures WithRating(Insert(x, s, descending), k) == WithRating([x] + s, k)
  {
    if s == [] || Key(descending, x) <= Key(descending, s[0]) {
    } else {
      InsertKeepsTies(x, s[1..], descending, k);
      InsertStepTies(x, s, descending, k);
      SwapTies(x, s, k);
    }
  }

  /** Stability: among reviews with the same rating, the input order survives. */
  lemma {:induction false} StableSortKeepsTies(s: seq<Review>, descending: bool, k: real)
    ensures WithRating(StableSort(s, descending), k) == WithRating(s, k)
  {
    if s != [] {
      var t := StableSort(s[1..], descending);
      InsertKeepsTies(s[0], t, descending, k);
      StableSortKeepsTies(s[1..], descending, k);
      assert ([s[0]] + t)[1..] == t;
    }
  }

  lemma {:induction false} WithRatingMembers(s: seq<Review>, k: real, x: Review)
    ensures x in WithRating(s, k) <==> x in s && x.rating == k
  {
    if s != [] {
      WithRatingMembers(s[1..], k, x);
      assert s == [s[0]] + s[1..];
    }
  }

  /** The first review of a sorted list has the least key. */
  lemma HeadHasLeastKey(s: seq<Review>, descending: bool, x: Review)
    requires SortedByKey(s, descending) && x in s
    ensures Key(descending, s[0]) <= Key(descending, x)
  {
    var m :| 0 <= m < |s| && s[m] == x;
    if m > 0 {
      assert Key(descending, s[0]) <= Key(descending, s[m]);
    }
  }

  /** Two sorted lists with the same runs of equal ratings start with the same review. */
  lemma SameTiesSameHead(a: seq<Review>, b: seq<Review>, descending: bool)
    requires SortedByKey(a, descending) && SortedByKey(b, descending)
    requires a != [] && b != []
    requires WithRating(a, a[0].rating) == WithRating(b, a[0].rating)
    requires WithRating(a, b[0].rating) == WithRating(b, b[0].rating)
    ensures a[0] == b[0]
  {
    var ra, rb := a[0].rating, b[0].rating;
    WithRatingMembers(a, ra, a[0]);
    WithRatingMembers(b, ra, a[0]);
    WithRatingMembers(b, rb, b[0]);
    WithRatingMembers(a, rb, b[0]);
    HeadHasLeastKey(b, descending, a[0]);
    HeadHasLeastKey(a, descending, b[0]);
    assert ra == rb;
    assert WithRating(a, ra)[0] == a[0];
    assert WithRating(b, ra)[0] == b[0];
  }

  /** Removing a common first review keeps the runs of equal ratings equal. */
  lemma SameTiesSameTail(a: seq<Review>, b: seq<Review>, k: real)
    requires a != [] && b != [] && a[0] == b[0]
    requires WithRating(a, k) == WithRating(b, k)
    ensures WithRating(a[1..], k) == WithRating(b[1..], k)
  {
    if a[0].rating == k {
      assert WithRating(a, k)[1..] == WithRating(a[1..], k);
      assert WithRating(b, k)[1..] == WithRating(b[1..], k);
    } else {
      assert WithRating(a, k) == WithRating(a[1..], k);
      assert WithRating(b, k) == WithRating(b[1..], k);
    }
  }

  /** Only the empty list has no runs at all. */
  lemma NoTiesOnlyEmpty(a: seq<Review>, b: seq<Review>)
    requires a == []
    requires forall k :: WithRating(a, k) == WithRating(b, k)
    ensures b == []
  {
    if b != [] {
      WithRatingMembers(b, b[0].rating, b[0]);
    }
  }

  lemma SameTiesSameTails(a: seq<Review>, b: seq<Review>)
    requires a != [] && b != [] && a[0] == b[0]
    requires forall k :: WithRating(a, k) == WithRating(b, k)
    ensures forall k :: WithRating(a[1..], k) == WithRating(b[1..], k)
  {
    forall k ensures WithRating(a[1..], k) == WithRating(b[1..], k) {
      SameTiesSameTail(a, b, k);
    }
  }

  lemma SortedTail(s: seq<Review>, descending: bool)
    requires s != [] && SortedByKey(s, descending)
    ensures SortedByKey(s[1..], descending)
  {
  }

  /** A sorted list is determined by its runs of equal ratings. */
  lemma {:induction false} SameTiesSameSorted(a: seq<Review>, b: seq<Review>, descending: bool)
    requires SortedByKey(a, descending) && SortedByKey(b, descending)
    requires forall k :: WithRating(a, k) == WithRating(b, k)
    ensures a == b
    decreases |a|
  {
    if a == [] {
      NoTiesOnlyEmpty(a, b);
    } else if b == [] {
      NoTiesOnlyEmpty(b, a);
    } else {
      SameTiesSameHead(a, b, descending);
      SameTiesSameTails(a, b);
      SortedTail(a, descending);
      SortedTail(b, descending);
      SameTiesSameSorted(a[1..], b[1..], descending);
      assert a == [a[0]] + a[1..] && b == [b[0]] + b[1..];
    }
  }

  /**
   * `StableSort` is the only sort by key that keeps ties in input order: any
   * sorted list with the same runs of equal ratings as the input is it.
   */
  lemma StableSortIsUnique(s: seq<Review>, t: seq<Review>, descending: bool)
    requires SortedByKey(t, descending)
    requires forall k :: WithRating(t, k) == WithRating(s, k)
    ensures t == StableSort(s, descending)
  {
    forall k ensures WithRating(t, k) == WithRating(StableSort(s, descending), k) {
      StableSortKeepsTies(s, descending, k);
    }
    SameTiesSameSorted(t, StableSort(s, descending), descending);
  }
}
