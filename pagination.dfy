/**
 * The listing page's pagination: `totalPages = Math.ceil(n / ITEMS_PER_PAGE)`,
 * `startIndex = (currentPage - 1) * ITEMS_PER_PAGE` and
 * `products.slice(startIndex, startIndex + ITEMS_PER_PAGE)`, plus the
 * "Showing x-y of n" line. `slice` is modelled with its JavaScript meaning,
 * negative indices counting from the end and out-of-range indices clipped.
 */
module Pagination {
  import opened Numbers

  const ITEMS_PER_PAGE: nat := 12


  /** `Math.ceil(n / 12)`: the least number of pages of 12 that hold `n` items. */
  function TotalPages(n: nat): (t: nat)
    ensures t * ITEMS_PER_PAGE >= n
    ensures t == 0 || (t - 1) * ITEMS_PER_PAGE < n
    ensures t == 0 <==> n == 0
  {
    (n + ITEMS_PER_PAGE - 1) / ITEMS_PER_PAGE
  }

  function StartIndex(page: int): int {
    (page - 1) * ITEMS_PER_PAGE
  }

  /** `s.slice(start, end)`. */
  function Slice<T>(s: seq<T>, start: int, end: int): (r: seq<T>)
    ensures 0 <= start <= end <= |s| ==> r == s[start..end]
    ensures 0 <= end <= start ==> r == []
    ensures |s| <= start ==> r == []
  {
    var from := if start < 0 then Max(|s| + start, 0) else Min(start, |s|);
    var to := if end < 0 then Max(|s| + end, 0) else Min(end, |s|);
    if from < to then s[from..to] else []
  }

  /** The products shown on page `page` (1-based). */
  function PageItems<T>(s: seq<T>, page: int): seq<T> {
    Slice(s, StartIndex(page), StartIndex(page) + ITEMS_PER_PAGE)
  }

  /** A page from 1 on holds the next (up to) 12 items after its start index; past the end it is empty. */
  lemma PageItemsSize<T>(s: seq<T>, page: int)
    requires page >= 1
    ensures |PageItems(s, page)| == Min(ITEMS_PER_PAGE, Max(0, |s| - StartIndex(page)))
    ensures PageItems(s, page) == s[Min(StartIndex(page), |s|)..Min(StartIndex(page) + ITEMS_PER_PAGE, |s|)]
  {
  }

  /** A page beyond `totalPages` is empty: the state the page reset on a filter change avoids. */
  lemma PageBeyondTotalIsEmpty<T>(s: seq<T>, page: int)
    requires page > TotalPages(|s|)
    ensures PageItems(s, page) == []
  {
    assert StartIndex(page) >= TotalPages(|s|) * ITEMS_PER_PAGE;
  }

  /** Whatever the page number, a page holds at most 12 items (`slice` of a 12-wide window). */
  lemma PageItemsBounded<T>(s: seq<T>, page: int)
    ensures |PageItems(s, page)| <= ITEMS_PER_PAGE
  {
  }

  /** The pages worth showing are exactly 1..totalPages: those, and only those, hold items. */
  lemma PageNonEmptyIff<T>(s: seq<T>, page: int)
    requires page >= 1
    ensures PageItems(s, page) != [] <==> page <= TotalPages(|s|)
  {
    PageItemsSize(s, page);
    if page > TotalPages(|s|) {
      PageBeyondTotalIsEmpty(s, page);
    } else {
      assert StartIndex(page) < |s|;
    }
  }

  /** Pages 1..k laid end to end. */
  function PagesUpTo<T>(s: seq<T>, k: nat): seq<T> {
    if k == 0 then [] else PagesUpTo(s, k - 1) + PageItems(s, k)
  }

  lemma {:induction false} PagesUpToIsPrefix<T>(s: seq<T>, k: nat)
    ensures PagesUpTo(s, k) == s[..Min(k * ITEMS_PER_PAGE, |s|)]
  {
    if k > 0 {
      PagesUpToIsPrefix(s, k - 1);
      PageItemsSize(s, k);
      var a, b := Min((k - 1) * ITEMS_PER_PAGE, |s|), Min(k * ITEMS_PER_PAGE, |s|);
      assert s[..a] + s[a..b] == s[..b];
    }
  }

  /** Pages 1..totalPages partition the sorted list: concatenated they give it back exactly. */
  lemma PagesPartition<T>(s: seq<T>)
    ensures PagesUpTo(s, TotalPages(|s|)) == s
  {
    PagesUpToIsPrefix(s, TotalPages(|s|));
  }

  /** The two numbers of "Showing x-y of n". */
  function ShowingFrom(page: int): int { StartIndex(page) + 1 }
  function ShowingTo(n: nat, page: int): int { Min(StartIndex(page) + ITEMS_PER_PAGE, n) }

  /** On a page that exists (or page 1 of an empty list) the label counts exactly the items shown, at their positions. */
  lemma ShowingRangeMatchesPage<T>(s: seq<T>, page: int)
    requires page >= 1 && StartIndex(page) <= |s|
    ensures ShowingTo(|s|, page) - ShowingFrom(page) + 1 == |PageItems(s, page)|
    ensures PageItems(s, page) == s[ShowingFrom(page) - 1..ShowingTo(|s|, page)]
  {
    PageItemsSize(s, page);
  }

  /** Fourteen products make two pages, of twelve and of two. */
  lemma FourteenProducts<T>(s: seq<T>)
    requires |s| == 14
    ensures TotalPages(|s|) == 2
    ensures |PageItems(s, 1)| == 12 && |PageItems(s, 2)| == 2
  {
    PageItemsSize(s, 1);
    PageItemsSize(s, 2);
  }
}
