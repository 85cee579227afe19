/** The values the guest list derives from its collection on every render:
    the page count, the entries of the current page, and the page buttons. */
module Pagination {
  import opened JsArray

  /** Entries shown per page (`itemsPerPage`). */
  const PageSize: nat := 5

  /** `Math.ceil(n / itemsPerPage)`: the least number of pages that hold
      `n` entries. */
  function TotalPages(n: nat): (k: nat)
    ensures PageSize * k >= n
    ensures k > 0 ==> PageSize * (k - 1) < n
    ensures k == 0 <==> n == 0
  {
    if n % PageSize == 0 then n / PageSize else n / PageSize + 1
  }

  /** `guests.slice(indexOfFirstGuest, indexOfLastGuest)` for page `p`: the
      first index is `p * itemsPerPage - itemsPerPage`, the last `p * itemsPerPage`. */
  function CurrentGuests<T>(s: seq<T>, p: int): (r: seq<T>)
    ensures |r| <= PageSize
    ensures p >= 1 ==> r == s[Min((p - 1) * PageSize, |s|)..Min(p * PageSize, |s|)]
  {
    var indexOfLast := p * PageSize;
    var indexOfFirst := indexOfLast - PageSize;
    Slice(s, indexOfFirst, indexOfLast)
  }

  /** The labels of the page buttons, `Array.from({ length: totalPages }, (_, i) => i + 1)`. */
  function PageButtons(total: nat): (r: seq<int>)
    ensures |r| == total
    ensures forall n :: n in r <==> 1 <= n <= total
    ensures forall i, j :: 0 <= i < j < |r| ==> r[i] < r[j]
  {
    var r := seq(total, i => i + 1);
    assert forall n | 1 <= n <= total :: n in r by {
      forall n | 1 <= n <= total ensures n in r { assert r[n - 1] == n; }
    }
    r
  }

  /** The slices for pages 1..k, in page order. */
  function FirstPages<T>(s: seq<T>, k: nat): seq<seq<T>>
  {
    if k == 0 then [] else FirstPages(s, k - 1) + [CurrentGuests(s, k)]
  }

  /** Every page the buttons offer, in order. */
  function Pages<T>(s: seq<T>): seq<seq<T>>
  {
    FirstPages(s, TotalPages(|s|))
  }

  /** The pages laid end to end. */
  function Flatten<T>(pages: seq<seq<T>>): seq<T>
  {
    if pages == [] then [] else Flatten(pages[..|pages| - 1]) + pages[|pages| - 1]
  }

  /** Pages before the last hold exactly `PageSize` entries, the last page
      holds the remainder, and a page past the last is empty. */
  lemma PageLength<T>(s: seq<T>, p: int)
    requires p >= 1
    ensures var total := TotalPages(|s|);
      |CurrentGuests(s, p)| ==
        if p < total then PageSize
        else if p == total then |s| - PageSize * (total - 1)
        else 0
  {
  }

  /** Every page a button offers shows at least one entry. */
  lemma PageNonEmpty<T>(s: seq<T>, p: int)
    requires 1 <= p <= TotalPages(|s|)
    ensures CurrentGuests(s, p) != []
  {
  }

  /** Twelve entries make three pages, and the third shows the 11th and 12th. */
  lemma TwelveEntries<T>(s: seq<T>)
    requires |s| == 12
    ensures TotalPages(|s|) == 3
    ensures CurrentGuests(s, 3) == s[10..12]
    ensures |CurrentGuests(s, 3)| == 2
  {
  }

  /** Entry `i` is shown on page `i / PageSize + 1`, at position `i % PageSize`. */
  lemma PageOf<T>(s: seq<T>, i: int)
    requires 0 <= i < |s|
    ensures 1 <= i / PageSize + 1 <= TotalPages(|s|)
    ensures var page := CurrentGuests(s, i / PageSize + 1);
      i % PageSize < |page| && page[i % PageSize] == s[i]
  {
  }

  /** A larger collection never needs fewer pages. */
  lemma TotalPagesMonotone(m: nat, n: nat)
    requires m <= n
    ensures TotalPages(m) <= TotalPages(n)
  {
  }

  /** The first `k` pages laid end to end are the first `k * PageSize`
      entries (or all of them). */
  lemma {:induction false} FlattenFirstPages<T>(s: seq<T>, k: nat)
    ensures Flatten(FirstPages(s, k)) == s[..Min(k * PageSize, |s|)]
  {
    if k > 0 {
      var pages := FirstPages(s, k);
      assert pages[..|pages| - 1] == FirstPages(s, k - 1);
      FlattenFirstPages(s, k - 1);
      var a := Min((k - 1) * PageSize, |s|);
      var b := Min(k * PageSize, |s|);
      assert CurrentGuests(s, k) == s[a..b];
      assert s[..a] + s[a..b] == s[..b];
    }
  }

  /** Pagination partitions the collection: there are `TotalPages` pages,
      each holding between 1 and `PageSize` entries, and the pages in order
      give back the collection with nothing lost, repeated or reordered. */
  lemma {:induction false} PagesPartition<T>(s: seq<T>)
    ensures |Pages(s)| == TotalPages(|s|)
    ensures forall i :: 0 <= i < |Pages(s)| ==> 0 < |Pages(s)[i]| <= PageSize
    ensures Flatten(Pages(s)) == s
  {
    var total := TotalPages(|s|);
    FirstPagesShape(s, total);
    forall i | 0 <= i < total
      ensures 0 < |Pages(s)[i]|
    {
      PageNonEmpty(s, i + 1);
    }
    FlattenFirstPages(s, total);
    assert s[..Min(total * PageSize, |s|)] == s;
  }

  /** `FirstPages(s, k)` has `k` entries, the `i`-th being page `i + 1`. */
  lemma {:induction false} FirstPagesShape<T>(s: seq<T>, k: nat)
    ensures |FirstPages(s, k)| == k
    ensures forall i :: 0 <= i < k ==> FirstPages(s, k)[i] == CurrentGuests(s, i + 1)
  {
    if k > 0 {
      FirstPagesShape(s, k - 1);
    }
  }
}
