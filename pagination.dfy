// Client-side pagination of a list: a current page over fixed-size pages, with
// the page's slice, its 1-based item range and bounded navigation.

module Paginations {

  // ---------------------------------------------------------------------------
  // Page arithmetic
  // ---------------------------------------------------------------------------

  /** `Math.ceil(n / k)`: the fewest pages of `k` items that hold `n` items. */
  function PageCount(n: nat, k: nat): (r: nat)
    requires k > 0
    ensures n <= r * k
    ensures r > 0 ==> (r - 1) * k < n
    ensures r == 0 <==> n == 0
  {
    var r := (n + k - 1) / k;
    assert n + k - 1 == r * k + (n + k - 1) % k;
    assert (r - 1) * k == r * k - k;
    r
  }

  /** Where JavaScript's `slice` starts or stops for an index `i`: counted from the
      end when negative, and clipped to `0..len`. */
  function SliceIndex(i: int, len: nat): (r: nat)
    ensures r <= len
    ensures 0 <= i <= len ==> r == i
    ensures i > len ==> r == len
  {
    if i < 0 then (if len + i < 0 then 0 else len + i)
    else if i > len then len
    else i
  }

  function Min(a: int, b: int): int
  {
    if a < b then a else b
  }

  /** JavaScript's `s.slice(start, end)`. */
  function Slice<T>(s: seq<T>, start: int, end: int): (r: seq<T>)
    ensures 0 <= start <= end ==> |r| <= end - start
    ensures 0 <= start <= end ==> r == s[Min(start, |s|)..Min(end, |s|)]
  {
    var from := SliceIndex(start, |s|);
    var to := SliceIndex(end, |s|);
    if from < to then s[from..to] else []
  }

  /** The position of the first item of page `p`. */
  function Offset(p: int, k: nat): (r: int)
    ensures p >= 1 ==> r >= 0
    ensures r + k == p * k
  {
    (p - 1) * k
  }

  /** `paginatedItems`: the items of page `p`, the ones at positions
      `(p-1)*k` up to but excluding `p*k`, as far as the list goes. */
  function PageItems<T>(items: seq<T>, p: int, k: nat): (r: seq<T>)
    requires k > 0
    ensures p >= 1 ==> |r| <= k
    ensures p >= 1 ==> r == items[Min(Offset(p, k), |items|) .. Min(Offset(p, k) + k, |items|)]
  {
    Slice(items, Offset(p, k), Offset(p, k) + k)
  }

  /** `startIndex`: the 1-based position of the page's first item. */
  function StartIndex(p: int, k: nat): (r: int)
    ensures p >= 1 ==> r >= 1
    ensures r - 1 + k == p * k
  {
    Offset(p, k) + 1
  }

  /** `endIndex`: the 1-based position of the page's last item, clipped to the list. */
  function EndIndex(n: nat, p: int, k: nat): (r: int)
    ensures r <= n && r <= p * k
    ensures r == n || r == p * k
  {
    Min(p * k, n)
  }

  /** On every existing page, the range shown is within the list and counts exactly
      the items shown. */
  lemma PageRange<T>(items: seq<T>, p: int, k: nat)
    requires k > 0
    requires 1 <= p <= PageCount(|items|, k)
    ensures 1 <= StartIndex(p, k) <= EndIndex(|items|, p, k) <= |items|
    ensures EndIndex(|items|, p, k) - StartIndex(p, k) + 1 == |PageItems(items, p, k)|
  {
    var m := PageCount(|items|, k);
    MultiplyMonotone(p - 1, m - 1, k);
    assert Offset(p, k) + k == p * k;
  }

  lemma MultiplyMonotone(a: int, b: int, k: nat)
    requires a <= b
    ensures a * k <= b * k
  {
    assert b * k - a * k == (b - a) * k;
  }

  /** From page `p`, the page after it shows items exactly when `p` is not the last page. */
  lemma NextPageShows<T>(items: seq<T>, p: int, k: nat)
    requires k > 0 && p >= 1
    ensures p < PageCount(|items|, k) <==> |PageItems(items, p + 1, k)| > 0
  {
    var m := PageCount(|items|, k);
    assert Offset(p + 1, k) == p * k;
    if p < m {
      MultiplyMonotone(p, m - 1, k);
    } else {
      MultiplyMonotone(m, p, k);
    }
  }

  /** The first `m` pages, one after another. */
  function PagesUpTo<T>(items: seq<T>, k: nat, m: nat): seq<T>
    requires k > 0
  {
    if m == 0 then [] else PagesUpTo(items, k, m - 1) + PageItems(items, m, k)
  }

  /** The first `m` pages together are the first `m * k` items, as far as the list goes. */
  lemma {:induction false} PagesUpToPrefix<T>(items: seq<T>, k: nat, m: nat)
    requires k > 0
    ensures PagesUpTo(items, k, m) == items[..Min(m * k, |items|)]
  {
    if m > 0 {
      PagesUpToPrefix(items, k, m - 1);
      var a := Min(Offset(m, k), |items|);
      var b := Min(Offset(m, k) + k, |items|);
      assert Offset(m - 1, k) + k == Offset(m, k);
      assert items[..b] == items[..a] + items[a..b];
    }
  }

  /** Paging neither drops nor repeats anything: the pages from the first to the
      last, in order, are exactly the list. */
  lemma PagesCoverItems<T>(items: seq<T>, k: nat)
    requires k > 0
    ensures PagesUpTo(items, k, PageCount(|items|, k)) == items
  {
    PagesUpToPrefix(items, k, PageCount(|items|, k));
    assert items[..|items|] == items;
  }

  // ---------------------------------------------------------------------------
  // The paginator
  // ---------------------------------------------------------------------------

  class Pagination<T> {
    /** The list being paged (held fixed by the paginator's own operations). */
    var items: seq<T>
    const itemsPerPage: nat
    /** The 1-based current page. */
    var currentPage: int

    /** The current page is a real page, or the first page of an empty list. */
    ghost predicate Valid()
      reads this
    {
      itemsPerPage > 0 && 1 <= currentPage && (currentPage == 1 || currentPage <= TotalPages())
    }

    constructor (items: seq<T>, itemsPerPage: nat)
      requires itemsPerPage > 0
      ensures this.items == items && this.itemsPerPage == itemsPerPage
      ensures currentPage == 1
      ensures Valid()
    {
      this.items := items;
      this.itemsPerPage := itemsPerPage;
      currentPage := 1;
    }

    /** `totalPages`: the fewest pages that hold all items. */
    function TotalPages(): (r: nat)
      reads this
      requires itemsPerPage > 0
      ensures |items| <= r * itemsPerPage
      ensures r > 0 ==> (r - 1) * itemsPerPage < |items|
      ensures r == 0 <==> |items| == 0
    {
      PageCount(|items|, itemsPerPage)
    }

    /** `paginatedItems`: the current page's items, at most a page of them. */
    function PaginatedItems(): (r: seq<T>)
      reads this
      requires itemsPerPage > 0
      ensures currentPage >= 1 ==> |r| <= itemsPerPage
      ensures currentPage >= 1 ==>
        r == items[Min(Offset(currentPage, itemsPerPage), |items|) ..
                   Min(Offset(currentPage, itemsPerPage) + itemsPerPage, |items|)]
    {
      PageItems(items, currentPage, itemsPerPage)
    }

    /** `hasNextPage`: from a real page, there is a next page exactly when it shows
        some items. */
    function HasNextPage(): (r: bool)
      reads this
      requires itemsPerPage > 0
      ensures currentPage >= 1 ==> (r <==> |PageItems(items, currentPage + 1, itemsPerPage)| > 0)
    {
      var r := currentPage < TotalPages();
      if currentPage >= 1 then
        NextPageShows(items, currentPage, itemsPerPage);
        r
      else r
    }

    /** `hasPrevPage`: from a real page, there is a previous page exactly when items
        come before the current page. */
    function HasPrevPage(): (r: bool)
      reads this
      requires itemsPerPage > 0
      ensures currentPage >= 1 ==> (r <==> Offset(currentPage, itemsPerPage) > 0)
    {
      if currentPage > 1 then
        MultiplyMonotone(1, currentPage - 1, itemsPerPage);
        true
      else false
    }

    /** `nextPage`: one page on, unless this is the last page. */
    method NextPage()
      requires Valid()
      modifies this
      ensures Valid()
      ensures items == old(items)
      ensures currentPage == if old(HasNextPage()) then old(currentPage) + 1 else old(currentPage)
    {
      if HasNextPage() {
        currentPage := currentPage + 1;
      }
    }

    /** `prevPage`: one page back, unless this is the first page. */
    method PrevPage()
      requires Valid()
      modifies this
      ensures Valid()
      ensures items == old(items)
      ensures currentPage == if old(currentPage) > 1 then old(currentPage) - 1 else old(currentPage)
    {
      if HasPrevPage() {
        currentPage := currentPage - 1;
      }
    }

    /** `goToPage`: moves to `page` when it is an existing page, else stays. */
    method GoToPage(page: int)
      requires Valid()
      modifies this
      ensures Valid()
      ensures items == old(items)
      ensures currentPage == if 1 <= page <= old(TotalPages()) then page else old(currentPage)
    {
      if page >= 1 && page <= TotalPages() {
        currentPage := page;
      }
    }

    /** `resetPagination`: back to the first page. */
    method ResetPagination()
      requires Valid()
      modifies this
      ensures Valid()
      ensures items == old(items)
      ensures currentPage == 1
    {
      currentPage := 1;
    }
  }
}
