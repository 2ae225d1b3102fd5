/**
 * `usePagination`: a current page over fixed data, moved by `goToPage`,
 * `nextPage` and `prevPage` under guards that keep it within the pages, and
 * the slice of the data that the current page shows.
 */
module Pagination {

  function Min(a: int, b: int): int {
    if a <= b then a else b
  }

  function Max(a: int, b: int): int {
    if a <= b then b else a
  }

  /** `Math.ceil(n / itemsPerPage)`: the fewest pages of `itemsPerPage` items that hold `n` items. */
  function TotalPages(n: nat, itemsPerPage: nat): (pages: nat)
    requires itemsPerPage > 0
    ensures pages * itemsPerPage >= n
    ensures pages == 0 || (pages - 1) * itemsPerPage < n
  {
    var q := (n + itemsPerPage - 1) / itemsPerPage;
    var r := (n + itemsPerPage - 1) % itemsPerPage;
    assert q * itemsPerPage + r == n + itemsPerPage - 1;
    assert q == 0 || (q - 1) * itemsPerPage == q * itemsPerPage - itemsPerPage;
    q
  }

  /**
   * `data.slice((page - 1) * k, (page - 1) * k + k)`: the items of page
   * `page`, with JavaScript's clamping of slice bounds to the data.
   */
  function PageSlice<T>(data: seq<T>, page: int, itemsPerPage: nat): (r: seq<T>)
    requires page >= 1 && itemsPerPage > 0
    ensures |r| <= itemsPerPage
  {
    var start := (page - 1) * itemsPerPage;
    data[Min(start, |data|)..Min(start + itemsPerPage, |data|)]
  }

  lemma MulMonotone(a: int, b: int, k: nat)
    requires 0 <= a <= b
    ensures a * k <= b * k
  {
  }

  /** A page shows items exactly when it is one of pages 1 to `totalPages`. */
  lemma PageNonEmptyIffInRange<T>(data: seq<T>, page: int, itemsPerPage: nat)
    requires page >= 1 && itemsPerPage > 0
    ensures PageSlice(data, page, itemsPerPage) != [] <==> page <= TotalPages(|data|, itemsPerPage)
  {
    var pages := TotalPages(|data|, itemsPerPage);
    var start := (page - 1) * itemsPerPage;
    if page <= pages {
      MulMonotone(page - 1, pages - 1, itemsPerPage);
      assert start < |data|;
    } else {
      MulMonotone(pages, page - 1, itemsPerPage);
      assert start >= |data|;
    }
  }

  /** All the pieces of `pages`, one after another. */
  function Concat<T>(pages: seq<seq<T>>): seq<T> {
    if pages == [] then [] else Concat(pages[..|pages| - 1]) + pages[|pages| - 1]
  }

  /** Pages 1 to `count`, in order. */
  function FirstPages<T>(data: seq<T>, itemsPerPage: nat, count: nat): (pages: seq<seq<T>>)
    requires itemsPerPage > 0
    ensures |pages| == count
  {
    seq(count, i requires 0 <= i => PageSlice(data, i + 1, itemsPerPage))
  }

  /** The first `count` pages hold the first `count * itemsPerPage` items (clamped to the data). */
  lemma {:induction false} FirstPagesConcat<T>(data: seq<T>, itemsPerPage: nat, count: nat)
    requires itemsPerPage > 0
    ensures Concat(FirstPages(data, itemsPerPage, count)) == data[..Min(count * itemsPerPage, |data|)]
  {
    if count > 0 {
      var pages := FirstPages(data, itemsPerPage, count);
      assert pages[..count - 1] == FirstPages(data, itemsPerPage, count - 1);
      FirstPagesConcat(data, itemsPerPage, count - 1);
      var a := Min((count - 1) * itemsPerPage, |data|);
      var b := Min(count * itemsPerPage, |data|);
      assert count * itemsPerPage == (count - 1) * itemsPerPage + itemsPerPage;
      assert pages[count - 1] == data[a..b];
      assert data[..a] + data[a..b] == data[..b];
    }
  }

  /** Concatenating pages 1 to `totalPages` reproduces the data, in order. */
  lemma PagesReproduceData<T>(data: seq<T>, itemsPerPage: nat)
    requires itemsPerPage > 0
    ensures Concat(FirstPages(data, itemsPerPage, TotalPages(|data|, itemsPerPage))) == data
  {
    FirstPagesConcat(data, itemsPerPage, TotalPages(|data|, itemsPerPage));
    assert data[..|data|] == data;
  }

  /** The hook's state over one fixed data list. */
  class Paginator<T> {
    const data: seq<T>
    const itemsPerPage: nat
    var currentPage: int
    var currentData: seq<T>

    function TotalPagesOf(): nat
      reads this
      requires itemsPerPage > 0
    {
      TotalPages(|data|, itemsPerPage)
    }

    /** The page always stays between 1 and the last page (1 when there is no data). */
    ghost predicate Valid()
      reads this
    {
      itemsPerPage > 0 && 1 <= currentPage <= Max(1, TotalPages(|data|, itemsPerPage))
    }

    /** The hook starts on page 1, with no data shown until the effect runs. */
    constructor (data: seq<T>, itemsPerPage: nat)
      requires itemsPerPage > 0
      ensures Valid()
      ensures this.data == data && this.itemsPerPage == itemsPerPage
      ensures currentPage == 1 && currentData == []
    {
      this.data := data;
      this.itemsPerPage := itemsPerPage;
      currentPage := 1;
      currentData := [];
    }

    /** The effect: `currentData` becomes the current page's slice. */
    method SyncCurrentData()
      requires Valid()
      modifies this
      ensures Valid() && currentPage == old(currentPage)
      ensures currentData == PageSlice(data, currentPage, itemsPerPage)
    {
      var start := (currentPage - 1) * itemsPerPage;
      var end := start + itemsPerPage;
      currentData := data[Min(start, |data|)..Min(end, |data|)];
    }

    /** `goToPage`: moves only to an existing page. */
    method GoToPage(page: int)
      requires Valid()
      modifies this
      ensures Valid() && currentData == old(currentData)
      ensures currentPage == if 1 <= page <= TotalPagesOf() then page else old(currentPage)
    {
      if page >= 1 && page <= TotalPages(|data|, itemsPerPage) {
        currentPage := page;
      }
    }

    /** `nextPage`: moves forward unless on the last page. */
    method NextPage()
      requires Valid()
      modifies this
      ensures Valid() && currentData == old(currentData)
      ensures currentPage == if old(currentPage) < TotalPagesOf() then old(currentPage) + 1 else old(currentPage)
    {
      if currentPage < TotalPages(|data|, itemsPerPage) {
        currentPage := currentPage + 1;
      }
    }

    /** `prevPage`: moves back unless on page 1. */
    method PrevPage()
      requires Valid()
      modifies this
      ensures Valid() && currentData == old(currentData)
      ensures currentPage == if old(currentPage) > 1 then old(currentPage) - 1 else old(currentPage)
    {
      if currentPage > 1 {
        currentPage := currentPage - 1;
      }
    }
  }
}
