/**
 * The paginator hook (`usePagination`): the page count, the slice of items
 * shown for the current page, and the `currentPage` state with its guarded
 * moves and its reset when the number of items changes.
 */
module Paging {
  import opened Js

  /** `Math.ceil(n / perPage)`: 0 for an empty list. */
  function TotalPages(n: nat, perPage: nat): (r: nat)
    requires perPage > 0
    ensures n == 0 <==> r == 0
    ensures r * perPage >= n
    ensures r > 0 ==> (r - 1) * perPage < n
  {
    (n + perPage - 1) / perPage
  }

  /** The first index of `page`: `(page - 1) * perPage`. */
  function StartIndex(page: int, perPage: nat): int {
    (page - 1) * perPage
  }

  /** `items.slice(startIndex, startIndex + perPage)` */
  function PageItems<T>(items: seq<T>, page: int, perPage: nat): seq<T> {
    Slice(items, StartIndex(page, perPage), StartIndex(page, perPage) + perPage)
  }

  /** Pages `1..count` laid end to end. */
  function FirstPages<T>(items: seq<T>, perPage: nat, count: nat): seq<T> {
    if count == 0 then [] else FirstPages(items, perPage, count - 1) + PageItems(items, count, perPage)
  }

  /** `goToPage(page)`: move only to a page that exists. */
  function GoTo(current: int, page: int, total: nat): (r: int)
    ensures 1 <= current <= Max(1, total) ==> 1 <= r <= Max(1, total)
    ensures 1 <= page <= total ==> r == page
    ensures !(1 <= page <= total) ==> r == current
  {
    if page >= 1 && page <= total then page else current
  }

  /** `goToNextPage()` */
  function Next(current: int, total: nat): (r: int)
    ensures 1 <= current <= Max(1, total) ==> 1 <= r <= Max(1, total)
    ensures r == current || r == current + 1
  {
    if current < total then current + 1 else current
  }

  /** `goToPrevPage()` */
  function Prev(current: int): (r: int)
    ensures 1 <= current ==> 1 <= r <= current
    ensures r == current || r == current - 1
  {
    if current > 1 then current - 1 else current
  }

  /** The page the reset effect leaves after the items change from `oldLength` to `newLength`. */
  function AfterItemsChange(current: int, oldLength: nat, newLength: nat): (r: int)
    ensures oldLength != newLength ==> r == 1
    ensures oldLength == newLength ==> r == current
  {
    if oldLength != newLength then 1 else current
  }

  /** The hook's state: the items it was given and the current page. */
  class Paginator<T> {
    var items: seq<T>
    const perPage: nat
    var currentPage: int

    /** The range `currentPage` stays in under the guarded moves. */
    predicate Valid()
      reads this
    {
      perPage > 0 && 1 <= currentPage <= Max(1, TotalPages(|items|, perPage))
    }

    /** `usePagination(items, itemsPerPage)`: the page starts at 1. */
    constructor (items0: seq<T>, itemsPerPage: nat)
      requires itemsPerPage > 0
      ensures items == items0 && perPage == itemsPerPage && currentPage == 1
      ensures Valid()
    {
      items := items0;
      perPage := itemsPerPage;
      currentPage := 1;
    }

    function Total(): nat
      reads this
      requires perPage > 0
    {
      TotalPages(|items|, perPage)
    }

    /** `paginatedItems` */
    function PaginatedItems(): seq<T>
      reads this
    {
      PageItems(items, currentPage, perPage)
    }

    /** `hasNextPage` */
    predicate HasNextPage()
      reads this
      requires perPage > 0
    {
      currentPage < Total()
    }

    /** `hasPrevPage` */
    predicate HasPrevPage()
      reads this
    {
      currentPage > 1
    }

    method GoToPage(page: int)
      requires Valid()
      modifies this
      ensures items == old(items)
      ensures currentPage == GoTo(old(currentPage), page, Total())
      ensures Valid()
    {
      if page >= 1 && page <= Total() {
        currentPage := page;
      }
    }

    method GoToNextPage()
      requires Valid()
      modifies this
      ensures items == old(items)
      ensures currentPage == Next(old(currentPage), Total())
      ensures Valid()
    {
      if currentPage < Total() {
        currentPage := currentPage + 1;
      }
    }

    method GoToPrevPage()
      requires Valid()
      modifies this
      ensures items == old(items)
      ensures currentPage == Prev(old(currentPage))
      ensures Valid()
    {
      if currentPage > 1 {
        currentPage := currentPage - 1;
      }
    }

    /** `setCurrentPage(page)`, handed to callers without a guard. */
    method SetCurrentPage(page: int)
      modifies this
      ensures items == old(items) && currentPage == page
    {
      currentPage := page;
    }

    /** A render with new items, followed by the effect keyed on `items.length`. */
    method SetItems(newItems: seq<T>)
      requires Valid()
      modifies this
      ensures items == newItems
      ensures currentPage == AfterItemsChange(old(currentPage), |old(items)|, |newItems|)
      ensures Valid()
    {
      var oldLength := |items|;
      items := newItems;
      if |newItems| != oldLength {
        currentPage := 1;
      }
    }
  }

  // ---------------------------------------------------------------------------
  // Properties of the slice arithmetic

  /**
   * A page is the contiguous run of items from its start index, as long as
   * `perPage` or as what is left, and empty past the end.
   */
  lemma PageItemsSpec<T>(items: seq<T>, page: int, perPage: nat)
    requires page >= 1
    ensures var start := StartIndex(page, perPage);
      && |PageItems(items, page, perPage)| == Min(perPage, Max(0, |items| - start))
      && (start <= |items| ==> PageItems(items, page, perPage) == items[start..Min(start + perPage, |items|)])
  {
    var start := StartIndex(page, perPage);
    assert start >= 0;
    SliceWithin(items, start, start + perPage);
  }

  /** Every page holds at most `perPage` items. */
  lemma PageItemsBounded<T>(items: seq<T>, page: int, perPage: nat)
    requires page >= 1
    ensures |PageItems(items, page, perPage)| <= perPage
  {
    PageItemsSpec(items, page, perPage);
  }

  /** The first `count` pages are the first `count * perPage` items. */
  lemma {:induction false} FirstPagesPrefix<T>(items: seq<T>, perPage: nat, count: nat)
    ensures FirstPages(items, perPage, count) == items[..Min(count * perPage, |items|)]
  {
    if count > 0 {
      FirstPagesPrefix(items, perPage, count - 1);
      PageItemsSpec(items, count, perPage);
      var a := Min((count - 1) * perPage, |items|);
      var b := Min(count * perPage, |items|);
      if (count - 1) * perPage <= |items| {
        assert items[..b] == items[..a] + items[a..b];
      } else {
        assert PageItems(items, count, perPage) == [];
      }
    }
  }

  /** Laying the pages `1..totalPages` end to end gives back all the items. */
  lemma PagesReconstruct<T>(items: seq<T>, perPage: nat)
    requires perPage > 0
    ensures FirstPages(items, perPage, TotalPages(|items|, perPage)) == items
  {
    FirstPagesPrefix(items, perPage, TotalPages(|items|, perPage));
  }

  /** 25 items at 20 per page: two pages, of 20 and of 5 items. */
  lemma TwentyFiveAtTwenty<T>(items: seq<T>)
    requires |items| == 25
    ensures TotalPages(|items|, 20) == 2
    ensures PageItems(items, 1, 20) == items[..20]
    ensures PageItems(items, 2, 20) == items[20..]
    ensures PageItems(items, 3, 20) == []
  {
  }

  /** `hasNextPage` exactly when `goToNextPage` moves, `hasPrevPage` exactly when `goToPrevPage` does. */
  lemma FlagsMatchMoves(current: int, total: nat)
    ensures current < total <==> Next(current, total) != current
    ensures current > 1 <==> Prev(current) != current
  {
  }
}
