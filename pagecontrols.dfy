/**
 * The page control (`Pagination`): the `1 … window … last` list of page
 * buttons built by `getVisiblePages`, the click handlers and which buttons
 * are disabled.
 */
module PageControls {
  import opened Js
  import opened Seqs

  /** An entry of `rangeWithDots`: a page number or the string `"..."`. */
  datatype PageEntry = Page(n: int) | Ellipsis

  /** How many pages each side of the current one the window shows. */
  const Delta: int := 2

  /** The pages `lo..hi`, in order (empty when `lo > hi`). */
  function Run(lo: int, hi: int): (r: seq<PageEntry>)
    ensures |r| == Max(0, hi - lo + 1)
    ensures forall i :: 0 <= i < |r| ==> r[i] == Page(lo + i)
  {
    seq(Max(0, hi - lo + 1), i => Page(lo + i))
  }

  /** The first page of the window. */
  function WindowStart(current: int): int {
    Max(2, current - Delta)
  }

  /** The last page of the window. */
  function WindowEnd(current: int, total: int): int {
    Min(total - 1, current + Delta)
  }

  /** Page 1, followed by `"..."` when the window starts after page 3. */
  function Head(current: int): seq<PageEntry> {
    if current - Delta > 2 then [Page(1), Ellipsis] else [Page(1)]
  }

  /** `"..."` and the last page when the window ends before the one but last, else the last page alone if there are two or more. */
  function Tail(current: int, total: int): seq<PageEntry> {
    if current + Delta < total - 1 then [Ellipsis, Page(total)]
    else if total > 1 then [Page(total)]
    else []
  }

  /** The value of `getVisiblePages()`. */
  function VisiblePages(current: int, total: int): seq<PageEntry> {
    Head(current) + Run(WindowStart(current), WindowEnd(current, total)) + Tail(current, total)
  }

  /** `getVisiblePages`: push the window, then assemble `rangeWithDots`. */
  method GetVisiblePages(current: int, total: int) returns (rangeWithDots: seq<PageEntry>)
    ensures rangeWithDots == VisiblePages(current, total)
  {
    var lo := Max(2, current - Delta);
    var hi := Min(total - 1, current + Delta);
    var range: seq<PageEntry> := [];
    var i := lo;
    while i <= hi
      invariant lo <= i <= Max(lo, hi + 1)
      invariant range == Run(lo, i - 1)
      decreases hi - i
    {
      range := range + [Page(i)];
      i := i + 1;
    }
    if current - Delta > 2 {
      rangeWithDots := [Page(1), Ellipsis];
    } else {
      rangeWithDots := [Page(1)];
    }
    rangeWithDots := rangeWithDots + range;
    if current + Delta < total - 1 {
      rangeWithDots := rangeWithDots + [Ellipsis, Page(total)];
    } else if total > 1 {
      rangeWithDots := rangeWithDots + [Page(total)];
    }
  }

  /** `handlePageClick(page)`: the page number passed on, nothing for `"..."`. */
  function OnPageClick(e: PageEntry): (r: Option<int>)
    ensures r.Some? <==> e.Page?
    ensures r.Some? ==> r.value == e.n
  {
    match e
    case Page(n) => Some(n)
    case Ellipsis => None
  }

  /** `handlePrevious()` */
  function OnPrevious(current: int): (r: Option<int>)
    ensures r.Some? <==> current > 1
    ensures r.Some? ==> r.value == current - 1
  {
    if current > 1 then Some(current - 1) else None
  }

  /** `handleNext()` */
  function OnNext(current: int, total: int): (r: Option<int>)
    ensures r.Some? <==> current < total
    ensures r.Some? ==> r.value == current + 1
  {
    if current < total then Some(current + 1) else None
  }

  /** `disabled={currentPage === 1}` */
  predicate PreviousDisabled(current: int) {
    current == 1
  }

  /** `disabled={currentPage === totalPages}` */
  predicate NextDisabled(current: int, total: int) {
    current == total
  }

  /** `if (totalPages <= 1) return null;` */
  predicate IsRendered(total: int) {
    total > 1
  }

  // ---------------------------------------------------------------------------
  // The shape of the visible list

  predicate PagesIncreasing(s: seq<PageEntry>) {
    forall i, j :: 0 <= i < j < |s| && s[i].Page? && s[j].Page? ==> s[i].n < s[j].n
  }

  predicate PagesWithin(s: seq<PageEntry>, lo: int, hi: int) {
    forall i :: 0 <= i < |s| && s[i].Page? ==> lo <= s[i].n <= hi
  }

  /** The list always starts with page 1. */
  lemma StartsWithFirstPage(current: int, total: int)
    ensures |VisiblePages(current, total)| >= 1 && VisiblePages(current, total)[0] == Page(1)
  {
  }

  /**
   * `"..."` follows page 1 exactly when the window starts after page 3, and
   * then page 2 is not shown.
   */
  lemma LeadingEllipsis(current: int, total: int)
    requires 1 <= current <= total
    ensures var r := VisiblePages(current, total);
      (|r| >= 2 && r[1] == Ellipsis) <==> current - Delta > 2
    ensures current - Delta > 2 ==> Page(2) !in VisiblePages(current, total)
  {
    var r := VisiblePages(current, total);
    var m := Run(WindowStart(current), WindowEnd(current, total));
    if current - Delta <= 2 && |r| >= 2 {
      if |m| > 0 {
        assert r[1] == m[0];
      } else {
        assert r[1] == Tail(current, total)[0];
      }
    }
    if current - Delta > 2 {
      assert forall i :: 0 <= i < |m| ==> m[i].n >= current - Delta;
      assert Page(2) !in m;
    }
  }

  /**
   * The list ends with `"...", total` exactly when the window ends before
   * page `total - 1`, and then page `total - 1` is not shown; otherwise it
   * ends with `total` when there are two or more pages.
   */
  lemma TrailingEntries(current: int, total: int)
    requires 1 <= current <= total
    ensures var r := VisiblePages(current, total);
      && (current + Delta < total - 1 <==> |r| >= 2 && r[|r| - 2..] == [Ellipsis, Page(total)])
      && (current + Delta < total - 1 ==> Page(total - 1) !in r)
      && (current + Delta >= total - 1 && total > 1 ==> r[|r| - 1] == Page(total))
  {
    var r := VisiblePages(current, total);
    var m := Run(WindowStart(current), WindowEnd(current, total));
    var h := Head(current);
    if current + Delta < total - 1 {
      assert forall i :: 0 <= i < |m| ==> m[i].n <= current + Delta;
      assert Page(total - 1) !in m;
      assert r == (h + m) + [Ellipsis, Page(total)];
    } else if total > 1 {
      assert r == (h + m) + [Page(total)];
      if current - Delta > 2 {
        assert WindowStart(current) <= WindowEnd(current, total);
        assert r[|r| - 2] == m[|m| - 1];
      } else {
        assert r[|r| - 2] == (h + m)[|h + m| - 1];
      }
    } else {
      assert total == 1 && r == [Page(1)];
    }
  }

  /** A page strictly between the first and the last is shown exactly when it lies in the window. */
  lemma MiddleRun(current: int, total: int, p: int)
    requires 1 < p < total
    ensures Page(p) in VisiblePages(current, total) <==> WindowStart(current) <= p <= WindowEnd(current, total)
  {
    var lo := WindowStart(current);
    var m := Run(lo, WindowEnd(current, total));
    assert Page(p) in VisiblePages(current, total) <==> Page(p) in m;
    if lo <= p <= WindowEnd(current, total) {
      assert m[p - lo] == Page(p);
    }
  }

  /**
   * For a current page in `1..total` with `total >= 2`: the page numbers are
   * strictly increasing, lie in `1..total`, include 1, the current page and
   * the last page, and the list has at most 9 entries.
   */
  lemma VisiblePagesShape(current: int, total: int)
    requires 1 <= current <= total && total >= 2
    ensures var r := VisiblePages(current, total);
      && PagesIncreasing(r)
      && PagesWithin(r, 1, total)
      && Page(1) in r && Page(current) in r && Page(total) in r
      && |r| <= 9
  {
    VisiblePagesIncreasing(current, total);
    VisiblePagesWithin(current, total);
    var lo := WindowStart(current);
    var m := Run(lo, WindowEnd(current, total));
    var r := VisiblePages(current, total);
    assert r == (Head(current) + m) + Tail(current, total);
    assert r[0] == Page(1);
    assert r[|r| - 1] == Page(total);
    if 1 < current < total {
      assert m[current - lo] == Page(current);
      assert r[|Head(current)| + (current - lo)] == Page(current);
    }
  }

  lemma VisiblePagesIncreasing(current: int, total: int)
    requires 1 <= current <= total && total >= 2
    ensures PagesIncreasing(VisiblePages(current, total))
  {
    var lo := WindowStart(current);
    var hi := WindowEnd(current, total);
    var h := Head(current);
    var m := Run(lo, hi);
    IncreasingConcat(h, m, lo);
    IncreasingConcat(h + m, Tail(current, total), hi + 1);
  }

  lemma VisiblePagesWithin(current: int, total: int)
    requires 1 <= current <= total && total >= 2
    ensures PagesWithin(VisiblePages(current, total), 1, total)
  {
    var h := Head(current);
    var m := Run(WindowStart(current), WindowEnd(current, total));
    WithinConcat(h, m, 1, total);
    WithinConcat(h + m, Tail(current, total), 1, total);
  }

  lemma WithinConcat(a: seq<PageEntry>, b: seq<PageEntry>, lo: int, hi: int)
    requires PagesWithin(a, lo, hi) && PagesWithin(b, lo, hi)
    ensures PagesWithin(a + b, lo, hi)
  {
    var c := a + b;
    forall i | 0 <= i < |c| && c[i].Page?
      ensures lo <= c[i].n <= hi
    {
      if i >= |a| {
        assert c[i] == b[i - |a|];
      } else {
        assert c[i] == a[i];
      }
    }
  }

  lemma IncreasingConcat(a: seq<PageEntry>, b: seq<PageEntry>, k: int)
    requires PagesIncreasing(a) && PagesIncreasing(b)
    requires forall i :: 0 <= i < |a| && a[i].Page? ==> a[i].n < k
    requires forall i :: 0 <= i < |b| && b[i].Page? ==> b[i].n >= k
    ensures PagesIncreasing(a + b)
    ensures forall i :: 0 <= i < |a + b| && (a + b)[i].Page? ==> (a + b)[i].n < k || i >= |a|
  {
    var c := a + b;
    forall i, j | 0 <= i < j < |c| && c[i].Page? && c[j].Page?
      ensures c[i].n < c[j].n
    {
      if j < |a| {
        assert c[i] == a[i] && c[j] == a[j];
      } else if i >= |a| {
        assert c[i] == b[i - |a|] && c[j] == b[j - |a|];
      } else {
        assert c[i] == a[i] && c[j] == b[j - |a|];
      }
    }
  }

  /** With the current page in range, every click emits a page in `1..total`. */
  lemma ClicksStayInRange(current: int, total: int, e: PageEntry)
    requires 1 <= current <= total
    requires e in VisiblePages(current, total)
    ensures OnPageClick(e).Some? ==> 1 <= OnPageClick(e).value <= total
    ensures OnPrevious(current).Some? ==> 1 <= OnPrevious(current).value <= total
    ensures OnNext(current, total).Some? ==> 1 <= OnNext(current, total).value <= total
  {
    if total >= 2 {
      VisiblePagesShape(current, total);
    } else {
      assert VisiblePages(current, total) == [Page(1)];
    }
  }

  /** A disabled arrow is exactly one whose handler emits nothing. */
  lemma ArrowsDisabledIffSilent(current: int, total: int)
    requires 1 <= current <= total
    ensures PreviousDisabled(current) <==> OnPrevious(current).None?
    ensures NextDisabled(current, total) <==> OnNext(current, total).None?
  {
  }
}
