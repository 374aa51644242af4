/**
 * The shared pagination bar (src/components/ui/Pagination.jsx): the number
 * of pages, the page buttons with their ellipses, the "Showing a-b of n"
 * range and the previous/next targets. `page` is 0-based; the buttons
 * show 1-based numbers.
 */
module Pagination {
  import opened Js

  /** A button of the bar: a page number or an ellipsis. */
  datatype PageItem = Page(n: int) | Gap

  /** `Math.ceil(total / pageSize) || 1`. */
  function TotalPages(total: nat, pageSize: nat): (t: nat)
    requires pageSize > 0
    ensures t >= 1
    ensures total == 0 ==> t == 1
    ensures total > 0 ==> (t - 1) * pageSize < total <= t * pageSize
  {
    var c := (total + pageSize - 1) / pageSize;
    CeilingBounds(total, pageSize);
    if c == 0 then 1 else c
  }

  /** The bounds of the rounded-up quotient. */
  lemma CeilingBounds(total: nat, pageSize: nat)
    requires pageSize > 0
    ensures var c := (total + pageSize - 1) / pageSize;
            c >= 0 && (c - 1) * pageSize < total <= c * pageSize
  {
    var x := total + pageSize - 1;
    var c := x / pageSize;
    assert x == c * pageSize + x % pageSize;
    assert (c - 1) * pageSize == c * pageSize - pageSize;
  }

  /** Numbered buttons increase from left to right. */
  predicate NumbersIncrease(items: seq<PageItem>)
  {
    forall i, j :: 0 <= i < j < |items| && items[i].Page? && items[j].Page? ==> items[i].n < items[j].n
  }

  /** An ellipsis sits between two numbers and hides at least one page. */
  predicate GapsHidePages(items: seq<PageItem>)
  {
    forall i :: 0 <= i < |items| && items[i].Gap? ==>
      0 < i < |items| - 1 && items[i - 1].Page? && items[i + 1].Page? && items[i - 1].n + 1 < items[i + 1].n
  }

  /** What the bar promises of its buttons for `totalPages` pages. */
  predicate WellFormedBar(items: seq<PageItem>, totalPages: int)
  {
    (forall i :: 0 <= i < |items| && items[i].Page? ==> 1 <= items[i].n <= totalPages) &&
    NumbersIncrease(items) && GapsHidePages(items)
  }

  /** The buttons near the first page. */
  lemma HeadWindow(totalPages: int)
    requires totalPages > 7
    ensures WellFormedBar([Page(1), Page(2), Page(3), Page(4), Page(5), Gap, Page(totalPages)], totalPages)
  {
  }

  /** The buttons near the last page. */
  lemma TailWindow(totalPages: int)
    requires totalPages > 7
    ensures WellFormedBar([Page(1), Gap, Page(totalPages - 4), Page(totalPages - 3), Page(totalPages - 2),
                           Page(totalPages - 1), Page(totalPages)], totalPages)
  {
  }

  /** The buttons around a page in the middle. */
  lemma MiddleWindow(totalPages: int, current: int)
    requires 4 < current < totalPages - 3
    ensures WellFormedBar([Page(1), Gap, Page(current - 1), Page(current), Page(current + 1), Gap,
                           Page(totalPages)], totalPages)
  {
  }

  /** `getPageItems`: every page up to seven, else seven buttons around the current page. */
  method PageItems(totalPages: nat, current: int) returns (items: seq<PageItem>)
    ensures totalPages <= 7 ==> items == seq(totalPages, i requires 0 <= i < totalPages => Page(i + 1))
    ensures totalPages > 7 ==> |items| == 7 && items[0] == Page(1) && items[6] == Page(totalPages)
    ensures WellFormedBar(items, totalPages)
    ensures 1 <= current <= totalPages ==> Page(current) in items
  {
    items := [];
    if totalPages <= 7 {
      var i := 1;
      while i <= totalPages
        invariant 1 <= i <= totalPages + 1
        invariant items == seq(i - 1, k requires 0 <= k < i - 1 => Page(k + 1))
      {
        items := items + [Page(i)];
        i := i + 1;
      }
      if 1 <= current <= totalPages {
        assert items[current - 1] == Page(current);
      }
    } else if current <= 4 {
      items := [Page(1), Page(2), Page(3), Page(4), Page(5), Gap, Page(totalPages)];
      HeadWindow(totalPages);
      if 1 <= current {
        assert items[current - 1] == Page(current);
      }
    } else if current >= totalPages - 3 {
      items := [Page(1), Gap, Page(totalPages - 4), Page(totalPages - 3), Page(totalPages - 2),
                Page(totalPages - 1), Page(totalPages)];
      TailWindow(totalPages);
      if current <= totalPages {
        assert items[current - totalPages + 6] == Page(current);
      }
    } else {
      items := [Page(1), Gap, Page(current - 1), Page(current), Page(current + 1), Gap, Page(totalPages)];
      MiddleWindow(totalPages, current);
      assert items[3] == Page(current);
    }
  }

  /** `Math.min(total, page * pageSize + 1)` to `Math.min(total, (page + 1) * pageSize)`. */
  function Range(total: nat, page: nat, pageSize: nat): (r: (nat, nat))
    requires pageSize > 0
    ensures r.0 <= r.1 <= total
    ensures total > page * pageSize ==> r.0 == page * pageSize + 1 && r.1 - r.0 < pageSize
    ensures total > page * pageSize ==>
              r.1 - r.0 + 1 == (if total - page * pageSize < pageSize then total - page * pageSize else pageSize)
    ensures total <= page * pageSize ==> r == (total, total)
  {
    assert (page + 1) * pageSize == page * pageSize + pageSize;
    (if total < page * pageSize + 1 then total else page * pageSize + 1,
     if total < (page + 1) * pageSize then total else (page + 1) * pageSize)
  }

  /** The previous button's request, `Math.max(0, page - 1)`; `None` while it is disabled (on the first page), so the clamp never applies. */
  function Previous(page: nat): (p: Option<nat>)
    ensures p.None? <==> page == 0
    ensures p.Some? ==> p.value + 1 == page
  {
    if page == 0 then None else Some(page - 1)
  }

  /**
   * The next button's request, `Math.min(totalPages - 1, page + 1)`; `None`
   * while it is disabled. Whenever it is enabled the clamp does not apply.
   */
  function Next(total: nat, page: nat, pageSize: nat): (p: Option<nat>)
    requires pageSize > 0
    ensures p.None? <==> (page + 1) * pageSize >= total
    ensures p.Some? ==> p.value == page + 1 && p.value < TotalPages(total, pageSize)
  {
    if (page + 1) * pageSize >= total then None
    else
      var last := TotalPages(total, pageSize) - 1;
      Some(if last < page + 1 then last else page + 1)
  }

  /** A click: a number asks for its 0-based page; an ellipsis asks for nothing. */
  function Click(item: PageItem): (p: Option<int>)
    ensures p.Some? <==> item.Page?
    ensures p.Some? ==> p.value + 1 == item.n
  {
    if item.Page? then Some(item.n - 1) else None
  }
}
