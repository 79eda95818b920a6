/**
 * Pagination of the generated templates in app/static/js/script.js (`paginationState`,
 * `displayTemplates`, `displayTemplatesForPage`, `updatePaginationUI`, and the previous and
 * next buttons). Six templates per page. At most five numbered buttons are shown, plus the
 * first and last page and ellipses when pages are hidden.
 */
module Pagination {

  const ItemsPerPage: nat := 6
  const MaxVisiblePages: nat := 5

  function Min(a: int, b: int): int { if a <= b then a else b }
  function Max(a: int, b: int): int { if a >= b then a else b }

  /** `Math.ceil(n / itemsPerPage)`: the fewest pages that hold `n` templates. */
  function TotalPagesFor(n: nat): (t: nat)
    ensures t * ItemsPerPage >= n
    ensures t > 0 ==> (t - 1) * ItemsPerPage < n
    ensures t == 0 <==> n == 0
  {
    (n + ItemsPerPage - 1) / ItemsPerPage
  }

  /** `s.slice(start, end)`: negative indices count from the end; out-of-range ones are clamped. */
  function JsSlice<T>(s: seq<T>, start: int, end: int): (r: seq<T>)
    ensures |r| <= |s|
  {
    var a := if start < 0 then Max(|s| + start, 0) else Min(start, |s|);
    var b := if end < 0 then Max(|s| + end, 0) else Min(end, |s|);
    if a < b then s[a..b] else []
  }

  /** The templates `displayTemplatesForPage(page)` shows. */
  function PageItems<T>(all: seq<T>, page: int): seq<T> {
    var start := (page - 1) * ItemsPerPage;
    JsSlice(all, start, start + ItemsPerPage)
  }

  /** Every page from 1 to the last holds between one and six templates. */
  lemma PageSize<T>(all: seq<T>, page: int)
    requires 1 <= page <= TotalPagesFor(|all|)
    ensures 1 <= |PageItems(all, page)| <= ItemsPerPage
    ensures PageItems(all, page) == all[(page - 1) * ItemsPerPage..Min(page * ItemsPerPage, |all|)]
  {
  }

  /** Pages 1 to `k` shown one after another. */
  function PagesUpTo<T>(all: seq<T>, k: nat): seq<T> {
    if k == 0 then [] else PagesUpTo(all, k - 1) + PageItems(all, k)
  }

  lemma {:induction false} PagesUpToIsPrefix<T>(all: seq<T>, k: nat)
    requires k <= TotalPagesFor(|all|)
    ensures PagesUpTo(all, k) == all[..Min(k * ItemsPerPage, |all|)]
  {
    if k > 0 {
      PagesUpToIsPrefix(all, k - 1);
      PageSize(all, k);
      var lo := (k - 1) * ItemsPerPage;
      assert all[..lo] + all[lo..Min(k * ItemsPerPage, |all|)] == all[..Min(k * ItemsPerPage, |all|)];
    }
  }

  /** Paging through every page shows every template exactly once, in order. */
  lemma PagesCoverAll<T>(all: seq<T>)
    ensures PagesUpTo(all, TotalPagesFor(|all|)) == all
  {
    PagesUpToIsPrefix(all, TotalPagesFor(|all|));
    assert all[..|all|] == all;
  }

  // ---------------------------------------------------------------------------------------
  // The page-number bar
  // ---------------------------------------------------------------------------------------

  datatype PageItem = PageButton(page: int, current: bool) | Ellipsis

  /** `endPage`, computed from the unadjusted `startPage`. */
  function WindowEnd(cur: int, total: int): int {
    Min(total, Max(1, cur - MaxVisiblePages / 2) + MaxVisiblePages - 1)
  }

  /** `startPage`, after its adjustment near the last page. */
  function WindowStart(cur: int, total: int): int {
    var s := Max(1, cur - MaxVisiblePages / 2);
    var e := WindowEnd(cur, total);
    if e - s + 1 < MaxVisiblePages && s > 1 then Max(1, e - MaxVisiblePages + 1) else s
  }

  /** The window always holds the current page and as many pages as fit, up to five. */
  lemma WindowBounds(cur: int, total: int)
    requires 1 <= cur <= total
    ensures var s, e := WindowStart(cur, total), WindowEnd(cur, total);
      1 <= s <= cur <= e <= total && e - s + 1 == Min(MaxVisiblePages, total)
  {
  }

  /** Numbered buttons for the pages `from` to `to - 1`, the current one marked. */
  function NumberButtons(from: int, to: int, cur: int): (r: seq<PageItem>)
    ensures |r| == Max(0, to - from)
  {
    seq(Max(0, to - from), k => PageButton(from + k, from + k == cur))
  }

  function LeadingItems(start: int): seq<PageItem> {
    if start > 1 then [PageButton(1, false)] + (if start > 2 then [Ellipsis] else []) else []
  }

  function TrailingItems(end: int, total: int): seq<PageItem> {
    if end < total then (if end < total - 1 then [Ellipsis] else []) + [PageButton(total, false)] else []
  }

  /** The children of `#pagination-numbers` once `updatePaginationUI` has run with more than one page. */
  function PaginationBar(cur: int, total: int): seq<PageItem> {
    var s, e := WindowStart(cur, total), WindowEnd(cur, total);
    LeadingItems(s) + NumberButtons(s, e + 1, cur) + TrailingItems(e, total)
  }

  /** The page numbers on the buttons, in order. */
  function ButtonPages(items: seq<PageItem>): seq<int> {
    if items == [] then []
    else (if items[0].PageButton? then [items[0].page] else []) + ButtonPages(items[1..])
  }

  lemma {:induction false} ButtonPagesAppend(a: seq<PageItem>, b: seq<PageItem>)
    ensures ButtonPages(a + b) == ButtonPages(a) + ButtonPages(b)
  {
    if a != [] {
      assert (a + b)[1..] == a[1..] + b;
      ButtonPagesAppend(a[1..], b);
    } else {
      assert a + b == b;
    }
  }

  function Range(from: int, to: int): (r: seq<int>)
    ensures |r| == Max(0, to - from)
    ensures forall k :: 0 <= k < |r| ==> r[k] == from + k
  {
    seq(Max(0, to - from), k => from + k)
  }

  lemma {:induction false} NumberButtonsPages(from: int, to: int, cur: int)
    ensures ButtonPages(NumberButtons(from, to, cur)) == Range(from, to)
    decreases Max(0, to - from)
  {
    if from < to {
      var r := NumberButtons(from, to, cur);
      assert r[1..] == NumberButtons(from + 1, to, cur);
      NumberButtonsPages(from + 1, to, cur);
      assert Range(from, to) == [from] + Range(from + 1, to);
    } else {
      assert NumberButtons(from, to, cur) == [];
    }
  }

  ghost predicate StrictlyIncreasing(xs: seq<int>) {
    forall i, j :: 0 <= i < j < |xs| ==> xs[i] < xs[j]
  }

  /** The page numbers on the bar: 1 if hidden by the window, the window, and the last page if hidden. */
  lemma BarPages(cur: int, total: int)
    requires 1 <= cur <= total && total >= 2
    ensures var s, e := WindowStart(cur, total), WindowEnd(cur, total);
      ButtonPages(PaginationBar(cur, total)) ==
        (if s > 1 then [1] else []) + Range(s, e + 1) + (if e < total then [total] else [])
  {
    var s, e := WindowStart(cur, total), WindowEnd(cur, total);
    var lead, nums, trail := LeadingItems(s), NumberButtons(s, e + 1, cur), TrailingItems(e, total);
    ButtonPagesAppend(lead, nums);
    ButtonPagesAppend(lead + nums, trail);
    NumberButtonsPages(s, e + 1, cur);
    ButtonPagesAppend([PageButton(1, false)], [Ellipsis]);
    ButtonPagesAppend([Ellipsis], [PageButton(total, false)]);
    assert ButtonPages(lead) == if s > 1 then [1] else [];
    assert ButtonPages(trail) == if e < total then [total] else [];
  }

  /** Page 1 unless the window starts there, the window `s..e`, and `total` unless the window ends there. */
  function BarNumbers(s: int, e: int, total: int): seq<int> {
    (if s > 1 then [1] else []) + Range(s, e + 1) + (if e < total then [total] else [])
  }

  lemma BarNumbersAt(s: int, e: int, total: int, i: int)
    requires 1 <= s <= e <= total && 0 <= i < |BarNumbers(s, e, total)|
    ensures var lp := if s > 1 then 1 else 0;
      BarNumbers(s, e, total)[i] == if i < lp then 1 else if i < lp + (e - s + 1) then s + (i - lp) else total
  {
  }

  lemma BarNumbersIncrease(s: int, e: int, total: int)
    requires 1 <= s <= e <= total
    ensures StrictlyIncreasing(BarNumbers(s, e, total))
    ensures forall i :: 0 <= i < |BarNumbers(s, e, total)| ==> 1 <= BarNumbers(s, e, total)[i] <= total
  {
    var p := BarNumbers(s, e, total);
    forall i | 0 <= i < |p| ensures 1 <= p[i] <= total {
      BarNumbersAt(s, e, total, i);
    }
    forall i, j | 0 <= i < j < |p| ensures p[i] < p[j] {
      BarNumbersAt(s, e, total, i);
      BarNumbersAt(s, e, total, j);
    }
  }

  lemma BarNumbersContain(s: int, e: int, total: int, cur: int)
    requires 1 <= s <= cur <= e <= total
    ensures 1 in BarNumbers(s, e, total) && cur in BarNumbers(s, e, total) && total in BarNumbers(s, e, total)
  {
    var p := BarNumbers(s, e, total);
    var lp := if s > 1 then 1 else 0;
    BarNumbersAt(s, e, total, 0);
    BarNumbersAt(s, e, total, lp + (cur - s));
    BarNumbersAt(s, e, total, |p| - 1);
    assert p[0] == 1 && p[lp + (cur - s)] == cur && p[|p| - 1] == total;
  }

  /**
   * The bar offers page 1, the current page and the last page; its page numbers rise strictly
   * and stay within 1..total.
   */
  lemma BarShape(cur: int, total: int)
    requires 1 <= cur <= total && total >= 2
    ensures var pages := ButtonPages(PaginationBar(cur, total));
      && StrictlyIncreasing(pages)
      && (forall i :: 0 <= i < |pages| ==> 1 <= pages[i] <= total)
      && 1 in pages && cur in pages && total in pages
  {
    var s, e := WindowStart(cur, total), WindowEnd(cur, total);
    WindowBounds(cur, total);
    BarPages(cur, total);
    assert ButtonPages(PaginationBar(cur, total)) == BarNumbers(s, e, total);
    BarNumbersIncrease(s, e, total);
    BarNumbersContain(s, e, total, cur);
  }

  /** Exactly the numbered button of the current page is marked as current. */
  lemma BarMarksCurrent(cur: int, total: int)
    requires 1 <= cur <= total && total >= 2
    ensures var bar := PaginationBar(cur, total);
      forall i :: 0 <= i < |bar| && bar[i].PageButton? ==> (bar[i].current <==> bar[i].page == cur)
  {
    var s, e := WindowStart(cur, total), WindowEnd(cur, total);
    WindowBounds(cur, total);
    var lead, nums, trail := LeadingItems(s), NumberButtons(s, e + 1, cur), TrailingItems(e, total);
    var bar := PaginationBar(cur, total);
    forall i | 0 <= i < |bar| && bar[i].PageButton? ensures bar[i].current <==> bar[i].page == cur {
      if i < |lead| {
        assert bar[i] == lead[i];
      } else if i < |lead| + |nums| {
        assert bar[i] == nums[i - |lead|];
      } else {
        assert bar[i] == trail[i - |lead| - |nums|];
      }
    }
  }

  lemma NumberButtonsStep(from: int, i: int, cur: int)
    requires from <= i
    ensures NumberButtons(from, i + 1, cur) == NumberButtons(from, i, cur) + [PageButton(i, i == cur)]
  {
  }

  /** The button-building part of `updatePaginationUI`, for more than one page. */
  method BuildBar(currentPage: int, totalPages: int) returns (items: seq<PageItem>)
    ensures items == PaginationBar(currentPage, totalPages)
  {
    var startPage := Max(1, currentPage - MaxVisiblePages / 2);
    var endPage := Min(totalPages, startPage + MaxVisiblePages - 1);
    if endPage - startPage + 1 < MaxVisiblePages && startPage > 1 {
      startPage := Max(1, endPage - MaxVisiblePages + 1);
    }
    assert startPage == WindowStart(currentPage, totalPages) && endPage == WindowEnd(currentPage, totalPages);
    items := [];
    if startPage > 1 {
      items := items + [PageButton(1, false)];
      if startPage > 2 {
        items := items + [Ellipsis];
      }
    }
    assert items == LeadingItems(startPage);
    var i := startPage;
    while i <= endPage
      invariant startPage <= i <= Max(startPage, endPage + 1)
      invariant items == LeadingItems(startPage) + NumberButtons(startPage, i, currentPage)
    {
      NumberButtonsStep(startPage, i, currentPage);
      items := items + [PageButton(i, i == currentPage)];
      i := i + 1;
    }
    assert NumberButtons(startPage, i, currentPage) == NumberButtons(startPage, endPage + 1, currentPage);
    ghost var middle := items;
    if endPage < totalPages {
      if endPage < totalPages - 1 {
        items := items + [Ellipsis];
      }
      items := items + [PageButton(totalPages, false)];
    }
    assert items == middle + TrailingItems(endPage, totalPages);
  }

  /** `paginationState` together with what the pagination part of the page shows. */
  class PaginationState<T> {
    var currentPage: int
    var totalPages: int
    var allTemplates: seq<T>
    /** The template cards in `#template-container`. */
    var shown: seq<T>
    /** The `.pagination` element is displayed. */
    var barVisible: bool
    var prevDisabled: bool
    var nextDisabled: bool
    /** The children of `#pagination-numbers`. */
    var bar: seq<PageItem>

    /** The bar agrees with the page position. */
    ghost predicate BarShown()
      reads this
    {
      && barVisible == (totalPages > 1)
      && (totalPages > 1 ==>
            bar == PaginationBar(currentPage, totalPages) &&
            prevDisabled == (currentPage <= 1) && nextDisabled == (currentPage >= totalPages))
      && (totalPages <= 1 ==> bar == [])
    }

    ghost predicate Valid()
      reads this
    {
      && (totalPages == TotalPagesFor(|allTemplates|) || (allTemplates == [] && totalPages == 1))
      && 1 <= currentPage <= Max(1, totalPages)
      && shown == PageItems(allTemplates, currentPage)
      && BarShown()
    }

    /** The initial `paginationState`. */
    constructor ()
      ensures currentPage == 1 && totalPages == 1 && allTemplates == [] && shown == []
      ensures Valid()
    {
      currentPage, totalPages, allTemplates, shown := 1, 1, [], [];
      barVisible, prevDisabled, nextDisabled, bar := false, true, true, [];
    }

    /** `updatePaginationUI` */
    method UpdatePaginationUI()
      modifies this
      ensures currentPage == old(currentPage) && totalPages == old(totalPages)
      ensures allTemplates == old(allTemplates) && shown == old(shown)
      ensures BarShown()
      ensures totalPages <= 1 ==> prevDisabled == old(prevDisabled) && nextDisabled == old(nextDisabled)
    {
      bar := [];
      if totalPages <= 1 {
        barVisible := false;
        return;
      }
      barVisible := true;
      prevDisabled := currentPage <= 1;
      nextDisabled := currentPage >= totalPages;
      bar := BuildBar(currentPage, totalPages);
    }

    /** `displayTemplatesForPage(page)`, with the 300 ms delay taken as immediate. */
    method DisplayTemplatesForPage(page: int)
      modifies this
      ensures currentPage == page && shown == PageItems(allTemplates, page)
      ensures totalPages == old(totalPages) && allTemplates == old(allTemplates)
      ensures BarShown()
      ensures ((old(totalPages) == TotalPagesFor(|old(allTemplates)|) || (old(allTemplates) == [] && old(totalPages) == 1))
               && 1 <= page <= Max(1, totalPages)) ==> Valid()
    {
      shown := PageItems(allTemplates, page);
      currentPage := page;
      UpdatePaginationUI();
    }

    /** `displayTemplates(templates)`: store them, count the pages and show the first one. */
    method DisplayTemplates(templates: seq<T>)
      modifies this
      ensures allTemplates == templates && totalPages == TotalPagesFor(|templates|) && currentPage == 1
      ensures shown == templates[..Min(ItemsPerPage, |templates|)]
      ensures Valid()
    {
      allTemplates := templates;
      totalPages := TotalPagesFor(|templates|);
      currentPage := 1;
      UpdatePaginationUI();
      DisplayTemplatesForPage(1);
    }

    /** The previous-page button. */
    method PrevPage()
      requires Valid()
      modifies this
      ensures currentPage == if old(currentPage) > 1 then old(currentPage) - 1 else old(currentPage)
      ensures allTemplates == old(allTemplates) && totalPages == old(totalPages)
      ensures Valid()
    {
      if currentPage > 1 {
        DisplayTemplatesForPage(currentPage - 1);
      }
    }

    /** The next-page button. */
    method NextPage()
      requires Valid()
      modifies this
      ensures currentPage == if old(currentPage) < old(totalPages) then old(currentPage) + 1 else old(currentPage)
      ensures allTemplates == old(allTemplates) && totalPages == old(totalPages)
      ensures Valid()
    {
      if currentPage < totalPages {
        DisplayTemplatesForPage(currentPage + 1);
      }
    }

    /** A click on a button of the bar: numbered buttons ignore the current page. */
    method ClickPageItem(item: PageItem)
      requires Valid() && item in bar
      modifies this
      ensures item.PageButton? ==> currentPage == item.page
      ensures item.Ellipsis? ==> currentPage == old(currentPage)
      ensures allTemplates == old(allTemplates) && totalPages == old(totalPages)
      ensures Valid()
    {
      if item.PageButton? {
        ClickedPageInRange(currentPage, totalPages, item);
        if item.current {
          // a numbered button on the current page does nothing
        } else {
          DisplayTemplatesForPage(item.page);
        }
      }
    }
  }

  lemma {:induction false} ButtonPageInRange(items: seq<PageItem>, k: nat)
    requires k < |items| && items[k].PageButton?
    ensures items[k].page in ButtonPages(items)
  {
    if k > 0 {
      ButtonPageInRange(items[1..], k - 1);
    }
  }

  /** A numbered button of the bar names a page from 1 to the last, and is marked iff it is the current one. */
  lemma ClickedPageInRange(cur: int, total: int, item: PageItem)
    requires 1 <= cur <= total && total >= 2
    requires item in PaginationBar(cur, total) && item.PageButton?
    ensures 1 <= item.page <= total && (item.current <==> item.page == cur)
  {
    var bar := PaginationBar(cur, total);
    var k :| 0 <= k < |bar| && bar[k] == item;
    BarShape(cur, total);
    BarMarksCurrent(cur, total);
    ButtonPageInRange(bar, k);
  }
}
