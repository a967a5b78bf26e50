/**
 * The page-number bar of the store front-end (PaginationWidget).
 *
 * The widget keeps three integers (current page, total pages, items per page)
 * and a fixed window size of five page numbers. Its setters clamp their input,
 * its click handlers move the current page by one or to a clicked number, and
 * every real change of the current page or of the total rebuilds the row of
 * page-number widgets: a contiguous window of numbered buttons, bracketed by the
 * first and the last page and by "..." labels where the window does not reach them.
 *
 * Signals are modelled as the sequence of events a call emits; the Qt widgets of
 * the bar are modelled as a sequence of tokens in layout order.
 */
module Pagination {

  const DefaultItemsPerPage := 10
  const MaxVisiblePages := 5

  /** What the widget emits: `pageChanged(page)` and `itemsPerPageChanged(count)`. */
  datatype Event = PageChanged(page: int) | ItemsPerPageChanged(count: int)

  /** One widget of the page-number bar: a numbered button (with its "current"
      property) or a "..." label. */
  datatype Token = PageButton(page: int, current: bool) | Ellipsis

  /** The contiguous run of page numbers shown between the first and last page. */
  datatype Span = Span(first: int, last: int)

  function Max(a: int, b: int): int { if a < b then b else a }

  function Min(a: int, b: int): int { if a < b then a else b }

  /** `setCurrentPage`'s clamping: below 1 becomes 1, then above the total becomes the total. */
  function ClampPage(page: int, total: int): (r: int)
    ensures total >= 1 ==> 1 <= r <= total
    ensures 1 <= page <= total ==> r == page
    ensures page < 1 && total >= 1 ==> r == 1
    ensures page > total && total >= 1 ==> r == total
  {
    var p := if page < 1 then 1 else page;
    if p > total then total else p
  }

  /** The window of numbered buttons for the current page: first centred on the
      current page, then shifted left when it hits the last page. */
  function Window(current: int, total: int, maxVisible: int): (w: Span)
    requires maxVisible >= 1 && 1 <= current <= total
    ensures 1 <= w.first <= current <= w.last <= total
    ensures w.last - w.first + 1 == Min(maxVisible, total)
  {
    var start := Max(1, current - maxVisible / 2);
    var end := Min(total, start + maxVisible - 1);
    if end - start + 1 < maxVisible then Span(Max(1, end - maxVisible + 1), end)
    else Span(start, end)
  }

  /** The window is the run of `min(maxVisible, total)` pages that holds the current
      page, as centred on it as the range 1..total allows. */
  lemma WindowIsCentredRun(current: int, total: int, maxVisible: int)
    requires maxVisible >= 1 && 1 <= current <= total
    ensures Window(current, total, maxVisible).first
            == Max(1, Min(current - maxVisible / 2, total - Min(maxVisible, total) + 1))
  {
  }

  /** The numbered button `createPageButton` makes: its "current" property is set
      exactly when it shows the current page. */
  function NumberButton(page: int, current: int): Token
  {
    PageButton(page, page == current)
  }

  /** Buttons for the pages first..last, in order. */
  function Buttons(first: int, last: int, current: int): seq<Token>
    requires first <= last + 1
  {
    seq(last - first + 1, k requires 0 <= k < last - first + 1 => NumberButton(first + k, current))
  }

  /** One more page at the right end of a run of buttons. */
  lemma ButtonsSnoc(first: int, last: int, current: int)
    requires first <= last + 1
    ensures Buttons(first, last + 1, current) == Buttons(first, last, current) + [NumberButton(last + 1, current)]
  {
  }

  /** Page 1, and "..." when page 1 is not adjacent to the window. */
  function Lead(first: int, current: int): seq<Token>
  {
    if first > 1 then [NumberButton(1, current)] + (if first > 2 then [Ellipsis] else []) else []
  }

  /** "..." when the last page is not adjacent to the window, and the last page. */
  function Trail(last: int, total: int, current: int): seq<Token>
  {
    if last < total then (if last < total - 1 then [Ellipsis] else []) + [NumberButton(total, current)] else []
  }

  /** The page-number bar `updatePageNumbers` lays out. */
  function Render(current: int, total: int, maxVisible: int): seq<Token>
    requires maxVisible >= 1 && 1 <= current <= total
  {
    var w := Window(current, total, maxVisible);
    Lead(w.first, current) + Buttons(w.first, w.last, current) + Trail(w.last, total, current)
  }

  /** The page numbers shown in a bar. */
  function Pages(bar: seq<Token>): set<int>
  {
    set t | t in bar && t.PageButton? :: t.page
  }

  /** `updateButtons` re-sets the "current" property of every numbered button. */
  function Reflag(t: Token, current: int): Token
  {
    match t
    case PageButton(p, _) => NumberButton(p, current)
    case Ellipsis => Ellipsis
  }

  /** The bar after `updateButtons`: the same widgets showing the same pages, with every
      button flagged current exactly when it shows the current page. */
  function Reflagged(bar: seq<Token>, current: int): (r: seq<Token>)
    ensures |r| == |bar|
    ensures forall i :: 0 <= i < |r| ==>
              (r[i].PageButton? <==> bar[i].PageButton?) &&
              (r[i].PageButton? ==> r[i].page == bar[i].page && (r[i].current <==> r[i].page == current))
  {
    seq(|bar|, i requires 0 <= i < |bar| => Reflag(bar[i], current))
  }

  /** How many widgets stand before the window: page 1, then "..." if page 1 is not adjacent. */
  function LeadLength(first: int): int
  {
    if first > 2 then 2 else if first > 1 then 1 else 0
  }

  /** How many widgets stand after the window: "..." if needed, then the last page. */
  function TrailLength(last: int, total: int): int
  {
    if last < total - 1 then 2 else if last < total then 1 else 0
  }

  /** The widget at position `i` of a bar whose window is first..last. */
  function TokenAt(first: int, last: int, total: int, current: int, i: int): Token
  {
    var a := LeadLength(first);
    var b := a + (last - first + 1);
    if i < a then (if i == 0 then NumberButton(1, current) else Ellipsis)
    else if i < b then NumberButton(first + (i - a), current)
    else if i == b + TrailLength(last, total) - 1 then NumberButton(total, current)
    else Ellipsis
  }

  /** A bar laid out position by position as `TokenAt` says. */
  ghost predicate Shaped(r: seq<Token>, first: int, last: int, total: int, current: int)
  {
    |r| == LeadLength(first) + (last - first + 1) + TrailLength(last, total) &&
    forall i :: 0 <= i < |r| ==> r[i] == TokenAt(first, last, total, current, i)
  }

  /** Position by position, the bar is page 1 and "..." before the window (each only
      when needed), the window's buttons in order, then "..." and the last page (each
      only when needed). */
  lemma RenderShape(current: int, total: int, maxVisible: int)
    requires maxVisible >= 1 && 1 <= current <= total
    ensures var w := Window(current, total, maxVisible);
            Shaped(Render(current, total, maxVisible), w.first, w.last, total, current)
  {
    var r, w := Render(current, total, maxVisible), Window(current, total, maxVisible);
    var lead, mid, trail := Lead(w.first, current), Buttons(w.first, w.last, current), Trail(w.last, total, current);
    assert r == lead + mid + trail;
    forall i | 0 <= i < |r| ensures r[i] == TokenAt(w.first, w.last, total, current, i) {
      if i < |lead| {
        assert r[i] == lead[i];
      } else if i < |lead| + |mid| {
        assert r[i] == mid[i - |lead|];
      } else {
        assert r[i] == trail[i - |lead| - |mid|];
      }
    }
  }

  /** The bar starts with page 1 and ends with the last page. */
  lemma RenderEnds(current: int, total: int, maxVisible: int)
    requires maxVisible >= 1 && 1 <= current <= total
    ensures var r := Render(current, total, maxVisible);
            |r| >= 1 && r[0] == NumberButton(1, current) && r[|r| - 1] == NumberButton(total, current)
  {
    var r, w := Render(current, total, maxVisible), Window(current, total, maxVisible);
    RenderShape(current, total, maxVisible);
    assert r[0] == TokenAt(w.first, w.last, total, current, 0);
    assert r[|r| - 1] == TokenAt(w.first, w.last, total, current, |r| - 1);
  }

  /** Page numbers increase strictly from left to right. */
  lemma RenderIncreasing(current: int, total: int, maxVisible: int)
    requires maxVisible >= 1 && 1 <= current <= total
    ensures var r := Render(current, total, maxVisible);
            forall i, j :: 0 <= i < j < |r| && r[i].PageButton? && r[j].PageButton? ==> r[i].page < r[j].page
  {
    var r, w := Render(current, total, maxVisible), Window(current, total, maxVisible);
    RenderShape(current, total, maxVisible);
    forall i, j | 0 <= i < j < |r| && r[i].PageButton? && r[j].PageButton?
      ensures r[i].page < r[j].page
    {
      assert r[i] == TokenAt(w.first, w.last, total, current, i);
      assert r[j] == TokenAt(w.first, w.last, total, current, j);
    }
  }

  /** Exactly the buttons showing the current page carry the "current" flag. */
  lemma RenderFlags(current: int, total: int, maxVisible: int)
    requires maxVisible >= 1 && 1 <= current <= total
    ensures var r := Render(current, total, maxVisible);
            forall i :: 0 <= i < |r| && r[i].PageButton? ==> (r[i].current <==> r[i].page == current)
  {
    var r, w := Render(current, total, maxVisible), Window(current, total, maxVisible);
    RenderShape(current, total, maxVisible);
    forall i | 0 <= i < |r| && r[i].PageButton?
      ensures r[i].current <==> r[i].page == current
    {
      assert r[i] == TokenAt(w.first, w.last, total, current, i);
    }
  }

  /** Exactly one widget of the bar is the current page's button, flagged current. */
  lemma RenderOneCurrent(current: int, total: int, maxVisible: int)
    requires maxVisible >= 1 && 1 <= current <= total
    ensures var r := Render(current, total, maxVisible);
            (exists i :: 0 <= i < |r| && r[i] == PageButton(current, true)) &&
            (forall i, j | 0 <= i < |r| && 0 <= j < |r| ::
               r[i].PageButton? && r[i].current && r[j].PageButton? && r[j].current ==> i == j)
  {
    var r, w := Render(current, total, maxVisible), Window(current, total, maxVisible);
    RenderShape(current, total, maxVisible);
    var k := LeadLength(w.first) + (current - w.first);
    assert r[k] == TokenAt(w.first, w.last, total, current, k);
    RenderFlags(current, total, maxVisible);
    RenderIncreasing(current, total, maxVisible);
  }

  /** Neighbouring buttons show neighbouring pages, and a "..." label stands exactly
      between two buttons whose pages are not neighbours. */
  lemma RenderGaps(current: int, total: int, maxVisible: int)
    requires maxVisible >= 1 && 1 <= current <= total
    ensures var r := Render(current, total, maxVisible);
            (forall i :: 0 <= i < |r| - 1 && r[i].PageButton? && r[i + 1].PageButton? ==>
                         r[i + 1].page == r[i].page + 1) &&
            (forall i :: 0 <= i < |r| && r[i].Ellipsis? ==>
                         0 < i < |r| - 1 && r[i - 1].PageButton? && r[i + 1].PageButton? &&
                         r[i + 1].page >= r[i - 1].page + 2)
  {
    var r, w := Render(current, total, maxVisible), Window(current, total, maxVisible);
    RenderShape(current, total, maxVisible);
    forall i | 0 <= i < |r| - 1 && r[i].PageButton? && r[i + 1].PageButton?
      ensures r[i + 1].page == r[i].page + 1
    {
      assert r[i] == TokenAt(w.first, w.last, total, current, i);
      assert r[i + 1] == TokenAt(w.first, w.last, total, current, i + 1);
    }
    forall i | 0 <= i < |r| && r[i].Ellipsis?
      ensures 0 < i < |r| - 1 && r[i - 1].PageButton? && r[i + 1].PageButton? &&
              r[i + 1].page >= r[i - 1].page + 2
    {
      assert r[i] == TokenAt(w.first, w.last, total, current, i);
      assert 0 < i < |r| - 1;
      assert r[i - 1] == TokenAt(w.first, w.last, total, current, i - 1);
      assert r[i + 1] == TokenAt(w.first, w.last, total, current, i + 1);
    }
  }

  /** The pages shown are page 1, the last page and every page of the window. */
  lemma RenderPages(current: int, total: int, maxVisible: int)
    requires maxVisible >= 1 && 1 <= current <= total
    ensures var w := Window(current, total, maxVisible);
            forall p :: p in Pages(Render(current, total, maxVisible)) <==>
                        p == 1 || p == total || w.first <= p <= w.last
  {
    var w := Window(current, total, maxVisible);
    RenderShape(current, total, maxVisible);
    ShapedPages(Render(current, total, maxVisible), w.first, w.last, total, current);
  }

  lemma ShapedPages(r: seq<Token>, first: int, last: int, total: int, current: int)
    requires 1 <= first <= last <= total && Shaped(r, first, last, total, current)
    ensures forall p :: p in Pages(r) <==> p == 1 || p == total || first <= p <= last
  {
    forall p | p in Pages(r) ensures p == 1 || p == total || first <= p <= last {
      var t :| t in r && t.PageButton? && t.page == p;
      var i :| 0 <= i < |r| && r[i] == t;
      assert r[i] == TokenAt(first, last, total, current, i);
    }
    forall p | p == 1 || p == total || first <= p <= last ensures p in Pages(r) {
      var i := if p == 1 then 0 else if p == total then |r| - 1 else LeadLength(first) + (p - first);
      assert r[i] == TokenAt(first, last, total, current, i);
      assert r[i] in r;
    }
  }

  /** A "..." label precedes the window exactly when the window starts beyond page 2,
      and one follows it exactly when the window ends before the last page but one. */
  lemma RenderEllipses(current: int, total: int, maxVisible: int)
    requires maxVisible >= 1 && 1 <= current <= total
    ensures var r, w := Render(current, total, maxVisible), Window(current, total, maxVisible);
            ((exists i :: 0 <= i < |r| - 1 && r[i].Ellipsis? && r[i + 1] == NumberButton(w.first, current))
               <==> w.first > 2) &&
            ((exists i :: 1 <= i < |r| && r[i].Ellipsis? && r[i - 1] == NumberButton(w.last, current))
               <==> w.last < total - 1)
  {
    var w := Window(current, total, maxVisible);
    RenderShape(current, total, maxVisible);
    ShapedEllipses(Render(current, total, maxVisible), w.first, w.last, total, current);
  }

  lemma ShapedEllipses(r: seq<Token>, first: int, last: int, total: int, current: int)
    requires 1 <= first <= last <= total && Shaped(r, first, last, total, current)
    ensures (exists i :: 0 <= i < |r| - 1 && r[i].Ellipsis? && r[i + 1] == NumberButton(first, current))
              <==> first > 2
    ensures (exists i :: 1 <= i < |r| && r[i].Ellipsis? && r[i - 1] == NumberButton(last, current))
              <==> last < total - 1
  {
    var b := LeadLength(first) + (last - first + 1);
    if first > 2 {
      assert r[1] == TokenAt(first, last, total, current, 1);
      assert r[2] == TokenAt(first, last, total, current, 2);
    }
    if exists i :: 0 <= i < |r| - 1 && r[i].Ellipsis? && r[i + 1] == NumberButton(first, current) {
      var i :| 0 <= i < |r| - 1 && r[i].Ellipsis? && r[i + 1] == NumberButton(first, current);
      assert r[i] == TokenAt(first, last, total, current, i);
      assert r[i + 1] == TokenAt(first, last, total, current, i + 1);
    }
    if last < total - 1 {
      assert r[b] == TokenAt(first, last, total, current, b);
      assert r[b - 1] == TokenAt(first, last, total, current, b - 1);
    }
    if exists i :: 1 <= i < |r| && r[i].Ellipsis? && r[i - 1] == NumberButton(last, current) {
      var i :| 1 <= i < |r| && r[i].Ellipsis? && r[i - 1] == NumberButton(last, current);
      assert r[i] == TokenAt(first, last, total, current, i);
      assert r[i - 1] == TokenAt(first, last, total, current, i - 1);
    }
  }

  /** Re-setting the "current" flags of a freshly rendered bar changes nothing. */
  lemma RenderFlagsStable(current: int, total: int, maxVisible: int)
    requires maxVisible >= 1 && 1 <= current <= total
    ensures Reflagged(Render(current, total, maxVisible), current) == Render(current, total, maxVisible)
  {
    var r := Render(current, total, maxVisible);
    RenderFlags(current, total, maxVisible);
    forall i | 0 <= i < |r| ensures Reflagged(r, current)[i] == r[i] {
    }
  }

  /** The paginator (PaginationWidget). */
  class PaginationWidget {
    var currentPage: int
    var totalPages: int
    var itemsPerPage: int
    const maxVisiblePages: int
    /** The page-number buttons and "..." labels between the prev and next buttons, in layout order. */
    var bar: seq<Token>
    var prevEnabled: bool
    var nextEnabled: bool

    /** What holds between calls, even halfway through `setTotalPages`. */
    ghost predicate Sane()
      reads this
    {
      maxVisiblePages == MaxVisiblePages && totalPages >= 1 && itemsPerPage >= 1
    }

    /** The widget's invariant: the current page lies in 1..total, the prev/next buttons
        are enabled as the current page allows, and the bar (once built) shows the state. */
    ghost predicate Valid()
      reads this
    {
      Sane() && 1 <= currentPage <= totalPages &&
      prevEnabled == (currentPage > 1) && nextEnabled == (currentPage < totalPages) &&
      (bar == [] || bar == Render(currentPage, totalPages, maxVisiblePages))
    }

    /** A fresh paginator: page 1 of 1, ten items per page, no page-number buttons yet. */
    constructor ()
      ensures Valid()
      ensures currentPage == 1 && totalPages == 1 && itemsPerPage == DefaultItemsPerPage
      ensures maxVisiblePages == MaxVisiblePages && bar == []
      ensures !prevEnabled && !nextEnabled
    {
      currentPage, totalPages, itemsPerPage := 1, 1, DefaultItemsPerPage;
      maxVisiblePages := MaxVisiblePages;
      bar := [];
      new;
      UpdateButtons();
    }

    /** `updateButtons`: enable prev/next and re-set every button's "current" flag. */
    method UpdateButtons()
      modifies this`prevEnabled, this`nextEnabled, this`bar
      ensures prevEnabled == (currentPage > 1) && nextEnabled == (currentPage < totalPages)
      ensures bar == Reflagged(old(bar), currentPage)
    {
      prevEnabled := currentPage > 1;
      nextEnabled := currentPage < totalPages;
      var i := 0;
      while i < |bar|
        invariant prevEnabled == (currentPage > 1) && nextEnabled == (currentPage < totalPages)
        invariant 0 <= i <= |bar| == |old(bar)|
        invariant forall k :: 0 <= k < i ==> bar[k] == Reflag(old(bar)[k], currentPage)
        invariant forall k :: i <= k < |bar| ==> bar[k] == old(bar)[k]
      {
        bar := bar[i := Reflag(bar[i], currentPage)];
        i := i + 1;
      }
    }

    /** `updatePageNumbers`: rebuild the bar for the current state. */
    method UpdatePageNumbers()
      requires maxVisiblePages >= 1 && 1 <= currentPage <= totalPages
      modifies this`bar
      ensures bar == Render(currentPage, totalPages, maxVisiblePages)
    {
      var current, total := currentPage, totalPages;
      var w := Window(current, total, maxVisiblePages);
      var start, end := w.first, w.last;
      var widgets: seq<Token> := [];
      if start > 1 {
        widgets := widgets + [NumberButton(1, current)];
        if start > 2 {
          widgets := widgets + [Ellipsis];
        }
      }
      assert widgets == Lead(start, current) + Buttons(start, start - 1, current);
      for i := start to end + 1
        invariant widgets == Lead(start, current) + Buttons(start, i - 1, current)
      {
        ButtonsSnoc(start, i - 1, current);
        widgets := widgets + [NumberButton(i, current)];
      }
      var trail: seq<Token> := [];
      if end < total {
        if end < total - 1 {
          trail := trail + [Ellipsis];
        }
        trail := trail + [NumberButton(total, current)];
      }
      assert trail == Trail(end, total, current);
      bar := widgets + trail;
    }

    /** `setCurrentPage`: store the clamped page; on a real change rebuild the bar and
        emit `pageChanged`, otherwise change and emit nothing. */
    method SetCurrentPage(page: int) returns (events: seq<Event>)
      requires Sane()
      modifies this
      ensures Sane() && (old(Valid()) ==> Valid())
      ensures currentPage == ClampPage(page, totalPages)
      ensures totalPages == old(totalPages) && itemsPerPage == old(itemsPerPage)
      ensures events == if currentPage != old(currentPage) then [PageChanged(currentPage)] else []
      ensures currentPage == old(currentPage) ==> unchanged(this)
      ensures currentPage != old(currentPage) ==> Valid() && bar == Render(currentPage, totalPages, maxVisiblePages)
    {
      var p := ClampPage(page, totalPages);
      events := [];
      if currentPage != p {
        currentPage := p;
        UpdatePageNumbers();
        UpdateButtons();
        RenderFlagsStable(currentPage, totalPages, maxVisiblePages);
        events := [PageChanged(p)];
      }
    }

    /** `setTotalPages`: a total below 1 counts as 1; an unchanged total does nothing;
        otherwise store it, pull the current page down to it if needed, and rebuild. */
    method SetTotalPages(total: int) returns (events: seq<Event>)
      requires Valid()
      modifies this
      ensures Valid()
      ensures totalPages == (if total < 1 then 1 else total)
      ensures currentPage == Min(old(currentPage), totalPages)
      ensures itemsPerPage == old(itemsPerPage)
      ensures events == if currentPage != old(currentPage) then [PageChanged(currentPage)] else []
      ensures totalPages == old(totalPages) ==> unchanged(this)
      ensures totalPages != old(totalPages) ==> bar == Render(currentPage, totalPages, maxVisiblePages)
    {
      var t := if total < 1 then 1 else total;
      events := [];
      if totalPages != t {
        totalPages := t;
        if currentPage > totalPages {
          events := SetCurrentPage(totalPages);
        }
        UpdatePageNumbers();
        UpdateButtons();
        RenderFlagsStable(currentPage, totalPages, maxVisiblePages);
      }
    }

    /** `setItemsPerPage`: accept only a positive, different count and announce it.
        The page state is left alone. */
    method SetItemsPerPage(count: int) returns (events: seq<Event>)
      requires Valid()
      modifies this`itemsPerPage
      ensures Valid()
      ensures itemsPerPage == if count > 0 then count else old(itemsPerPage)
      ensures events == if count > 0 && count != old(itemsPerPage) then [ItemsPerPageChanged(count)] else []
    {
      events := [];
      if count > 0 && itemsPerPage != count {
        itemsPerPage := count;
        events := [ItemsPerPageChanged(count)];
      }
    }

    /** The prev button: one page back, unless already on page 1. */
    method HandlePrevClicked() returns (events: seq<Event>)
      requires Valid()
      modifies this
      ensures Valid()
      ensures totalPages == old(totalPages) && itemsPerPage == old(itemsPerPage)
      ensures old(currentPage) > 1 ==> currentPage == old(currentPage) - 1 && events == [PageChanged(currentPage)]
      ensures old(currentPage) > 1 ==> bar == Render(currentPage, totalPages, maxVisiblePages)
      ensures old(currentPage) == 1 ==> unchanged(this) && events == []
    {
      events := [];
      if currentPage > 1 {
        events := SetCurrentPage(currentPage - 1);
      }
    }

    /** The next button: one page forward, unless already on the last page. */
    method HandleNextClicked() returns (events: seq<Event>)
      requires Valid()
      modifies this
      ensures Valid()
      ensures totalPages == old(totalPages) && itemsPerPage == old(itemsPerPage)
      ensures old(currentPage) < totalPages ==> currentPage == old(currentPage) + 1 && events == [PageChanged(currentPage)]
      ensures old(currentPage) < totalPages ==> bar == Render(currentPage, totalPages, maxVisiblePages)
      ensures old(currentPage) == totalPages ==> unchanged(this) && events == []
    {
      events := [];
      if currentPage < totalPages {
        events := SetCurrentPage(currentPage + 1);
      }
    }

    /** A click on the widget at position `index` of the bar: a numbered button moves
        to its page; anything else (a "..." label) is not a button and does nothing. */
    method HandlePageNumberClicked(index: int) returns (events: seq<Event>)
      requires Valid()
      modifies this
      ensures Valid()
      ensures totalPages == old(totalPages) && itemsPerPage == old(itemsPerPage)
      ensures 0 <= index < |old(bar)| && old(bar)[index].PageButton? ==>
                currentPage == old(bar)[index].page &&
                events == if currentPage != old(currentPage) then [PageChanged(currentPage)] else []
      ensures !(0 <= index < |old(bar)| && old(bar)[index].PageButton?) ==> unchanged(this) && events == []
      ensures currentPage == old(currentPage) ==> unchanged(this)
      ensures currentPage != old(currentPage) ==> bar == Render(currentPage, totalPages, maxVisiblePages)
    {
      events := [];
      if 0 <= index < |bar| && bar[index].PageButton? {
        RenderPages(currentPage, totalPages, maxVisiblePages);
        assert bar[index].page in Pages(bar);
        events := SetCurrentPage(bar[index].page);
      }
    }
  }
}
