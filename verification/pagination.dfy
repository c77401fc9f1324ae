/**
 * The pagination bar: which page numbers and "..." markers are shown for a
 * current page and a page count, and what the previous/next buttons do.
 */
module Pagination {
  import opened Wrappers

  /** One entry of the visible-pages list: a page number or a "..." marker. */
  datatype Entry = Page(n: int) | Ellipsis

  /** How many pages either side of the current one are listed. */
  const Delta: int := 2

  function Max(a: int, b: int): int { if a >= b then a else b }

  function Min(a: int, b: int): int { if a <= b then a else b }

  /** The ascending run of pages `lo, lo + 1, ..., hi` (empty when `lo > hi`). */
  function Run(lo: int, hi: int): (r: seq<Entry>)
    ensures |r| == Max(0, hi - lo + 1)
    ensures forall k :: 0 <= k < |r| ==> r[k] == Page(lo + k)
    decreases hi - lo
  {
    if lo > hi then [] else [Page(lo)] + Run(lo + 1, hi)
  }

  /** First page of the middle block. */
  function WindowStart(current: int): int
  {
    Max(2, current - Delta)
  }

  /** Last page of the middle block. */
  function WindowEnd(current: int, total: int): int
  {
    Min(total - 1, current + Delta)
  }

  /** Page 1, followed by "..." when the window starts past page 3. */
  function Head(current: int): seq<Entry>
  {
    if current - Delta > 2 then [Page(1), Ellipsis] else [Page(1)]
  }

  /** "..." and the last page when the window ends before the second-to-last page; else the last page alone. */
  function Tail(current: int, total: int): seq<Entry>
  {
    if current + Delta < total - 1 then [Ellipsis, Page(total)]
    else if total > 1 then [Page(total)]
    else []
  }

  /**
   * `getVisiblePages`: head, middle block, tail. It always opens with page
   * 1, closes with the last page when there is more than one, and lists no
   * page other than those two and the window around the current page.
   */
  function VisiblePages(current: int, total: int): (pages: seq<Entry>)
    ensures |pages| >= 1 && pages[0] == Page(1)
    ensures total > 1 ==> pages[|pages| - 1] == Page(total)
    ensures forall k :: 0 <= k < |pages| && pages[k].Page? ==>
      pages[k].n == 1 || pages[k].n == total || WindowStart(current) <= pages[k].n <= WindowEnd(current, total)
  {
    Head(current) + Run(WindowStart(current), WindowEnd(current, total)) + Tail(current, total)
  }

  /**
   * `getVisiblePages` as the component computes it: a counting loop builds
   * the middle block, which is then framed by the head and the tail.
   */
  method GetVisiblePages(current: int, total: int) returns (pages: seq<Entry>)
    ensures pages == VisiblePages(current, total)
  {
    var lo := WindowStart(current);
    var hi := WindowEnd(current, total);
    var range: seq<Entry> := [];
    var i := lo;
    while i <= hi
      invariant lo <= i <= Max(lo, hi + 1)
      invariant range == Run(lo, i - 1)
      decreases hi - i
    {
      range := range + [Page(i)];
      i := i + 1;
    }
    pages := Head(current) + range + Tail(current, total);
  }

  /** A page is in the middle block exactly when it lies between its bounds. */
  lemma InRun(lo: int, hi: int, p: int)
    ensures Page(p) in Run(lo, hi) <==> lo <= p <= hi
  {
    if lo <= p <= hi {
      assert Run(lo, hi)[p - lo] == Page(p);
    }
  }

  /**
   * The shape of the list for every input: it opens with page 1, a "..."
   * follows it exactly when the current page is past page 4, and whenever
   * there is more than one page the last page closes the list, preceded by
   * "..." exactly when the window ends before the second-to-last page.
   */
  lemma VisiblePagesEnds(current: int, total: int)
    requires 1 <= current <= total
    ensures var e := VisiblePages(current, total);
      && |e| >= 1 && e[0] == Page(1)
      && (|e| >= 2 && e[1] == Ellipsis <==> current - Delta > 2)
      && (total > 1 ==> e[|e| - 1] == Page(total))
      && (total > 1 ==> (e[|e| - 2] == Ellipsis <==> current + Delta < total - 1))
  {
    var e := VisiblePages(current, total);
    var run := Run(WindowStart(current), WindowEnd(current, total));
    assert e == Head(current) + run + Tail(current, total);
    if total >= 3 {
      assert |run| >= 1 && run[0].Page? && run[|run| - 1].Page?;
    }
  }

  /** For more than one page, whatever the current page, the listed pages are strictly increasing. */
  lemma VisiblePagesIncreasing(current: int, total: int)
    requires total > 1
    ensures var e := VisiblePages(current, total);
      forall i, j :: 0 <= i < j < |e| && e[i].Page? && e[j].Page? ==> e[i].n < e[j].n
  {
    var e := VisiblePages(current, total);
    var lo, hi := WindowStart(current), WindowEnd(current, total);
    var h, run, t := Head(current), Run(lo, hi), Tail(current, total);
    assert e == h + run + t;
    forall i, j | 0 <= i < j < |e| && e[i].Page? && e[j].Page?
      ensures e[i].n < e[j].n
    {
      if i < |h| {
        assert e[i] == Page(1);
        if j < |h| + |run| {
          assert e[j] == run[j - |h|];
        } else {
          assert e[j] == t[j - |h| - |run|];
        }
      } else if i < |h| + |run| {
        assert e[i] == Page(lo + i - |h|);
        if j < |h| + |run| {
          assert e[j] == Page(lo + j - |h|);
        } else {
          assert e[j] == t[j - |h| - |run|];
        }
      }
    }
  }

  /**
   * For more than one page, whatever the current page, the listed pages lie
   * in `[1, total]` and are exactly page 1, the last page and the pages
   * within `Delta` of the current page.
   */
  lemma VisiblePagesMembers(current: int, total: int)
    requires total > 1
    ensures var e := VisiblePages(current, total);
      && (forall p :: Page(p) in e ==> 1 <= p <= total)
      && (forall p :: 1 <= p <= total ==>
            (Page(p) in e <==> p == 1 || p == total || current - Delta <= p <= current + Delta))
  {
    var e := VisiblePages(current, total);
    var lo, hi := WindowStart(current), WindowEnd(current, total);
    var h, run, t := Head(current), Run(lo, hi), Tail(current, total);
    assert e == h + run + t;
    forall p
      ensures Page(p) in e <==> Page(p) in h || Page(p) in run || Page(p) in t
    {
    }
    forall p
      ensures Page(p) in e ==> 1 <= p <= total
      ensures 1 <= p <= total ==>
        (Page(p) in e <==> p == 1 || p == total || current - Delta <= p <= current + Delta)
    {
      InRun(lo, hi, p);
    }
  }

  /** Whatever the input, at most 7 page numbers and at most 2 "..." markers are listed. */
  lemma VisiblePagesSize(current: int, total: int)
    ensures var e := VisiblePages(current, total);
      && multiset(e)[Ellipsis] <= 2
      && |e| - multiset(e)[Ellipsis] <= 7
  {
    var e := VisiblePages(current, total);
    var lo, hi := WindowStart(current), WindowEnd(current, total);
    var h, run, t := Head(current), Run(lo, hi), Tail(current, total);
    assert e == h + run + t;
    assert Ellipsis !in run;
    assert multiset(e) == multiset(h) + multiset(run) + multiset(t);
    assert multiset(run)[Ellipsis] == 0;
  }

  /** For a current page in range, the current page is always listed. */
  lemma VisiblePagesContainCurrent(current: int, total: int)
    requires 1 <= current <= total && total > 1
    ensures Page(current) in VisiblePages(current, total)
  {
    VisiblePagesMembers(current, total);
  }

  /**
   * For a current page in range, a "..." stands exactly for omitted pages:
   * two listed pages that are adjacent in the list are consecutive
   * numbers, and a "..." sits between two listed pages at least two apart.
   */
  lemma EllipsisMarksGaps(current: int, total: int)
    requires 1 <= current <= total && total > 1
    ensures var e := VisiblePages(current, total);
      && (forall i :: 0 <= i < |e| - 1 && e[i].Page? && e[i + 1].Page? ==> e[i + 1].n == e[i].n + 1)
      && (forall i :: 0 <= i < |e| && e[i] == Ellipsis ==>
            0 < i < |e| - 1 && e[i - 1].Page? && e[i + 1].Page? && e[i + 1].n > e[i - 1].n + 1)
  {
    var e := VisiblePages(current, total);
    var lo, hi := WindowStart(current), WindowEnd(current, total);
    var h, run, t := Head(current), Run(lo, hi), Tail(current, total);
    assert e == h + run + t;
    if total >= 3 {
      assert |run| >= 1;
    } else {
      assert run == [];
    }
    forall i | 0 <= i < |e| - 1 && e[i].Page? && e[i + 1].Page?
      ensures e[i + 1].n == e[i].n + 1
    {
      if i < |h| {
        if |run| > 0 {
          assert e[i + 1] == run[0];
        }
      } else if i < |h| + |run| - 1 {
        assert e[i] == run[i - |h|] && e[i + 1] == run[i + 1 - |h|];
      } else if i == |h| + |run| - 1 {
        assert e[i] == run[|run| - 1];
        assert e[i + 1] == t[0];
      }
    }
    forall i | 0 <= i < |e| && e[i] == Ellipsis
      ensures 0 < i < |e| - 1 && e[i - 1].Page? && e[i + 1].Page? && e[i + 1].n > e[i - 1].n + 1
    {
      if i < |h| {
        assert i == 1;
        if |run| > 0 {
          assert e[i + 1] == run[0];
        }
      } else if i >= |h| + |run| {
        assert i == |h| + |run|;
        assert e[i - 1] == run[|run| - 1];
      }
    }
  }

  /** A previous/next button: whether it is disabled and the page it asks for. */
  datatype Nav = Nav(disabled: bool, target: int)

  /** One rendered entry: a page button (highlighted or not) or a plain "...". */
  datatype Button = PageButton(page: int, active: bool) | Gap

  /** The rendered bar. */
  datatype View = View(prev: Nav, buttons: seq<Button>, next: Nav)

  /** The button rendered for one entry: page buttons are highlighted when they are the current page. */
  function ButtonFor(current: int, e: Entry): Button
  {
    match e
    case Page(n) => PageButton(n, n == current)
    case Ellipsis => Gap
  }

  /**
   * The `Pagination` component: nothing for at most one page; otherwise a
   * previous button, one button per visible entry and a next button.
   */
  function Render(current: int, total: int): (v: Option<View>)
    ensures v.None? <==> total <= 1
    ensures v.Some? ==>
      && v.value.prev.disabled == (current == 1) && v.value.prev.target == current - 1
      && v.value.next.disabled == (current == total) && v.value.next.target == current + 1
    ensures v.Some? ==>
      var e := VisiblePages(current, total);
      && |v.value.buttons| == |e|
      && (forall k :: 0 <= k < |e| ==> (v.value.buttons[k].Gap? <==> e[k] == Ellipsis))
      && (forall k :: 0 <= k < |e| && e[k].Page? ==>
            v.value.buttons[k].page == e[k].n && (v.value.buttons[k].active <==> e[k].n == current))
  {
    if total <= 1 then None
    else
      var e := VisiblePages(current, total);
      Some(View(Nav(current == 1, current - 1),
                seq(|e|, k requires 0 <= k < |e| => ButtonFor(current, e[k])),
                Nav(current == total, current + 1)))
  }

  /**
   * For a current page in range: exactly one page button is highlighted, the
   * one for the current page, and an enabled previous/next button never asks
   * for a page outside `[1, total]`.
   */
  lemma RenderInRange(current: int, total: int)
    requires 1 <= current <= total && total > 1
    ensures var v := Render(current, total).value;
      && (exists k :: 0 <= k < |v.buttons| && v.buttons[k] == PageButton(current, true))
      && (forall k, l ::
            (0 <= k < |v.buttons| && 0 <= l < |v.buttons| &&
             v.buttons[k].PageButton? && v.buttons[k].active &&
             v.buttons[l].PageButton? && v.buttons[l].active) ==> k == l)
      && (!v.prev.disabled ==> 1 <= v.prev.target <= total)
      && (!v.next.disabled ==> 1 <= v.next.target <= total)
  {
    var v := Render(current, total).value;
    var e := VisiblePages(current, total);
    VisiblePagesMembers(current, total);
    VisiblePagesIncreasing(current, total);
    assert Page(current) in e;
    var k :| 0 <= k < |e| && e[k] == Page(current);
    assert v.buttons[k] == PageButton(current, true);
    forall k, l | 0 <= k < |v.buttons| && 0 <= l < |v.buttons| &&
        v.buttons[k].PageButton? && v.buttons[k].active &&
        v.buttons[l].PageButton? && v.buttons[l].active
      ensures k == l
    {
      assert e[k] == Page(current) && e[l] == Page(current);
    }
  }
}
