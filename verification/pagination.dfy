/** The pagination bar of the supplement list
    (`frontend/src/components/supplements/SupplementList.tsx`): the page count, the window
    of at most five numbered pages around the current one, the first and last pages with
    their ellipses, and the previous and next arrows, as the list of items rendered. */
module Pagination {

  const DefaultPageSize: nat := 12
  const MaxPageItems: nat := 5

  /** `Math.ceil(totalCount / pageSize)`: the fewest pages of `pageSize` items that hold
      every item. */
  function TotalPages(totalCount: nat, pageSize: nat): (t: nat)
    requires pageSize > 0
    ensures t * pageSize >= totalCount
    ensures t > 0 ==> (t - 1) * pageSize < totalCount
  {
    (totalCount + pageSize - 1) / pageSize
  }

  /** The bar is rendered only under a non-empty, loaded, error-free list, and only when
      there is more than one page. */
  predicate BarShown(loading: bool, hasError: bool, shown: nat, totalPages: int) {
    !loading && !hasError && shown > 0 && totalPages > 1
  }

  /** With the list's twelve items a page, the bar appears under a loaded, error-free,
      non-empty list exactly when there are more than twelve items. */
  lemma BarShownBeyondOnePage(loading: bool, hasError: bool, shown: nat, totalCount: nat)
    ensures BarShown(loading, hasError, shown, TotalPages(totalCount, DefaultPageSize)) <==>
      !loading && !hasError && shown > 0 && totalCount > DefaultPageSize
  {
  }

  function Max(a: int, b: int): int { if a >= b then a else b }
  function Min(a: int, b: int): int { if a <= b then a else b }

  /** The numbered window: centred on the current page, cut at the last page, and slid
      back to span five pages when the cut left it narrower. */
  function Window(current: int, total: int): (w: (int, int))
    ensures 1 <= current <= total ==>
      && 1 <= w.0 <= current <= w.1 <= total
      && w.1 - w.0 + 1 == Min(MaxPageItems, total)
  {
    var start := Max(1, current - MaxPageItems / 2);
    var end := Min(total, start + MaxPageItems - 1);
    if end - start + 1 < MaxPageItems then (Max(1, end - MaxPageItems + 1), end)
    else (start, end)
  }

  /** An item of the bar. */
  datatype Item =
    | Prev(target: int, disabled: bool)
    | Page(number: int, active: bool, disabled: bool)
    | Ellipsis(disabled: bool)
    | Next(target: int, disabled: bool)

  /** The numbered pages `lo..hi`. */
  function Run(lo: int, hi: int, current: int, loading: bool): (r: seq<Item>)
    ensures lo <= hi + 1 ==> |r| == hi - lo + 1
    ensures forall i :: (0 <= i < |r| ==> r[i] == Page(lo + i, lo + i == current, loading))
    decreases hi + 1 - lo
  {
    if lo > hi then [] else [Page(lo, lo == current, loading)] + Run(lo + 1, hi, current, loading)
  }

  /** Page 1 before a window that does not reach it, and an ellipsis before a gap. */
  function Head(start: int, current: int, loading: bool): (h: seq<Item>)
    ensures h != [] <==> start > 1
    ensures start > 1 ==> h[0] == Page(1, current == 1, loading)
    ensures Ellipsis(loading) in h <==> start > 2
  {
    if start > 2 then [Page(1, current == 1, loading), Ellipsis(loading)]
    else if start > 1 then [Page(1, current == 1, loading)]
    else []
  }

  /** An ellipsis after a gap, and the last page after a window that does not reach it. */
  function Tail(end: int, total: int, current: int, loading: bool): (t: seq<Item>)
    ensures t != [] <==> end < total
    ensures end < total ==> t[|t| - 1] == Page(total, current == total, loading)
    ensures Ellipsis(loading) in t <==> end < total - 1
  {
    if end < total - 1 then [Ellipsis(loading), Page(total, current == total, loading)]
    else if end < total then [Page(total, current == total, loading)]
    else []
  }

  /** The items between the arrows. */
  function Body(start: int, end: int, total: int, current: int, loading: bool): seq<Item> {
    Head(start, current, loading) + Run(start, end, current, loading) + Tail(end, total, current, loading)
  }

  /** `renderPagination` */
  function Bar(current: int, total: int, loading: bool): (r: seq<Item>)
    ensures |r| >= 2
    ensures r[0] == Prev(Max(1, current - 1), current == 1 || loading)
    ensures r[|r| - 1] == Next(Min(total, current + 1), current == total || loading)
  {
    var w := Window(current, total);
    [Prev(Max(1, current - 1), current == 1 || loading)]
      + Body(w.0, w.1, total, current, loading)
      + [Next(Min(total, current + 1), current == total || loading)]
  }

  /** The page numbers of the items, in order. */
  function Numbers(items: seq<Item>): seq<int> {
    if items == [] then []
    else (if items[0].Page? then [items[0].number] else []) + Numbers(items[1..])
  }

  lemma {:induction false} NumbersAppend(a: seq<Item>, b: seq<Item>)
    ensures Numbers(a + b) == Numbers(a) + Numbers(b)
    decreases |a|
  {
    if a != [] {
      assert (a + b)[0] == a[0];
      assert (a + b)[1..] == a[1..] + b;
      NumbersAppend(a[1..], b);
      var h := if a[0].Page? then [a[0].number] else [];
      assert Numbers(a + b) == h + Numbers(a[1..] + b);
      assert Numbers(a) == h + Numbers(a[1..]);
    } else {
      assert a + b == b;
    }
  }

  /** `lo..hi` */
  function Range(lo: int, hi: int): (r: seq<int>)
    ensures lo <= hi + 1 ==> |r| == hi - lo + 1
    ensures forall i :: (0 <= i < |r| ==> r[i] == lo + i)
    decreases hi + 1 - lo
  {
    if lo > hi then [] else [lo] + Range(lo + 1, hi)
  }

  lemma {:induction false} RunNumbers(lo: int, hi: int, current: int, loading: bool)
    ensures Numbers(Run(lo, hi, current, loading)) == Range(lo, hi)
    decreases hi + 1 - lo
  {
    if lo <= hi {
      var rest := Run(lo + 1, hi, current, loading);
      assert Run(lo, hi, current, loading) == [Page(lo, lo == current, loading)] + rest;
      NumbersAppend([Page(lo, lo == current, loading)], rest);
      RunNumbers(lo + 1, hi, current, loading);
    }
  }

  predicate StrictlyIncreasing(s: seq<int>) {
    forall i, j :: 0 <= i < j < |s| ==> s[i] < s[j]
  }

  lemma Unnumbered(x: Item)
    requires !x.Page?
    ensures Numbers([x]) == []
  {
    assert [x][1..] == [];
  }

  /** The head numbers page 1 alone, the tail the last page alone. */
  lemma EndsNumbers(start: int, end: int, total: int, current: int, loading: bool)
    ensures Numbers(Head(start, current, loading)) == if start > 1 then [1] else []
    ensures Numbers(Tail(end, total, current, loading)) == if end < total then [total] else []
  {
    var page1, last := Page(1, current == 1, loading), Page(total, current == total, loading);
    assert [page1, Ellipsis(loading)][1..] == [Ellipsis(loading)];
    assert [Ellipsis(loading), last][1..] == [last];
    assert [last][1..] == [] && [Ellipsis(loading)][1..] == [];
    assert Numbers([Ellipsis(loading)]) == [];
    assert Numbers([last]) == [total];
    assert Numbers([page1]) == [1];
  }

  lemma BodyNumbers(start: int, end: int, total: int, current: int, loading: bool)
    ensures Numbers(Body(start, end, total, current, loading))
      == Numbers(Head(start, current, loading)) + Range(start, end) + Numbers(Tail(end, total, current, loading))
  {
    var head := Head(start, current, loading);
    var run := Run(start, end, current, loading);
    var tail := Tail(end, total, current, loading);
    NumbersAppend(head + run, tail);
    NumbersAppend(head, run);
    RunNumbers(start, end, current, loading);
  }

  /** The page numbers of the bar: those of the head, the window and the tail. */
  lemma BarNumbersSplit(current: int, total: int, loading: bool)
    ensures var w := Window(current, total);
      Numbers(Bar(current, total, loading))
        == Numbers(Head(w.0, current, loading)) + Range(w.0, w.1) + Numbers(Tail(w.1, total, current, loading))
  {
    var w := Window(current, total);
    var prev := [Prev(Max(1, current - 1), current == 1 || loading)];
    var body := Body(w.0, w.1, total, current, loading);
    var next := [Next(Min(total, current + 1), current == total || loading)];
    assert Bar(current, total, loading) == prev + body + next;
    Unnumbered(prev[0]);
    Unnumbered(next[0]);
    NumbersAppend(prev + body, next);
    NumbersAppend(prev, body);
    BodyNumbers(w.0, w.1, total, current, loading);
  }

  /** For a current page in range, the page numbers on the bar are 1 when the window does
      not start there, the window `start..end`, and the last page when the window does not
      end there: strictly increasing, so no page appears twice. */
  lemma BarNumbers(current: int, total: int, loading: bool)
    requires 1 <= current <= total
    ensures var w := Window(current, total);
      var n := Numbers(Bar(current, total, loading));
      && n == (if w.0 > 1 then [1] else []) + Range(w.0, w.1) + (if w.1 < total then [total] else [])
      && StrictlyIncreasing(n)
  {
    BarNumbersSplit(current, total, loading);
    EndsNumbers(Window(current, total).0, Window(current, total).1, total, current, loading);
    var w := Window(current, total);
    var start, end := w.0, w.1;
    var first := if start > 1 then [1] else [];
    var last := if end < total then [total] else [];
    var n := first + Range(start, end) + last;
    forall i, j | 0 <= i < j < |n|
      ensures n[i] < n[j]
    {
      var k := |first|;
      var m := k + (end - start + 1);
      if i < k {
        assert n[i] == 1;
      } else if i < m {
        assert n[i] == start + (i - k);
        if j < m { assert n[j] == start + (j - k); }
        else { assert n[j] == total; }
      }
    }
  }

  /** Every numbered item is active exactly when it is the current page. */
  predicate MarksCurrent(items: seq<Item>, current: int) {
    forall i :: 0 <= i < |items| && items[i].Page? ==> (items[i].active <==> items[i].number == current)
  }

  lemma MarksAppend(a: seq<Item>, b: seq<Item>, current: int)
    requires MarksCurrent(a, current) && MarksCurrent(b, current)
    ensures MarksCurrent(a + b, current)
  {
    forall i | 0 <= i < |a + b| && (a + b)[i].Page?
      ensures ((a + b)[i].active <==> (a + b)[i].number == current)
    {
      if i >= |a| {
        assert (a + b)[i] == b[i - |a|];
      }
    }
  }

  /** On the bar, a numbered item is active exactly when it is the current page. */
  lemma OnlyCurrentIsActive(current: int, total: int, loading: bool)
    ensures MarksCurrent(Bar(current, total, loading), current)
  {
    var w := Window(current, total);
    var prev := [Prev(Max(1, current - 1), current == 1 || loading)];
    var head := Head(w.0, current, loading);
    var run := Run(w.0, w.1, current, loading);
    var tail := Tail(w.1, total, current, loading);
    var next := [Next(Min(total, current + 1), current == total || loading)];
    MarksAppend(head, run, current);
    MarksAppend(head + run, tail, current);
    assert Body(w.0, w.1, total, current, loading) == head + run + tail;
    MarksAppend(prev, head + run + tail, current);
    MarksAppend(prev + (head + run + tail), next, current);
  }
}
