/**
 Pagination of a resource screen: the guard that accepts a requested page, and
 the window of numbered page buttons rendered under the table as
 `[...Array(totalPages)].slice(page - 1, page + 4)`, one button per slot,
 labelled `page + index` and marked active when `page === page + index`.
 */
module Pagination {
  import opened Js

  /** `new Array(n)` throws a RangeError unless `0 <= n <= 2^32 - 1`. */
  const MaxArrayLength: int := 0x1_0000_0000 - 1

  /** The page guard of the page-change handler. */
  predicate Accepts(n: int, totalPages: int)
  {
    n > 0 && n <= totalPages
  }

  function Min(a: int, b: int): int
  {
    if a <= b then a else b
  }

  /** How `Array.prototype.slice` turns a relative index into a position in a
      sequence of length `len`: negative indices count from the end, and the
      result is clamped into `[0, len]`. */
  function RelativeIndex(i: int, len: nat): (k: nat)
    ensures k <= len
  {
    if i < 0 then (if len + i < 0 then 0 else len + i)
    else if i > len then len
    else i
  }

  /** `xs.slice(start, end)`. */
  function Slice<T>(xs: seq<T>, start: int, end: int): (r: seq<T>)
    ensures |r| <= |xs| - RelativeIndex(start, |xs|)
    ensures RelativeIndex(start, |xs|) < RelativeIndex(end, |xs|) ==> |r| == RelativeIndex(end, |xs|) - RelativeIndex(start, |xs|)
    ensures RelativeIndex(start, |xs|) >= RelativeIndex(end, |xs|) ==> r == []
    ensures forall i :: 0 <= i < |r| ==> r[i] == xs[RelativeIndex(start, |xs|) + i]
  {
    var from := RelativeIndex(start, |xs|);
    var to := RelativeIndex(end, |xs|);
    if from < to then xs[from..to] else []
  }

  datatype PageButton = PageButton(number: int, active: bool)

  /** What the button row renders: the buttons, or the RangeError that
      `Array(totalPages)` throws for an impossible length. */
  datatype Window = Buttons(buttons: seq<PageButton>) | RangeError

  function PageWindow(page: int, totalPages: int): (w: Window)
    ensures w.RangeError? <==> !(0 <= totalPages <= MaxArrayLength)
  {
    if 0 <= totalPages <= MaxArrayLength then
      var slots := Slice(seq(totalPages, _ => Undefined), page - 1, page + 4);
      Buttons(seq(|slots|, index => PageButton(page + index, page == page + index)))
    else
      RangeError
  }

  /** For a current page of at least 1, the window shows the consecutive pages
      `page, ..., min(page + 4, totalPages)`: at most five, none past the last
      page, none at all when the current page lies past the last one. Only the
      first button is active and every label passes the page guard. */
  lemma WindowShape(page: int, totalPages: int)
    requires page >= 1
    requires 0 <= totalPages <= MaxArrayLength
    ensures PageWindow(page, totalPages).Buttons?
    ensures var b := PageWindow(page, totalPages).buttons;
      && |b| == (if page > totalPages then 0 else Min(page + 4, totalPages) - page + 1)
      && |b| <= 5
      && (|b| == 0 <==> page > totalPages)
      && (forall i :: 0 <= i < |b| ==> b[i].number == page + i)
      && (forall i :: 0 <= i < |b| ==> (b[i].active <==> i == 0))
      && (forall i :: 0 <= i < |b| ==> Accepts(b[i].number, totalPages))
  {
  }

  /** The labels in the window are exactly the pages the guard accepts among
      `page .. page + 4`. */
  lemma WindowIsGuardedRange(page: int, totalPages: int, x: int)
    requires page >= 1
    requires 0 <= totalPages <= MaxArrayLength
    ensures PageWindow(page, totalPages).Buttons?
    ensures (exists i :: 0 <= i < |PageWindow(page, totalPages).buttons|
                         && PageWindow(page, totalPages).buttons[i].number == x)
            <==> page <= x <= page + 4 && Accepts(x, totalPages)
  {
    WindowShape(page, totalPages);
    var b := PageWindow(page, totalPages).buttons;
    if page <= x <= page + 4 && Accepts(x, totalPages) {
      assert b[x - page].number == x;
    }
  }

  /** On page 5 of 7 the window is `5 6 7`, the first one active. */
  lemma WindowNearLastPage()
    ensures PageWindow(5, 7) == Buttons([PageButton(5, true), PageButton(6, false), PageButton(7, false)])
  {
  }
}
