/** The pagination bar (src/Components/pagination.jsx): from the current page
    and the page count it computes, for each button, the page it requests
    and whether it is disabled, and which numbered button is highlighted.
    Pages are numbered from 0. */
module Pagination {

  /** A control button: the page its click requests, and its disabled flag. */
  datatype Button = Button(target: int, disabled: bool)

  /** A numbered button is never disabled. */
  datatype PageButton = PageButton(target: int, shown: int, highlighted: bool)

  datatype Bar = Bar(first: Button, prev: Button, pages: seq<PageButton>, next: Button, last: Button)

  /** The length `Array.from({ length: totalPages })` produces. */
  function ButtonCount(totalPages: int): nat {
    if totalPages < 0 then 0 else totalPages
  }

  /** The bar for a page: First requests page 0 and Prev the page before,
      both disabled on page 0; Next requests the page after and Last the
      last page, both disabled on the last page; there is one numbered
      button per page, button i requesting page i under the label i+1. */
  function Render(currentPage: int, totalPages: int): (bar: Bar)
    ensures bar.first.target == 0 && bar.prev.target == currentPage - 1
    ensures bar.first.disabled <==> currentPage == 0
    ensures bar.prev.disabled <==> currentPage == 0
    ensures bar.next.target == currentPage + 1 && bar.last.target == totalPages - 1
    ensures bar.next.disabled <==> currentPage == totalPages - 1
    ensures bar.last.disabled <==> currentPage == totalPages - 1
    ensures totalPages >= 0 ==> |bar.pages| == totalPages
    ensures forall i :: 0 <= i < |bar.pages| ==> bar.pages[i].target == i && bar.pages[i].shown == i + 1
  {
    Bar(
      Button(0, currentPage == 0),
      Button(currentPage - 1, currentPage == 0),
      seq(ButtonCount(totalPages), i => PageButton(i, i + 1, i == currentPage)),
      Button(currentPage + 1, currentPage == totalPages - 1),
      Button(totalPages - 1, currentPage == totalPages - 1))
  }

  /** `t` is a page some enabled button of the bar requests. */
  predicate Requests(bar: Bar, t: int) {
    || (!bar.first.disabled && bar.first.target == t)
    || (!bar.prev.disabled && bar.prev.target == t)
    || (exists i :: 0 <= i < |bar.pages| && bar.pages[i].target == t)
    || (!bar.next.disabled && bar.next.target == t)
    || (!bar.last.disabled && bar.last.target == t)
  }

  /** Exactly one numbered button is highlighted when the current page is
      one of the pages, and none otherwise. */
  lemma {:induction false} HighlightUnique(currentPage: int, totalPages: nat)
    ensures forall i :: 0 <= i < totalPages ==>
      (Render(currentPage, totalPages).pages[i].highlighted <==> i == currentPage)
    ensures 0 <= currentPage < totalPages ==>
      |set i | 0 <= i < totalPages && Render(currentPage, totalPages).pages[i].highlighted| == 1
    ensures !(0 <= currentPage < totalPages) ==>
      |set i | 0 <= i < totalPages && Render(currentPage, totalPages).pages[i].highlighted| == 0
  {
    var pages := Render(currentPage, totalPages).pages;
    var hs := set i | 0 <= i < totalPages && pages[i].highlighted;
    if 0 <= currentPage < totalPages {
      assert hs == {currentPage};
    } else {
      assert hs == {};
    }
  }

  /** From a page in range, every enabled button requests a page in range:
      with 0-based pages the bar never leaves [0, totalPages). */
  lemma {:induction false} RequestsStayInRange(currentPage: int, totalPages: int, t: int)
    requires 0 <= currentPage < totalPages
    requires Requests(Render(currentPage, totalPages), t)
    ensures 0 <= t < totalPages
  {
    var bar := Render(currentPage, totalPages);
    if exists i :: 0 <= i < |bar.pages| && bar.pages[i].target == t {
      var i :| 0 <= i < |bar.pages| && bar.pages[i].target == t;
      assert bar.pages[i].target == i;
    }
  }
}
