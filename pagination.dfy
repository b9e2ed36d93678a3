/**
 * The pagination bar that MoviesGrid and MovieList both render: shown when there is
 * more than one page, "Anterior" disabled on page 1, "Siguiente" disabled on the last
 * page, and each enabled button asking for the neighbouring page.
 */
module Pagination {
  import opened Wrappers

  datatype Button = Previous | Next

  /** The bar as rendered: the page numbers it shows and the two `disabled` flags. */
  datatype Controls = Controls(currentPage: int, totalPages: int, previousDisabled: bool, nextDisabled: bool)

  /** `currentPage === 1` and `currentPage === totalPages`. */
  function ControlsFor(currentPage: int, totalPages: int): (c: Controls)
    ensures c.currentPage == currentPage && c.totalPages == totalPages
    ensures c.previousDisabled <==> currentPage == 1
    ensures c.nextDisabled <==> currentPage == totalPages
  {
    Controls(currentPage, totalPages, currentPage == 1, currentPage == totalPages)
  }

  /** The page a click asks for, or None when the button is disabled and the click does nothing. */
  function Click(c: Controls, b: Button): (r: Option<int>)
    ensures r.Some? <==> (if b == Previous then !c.previousDisabled else !c.nextDisabled)
    ensures r.Some? ==> r.value == if b == Previous then c.currentPage - 1 else c.currentPage + 1
  {
    match b
    case Previous => if c.previousDisabled then None else Some(c.currentPage - 1)
    case Next => if c.nextDisabled then None else Some(c.currentPage + 1)
  }

  /** Within the page range, a button is enabled exactly when its neighbour page exists, and it asks for that page. */
  lemma EnabledMoveStaysInBounds(currentPage: int, totalPages: int, b: Button)
    requires 1 <= currentPage <= totalPages
    ensures var r := Click(ControlsFor(currentPage, totalPages), b);
      && (r.Some? <==> if b == Previous then currentPage > 1 else currentPage < totalPages)
      && (r.Some? ==> 1 <= r.value <= totalPages && (r.value - currentPage == 1 || currentPage - r.value == 1))
  {
  }

  /** The page after a sequence of clicks, each one on the bar rendered for the page before it. */
  function Navigate(currentPage: int, totalPages: int, clicks: seq<Button>): int
    decreases |clicks|
  {
    if clicks == [] then currentPage
    else
      var next := Click(ControlsFor(currentPage, totalPages), clicks[0]).GetOr(currentPage);
      Navigate(next, totalPages, clicks[1..])
  }

  /** No sequence of clicks leaves the page range, starting from a page in it. */
  lemma {:induction false} NavigateStaysInBounds(currentPage: int, totalPages: int, clicks: seq<Button>)
    requires 1 <= currentPage <= totalPages
    ensures 1 <= Navigate(currentPage, totalPages, clicks) <= totalPages
    decreases |clicks|
  {
    if clicks != [] {
      EnabledMoveStaysInBounds(currentPage, totalPages, clicks[0]);
      var next := Click(ControlsFor(currentPage, totalPages), clicks[0]).GetOr(currentPage);
      NavigateStaysInBounds(next, totalPages, clicks[1..]);
    }
  }

  /** Every page is reachable: k clicks on "Siguiente" from page 1 reach page 1 + k. */
  lemma {:induction false} NextReachesEveryPage(totalPages: int, k: nat)
    requires 1 + k <= totalPages
    ensures Navigate(1, totalPages, seq(k, _ => Next)) == 1 + k
  {
    ForwardFrom(1, totalPages, k);
  }

  lemma {:induction false} ForwardFrom(currentPage: int, totalPages: int, k: nat)
    requires 1 <= currentPage && currentPage + k <= totalPages
    ensures Navigate(currentPage, totalPages, seq(k, _ => Next)) == currentPage + k
    decreases k
  {
    if k > 0 {
      var clicks := seq(k, _ => Next);
      assert clicks[0] == Next && clicks[1..] == seq(k - 1, _ => Next);
      ForwardFrom(currentPage + 1, totalPages, k - 1);
    }
  }

  /**
   * The `===` test guards only the exact last page: on a page past the last one
   * (after a response reported fewer pages) "Siguiente" stays enabled and moves further out.
   */
  lemma NextEnabledPastLastPage(currentPage: int, totalPages: int)
    requires currentPage > totalPages
    ensures Click(ControlsFor(currentPage, totalPages), Next) == Some(currentPage + 1)
  {
  }
}
