/** The paginated contact list of the messages screen: the window of page buttons, the page
    change guard and the previous/next controls. */
module ContactList {
  import opened Wrappers

  /** `Math.min(5, totalPages)`, as an array length (a negative length gives no buttons). */
  function WindowSize(totalPages: int): (n: nat)
    ensures n <= 5
    ensures totalPages >= 0 ==> n == if totalPages < 5 then totalPages else 5
  {
    if totalPages <= 0 then 0 else if totalPages < 5 then totalPages else 5
  }

  /** The first page of the window. */
  function WindowStart(currentPage: int, totalPages: int): (start: int)
    ensures totalPages <= 5 ==> start == 1
    ensures totalPages > 5 ==> 1 <= start <= totalPages - 4
  {
    if totalPages <= 5 then 1
    else if currentPage <= 3 then 1
    else if currentPage >= totalPages - 2 then totalPages - 4
    else currentPage - 2
  }

  /** The page numbers on the buttons, from the per-button formula. */
  function PageWindow(currentPage: int, totalPages: int): (pages: seq<int>)
    ensures |pages| == WindowSize(totalPages)
    ensures forall i :: 0 <= i < |pages| ==> pages[i] == WindowStart(currentPage, totalPages) + i
  {
    seq(WindowSize(totalPages), i requires 0 <= i => WindowStart(currentPage, totalPages) + i)
  }

  /** For a current page within range, the window is a run of consecutive pages within range
      that shows the current page. */
  lemma WindowWellFormed(currentPage: int, totalPages: int)
    requires 1 <= currentPage <= totalPages
    ensures var pages := PageWindow(currentPage, totalPages);
      |pages| == (if totalPages < 5 then totalPages else 5) &&
      (forall i :: 0 <= i < |pages| ==> 1 <= pages[i] <= totalPages) &&
      (forall i :: 0 < i < |pages| ==> pages[i] == pages[i - 1] + 1) &&
      currentPage in pages
  {
    var pages := PageWindow(currentPage, totalPages);
    var k := currentPage - WindowStart(currentPage, totalPages);
    assert 0 <= k < |pages| && pages[k] == currentPage;
  }

  /** The three placements: the first five pages near the start, the last five near the end,
      and otherwise centred on the current page. */
  lemma WindowPlacement(currentPage: int, totalPages: int)
    requires totalPages > 5
    ensures currentPage <= 3 ==> PageWindow(currentPage, totalPages) == [1, 2, 3, 4, 5]
    ensures 3 < currentPage && currentPage >= totalPages - 2 ==>
      PageWindow(currentPage, totalPages) == [totalPages - 4, totalPages - 3, totalPages - 2, totalPages - 1, totalPages]
    ensures 3 < currentPage < totalPages - 2 ==>
      PageWindow(currentPage, totalPages) ==
        [currentPage - 2, currentPage - 1, currentPage, currentPage + 1, currentPage + 2]
  {
  }

  /** `handlePageChange`: the page handed on, which only happens within `1..totalPages`. */
  function HandlePageChange(newPage: int, totalPages: int): (forwarded: Option<int>)
    ensures forwarded.Some? <==> 1 <= newPage <= totalPages
    ensures forwarded.Some? ==> forwarded.value == newPage
  {
    if 1 <= newPage <= totalPages then Some(newPage) else None
  }

  /** The controls are shown only when there is more than one page. */
  predicate ControlsShown(totalPages: int) {
    totalPages > 1
  }

  predicate PreviousEnabled(currentPage: int) {
    currentPage != 1
  }

  predicate NextEnabled(currentPage: int, totalPages: int) {
    currentPage != totalPages
  }

  /** On a page within range, an enabled Previous or Next always moves exactly one page, and a
      disabled one is the one that would leave the range. */
  lemma NeighboursInRange(currentPage: int, totalPages: int)
    requires 1 <= currentPage <= totalPages
    ensures PreviousEnabled(currentPage) <==> HandlePageChange(currentPage - 1, totalPages) == Some(currentPage - 1)
    ensures NextEnabled(currentPage, totalPages) <==> HandlePageChange(currentPage + 1, totalPages) == Some(currentPage + 1)
  {
  }
}
