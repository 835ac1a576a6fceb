/**
 * The comment pager of one post: the `{ currentPage, totalPages, totalComments }`
 * object kept in `commentPaginationState` (and captured by reference by the
 * prev/next handlers of `renderCommentPagination`), and the pager row drawn
 * from it.
 */
module CommentPager {
  import opened CommentsResponse

  /** The pager row under a post's comments. */
  datatype Controls =
    | Hidden
    | Shown(currentPage: int, totalPages: int, prevDisabled: bool, nextDisabled: bool)

  /** `renderComments` draws the row only for more than one page; `renderCommentPagination` disables its buttons. */
  function PagerControls(currentPage: int, totalPages: int): (c: Controls)
    ensures c.Shown? <==> totalPages > 1
    ensures c.Shown? ==> c.currentPage == currentPage && c.totalPages == totalPages
    ensures c.Shown? ==> (c.prevDisabled <==> currentPage <= 1) && (c.nextDisabled <==> currentPage >= totalPages)
  {
    if totalPages > 1 then Shown(currentPage, totalPages, currentPage <= 1, currentPage >= totalPages)
    else Hidden
  }

  /** The page the prev handler moves to: one back, and only from above page 1. */
  function PrevPage(currentPage: int): (p: int)
    ensures p == currentPage || p == currentPage - 1
    ensures p < currentPage <==> currentPage > 1
  {
    if currentPage > 1 then currentPage - 1 else currentPage
  }

  /** The page the next handler moves to: one forward, and only from below the last page. */
  function NextPage(currentPage: int, totalPages: int): (p: int)
    ensures p == currentPage || p == currentPage + 1
    ensures p > currentPage <==> currentPage < totalPages
  {
    if currentPage < totalPages then currentPage + 1 else currentPage
  }

  /**
   * The handlers' guards are exactly the buttons' enabled states: a click on an
   * enabled button moves one page, and the guard of a disabled one keeps the page.
   */
  lemma GuardsMatchButtons(currentPage: int, totalPages: int)
    requires totalPages > 1
    ensures var c := PagerControls(currentPage, totalPages);
            c.Shown? && (!c.prevDisabled <==> PrevPage(currentPage) == currentPage - 1)
            && (!c.nextDisabled <==> NextPage(currentPage, totalPages) == currentPage + 1)
  {
  }

  /** A page between 1 and the last stays there whatever is clicked. */
  lemma StepsStayInRange(currentPage: int, totalPages: int)
    requires 1 <= currentPage <= totalPages
    ensures 1 <= PrevPage(currentPage) <= totalPages
    ensures 1 <= NextPage(currentPage, totalPages) <= totalPages
  {
  }

  /** The page reached by `clicks` clicks on next, the total staying the same. */
  function NextClicks(currentPage: int, totalPages: int, clicks: nat): int
    decreases clicks
  {
    if clicks == 0 then currentPage else NextClicks(NextPage(currentPage, totalPages), totalPages, clicks - 1)
  }

  /** Clicking next from the first page walks page by page and stops at the last one. */
  lemma {:induction false} NextWalksToLast(currentPage: int, totalPages: int, clicks: nat)
    requires 1 <= currentPage <= totalPages
    ensures NextClicks(currentPage, totalPages, clicks)
            == if currentPage + clicks <= totalPages then currentPage + clicks else totalPages
    decreases clicks
  {
    if clicks > 0 {
      NextWalksToLast(NextPage(currentPage, totalPages), totalPages, clicks - 1);
    }
  }

  /** A pagination state object; the handlers hold it by reference, so their changes reach the stored one. */
  class PageState {
    var currentPage: int
    var totalPages: int
    var totalComments: int

    /** `{ currentPage: 1, totalPages: 1, totalComments: 0 }`. */
    constructor ()
      ensures currentPage == 1 && totalPages == 1 && totalComments == 0
    {
      currentPage := 1;
      totalPages := 1;
      totalComments := 0;
    }

    function Controls(): Controls
      reads this
    {
      PagerControls(currentPage, totalPages)
    }

    /** The guard and step of the prev handler. */
    method Prev() returns (moved: bool)
      modifies this
      ensures moved <==> old(currentPage) > 1
      ensures currentPage == PrevPage(old(currentPage))
      ensures totalPages == old(totalPages) && totalComments == old(totalComments)
    {
      moved := currentPage > 1;
      if moved {
        currentPage := currentPage - 1;
      }
    }

    /** The guard and step of the next handler. */
    method Next() returns (moved: bool)
      modifies this
      ensures moved <==> old(currentPage) < old(totalPages)
      ensures currentPage == NextPage(old(currentPage), old(totalPages))
      ensures totalPages == old(totalPages) && totalComments == old(totalComments)
    {
      moved := currentPage < totalPages;
      if moved {
        currentPage := currentPage + 1;
      }
    }

    /** A page of comments arrived: the totals are the server's, and the page number is not clamped to them. */
    method Settle(page: CommentPage)
      modifies this
      ensures currentPage == old(currentPage)
      ensures totalPages == page.totalPages && totalComments == page.total
    {
      totalPages := page.totalPages;
      totalComments := page.total;
    }
  }
}
