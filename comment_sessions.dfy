/**
 * The comment sessions of the posts: opening a post's comments
 * (`toggleComments`), changing their sort order (`handlePostRootChange`), the
 * prev/next handlers of `renderCommentPagination`, the reloads after a comment
 * is added (`onCommentSubmit`) or deleted (`handleDeleteComment`), and the
 * comment count shown on a card (`hydratePostCommentCount`). Each reload asks
 * for one page of `PageSize` comments; its answer is a parameter.
 */
module CommentSessions {
  import opened Common
  import opened Json
  import opened CommentsResponse
  import opened CommentPager
  import opened EngagementCache
  import Identity

  /** The values of a pagination state object. */
  datatype Pager = Pager(currentPage: int, totalPages: int, totalComments: int)

  /** `{ currentPage: 1, totalPages: 1, totalComments: 0 }`. */
  const InitialPager := Pager(1, 1, 0)

  /** The arguments of one `fetchComments(postId, page, size, sortOrder)` call. */
  datatype PageRequest = PageRequest(page: int, size: int, sort: SortOrder)

  function PagerOf(s: PageState): Pager
    reads s
  {
    Pager(s.currentPage, s.totalPages, s.totalComments)
  }

  /** The values of the state stored for `postId`, if any. */
  function StoredPager(m: map<string, PageState>, postId: string): Option<Pager>
    reads m.Values
  {
    if postId in m then Some(PagerOf(m[postId])) else None
  }

  /** `fetchComments` given the answer of its request: the normalised page, or the failure. */
  function PageOf(response: Fetch<Json>): (r: Fetch<CommentPage>)
    ensures response.Failed? ==> r.Failed?
    ensures response.Ok? ==> r == NormalizeComments(response.value, PageSize)
  {
    match response
    case Failed => Failed
    case Ok(data) => NormalizeComments(data, PageSize)
  }

  /** A reload settles: a page replaces both totals, a failure keeps them; the page number is never touched. */
  function Loaded(p: Pager, page: Fetch<CommentPage>): (r: Pager)
    ensures r.currentPage == p.currentPage
    ensures page.Failed? ==> r == p
    ensures page.Ok? ==> r.totalPages == page.value.totalPages && r.totalComments == page.value.total
  {
    match page
    case Failed => p
    case Ok(c) => Pager(p.currentPage, c.totalPages, c.total)
  }

  /** The stored state, or a fresh default. */
  function OrInitial(p: Option<Pager>): Pager {
    if p.Some? then p.value else InitialPager
  }

  /** `toggleComments` when it opens the section: the stored page (page 1 the first time) is reloaded. */
  function OnExpand(p: Option<Pager>, page: Fetch<CommentPage>): (r: Pager)
    ensures r.currentPage == if p.Some? then p.value.currentPage else 1
    ensures page.Failed? ==> r == OrInitial(p)
    ensures page.Ok? ==> r.totalPages == page.value.totalPages && r.totalComments == page.value.total
  {
    Loaded(OrInitial(p), page)
  }

  /** `select.value === 'asc' ? 'asc' : 'desc'`. */
  function SortFromSelect(value: string): (order: SortOrder)
    ensures order == Asc <==> value == "asc"
  {
    if value == "asc" then Asc else Desc
  }

  /** `handlePostRootChange`: back to page 1, then reloaded. */
  function OnSortChange(p: Option<Pager>, page: Fetch<CommentPage>): (r: Pager)
    ensures r.currentPage == 1
    ensures page.Failed? ==> r.totalPages == OrInitial(p).totalPages && r.totalComments == OrInitial(p).totalComments
    ensures page.Ok? ==> r.totalPages == page.value.totalPages && r.totalComments == page.value.total
  {
    Loaded(OrInitial(p).(currentPage := 1), page)
  }

  /** The prev handler: one page back from above page 1, then reloaded; otherwise nothing happens. */
  function OnPrev(p: Pager, page: Fetch<CommentPage>): (r: Pager)
    ensures r.currentPage == PrevPage(p.currentPage)
    ensures p.currentPage <= 1 || page.Failed? ==> r.totalPages == p.totalPages && r.totalComments == p.totalComments
    ensures p.currentPage > 1 && page.Ok? ==> r.totalPages == page.value.totalPages && r.totalComments == page.value.total
  {
    if p.currentPage > 1 then Loaded(p.(currentPage := PrevPage(p.currentPage)), page) else p
  }

  /** The next handler: one page on from below the last page, then reloaded; otherwise nothing happens. */
  function OnNext(p: Pager, page: Fetch<CommentPage>): (r: Pager)
    ensures r.currentPage == NextPage(p.currentPage, p.totalPages)
    ensures p.currentPage >= p.totalPages || page.Failed? ==> r.totalPages == p.totalPages && r.totalComments == p.totalComments
    ensures p.currentPage < p.totalPages && page.Ok? ==> r.totalPages == page.value.totalPages && r.totalComments == page.value.total
  {
    if p.currentPage < p.totalPages then Loaded(p.(currentPage := NextPage(p.currentPage, p.totalPages)), page) else p
  }

  /**
   * `onCommentSubmit` after the comment was stored: back to page 1 so the new
   * comment shows, then reloaded, the same steps as a change of sort order.
   */
  function OnCommentAdded(p: Option<Pager>, page: Fetch<CommentPage>): (r: Pager)
    ensures r.currentPage == 1
    ensures page.Failed? ==> r.totalPages == OrInitial(p).totalPages && r.totalComments == OrInitial(p).totalComments
    ensures page.Ok? ==> r.totalPages == page.value.totalPages && r.totalComments == page.value.total
  {
    OnSortChange(p, page)
  }

  /** `handleDeleteComment` after the delete: the current page is reloaded as it is. */
  function OnCommentDeleted(p: Option<Pager>, page: Fetch<CommentPage>): (r: Pager)
    ensures r.currentPage == OrInitial(p).currentPage
    ensures page.Failed? ==> r == OrInitial(p)
    ensures page.Ok? ==> r.totalPages == page.value.totalPages && r.totalComments == page.value.total
  {
    Loaded(OrInitial(p), page)
  }

  /** The count cache after a reload that `updatePostStatsDisplay` reports. */
  function CountAfter(t: CacheTables, postId: string, page: Fetch<CommentPage>): (r: CacheTables)
    requires TablesValid(t)
    ensures TablesValid(r)
  {
    if page.Ok? then RecordCount(t, postId, page.value.total) else t
  }

  /** A sort change always lands on page 1; its totals are the answer's, or the old ones when the reload fails. */
  lemma SortChangeRestarts(p: Option<Pager>, page: Fetch<CommentPage>)
    ensures OnSortChange(p, page).currentPage == 1
    ensures page.Failed? ==> OnSortChange(p, page) == OrInitial(p).(currentPage := 1)
    ensures page.Ok? ==> OnSortChange(p, page) == Pager(1, page.value.totalPages, page.value.total)
  {
  }

  /** Reopening a post's comments keeps the page the reader left them on. */
  lemma ExpandKeepsPage(p: Pager, page: Fetch<CommentPage>)
    ensures OnExpand(Some(p), page).currentPage == p.currentPage
    ensures OnExpand(None, page).currentPage == 1
  {
  }

  /** Prev then next returns to the same page when the total number of pages did not change in between. */
  lemma PrevThenNext(p: Pager, first: CommentPage, second: Fetch<CommentPage>)
    requires p.currentPage > 1 && first.totalPages == p.totalPages && p.currentPage <= p.totalPages
    ensures OnNext(OnPrev(p, Ok(first)), second).currentPage == p.currentPage
  {
  }

  /** The handlers keep the page between 1 and the last as long as the answers keep the number of pages. */
  lemma {:induction false} StepsInRange(p: Pager, page: CommentPage)
    requires 1 <= p.currentPage <= p.totalPages && page.totalPages == p.totalPages
    ensures 1 <= OnPrev(p, Ok(page)).currentPage <= OnPrev(p, Ok(page)).totalPages
    ensures 1 <= OnNext(p, Ok(page)).currentPage <= OnNext(p, Ok(page)).totalPages
  {
    StepsStayInRange(p.currentPage, p.totalPages);
  }

  /** The prev step is not undone when its reload fails: the page number moves although the list did not load. */
  lemma FailedReloadStillSteps(p: Pager)
    requires p.currentPage > 1
    ensures OnPrev(p, Failed) == p.(currentPage := p.currentPage - 1)
  {
  }

  /**
   * Nothing clamps the page after a reload: deleting the only comment of the
   * last of three pages leaves "page 3 of 2", with prev enabled, next disabled,
   * and the next handler doing nothing.
   */
  lemma DeletedLastPageNotClamped()
    ensures OnCommentDeleted(Some(Pager(3, 3, 11)), Ok(CommentPage([], 10, 2))) == Pager(3, 2, 10)
    ensures PagerControls(3, 2) == Shown(3, 2, false, true)
    ensures OnNext(Pager(3, 2, 10), Failed) == Pager(3, 2, 10)
    ensures OnPrev(Pager(3, 2, 10), Ok(CommentPage([], 10, 2))) == Pager(2, 2, 10)
  {
  }

  /** A new comment is always shown from page 1; a deletion reloads whatever page was current. */
  lemma AddedShowsFirstPage(p: Option<Pager>, page: Fetch<CommentPage>)
    ensures OnCommentAdded(p, page).currentPage == 1
    ensures OnCommentDeleted(p, page).currentPage == OrInitial(p).currentPage
  {
  }

  /** The count shown on a card after `hydratePostCommentCount(postId)`, and the caches after it. */
  function HydrateCount(t: CacheTables, postId: string, response: Fetch<Json>): (r: (CacheTables, Option<int>))
    requires TablesValid(t)
    ensures TablesValid(r.0)
    ensures !Identity.IsServerBacked(postId) ==> r == (t, None)
    ensures postId in t.postCommentCountState && Identity.IsServerBacked(postId) ==>
              r == (t, Some(t.postCommentCountState[postId]))
    ensures r.1.Some? ==> r.0.postCommentCountState == t.postCommentCountState[postId := r.1.value]
    ensures r.1.None? ==> r.0 == t
  {
    if !Identity.IsServerBacked(postId) then (t, None)
    else if postId in t.postCommentCountState then (t, Some(t.postCommentCountState[postId]))
    else
      var count := if response.Ok? then CommentCountOnly(response.value) else Failed;
      if count.Ok? then (RecordCount(t, postId, count.value), Some(count.value)) else (t, None)
  }

  /** Once a count is known it is shown again without a request, whatever the request would answer. */
  lemma HydratedCountReused(t: CacheTables, postId: string, data: Json, later: Fetch<Json>)
    requires TablesValid(t) && Identity.IsServerBacked(postId) && postId !in t.postCommentCountState
    requires data != JNull
    ensures var (t1, shown) := HydrateCount(t, postId, Ok(data));
            shown == Some(CommentCountOnly(data).value) && HydrateCount(t1, postId, later) == (t1, shown)
  {
  }

  /** The tail every reload shares: the totals are the answer's, and the count cache learns the total. */
  method LoadPage(caches: PostCaches, postId: string, state: PageState, page: Fetch<CommentPage>)
    requires caches.Valid()
    modifies caches, state
    ensures caches.Valid() && caches.Tables() == CountAfter(old(caches.Tables()), postId, page)
    ensures PagerOf(state) == Loaded(old(PagerOf(state)), page)
  {
    if page.Ok? {
      state.Settle(page.value);
      caches.RecordCommentCount(postId, page.value.total);
    }
  }

  /** `commentPaginationState[postId]`, created as `{ 1, 1, 0 }` and stored when missing. */
  method StateFor(caches: PostCaches, postId: string) returns (state: PageState)
    requires caches.Valid()
    modifies caches
    ensures caches.Valid()
    ensures postId in old(caches.commentPaginationState) ==> state == old(caches.commentPaginationState[postId])
    ensures postId !in old(caches.commentPaginationState) ==> fresh(state)
    ensures PagerOf(state) == OrInitial(old(StoredPager(caches.commentPaginationState, postId)))
    ensures caches.Tables() == old(caches.Tables()).(commentPaginationState := old(caches.commentPaginationState)[postId := state])
  {
    if postId in caches.commentPaginationState {
      state := caches.commentPaginationState[postId];
    } else {
      state := new PageState();
      caches.commentPaginationState := caches.commentPaginationState[postId := state];
    }
  }

  /** `commentSortOrder[postId]`, stored as `'desc'` when missing. */
  method SortFor(caches: PostCaches, postId: string) returns (order: SortOrder)
    requires caches.Valid()
    modifies caches
    ensures caches.Valid() && order == SortOf(old(caches.commentSortOrder), postId)
    ensures caches.Tables() == old(caches.Tables()).(commentSortOrder := old(caches.commentSortOrder)[postId := order])
  {
    if postId !in caches.commentSortOrder {
      caches.commentSortOrder := caches.commentSortOrder[postId := Desc];
    }
    order := caches.commentSortOrder[postId];
  }

  /** `toggleComments(button)` when it opens the section of `postId`. */
  method ExpandComments(caches: PostCaches, postId: string, response: Fetch<Json>)
    returns (state: PageState, request: PageRequest)
    requires caches.Valid()
    modifies caches, caches.commentPaginationState.Values
    ensures caches.Valid()
    ensures postId in old(caches.commentPaginationState) ==> state == old(caches.commentPaginationState[postId])
    ensures postId !in old(caches.commentPaginationState) ==> fresh(state)
    ensures unchanged(old(caches.commentPaginationState.Values) - {state})
    ensures request == PageRequest(state.currentPage, PageSize, SortOf(old(caches.commentSortOrder), postId))
    ensures PagerOf(state) == OnExpand(old(StoredPager(caches.commentPaginationState, postId)), PageOf(response))
    ensures caches.Tables() == CountAfter(old(caches.Tables()).(
              commentPaginationState := old(caches.commentPaginationState)[postId := state],
              commentSortOrder := old(caches.commentSortOrder)[postId := SortOf(old(caches.commentSortOrder), postId)]),
              postId, PageOf(response))
  {
    state := StateFor(caches, postId);
    var order := SortFor(caches, postId);
    request := PageRequest(state.currentPage, PageSize, order);
    LoadPage(caches, postId, state, PageOf(response));
  }

  /** `handlePostRootChange` for the sort select of `postId`, set to `value`. */
  method ChangeSortOrder(caches: PostCaches, postId: string, value: string, response: Fetch<Json>)
    returns (state: PageState, request: PageRequest)
    requires caches.Valid()
    modifies caches, caches.commentPaginationState.Values
    ensures caches.Valid()
    ensures postId in old(caches.commentPaginationState) ==> state == old(caches.commentPaginationState[postId])
    ensures postId !in old(caches.commentPaginationState) ==> fresh(state)
    ensures unchanged(old(caches.commentPaginationState.Values) - {state})
    ensures request == PageRequest(1, PageSize, SortFromSelect(value))
    ensures PagerOf(state) == OnSortChange(old(StoredPager(caches.commentPaginationState, postId)), PageOf(response))
    ensures caches.Tables() == CountAfter(old(caches.Tables()).(
              commentPaginationState := old(caches.commentPaginationState)[postId := state],
              commentSortOrder := old(caches.commentSortOrder)[postId := SortFromSelect(value)]),
              postId, PageOf(response))
  {
    var newOrder := SortFromSelect(value);
    caches.commentSortOrder := caches.commentSortOrder[postId := newOrder];
    state := StateFor(caches, postId);
    state.currentPage := 1;
    request := PageRequest(state.currentPage, PageSize, newOrder);
    LoadPage(caches, postId, state, PageOf(response));
  }

  /** The prev handler of the pager row of `postId`, holding `state`; a request is made only when the page moves. */
  method CommentsPrev(caches: PostCaches, postId: string, state: PageState, response: Fetch<Json>)
    returns (request: Option<PageRequest>)
    requires caches.Valid()
    modifies caches, state
    ensures caches.Valid()
    ensures request.Some? <==> old(state.currentPage) > 1
    ensures request.Some? ==> request.value == PageRequest(state.currentPage, PageSize, SortOf(caches.commentSortOrder, postId))
    ensures PagerOf(state) == OnPrev(old(PagerOf(state)), PageOf(response))
    ensures caches.Tables() == if request.Some? then CountAfter(old(caches.Tables()), postId, PageOf(response))
                               else old(caches.Tables())
  {
    var moved := state.Prev();
    if moved {
      request := Some(PageRequest(state.currentPage, PageSize, SortOf(caches.commentSortOrder, postId)));
      LoadPage(caches, postId, state, PageOf(response));
    } else {
      request := None;
    }
  }

  /** The next handler of the pager row of `postId`, holding `state`. */
  method CommentsNext(caches: PostCaches, postId: string, state: PageState, response: Fetch<Json>)
    returns (request: Option<PageRequest>)
    requires caches.Valid()
    modifies caches, state
    ensures caches.Valid()
    ensures request.Some? <==> old(state.currentPage) < old(state.totalPages)
    ensures request.Some? ==> request.value == PageRequest(state.currentPage, PageSize, SortOf(caches.commentSortOrder, postId))
    ensures PagerOf(state) == OnNext(old(PagerOf(state)), PageOf(response))
    ensures caches.Tables() == if request.Some? then CountAfter(old(caches.Tables()), postId, PageOf(response))
                               else old(caches.Tables())
  {
    var moved := state.Next();
    if moved {
      request := Some(PageRequest(state.currentPage, PageSize, SortOf(caches.commentSortOrder, postId)));
      LoadPage(caches, postId, state, PageOf(response));
    } else {
      request := None;
    }
  }

  /** The reload in `onCommentSubmit` once the new comment is stored. */
  method AfterCommentAdded(caches: PostCaches, postId: string, response: Fetch<Json>)
    returns (state: PageState, request: PageRequest)
    requires caches.Valid()
    modifies caches, caches.commentPaginationState.Values
    ensures caches.Valid()
    ensures postId in old(caches.commentPaginationState) ==> state == old(caches.commentPaginationState[postId])
    ensures postId !in old(caches.commentPaginationState) ==> fresh(state)
    ensures unchanged(old(caches.commentPaginationState.Values) - {state})
    ensures request == PageRequest(1, PageSize, SortOf(old(caches.commentSortOrder), postId))
    ensures PagerOf(state) == OnCommentAdded(old(StoredPager(caches.commentPaginationState, postId)), PageOf(response))
    ensures caches.Tables() == CountAfter(old(caches.Tables()).(
              commentPaginationState := old(caches.commentPaginationState)[postId := state]),
              postId, PageOf(response))
  {
    state := StateFor(caches, postId);
    state.currentPage := 1;
    request := PageRequest(state.currentPage, PageSize, SortOf(caches.commentSortOrder, postId));
    LoadPage(caches, postId, state, PageOf(response));
  }

  /**
   * The reload in `handleDeleteComment` once the comment is gone: the current
   * page is reloaded as it is; a missing state is replaced by a default that is
   * not stored, and the count cache is not told the new total.
   */
  method AfterCommentDeleted(caches: PostCaches, postId: string, response: Fetch<Json>)
    returns (state: PageState, request: PageRequest)
    requires caches.Valid()
    modifies caches.commentPaginationState.Values
    ensures postId in caches.commentPaginationState ==> state == caches.commentPaginationState[postId]
    ensures postId !in caches.commentPaginationState ==> fresh(state)
    ensures unchanged(old(caches.commentPaginationState.Values) - {state})
    ensures request == PageRequest(OrInitial(old(StoredPager(caches.commentPaginationState, postId))).currentPage,
                                   PageSize, SortOf(caches.commentSortOrder, postId))
    ensures PagerOf(state) == OnCommentDeleted(old(StoredPager(caches.commentPaginationState, postId)), PageOf(response))
  {
    if postId in caches.commentPaginationState {
      state := caches.commentPaginationState[postId];
    } else {
      state := new PageState();
    }
    request := PageRequest(state.currentPage, PageSize, SortOf(caches.commentSortOrder, postId));
    var page := PageOf(response);
    if page.Ok? {
      state.Settle(page.value);
    }
  }

  /** `hydratePostCommentCount(postId)`, with the answer of `fetchCommentCountOnly`'s request given. */
  method HydratePostCommentCount(caches: PostCaches, postId: string, response: Fetch<Json>) returns (shown: Option<int>)
    requires caches.Valid()
    modifies caches
    ensures caches.Valid() && (caches.Tables(), shown) == HydrateCount(old(caches.Tables()), postId, response)
  {
    if !Identity.IsServerBacked(postId) {
      return None;
    }
    if postId in caches.postCommentCountState {
      return Some(caches.postCommentCountState[postId]);
    }
    var count := if response.Ok? then CommentCountOnly(response.value) else Failed;
    if count.Ok? {
      caches.RecordCommentCount(postId, count.value);
      shown := Some(count.value);
    } else {
      shown := None;
    }
  }
}
