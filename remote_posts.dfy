/**
 * The remote-post pager of the posts page: the category chosen on the services
 * page (`currentRemoteCategory`), the page shown (`currentRemotePage`) and the
 * totals of the last answer (`totalRemotePosts`, `totalRemotePages`), with
 * `fetchAndRenderRemotePosts`, `updatePostsPagination` and the prev/next
 * handlers. The answer of each request is a parameter.
 */
module RemotePosts {
  import opened Common
  import opened Json
  import opened CommentsResponse

  /** `pageSize`: posts per remote page. */
  const RemotePageSize: int := 5

  /** The posts to render and the totals `fetchAndRenderRemotePosts` takes from one answer. */
  datatype RemotePage = RemotePage(posts: seq<Json>, total: int, totalPages: int)

  /**
   * The shaping of one answer: a bare array is one page of its own length; an
   * envelope gives its `posts` array (or none), its numeric `total` (or the
   * number of posts) and at least one page. A `null` body makes `data.posts`
   * throw, which ends like a failed request.
   */
  function ShapeRemotePosts(data: Json): (r: Fetch<RemotePage>)
    ensures r.Failed? <==> data == JNull
    ensures forall items :: data == JArray(items) ==> r == Ok(RemotePage(items, |items|, 1))
    ensures r.Ok? ==> r.value.totalPages >= 1
    ensures r.Ok? && !data.JArray? && r.value.total > 0 ==>
              (r.value.totalPages - 1) * RemotePageSize < r.value.total <= r.value.totalPages * RemotePageSize
    ensures r.Ok? && r.value.total <= RemotePageSize ==> r.value.totalPages == 1
    ensures forall items :: !data.JArray? && Get(Some(data), "posts") == Some(JArray(items)) ==>
              r.Ok? && r.value.posts == items
    ensures r.Ok? && !data.JArray? && !IsArray(Get(Some(data), "posts")) ==> r.value.posts == []
    ensures forall n :: !data.JArray? && Get(Some(data), "total") == Some(JNumber(n)) ==>
              r.Ok? && r.value.total == n
    ensures r.Ok? && !data.JArray? && !IsNumber(Get(Some(data), "total")) ==> r.value.total == |r.value.posts|
  {
    match data
    case JNull => Failed
    case JArray(items) => Ok(RemotePage(items, |items|, 1))
    case _ =>
      var listed := Get(Some(data), "posts");
      var posts := match listed case Some(JArray(items)) => items case _ => [];
      var count := match Get(Some(data), "total") case Some(JNumber(n)) => n case _ => |posts|;
      var pages := CeilDiv(count, RemotePageSize);
      Ok(RemotePage(posts, count, if pages > 1 then pages else 1))
  }

  /** The `#postsPagination` row. */
  datatype PagerView =
    | PagerHidden
    | PagerShown(page: int, totalPages: int, prevDisabled: bool, nextDisabled: bool)

  /**
   * `updatePostsPagination(returnedCount)`: hidden without a category or when
   * the page came back empty; with one page both arrows are disabled, otherwise
   * prev on page 1 and below and next on the last page and beyond.
   */
  function PostsPagination(category: string, page: int, totalPages: int, returnedCount: int): (v: PagerView)
    ensures v.PagerHidden? <==> category == "" || returnedCount == 0
    ensures v.PagerShown? ==> v.page == page && v.totalPages == totalPages
    ensures v.PagerShown? ==> (v.prevDisabled <==> page <= 1 || totalPages == 1)
    ensures v.PagerShown? ==> (v.nextDisabled <==> page >= totalPages || totalPages == 1)
  {
    if category == "" || returnedCount == 0 then PagerHidden
    else if totalPages == 1 then PagerShown(page, totalPages, true, true)
    else PagerShown(page, totalPages, page <= 1, page >= totalPages)
  }

  /** The values of the four variables. */
  datatype RemoteState = RemoteState(category: string, page: int, totalPosts: int, totalPages: int)

  /** The page shown is at least 1 and there is at least one page. */
  predicate StateValid(s: RemoteState) {
    s.page >= 1 && s.totalPages >= 1
  }

  /** What the request asks for: the category and the page. */
  datatype PostsRequest = PostsRequest(category: string, page: int)

  /**
   * `fetchAndRenderRemotePosts()` with the answer given: nothing without a
   * category; a shaped answer replaces both totals and shows the row for the
   * posts it returned; a failure keeps the totals and hides the row.
   */
  function Fetched(s: RemoteState, response: Fetch<Json>): (r: (RemoteState, Option<PostsRequest>, PagerView))
    requires StateValid(s)
    ensures StateValid(r.0)
    ensures r.0.category == s.category && r.0.page == s.page
    ensures r.1.Some? <==> s.category != ""
    ensures r.1.Some? ==> r.1.value == PostsRequest(s.category, s.page)
    ensures s.category == "" ==> r.0 == s && r.2 == PagerHidden
    ensures (s.category != "" && response.Ok? && response.value != JNull) ==>
              var p := ShapeRemotePosts(response.value).value;
              && r.0 == s.(totalPosts := p.total, totalPages := p.totalPages)
              && r.2 == PostsPagination(s.category, s.page, p.totalPages, |p.posts|)
    ensures (s.category != "" && (response.Failed? || response == Ok(JNull))) ==> r.0 == s && r.2 == PagerHidden
  {
    if s.category == "" then (s, None, PagerHidden)
    else
      var shaped := if response.Ok? then ShapeRemotePosts(response.value) else Failed;
      match shaped
      case Failed => (s, Some(PostsRequest(s.category, s.page)), PagerHidden)
      case Ok(p) =>
        (s.(totalPosts := p.total, totalPages := p.totalPages), Some(PostsRequest(s.category, s.page)),
         PostsPagination(s.category, s.page, p.totalPages, |p.posts|))
  }

  /** While the page is within the totals, each arrow is enabled exactly when its handler would move. */
  lemma ArrowsMatchHandlers(s: RemoteState, returnedCount: int)
    requires s.category != "" && returnedCount != 0 && 1 <= s.page <= s.totalPages
    ensures var v := PostsPagination(s.category, s.page, s.totalPages, returnedCount);
            v.PagerShown? && (!v.prevDisabled <==> s.page > 1) && (!v.nextDisabled <==> s.page < s.totalPages)
  {
  }

  /**
   * Nothing clamps the page: when the total shrinks under the page shown (page
   * 2, then an answer with five posts in all), the row reads "page 2 of 1" with
   * both arrows disabled, although the prev handler itself would still move back.
   */
  lemma StrandedPastLastPage(posts: seq<Json>)
    requires |posts| > 0
    ensures var (s, _, v) := Fetched(RemoteState("finance", 2, 6, 2),
                                     Ok(JObject([Member("posts", JArray(posts)), Member("total", JNumber(5))])));
            s == RemoteState("finance", 2, 5, 1) && v == PagerShown(2, 1, true, true)
  {
    var members := [Member("posts", JArray(posts)), Member("total", JNumber(5))];
    assert Find(members, "posts") == Some(JArray(posts));
    assert Find(members, "total") == Some(JNumber(5));
  }

  /** A bare array is always one page, however many posts it holds, so the arrows are both disabled. */
  lemma ArrayAnswerOnePage(s: RemoteState, items: seq<Json>)
    requires StateValid(s) && s.category != "" && items != []
    ensures var (s1, _, v) := Fetched(s, Ok(JArray(items)));
            s1.totalPages == 1 && s1.totalPosts == |items| && v == PagerShown(s.page, 1, true, true)
  {
  }

  /** Twelve posts in all make three pages. */
  lemma TwelvePostsThreePages(posts: seq<Json>)
    ensures ShapeRemotePosts(JObject([Member("posts", JArray(posts)), Member("total", JNumber(12))]))
            == Ok(RemotePage(posts, 12, 3))
  {
    var members := [Member("posts", JArray(posts)), Member("total", JNumber(12))];
    assert Find(members, "posts") == Some(JArray(posts));
    assert Find(members, "total") == Some(JNumber(12));
  }

  /** The module-level variables of the remote-post pager. */
  class RemotePager {
    var currentRemoteCategory: string
    var currentRemotePage: int
    var totalRemotePosts: int
    var totalRemotePages: int

    function State(): RemoteState
      reads this
    {
      RemoteState(currentRemoteCategory, currentRemotePage, totalRemotePosts, totalRemotePages)
    }

    predicate Valid()
      reads this
    {
      StateValid(State())
    }

    constructor ()
      ensures Valid() && State() == RemoteState("", 1, 0, 1)
    {
      currentRemoteCategory := "";
      currentRemotePage := 1;
      totalRemotePosts := 0;
      totalRemotePages := 1;
    }

    /** `fetchAndRenderRemotePosts()`. */
    method FetchAndRender(response: Fetch<Json>) returns (request: Option<PostsRequest>, view: PagerView)
      requires Valid()
      modifies this
      ensures Valid() && (State(), request, view) == Fetched(old(State()), response)
    {
      if currentRemoteCategory == "" {
        return None, PagerHidden;
      }
      request := Some(PostsRequest(currentRemoteCategory, currentRemotePage));
      var shaped := if response.Ok? then ShapeRemotePosts(response.value) else Failed;
      if shaped.Failed? {
        view := PagerHidden;
      } else {
        totalRemotePosts := shaped.value.total;
        totalRemotePages := shaped.value.totalPages;
        view := PostsPagination(currentRemoteCategory, currentRemotePage, totalRemotePages, |shaped.value.posts|);
      }
    }

    /** A category tile on the services page: the category is chosen at page 1 and fetched. */
    method SelectCategory(category: string, response: Fetch<Json>) returns (request: Option<PostsRequest>, view: PagerView)
      requires Valid()
      modifies this
      ensures Valid()
      ensures (State(), request, view) == Fetched(old(State()).(category := category, page := 1), response)
    {
      currentRemoteCategory := category;
      currentRemotePage := 1;
      request, view := FetchAndRender(response);
    }

    /** Opening the services page: no category, page 1, one empty page, the row hidden. */
    method ShowServices() returns (view: PagerView)
      modifies this
      ensures Valid() && State() == RemoteState("", 1, 0, 1) && view == PagerHidden
    {
      currentRemoteCategory := "";
      currentRemotePage := 1;
      totalRemotePages := 1;
      totalRemotePosts := 0;
      view := PagerHidden;
    }

    /** The prev arrow: one page back from above page 1, then a fetch; otherwise nothing. */
    method PrevClick(response: Fetch<Json>) returns (request: Option<PostsRequest>, view: Option<PagerView>)
      requires Valid()
      modifies this
      ensures Valid()
      ensures old(currentRemotePage) <= 1 ==> State() == old(State()) && request.None? && view.None?
      ensures old(currentRemotePage) > 1 ==>
                view.Some? && (State(), request, view.value) == Fetched(old(State()).(page := old(currentRemotePage) - 1), response)
    {
      if currentRemotePage > 1 {
        currentRemotePage := currentRemotePage - 1;
        var v;
        request, v := FetchAndRender(response);
        view := Some(v);
      } else {
        request, view := None, None;
      }
    }

    /** The next arrow: one page on from below the last page, then a fetch; otherwise nothing. */
    method NextClick(response: Fetch<Json>) returns (request: Option<PostsRequest>, view: Option<PagerView>)
      requires Valid()
      modifies this
      ensures Valid()
      ensures old(currentRemotePage) >= old(totalRemotePages) ==> State() == old(State()) && request.None? && view.None?
      ensures old(currentRemotePage) < old(totalRemotePages) ==>
                view.Some? && (State(), request, view.value) == Fetched(old(State()).(page := old(currentRemotePage) + 1), response)
    {
      if currentRemotePage < totalRemotePages {
        currentRemotePage := currentRemotePage + 1;
        var v;
        request, v := FetchAndRender(response);
        view := Some(v);
      } else {
        request, view := None, None;
      }
    }
  }
}
