/**
 * The per-entity caches of the client (the module-level maps `postLikeState`,
 * `postCommentCountState`, `postRetweetState`, `commentLikeState`,
 * `postOwnerCache`, `postDataCache`, `commentPaginationState` and
 * `commentSortOrder`) and the functions that fill and invalidate them. The
 * profile-photo maps live in `PhotoLoader.PhotoCache`.
 */
module EngagementCache {
  import opened Common
  import opened Json
  import Identity
  import PhotoLoader
  import opened CommentPager

  /** `{ count, liked }` of a like button, `{ count, retweeted }` of a retweet button. */
  datatype Engagement = Engagement(count: int, active: bool)

  /** The three toggles and the cache each one keeps its state in. */
  datatype Kind = PostLike | CommentLike | PostRetweet

  datatype SortOrder = Asc | Desc

  /** `commentSortOrder[postId] || 'desc'`. */
  function SortOf(orders: map<string, SortOrder>, postId: string): SortOrder {
    if postId in orders then orders[postId] else Desc
  }

  /** A snapshot of the eight maps. */
  datatype CacheTables = CacheTables(
    postLikeState: map<string, Engagement>,
    postCommentCountState: map<string, int>,
    postRetweetState: map<string, Engagement>,
    commentLikeState: map<string, Engagement>,
    postOwnerCache: map<string, Json>,
    postDataCache: map<string, Json>,
    commentPaginationState: map<string, PageState>,
    commentSortOrder: map<string, SortOrder>)

  function EngagementOf(t: CacheTables, kind: Kind): map<string, Engagement> {
    match kind
    case PostLike => t.postLikeState
    case CommentLike => t.commentLikeState
    case PostRetweet => t.postRetweetState
  }

  /** `t` with the map of `kind` replaced. */
  function WithEngagement(t: CacheTables, kind: Kind, m: map<string, Engagement>): (r: CacheTables)
    ensures EngagementOf(r, kind) == m
    ensures forall other :: other != kind ==> EngagementOf(r, other) == EngagementOf(t, other)
    ensures r.postCommentCountState == t.postCommentCountState && r.postOwnerCache == t.postOwnerCache
    ensures r.postDataCache == t.postDataCache && r.commentPaginationState == t.commentPaginationState
    ensures r.commentSortOrder == t.commentSortOrder
  {
    match kind
    case PostLike => t.(postLikeState := m)
    case CommentLike => t.(commentLikeState := m)
    case PostRetweet => t.(postRetweetState := m)
  }

  /** `postLikeState[id] = state` and its two siblings: the entry of `id` is replaced. */
  function StoreEngagement(t: CacheTables, kind: Kind, id: string, state: Engagement): (r: CacheTables)
    requires TablesValid(t)
    ensures TablesValid(r)
    ensures r == WithEngagement(t, kind, EngagementOf(t, kind)[id := state])
  {
    WithEngagement(t, kind, EngagementOf(t, kind)[id := state])
  }

  /** `String(post.id)` for a post `cachePostData` accepts: an object whose `id` is neither `undefined` nor `null`. */
  function PostKey(post: Json): Option<string> {
    if post.JObject? then
      var id := Find(post.members, "id");
      if Nullish(id) then None else Some(PropertyKey(id.value))
    else None
  }

  /**
   * What the cache functions keep true: counts and owners never under the
   * empty id; a remembered owner is truthy; and every cached post is an object
   * stored under its own id. That engagement is cached only for server-backed
   * ids is kept by the handlers, not by these functions (see
   * `EngagementToggle.BackedKeys`).
   */
  predicate TablesValid(t: CacheTables) {
    && "" !in t.postCommentCountState
    && "" !in t.postOwnerCache
    && (forall k :: k in t.postOwnerCache ==> Truthy(Some(t.postOwnerCache[k])))
    && (forall k :: k in t.postDataCache ==> PostKey(t.postDataCache[k]) == Some(k))
  }

  /** `rememberPostOwner(postId, ownerId)`: kept only for a non-empty post id and a truthy owner. */
  function RememberOwner(t: CacheTables, postId: string, ownerId: Option<Json>): (r: CacheTables)
    requires TablesValid(t)
    ensures TablesValid(r)
    ensures postId != "" && Truthy(ownerId) ==> r == t.(postOwnerCache := t.postOwnerCache[postId := ownerId.value])
    ensures postId == "" || !Truthy(ownerId) ==> r == t
  {
    if postId == "" || !Truthy(ownerId) then t
    else t.(postOwnerCache := t.postOwnerCache[postId := ownerId.value])
  }

  /** `cachePostData(post)`: a copy of the post under `String(post.id)`; anything else is ignored. */
  function CachePost(t: CacheTables, post: Json): (r: CacheTables)
    requires TablesValid(t)
    ensures TablesValid(r)
    ensures PostKey(post).Some? ==> r == t.(postDataCache := t.postDataCache[PostKey(post).value := post])
    ensures PostKey(post).None? ==> r == t
  {
    match PostKey(post)
    case None => t
    case Some(k) => t.(postDataCache := t.postDataCache[k := post])
  }

  /**
   * The owner `getPostOwnerId(postId)` reports: the owner written on a mounted
   * card (`domOwner`, empty when there is none), else the remembered owner, else
   * the `userId` of the cached post when it is truthy, else `null`.
   */
  function OwnerOf(t: CacheTables, postId: string, domOwner: string): (owner: Option<Json>)
    requires TablesValid(t)
    ensures owner.Some? ==> Truthy(owner)
    ensures postId == "" ==> owner.None?
  {
    if postId == "" then None
    else if domOwner != "" then Some(JString(domOwner))
    else if postId in t.postOwnerCache then Some(t.postOwnerCache[postId])
    else if postId in t.postDataCache && Truthy(Get(Some(t.postDataCache[postId]), "userId")) then
      Get(Some(t.postDataCache[postId]), "userId")
    else None
  }

  /**
   * `ensurePostData(postId)` given the answer of `fetchSinglePost`: a cached post
   * is returned without a request; otherwise a failed request fails the call and
   * changes nothing, and a fetched post is cached and its owner remembered.
   */
  function EnsurePost(t: CacheTables, postId: string, fetched: Fetch<Json>): (r: (CacheTables, Fetch<Json>))
    requires TablesValid(t)
    ensures TablesValid(r.0)
    ensures postId in t.postDataCache ==> r == (t, Ok(t.postDataCache[postId]))
    ensures postId !in t.postDataCache && fetched.Failed? ==> r == (t, Failed)
    ensures postId !in t.postDataCache && fetched.Ok? ==>
              r.1 == fetched && r.0 == RememberOwner(CachePost(t, fetched.value), postId, Get(Some(fetched.value), "userId"))
  {
    if postId in t.postDataCache then (t, Ok(t.postDataCache[postId]))
    else match fetched
      case Failed => (t, Failed)
      case Ok(data) => (RememberOwner(CachePost(t, data), postId, Get(Some(data), "userId")), Ok(data))
  }

  /** The text members `updatePostTextInDom` writes into a cached post. */
  function WithText(members: seq<Member>, newText: string): (r: seq<Member>)
    ensures Find(r, "postText") == Some(JString(newText)) && Find(r, "text") == Some(JString(newText))
    ensures forall k :: k != "postText" && k != "text" ==> Find(r, k) == Find(members, k)
  {
    Put(Put(members, "postText", JString(newText)), "text", JString(newText))
  }

  /** `updatePostTextInDom(postId, newText)` on the caches: only a post that is already cached changes. */
  function UpdateText(t: CacheTables, postId: string, newText: string): (r: CacheTables)
    requires TablesValid(t)
    ensures TablesValid(r)
    ensures r.postDataCache.Keys == t.postDataCache.Keys
    ensures r == t.(postDataCache := r.postDataCache)
    ensures forall k :: k in t.postDataCache && k != postId ==> r.postDataCache[k] == t.postDataCache[k]
    ensures postId != "" && postId in t.postDataCache ==>
              Get(Some(r.postDataCache[postId]), "text") == Some(JString(newText)) &&
              Get(Some(r.postDataCache[postId]), "postText") == Some(JString(newText)) &&
              forall k :: k != "postText" && k != "text" ==>
                Get(Some(r.postDataCache[postId]), k) == Get(Some(t.postDataCache[postId]), k)
  {
    if postId != "" && postId in t.postDataCache then
      var post := t.postDataCache[postId];
      t.(postDataCache := t.postDataCache[postId := JObject(WithText(post.members, newText))])
    else t
  }

  /** `clearPostCaches(postId)`: the post's entry leaves seven maps; `commentLikeState` is keyed by comments and stays. */
  function ClearPost(t: CacheTables, postId: string): (r: CacheTables)
    requires TablesValid(t)
    ensures TablesValid(r)
  {
    CacheTables(t.postLikeState - {postId}, t.postCommentCountState - {postId}, t.postRetweetState - {postId},
                t.commentLikeState, t.postOwnerCache - {postId}, t.postDataCache - {postId},
                t.commentPaginationState - {postId}, t.commentSortOrder - {postId})
  }

  /** `resetLikeCaches()` on these maps: five are emptied; the post data, pagination and sort order stay. */
  function ResetLikes(t: CacheTables): (r: CacheTables)
    requires TablesValid(t)
    ensures TablesValid(r)
  {
    CacheTables(map[], map[], map[], map[], map[], t.postDataCache, t.commentPaginationState, t.commentSortOrder)
  }

  /** The comment total a page or a count request reports, as `updatePostStatsDisplay` records it. */
  function RecordCount(t: CacheTables, postId: string, count: int): (r: CacheTables)
    requires TablesValid(t)
    ensures TablesValid(r)
    ensures postId == "" ==> r == t
    ensures postId != "" ==> r == t.(postCommentCountState := t.postCommentCountState[postId := count])
  {
    if postId == "" then t else t.(postCommentCountState := t.postCommentCountState[postId := count])
  }

  /** `after` has no entry for `p`, and every other key keeps its entry, value included. */
  ghost predicate ForgetsOnly<V>(before: map<string, V>, after: map<string, V>, p: string) {
    && p !in after
    && (forall k :: k != p ==> (k in after <==> k in before))
    && (forall k :: k != p && k in before ==> k in after && after[k] == before[k])
  }

  /** After `clearPostCaches(p)` nothing is known about `p`, except comment likes, and every other key keeps its entry. */
  lemma ClearPostForgetsOnlyThePost(t: CacheTables, p: string)
    requires TablesValid(t)
    ensures var r := ClearPost(t, p);
            && ForgetsOnly(t.postLikeState, r.postLikeState, p)
            && ForgetsOnly(t.postCommentCountState, r.postCommentCountState, p)
            && ForgetsOnly(t.postRetweetState, r.postRetweetState, p)
            && ForgetsOnly(t.postOwnerCache, r.postOwnerCache, p)
            && ForgetsOnly(t.postDataCache, r.postDataCache, p)
            && ForgetsOnly(t.commentPaginationState, r.commentPaginationState, p)
            && ForgetsOnly(t.commentSortOrder, r.commentSortOrder, p)
            && r.commentLikeState == t.commentLikeState
  {
  }

  /** After a clear, the owner of `p` is only what a mounted card says. */
  lemma ClearedOwnerUnknown(t: CacheTables, p: string)
    requires TablesValid(t)
    ensures OwnerOf(ClearPost(t, p), p, "") == None
  {
  }

  /** Signing out forgets likes, counts and owners but keeps post data, pagination and sort order. */
  lemma ResetKeepsSessionState(t: CacheTables)
    requires TablesValid(t)
    ensures var r := ResetLikes(t);
            && r.postLikeState == map[] && r.postCommentCountState == map[] && r.postRetweetState == map[]
            && r.commentLikeState == map[] && r.postOwnerCache == map[]
            && r.postDataCache == t.postDataCache && r.commentPaginationState == t.commentPaginationState
            && r.commentSortOrder == t.commentSortOrder
  {
  }

  /** Owners survive a reset only through the cached post data. */
  lemma ResetOwnerFromPostData(t: CacheTables, p: string)
    requires TablesValid(t) && p != ""
    ensures OwnerOf(ResetLikes(t), p, "") ==
            if p in t.postDataCache && Truthy(Get(Some(t.postDataCache[p]), "userId"))
            then Get(Some(t.postDataCache[p]), "userId") else None
  {
  }

  /** A remembered owner is what `getPostOwnerId` reports when no card says otherwise. */
  lemma RememberedOwnerReported(t: CacheTables, p: string, owner: Json)
    requires TablesValid(t) && p != "" && Truthy(Some(owner))
    ensures OwnerOf(RememberOwner(t, p, Some(owner)), p, "") == Some(owner)
  {
  }

  /** A post fetched under its own id is cached: the next `ensurePostData` makes no request, whatever it would get. */
  lemma {:induction false} EnsuredPostCached(t: CacheTables, p: string, data: Json, later: Fetch<Json>)
    requires TablesValid(t) && p !in t.postDataCache && PostKey(data) == Some(p)
    ensures var (t1, first) := EnsurePost(t, p, Ok(data));
            first == Ok(data) && EnsurePost(t1, p, later) == (t1, Ok(data))
  {
    var t1 := EnsurePost(t, p, Ok(data)).0;
    assert CachePost(t, data).postDataCache == t.postDataCache[p := data];
    assert t1.postDataCache == t.postDataCache[p := data];
  }

  /** A post whose `id` is not the requested id lands under its own id, so the requested one is fetched again next time. */
  lemma ForeignIdRefetched(t: CacheTables, p: string, data: Json)
    requires TablesValid(t) && p !in t.postDataCache && PostKey(data) != Some(p)
    ensures var t1 := EnsurePost(t, p, Ok(data)).0;
            p !in t1.postDataCache && EnsurePost(t1, p, Failed).1 == Failed
  {
  }

  /** The fetched post's truthy `userId` becomes the post's owner. */
  lemma EnsuredOwnerKnown(t: CacheTables, p: string, data: Json)
    requires TablesValid(t) && p != "" && p !in t.postDataCache && Truthy(Get(Some(data), "userId"))
    ensures OwnerOf(EnsurePost(t, p, Ok(data)).0, p, "") == Get(Some(data), "userId")
  {
  }

  /** The module-level caches of the client. */
  class PostCaches {
    var postLikeState: map<string, Engagement>
    var postCommentCountState: map<string, int>
    var postRetweetState: map<string, Engagement>
    var commentLikeState: map<string, Engagement>
    var postOwnerCache: map<string, Json>
    var postDataCache: map<string, Json>
    var commentPaginationState: map<string, PageState>
    var commentSortOrder: map<string, SortOrder>

    function Tables(): CacheTables
      reads this
    {
      CacheTables(postLikeState, postCommentCountState, postRetweetState, commentLikeState,
                  postOwnerCache, postDataCache, commentPaginationState, commentSortOrder)
    }

    predicate Valid()
      reads this
    {
      TablesValid(Tables())
    }

    constructor ()
      ensures Valid()
      ensures Tables() == CacheTables(map[], map[], map[], map[], map[], map[], map[], map[])
    {
      postLikeState := map[];
      postCommentCountState := map[];
      postRetweetState := map[];
      commentLikeState := map[];
      postOwnerCache := map[];
      postDataCache := map[];
      commentPaginationState := map[];
      commentSortOrder := map[];
    }

    /** `rememberPostOwner(postId, ownerId)`. */
    method RememberPostOwner(postId: string, ownerId: Option<Json>)
      requires Valid()
      modifies this
      ensures Valid() && Tables() == RememberOwner(old(Tables()), postId, ownerId)
    {
      if postId != "" && Truthy(ownerId) {
        postOwnerCache := postOwnerCache[postId := ownerId.value];
      }
    }

    /** `cachePostData(post)`. */
    method CachePostData(post: Json)
      requires Valid()
      modifies this
      ensures Valid() && Tables() == CachePost(old(Tables()), post)
    {
      var key := PostKey(post);
      if key.Some? {
        postDataCache := postDataCache[key.value := post];
      }
    }

    /** `getPostOwnerId(postId)`, the mounted card's owner attribute given. */
    function GetPostOwnerId(postId: string, domOwner: string): (owner: Option<Json>)
      reads this
      requires Valid()
      ensures owner.Some? ==> Truthy(owner)
      ensures postId == "" ==> owner.None?
      ensures postId != "" && domOwner != "" ==> owner == Some(JString(domOwner))
      ensures postId != "" && domOwner == "" && postId in postOwnerCache ==> owner == Some(postOwnerCache[postId])
    {
      OwnerOf(Tables(), postId, domOwner)
    }

    /** `ensurePostData(postId)`, with the answer of the request it may make given. */
    method EnsurePostData(postId: string, fetched: Fetch<Json>) returns (result: Fetch<Json>)
      requires Valid()
      modifies this
      ensures Valid() && (Tables(), result) == EnsurePost(old(Tables()), postId, fetched)
    {
      if postId in postDataCache {
        return Ok(postDataCache[postId]);
      }
      if fetched.Failed? {
        return Failed;
      }
      CachePostData(fetched.value);
      RememberPostOwner(postId, Get(Some(fetched.value), "userId"));
      result := fetched;
    }

    /** The cache half of `updatePostTextInDom(postId, newText)`. */
    method UpdatePostText(postId: string, newText: string)
      requires Valid()
      modifies this
      ensures Valid() && Tables() == UpdateText(old(Tables()), postId, newText)
    {
      if postId != "" && postId in postDataCache {
        var post := postDataCache[postId];
        postDataCache := postDataCache[postId := JObject(WithText(post.members, newText))];
      }
    }

    /** `clearPostCaches(postId)`. */
    method ClearPostCaches(postId: string)
      requires Valid()
      modifies this
      ensures Valid() && Tables() == ClearPost(old(Tables()), postId)
    {
      postDataCache := postDataCache - {postId};
      postOwnerCache := postOwnerCache - {postId};
      postLikeState := postLikeState - {postId};
      postRetweetState := postRetweetState - {postId};
      postCommentCountState := postCommentCountState - {postId};
      commentPaginationState := commentPaginationState - {postId};
      commentSortOrder := commentSortOrder - {postId};
    }

    /** `resetLikeCaches()`: five maps emptied, then `clearProfilePhotoCache()`; the result is the addresses to revoke. */
    method ResetLikeCaches(photos: PhotoLoader.PhotoCache) returns (revoked: set<string>)
      requires Valid() && photos.Valid()
      modifies this, photos
      ensures Valid() && Tables() == ResetLikes(old(Tables()))
      ensures photos.Valid() && photos.profilePhotoCache == map[]
      ensures photos.profilePhotoPending == old(photos.profilePhotoPending)
      ensures photos.requestsIssued == old(photos.requestsIssued)
      ensures revoked == set u | u in old(photos.profilePhotoCache) && old(photos.profilePhotoCache)[u].Some?
                                 && PhotoLoader.IsBlobUrl(old(photos.profilePhotoCache)[u].value) :: old(photos.profilePhotoCache)[u].value
    {
      revoked := photos.ClearProfilePhotoCache();
      postLikeState, postCommentCountState, postRetweetState, commentLikeState, postOwnerCache :=
        map[], map[], map[], map[], map[];
    }

    /** The `postCommentCountState` write of `updatePostStatsDisplay(postId, { comments: count })`. */
    method RecordCommentCount(postId: string, count: int)
      requires Valid()
      modifies this
      ensures Valid() && Tables() == RecordCount(old(Tables()), postId, count)
    {
      if postId != "" {
        postCommentCountState := postCommentCountState[postId := count];
      }
    }

    /** `postLikeState[id] = state` and its two siblings. */
    method SetEngagement(kind: Kind, id: string, state: Engagement)
      requires Valid()
      modifies this
      ensures Valid()
      ensures Tables() == StoreEngagement(old(Tables()), kind, id, state)
    {
      match kind
      case PostLike => postLikeState := postLikeState[id := state];
      case CommentLike => commentLikeState := commentLikeState[id := state];
      case PostRetweet => postRetweetState := postRetweetState[id := state];
    }
  }
}
