/**
 * The like and retweet buttons: `onPostLikeClick`, `onCommentLikeClick` and
 * `onRetweetButtonClick` check that the id is server-backed and that somebody is
 * signed in, send a delete when the cached flag is set and a create otherwise,
 * then overwrite the cache with the state the server reports afterwards
 * (`refreshPostLikeButton`, `refreshCommentLikeButton`,
 * `refreshPostRetweetButton`); the button is disabled while that runs.
 * The hydration of freshly drawn buttons (`hydratePostLikeButton` and its
 * siblings) fills the same caches.
 */
module EngagementToggle {
  import opened Common
  import Identity
  import opened EngagementCache
  import PhotoLoader

  /** How a click ends: turned away by one of the gates, or with a create or a delete request. */
  datatype ToggleAction = NotAllowed | AskSignIn | NoViewer | Create | Delete

  predicate IsRequest(a: ToggleAction) {
    a == Create || a == Delete
  }

  /** `cache[id]`, absent as `None`. */
  function Cached(m: map<string, Engagement>, id: string): Option<Engagement> {
    if id in m then Some(m[id]) else None
  }

  /**
   * The gates and the choice of request. `backed` is what `canUseBackendId(id)`
   * said of the clicked id; `signedIn` is whether `authState` is set; `viewer`
   * is what `getSafeUserId()` returned (empty for `null`), which only the
   * retweet handler checks.
   */
  function ChooseAction(kind: Kind, backed: bool, signedIn: bool, viewer: string, cached: Option<Engagement>): (a: ToggleAction)
    ensures IsRequest(a) ==> backed && signedIn
    ensures a == Delete ==> cached.Some? && cached.value.active
  {
    if !backed then NotAllowed
    else if !signedIn then AskSignIn
    else if kind == PostRetweet && viewer == "" then NoViewer
    else if cached.Some? && cached.value.active then Delete
    else Create
  }

  /** A request is sent exactly when every gate lets the click through, and it is a delete exactly when the cached flag is set. */
  lemma RequestIffGatesPass(kind: Kind, backed: bool, signedIn: bool, viewer: string, cached: Option<Engagement>)
    ensures var a := ChooseAction(kind, backed, signedIn, viewer, cached);
            && (IsRequest(a) <==> backed && signedIn && (kind == PostRetweet ==> viewer != ""))
            && (a == Delete <==> IsRequest(a) && cached.Some? && cached.value.active)
  {
  }

  /**
   * How the create or delete request ended: answered with success; turned
   * down or lost; or answered 401, which `authenticatedFetch` (through which
   * the like requests go) takes for an expired session. The retweet requests
   * use plain `fetch`, so for them a 401 is just a refusal.
   */
  datatype Mutation = Done | Refused | Unauthorized

  /** The click ends the session: a like or unlike request answered 401. */
  predicate SignsOut(kind: Kind, action: ToggleAction, mutation: Mutation) {
    IsRequest(action) && mutation == Unauthorized && kind != PostRetweet
  }

  /**
   * The caches after a click: a request that ends the session empties the
   * engagement caches (`resetLikeCaches`); otherwise only a request whose
   * create or delete succeeded and whose re-fetch answered changes anything,
   * and then only the clicked entry of the clicked kind's map.
   */
  function AfterToggle(t: CacheTables, kind: Kind, id: string, action: ToggleAction, mutation: Mutation,
                       refetch: Fetch<Engagement>): (r: CacheTables)
    requires TablesValid(t)
    ensures TablesValid(r)
  {
    if SignsOut(kind, action, mutation) then ResetLikes(t)
    else if IsRequest(action) && mutation == Done && refetch.Ok? then StoreEngagement(t, kind, id, refetch.value)
    else t
  }

  /** Every key of an engagement map is a server-backed id. */
  predicate KeysBacked(m: map<string, Engagement>) {
    forall k :: k in m ==> Identity.IsServerBacked(k)
  }

  /** Engagement is cached only under server-backed ids. */
  predicate BackedKeys(t: CacheTables) {
    KeysBacked(t.postLikeState) && KeysBacked(t.commentLikeState) && KeysBacked(t.postRetweetState)
  }

  /** Storing under a server-backed id keeps the engagement keys server-backed. */
  lemma StoreKeepsKeysBacked(t: CacheTables, kind: Kind, id: string, state: Engagement)
    requires TablesValid(t) && BackedKeys(t) && Identity.IsServerBacked(id)
    ensures BackedKeys(StoreEngagement(t, kind, id, state))
  {
    var m := EngagementOf(t, kind);
    assert KeysBacked(m);
    assert KeysBacked(m[id := state]);
  }

  /**
   * A click never caches engagement under an id that is not server-backed:
   * the first gate turns such a click away. `backed` is the gate's verdict,
   * which the handlers take from `canUseBackendId(id)`.
   */
  lemma ClickKeepsKeysBacked(t: CacheTables, kind: Kind, id: string, backed: bool, signedIn: bool, viewer: string,
                             mutation: Mutation, refetch: Fetch<Engagement>)
    requires TablesValid(t) && BackedKeys(t) && (backed ==> Identity.IsServerBacked(id))
    ensures var a := ChooseAction(kind, backed, signedIn, viewer, Cached(EngagementOf(t, kind), id));
            BackedKeys(AfterToggle(t, kind, id, a, mutation, refetch))
  {
    var a := ChooseAction(kind, backed, signedIn, viewer, Cached(EngagementOf(t, kind), id));
    if SignsOut(kind, a, mutation) {
      assert AfterToggle(t, kind, id, a, mutation, refetch) == ResetLikes(t);
    } else if IsRequest(a) && mutation == Done && refetch.Ok? {
      assert backed;
      StoreKeepsKeysBacked(t, kind, id, refetch.value);
    } else {
      assert AfterToggle(t, kind, id, a, mutation, refetch) == t;
    }
  }

  /** A click turned away by a gate sends no request and leaves every cache as it was. */
  lemma GatesSendNothing(t: CacheTables, kind: Kind, id: string, backed: bool, signedIn: bool, viewer: string,
                         mutation: Mutation, refetch: Fetch<Engagement>)
    requires TablesValid(t)
    requires !backed || !signedIn
    ensures var a := ChooseAction(kind, backed, signedIn, viewer, Cached(EngagementOf(t, kind), id));
            !IsRequest(a) && AfterToggle(t, kind, id, a, mutation, refetch) == t
  {
  }

  /**
   * When the request is turned down, or it succeeds but its re-fetch fails, the
   * cache keeps its old flag, so the next click sends the same request. (A 401
   * to a like request is `ExpiredSessionResets`.)
   */
  lemma FailureLeavesCache(t: CacheTables, kind: Kind, id: string, viewer: string, mutation: Mutation,
                           refetch: Fetch<Engagement>)
    requires TablesValid(t) && viewer != ""
    requires mutation == Refused || (mutation == Done && refetch.Failed?) || (mutation == Unauthorized && kind == PostRetweet)
    ensures var a := ChooseAction(kind, true, true, viewer, Cached(EngagementOf(t, kind), id));
            var t1 := AfterToggle(t, kind, id, a, mutation, refetch);
            t1 == t && ChooseAction(kind, true, true, viewer, Cached(EngagementOf(t1, kind), id)) == a
  {
  }

  /**
   * A like or unlike request answered 401 signs the viewer out and empties the
   * engagement caches, whatever the re-fetch would have said: the next click
   * asks for a sign-in, and once signed in again every like or retweet click
   * sends a create, since no flag is cached any more.
   */
  lemma ExpiredSessionResets(t: CacheTables, kind: Kind, id: string, viewer: string, refetch: Fetch<Engagement>)
    requires TablesValid(t) && viewer != "" && kind != PostRetweet
    ensures var a := ChooseAction(kind, true, true, viewer, Cached(EngagementOf(t, kind), id));
            var t1 := AfterToggle(t, kind, id, a, Unauthorized, refetch);
            && SignsOut(kind, a, Unauthorized)
            && t1 == ResetLikes(t)
            && (forall k, x :: ChooseAction(k, true, false, viewer, Cached(EngagementOf(t1, k), x)) == AskSignIn)
            && (forall k, x :: ChooseAction(k, true, true, viewer, Cached(EngagementOf(t1, k), x)) == Create)
  {
  }

  /** A successful click stores exactly the re-fetched state for the clicked id; nothing else changes. */
  lemma SuccessStoresRefetch(t: CacheTables, kind: Kind, id: string, viewer: string, state: Engagement)
    requires TablesValid(t) && viewer != ""
    ensures var a := ChooseAction(kind, true, true, viewer, Cached(EngagementOf(t, kind), id));
            var r := AfterToggle(t, kind, id, a, Done, Ok(state));
            && EngagementOf(r, kind) == EngagementOf(t, kind)[id := state]
            && (forall other :: other != kind ==> EngagementOf(r, other) == EngagementOf(t, other))
            && r.postCommentCountState == t.postCommentCountState && r.postOwnerCache == t.postOwnerCache
            && r.postDataCache == t.postDataCache && r.commentPaginationState == t.commentPaginationState
            && r.commentSortOrder == t.commentSortOrder
  {
  }

  /**
   * The re-fetch as written: `fetchPostLikeState` and `fetchCommentLikeState`
   * call `fetchPostLikesCount` / `fetchCommentLikesCount`, which are not defined
   * (the counters are `fetchPostLikeCount` / `fetchCommentLikeCount`), so for the
   * two like kinds it always rejects; the retweet re-fetch is sound.
   */
  function RefetchAsWritten(kind: Kind, server: Fetch<Engagement>): (r: Fetch<Engagement>)
    ensures kind != PostRetweet ==> r.Failed?
    ensures kind == PostRetweet ==> r == server
  {
    if kind == PostRetweet then server else Failed
  }

  /** What a server that honours the requests reports: the new count, and the viewer's flag set exactly after a create. */
  function ServerAnswer(action: ToggleAction, count: int): Engagement {
    Engagement(count, action == Create)
  }

  /**
   * The requests sent by a series of clicks on one server-backed id by a
   * signed-in viewer, every create and delete succeeding and the server
   * reporting `counts[i]` after click `i`; `asWritten` selects the re-fetch as
   * written instead of the intended one.
   */
  function Clicks(t: CacheTables, kind: Kind, id: string, viewer: string, counts: seq<int>, asWritten: bool)
    : (actions: seq<ToggleAction>)
    requires TablesValid(t) && viewer != ""
    ensures |actions| == |counts|
    decreases |counts|
  {
    if counts == [] then []
    else
      var a := ChooseAction(kind, true, true, viewer, Cached(EngagementOf(t, kind), id));
      var answer := Ok(ServerAnswer(a, counts[0]));
      var seen := if asWritten then RefetchAsWritten(kind, answer) else answer;
      [a] + Clicks(AfterToggle(t, kind, id, a, Done, seen), kind, id, viewer, counts[1..], asWritten)
  }

  /** Whether the cache says the viewer already likes (or retweeted) `id`. */
  predicate CachedActive(t: CacheTables, kind: Kind, id: string) {
    id in EngagementOf(t, kind) && EngagementOf(t, kind)[id].active
  }

  /** As written, every click on a like button that is not cached as liked sends a create: unlike is never reached. */
  lemma {:induction false} LikeClicksAlwaysCreate(t: CacheTables, kind: Kind, id: string, viewer: string, counts: seq<int>)
    requires TablesValid(t) && viewer != ""
    requires kind != PostRetweet && !CachedActive(t, kind, id)
    ensures forall i :: 0 <= i < |counts| ==> Clicks(t, kind, id, viewer, counts, true)[i] == Create
    decreases |counts|
  {
    if counts != [] {
      var a := ChooseAction(kind, true, true, viewer, Cached(EngagementOf(t, kind), id));
      assert a == Create;
      var t1 := AfterToggle(t, kind, id, a, Done, RefetchAsWritten(kind, Ok(ServerAnswer(a, counts[0]))));
      assert t1 == t;
      LikeClicksAlwaysCreate(t, kind, id, viewer, counts[1..]);
      var rest := Clicks(t1, kind, id, viewer, counts[1..], true);
      assert Clicks(t, kind, id, viewer, counts, true) == [Create] + rest;
    }
  }

  /** One successful click with the intended re-fetch sends what the cached flag calls for and flips that flag. */
  lemma OneClickFlips(t: CacheTables, kind: Kind, id: string, viewer: string, count: int)
    requires TablesValid(t) && viewer != ""
    ensures var a := ChooseAction(kind, true, true, viewer, Cached(EngagementOf(t, kind), id));
            && a == (if CachedActive(t, kind, id) then Delete else Create)
            && CachedActive(AfterToggle(t, kind, id, a, Done, Ok(ServerAnswer(a, count))), kind, id) == !CachedActive(t, kind, id)
  {
  }

  /** With the intended re-fetch, clicks alternate between create and delete, starting from what the cache says. */
  lemma {:induction false} ClicksAlternate(t: CacheTables, kind: Kind, id: string, viewer: string, counts: seq<int>)
    requires TablesValid(t) && viewer != ""
    ensures forall i :: 0 <= i < |counts| ==>
              Clicks(t, kind, id, viewer, counts, false)[i] ==
              if (i % 2 == 0) != CachedActive(t, kind, id) then Create else Delete
    decreases |counts|
  {
    if counts != [] {
      var start := CachedActive(t, kind, id);
      var a := ChooseAction(kind, true, true, viewer, Cached(EngagementOf(t, kind), id));
      var t1 := AfterToggle(t, kind, id, a, Done, Ok(ServerAnswer(a, counts[0])));
      OneClickFlips(t, kind, id, viewer, counts[0]);
      ClicksAlternate(t1, kind, id, viewer, counts[1..]);
      var all := Clicks(t, kind, id, viewer, counts, false);
      var rest := Clicks(t1, kind, id, viewer, counts[1..], false);
      assert all == [a] + rest;
      forall i | 1 <= i < |counts|
        ensures all[i] == if (i % 2 == 0) != start then Create else Delete
      {
        assert all[i] == rest[i - 1];
      }
    }
  }

  /** The button's `disabled` flag. */
  class ToggleButton {
    var disabled: bool

    constructor ()
      ensures !disabled
    {
      disabled := false;
    }
  }

  /**
   * One click, with the outcome of the create or delete request and the state
   * the server reports afterwards given. The button is disabled for the request
   * and enabled again in `finally`; a gate returns before touching it.
   * `signedOut` says that the click cleared `authState`; the photo cache is
   * emptied with the engagement caches then.
   */
  method OnToggleClick(caches: PostCaches, photos: PhotoLoader.PhotoCache, button: ToggleButton, kind: Kind,
                       id: string, signedIn: bool, viewer: string, mutation: Mutation, refetch: Fetch<Engagement>)
    returns (action: ToggleAction, signedOut: bool)
    requires caches.Valid() && photos.Valid()
    modifies caches, photos, button
    ensures caches.Valid() && photos.Valid()
    ensures action == ChooseAction(kind, Identity.IsServerBacked(id), signedIn, viewer, Cached(EngagementOf(old(caches.Tables()), kind), id))
    ensures caches.Tables() == AfterToggle(old(caches.Tables()), kind, id, action, mutation, refetch)
    ensures signedOut == SignsOut(kind, action, mutation)
    ensures signedOut ==> photos.profilePhotoCache == map[] && photos.profilePhotoPending == old(photos.profilePhotoPending)
                          && photos.requestsIssued == old(photos.requestsIssued)
    ensures !signedOut ==> photos.Tables() == old(photos.Tables())
    ensures button.disabled == if IsRequest(action) then false else old(button.disabled)
  {
    signedOut := false;
    var backed := Identity.IsServerBacked(id);
    if !backed {
      return NotAllowed, false;
    }
    if !signedIn {
      return AskSignIn, false;
    }
    if kind == PostRetweet && viewer == "" {
      return NoViewer, false;
    }
    button.disabled := true;
    var cached := Cached(EngagementOf(caches.Tables(), kind), id);
    action := if cached.Some? && cached.value.active then Delete else Create;
    if mutation == Unauthorized && kind != PostRetweet {
      var revoked := caches.ResetLikeCaches(photos);
      signedOut := true;
    } else if mutation == Done && refetch.Ok? {
      caches.SetEngagement(kind, id, refetch.value);
    }
    button.disabled := false;
  }

  /**
   * `hydratePostLikeButton` and its siblings, `backed` being what
   * `canUseBackendId(id)` said: an id that is not server-backed shows the
   * cached state or `{ count: 0, liked: false }`; otherwise the state is
   * fetched, cached and shown, and nothing happens when the fetch fails.
   */
  function Hydrate(t: CacheTables, kind: Kind, id: string, backed: bool, fetched: Fetch<Engagement>)
    : (r: (CacheTables, Option<Engagement>))
    requires TablesValid(t)
    ensures TablesValid(r.0)
    ensures !backed ==> r.0 == t && r.1 == Some(if id in EngagementOf(t, kind) then EngagementOf(t, kind)[id] else Engagement(0, false))
    ensures backed && fetched.Failed? ==> r == (t, None)
    ensures backed && fetched.Ok? ==>
              r.1 == Some(fetched.value) && EngagementOf(r.0, kind) == EngagementOf(t, kind)[id := fetched.value]
    ensures forall other :: other != kind ==> EngagementOf(r.0, other) == EngagementOf(t, other)
    ensures && r.0.postCommentCountState == t.postCommentCountState && r.0.postOwnerCache == t.postOwnerCache
            && r.0.postDataCache == t.postDataCache && r.0.commentPaginationState == t.commentPaginationState
            && r.0.commentSortOrder == t.commentSortOrder
  {
    var m := EngagementOf(t, kind);
    if !backed then (t, Some(if id in m then m[id] else Engagement(0, false)))
    else if fetched.Ok? then (StoreEngagement(t, kind, id, fetched.value), Some(fetched.value))
    else (t, None)
  }

  /** A hydrated state decides the next click: delete exactly when the server said the viewer is already in. */
  lemma HydratedDecidesClick(t: CacheTables, kind: Kind, id: string, viewer: string, state: Engagement)
    requires TablesValid(t) && viewer != ""
    ensures var t1 := Hydrate(t, kind, id, true, Ok(state)).0;
            ChooseAction(kind, true, true, viewer, Cached(EngagementOf(t1, kind), id)) == if state.active then Delete else Create
  {
  }

  /** Hydration never caches engagement under an id that is not server-backed. */
  lemma HydrateKeepsKeysBacked(t: CacheTables, kind: Kind, id: string, backed: bool, fetched: Fetch<Engagement>)
    requires TablesValid(t) && BackedKeys(t) && (backed ==> Identity.IsServerBacked(id))
    ensures BackedKeys(Hydrate(t, kind, id, backed, fetched).0)
  {
    if backed && fetched.Ok? {
      StoreKeepsKeysBacked(t, kind, id, fetched.value);
    }
  }

  /** The hydration of one button; the result is the state applied to it. */
  method HydrateButton(caches: PostCaches, kind: Kind, id: string, fetched: Fetch<Engagement>)
    returns (shown: Option<Engagement>)
    requires caches.Valid()
    modifies caches
    ensures caches.Valid()
    ensures (caches.Tables(), shown) == Hydrate(old(caches.Tables()), kind, id, Identity.IsServerBacked(id), fetched)
  {
    var m := EngagementOf(caches.Tables(), kind);
    if !Identity.IsServerBacked(id) {
      return Some(if id in m then m[id] else Engagement(0, false));
    }
    if fetched.Failed? {
      return None;
    }
    caches.SetEngagement(kind, id, fetched.value);
    shown := Some(fetched.value);
  }
}
