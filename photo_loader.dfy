/**
 * The profile-photo loader: `ensureProfilePhoto` starts at most one request per
 * user and shares it with every caller until it settles; `profilePhotoCache`
 * keeps the outcome, `null` meaning "this user has no photo". Invalidation,
 * the avatar hydration loop and the cache update after an upload sit on top.
 */
module PhotoLoader {
  import opened Common
  import opened Text
  import opened Json
  import ProfilePicture

  /** Both tables of the loader and the number of requests started so far (the tickets are their order). */
  datatype PhotoTables = PhotoTables(resolved: map<string, Option<string>>, pending: map<string, nat>, issued: nat)

  /**
   * What the loader keeps true: no entry for the empty id (callers return first),
   * a resolved address is never blank, and every pending request has a ticket
   * below the number of requests issued.
   */
  predicate TablesValid(t: PhotoTables) {
    && "" !in t.resolved && "" !in t.pending
    && (forall u :: u in t.resolved ==> t.resolved[u] != Some(""))
    && (forall u :: u in t.pending ==> t.pending[u] < t.issued)
  }

  /** What a call of `ensureProfilePhoto(userId)` hands back. */
  datatype PhotoRequest =
    | NoUser                     // falsy id: `null` at once
    | Resolved(url: Option<string>)  // the cached outcome, `null` included, without a request
    | Joined(ticket: nat)        // the promise of the request already in flight
    | Started(ticket: nat)       // a new request

  /** `ensureProfilePhoto(userId)` up to the point where it returns its promise. */
  function Ensure(t: PhotoTables, userId: string): (r: (PhotoTables, PhotoRequest))
    requires TablesValid(t)
    ensures TablesValid(r.0)
    ensures r.1.Started? <==> userId != "" && userId !in t.resolved && userId !in t.pending
    ensures !r.1.Started? ==> r.0 == t
    ensures r.1.Started? ==> r.0.resolved == t.resolved && r.0.pending == t.pending[userId := r.1.ticket]
                             && r.0.issued == t.issued + 1 && forall u :: u in t.pending ==> t.pending[u] != r.1.ticket
  {
    if userId == "" then (t, NoUser)
    else if userId in t.resolved then (t, Resolved(t.resolved[userId]))
    else if userId in t.pending then (t, Joined(t.pending[userId]))
    else (PhotoTables(t.resolved, t.pending[userId := t.issued], t.issued + 1), Started(t.issued))
  }

  /** The cached outcome of one photo request: the address found in the answer, or `null`. */
  function PhotoUrlOf(response: Fetch<Option<Json>>): (url: Option<string>)
    ensures url != Some("")
    ensures response.Failed? ==> url.None?
  {
    match response
    case Failed => None
    case Ok(body) =>
      var found := ProfilePicture.ExtractProfilePictureUrl(body, 0);
      if found != [] then Some(found) else None
  }

  /** The request of `userId` settles: its outcome is cached and its pending entry goes, on every path. */
  function Complete(t: PhotoTables, userId: string, response: Fetch<Option<Json>>): (r: PhotoTables)
    requires TablesValid(t) && userId in t.pending
    ensures TablesValid(r)
    ensures userId !in r.pending && userId in r.resolved && r.resolved[userId] == PhotoUrlOf(response)
    ensures forall u :: u != userId ==> (u in r.pending <==> u in t.pending) && (u in r.resolved <==> u in t.resolved)
  {
    PhotoTables(t.resolved[userId := PhotoUrlOf(response)], t.pending - {userId}, t.issued)
  }

  /** `existing.startsWith('blob:')`: an object URL the page made itself and must revoke. */
  predicate IsBlobUrl(u: string) {
    |u| >= 5 && u[0] == 'b' && u[1] == 'l' && u[2] == 'o' && u[3] == 'b' && u[4] == ':'
  }

  /** `invalidateProfilePhoto(userId)`: the entry goes; a `blob:` address is handed back to be revoked. */
  function Invalidate(t: PhotoTables, userId: string): (r: (PhotoTables, Option<string>))
    requires TablesValid(t)
    ensures TablesValid(r.0)
    ensures userId == "" ==> r.0 == t
    ensures userId !in r.0.resolved && r.0.pending == t.pending && r.0.issued == t.issued
    ensures forall u :: u != userId && u in t.resolved ==> u in r.0.resolved && r.0.resolved[u] == t.resolved[u]
    ensures r.1.Some? <==> userId in t.resolved && t.resolved[userId].Some? && IsBlobUrl(t.resolved[userId].value)
  {
    if userId == "" then (t, None)
    else
      var revoked := if userId in t.resolved && t.resolved[userId].Some? && IsBlobUrl(t.resolved[userId].value)
                     then t.resolved[userId] else None;
      (PhotoTables(t.resolved - {userId}, t.pending, t.issued), revoked)
  }

  /** A cached outcome, `null` included, is returned without a request. */
  lemma CachedOutcomeNoRequest(t: PhotoTables, userId: string)
    requires TablesValid(t) && userId != "" && userId in t.resolved
    ensures Ensure(t, userId) == (t, Resolved(t.resolved[userId]))
  {
  }

  /** A second call while a request is in flight joins it: same ticket, no new request. */
  lemma SecondCallJoins(t: PhotoTables, userId: string)
    requires TablesValid(t) && userId != "" && userId !in t.resolved && userId !in t.pending
    ensures var (t1, first) := Ensure(t, userId);
            var (t2, second) := Ensure(t1, userId);
            first.Started? && second == Joined(first.ticket) && t2 == t1
  {
  }

  /** After the request settles, the next call gets the cached outcome and starts nothing. */
  lemma {:induction false} SettledThenCached(t: PhotoTables, userId: string, response: Fetch<Option<Json>>)
    requires TablesValid(t) && userId != "" && userId !in t.resolved && userId !in t.pending
    ensures var (t1, first) := Ensure(t, userId);
            var t2 := Complete(t1, userId, response);
            Ensure(t2, userId) == (t2, Resolved(PhotoUrlOf(response)))
  {
    var (t1, first) := Ensure(t, userId);
    var t2 := Complete(t1, userId, response);
    assert userId in t2.resolved && t2.resolved[userId] == PhotoUrlOf(response);
  }

  /** After an invalidation the next call asks the server again, unless a request is still in flight. */
  lemma InvalidatedRefetched(t: PhotoTables, userId: string)
    requires TablesValid(t) && userId != "" && userId !in t.pending
    ensures Ensure(Invalidate(t, userId).0, userId).1 == Started(t.issued)
  {
  }

  /** A failed request is cached as "no photo", so it is not retried until the cache is invalidated. */
  lemma FailureCachedAsNoPhoto(t: PhotoTables, userId: string)
    requires TablesValid(t) && userId in t.pending
    ensures Ensure(Complete(t, userId, Failed), userId).1 == Resolved(None)
  {
  }

  /**
   * The address `uploadProfilePhoto` reports: `pictureFullUrl || pictureUrl`,
   * when it is a string; empty stands for `null`.
   */
  function UploadedPhotoUrl(ticket: ProfilePicture.UploadTicket): (url: string)
    ensures url != [] ==> OrElse(ticket.pictureFullUrl, ticket.pictureUrl) == Some(JString(url))
    ensures var v := OrElse(ticket.pictureFullUrl, ticket.pictureUrl);
            v.Some? && v.value.JString? ==> url == v.value.s
    ensures !Truthy(OrElse(ticket.pictureFullUrl, ticket.pictureUrl)) ==> url == []
  {
    var v := OrElse(ticket.pictureFullUrl, ticket.pictureUrl);
    if v.Some? && v.value.JString? then v.value.s else []
  }

  /** An `<img data-user-avatar>` element and the data attributes the hydration reads and writes. */
  class AvatarImage {
    const userId: string    // data-user-avatar
    const fallback: string  // data-avatar-fallback
    var src: string
    var loading: bool     // data-avatar-loading === 'true'

    constructor (userId: string, fallback: string, src: string)
      ensures this.userId == userId && this.fallback == fallback && this.src == src && !loading
    {
      this.userId := userId;
      this.fallback := fallback;
      this.src := src;
      loading := false;
    }

    /** The `.then` / `.finally` of the photo promise: show the photo or the fallback, and clear the flag. */
    method Settle(url: Option<string>)
      modifies this
      ensures !loading
      ensures src == (if url.Some? && url.value != [] then url.value else if fallback != [] then fallback else old(src))
    {
      if url.Some? && url.value != [] {
        src := url.value;
      } else if fallback != [] {
        src := fallback;
      }
      loading := false;
    }
  }

  /** The source of an image whose user's outcome is already cached. */
  function CachedSource(cached: Option<string>, fallback: string, src: string): string {
    if cached.Some? then cached.value else if fallback != [] then fallback else src
  }

  /**
   * The state one image is left in by the hydration: untouched without an id;
   * showing the cached outcome when there is one; otherwise flagged as loading
   * with a request pending for its user, unless it was already flagged.
   */
  predicate Hydrated(id: string, fallback: string, src: string, loading: bool, oldSrc: string, oldLoading: bool,
                     cache: map<string, Option<string>>, pending: map<string, nat>) {
    if id == "" then src == oldSrc && loading == oldLoading
    else if id in cache then src == CachedSource(cache[id], fallback, oldSrc) && loading == oldLoading
    else src == oldSrc && loading && (!oldLoading ==> id in pending)
  }

  /** The users the images stand for. */
  function UserIds(images: seq<AvatarImage>): (ids: set<string>)
    ensures forall i :: 0 <= i < |images| ==> images[i].userId in ids
  {
    if images == [] then {} else UserIds(images[..|images| - 1]) + {images[|images| - 1].userId}
  }

  /** A hydrated image stays hydrated while requests are only added. */
  lemma HydratedAsPendingGrows(id: string, fallback: string, src: string, loading: bool, oldSrc: string, oldLoading: bool,
                               cache: map<string, Option<string>>, pending: map<string, nat>, pending': map<string, nat>)
    requires Hydrated(id, fallback, src, loading, oldSrc, oldLoading, cache, pending)
    requires pending.Keys <= pending'.Keys
    ensures Hydrated(id, fallback, src, loading, oldSrc, oldLoading, cache, pending')
  {
  }

  /** The module-level `profilePhotoCache` and `profilePhotoPending` of the client. */
  class PhotoCache {
    var profilePhotoCache: map<string, Option<string>>
    var profilePhotoPending: map<string, nat>
    var requestsIssued: nat

    function Tables(): PhotoTables
      reads this
    {
      PhotoTables(profilePhotoCache, profilePhotoPending, requestsIssued)
    }

    predicate Valid()
      reads this
    {
      TablesValid(Tables())
    }

    constructor ()
      ensures Valid() && Tables() == PhotoTables(map[], map[], 0)
    {
      profilePhotoCache := map[];
      profilePhotoPending := map[];
      requestsIssued := 0;
    }

    /** `ensureProfilePhoto(userId)`. */
    method EnsureProfilePhoto(userId: string) returns (outcome: PhotoRequest)
      requires Valid()
      modifies this
      ensures Valid()
      ensures (Tables(), outcome) == Ensure(old(Tables()), userId)
    {
      if userId == "" {
        outcome := NoUser;
      } else if userId in profilePhotoCache {
        outcome := Resolved(profilePhotoCache[userId]);
      } else if userId in profilePhotoPending {
        outcome := Joined(profilePhotoPending[userId]);
      } else {
        profilePhotoPending := profilePhotoPending[userId := requestsIssued];
        outcome := Started(requestsIssued);
        requestsIssued := requestsIssued + 1;
      }
    }

    /** The body of the request promise once the answer (or the failure) is known. */
    method CompleteProfilePhoto(userId: string, response: Fetch<Option<Json>>) returns (url: Option<string>)
      requires Valid() && userId in profilePhotoPending
      modifies this
      ensures Valid()
      ensures Tables() == Complete(old(Tables()), userId, response) && url == PhotoUrlOf(response)
    {
      url := PhotoUrlOf(response);
      profilePhotoCache := profilePhotoCache[userId := url];
      profilePhotoPending := profilePhotoPending - {userId};
    }

    /** `invalidateProfilePhoto(userId)`; the result is the address to pass to `URL.revokeObjectURL`. */
    method InvalidateProfilePhoto(userId: string) returns (revoked: Option<string>)
      requires Valid()
      modifies this
      ensures Valid()
      ensures (Tables(), revoked) == Invalidate(old(Tables()), userId)
    {
      revoked := None;
      if userId != "" {
        if userId in profilePhotoCache && profilePhotoCache[userId].Some? && IsBlobUrl(profilePhotoCache[userId].value) {
          revoked := profilePhotoCache[userId];
        }
        profilePhotoCache := profilePhotoCache - {userId};
      }
    }

    /** `clearProfilePhotoCache()`: invalidates every cached id; requests in flight stay pending. */
    method ClearProfilePhotoCache() returns (revoked: set<string>)
      requires Valid()
      modifies this
      ensures Valid()
      ensures profilePhotoCache == map[] && profilePhotoPending == old(profilePhotoPending)
      ensures requestsIssued == old(requestsIssued)
      ensures revoked == set u | u in old(profilePhotoCache) && old(profilePhotoCache)[u].Some?
                                 && IsBlobUrl(old(profilePhotoCache)[u].value) :: old(profilePhotoCache)[u].value
    {
      ghost var start := profilePhotoCache;
      var ids := profilePhotoCache.Keys;
      revoked := {};
      while ids != {}
        invariant Valid() && ids <= start.Keys
        invariant profilePhotoCache == map u | u in ids :: start[u]
        invariant profilePhotoPending == old(profilePhotoPending) && requestsIssued == old(requestsIssued)
        invariant revoked == set u | u in start && u !in ids && start[u].Some? && IsBlobUrl(start[u].value) :: start[u].value
        decreases |ids|
      {
        var id :| id in ids;
        var r := InvalidateProfilePhoto(id);
        if r.Some? {
          revoked := revoked + {r.value};
        }
        ids := ids - {id};
      }
    }

    /**
     * After a successful upload, with the upload ticket's fields given: the
     * reported address is cached, or the entry is invalidated when there is none.
     */
    method PhotoUploaded(userId: string, ticket: ProfilePicture.UploadTicket) returns (revoked: Option<string>)
      requires Valid()
      modifies this
      ensures Valid()
      ensures userId == "" ==> Tables() == old(Tables()) && revoked.None?
      ensures userId != "" && UploadedPhotoUrl(ticket) != [] ==>
                Tables() == old(Tables()).(resolved := old(profilePhotoCache)[userId := Some(UploadedPhotoUrl(ticket))])
                && revoked.None?
      ensures userId != "" && UploadedPhotoUrl(ticket) == [] ==> (Tables(), revoked) == Invalidate(old(Tables()), userId)
    {
      var newPhotoUrl := UploadedPhotoUrl(ticket);
      revoked := None;
      if userId != "" {
        if newPhotoUrl != [] {
          profilePhotoCache := profilePhotoCache[userId := Some(newPhotoUrl)];
        } else {
          revoked := InvalidateProfilePhoto(userId);
        }
      }
    }

    /** One image of `hydrateUserAvatars`. */
    method HydrateAvatar(img: AvatarImage)
      requires Valid()
      modifies this, img
      ensures Valid() && profilePhotoCache == old(profilePhotoCache) && requestsIssued >= old(requestsIssued)
      ensures forall u :: u in old(profilePhotoPending) ==> u in profilePhotoPending && profilePhotoPending[u] == old(profilePhotoPending)[u]
      ensures forall u :: u in profilePhotoPending && u !in old(profilePhotoPending) ==> u == img.userId && img.loading && !old(img.loading)
      ensures Hydrated(img.userId, img.fallback, img.src, img.loading, old(img.src), old(img.loading), profilePhotoCache, profilePhotoPending)
    {
      var id := img.userId;
      if id != "" {
        if id in profilePhotoCache {
          img.src := CachedSource(profilePhotoCache[id], img.fallback, img.src);
        } else if !img.loading {
          img.loading := true;
          var _ := EnsureProfilePhoto(id);
        }
      }
    }

    /**
     * `hydrateUserAvatars(root)` over the images found under `root`: a cached
     * outcome is shown at once; otherwise an image that is not already loading
     * is flagged and a photo request is started or joined.
     */
    method HydrateUserAvatars(images: seq<AvatarImage>)
      requires Valid()
      requires forall i, j :: 0 <= i < j < |images| ==> images[i] != images[j]
      modifies this, images
      ensures Valid()
      ensures profilePhotoCache == old(profilePhotoCache) && requestsIssued >= old(requestsIssued)
      ensures forall u :: u in old(profilePhotoPending) ==> u in profilePhotoPending && profilePhotoPending[u] == old(profilePhotoPending)[u]
      ensures profilePhotoPending.Keys <= old(profilePhotoPending).Keys + UserIds(images)
      ensures forall i :: 0 <= i < |images| ==>
                Hydrated(images[i].userId, images[i].fallback, images[i].src, images[i].loading,
                         old(images[i].src), old(images[i].loading), profilePhotoCache, profilePhotoPending)
    {
      var k := 0;
      while k < |images|
        invariant 0 <= k <= |images| && Valid()
        invariant profilePhotoCache == old(profilePhotoCache) && requestsIssued >= old(requestsIssued)
        invariant forall u :: u in old(profilePhotoPending) ==> u in profilePhotoPending && profilePhotoPending[u] == old(profilePhotoPending)[u]
        invariant profilePhotoPending.Keys <= old(profilePhotoPending).Keys + UserIds(images[..k])
        invariant forall i :: k <= i < |images| ==> images[i].src == old(images[i].src) && images[i].loading == old(images[i].loading)
        invariant forall i :: 0 <= i < k ==>
                    Hydrated(images[i].userId, images[i].fallback, images[i].src, images[i].loading,
                             old(images[i].src), old(images[i].loading), profilePhotoCache, profilePhotoPending)
      {
        var img := images[k];
        assert forall i :: 0 <= i < |images| && i != k ==> images[i] != img;
        ghost var pendingBefore := profilePhotoPending;
        HydrateAvatar(img);
        forall i | 0 <= i < k
          ensures Hydrated(images[i].userId, images[i].fallback, images[i].src, images[i].loading,
                           old(images[i].src), old(images[i].loading), profilePhotoCache, profilePhotoPending)
        {
          HydratedAsPendingGrows(images[i].userId, images[i].fallback, images[i].src, images[i].loading,
                                 old(images[i].src), old(images[i].loading), profilePhotoCache, pendingBefore, profilePhotoPending);
        }
        assert images[..k + 1][..k] == images[..k];
        k := k + 1;
      }
      assert images[..k] == images;
    }
  }
}
