/**
 * Building what the client sends and shows for a post: the body of a post
 * update (`buildPostUpdatePayload`) and the three counters of the stats line
 * (`buildPostStats`, with `safeCount`).
 */
module PostPayload {
  import opened Common
  import opened Text
  import opened Json

  /** The value of a string of decimal digits. */
  function DecimalValue(s: string): (n: nat)
    requires forall i :: 0 <= i < |s| ==> IsAsciiDigit(s[i])
    ensures s == [] ==> n == 0
  {
    if s == [] then 0
    else
      assert IsAsciiDigit(s[|s| - 1]);
      10 * DecimalValue(s[..|s| - 1]) + (s[|s| - 1] as int - '0' as int)
  }

  /**
   * `safeCount(value)`: `Number(value)` when that is finite, else 0. Numbers are
   * integers here; a string counts when it is decimal digits with optional white
   * space around them (an all-blank string is 0, like `Number('')`).
   */
  function SafeCount(v: Option<Json>): (n: int)
    ensures forall k :: v == Some(JNumber(k)) ==> n == k
    ensures v.None? || v == Some(JNull) || v == Some(JBool(false)) ==> n == 0
    ensures v == Some(JBool(true)) ==> n == 1
    ensures v.Some? && v.value.JString? ==> n >= 0
  {
    match v
    case None => 0
    case Some(JNumber(k)) => k
    case Some(JBool(b)) => if b then 1 else 0
    case Some(JString(s)) => if AllDigits(Trim(s)) then DecimalValue(Trim(s)) else 0
    case Some(_) => 0
  }

  /** The digits `String(n)` writes are read back as `n`. */
  lemma {:induction false} DecimalOfNat(n: nat)
    ensures DecimalValue(NatToDecimal(n)) == n
    decreases n
  {
    if n >= 10 {
      DecimalOfNat(n / 10);
      var s := NatToDecimal(n);
      assert s[..|s| - 1] == NatToDecimal(n / 10);
    }
  }

  /** A counter that went through the DOM as text is the same counter. */
  lemma CountSurvivesText(n: nat)
    ensures SafeCount(Some(JString(IntToString(n)))) == n
  {
    var s := IntToString(n);
    assert s == NatToDecimal(n);
    assert Trim(s) == s by {
      assert NoWhitespace(s) by {
        forall i | 0 <= i < |s| ensures !IsWhitespace(s[i]) {
          assert IsAsciiDigit(s[i]);
        }
      }
      TrimNoWhitespace(s);
    }
    assert AllDigits(s);
    DecimalOfNat(n);
  }

  /** `Array.isArray(v) ? v.length : undefined`. */
  function ArrayLength(v: Option<Json>): (r: Option<Json>)
    ensures r.Some? <==> v.Some? && v.value.JArray?
  {
    if v.Some? && v.value.JArray? then Some(JNumber(|v.value.items|)) else None
  }

  /** `cache[key]?.count` for the count caches, as an optional JSON number. */
  function CachedCount(cache: map<string, int>, key: string): (r: Option<Json>)
    ensures r.Some? <==> key in cache
  {
    if key in cache then Some(JNumber(cache[key])) else None
  }

  /** The stats line of a post: its id and its three counters. */
  datatype PostStats = PostStats(postId: string, likes: int, comments: int, shares: int)

  /**
   * `buildPostStats(entry, overrides)` with the cached like counts, comment
   * counts and retweet counts given as maps. Each counter is the first of: the
   * override, the entry's own count, the length of the entry's array (likes and
   * comments only), the cached count, and 0.
   */
  function BuildPostStats(entry: Option<Json>, overrides: Option<Json>, likeCounts: map<string, int>,
                          commentCounts: map<string, int>, shareCounts: map<string, int>): (stats: PostStats)
    // the id: the wrapped post's (or the entry's own) `id`, then the entry's `id`, then ''
    ensures var base := OrChain([Get(entry, "post"), entry, Some(JObject([]))]);
            stats.postId == PropertyKey(CoalesceChain([Get(base, "id"), Get(entry, "id"), Some(JString(""))]).value)
    // likes: override, `likeCount`, the `likes` array, the cache, 0
    ensures !Nullish(Get(overrides, "likes")) ==> stats.likes == SafeCount(Get(overrides, "likes"))
    ensures Nullish(Get(overrides, "likes")) && !Nullish(Get(entry, "likeCount")) ==>
              stats.likes == SafeCount(Get(entry, "likeCount"))
    ensures (Nullish(Get(overrides, "likes")) && Nullish(Get(entry, "likeCount")) &&
             Get(entry, "likes").Some? && Get(entry, "likes").value.JArray?) ==>
              stats.likes == |Get(entry, "likes").value.items|
    ensures (Nullish(Get(overrides, "likes")) && Nullish(Get(entry, "likeCount")) &&
             ArrayLength(Get(entry, "likes")).None?) ==>
              stats.likes == if stats.postId in likeCounts then likeCounts[stats.postId] else 0
    // comments: override, `commentCount`, the `comments` array, the cache, 0
    ensures !Nullish(Get(overrides, "comments")) ==> stats.comments == SafeCount(Get(overrides, "comments"))
    ensures Nullish(Get(overrides, "comments")) && !Nullish(Get(entry, "commentCount")) ==>
              stats.comments == SafeCount(Get(entry, "commentCount"))
    ensures (Nullish(Get(overrides, "comments")) && Nullish(Get(entry, "commentCount")) &&
             Get(entry, "comments").Some? && Get(entry, "comments").value.JArray?) ==>
              stats.comments == |Get(entry, "comments").value.items|
    ensures (Nullish(Get(overrides, "comments")) && Nullish(Get(entry, "commentCount")) &&
             ArrayLength(Get(entry, "comments")).None?) ==>
              stats.comments == if stats.postId in commentCounts then commentCounts[stats.postId] else 0
    // shares: override, `shareCount`, the cache, 0
    ensures !Nullish(Get(overrides, "shares")) ==> stats.shares == SafeCount(Get(overrides, "shares"))
    ensures Nullish(Get(overrides, "shares")) && !Nullish(Get(entry, "shareCount")) ==>
              stats.shares == SafeCount(Get(entry, "shareCount"))
    ensures Nullish(Get(overrides, "shares")) && Nullish(Get(entry, "shareCount")) ==>
              stats.shares == if stats.postId in shareCounts then shareCounts[stats.postId] else 0
  {
    var base := OrElse(OrElse(Get(entry, "post"), entry), Some(JObject([])));
    var id := Coalesce(Coalesce(Get(base, "id"), Get(entry, "id")), Some(JString("")));
    OrChainOfThree(Get(entry, "post"), entry, Some(JObject([])));
    CoalesceChainOfThree(Get(base, "id"), Get(entry, "id"), Some(JString("")));
    var postId := PropertyKey(id.value);
    var likes := Coalesce(Coalesce(Coalesce(Coalesce(Get(overrides, "likes"), Get(entry, "likeCount")),
                          ArrayLength(Get(entry, "likes"))), CachedCount(likeCounts, postId)), Some(JNumber(0)));
    var comments := Coalesce(Coalesce(Coalesce(Coalesce(Get(overrides, "comments"), Get(entry, "commentCount")),
                             ArrayLength(Get(entry, "comments"))), CachedCount(commentCounts, postId)), Some(JNumber(0)));
    var shares := Coalesce(Coalesce(Coalesce(Get(overrides, "shares"), Get(entry, "shareCount")),
                           CachedCount(shareCounts, postId)), Some(JNumber(0)));
    PostStats(postId, SafeCount(likes), SafeCount(comments), SafeCount(shares))
  }

  /** A post that carries no counts of its own shows what the caches hold for its id. */
  lemma CachedCountsShown(id: int, likeCounts: map<string, int>, commentCounts: map<string, int>, shareCounts: map<string, int>)
    requires IntToString(id) in likeCounts && IntToString(id) in commentCounts && IntToString(id) in shareCounts
    ensures var stats := BuildPostStats(Some(JObject([Member("id", JNumber(id))])), None, likeCounts, commentCounts, shareCounts);
            stats == PostStats(IntToString(id), likeCounts[IntToString(id)], commentCounts[IntToString(id)], shareCounts[IntToString(id)])
  {
  }

  /** The server's arrays of likes and comments outrank the caches: their lengths are shown. */
  lemma ArraysOutrankCaches(id: int, likes: seq<Json>, comments: seq<Json>, likeCounts: map<string, int>,
                            commentCounts: map<string, int>, shareCounts: map<string, int>)
    ensures var entry := JObject([Member("id", JNumber(id)), Member("likes", JArray(likes)), Member("comments", JArray(comments))]);
            var stats := BuildPostStats(Some(entry), None, likeCounts, commentCounts, shareCounts);
            stats.likes == |likes| && stats.comments == |comments|
  {
    var members := [Member("id", JNumber(id)), Member("likes", JArray(likes)), Member("comments", JArray(comments))];
    assert Find(members, "likes") == Some(JArray(likes));
    assert Find(members, "comments") == Some(JArray(comments)) by {
      var tail := [Member("comments", JArray(comments))];
      assert members[1..][1..] == tail;
      assert Find(tail, "comments") == Some(JArray(comments));
      assert Find(members[1..], "comments") == Find(tail, "comments");
    }
    assert Find(members, "likeCount") == None && Find(members, "commentCount") == None;
  }

  /** What `buildPostUpdatePayload` returns; `None` stands for an `undefined` property. */
  datatype PostUpdate = PostUpdate(
    id: Option<Json>,
    userId: Option<Json>,
    category: Option<Json>,
    subcategory: Option<Json>,
    videoUrl: Option<Json>,
    postText: Option<Json>,
    facebookName: Option<Json>,
    createdAt: Option<Json>)

  /**
   * `buildPostUpdatePayload(base, overrides)`, with `getSafeUserId()`,
   * `authState?.name` and `new Date().toISOString()` given as parameters.
   * `base` and `overrides` are `None` when the caller passed nothing (the
   * defaults `{}` apply); a `null` one makes `base.id` or `overrides.postText`
   * throw a `TypeError`, which is `None` here.
   */
  function BuildPostUpdatePayload(base: Option<Json>, overrides: Option<Json>, safeUserId: Option<Json>,
                                 authName: Option<Json>, nowIso: string): (p: Option<PostUpdate>)
    ensures p.None? <==> base == Some(JNull) || overrides == Some(JNull)
    ensures p.Some? ==> p.value.id == Get(base, "id")
    ensures p.Some? && !Nullish(Get(overrides, "postText")) ==> p.value.postText == Get(overrides, "postText")
    ensures p.Some? ==> !Nullish(p.value.postText) && Truthy(p.value.createdAt) == (Truthy(Get(base, "createdAt")) || nowIso != [])
    ensures p.Some? ==> Truthy(p.value.category) || p.value.category == Some(JString(""))
    ensures p.Some? && Truthy(Get(base, "createdAt")) ==> p.value.createdAt == Get(base, "createdAt")
    ensures p.Some? && !Truthy(Get(base, "createdAt")) ==> p.value.createdAt == Some(JString(nowIso))
    ensures p.Some? && !Nullish(Get(base, "userId")) ==> p.value.userId == Get(base, "userId")
    ensures p.Some? && Nullish(Get(base, "userId")) ==> p.value.userId == safeUserId
    ensures p.Some? ==> p.value.category == (if Truthy(Get(base, "category")) then Get(base, "category") else Some(JString("")))
    ensures p.Some? ==> p.value.subcategory == (if Truthy(Get(base, "subcategory")) then Get(base, "subcategory") else Some(JString("")))
    ensures p.Some? ==> p.value.videoUrl == (if Truthy(Get(base, "videoUrl")) then Get(base, "videoUrl") else Some(JString("")))
    ensures p.Some? ==> p.value.postText == CoalesceChain([Get(overrides, "postText"), Get(base, "postText"), Get(base, "text"), Some(JString(""))])
    ensures p.Some? ==> p.value.facebookName == OrChain([Get(base, "facebookName"), Get(base, "userName"), authName, Some(JString(""))])
  {
    if base == Some(JNull) || overrides == Some(JNull) then None else
    var text := Coalesce(Coalesce(Coalesce(Get(overrides, "postText"), Get(base, "postText")), Get(base, "text")), Some(JString("")));
    CoalesceChainOfFour(Get(overrides, "postText"), Get(base, "postText"), Get(base, "text"), Some(JString("")));
    OrChainOfFour(Get(base, "facebookName"), Get(base, "userName"), authName, Some(JString("")));
    Some(PostUpdate(
      Get(base, "id"),
      Coalesce(Get(base, "userId"), safeUserId),
      OrElse(Get(base, "category"), Some(JString(""))),
      OrElse(Get(base, "subcategory"), Some(JString(""))),
      OrElse(Get(base, "videoUrl"), Some(JString(""))),
      text,
      OrElse(OrElse(OrElse(Get(base, "facebookName"), Get(base, "userName")), authName), Some(JString(""))),
      OrElse(Get(base, "createdAt"), Some(JString(nowIso)))))
  }
}
