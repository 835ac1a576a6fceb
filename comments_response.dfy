/**
 * Shaping the answers of the comments endpoint: `fetchComments` turns either
 * a bare array (the older format) or a `{comments, total, totalPages}` envelope
 * into one page record, and `fetchCommentCountOnly` reads just the total.
 */
module CommentsResponse {
  import opened Common
  import opened Json

  /** The comments shown per page by every caller. */
  const PageSize: int := 5

  /** `Math.ceil(n / d)` for a positive divisor (Dafny's `/` rounds towards minus infinity here). */
  function CeilDiv(n: int, d: int): (q: int)
    requires d > 0
    ensures (q - 1) * d < n <= q * d
  {
    -((-n) / d)
  }

  /** A number the code compares and divides; anything that is not a number is read as 0 (falsy). */
  function NumberOrZero(v: Option<Json>): int {
    if v.Some? && v.value.JNumber? then v.value.n else 0
  }

  datatype CommentPage = CommentPage(comments: seq<Json>, total: int, totalPages: int)

  /**
   * `fetchComments(postId, page, size, sortOrder)` after a successful request,
   * given the parsed body. A `null` body makes `data.comments` throw, which the
   * callers treat like a failed request.
   */
  function NormalizeComments(data: Json, size: int): (r: Fetch<CommentPage>)
    requires size > 0
    ensures r.Failed? <==> data == JNull
    ensures forall items :: data == JArray(items) ==>
              r == Ok(CommentPage(items, |items|, CeilDiv(|items|, size)))
    ensures r.Ok? && !data.JArray? ==> r.value.totalPages != 0
    ensures forall items :: !data.JArray? && Get(Some(data), "comments") == Some(JArray(items)) ==>
              r.Ok? && r.value.comments == items
    ensures r.Ok? && !data.JArray? && !IsArray(Get(Some(data), "comments")) ==> r.value.comments == []
    ensures r.Ok? && !data.JArray? ==> r.value.total == NumberOrZero(Get(Some(data), "total"))
    ensures (r.Ok? && !data.JArray? && NumberOrZero(Get(Some(data), "totalPages")) != 0) ==>
              r.value.totalPages == NumberOrZero(Get(Some(data), "totalPages"))
    ensures (r.Ok? && !data.JArray? && NumberOrZero(Get(Some(data), "totalPages")) == 0) ==>
              r.value.totalPages == if r.value.total > 0 then CeilDiv(r.value.total, size) else 1
  {
    match data
    case JNull => Failed
    case JArray(items) => Ok(CommentPage(items, |items|, CeilDiv(|items|, size)))
    case _ =>
      var listed := Get(Some(data), "comments");
      var comments := match listed case Some(JArray(items)) => items case _ => [];
      var total := NumberOrZero(Get(Some(data), "total"));
      var pages := NumberOrZero(Get(Some(data), "totalPages"));
      Ok(CommentPage(comments, total, if pages != 0 then pages else if total > 0 then CeilDiv(total, size) else 1))
  }

  /** An envelope without `totalPages` gets just enough pages for its total, and one page when it is empty. */
  lemma EnvelopePages(members: seq<Member>, total: int, size: int)
    requires size > 0
    requires Find(members, "total") == Some(JNumber(total)) && Find(members, "totalPages") == None
    ensures var r := NormalizeComments(JObject(members), size);
            r.Ok? && r.value.total == total &&
            (total > 0 ==> (r.value.totalPages - 1) * size < total <= r.value.totalPages * size) &&
            (total <= 0 ==> r.value.totalPages == 1)
  {
  }

  /** Twenty-three comments at five per page make five pages. */
  lemma TwentyThreeComments()
    ensures NormalizeComments(JObject([Member("total", JNumber(23))]), PageSize) == Ok(CommentPage([], 23, 5))
  {
    var members := [Member("total", JNumber(23))];
    assert Find(members, "totalPages") == None;
    assert Find(members, "comments") == None;
  }

  /** A bare empty array yields zero pages, not one. */
  lemma EmptyArrayZeroPages(size: int)
    requires size > 0
    ensures NormalizeComments(JArray([]), size) == Ok(CommentPage([], 0, 0))
  {
  }

  /**
   * `fetchCommentCountOnly(postId)` after a successful request: the length of a
   * bare array, else a numeric `total`, else the length of a `comments` array, else 0.
   */
  function CommentCountOnly(data: Json): (r: Fetch<int>)
    ensures r.Failed? <==> data == JNull
    ensures forall items :: data == JArray(items) ==> r == Ok(|items|)
    ensures forall n :: Get(Some(data), "total") == Some(JNumber(n)) ==> r == Ok(n)
    ensures forall items :: (!data.JArray? && !IsNumber(Get(Some(data), "total")) &&
                             Get(Some(data), "comments") == Some(JArray(items))) ==> r == Ok(|items|)
    ensures (data != JNull && !data.JArray? && !IsNumber(Get(Some(data), "total")) &&
             !IsArray(Get(Some(data), "comments"))) ==> r == Ok(0)
  {
    match data
    case JNull => Failed
    case JArray(items) => Ok(|items|)
    case _ =>
      match (Get(Some(data), "total"), Get(Some(data), "comments"))
      case (Some(JNumber(n)), _) => Ok(n)
      case (_, Some(JArray(items))) => Ok(|items|)
      case _ => Ok(0)
  }

  /** The count-only request and the page request agree on the total for a bare array and for a non-zero numeric total. */
  lemma CountOnlyAgreesWithPage(data: Json, size: int)
    requires size > 0
    requires data.JArray? || (exists n :: n != 0 && Get(Some(data), "total") == Some(JNumber(n)))
    ensures CommentCountOnly(data).Ok? && NormalizeComments(data, size).Ok?
    ensures CommentCountOnly(data).value == NormalizeComments(data, size).value.total
  {
  }

  /** They disagree when the envelope lists comments but has no total: the page request reports 0. */
  lemma CountOnlyUsesListedComments(c: Json)
    ensures var data := JObject([Member("comments", JArray([c]))]);
            CommentCountOnly(data) == Ok(1) && NormalizeComments(data, PageSize).value.total == 0
  {
    var members := [Member("comments", JArray([c]))];
    assert Find(members, "total") == None;
    assert Find(members, "totalPages") == None;
  }
}
