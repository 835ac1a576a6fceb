/**
 * Reading a profile-picture address out of whatever the photo endpoint
 * returned (`extractProfilePictureUrl`) and the shape of an upload ticket
 * (`normalizeUploadTicket`).
 */
module ProfilePicture {
  import opened Common
  import opened Text
  import opened Json

  /** No white space at either end: what `trim()` returns. */
  predicate IsTrimmed(s: string) {
    s == [] || (!IsWhitespace(s[0]) && !IsWhitespace(s[|s| - 1]))
  }

  /** The members searched first, in this order, for a non-blank string. */
  const CandidateKeys: seq<string> := [
    "pictureFullUrl", "pictureUrl", "url", "imageUrl", "photoUrl",
    "href", "link", "signedUrl", "picture", "src"
  ]

  /** The deepest nesting level that is still searched. */
  const MaxDepth: int := 4

  /** `typeof v === 'string' && v.trim()` for a member value. */
  predicate IsUrlCandidate(v: Option<Json>) {
    v.Some? && v.value.JString? && Trim(v.value.s) != []
  }

  /** The position of the first candidate key from `i` on whose value is a non-blank string, or `|keys|` when there is none. */
  function FirstCandidate(members: seq<Member>, keys: seq<string>, i: nat): (k: nat)
    requires i <= |keys|
    ensures i <= k <= |keys|
    ensures k < |keys| ==> IsUrlCandidate(Find(members, keys[k]))
    ensures forall j :: i <= j < k ==> !IsUrlCandidate(Find(members, keys[j]))
    decreases |keys| - i
  {
    if i == |keys| || IsUrlCandidate(Find(members, keys[i])) then i
    else FirstCandidate(members, keys, i + 1)
  }

  /**
   * `extractProfilePictureUrl(payload, depth)`: `''` for a falsy payload or one
   * nested deeper than four levels; a string is trimmed; an array yields its first
   * entry that yields something; an object yields its first non-blank candidate
   * key, and otherwise its first member value that yields something.
   */
  function ExtractProfilePictureUrl(payload: Option<Json>, depth: int): (url: string)
    ensures IsTrimmed(url)
    ensures !Truthy(payload) || depth > MaxDepth ==> url == []
    ensures forall s :: payload == Some(JString(s)) && depth <= MaxDepth ==> url == Trim(s)
    ensures payload.Some? && (payload.value.JNumber? || payload.value.JBool?) ==> url == []
    decreases MaxDepth + 1 - depth, 1
  {
    if !Truthy(payload) || depth > MaxDepth then []
    else match payload.value
      case JString(s) => Trim(s)
      case JArray(items) => FirstInItems(items, depth)
      case JObject(members) =>
        var k := FirstCandidate(members, CandidateKeys, 0);
        if k < |CandidateKeys| then Trim(Find(members, CandidateKeys[k]).value.s)
        else FirstInValues(members, depth)
      case _ => []
  }

  /** The loop over the entries of an array found at `depth`. */
  function FirstInItems(items: seq<Json>, depth: int): (url: string)
    requires depth <= MaxDepth
    ensures IsTrimmed(url)
    decreases MaxDepth + 1 - depth, 0, |items|
  {
    if items == [] then []
    else
      var nested := ExtractProfilePictureUrl(Some(items[0]), depth + 1);
      if nested != [] then nested
      else
        FirstInItems(items[1..], depth)
  }

  /** The loop over `Object.values` of an object found at `depth`. */
  function FirstInValues(members: seq<Member>, depth: int): (url: string)
    requires depth <= MaxDepth
    ensures IsTrimmed(url)
    decreases MaxDepth + 1 - depth, 0, |members|
  {
    if members == [] then []
    else
      var nested := ExtractProfilePictureUrl(Some(members[0].value), depth + 1);
      if nested != [] then nested
      else
        FirstInValues(members[1..], depth)
  }

  /** An array yields what its first entry that yields anything yields (`i == |items|`: no entry does, and it yields `''`). */
  lemma {:induction false} FirstEntryWins(items: seq<Json>, depth: int, i: nat)
    requires depth <= MaxDepth && i <= |items|
    requires forall j :: 0 <= j < i ==> ExtractProfilePictureUrl(Some(items[j]), depth + 1) == []
    requires i < |items| ==> ExtractProfilePictureUrl(Some(items[i]), depth + 1) != []
    ensures FirstInItems(items, depth) == (if i < |items| then ExtractProfilePictureUrl(Some(items[i]), depth + 1) else [])
  {
    if items == [] {
    } else if i == 0 {
      var nested := ExtractProfilePictureUrl(Some(items[0]), depth + 1);
      assert nested != [];
      assert FirstInItems(items, depth) == nested;
    } else {
      var rest := items[1..];
      assert ExtractProfilePictureUrl(Some(items[0]), depth + 1) == [];
      assert FirstInItems(items, depth) == FirstInItems(rest, depth);
      assert forall j :: 0 <= j < i - 1 ==> rest[j] == items[j + 1];
      FirstEntryWins(rest, depth, i - 1);
    }
  }

  /** The same for the member values of an object without a usable candidate key. */
  lemma {:induction false} FirstValueWins(members: seq<Member>, depth: int, i: nat)
    requires depth <= MaxDepth && i <= |members|
    requires forall j :: 0 <= j < i ==> ExtractProfilePictureUrl(Some(members[j].value), depth + 1) == []
    requires i < |members| ==> ExtractProfilePictureUrl(Some(members[i].value), depth + 1) != []
    ensures FirstInValues(members, depth) == (if i < |members| then ExtractProfilePictureUrl(Some(members[i].value), depth + 1) else [])
  {
    if members == [] {
    } else if i == 0 {
      var nested := ExtractProfilePictureUrl(Some(members[0].value), depth + 1);
      assert nested != [];
      assert FirstInValues(members, depth) == nested;
    } else {
      var rest := members[1..];
      assert ExtractProfilePictureUrl(Some(members[0].value), depth + 1) == [];
      assert FirstInValues(members, depth) == FirstInValues(rest, depth);
      assert forall j :: 0 <= j < i - 1 ==> rest[j] == members[j + 1];
      FirstValueWins(rest, depth, i - 1);
    }
  }

  /** A non-blank `pictureFullUrl` wins over every other member of the object. */
  lemma FullUrlPreferred(members: seq<Member>, s: string, depth: int)
    requires 0 <= depth <= MaxDepth
    requires Find(members, "pictureFullUrl") == Some(JString(s)) && Trim(s) != []
    ensures ExtractProfilePictureUrl(Some(JObject(members)), depth) == Trim(s)
  {
    assert CandidateKeys[0] == "pictureFullUrl";
    FirstCandidateIsFirst(members, CandidateKeys, 0);
  }

  /** A candidate key is used only when every earlier candidate key is missing or blank. */
  lemma CandidateOrder(members: seq<Member>, k: nat, depth: int)
    requires 0 <= depth <= MaxDepth && k < |CandidateKeys|
    requires IsUrlCandidate(Find(members, CandidateKeys[k]))
    requires forall j :: 0 <= j < k ==> !IsUrlCandidate(Find(members, CandidateKeys[j]))
    ensures ExtractProfilePictureUrl(Some(JObject(members)), depth) == Trim(Find(members, CandidateKeys[k]).value.s)
  {
    FirstCandidateIsFirst(members, CandidateKeys, k);
  }

  lemma FirstCandidateIsFirst(members: seq<Member>, keys: seq<string>, k: nat)
    requires k < |keys| && IsUrlCandidate(Find(members, keys[k]))
    requires forall j :: 0 <= j < k ==> !IsUrlCandidate(Find(members, keys[j]))
    ensures FirstCandidate(members, keys, 0) == k
  {
  }

  function Nest(v: Json, levels: nat): Json {
    if levels == 0 then v else JArray([Nest(v, levels - 1)])
  }

  /** A one-entry array yields what its entry yields one level deeper. */
  lemma SingleEntry(inner: Json, depth: int)
    requires depth <= MaxDepth
    ensures ExtractProfilePictureUrl(Some(JArray([inner])), depth) == ExtractProfilePictureUrl(Some(inner), depth + 1)
  {
    assert FirstInItems([inner], depth) == ExtractProfilePictureUrl(Some(inner), depth + 1) by {
      assert [inner][1..] == [];
    }
  }

  /** A string wrapped in `levels` one-entry arrays is found exactly when it sits no deeper than level four. */
  lemma {:induction false} NestedStringFound(s: string, levels: nat, depth: int)
    requires s != [] && 0 <= depth
    ensures ExtractProfilePictureUrl(Some(Nest(JString(s), levels)), depth) == (if depth + levels <= MaxDepth then Trim(s) else [])
    decreases levels
  {
    var v := Nest(JString(s), levels);
    if levels == 0 {
      assert v == JString(s);
    } else if depth > MaxDepth {
      assert Truthy(Some(v));
    } else {
      var inner := Nest(JString(s), levels - 1);
      var expected := if depth + levels <= MaxDepth then Trim(s) else [];
      assert ExtractProfilePictureUrl(Some(inner), depth + 1) == expected by {
        NestedStringFound(s, levels - 1, depth + 1);
      }
      assert ExtractProfilePictureUrl(Some(v), depth) == ExtractProfilePictureUrl(Some(inner), depth + 1) by {
        assert v == JArray([inner]);
        SingleEntry(inner, depth);
      }
    }
  }

  /** The depth bound in practice: four wrapping arrays still reach the string, five do not. */
  lemma DepthBound()
    ensures ExtractProfilePictureUrl(Some(Nest(JString("u"), 4)), 0) == "u"
    ensures ExtractProfilePictureUrl(Some(Nest(JString("u"), 5)), 0) == []
  {
    NestedStringFound("u", 4, 0);
    NestedStringFound("u", 5, 0);
    TrimNoWhitespace("u");
  }

  /** What `normalizeUploadTicket` returns; `None` stands for an `undefined` property. */
  datatype UploadTicket = UploadTicket(
    uploadUrl: Option<Json>,
    httpMethod: Option<Json>,
    uploadHeaders: Option<Json>,
    pictureUrl: Option<Json>,
    pictureFullUrl: Option<Json>)

  /**
   * `normalizeUploadTicket(ticket)`: `{}` unless the ticket is an object (arrays
   * included); otherwise the first truthy of each list of alternative names,
   * with `PUT` and `{}` as the defaults of the method and the headers.
   */
  function NormalizeUploadTicket(ticket: Option<Json>): (t: UploadTicket)
    ensures !Truthy(ticket) || !(ticket.value.JObject? || ticket.value.JArray?) ==>
              t == UploadTicket(None, None, None, None, None)
    ensures Truthy(ticket) && (ticket.value.JObject? || ticket.value.JArray?) ==>
              Truthy(t.httpMethod) && Truthy(t.uploadHeaders)
    ensures Truthy(t.pictureFullUrl) ==> t.pictureUrl == t.pictureFullUrl
    ensures Truthy(t.uploadUrl) || t.uploadUrl == Get(ticket, "url")
    ensures Truthy(ticket) && (ticket.value.JObject? || ticket.value.JArray?) ==>
              && t.uploadUrl == OrChain([Get(ticket, "uploadUrl"), Get(ticket, "signedUrl"), Get(ticket, "url")])
              && t.httpMethod == OrChain([Get(ticket, "method"), Get(ticket, "httpMethod"), Some(JString("PUT"))])
              && t.uploadHeaders == OrChain([Get(ticket, "headers"), Get(ticket, "uploadHeaders"), Some(JObject([]))])
              && t.pictureFullUrl == OrChain([Get(ticket, "pictureFullUrl"), Get(ticket, "fullUrl"), Get(ticket, "originalUrl")])
              && t.pictureUrl == OrChain([Get(ticket, "pictureFullUrl"), Get(ticket, "fullUrl"), Get(ticket, "originalUrl"),
                                          Get(ticket, "pictureUrl"), Get(ticket, "photoUrl"), Get(ticket, "publicUrl"),
                                          Get(ticket, "downloadUrl")])
  {
    if !Truthy(ticket) || !(ticket.value.JObject? || ticket.value.JArray?) then
      UploadTicket(None, None, None, None, None)
    else
      var uploadUrl := OrElse(OrElse(Get(ticket, "uploadUrl"), Get(ticket, "signedUrl")), Get(ticket, "url"));
      var verb := OrElse(OrElse(Get(ticket, "method"), Get(ticket, "httpMethod")), Some(JString("PUT")));
      var headers := OrElse(OrElse(Get(ticket, "headers"), Get(ticket, "uploadHeaders")), Some(JObject([])));
      var full := OrElse(OrElse(Get(ticket, "pictureFullUrl"), Get(ticket, "fullUrl")), Get(ticket, "originalUrl"));
      var picture := OrElse(OrElse(OrElse(OrElse(full, Get(ticket, "pictureUrl")), Get(ticket, "photoUrl")),
                                   Get(ticket, "publicUrl")), Get(ticket, "downloadUrl"));
      OrChainOfThree(Get(ticket, "uploadUrl"), Get(ticket, "signedUrl"), Get(ticket, "url"));
      OrChainOfThree(Get(ticket, "method"), Get(ticket, "httpMethod"), Some(JString("PUT")));
      OrChainOfThree(Get(ticket, "headers"), Get(ticket, "uploadHeaders"), Some(JObject([])));
      PictureChain(ticket);
      UploadTicket(uploadUrl, verb, headers, picture, full)
  }

  /** The picture URL falls back from the full-size URL chain to the four plain URL keys. */
  lemma PictureChain(ticket: Option<Json>)
    ensures var full := OrElse(OrElse(Get(ticket, "pictureFullUrl"), Get(ticket, "fullUrl")), Get(ticket, "originalUrl"));
            && OrChain([Get(ticket, "pictureFullUrl"), Get(ticket, "fullUrl"), Get(ticket, "originalUrl")]) == full
            && OrChain([Get(ticket, "pictureFullUrl"), Get(ticket, "fullUrl"), Get(ticket, "originalUrl"),
                        Get(ticket, "pictureUrl"), Get(ticket, "photoUrl"), Get(ticket, "publicUrl"),
                        Get(ticket, "downloadUrl")])
               == OrElse(OrElse(OrElse(OrElse(full, Get(ticket, "pictureUrl")), Get(ticket, "photoUrl")),
                                Get(ticket, "publicUrl")), Get(ticket, "downloadUrl"))
  {
    var c3 := [Get(ticket, "pictureFullUrl"), Get(ticket, "fullUrl"), Get(ticket, "originalUrl")];
    OrChainOfThree(c3[0], c3[1], c3[2]);
    var c4 := c3 + [Get(ticket, "pictureUrl")];
    OrChainSnoc(c3, Get(ticket, "pictureUrl"));
    var c5 := c4 + [Get(ticket, "photoUrl")];
    OrChainSnoc(c4, Get(ticket, "photoUrl"));
    var c6 := c5 + [Get(ticket, "publicUrl")];
    OrChainSnoc(c5, Get(ticket, "publicUrl"));
    OrChainSnoc(c6, Get(ticket, "downloadUrl"));
    assert c6 + [Get(ticket, "downloadUrl")]
        == [Get(ticket, "pictureFullUrl"), Get(ticket, "fullUrl"), Get(ticket, "originalUrl"),
            Get(ticket, "pictureUrl"), Get(ticket, "photoUrl"), Get(ticket, "publicUrl"), Get(ticket, "downloadUrl")];
  }

  /** A ticket that names no method is uploaded with `PUT`; a named one keeps its method. */
  lemma TicketMethod(members: seq<Member>)
    ensures var t := NormalizeUploadTicket(Some(JObject(members)));
            (Truthy(Find(members, "method")) ==> t.httpMethod == Find(members, "method")) &&
            (!Truthy(Find(members, "method")) && !Truthy(Find(members, "httpMethod")) ==> t.httpMethod == Some(JString("PUT")))
  {
  }
}
