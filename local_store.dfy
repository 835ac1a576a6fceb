/**
 * The posts and skills the client keeps locally (the `posts` and `skills`
 * arrays that are saved to storage): the category reordering of
 * `filterByCategory`, `syncLocalPostEdit` / `syncLocalPostDelete` after a server
 * edit or delete, and `onTip`.
 */
module LocalStore {
  import opened Common
  import opened Json

  /** A locally kept post; `id` is `None` when the object has no id (`String(undefined)`). */
  datatype LocalPost = LocalPost(id: Option<Json>, category: string, text: string, postText: string)

  /** `{ by: { name, photoUrl }, amount, note: '', at }`. */
  datatype Tip = Tip(byName: string, byPhotoUrl: string, amount: int, note: string, at: int)

  datatype Skill = Skill(id: Json, ownerName: string, tips: seq<Tip>)

  /** `String(p.id)`. */
  function IdString(id: Option<Json>): string {
    if id.Some? then PropertyKey(id.value) else "undefined"
  }

  /**
   * `posts.findIndex(p => String(p.id) === String(postId))`: the first post whose
   * id reads as `postId`, or -1.
   */
  function IndexOfPost(posts: seq<LocalPost>, postId: string): (idx: int)
    ensures -1 <= idx < |posts|
    ensures idx >= 0 ==> IdString(posts[idx].id) == postId
    ensures forall j :: 0 <= j < |posts| && (idx == -1 || j < idx) ==> IdString(posts[j].id) != postId
  {
    if posts == [] then -1
    else if IdString(posts[0].id) == postId then 0
    else
      var rest := IndexOfPost(posts[1..], postId);
      assert forall j :: 1 <= j < |posts| ==> posts[j] == posts[1..][j - 1];
      if rest == -1 then -1 else rest + 1
  }

  /** `syncLocalPostEdit(postId, newText)` on the array: the first matching post gets both text fields. */
  function EditPost(posts: seq<LocalPost>, postId: string, newText: string): (r: seq<LocalPost>)
    ensures |r| == |posts|
    ensures forall i :: 0 <= i < |posts| ==> r[i].id == posts[i].id && r[i].category == posts[i].category
    ensures forall i :: 0 <= i < |posts| && i != IndexOfPost(posts, postId) ==> r[i] == posts[i]
    ensures IndexOfPost(posts, postId) >= 0 ==>
              var i := IndexOfPost(posts, postId); r[i].text == newText && r[i].postText == newText
  {
    var i := IndexOfPost(posts, postId);
    if i == -1 then posts else posts[i := posts[i].(text := newText, postText := newText)]
  }

  /** `syncLocalPostDelete(postId)` on the array: `splice(idx, 1)` of the first matching post. */
  function DeletePost(posts: seq<LocalPost>, postId: string): (r: seq<LocalPost>)
    ensures IndexOfPost(posts, postId) == -1 ==> r == posts
    ensures IndexOfPost(posts, postId) >= 0 ==>
              var i := IndexOfPost(posts, postId);
              |r| == |posts| - 1 && multiset(r) + multiset{posts[i]} == multiset(posts)
              && (forall j :: 0 <= j < i ==> r[j] == posts[j])
              && (forall j :: i <= j < |r| ==> r[j] == posts[j + 1])
  {
    var i := IndexOfPost(posts, postId);
    if i == -1 then posts
    else
      assert posts == posts[..i] + [posts[i]] + posts[i + 1..];
      posts[..i] + posts[i + 1..]
  }

  /** Only the first post with the id goes: a duplicate behind it is what the next lookup finds. */
  lemma DeleteRemovesFirstOnly(a: LocalPost, b: LocalPost, rest: seq<LocalPost>, postId: string)
    requires IdString(a.id) == postId && IdString(b.id) == postId
    ensures DeletePost([a, b] + rest, postId) == [b] + rest
    ensures IndexOfPost(DeletePost([a, b] + rest, postId), postId) == 0
  {
    assert ([a, b] + rest)[1..] == [b] + rest;
  }

  /** A number id and its decimal text name the same post: `String(7) === String('7')`. */
  lemma NumericIdMatchesText(p: LocalPost, n: nat)
    requires p.id == Some(JNumber(n))
    ensures IndexOfPost([p], PropertyKey(JNumber(n))) == 0
  {
  }

  /** The posts of category `key`, in their order: the reference for the reordering. */
  function Matching(posts: seq<LocalPost>, key: string): (r: seq<LocalPost>)
    ensures forall i :: 0 <= i < |r| ==> r[i].category == key
  {
    if posts == [] then []
    else (if posts[0].category == key then [posts[0]] else []) + Matching(posts[1..], key)
  }

  /** The other posts, in their order. */
  function Others(posts: seq<LocalPost>, key: string): (r: seq<LocalPost>)
    ensures forall i :: 0 <= i < |r| ==> r[i].category != key
  {
    if posts == [] then []
    else (if posts[0].category != key then [posts[0]] else []) + Others(posts[1..], key)
  }

  /**
   * The `reduce` of `filterByCategory`: the posts are visited in order and each
   * is pushed onto the end of the matching or the other array.
   */
  function Partition(posts: seq<LocalPost>, key: string): (r: (seq<LocalPost>, seq<LocalPost>))
    ensures |r.0| + |r.1| == |posts|
    ensures forall i :: 0 <= i < |r.0| ==> r.0[i].category == key
    ensures forall i :: 0 <= i < |r.1| ==> r.1[i].category != key
    decreases |posts|
  {
    if posts == [] then ([], [])
    else
      var acc := Partition(posts[..|posts| - 1], key);
      var p := posts[|posts| - 1];
      if p.category == key then (acc.0 + [p], acc.1) else (acc.0, acc.1 + [p])
  }

  /** `[...match, ...rest]`: the order `filterByCategory` renders. */
  function CategoryFirst(posts: seq<LocalPost>, key: string): (r: seq<LocalPost>)
    ensures |r| == |posts|
    ensures forall i, j :: 0 <= i < j < |r| && r[j].category == key ==> r[i].category == key
  {
    Partition(posts, key).0 + Partition(posts, key).1
  }

  lemma {:induction false} MatchingAppend(posts: seq<LocalPost>, p: LocalPost, key: string)
    ensures Matching(posts + [p], key) == Matching(posts, key) + (if p.category == key then [p] else [])
    ensures Others(posts + [p], key) == Others(posts, key) + (if p.category != key then [p] else [])
    decreases |posts|
  {
    if posts == [] {
      assert [] + [p] == [p];
    } else {
      assert (posts + [p])[1..] == posts[1..] + [p];
      MatchingAppend(posts[1..], p, key);
    }
  }

  /** The fold builds exactly the matching and the other posts, each in the original order. */
  lemma {:induction false} PartitionIsStable(posts: seq<LocalPost>, key: string)
    ensures Partition(posts, key) == (Matching(posts, key), Others(posts, key))
    decreases |posts|
  {
    if posts != [] {
      var init := posts[..|posts| - 1];
      var p := posts[|posts| - 1];
      PartitionIsStable(init, key);
      assert init + [p] == posts;
      MatchingAppend(init, p, key);
      var acc := Partition(init, key);
      assert Partition(posts, key) == if p.category == key then (acc.0 + [p], acc.1) else (acc.0, acc.1 + [p]);
      if p.category == key {
        assert Others(init, key) + [] == Others(init, key);
      } else {
        assert Matching(init, key) + [] == Matching(init, key);
      }
    }
  }

  lemma {:induction false} SplitIsPermutation(posts: seq<LocalPost>, key: string)
    ensures multiset(Matching(posts, key)) + multiset(Others(posts, key)) == multiset(posts)
  {
    if posts != [] {
      SplitIsPermutation(posts[1..], key);
      assert posts == [posts[0]] + posts[1..];
    }
  }

  /**
   * The reordering puts every post of the category first and every other post
   * after them, keeps the order within each group, and loses or adds nothing.
   */
  lemma CategoryFirstIsStablePartition(posts: seq<LocalPost>, key: string)
    ensures CategoryFirst(posts, key) == Matching(posts, key) + Others(posts, key)
    ensures multiset(CategoryFirst(posts, key)) == multiset(posts)
    ensures forall i, j :: 0 <= i < j < |CategoryFirst(posts, key)| && CategoryFirst(posts, key)[j].category == key
              ==> CategoryFirst(posts, key)[i].category == key
  {
    PartitionIsStable(posts, key);
    SplitIsPermutation(posts, key);
    var m := Matching(posts, key);
    var r := CategoryFirst(posts, key);
    forall i, j | 0 <= i < j < |r| && r[j].category == key
      ensures r[i].category == key
    {
      assert j < |m|;
      assert r[i] == m[i];
    }
  }

  /** How `onTip` ends. */
  datatype TipOutcome = AskSignIn | InvalidAmount | UnknownSkill | Tipped(skillIndex: nat)

  /** `skills.findIndex(s => s.id === skillId)`, strict equality: a number id never equals a string id. */
  function IndexOfSkill(skills: seq<Skill>, skillId: Json): (idx: int)
    ensures -1 <= idx < |skills|
    ensures idx >= 0 ==> skills[idx].id == skillId
    ensures forall j :: 0 <= j < |skills| && (idx == -1 || j < idx) ==> skills[j].id != skillId
  {
    if skills == [] then -1
    else if skills[0].id == skillId then 0
    else
      var rest := IndexOfSkill(skills[1..], skillId);
      assert forall j :: 1 <= j < |skills| ==> skills[j] == skills[1..][j - 1];
      if rest == -1 then -1 else rest + 1
  }

  /** The array the client saves to storage. */
  class LocalStore {
    var posts: seq<LocalPost>
    var skills: seq<Skill>

    constructor (posts: seq<LocalPost>, skills: seq<Skill>)
      ensures this.posts == posts && this.skills == skills
    {
      this.posts := posts;
      this.skills := skills;
    }

    /** The `findIndex` over `posts`. */
    method FindPostIndex(postId: string) returns (idx: int)
      ensures idx == IndexOfPost(posts, postId)
    {
      var i := 0;
      while i < |posts|
        invariant 0 <= i <= |posts|
        invariant forall j :: 0 <= j < i ==> IdString(posts[j].id) != postId
      {
        if IdString(posts[i].id) == postId {
          FirstMatchIsIndex(posts, postId, i);
          return i;
        }
        i := i + 1;
      }
      NoMatchIsMinusOne(posts, postId);
      idx := -1;
    }

    /** `syncLocalPostEdit(postId, newText)`. */
    method SyncLocalPostEdit(postId: string, newText: string)
      modifies this
      ensures posts == EditPost(old(posts), postId, newText) && skills == old(skills)
    {
      var idx := FindPostIndex(postId);
      if idx != -1 {
        posts := posts[idx := posts[idx].(text := newText, postText := newText)];
      }
    }

    /** `syncLocalPostDelete(postId)`. */
    method SyncLocalPostDelete(postId: string)
      modifies this
      ensures posts == DeletePost(old(posts), postId) && skills == old(skills)
    {
      var idx := FindPostIndex(postId);
      if idx != -1 {
        posts := posts[..idx] + posts[idx + 1..];
      }
    }

    /**
     * `onTip(skillId, amount)` with the signed-in user's name and photo and the
     * time given: a tip is appended to the first skill with that id.
     */
    method OnTip(skillId: Json, amount: int, signedIn: bool, name: string, photoUrl: string, now: int)
      returns (outcome: TipOutcome)
      modifies this
      ensures posts == old(posts) && |skills| == |old(skills)|
      ensures !signedIn ==> outcome == AskSignIn
      ensures signedIn && amount <= 0 ==> outcome == InvalidAmount
      ensures signedIn && amount > 0 && IndexOfSkill(old(skills), skillId) == -1 ==> outcome == UnknownSkill
      ensures signedIn && amount > 0 && IndexOfSkill(old(skills), skillId) >= 0 ==>
                outcome == Tipped(IndexOfSkill(old(skills), skillId))
      ensures outcome.Tipped? ==>
                var i := outcome.skillIndex;
                skills == old(skills)[i := old(skills)[i].(tips := old(skills)[i].tips + [Tip(name, photoUrl, amount, "", now)])]
      ensures !outcome.Tipped? ==> skills == old(skills)
    {
      if !signedIn {
        return AskSignIn;
      }
      if amount <= 0 {
        return InvalidAmount;
      }
      var idx := IndexOfSkill(skills, skillId);
      if idx == -1 {
        return UnknownSkill;
      }
      var skill := skills[idx];
      skills := skills[idx := skill.(tips := skill.tips + [Tip(name, photoUrl, amount, "", now)])];
      outcome := Tipped(idx);
    }
  }

  lemma FirstMatchIsIndex(posts: seq<LocalPost>, postId: string, i: nat)
    requires i < |posts| && IdString(posts[i].id) == postId
    requires forall j :: 0 <= j < i ==> IdString(posts[j].id) != postId
    ensures IndexOfPost(posts, postId) == i
  {
  }

  lemma NoMatchIsMinusOne(posts: seq<LocalPost>, postId: string)
    requires forall j :: 0 <= j < |posts| ==> IdString(posts[j].id) != postId
    ensures IndexOfPost(posts, postId) == -1
  {
  }
}
