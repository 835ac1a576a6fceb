/**
 * Parsed server payloads. Numbers are integers; object members keep the order
 * in which the server sent them.
 */
module Json {
  import opened Common
  import Text

  datatype Json =
    | JNull
    | JBool(b: bool)
    | JNumber(n: int)
    | JString(s: string)
    | JArray(items: seq<Json>)
    | JObject(members: seq<Member>)

  datatype Member = Member(key: string, value: Json)

  /** JavaScript truthiness of a value that may be `undefined` (`None`). */
  predicate Truthy(v: Option<Json>)
    ensures Truthy(v) ==> !Nullish(v)
  {
    match v
    case None => false
    case Some(JNull) => false
    case Some(JBool(b)) => b
    case Some(JNumber(n)) => n != 0
    case Some(JString(s)) => s != ""
    case Some(_) => true
  }

  /** True of `undefined` and `null`, the values `??` skips. */
  predicate Nullish(v: Option<Json>) {
    v == None || v == Some(JNull)
  }

  /** `a || b`. */
  function OrElse(a: Option<Json>, b: Option<Json>): (r: Option<Json>)
    ensures Truthy(a) ==> r == a
    ensures !Truthy(a) ==> r == b
  {
    if Truthy(a) then a else b
  }

  /** `a ?? b`. */
  function Coalesce(a: Option<Json>, b: Option<Json>): (r: Option<Json>)
    ensures !Nullish(a) ==> r == a
    ensures Nullish(a) ==> r == b
  {
    if Nullish(a) then b else a
  }

  /** The member named `key`, or `None` when there is none. */
  /**
   * The position `c[0] || c[1] || … || c[n-1]` stops at: the first truthy
   * candidate, or the last one when none is truthy.
   */
  function TruthyIndex(c: seq<Option<Json>>): (k: nat)
    requires c != []
    ensures k < |c|
    ensures forall j :: 0 <= j < k ==> !Truthy(c[j])
    ensures Truthy(c[k]) || k == |c| - 1
  {
    if |c| == 1 || Truthy(c[0]) then 0
    else
      var k := TruthyIndex(c[1..]);
      assert forall j :: 1 <= j < |c| ==> c[j] == c[1..][j - 1];
      k + 1
  }

  /** `c[0] || c[1] || … || c[n-1]`. */
  function OrChain(c: seq<Option<Json>>): Option<Json>
    requires c != []
  {
    c[TruthyIndex(c)]
  }

  /**
   * The position `c[0] ?? c[1] ?? … ?? c[n-1]` stops at: the first candidate
   * that is neither `undefined` nor `null`, or the last one when all are.
   */
  function DefinedIndex(c: seq<Option<Json>>): (k: nat)
    requires c != []
    ensures k < |c|
    ensures forall j :: 0 <= j < k ==> Nullish(c[j])
    ensures !Nullish(c[k]) || k == |c| - 1
  {
    if |c| == 1 || !Nullish(c[0]) then 0
    else
      var k := DefinedIndex(c[1..]);
      assert forall j :: 1 <= j < |c| ==> c[j] == c[1..][j - 1];
      k + 1
  }

  /** `c[0] ?? c[1] ?? … ?? c[n-1]`. */
  function CoalesceChain(c: seq<Option<Json>>): Option<Json>
    requires c != []
  {
    c[DefinedIndex(c)]
  }

  /** A chain with one more candidate at the end: `(c[0] || … || c[n-1]) || y`. */
  lemma {:induction false} OrChainSnoc(c: seq<Option<Json>>, y: Option<Json>)
    requires c != []
    ensures OrChain(c + [y]) == OrElse(OrChain(c), y)
    decreases |c|
  {
    var d := c + [y];
    assert d[1..] == c[1..] + [y];
    if |c| > 1 && !Truthy(c[0]) {
      OrChainSnoc(c[1..], y);
      assert OrChain(d) == OrChain(d[1..]) by {
        assert d[TruthyIndex(d)] == d[1..][TruthyIndex(d[1..])];
      }
      assert OrChain(c) == OrChain(c[1..]) by {
        assert c[TruthyIndex(c)] == c[1..][TruthyIndex(c[1..])];
      }
    }
  }

  /** A chain with one more candidate at the end: `(c[0] ?? … ?? c[n-1]) ?? y`. */
  lemma {:induction false} CoalesceChainSnoc(c: seq<Option<Json>>, y: Option<Json>)
    requires c != []
    ensures CoalesceChain(c + [y]) == Coalesce(CoalesceChain(c), y)
    decreases |c|
  {
    var d := c + [y];
    assert d[1..] == c[1..] + [y];
    if |c| > 1 && Nullish(c[0]) {
      CoalesceChainSnoc(c[1..], y);
      assert CoalesceChain(d) == CoalesceChain(d[1..]) by {
        assert d[DefinedIndex(d)] == d[1..][DefinedIndex(d[1..])];
      }
      assert CoalesceChain(c) == CoalesceChain(c[1..]) by {
        assert c[DefinedIndex(c)] == c[1..][DefinedIndex(c[1..])];
      }
    }
  }

  /** `a || b || c` read left to right. */
  lemma OrChainOfThree(a: Option<Json>, b: Option<Json>, c: Option<Json>)
    ensures OrChain([a, b, c]) == OrElse(OrElse(a, b), c)
  {
    OrChainSnoc([a], b);
    assert [a] + [b] == [a, b];
    OrChainSnoc([a, b], c);
    assert [a, b] + [c] == [a, b, c];
  }

  /** `a || b || c || d` read left to right. */
  lemma OrChainOfFour(a: Option<Json>, b: Option<Json>, c: Option<Json>, d: Option<Json>)
    ensures OrChain([a, b, c, d]) == OrElse(OrElse(OrElse(a, b), c), d)
  {
    OrChainOfThree(a, b, c);
    OrChainSnoc([a, b, c], d);
    assert [a, b, c] + [d] == [a, b, c, d];
  }

  /** `a ?? b ?? c` read left to right. */
  lemma CoalesceChainOfThree(a: Option<Json>, b: Option<Json>, c: Option<Json>)
    ensures CoalesceChain([a, b, c]) == Coalesce(Coalesce(a, b), c)
  {
    CoalesceChainSnoc([a], b);
    assert [a] + [b] == [a, b];
    CoalesceChainSnoc([a, b], c);
    assert [a, b] + [c] == [a, b, c];
  }

  /** `a ?? b ?? c ?? d` read left to right. */
  lemma CoalesceChainOfFour(a: Option<Json>, b: Option<Json>, c: Option<Json>, d: Option<Json>)
    ensures CoalesceChain([a, b, c, d]) == Coalesce(Coalesce(Coalesce(a, b), c), d)
  {
    CoalesceChainOfThree(a, b, c);
    CoalesceChainSnoc([a, b, c], d);
    assert [a, b, c] + [d] == [a, b, c, d];
  }

  /** `typeof v === 'number'`. */
  predicate IsNumber(v: Option<Json>) {
    v.Some? && v.value.JNumber?
  }

  /** `Array.isArray(v)`. */
  predicate IsArray(v: Option<Json>) {
    v.Some? && v.value.JArray?
  }

  function Find(members: seq<Member>, key: string): (r: Option<Json>)
    ensures r.Some? <==> exists i :: 0 <= i < |members| && members[i].key == key
    ensures r.Some? ==> exists i :: 0 <= i < |members| && members[i] == Member(key, r.value)
  {
    if members == [] then None
    else if members[0].key == key then Some(members[0].value)
    else
      var r := Find(members[1..], key);
      assert forall i :: 1 <= i < |members| ==> members[i] == members[1..][i - 1];
      r
  }

  /** `v[key]` (and `v?.[key]`): only objects have the members the client reads. */
  function Get(v: Option<Json>, key: string): Option<Json> {
    match v
    case Some(JObject(members)) => Find(members, key)
    case _ => None
  }

  /** `o[key] = value`: an existing member is overwritten in place, a new one is appended. */
  function Put(members: seq<Member>, key: string, value: Json): (r: seq<Member>)
    ensures Find(r, key) == Some(value)
    ensures forall k :: k != key ==> Find(r, k) == Find(members, k)
  {
    if members == [] then [Member(key, value)]
    else if members[0].key == key then [Member(key, value)] + members[1..]
    else [members[0]] + Put(members[1..], key, value)
  }

  /** `String(v)`, the property key a value becomes when it indexes an object. */
  function PropertyKey(v: Json): (k: string)
    ensures v.JNumber? && v.n >= 0 ==> Text.AllDigits(k)
    ensures v.JArray? && v.items == [] ==> k == []
    decreases v
  {
    match v
    case JNull => "null"
    case JBool(b) => if b then "true" else "false"
    case JNumber(n) => Text.IntToString(n)
    case JString(s) => s
    case JArray(items) =>
      if items == [] then ""
      else Text.Join(seq(|items|, k requires 0 <= k < |items| =>
                           if items[k] == JNull then "" else PropertyKey(items[k])), ',')
    case JObject(_) => "[object Object]"
  }
}
