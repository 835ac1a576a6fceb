/**
 * Entity identifiers: which ids are server-backed (app.js `canUseBackendId`),
 * the canonical string of a user id (`normalizeUserId`) and the shape of the
 * temporary ids the client makes up for unsynchronised items (`generateId`).
 */
module Identity {
  import opened Common
  import opened Text
  import opened Json

  /** `String(id || '')`. */
  function IdText(id: Option<Json>): string {
    if Truthy(id) then PropertyKey(id.value) else ""
  }

  /** `canUseBackendId(id)`: the trimmed text of the id is one or more ASCII digits. */
  predicate CanUseBackendId(id: Option<Json>)
    ensures CanUseBackendId(id) ==> Truthy(id)
  {
    assert !Truthy(id) ==> IdText(id) == [] && Trim(IdText(id)) == [];
    AllDigits(Trim(IdText(id)))
  }

  /** Ids read from `data-*` attributes are strings. */
  predicate IsServerBacked(id: string) {
    CanUseBackendId(Some(JString(id)))
  }

  /** `normalizeUserId(id)`: `''` for `undefined`/`null`, otherwise `String(id)`. */
  function NormalizeUserId(id: Option<Json>): (r: string)
    ensures Nullish(id) ==> r == ""
    ensures forall s :: id == Some(JString(s)) ==> r == s
    ensures forall n :: id == Some(JNumber(n)) ==> r == IntToString(n)
  {
    if Nullish(id) then "" else PropertyKey(id.value)
  }

  /** `generateId(prefix)` with its random part and its timestamp given. */
  function GeneratedId(prefix: string, random: string, now: int): string {
    prefix + "_" + random + "_" + IntToString(now)
  }

  /** A numeric id is server-backed exactly when it is positive: 0 is falsy and a negative one starts with '-'. */
  lemma {:induction false} ServerBackedNumber(n: int)
    ensures CanUseBackendId(Some(JNumber(n))) <==> n > 0
  {
    var t := IntToString(n);
    if n != 0 {
      assert IdText(Some(JNumber(n))) == t;
    }
    if n > 0 {
      assert NoWhitespace(t) by {
        forall i | 0 <= i < |t| ensures !IsWhitespace(t[i]) {
          assert IsAsciiDigit(t[i]);
        }
      }
      TrimNoWhitespace(t);
    } else if n < 0 {
      assert t[0] == '-' && !IsWhitespace(t[0]);
      TrimKeeps(t, 0);
      assert !IsAsciiDigit('-');
    } else {
      assert IdText(Some(JNumber(n))) == "";
      assert Trim("") == "";
    }
  }

  /** `undefined`, `null`, `false`, `0` and `''` are never server-backed. */
  lemma FalsyIdRejected(id: Option<Json>)
    requires !Truthy(id)
    ensures !CanUseBackendId(id)
  {
    assert Trim("") == "";
  }

  /** A non-space character that is not a digit anywhere in an id makes it not server-backed. */
  lemma NonDigitRejected(s: string, i: nat)
    requires i < |s| && !IsWhitespace(s[i]) && !IsAsciiDigit(s[i])
    ensures !IsServerBacked(s)
  {
    TrimKeeps(s, i);
  }

  /** Ids built by `generateId` contain `_`, so they are never server-backed. */
  lemma GeneratedIdRejected(prefix: string, random: string, now: int)
    ensures !IsServerBacked(GeneratedId(prefix, random, now))
  {
    var s := GeneratedId(prefix, random, now);
    assert s[|prefix|] == '_';
    NonDigitRejected(s, |prefix|);
  }

  /** A run of digits is server-backed, also with white space around it. */
  lemma DigitsAccepted(digits: string, before: string, after: string)
    requires AllDigits(digits) && AllWhitespace(before) && AllWhitespace(after)
    ensures IsServerBacked(before + digits + after)
  {
    TrimPadded(before, digits, after);
    var s := before + digits + after;
    assert s != "";
    assert IdText(Some(JString(s))) == s;
  }
}
