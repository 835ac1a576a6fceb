/**
 * Text that is spliced into HTML: `escapeHtml`, `escapeAttribute` and the
 * like-count label `buildLikesLabel` of app.js.
 */
module Markup {
  import opened Text

  /** The characters `escapeHtml` looks for. */
  predicate IsHtmlSpecial(c: char) {
    c == '&' || c == '<' || c == '>' || c == '"'
  }

  /** The entity `escapeHtml` / `escapeAttribute` use for one character. */
  function Entity(c: char): string {
    match c
    case '&' => "&amp;"
    case '<' => "&lt;"
    case '>' => "&gt;"
    case '"' => "&quot;"
    case '\'' => "&#39;"
    case _ => [c]
  }

  /** The length of the run of special characters that starts `s`. */
  function SpecialRun(s: string): (n: nat)
    ensures n <= |s|
    ensures forall i :: 0 <= i < n ==> IsHtmlSpecial(s[i])
    ensures n < |s| ==> !IsHtmlSpecial(s[n])
  {
    if s != [] && IsHtmlSpecial(s[0]) then 1 + SpecialRun(s[1..]) else 0
  }

  /**
   * `escapeHtml(str)` as written: the pattern `/[&<>"]+/g` hands a whole run of
   * special characters to the replacer, whose table only knows single characters,
   * so a run of two or more becomes the text `undefined`.
   */
  function EscapeHtml(s: string): (r: string)
    ensures s == [] <==> r == []
    ensures s != [] && !IsHtmlSpecial(s[0]) ==> r[0] == s[0]
    decreases |s|
  {
    if s == [] then []
    else if IsHtmlSpecial(s[0]) then
      var n := SpecialRun(s);
      (if n == 1 then Entity(s[0]) else "undefined") + EscapeHtml(s[n..])
    else [s[0]] + EscapeHtml(s[1..])
  }

  /** `escapeHtml` as intended: each special character replaced by its entity. */
  function EscapeHtmlChars(s: string): string {
    if s == [] then []
    else (if IsHtmlSpecial(s[0]) then Entity(s[0]) else [s[0]]) + EscapeHtmlChars(s[1..])
  }

  /** `escapeAttribute(str)`: `&`, `<`, `>`, `"` and `'` replaced one by one. */
  function EscapeAttribute(s: string): (r: string)
    ensures |r| >= |s|
    ensures s == [] <==> r == []
  {
    if s == [] then [] else Entity(s[0]) + EscapeAttribute(s[1..])
  }

  /** The character an entity at the start of `s` stands for, and the entity's length. */
  function DecodeEntity(s: string): (r: (char, nat))
    requires s != [] && s[0] == '&'
    ensures 1 <= r.1 <= |s|
  {
    if |s| >= 5 && s[1] == 'a' && s[2] == 'm' && s[3] == 'p' && s[4] == ';' then ('&', 5)
    else if |s| >= 4 && s[1] == 'l' && s[2] == 't' && s[3] == ';' then ('<', 4)
    else if |s| >= 4 && s[1] == 'g' && s[2] == 't' && s[3] == ';' then ('>', 4)
    else if |s| >= 6 && s[1] == 'q' && s[2] == 'u' && s[3] == 'o' && s[4] == 't' && s[5] == ';' then ('"', 6)
    else if |s| >= 5 && s[1] == '#' && s[2] == '3' && s[3] == '9' && s[4] == ';' then ('\'', 5)
    else ('&', 1)
  }

  /** Decoding of the five entities above, the reference the escapers are checked against. */
  function Unescape(s: string): string
    decreases |s|
  {
    if s == [] then []
    else if s[0] != '&' then [s[0]] + Unescape(s[1..])
    else
      var (c, n) := DecodeEntity(s);
      [c] + Unescape(s[n..])
  }

  lemma UnescapeEntity(c: char, rest: string)
    ensures Unescape(Entity(c) + rest) == [c] + Unescape(rest)
  {
    var s := Entity(c) + rest;
    var n := |Entity(c)|;
    assert s[n..] == rest;
    if c == '&' || c == '<' || c == '>' || c == '"' || c == '\'' {
      assert s[0] == '&';
      assert DecodeEntity(s) == (c, n);
    } else {
      assert s[0] == c;
    }
  }

  /** Decoding what `escapeAttribute` produced gives back the original text. */
  lemma {:induction false} EscapeAttributeRoundTrip(s: string)
    ensures Unescape(EscapeAttribute(s)) == s
  {
    if s != [] {
      UnescapeEntity(s[0], EscapeAttribute(s[1..]));
      EscapeAttributeRoundTrip(s[1..]);
    }
  }

  /** The same round trip for the per-character `escapeHtml`. */
  lemma {:induction false} EscapeHtmlCharsRoundTrip(s: string)
    ensures Unescape(EscapeHtmlChars(s)) == s
  {
    if s != [] {
      var rest := EscapeHtmlChars(s[1..]);
      if IsHtmlSpecial(s[0]) {
        UnescapeEntity(s[0], rest);
      } else {
        assert ([s[0]] + rest)[1..] == rest;
      }
      EscapeHtmlCharsRoundTrip(s[1..]);
    }
  }

  /** What `escapeAttribute` yields holds no raw `<`, `>`, `"` or `'`. */
  lemma {:induction false} EscapeAttributeInert(s: string)
    ensures forall c :: c in EscapeAttribute(s) ==> c != '<' && c != '>' && c != '"' && c != '\''
  {
    if s != [] {
      EscapeAttributeInert(s[1..]);
      assert EscapeAttribute(s) == Entity(s[0]) + EscapeAttribute(s[1..]);
    }
  }

  /** Even as written, `escapeHtml` never lets a raw `<`, `>` or `"` through. */
  lemma {:induction false} EscapeHtmlInert(s: string)
    ensures forall c :: c in EscapeHtml(s) ==> c != '<' && c != '>' && c != '"'
    decreases |s|
  {
    if s != [] {
      if IsHtmlSpecial(s[0]) {
        var n := SpecialRun(s);
        EscapeHtmlInert(s[n..]);
        var head := if n == 1 then Entity(s[0]) else "undefined";
        assert EscapeHtml(s) == head + EscapeHtml(s[n..]);
      } else {
        EscapeHtmlInert(s[1..]);
        assert EscapeHtml(s) == [s[0]] + EscapeHtml(s[1..]);
      }
    }
  }

  /** Text without any of the characters `escapeHtml` replaces. */
  predicate NoSpecial(s: string) {
    forall i :: 0 <= i < |s| ==> !IsHtmlSpecial(s[i])
  }

  /** Text without special characters passes through `escapeHtml` unchanged. */
  lemma {:induction false} EscapeHtmlPlain(s: string)
    requires NoSpecial(s)
    ensures EscapeHtml(s) == s
  {
    if s != [] {
      EscapeHtmlPlain(s[1..]);
    }
  }

  /** A special character followed by a plain one (or by nothing) becomes its entity. */
  lemma SpecialAtFrontEscaped(c: char, after: string)
    requires IsHtmlSpecial(c) && (after == [] || !IsHtmlSpecial(after[0]))
    ensures EscapeHtml([c] + after) == Entity(c) + EscapeHtml(after)
  {
    var s := [c] + after;
    assert s[1..] == after;
    assert SpecialRun(s) == 1;
  }

  /** A plain prefix passes through `escapeHtml` as it is, whatever follows it. */
  lemma {:induction false} PlainPrefixKept(before: string, rest: string)
    requires NoSpecial(before)
    ensures EscapeHtml(before + rest) == before + EscapeHtml(rest)
    decreases |before|
  {
    if before != [] {
      var s := before + rest;
      assert s[1..] == before[1..] + rest;
      PlainPrefixKept(before[1..], rest);
      assert EscapeHtml(s) == [before[0]] + EscapeHtml(s[1..]);
      assert before == [before[0]] + before[1..];
    } else {
      assert before + rest == rest;
    }
  }

  /** A lone special character (not next to another one) becomes its entity. */
  lemma LoneSpecialEscaped(before: string, c: char, after: string)
    requires NoSpecial(before)
    requires IsHtmlSpecial(c) && (after == [] || !IsHtmlSpecial(after[0]))
    ensures EscapeHtml(before + [c] + after) == before + Entity(c) + EscapeHtml(after)
  {
    assert before + [c] + after == before + ([c] + after);
    PlainPrefixKept(before, [c] + after);
    SpecialAtFrontEscaped(c, after);
  }

  /** A run of two or more special characters becomes the literal text `undefined`. */
  lemma SpecialRunBecomesUndefined(run: string, after: string)
    requires |run| >= 2 && forall i :: 0 <= i < |run| ==> IsHtmlSpecial(run[i])
    requires after == [] || !IsHtmlSpecial(after[0])
    ensures EscapeHtml(run + after) == "undefined" + EscapeHtml(after)
  {
    var s := run + after;
    SpecialRunLength(run, after);
    assert s[|run|..] == after;
  }

  lemma {:induction false} SpecialRunLength(run: string, after: string)
    requires forall i :: 0 <= i < |run| ==> IsHtmlSpecial(run[i])
    requires after == [] || !IsHtmlSpecial(after[0])
    ensures SpecialRun(run + after) == |run|
  {
    if run != [] {
      assert (run + after)[1..] == run[1..] + after;
      SpecialRunLength(run[1..], after);
    } else {
      assert run + after == after;
    }
  }

  /** The input that shows it: `escapeHtml("a<<b")` is `aundefinedb`, which does not decode to the input. */
  lemma EscapeHtmlLosesRuns()
    ensures EscapeHtml("a<<b") == "aundefinedb"
    ensures Unescape(EscapeHtml("a<<b")) != "a<<b"
    ensures Unescape(EscapeHtmlChars("a<<b")) == "a<<b"
  {
    SpecialRunBecomesUndefined("<<", "b");
    assert "a<<b" == "a" + ("<<" + "b");
    assert EscapeHtml("a<<b") == "a" + EscapeHtml("<<b");
    assert EscapeHtml("b") == "b";
    UnescapePlain("aundefinedb");
    EscapeHtmlCharsRoundTrip("a<<b");
  }

  lemma {:induction false} UnescapePlain(s: string)
    requires '&' !in s
    ensures Unescape(s) == s
  {
    if s != [] {
      assert s[0] != '&';
      UnescapePlain(s[1..]);
    }
  }

  /** `Number(count) || 0` followed by the Bulgarian noun: singular exactly for a count of one. */
  function LikesNoun(count: int): (noun: string)
    ensures noun == "човек" <==> count == 1
  {
    if count == 1 then "човек" else "човека"
  }

  /** `buildLikesLabel(count)`: the count badge followed by the noun that agrees with it. */
  function BuildLikesLabel(count: int): (shown: string)
    ensures StartsWith(shown, "Харесано от <span class=\"like-count-badge\">")
    ensures |shown| > |LikesNoun(count)| && shown[|shown| - |LikesNoun(count)|..] == LikesNoun(count)
  {
    "Харесано от <span class=\"like-count-badge\">" + IntToString(count) + "</span> " + LikesNoun(count)
  }
}
