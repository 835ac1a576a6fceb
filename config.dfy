/**
 * Start-up configuration: the backend address read from `config.env`
 * (the top of app.js). The synchronous request is a parameter: it failed, or
 * it produced a status and a body.
 */
module Config {
  import opened Common
  import opened Text

  const DefaultBackendUrl: string := "https://united-seeds-118701076488.europe-central2.run.app"

  const UrlPrefix: string := "BACKEND_URL="

  datatype Response = Response(status: int, body: string)

  /** A string holding `sep` splits into at least two pieces. */
  lemma {:induction false} SplitHasTwo(s: string, sep: char)
    requires sep in s
    ensures |Split(s, sep)| >= 2
  {
    if s[0] != sep {
      assert sep in s[1..] by {
        var i :| 0 <= i < |s| && s[i] == sep;
        assert s[1..][i - 1] == sep;
      }
      SplitHasTwo(s[1..], sep);
    }
  }

  /** `line.startsWith('BACKEND_URL=')`, checked character by character. */
  predicate HasUrlPrefix(line: string) {
    |line| >= |UrlPrefix| && forall k :: 0 <= k < |UrlPrefix| ==> line[k] == UrlPrefix[k]
  }

  lemma PrefixHoldsEquals(line: string)
    requires HasUrlPrefix(line)
    ensures '=' in line
  {
    assert line[|UrlPrefix| - 1] == UrlPrefix[|UrlPrefix| - 1] == '=';
  }

  /** `line.split('=')[1].trim()`: the text between the first and the second `=`. */
  function ValueAsWritten(line: string): (v: string)
    requires HasUrlPrefix(line)
    ensures '=' !in v
  {
    PrefixHoldsEquals(line);
    SplitHasTwo(line, '=');
    var v := Trim(Split(line, '=')[1]);
    assert forall c :: c in v ==> c in Split(line, '=')[1] by {
      forall c | c in v ensures c in Split(line, '=')[1] {
        TrimSubset(Split(line, '=')[1], c);
      }
    }
    v
  }

  /** The position of the first line that starts with the prefix, or `|lines|`. */
  function FirstUrlLine(lines: seq<string>): (i: nat)
    ensures i <= |lines|
    ensures i < |lines| ==> HasUrlPrefix(lines[i])
    ensures forall j :: 0 <= j < i ==> !HasUrlPrefix(lines[j])
  {
    if lines == [] then 0
    else if HasUrlPrefix(lines[0]) then 0
    else
      var i := FirstUrlLine(lines[1..]);
      assert forall j :: 1 <= j < 1 + i ==> lines[j] == lines[1..][j - 1];
      assert 1 + i < |lines| ==> lines[1 + i] == lines[1..][i];
      1 + i
  }

  /** The backend address the client ends up with, as the code is written. */
  function BackendUrl(response: Fetch<Response>): (url: string)
    ensures response.Failed? || response.value.status != 200 ==> url == DefaultBackendUrl
    ensures url == DefaultBackendUrl || '=' !in url
  {
    if response.Failed? || response.value.status != 200 then DefaultBackendUrl
    else
      var lines := Split(response.value.body, '\n');
      var i := FirstUrlLine(lines);
      if i < |lines| then ValueAsWritten(lines[i]) else DefaultBackendUrl
  }

  /** The start-up script: read the lines in order and stop at the first `BACKEND_URL=` line. */
  method LoadBackendUrl(response: Fetch<Response>) returns (url: string)
    ensures url == BackendUrl(response)
  {
    url := DefaultBackendUrl;
    if response.Ok? && response.value.status == 200 {
      var lines := Split(response.value.body, '\n');
      var i := 0;
      while i < |lines|
        invariant 0 <= i <= |lines|
        invariant forall j :: 0 <= j < i ==> !HasUrlPrefix(lines[j])
        invariant url == DefaultBackendUrl
      {
        if HasUrlPrefix(lines[i]) {
          url := ValueAsWritten(lines[i]);
          FirstUrlLineIs(lines, i);
          return;
        }
        i := i + 1;
      }
      FirstUrlLineIs(lines, |lines|);
    }
  }

  lemma FirstUrlLineIs(lines: seq<string>, i: nat)
    requires i <= |lines| && (i < |lines| ==> HasUrlPrefix(lines[i]))
    requires forall j :: 0 <= j < i ==> !HasUrlPrefix(lines[j])
    ensures FirstUrlLine(lines) == i
  {
  }

  /** `config.env` whose first line sets the address. */
  function ConfigText(value: string, rest: string): string {
    UrlPrefix + value + "\n" + rest
  }

  lemma {:induction false} ConfigLines(value: string, rest: string)
    requires '\n' !in value
    ensures Split(ConfigText(value, rest), '\n') == [UrlPrefix + value] + Split(rest, '\n')
  {
    assert '\n' !in UrlPrefix + value by {
      assert forall k :: 0 <= k < |UrlPrefix| ==> UrlPrefix[k] != '\n';
    }
    assert ConfigText(value, rest) == (UrlPrefix + value) + ['\n'] + rest;
    SplitAtFirst(UrlPrefix + value, '\n', rest);
  }

  /** As written, a value with an `=` in it (a query string, say) is cut at that `=`. */
  lemma {:induction false} ValueCutAtEquals(a: string, b: string, rest: string)
    requires '\n' !in a && '\n' !in b && '=' !in a
    ensures BackendUrl(Ok(Response(200, ConfigText(a + "=" + b, rest)))) == Trim(a)
  {
    var value := a + "=" + b;
    assert '\n' !in value;
    ConfigLines(value, rest);
    var line := UrlPrefix + value;
    assert HasUrlPrefix(line);
    assert line == "BACKEND_URL" + ['='] + (a + ['='] + b);
    SplitAtFirst("BACKEND_URL", '=', a + ['='] + b);
    SplitAtFirst(a, '=', b);
  }

  /** The value as intended: everything after the prefix, trimmed. */
  function ValueAfterPrefix(line: string): (v: string)
    requires HasUrlPrefix(line)
    ensures |v| <= |line| - |UrlPrefix|
  {
    Trim(line[|UrlPrefix|..])
  }

  /** The backend address with the whole value kept. */
  function BackendUrlCorrected(response: Fetch<Response>): string {
    if response.Failed? || response.value.status != 200 then DefaultBackendUrl
    else
      var lines := Split(response.value.body, '\n');
      var i := FirstUrlLine(lines);
      if i < |lines| then ValueAfterPrefix(lines[i]) else DefaultBackendUrl
  }

  /** Writing an address into `config.env` and reading it back gives the address, `=` signs included. */
  lemma CorrectedRoundTrip(value: string, rest: string)
    requires '\n' !in value && value != [] && !IsWhitespace(value[0]) && !IsWhitespace(value[|value| - 1])
    ensures BackendUrlCorrected(Ok(Response(200, ConfigText(value, rest)))) == value
  {
    ConfigLines(value, rest);
    var line := UrlPrefix + value;
    assert HasUrlPrefix(line);
    assert line[|UrlPrefix|..] == value;
    TrimPadded([], value, []);
    assert [] + value + [] == value;
  }

  /** The corrected reading agrees with the written one whenever the value has no `=`. */
  lemma CorrectedAgreesWithoutEquals(line: string)
    requires HasUrlPrefix(line) && '=' !in line[|UrlPrefix|..]
    ensures ValueAfterPrefix(line) == ValueAsWritten(line)
  {
    var value := line[|UrlPrefix|..];
    assert line == "BACKEND_URL" + ['='] + value;
    SplitAtFirst("BACKEND_URL", '=', value);
    SplitNoSeparator(value, '=');
  }
}
