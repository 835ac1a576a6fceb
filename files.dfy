/**
 * File-name helpers used by the upload paths: `getFileExtension`,
 * `resolveVideoMimeType` and `sanitizeFileName`.
 */
module Files {
  import opened Common
  import opened Text

  /**
   * `getFileExtension(name)`: the text after the last `.`, in lower case, or
   * `''` when the name has no `.` (`undefined` is read as `''`).
   */
  function GetFileExtension(name: string): (ext: string)
    ensures '.' !in ext
    ensures '.' !in name ==> ext == []
    ensures '.' in name ==> |ext| < |name| && name[|name| - |ext| - 1] == '.'
                            && ext == ToLower(name[|name| - |ext|..])
  {
    var idx := LastIndexOf(name, '.');
    if idx == -1 then []
    else
      var ext := ToLower(name[idx + 1..]);
      assert forall j :: 0 <= j < |ext| ==> ext[j] == LowerChar(name[idx + 1 + j]) && name[idx + 1 + j] != '.';
      ext
  }

  /** The extension of `stem.ext` is `ext` in lower case whenever `ext` holds no `.`. */
  lemma ExtensionAfterLastDot(stem: string, ext: string)
    requires '.' !in ext
    ensures GetFileExtension(stem + "." + ext) == ToLower(ext)
  {
    var name := stem + "." + ext;
    assert name[|stem|] == '.';
    var r := GetFileExtension(name);
    assert name[|name| - |r|..] == ext;
  }

  /** The extension table of `resolveVideoMimeType`. */
  const VideoMimeTypes: map<string, string> := map[
    "mp4" := "video/mp4",
    "mov" := "video/quicktime",
    "qt" := "video/quicktime",
    "webm" := "video/webm",
    "mkv" := "video/x-matroska",
    "avi" := "video/x-msvideo",
    "m4v" := "video/x-m4v",
    "mpeg" := "video/mpeg",
    "mpg" := "video/mpeg",
    "3gp" := "video/3gpp",
    "3gpp" := "video/3gpp",
    "ogg" := "video/ogg"
  ]

  const DefaultMimeType: string := "application/octet-stream"

  /**
   * `resolveVideoMimeType(fileName, fallbackType)`: the table entry for the
   * extension, else the fallback, else `application/octet-stream`.
   */
  function ResolveVideoMimeType(fileName: string, fallback: string): (mime: string)
    ensures mime != []
    ensures GetFileExtension(fileName) in VideoMimeTypes ==> mime == VideoMimeTypes[GetFileExtension(fileName)]
    ensures GetFileExtension(fileName) !in VideoMimeTypes ==> mime == (if fallback != [] then fallback else DefaultMimeType)
  {
    var ext := GetFileExtension(fileName);
    if ext in VideoMimeTypes then VideoMimeTypes[ext] else if fallback != [] then fallback else DefaultMimeType
  }

  /** Every type in the table is a `video/` type. */
  lemma TableTypesAreVideo(mime: string)
    requires mime in VideoMimeTypes.Values
    ensures StartsWith(mime, "video/")
  {
    var ext :| ext in VideoMimeTypes && VideoMimeTypes[ext] == mime;
  }

  /** The extension is matched case-insensitively: `Clip.MOV` is QuickTime whatever the browser reported. */
  lemma UpperCaseExtensionResolved(fallback: string)
    ensures ResolveVideoMimeType("Clip.MOV", fallback) == "video/quicktime"
  {
    ClipExtension();
  }

  lemma ClipExtension()
    ensures GetFileExtension("Clip.MOV") == "mov"
  {
    ExtensionAfterLastDot("Clip", "MOV");
    assert "Clip.MOV" == "Clip" + "." + "MOV";
    assert ToLower("MOV") == "mov";
  }

  /** A name without an extension falls back to the browser's type, and to the generic type without one. */
  lemma NoExtensionFallsBack(stem: string, fallback: string)
    requires '.' !in stem
    ensures ResolveVideoMimeType(stem, fallback) == (if fallback != [] then fallback else DefaultMimeType)
  {
    assert GetFileExtension(stem) == [];
  }

  /** The characters `sanitizeFileName` keeps: `\w`, `.` and `-`. */
  predicate IsSafeFileChar(c: char) {
    IsWordChar(c) || c == '.' || c == '-'
  }

  predicate AllSafe(s: string) {
    forall i :: 0 <= i < |s| ==> IsSafeFileChar(s[i])
  }

  /** The length of the run of characters outside the safe set that starts `s`. */
  function UnsafeRun(s: string): (n: nat)
    ensures n <= |s|
    ensures n < |s| ==> IsSafeFileChar(s[n])
    ensures forall i :: 0 <= i < n ==> !IsSafeFileChar(s[i])
  {
    if s != [] && !IsSafeFileChar(s[0]) then 1 + UnsafeRun(s[1..]) else 0
  }

  /** `s.replace(/[^\w.\-]+/g, '_')`: every run of unsafe characters becomes one `_`. */
  function ReplaceUnsafeRuns(s: string): (r: string)
    ensures AllSafe(r)
    ensures |r| <= |s|
    ensures r == [] <==> s == []
    decreases |s|
  {
    if s == [] then []
    else if IsSafeFileChar(s[0]) then [s[0]] + ReplaceUnsafeRuns(s[1..])
    else "_" + ReplaceUnsafeRuns(s[UnsafeRun(s)..])
  }

  /** A name made only of safe characters is left as it is. */
  lemma {:induction false} SafeNameUnchanged(s: string)
    requires AllSafe(s)
    ensures ReplaceUnsafeRuns(s) == s
  {
    if s != [] {
      SafeNameUnchanged(s[1..]);
    }
  }

  /** A run made only of unsafe characters is counted whole when a safe character or the end follows it. */
  lemma {:induction false} UnsafeRunOf(u: string, b: string)
    requires forall i :: 0 <= i < |u| ==> !IsSafeFileChar(u[i])
    requires b == [] || IsSafeFileChar(b[0])
    ensures UnsafeRun(u + b) == |u|
  {
    if u != [] {
      assert (u + b)[1..] == u[1..] + b;
      UnsafeRunOf(u[1..], b);
    }
  }

  /**
   * Safe characters are kept in place and a whole run of unsafe ones becomes a
   * single `_`: with `a` safe, `u` a non-empty unsafe run and `b` starting with
   * a safe character (or empty), `a + u + b` becomes `a + "_"` followed by `b`
   * replaced.
   */
  lemma {:induction false} UnsafeRunReplaced(a: string, u: string, b: string)
    requires AllSafe(a)
    requires u != [] && forall i :: 0 <= i < |u| ==> !IsSafeFileChar(u[i])
    requires b == [] || IsSafeFileChar(b[0])
    ensures ReplaceUnsafeRuns(a + u + b) == a + "_" + ReplaceUnsafeRuns(b)
    decreases |a|
  {
    if a == [] {
      assert a + u + b == u + b;
      UnsafeRunOf(u, b);
      assert (u + b)[|u|..] == b;
    } else {
      assert (a + u + b)[0] == a[0];
      assert (a + u + b)[1..] == a[1..] + u + b;
      UnsafeRunReplaced(a[1..], u, b);
    }
  }

  /** `ReplaceUnsafeRuns` does nothing to its own output. */
  lemma ReplaceUnsafeRunsIdempotent(s: string)
    ensures ReplaceUnsafeRuns(ReplaceUnsafeRuns(s)) == ReplaceUnsafeRuns(s)
  {
    SafeNameUnchanged(ReplaceUnsafeRuns(s));
  }

  /** `(contentType && contentType.split('/')[1]) || 'bin'`. */
  function ContentTypeExtension(contentType: Option<string>): (ext: string)
    ensures ext != [] && '/' !in ext
  {
    if contentType.None? || contentType.value == [] then "bin"
    else
      var pieces := Split(contentType.value, '/');
      if |pieces| >= 2 && pieces[1] != [] then pieces[1] else "bin"
  }

  /**
   * `sanitizeFileName(name, contentType)` with `Date.now()` given as `now`;
   * `name` is `None` when it is not a string.
   */
  function SanitizeFileName(name: Option<string>, contentType: Option<string>, now: int): (r: string)
    ensures r != []
    ensures name.Some? && Trim(name.value) != [] ==>
              r == ReplaceUnsafeRuns(Trim(name.value)) && AllSafe(r) && |r| <= |Trim(name.value)|
    ensures name.None? || Trim(name.value) == [] ==>
              r == "profile-" + IntToString(now) + "." + ContentTypeExtension(contentType)
  {
    if name.Some? && Trim(name.value) != [] then ReplaceUnsafeRuns(Trim(name.value))
    else "profile-" + IntToString(now) + "." + ContentTypeExtension(contentType)
  }

  /** A clean name keeps its exact spelling; only the surrounding white space goes. */
  lemma CleanNameKept(before: string, name: string, after: string, contentType: Option<string>, now: int)
    requires name != [] && AllSafe(name) && AllWhitespace(before) && AllWhitespace(after)
    ensures SanitizeFileName(Some(before + name + after), contentType, now) == name
  {
    assert !IsWhitespace(name[0]) && !IsWhitespace(name[|name| - 1]) by {
      assert IsSafeFileChar(name[0]) && IsSafeFileChar(name[|name| - 1]);
    }
    TrimPadded(before, name, after);
    SafeNameUnchanged(name);
  }

  /** A run of unsafe characters collapses into one `_`: `a  b` becomes `a_b`. */
  lemma SpacesCollapse()
    ensures SanitizeFileName(Some("a  b"), None, 0) == "a_b"
  {
    var s := "a  b";
    TrimPadded([], s, []);
    assert [] + s + [] == s;
    TwoSpacesReplaced();
  }

  lemma TwoSpacesReplaced()
    ensures ReplaceUnsafeRuns("a  b") == "a_b"
  {
    var s := "a  b";
    var gap := s[1..];
    assert gap[1..][1..] == "b";
    assert UnsafeRun("b") == 0;
    assert UnsafeRun(gap[1..]) == 1;
    assert UnsafeRun(gap) == 2;
    assert gap[2..] == "b";
    assert ReplaceUnsafeRuns("b") == "b";
    assert ReplaceUnsafeRuns(gap) == "_b";
  }

  /** Without a usable name, the file is named after the clock and the subtype of a `type/subtype` content type. */
  lemma GeneratedNameUsesSubtype(kind: string, subtype: string, now: int)
    requires '/' !in kind && '/' !in subtype && subtype != []
    ensures SanitizeFileName(None, Some(kind + "/" + subtype), now) == "profile-" + IntToString(now) + "." + subtype
  {
    SplitAtFirst(kind, '/', subtype);
    SplitNoSeparator(subtype, '/');
    assert kind + ['/'] + subtype == kind + "/" + subtype;
  }

  /** A blank name counts as no name; with no content type the extension is `bin`. */
  lemma BlankNameGenerated(now: int)
    ensures SanitizeFileName(Some("   "), None, now) == "profile-" + IntToString(now) + ".bin"
  {
    assert Trim("   ") == [];
  }
}
