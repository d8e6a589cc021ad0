/**
 * The object paths and URLs the two upload helpers build (`src/api/firebase.ts`,
 * `src/api/supabase.ts`). The clock reading, the ISO-8601 formatter, the environment's base
 * URL and the storage SDK calls are parameters; an SDK call is an outcome that may fail.
 */
module Storage {
  import opened Wrappers
  import opened Text

  /** The fields of a browser `File` the helpers read. */
  datatype File = File(name: string, mimeType: string)

  // ---------------------------------------------------------------------------
  // Firebase

  /** `name.replace(/\s+/g, "_")`: every maximal run of white space becomes one underscore. */
  function SanitizeName(s: string): (r: string)
    ensures NoWhitespace(r)
    decreases |s|
  {
    if s == [] then []
    else if IsWhitespace(s[0]) then
      var rest := SanitizeName(TrimStart(s));
      NoWhitespaceConcat("_", rest);
      "_" + rest
    else
      var rest := SanitizeName(s[1..]);
      NoWhitespaceConcat([s[0]], rest);
      [s[0]] + rest
  }

  lemma NoWhitespaceConcat(a: string, b: string)
    requires NoWhitespace(a) && NoWhitespace(b)
    ensures NoWhitespace(a + b)
  {
    forall i | 0 <= i < |a + b|
      ensures !IsWhitespace((a + b)[i])
    {
      if i < |a| { assert (a + b)[i] == a[i]; } else { assert (a + b)[i] == b[i - |a|]; }
    }
  }

  /** A name without white space is left as it is. */
  lemma {:induction false} SanitizeKeepsCleanName(s: string)
    requires NoWhitespace(s)
    ensures SanitizeName(s) == s
    decreases |s|
  {
    if s != [] {
      SanitizeKeepsCleanName(s[1..]);
    }
  }

  /** Sanitising twice is sanitising once. */
  lemma SanitizeIdempotent(s: string)
    ensures SanitizeName(SanitizeName(s)) == SanitizeName(s)
  {
    SanitizeKeepsCleanName(SanitizeName(s));
  }

  /** Trimming the front of `a + t` only trims `a` when `a` ends in a non-space character. */
  lemma {:induction false} TrimStartAppend(a: string, t: string)
    requires a != [] && !IsWhitespace(a[|a| - 1])
    ensures TrimStart(a + t) == TrimStart(a) + t
    decreases |a|
  {
    if IsWhitespace(a[0]) {
      assert (a + t)[1..] == a[1..] + t;
      TrimStartAppend(a[1..], t);
    }
  }

  /** Trimming the front of a white-space run followed by a non-space start leaves the rest. */
  lemma {:induction false} TrimStartRun(w: string, b: string)
    requires AllWhitespace(w)
    requires b == [] || !IsWhitespace(b[0])
    ensures TrimStart(w + b) == b
    decreases |w|
  {
    if w != [] {
      assert (w + b)[1..] == w[1..] + b;
      TrimStartRun(w[1..], b);
    }
  }

  /** A maximal run of white space, whatever its length, becomes exactly one underscore, and
      the text on either side is sanitised on its own. */
  lemma {:induction false} SanitizeCollapsesRun(a: string, w: string, b: string)
    requires w != [] && AllWhitespace(w)
    requires a == [] || !IsWhitespace(a[|a| - 1])
    requires b == [] || !IsWhitespace(b[0])
    ensures SanitizeName(a + w + b) == SanitizeName(a) + "_" + SanitizeName(b)
    decreases |a|
  {
    if a == [] {
      assert a + w + b == w + b;
      SanitizeLeadingRun(w, b);
    } else if IsWhitespace(a[0]) {
      var a' := TrimStart(a);
      SanitizeSkipsRun(a, w + b);
      Regroup(a, w, b);
      Regroup(a', w, b);
      SanitizeCollapsesRun(a', w, b);
      Regroup3("_", SanitizeName(a'), SanitizeName(b));
    } else {
      var a' := a[1..];
      SanitizeKeepsHead(a, w + b);
      Regroup(a, w, b);
      Regroup(a', w, b);
      assert a' == [] || a'[|a'| - 1] == a[|a| - 1];
      SanitizeCollapsesRun(a', w, b);
      Regroup3([a[0]], SanitizeName(a'), SanitizeName(b));
    }
  }

  lemma Regroup(x: string, y: string, z: string)
    ensures x + y + z == x + (y + z)
  {
  }

  lemma Regroup3(x: string, y: string, z: string)
    ensures x + (y + "_" + z) == (x + y) + "_" + z
  {
  }

  lemma SanitizeLeadingRun(w: string, b: string)
    requires w != [] && AllWhitespace(w)
    requires b == [] || !IsWhitespace(b[0])
    ensures SanitizeName(w + b) == "_" + SanitizeName(b)
  {
    assert (w + b)[0] == w[0];
    TrimStartRun(w, b);
  }

  lemma SanitizeSkipsRun(a: string, t: string)
    requires a != [] && IsWhitespace(a[0]) && !IsWhitespace(a[|a| - 1])
    ensures TrimStart(a) != [] && TrimStart(a)[|TrimStart(a)| - 1] == a[|a| - 1]
    ensures SanitizeName(a) == "_" + SanitizeName(TrimStart(a))
    ensures SanitizeName(a + t) == "_" + SanitizeName(TrimStart(a) + t)
  {
    assert (a + t)[0] == a[0];
    TrimStartAppend(a, t);
  }

  lemma SanitizeKeepsHead(a: string, t: string)
    requires a != [] && !IsWhitespace(a[0])
    ensures SanitizeName(a) == [a[0]] + SanitizeName(a[1..])
    ensures SanitizeName(a + t) == [a[0]] + SanitizeName(a[1..] + t)
  {
    assert (a + t)[0] == a[0] && (a + t)[1..] == a[1..] + t;
  }

  /** The characters that are neither white space nor an underscore, in order. */
  function Significant(s: string): string {
    if s == [] then []
    else (if IsWhitespace(s[0]) || s[0] == '_' then [] else [s[0]]) + Significant(s[1..])
  }

  lemma {:induction false} SignificantOfBlank(w: string, b: string)
    requires AllWhitespace(w)
    ensures Significant(w + b) == Significant(b)
    decreases |w|
  {
    if w != [] {
      assert (w + b)[0] == w[0] && (w + b)[1..] == w[1..] + b;
      assert IsWhitespace(w[0]);
      assert Significant(w + b) == Significant(w[1..] + b);
      SignificantOfBlank(w[1..], b);
    } else {
      assert w + b == b;
    }
  }

  /** Sanitising keeps every character that is not white space or an underscore, in order. */
  lemma {:induction false} SanitizeKeepsSignificant(s: string)
    ensures Significant(SanitizeName(s)) == Significant(s)
    decreases |s|
  {
    if s != [] {
      if IsWhitespace(s[0]) {
        var t := TrimStart(s);
        SanitizeKeepsSignificant(t);
        assert s == s[..|s| - |t|] + t;
        SignificantOfBlank(s[..|s| - |t|], t);
        assert ("_" + SanitizeName(t))[1..] == SanitizeName(t);
      } else {
        SanitizeKeepsSignificant(s[1..]);
        assert ([s[0]] + SanitizeName(s[1..]))[1..] == SanitizeName(s[1..]);
      }
    }
  }

  /** `.slice(0, 10)`: the first ten characters, or the whole string when it is shorter. */
  function Slice10(s: string): (r: string)
    ensures |r| == if |s| < 10 then |s| else 10
    ensures r == s[..|r|]
  {
    if |s| <= 10 then s else s[..10]
  }

  /** The object path `uploads/<date>/<timestamp>-<sanitised name>`; the date is the first ten
      characters of the same timestamp's ISO text. */
  function FirebasePath(timestamp: int, isoString: int -> string, name: string): string {
    "uploads/" + Slice10(isoString(timestamp)) + "/" + IntToString(timestamp) + "-" + SanitizeName(name)
  }

  /** The path's pieces: the fixed folder, a date taken from the timestamp's ISO text, the
      timestamp's decimal text which reads back as the timestamp, and a name without white
      space that keeps the name's other characters. */
  lemma FirebasePathParts(timestamp: int, isoString: int -> string, name: string)
    ensures var p := FirebasePath(timestamp, isoString, name);
      var date := Slice10(isoString(timestamp));
      var ts := IntToString(timestamp);
      var file := SanitizeName(name);
      && p == "uploads/" + date + "/" + ts + "-" + file
      && |date| == (if |isoString(timestamp)| < 10 then |isoString(timestamp)| else 10)
      && date == isoString(timestamp)[..|date|]
      && ParseInt(ts) == Some(timestamp)
      && NoWhitespace(file) && Significant(file) == Significant(name)
  {
    IntToStringRoundTrip(timestamp);
    SanitizeKeepsSignificant(name);
  }

  const OctetStream := "application/octet-stream"

  /** `file.type || "application/octet-stream"`. */
  function ContentType(mimeType: string): (r: string)
    ensures mimeType != "" ==> r == mimeType
    ensures mimeType == "" ==> r == OctetStream
  {
    if mimeType != "" then mimeType else OctetStream
  }

  /** `uploadFileToFirebase`: one clock reading names the object; the storage call (upload,
      then download URL) receives that path and the content type, and its outcome is the
      helper's outcome. */
  function UploadFileToFirebase(
    file: File, timestamp: int, isoString: int -> string,
    store: (string, string) -> Result<string, string>): (r: Result<string, string>)
    ensures r == store(FirebasePath(timestamp, isoString, file.name), ContentType(file.mimeType))
  {
    var path := FirebasePath(timestamp, isoString, file.name);
    store(path, ContentType(file.mimeType))
  }

  // ---------------------------------------------------------------------------
  // Supabase

  const DefaultBucket := "uploads"

  /** What the Supabase helper can throw: the storage client's error, or the `TypeError` of
      calling `split` on `undefined`. */
  datatype UploadError = StorageError(message: string) | TypeError

  /** The object path `docs/<timestamp>-<name>`, the name taken verbatim. */
  function SupabasePath(timestamp: int, name: string): string {
    "docs/" + IntToString(timestamp) + "-" + name
  }

  /** `url.split('//')[1].split('.')[0]`: the text between the first "//" and the next "." (or
      the next "//"); a URL without "//" has no second piece and the call throws. */
  function ProjectRef(url: string): (r: Result<string, UploadError>)
    ensures r.Failure? <==> forall k :: !OccursAt(url, "//", k)
    ensures r.Failure? ==> r.error == TypeError
  {
    SplitSingleIffAbsent(url, "//");
    var parts := Split(url, "//");
    if |parts| < 2 then Failure(TypeError) else Success(Split(parts[1], ".")[0])
  }

  /** For a base URL `<scheme>//<host>.<rest>` (a scheme without '/', a host without '.', and no
      further "//"), the project ref is the host. */
  lemma ProjectRefIsHost(scheme: string, host: string, rest: string)
    requires '/' !in scheme && '.' !in host
    requires forall k :: !OccursAt(host + "." + rest, "//", k)
    ensures ProjectRef(scheme + "//" + host + "." + rest) == Success(host)
  {
    var y := host + "." + rest;
    var url := scheme + "//" + y;
    assert url == scheme + "//" + y;
    forall k: nat | k < |scheme|
      ensures !OccursAt(url, "//", k)
    {
      assert url[k] == scheme[k];
    }
    SplitAtFirst(scheme, "//", y);
    SplitSingleIffAbsent(y, "//");
    assert Split(y, "//") == [y];
    forall k: nat | k < |host|
      ensures !OccursAt(y, ".", k)
    {
      assert y[k] == host[k];
    }
    SplitAtFirst(host, ".", rest);
    assert scheme + "//" + host + "." + rest == url;
    assert Split(url, "//") == [scheme, y];
    assert Split(y, ".")[0] == host;
  }

  /** `uploadFileToSupabase`: the upload receives `docs/<timestamp>-<name>` in the bucket; its
      error is thrown as it is; after a successful upload the project ref is read from the
      base URL (throwing when the variable is unset or has no "//"), and the result is the
      base URL, "/", and the path. */
  function UploadFileToSupabase(
    file: File, timestamp: int, supabaseUrl: Option<string>,
    upload: (string, string) -> Option<string>,
    bucket: string := DefaultBucket): (r: Result<string, UploadError>)
    ensures var path := SupabasePath(timestamp, file.name);
      && (upload(bucket, path).Some? ==> r == Failure(StorageError(upload(bucket, path).value)))
      && (r.Success? <==> upload(bucket, path).None? && supabaseUrl.Some?
                          && exists k :: OccursAt(supabaseUrl.value, "//", k))
      && (r.Success? ==> r.value == supabaseUrl.value + "/" + path)
      && (upload(bucket, path).None? && r.Failure? ==> r.error == TypeError)
  {
    var path := SupabasePath(timestamp, file.name);
    match upload(bucket, path)
    case Some(err) => Failure(StorageError(err))
    case None =>
      match supabaseUrl
      case None => Failure(TypeError)
      case Some(url) =>
        match ProjectRef(url)
        case Failure(e) => Failure(e)
        case Success(_) => Success(url + "/" + path)
  }

  /** The project ref is computed and then unused, yet a base URL without "//" still turns an
      upload that already succeeded into a thrown error. */
  lemma SchemelessUrlLosesSuccessfulUpload(
    file: File, timestamp: int, url: string, upload: (string, string) -> Option<string>)
    requires upload(DefaultBucket, SupabasePath(timestamp, file.name)).None?
    requires forall k :: !OccursAt(url, "//", k)
    ensures UploadFileToSupabase(file, timestamp, Some(url), upload) == Failure(TypeError)
  {
  }
}
