/**
 * The HTTP helpers of the mobile client (lib/ApiClient.ts): the route template
 * filling of `build_uri` and of the four request methods, the mapping of the
 * server's `{ success, status_code, data?, reason? }` envelope in
 * `HandleRequest`, and the filename sanitising and aggregate result of
 * `HandleGetFilesAndSave`. `fetch`, the body and data parsers and the file
 * system are parameters.
 */
module ApiClient {
  import opened Wrappers
  import opened Strings
  import opened ClientTypes

  // ---- build_uri --------------------------------------------------------------

  /** A value of a path or query object: a string, or an array joined with ",". */
  datatype UriValue = Text(s: string) | List(items: seq<string>)

  /** The text a value is substituted with. */
  function ValueText(v: UriValue): (t: string)
    ensures v.Text? ==> t == v.s
    ensures v.List? ==> t == Join(v.items, ',')
  {
    match v
    case Text(s) => s
    case List(items) => Join(items, ',')
  }

  /** The placeholder of a key: `{key}`. */
  function Placeholder(key: string): (p: string)
    ensures |p| == |key| + 2 && p[0] == '{' && p[|p| - 1] == '}'
  {
    "{" + key + "}"
  }

  /** One step of `build_uri`: the first `{key}` replaced by the value. */
  function Substitute(uri: string, entry: (string, UriValue)): string {
    ReplaceFirst(uri, Placeholder(entry.0), ValueText(entry.1))
  }

  /** `build_uri` as a fold over the entries, in their order. */
  function BuildUriSpec(uri: string, entries: seq<(string, UriValue)>): string
    decreases |entries|
  {
    if |entries| == 0 then uri
    else Substitute(BuildUriSpec(uri, entries[..|entries| - 1]), entries[|entries| - 1])
  }

  /** `build_uri`: the entries substituted one after the other into the template. */
  method BuildUri(uri: string, entries: seq<(string, UriValue)>) returns (r: string)
    ensures r == BuildUriSpec(uri, entries)
  {
    r := uri;
    var i := 0;
    while i < |entries|
      invariant 0 <= i <= |entries|
      invariant r == BuildUriSpec(uri, entries[..i])
    {
      assert entries[..i + 1][..i] == entries[..i];
      r := Substitute(r, entries[i]);
      i := i + 1;
    }
    assert entries[..|entries|] == entries;
  }

  /** A template holding the placeholder once, after text where it does not occur, gets exactly the value there. */
  lemma SubstituteAt(before: string, key: string, after: string, v: UriValue)
    requires forall j :: 0 <= j < |before| ==> !OccursAt(before + Placeholder(key) + after, Placeholder(key), j)
    ensures Substitute(before + Placeholder(key) + after, (key, v)) == before + ValueText(v) + after
  {
    ReplaceFirstAt(before, Placeholder(key), after, ValueText(v));
  }

  /** An entry whose placeholder is absent leaves the template as it is. */
  lemma SubstituteAbsent(uri: string, entry: (string, UriValue))
    requires forall j :: 0 <= j ==> !OccursAt(uri, Placeholder(entry.0), j)
    ensures Substitute(uri, entry) == uri
  {
  }

  /** Filling an entry at a time: the entries' fold splits at any point. */
  lemma {:induction false} BuildUriAppend(uri: string, a: seq<(string, UriValue)>, b: seq<(string, UriValue)>)
    ensures BuildUriSpec(uri, a + b) == BuildUriSpec(BuildUriSpec(uri, a), b)
    decreases |b|
  {
    if |b| == 0 {
      assert a + b == a;
    } else {
      assert (a + b)[..|a + b| - 1] == a + b[..|b| - 1];
      BuildUriAppend(uri, a, b[..|b| - 1]);
    }
  }

  /** The URL of `get` and `post`: path entries first, then query entries, after the base URL. */
  function CallUrl(baseUrl: string, route: string, path: Option<seq<(string, UriValue)>>, query: Option<seq<(string, UriValue)>>): (url: string)
    // every URL starts with the base URL
    ensures |url| >= |baseUrl| && url[..|baseUrl|] == baseUrl
    // without parameters the route is taken as it is, placeholders included
    ensures path.None? && query.None? ==> url == baseUrl + route
  {
    var afterPath := if path.Some? then BuildUriSpec(route, path.value) else route;
    baseUrl + (if query.Some? then BuildUriSpec(afterPath, query.value) else afterPath)
  }

  /** Filling the path and then the query is filling their entries in that order. */
  lemma PathThenQuery(baseUrl: string, route: string, path: seq<(string, UriValue)>, query: seq<(string, UriValue)>)
    ensures CallUrl(baseUrl, route, Some(path), Some(query)) == baseUrl + BuildUriSpec(route, path + query)
  {
    BuildUriAppend(route, path, query);
  }

  /** The URL of `put` and `delete`, which take no query. */
  function PathOnlyUrl(baseUrl: string, route: string, path: Option<seq<(string, UriValue)>>): (url: string)
    ensures url == CallUrl(baseUrl, route, path, None)
  {
    baseUrl + (if path.Some? then BuildUriSpec(route, path.value) else route)
  }

  /** A placeholder after text without "{" is the first occurrence, and is replaced by the value. */
  lemma SubstituteAfterPlainText(before: string, key: string, after: string, v: UriValue)
    requires '{' !in before
    ensures Substitute(before + Placeholder(key) + after, (key, v)) == before + ValueText(v) + after
  {
    var s := before + Placeholder(key) + after;
    forall j | 0 <= j < |before|
      ensures !OccursAt(s, Placeholder(key), j)
    {
      assert s[j] == before[j] != Placeholder(key)[0];
    }
    SubstituteAt(before, key, after, v);
  }

  /** Two entries are substituted in their order. */
  lemma BuildUriTwo(t: string, e1: (string, UriValue), e2: (string, UriValue))
    ensures BuildUriSpec(t, [e1, e2]) == Substitute(Substitute(t, e1), e2)
  {
    assert [e1, e2][..1] == [e1] && [e1][..0] == [];
    assert BuildUriSpec(t, [e1]) == Substitute(BuildUriSpec(t, []), e1) == Substitute(t, e1);
    assert BuildUriSpec(t, [e1, e2]) == Substitute(BuildUriSpec(t, [e1]), e2);
  }

  /** Sequence associativity for five parts: a proof step of `FillTwo`, with no meaning of its own. */
  lemma Regroup(x: string, y: string, z: string, w: string, u: string)
    ensures x + y + (z + w + u) == x + y + z + w + u
  {
  }

  /** Two path entries filling two placeholders, each after text without "{". */
  lemma FillTwo(a: string, k1: string, b: string, k2: string, c: string, v1: UriValue, v2: UriValue)
    requires '{' !in a && '{' !in ValueText(v1) && '{' !in b
    ensures BuildUriSpec(a + Placeholder(k1) + b + Placeholder(k2) + c, [(k1, v1), (k2, v2)])
            == a + ValueText(v1) + b + ValueText(v2) + c
  {
    var rest := b + Placeholder(k2) + c;
    Regroup(a, Placeholder(k1), b, Placeholder(k2), c);
    BuildUriTwo(a + Placeholder(k1) + rest, (k1, v1), (k2, v2));
    SubstituteAfterPlainText(a, k1, rest, v1);
    Regroup(a, ValueText(v1), b, Placeholder(k2), c);
    SubstituteAfterPlainText(a + ValueText(v1) + b, k2, c, v2);
  }

  /** The transfer list route, cut at its two placeholders. */
  lemma TransferRouteParts()
    ensures "/file-transfer/{pool_kp}/{device_id}/all" ==
            "/file-transfer/" + Placeholder("pool_kp") + "/" + Placeholder("device_id") + "/all"
    ensures '{' !in "/file-transfer/" && '{' !in "/"
  {
    assert Placeholder("pool_kp") == "{pool_kp}" && Placeholder("device_id") == "{device_id}";
  }

  /** Sequence associativity with a prefix: a proof step of `TransferListUrl`, with no meaning of its own. */
  lemma RegroupPrefix(p: string, x: string, y: string, z: string, w: string, u: string)
    ensures p + (x + y + z + w + u) == p + x + y + z + w + u
  {
  }

  /** The transfer list route, filled with both of its path values. */
  lemma TransferListUrl(baseUrl: string, poolKp: string, deviceId: string)
    requires '{' !in poolKp
    ensures CallUrl(baseUrl, "/file-transfer/{pool_kp}/{device_id}/all",
                    Some([("pool_kp", Text(poolKp)), ("device_id", Text(deviceId))]), None)
            == baseUrl + "/file-transfer/" + poolKp + "/" + deviceId + "/all"
  {
    TransferRouteParts();
    FillTwo("/file-transfer/", "pool_kp", "/", "device_id", "/all", Text(poolKp), Text(deviceId));
    RegroupPrefix(baseUrl, "/file-transfer/", poolKp, "/", deviceId, "/all");
  }

  // ---- HandleRequest ------------------------------------------------------------

  /** The envelope's `data` member: absent, not a string, or a string to be parsed. */
  datatype DataField = NoData | NotText | DataText(text: string)

  /** What `resp.json()` yields: nothing parsable, a value that is not an object, or the envelope's members. */
  datatype RespBody =
    | BodyUnparsable
    | BodyNotObject(typeError: string)
    | Body(success: Option<bool>, statusCode: Option<int>, data: DataField, reason: Option<string>)

  /** The outcome of `fetch`: it throws, or a response arrives. */
  datatype HttpOutcome = SendFailed(error: string) | Received(body: RespBody)

  /** The reason of a request that never got an answer (the closing brace is in the template). */
  function SendFailure(error: string): (reason: string)
    ensures |reason| == |"Client failed to send request to the server: "| + |error| + 1
    ensures reason[|reason| - 1] == '}'
  {
    "Client failed to send request to the server: " + error + "}"
  }

  /**
   * `HandleRequest`: the client's result for one server answer. `parse` is
   * `JSON.parse` on the data string (`None` when it throws).
   */
  function HandleRequest<T>(outcome: HttpOutcome, parse: string -> Option<T>, isNoBodyOk: bool, isNoDataOk: bool): (r: FunctionResult<T>)
    // a request that was never answered, or an answer that is not an object, fails with the error
    ensures outcome.SendFailed? ==> r == FunctionResult(false, None, Some(SendFailure(outcome.error)))
    ensures outcome.Received? && outcome.body.BodyNotObject? ==>
      r == FunctionResult(false, None, Some(SendFailure(outcome.body.typeError)))
    // an unparsable body: success only when the caller accepts a missing body
    ensures outcome.Received? && outcome.body.BodyUnparsable? ==>
      r == FunctionResult(isNoBodyOk, None, Some("failed to parse body"))
    // an envelope without `success` or `status_code`
    ensures outcome.Received? && outcome.body.Body? && (outcome.body.success.None? || outcome.body.statusCode.None?) ==>
      r == FunctionResult(false, None, Some("wrong data type"))
    // an envelope whose data string does not parse: the server's reason if any
    ensures outcome.Received? && outcome.body.Body? && outcome.body.success.Some? && outcome.body.statusCode.Some? &&
            outcome.body.data.DataText? && parse(outcome.body.data.text).None? ==>
      r == FunctionResult(isNoDataOk, None, Some(outcome.body.reason.GetOr("failed to parse data")))
    // otherwise the envelope, with the parsed data when there was a data string
    ensures outcome.Received? && outcome.body.Body? && outcome.body.success.Some? && outcome.body.statusCode.Some? &&
            !(outcome.body.data.DataText? && parse(outcome.body.data.text).None?) ==>
      r.succeed == outcome.body.success.value && r.reason == outcome.body.reason &&
      r.data == (if outcome.body.data.DataText? then parse(outcome.body.data.text) else None)
  {
    match outcome
    case SendFailed(e) => FunctionResult(false, None, Some(SendFailure(e)))
    case Received(body) =>
      match body
      case BodyUnparsable => FunctionResult(isNoBodyOk, None, Some("failed to parse body"))
      case BodyNotObject(e) => FunctionResult(false, None, Some(SendFailure(e)))
      case Body(success, statusCode, data, reason) =>
        if success.None? || statusCode.None? then FunctionResult(false, None, Some("wrong data type"))
        else
          var parsed := if data.DataText? then parse(data.text) else None;
          if data.DataText? && parsed.None? then FunctionResult(isNoDataOk, None, Some(reason.GetOr("failed to parse data")))
          else FunctionResult(success.value, parsed, reason)
  }

  /** A successful result can come only from an answer, and, with the default flags, only from a well-formed envelope saying so. */
  lemma SuccessNeedsEnvelope<T>(outcome: HttpOutcome, parse: string -> Option<T>)
    requires HandleRequest(outcome, parse, false, false).succeed
    ensures outcome.Received? && outcome.body.Body? && outcome.body.success == Some(true) && outcome.body.statusCode.Some?
    ensures outcome.body.data.DataText? ==> parse(outcome.body.data.text).Some?
  {
  }

  /** The status code plays no part in the result beyond being present. */
  lemma StatusCodeIgnored<T>(success: bool, a: int, b: int, data: DataField, reason: Option<string>, parse: string -> Option<T>,
                            isNoBodyOk: bool, isNoDataOk: bool)
    ensures HandleRequest(Received(Body(Some(success), Some(a), data, reason)), parse, isNoBodyOk, isNoDataOk) ==
            HandleRequest(Received(Body(Some(success), Some(b), data, reason)), parse, isNoBodyOk, isNoDataOk)
  {
  }

  // ---- HandleGetFilesAndSave ---------------------------------------------------

  predicate IsSlash(c: char) {
    c == '/'
  }

  /** The saved name: leading and trailing slashes removed, then everything from the first "." dropped. */
  function SanitizeFilename(filename: string): (r: string)
  {
    Split(TrimEndBy(TrimStartBy(filename, IsSlash), IsSlash), '.')[0]
  }

  /** Trimming the end keeps a prefix, which ends in a kept character when it is not empty. */
  lemma {:induction false} TrimEndByIsPrefix(s: string, ws: char -> bool)
    ensures |TrimEndBy(s, ws)| <= |s| && TrimEndBy(s, ws) == s[..|TrimEndBy(s, ws)|]
    ensures |TrimEndBy(s, ws)| > 0 ==> !ws(TrimEndBy(s, ws)[|TrimEndBy(s, ws)| - 1])
    decreases |s|
  {
    if |s| > 0 && ws(s[|s| - 1]) {
      TrimEndByIsPrefix(s[..|s| - 1], ws);
    }
  }

  /**
   * The saved name holds no ".", does not start with "/", is the start of the
   * name with its slashes trimmed, and ends before the first "." of it.
   */
  lemma SanitizedName(filename: string)
    ensures '.' !in SanitizeFilename(filename)
    ensures |SanitizeFilename(filename)| > 0 ==> SanitizeFilename(filename)[0] != '/'
    ensures
      var trimmed := TrimEndBy(TrimStartBy(filename, IsSlash), IsSlash);
      var r := SanitizeFilename(filename);
      |r| <= |trimmed| && r == trimmed[..|r|] && (|r| < |trimmed| ==> trimmed[|r|] == '.')
  {
    var start := TrimStartBy(filename, IsSlash);
    var trimmed := TrimEndBy(start, IsSlash);
    SplitPieces(trimmed, '.');
    TrimStartByStops(filename, IsSlash);
    TrimEndByIsPrefix(start, IsSlash);
    FirstPiece(trimmed, '.');
  }

  lemma {:induction false} FirstPiece(s: string, c: char)
    ensures |Split(s, c)[0]| <= |s| && Split(s, c)[0] == s[..|Split(s, c)[0]|]
    ensures |Split(s, c)[0]| < |s| ==> s[|Split(s, c)[0]|] == c
    ensures c !in s ==> Split(s, c)[0] == s
  {
    SplitPieces(s, c);
    var parts := Split(s, c);
    if |parts| == 1 {
      assert Join(parts, c) == parts[0];
    } else {
      assert Join(parts, c) == parts[0] + [c] + Join(parts[1..], c);
    }
  }

  /** A plain name, without slashes at its ends and without a ".", is kept as it is. */
  lemma PlainNameKept(filename: string)
    requires '.' !in filename
    requires |filename| > 0 ==> filename[0] != '/' && filename[|filename| - 1] != '/'
    ensures SanitizeFilename(filename) == filename
  {
    FirstPiece(filename, '.');
  }

  /** The outcome of one file's download and save. */
  datatype FileOutcome = FetchNotOk | NoContentType | Saved | Rejected(error: string)

  /** The result of one file's task, when it does not reject. */
  function FileResult(o: FileOutcome): (r: FunctionResult<()>)
    requires !o.Rejected?
    ensures r.succeed <==> o.Saved?
    ensures o.FetchNotOk? ==> r.reason == Some("server failed to fetch file")
    ensures o.NoContentType? ==> r.reason == Some("missing 'content-type' header")
  {
    match o
    case FetchNotOk => Failed(Some("server failed to fetch file"))
    case NoContentType => Failed(Some("missing 'content-type' header"))
    case Saved => Succeeded()
  }

  /** The first rejected task, if any. */
  function FirstRejection(outcomes: seq<FileOutcome>): (r: Option<string>)
    ensures r.None? <==> forall i :: 0 <= i < |outcomes| ==> !outcomes[i].Rejected?
    ensures r.Some? ==> exists i :: 0 <= i < |outcomes| && outcomes[i] == Rejected(r.value)
  {
    if |outcomes| == 0 then None
    else if outcomes[0].Rejected? then Some(outcomes[0].error)
    else
      var rest := FirstRejection(outcomes[1..]);
      assert forall i :: 1 <= i < |outcomes| ==> outcomes[i] == outcomes[1..][i - 1];
      rest
  }

  /**
   * `HandleGetFilesAndSave`: without permission nothing is downloaded; a
   * rejected task fails with its error; otherwise success means every file was saved.
   */
  function DownloadAll(permissionGranted: bool, outcomes: seq<FileOutcome>): (r: FunctionResult<()>)
    ensures !permissionGranted ==> r == Failed(Some("permission not granted"))
    ensures permissionGranted && FirstRejection(outcomes).Some? ==> r == Failed(FirstRejection(outcomes))
    ensures permissionGranted ==> (r.succeed <==> forall i :: 0 <= i < |outcomes| ==> outcomes[i].Saved?)
    ensures r.data.None?
  {
    if !permissionGranted then Failed(Some("permission not granted"))
    else match FirstRejection(outcomes)
      case Some(e) => Failed(Some(e))
      case None => FunctionResult(forall i :: 0 <= i < |outcomes| ==> FileResult(outcomes[i]).succeed, None, None)
  }
}
