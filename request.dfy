/**
 * The request function handed to the generated operations: it slots path
 * parameters into the endpoint, prefixes the base path, copies the body and
 * query, asks the token authority for a header, sends the request through
 * the transport and returns the response body.
 */
module Request {
  import opened Wrappers
  import opened Strings
  import opened Errors
  import opened Http
  import Auth

  /** What a generated operation passes: its endpoint template, method and `secure` flag. */
  datatype OperationConfig = OperationConfig(endpoint: string, httpMethod: string, secure: bool)

  /** The caller's options; each record may be absent (null or undefined). */
  datatype OperationOptions = OperationOptions(data: Option<Entries>, query: Option<Entries>, params: Option<Entries>)

  function ParamsOf(options: Option<OperationOptions>): Option<Entries> {
    if options.Some? then options.value.params else None
  }

  function DataOf(options: Option<OperationOptions>): Option<Entries> {
    if options.Some? then options.value.data else None
  }

  function QueryOf(options: Option<OperationOptions>): Option<Entries> {
    if options.Some? then options.value.query else None
  }

  // ---------------------------------------------------------------------
  // The remaining-placeholder scan: the global regular expression `\{.*\}`
  // ---------------------------------------------------------------------

  /** The characters `.` does not match. */
  predicate LineTerminator(c: char) {
    c == '\n' || c == '\r' || c == '\U{2028}' || c == '\U{2029}'
  }

  predicate NoLineTerminators(s: string) {
    forall k :: 0 <= k < |s| ==> !LineTerminator(s[k])
  }

  /** The end of the line that contains index `from`. */
  function LineEnd(s: string, from: nat): (k: nat)
    requires from <= |s|
    decreases |s| - from
    ensures from <= k <= |s|
    ensures k < |s| ==> LineTerminator(s[k])
    ensures forall j :: from <= j < k ==> !LineTerminator(s[j])
  {
    if from == |s| || LineTerminator(s[from]) then from else LineEnd(s, from + 1)
  }

  /** The last `}` in `s[lo..hi]`. */
  function LastCloseIn(s: string, lo: nat, hi: nat): (r: Option<nat>)
    requires lo <= hi <= |s|
    decreases hi - lo
    ensures r.Some? ==> lo <= r.value < hi && s[r.value] == '}'
    ensures r.Some? ==> forall j :: r.value < j < hi ==> s[j] != '}'
    ensures r.None? ==> forall j :: lo <= j < hi ==> s[j] != '}'
  {
    if hi == lo then None
    else if s[hi - 1] == '}' then Some(hi - 1)
    else LastCloseIn(s, lo, hi - 1)
  }

  /**
   * The matches of `/\{.*\}/g`, left to right: each starts at a `{` and,
   * the quantifier being greedy, runs to the last `}` on the same line.
   */
  function PlaceholderMatches(s: string): (r: seq<string>)
    decreases |s|
    ensures forall k :: 0 <= k < |r| ==> |r[k]| >= 2 && r[k][0] == '{' && r[k][|r[k]| - 1] == '}'
  {
    if s == [] then []
    else if s[0] == '{' && LastCloseIn(s, 1, LineEnd(s, 1)).Some? then
      var j := LastCloseIn(s, 1, LineEnd(s, 1)).value;
      [s[..j + 1]] + PlaceholderMatches(s[j + 1..])
    else PlaceholderMatches(s[1..])
  }

  /** Some `{` comes before some `}`. */
  predicate HasPlaceholder(s: string) {
    exists i, j :: 0 <= i < j < |s| && s[i] == '{' && s[j] == '}'
  }

  predicate FirstOpen(s: string, i: int) {
    0 <= i < |s| && s[i] == '{' && forall k :: 0 <= k < i ==> s[k] != '{'
  }

  predicate LastClose(s: string, j: int) {
    0 <= j < |s| && s[j] == '}' && forall k :: j < k < |s| ==> s[k] != '}'
  }

  /** Dropping a first character that is not `{` shifts the first `{` and the last `}` by one. */
  lemma ShiftPastNonOpen(s: string)
    requires s != [] && s[0] != '{'
    ensures NoLineTerminators(s) ==> NoLineTerminators(s[1..])
    ensures HasPlaceholder(s) ==> HasPlaceholder(s[1..])
    ensures forall i, j :: FirstOpen(s, i) && LastClose(s, j) && i < j ==>
      FirstOpen(s[1..], i - 1) && LastClose(s[1..], j - 1) && s[i..j + 1] == s[1..][i - 1..j]
  {
    var t := s[1..];
    assert forall k :: 0 <= k < |t| ==> t[k] == s[k + 1];
    if HasPlaceholder(s) {
      var i, j :| 0 <= i < j < |s| && s[i] == '{' && s[j] == '}';
      assert t[i - 1] == '{' && t[j - 1] == '}';
    }
  }

  /** A `}` found as the last one on a line that starts with `{` leaves no placeholder behind it. */
  lemma RestAfterLastClose(s: string, j: nat)
    requires NoLineTerminators(s) && j < |s|
    requires forall k :: j < k < |s| ==> s[k] != '}'
    ensures NoLineTerminators(s[j + 1..]) && !HasPlaceholder(s[j + 1..])
  {
    var rest := s[j + 1..];
    assert forall k :: 0 <= k < |rest| ==> rest[k] == s[j + 1 + k];
  }

  /**
   * On a single line the scan reports at most one match, running from the
   * first `{` to the last `}`, however many placeholders lie in between.
   */
  lemma {:induction false} OneLineMatches(s: string)
    requires NoLineTerminators(s)
    decreases |s|
    ensures !HasPlaceholder(s) ==> PlaceholderMatches(s) == []
    ensures forall i, j :: FirstOpen(s, i) && LastClose(s, j) && i < j ==> PlaceholderMatches(s) == [s[i..j + 1]]
  {
    if s == [] {
      return;
    }
    if s[0] == '{' {
      OneLineOpen(s);
    } else {
      ShiftPastNonOpen(s);
      OneLineMatches(s[1..]);
      assert PlaceholderMatches(s) == PlaceholderMatches(s[1..]);
    }
  }

  lemma {:induction false} OneLineOpen(s: string)
    requires NoLineTerminators(s) && s != [] && s[0] == '{'
    decreases |s|, 0
    ensures !HasPlaceholder(s) ==> PlaceholderMatches(s) == []
    ensures forall i, j :: FirstOpen(s, i) && LastClose(s, j) && i < j ==> PlaceholderMatches(s) == [s[i..j + 1]]
  {
    var e := LineEnd(s, 1);
    assert e == |s|;
    match LastCloseIn(s, 1, e)
    case None =>
      RestAfterLastClose(s, 0);
      OneLineMatches(s[1..]);
      assert PlaceholderMatches(s) == PlaceholderMatches(s[1..]);
      assert !HasPlaceholder(s[1..]);
    case Some(j) =>
      RestAfterLastClose(s, j);
      OneLineMatches(s[j + 1..]);
      assert PlaceholderMatches(s) == [s[..j + 1]] + PlaceholderMatches(s[j + 1..]);
      forall i, j' | FirstOpen(s, i) && LastClose(s, j') && i < j' ensures PlaceholderMatches(s) == [s[i..j' + 1]] {
        assert i == 0;
        assert j' == j;
      }
  }

  /** A string without `{` has no matches. */
  lemma {:induction false} NoOpenNoMatches(s: string)
    requires '{' !in s
    decreases |s|
    ensures PlaceholderMatches(s) == []
  {
    if s != [] {
      assert s[1..] <= s[1..] && forall c :: c in s[1..] ==> c in s;
      NoOpenNoMatches(s[1..]);
    }
  }

  // ---------------------------------------------------------------------
  // populateEndpoint
  // ---------------------------------------------------------------------

  const MissingParametersPrefix := "Missing required path parameter(s): "

  /** Entries whose value is null, undefined or the empty string are not slotted in. */
  predicate Skipped(v: Value) {
    v.Undefined? || v.Null? || v == Str("")
  }

  /** The placeholder text of a key: `{key}`. */
  function Placeholder(key: string): (p: string)
    ensures |p| == |key| + 2 && p[0] == '{' && p[|p| - 1] == '}'
  {
    "{" + key + "}"
  }

  /** The template after slotting in the first entries, one replacement per entry. */
  function Substituted(template: string, entries: Entries): (r: string)
    decreases |entries|
    // entries that are all null, undefined or empty leave the template as it is
    ensures (forall k :: 0 <= k < |entries| ==> Skipped(entries[k].1)) ==> r == template
  {
    if entries == [] then template
    else
      var last := entries[|entries| - 1];
      var before := Substituted(template, entries[..|entries| - 1]);
      if Skipped(last.1) then before else ReplaceFirst(before, Placeholder(last.0), ValueToString(last.1))
  }

  /**
   * The populated endpoint, or the message of the error thrown when a
   * placeholder remains.
   */
  function ResolvedEndpoint(endpoint: string, params: Option<Entries>): (r: Result<string, string>)
    ensures r.Success? ==> PlaceholderMatches(r.value) == []
    ensures r.Failure? ==> MissingParametersPrefix < r.error
  {
    var populated := if params.Some? then Substituted(endpoint, params.value) else endpoint;
    var remaining := PlaceholderMatches(populated);
    if |remaining| > 0 then Failure(MissingParametersPrefix + Join(remaining, ", ")) else Success(populated)
  }

  /** `populateEndpoint(endpoint, { params })`, replacing placeholders entry by entry. */
  method PopulateEndpoint(endpoint: string, params: Option<Entries>) returns (r: Result<string, string>)
    ensures r == ResolvedEndpoint(endpoint, params)
  {
    var populated := endpoint;
    if params.Some? {
      var entries := params.value;
      var i := 0;
      while i < |entries|
        invariant 0 <= i <= |entries|
        invariant populated == Substituted(endpoint, entries[..i])
      {
        var (key, value) := entries[i];
        assert entries[..i + 1][..i] == entries[..i];
        if !Skipped(value) {
          populated := ReplaceFirst(populated, Placeholder(key), ValueToString(value));
        }
        i := i + 1;
      }
      assert entries[..i] == entries;
    }
    var remaining := PlaceholderMatches(populated);
    if |remaining| > 0 {
      return Failure(MissingParametersPrefix + Join(remaining, ", "));
    }
    return Success(populated);
  }

  /** An endpoint without braces comes back unchanged, whatever the parameters. */
  lemma {:induction false} EndpointWithoutPlaceholders(endpoint: string, params: Option<Entries>)
    requires '{' !in endpoint
    ensures ResolvedEndpoint(endpoint, params) == Success(endpoint)
  {
    if params.Some? {
      SubstitutedWithoutPlaceholders(endpoint, params.value);
    }
    NoOpenNoMatches(endpoint);
  }

  lemma {:induction false} SubstitutedWithoutPlaceholders(endpoint: string, entries: Entries)
    requires '{' !in endpoint
    decreases |entries|
    ensures Substituted(endpoint, entries) == endpoint
  {
    if entries != [] {
      var last := entries[|entries| - 1];
      SubstitutedWithoutPlaceholders(endpoint, entries[..|entries| - 1]);
      var p := Placeholder(last.0);
      assert !Contains(endpoint, p) by {
        assert p[0] == '{';
      }
    }
  }

  /**
   * On one line, population fails exactly when some `{` precedes some `}`,
   * and the message then quotes everything from the first `{` to the last `}`.
   */
  lemma MissingParameterMessage(populated: string, i: nat, j: nat)
    requires NoLineTerminators(populated)
    requires FirstOpen(populated, i) && LastClose(populated, j) && i < j
    ensures ResolvedEndpoint(populated, None) == Failure(MissingParametersPrefix + populated[i..j + 1])
  {
    OneLineMatches(populated);
  }

  lemma NoPlaceholderResolves(populated: string)
    requires NoLineTerminators(populated) && !HasPlaceholder(populated)
    ensures ResolvedEndpoint(populated, None) == Success(populated)
  {
    OneLineMatches(populated);
  }

  /**
   * A supplied parameter replaces its placeholder with `String(value)`, and
   * the endpoint then resolves to the filled-in path.
   */
  lemma ParameterSubstituted(prefix: string, key: string, suffix: string, v: Value)
    requires !Skipped(v)
    requires '{' !in prefix && '{' !in suffix && '{' !in ValueToString(v)
    ensures ResolvedEndpoint(prefix + Placeholder(key) + suffix, Some([(key, v)]))
      == Success(prefix + ValueToString(v) + suffix)
  {
    var s := prefix + Placeholder(key) + suffix;
    var p := Placeholder(key);
    var entries: Entries := [(key, v)];
    assert entries[..0] == [];
    assert Substituted(s, entries) == ReplaceFirst(s, p, ValueToString(v));
    assert OccursAt(s, p, |prefix|) by {
      assert s[|prefix|..|prefix| + |p|] == p;
    }
    forall j: nat | j < |prefix| ensures !OccursAt(s, p, j) {
      assert s[j] == prefix[j] != '{';
      assert j + |p| <= |s| ==> s[j..j + |p|][0] == s[j];
    }
    assert s[..|prefix|] == prefix;
    assert s[|prefix| + |p|..] == suffix;
    var filled := prefix + ValueToString(v) + suffix;
    assert '{' !in filled;
    NoOpenNoMatches(filled);
  }

  /** A parameter given as the empty string counts as missing. */
  lemma EmptyParameterIsMissing(prefix: string, key: string)
    requires '{' !in prefix && '}' !in key && '{' !in key && NoLineTerminators(prefix + Placeholder(key))
    ensures ResolvedEndpoint(prefix + Placeholder(key), Some([(key, Str(""))]))
      == Failure(MissingParametersPrefix + Placeholder(key))
  {
    var s := prefix + Placeholder(key);
    var entries: Entries := [(key, Str(""))];
    assert entries[..0] == [];
    assert Substituted(s, entries) == s;
    var i, j := |prefix|, |s| - 1;
    assert FirstOpen(s, i) by {
      forall k | 0 <= k < i ensures s[k] != '{' {
        assert s[k] == prefix[k];
      }
    }
    assert LastClose(s, j);
    OneLineMatches(s);
    assert s[i..j + 1] == Placeholder(key);
  }

  // ---------------------------------------------------------------------
  // trimSlashes and getFullPath
  // ---------------------------------------------------------------------

  /** `replace(/\/+$/, '')`. */
  function TrimTrailingSlashes(s: string): (r: string)
    ensures r <= s && (r == [] || r[|r| - 1] != '/')
    ensures forall k :: |r| <= k < |s| ==> s[k] == '/'
  {
    if s != [] && s[|s| - 1] == '/' then TrimTrailingSlashes(s[..|s| - 1]) else s
  }

  /** `replace(/^\/+/, '')`. */
  function TrimLeadingSlashes(s: string): (r: string)
    ensures |r| <= |s| && r == s[|s| - |r|..] && (r == [] || r[0] != '/')
    ensures forall k :: 0 <= k < |s| - |r| ==> s[k] == '/'
  {
    if s != [] && s[0] == '/' then TrimLeadingSlashes(s[1..]) else s
  }

  /** `trimSlashes(s)`: the trailing run of slashes is removed first, then the leading one. */
  function TrimSlashes(s: string): (r: string)
    ensures r == [] || (r[0] != '/' && r[|r| - 1] != '/')
    ensures |r| <= |s|
  {
    TrimLeadingSlashes(TrimTrailingSlashes(s))
  }

  /** Trimming is idempotent. */
  lemma TrimSlashesIdempotent(s: string)
    ensures TrimSlashes(TrimSlashes(s)) == TrimSlashes(s)
  {
  }

  /** Trimming only removes slashes: what is left is a contiguous slice of the input. */
  lemma TrimSlashesIsSlice(s: string) returns (start: nat)
    ensures start + |TrimSlashes(s)| <= |s| && TrimSlashes(s) == s[start..start + |TrimSlashes(s)|]
    ensures forall k :: 0 <= k < start ==> s[k] == '/'
    ensures forall k :: start + |TrimSlashes(s)| <= k < |s| ==> s[k] == '/'
  {
    var u := TrimTrailingSlashes(s);
    var r := TrimLeadingSlashes(u);
    start := |u| - |r|;
    assert u == s[..|u|];
  }

  /** `getFullPath(endpoint, basePath)`: an empty or absent base path leaves the endpoint as it is. */
  function FullPath(endpoint: string, basePath: Option<string>): (r: string)
    ensures !Truthy(basePath) ==> r == endpoint
    ensures Truthy(basePath) ==> |r| == |TrimSlashes(basePath.value)| + |TrimSlashes(endpoint)| + 2 && r[0] == '/'
  {
    if Truthy(basePath) then "/" + TrimSlashes(basePath.value) + "/" + TrimSlashes(endpoint) else endpoint
  }

  /** `r` is `/`, then `a`, then exactly one slash, then `b`, with no slash run around the joint. */
  ghost predicate JoinedOnce(r: string, a: string, b: string)
  {
    var k := 1 + |a|;
    a != [] && b != [] && |r| == |a| + |b| + 2 && r[0] == '/' && r[k] == '/' && r[k - 1] != '/' && r[k + 1] != '/'
    && r[1..k] == a && r[k + 1..] == b
  }

  /**
   * With a base path, the base and the endpoint are joined by exactly one
   * slash whenever neither is all slashes, and both appear trimmed.
   */
  lemma JoinedByOneSlash(endpoint: string, basePath: string)
    requires basePath != ""
    requires TrimSlashes(basePath) != "" && TrimSlashes(endpoint) != ""
    ensures JoinedOnce(FullPath(endpoint, Some(basePath)), TrimSlashes(basePath), TrimSlashes(endpoint))
  {
    var a, b := TrimSlashes(basePath), TrimSlashes(endpoint);
    SlashJoin(a, b);
    assert FullPath(endpoint, Some(basePath)) == "/" + a + "/" + b;
  }

  lemma SlashJoin(a: string, b: string)
    requires a != [] && b != [] && a[|a| - 1] != '/' && b[0] != '/'
    ensures JoinedOnce("/" + a + "/" + b, a, b)
  {
    var r := "/" + a + "/" + b;
    var k := 1 + |a|;
    assert r[k - 1] == a[|a| - 1];
    assert r[k + 1] == b[0];
  }

  /** A base path of `/` trims to nothing and leaves a double slash in front. */
  lemma RootBasePathDoublesSlash(endpoint: string)
    requires endpoint != [] && endpoint[0] != '/' && endpoint[|endpoint| - 1] != '/'
    ensures FullPath(endpoint, Some("/")) == "//" + endpoint
  {
    assert TrimTrailingSlashes("/") == TrimTrailingSlashes("") == "";
    assert TrimSlashes("/") == "";
    assert TrimTrailingSlashes(endpoint) == endpoint;
    assert TrimSlashes(endpoint) == endpoint;
    assert FullPath(endpoint, Some("/")) == "/" + "" + "/" + endpoint;
  }

  // ---------------------------------------------------------------------
  // createRequestFunction
  // ---------------------------------------------------------------------

  /** A record is copied only when it is present and has at least one key. */
  function NonEmpty(record: Option<Entries>): Option<Entries> {
    if record.Some? && |record.value| > 0 then record else None
  }

  /** The request configuration handed to the transport. */
  function AssembleConfig(url: string, httpMethod: string, options: Option<OperationOptions>,
                          authorization: Option<string>): (c: RequestConfig)
    ensures c.url == Some(url) && c.httpMethod == Some(httpMethod)
    ensures c.data.Some? <==> DataOf(options).Some? && |DataOf(options).value| > 0
    ensures c.data.Some? ==> c.data == DataOf(options)
    ensures c.params.Some? <==> QueryOf(options).Some? && |QueryOf(options).value| > 0
    ensures c.params.Some? ==> c.params == QueryOf(options)
    ensures c.headers.Keys <= {"Authorization"}
    ensures "Authorization" in c.headers <==> authorization.Some?
    ensures authorization.Some? ==> c.headers["Authorization"] == authorization.value
    ensures c.baseURL.None? && c.timeout.None? && !c.retry
  {
    RequestConfig(
      Some(url), Some(httpMethod), None,
      NonEmpty(DataOf(options)), NonEmpty(QueryOf(options)),
      if authorization.Some? then map["Authorization" := authorization.value] else map[],
      None, false)
  }

  /** A call's visible steps: the token callbacks it invokes and the request it sends. */
  datatype Effect = RetrieveToken | RefreshToken | Send(config: RequestConfig)

  /** How the transport settles a request. */
  datatype Settled = Fulfilled(response: Response) | Rejected(reason: Thrown)

  function Refreshes(n: nat): (r: seq<Effect>)
    ensures |r| == n && forall k :: 0 <= k < n ==> r[k] == RefreshToken
  {
    seq(n, _ => RefreshToken)
  }

  /**
   * Everything a call does before the transport: the configuration it
   * sends or the error it throws, and the callbacks it invokes on the way.
   */
  function Prepare(op: OperationConfig, options: Option<OperationOptions>, basePath: Option<string>,
                   getAccessToken: Option<Auth.TokenRetriever>, refreshAccessToken: Option<Auth.TokenRetriever>,
                   now: real): (p: (Result<RequestConfig, Thrown>, seq<Effect>))
    // an endpoint with a missing path parameter fails before any callback runs
    ensures ResolvedEndpoint(op.endpoint, ParamsOf(options)).Failure? ==>
      p == (Failure(PlainError(ResolvedEndpoint(op.endpoint, ParamsOf(options)).error)), [])
    ensures p.0.Success? ==> ResolvedEndpoint(op.endpoint, ParamsOf(options)).Success?
    // at most one retrieval and two refreshes
    ensures |p.1| <= 3 && forall k :: 0 <= k < |p.1| ==> p.1[k] in {RetrieveToken, RefreshToken}
    ensures p.1 != [] && getAccessToken.Some? ==> p.1[0] == RetrieveToken
    ensures getAccessToken.None? ==> RetrieveToken !in p.1
    ensures refreshAccessToken.None? ==> RefreshToken !in p.1
    // failures after resolution are 401 client errors
    ensures p.0.Failure? && ResolvedEndpoint(op.endpoint, ParamsOf(options)).Success? ==>
      p.0.error.ApiFailure? && p.0.error.error.ClientError? && p.0.error.error.statusCode == Some(401)
    // an open route never fails once resolved; a secure one always carries a header when it sends
    ensures !op.secure && ResolvedEndpoint(op.endpoint, ParamsOf(options)).Success? ==> p.0.Success?
    ensures p.0.Success? && op.secure ==> "Authorization" in p.0.value.headers
    ensures op.secure && getAccessToken.None? ==> p.0.Failure?
    ensures p.0.Success? ==> p.0.value.httpMethod == Some(op.httpMethod)
    // the retriever runs at most once and first; every later callback is a refresh
    ensures forall k :: 0 < k < |p.1| ==> p.1[k] == RefreshToken
    // the authority is asked about the full path of the resolved endpoint; its header goes into the sent configuration
    ensures ResolvedEndpoint(op.endpoint, ParamsOf(options)).Success? ==>
      var url := FullPath(ResolvedEndpoint(op.endpoint, ParamsOf(options)).value, basePath);
      var decided := Auth.Decide(url, op.secure, getAccessToken, refreshAccessToken, now);
      && p.1 == (if getAccessToken.Some? then [RetrieveToken] else []) + Refreshes(decided.1)
      && (match Auth.HeaderOf(decided.0)
          case Success(authorization) => p.0 == Success(AssembleConfig(url, op.httpMethod, options, authorization))
          case Failure(e) => p.0 == Failure(ApiFailure(e)))
  {
    match ResolvedEndpoint(op.endpoint, ParamsOf(options))
    case Failure(message) => (Failure(PlainError(message)), [])
    case Success(populated) =>
      var url := FullPath(populated, basePath);
      var decided := Auth.Decide(url, op.secure, getAccessToken, refreshAccessToken, now);
      var effects := (if getAccessToken.Some? then [RetrieveToken] else []) + Refreshes(decided.1);
      match Auth.HeaderOf(decided.0)
      case Failure(e) => (Failure(ApiFailure(e)), effects)
      case Success(authorization) => (Success(AssembleConfig(url, op.httpMethod, options, authorization)), effects)
  }

  /**
   * A secure operation whose retrieved token is valid sends that token, to
   * the full path, after a single retrieval and no refresh.
   */
  lemma ValidTokenIsSent(op: OperationConfig, options: Option<OperationOptions>, basePath: Option<string>,
                         getAccessToken: Auth.TokenRetriever, refreshAccessToken: Option<Auth.TokenRetriever>,
                         now: real, populated: string)
    requires ResolvedEndpoint(op.endpoint, ParamsOf(options)) == Success(populated)
    requires op.secure && Auth.Present(getAccessToken(0)) && !Auth.IsTokenExpired(getAccessToken(0).value, now)
    ensures var p := Prepare(op, options, basePath, Some(getAccessToken), refreshAccessToken, now);
      && p.1 == [RetrieveToken]
      && p.0.Success?
      && p.0.value.url == Some(FullPath(populated, basePath))
      && p.0.value.headers.Keys == {"Authorization"}
      && p.0.value.headers["Authorization"] == "Bearer " + getAccessToken(0).value.raw
  {
    var url := FullPath(populated, basePath);
    var decided := Auth.Decide(url, op.secure, Some(getAccessToken), refreshAccessToken, now);
    assert decided == (Auth.Bearer(getAccessToken(0).value), 0);
    assert Refreshes(0) == [];
  }

  /** The body of a fulfilled response, or the transport's rejection. */
  function Deliver(s: Settled): Result<Body, Thrown> {
    match s
    case Fulfilled(response) => Success(response.data)
    case Rejected(reason) => Failure(reason)
  }

  /**
   * One call of the request function. `send` is the transport's `request`,
   * interceptors included.
   */
  method Call(op: OperationConfig, options: Option<OperationOptions>, basePath: Option<string>,
              getAccessToken: Option<Auth.TokenRetriever>, refreshAccessToken: Option<Auth.TokenRetriever>,
              now: real, send: RequestConfig -> Settled)
    returns (r: Result<Body, Thrown>, effects: seq<Effect>)
    ensures var p := Prepare(op, options, basePath, getAccessToken, refreshAccessToken, now);
      if p.0.Failure? then r == Failure(p.0.error) && effects == p.1
      else r == Deliver(send(p.0.value)) && effects == p.1 + [Send(p.0.value)]
  {
    var populated := PopulateEndpoint(op.endpoint, ParamsOf(options));
    if populated.Failure? {
      return Failure(PlainError(populated.error)), [];
    }
    var url := FullPath(populated.value, basePath);
    var config := RequestConfig(Some(url), Some(op.httpMethod), None, None, None, map[], None, false);
    if options.Some? && options.value.data.Some? && |options.value.data.value| > 0 {
      config := config.(data := options.value.data);
    }
    if options.Some? && options.value.query.Some? && |options.value.query.value| > 0 {
      config := config.(params := options.value.query);
    }
    var authorization, refreshCalls := Auth.GetAuthorizationHeader(url, op.secure, getAccessToken, refreshAccessToken, now);
    effects := (if getAccessToken.Some? then [RetrieveToken] else []) + Refreshes(refreshCalls);
    if authorization.Failure? {
      return Failure(ApiFailure(authorization.error)), effects;
    }
    if authorization.value.Some? {
      config := config.(headers := map["Authorization" := authorization.value.value]);
    }
    effects := effects + [Send(config)];
    r := Deliver(send(config));
  }
}
