/**
 * Client construction: the `baseURL` guard, the default headers, the
 * choice between an instance-wide timeout and the per-method timeout
 * interceptor, the registration order of the interceptors, and the request
 * function handed to the generated operations.
 *
 * The transport instance is a class whose interceptor lists grow as stages
 * are registered. `noCase` and the default query serializer are foreign
 * code and are parameters here.
 */
module Create {
  import opened Wrappers
  import opened Strings
  import opened Errors
  import opened Http
  import Auth
  import ResponseDebug
  import TimeoutInterceptor
  import RequestDebug

  const DefaultRefreshStatusCodes: seq<int> := [401]
  const DefaultRequestTimeout := 15000
  const BaseUrlMessage := "A `baseURL` must be given"

  /** The `timeout` option: one number for every request, or a per-method map. */
  datatype TimeoutOption = Numeric(ms: int) | PerMethod(timeouts: TimeoutInterceptor.Timeouts)

  /**
   * The client options. Each optional field is None when it is undefined;
   * for the hooks only whether they were given matters.
   */
  datatype ClientOptions = ClientOptions(
    baseURL: Option<string>,
    basePath: Option<string>,
    getAccessToken: Option<Auth.TokenRetriever>,
    refreshAccessToken: Option<Auth.TokenRetriever>,
    hooks: ResponseDebug.Hooks,
    onRequest: bool,
    paramsSerializer: Option<RequestDebug.Serializer>,
    userAgent: Option<string>,
    appVersion: Option<string>,
    refreshStatusCodes: Option<seq<int>>,
    timeout: Option<TimeoutOption>)

  /** A registered request interceptor. */
  datatype RequestStage =
    | TimeoutStage(timeouts: TimeoutInterceptor.Timeouts)
    | RequestDebugStage(serializer: RequestDebug.Serializer)

  /** A registered response interceptor. */
  datatype ResponseStage =
    | RefreshStage(codes: seq<int>, refresher: Option<Auth.TokenRetriever>)
    | EconnresetStage
    | ResponseDebugStage(hooks: ResponseDebug.Hooks)

  /** The configuration the instance is created with. */
  datatype InstanceConfig = InstanceConfig(
    baseURL: string,
    headers: map<string, string>,
    paramsSerializer: RequestDebug.Serializer,
    timeout: Option<int>)

  /** The transport instance and its interceptor lists, in registration order. */
  class AxiosInstance {
    const defaults: InstanceConfig
    var requestStages: seq<RequestStage>
    var responseStages: seq<ResponseStage>

    constructor (defaults: InstanceConfig)
      ensures this.defaults == defaults && requestStages == [] && responseStages == []
    {
      this.defaults := defaults;
      requestStages := [];
      responseStages := [];
    }

    /** `interceptors.request.use(...)`. */
    method UseRequest(stage: RequestStage)
      modifies this
      ensures requestStages == old(requestStages) + [stage]
      ensures responseStages == old(responseStages)
    {
      requestStages := requestStages + [stage];
    }

    /** `interceptors.response.use(...)`. */
    method UseResponse(stage: ResponseStage)
      modifies this
      ensures responseStages == old(responseStages) + [stage]
      ensures requestStages == old(requestStages)
    {
      responseStages := responseStages + [stage];
    }
  }

  // ---------------------------------------------------------------------
  // Headers
  // ---------------------------------------------------------------------

  /** The characters `\s` matches. */
  predicate Whitespace(c: char) {
    c == ' ' || c == '\t' || c == '\n' || c == '\r' || c == '\U{000B}' || c == '\U{000C}'
    || c == '\U{00A0}' || c == '\U{1680}' || ('\U{2000}' <= c <= '\U{200A}')
    || c == '\U{2028}' || c == '\U{2029}' || c == '\U{202F}' || c == '\U{205F}'
    || c == '\U{3000}' || c == '\U{FEFF}'
  }

  /** `replace(/\s+/g, '')`: every run of whitespace is removed. */
  function StripWhitespace(s: string): (r: string)
    ensures |r| <= |s|
    ensures forall k :: 0 <= k < |r| ==> !Whitespace(r[k])
    ensures (forall k :: 0 <= k < |s| ==> !Whitespace(s[k])) ==> r == s
  {
    if s == [] then []
    else if Whitespace(s[0]) then StripWhitespace(s[1..])
    else [s[0]] + StripWhitespace(s[1..])
  }

  /** The vendor media type: the title case-normalised, whitespace removed, and the API version. */
  function AcceptHeader(title: string, version: string, noCase: string -> string): (r: string)
    ensures |r| == 16 + |StripWhitespace(noCase(title))| + |"+json; version=" + version|
    ensures r[..16] == "application/vnd."
    // then the normalised title, free of whitespace, then the JSON suffix with the version
    ensures r[16..16 + |StripWhitespace(noCase(title))|] == StripWhitespace(noCase(title))
    ensures EndsWith(r, "+json; version=" + version)
  {
    var title' := StripWhitespace(noCase(title));
    var suffix := "+json; version=" + version;
    var r := "application/vnd." + title' + suffix;
    assert r[..16] == "application/vnd.";
    assert r[16..16 + |title'|] == title';
    assert r[|r| - |suffix|..] == suffix;
    r
  }

  /**
   * The instance headers: JSON content, the vendor Accept header, and the
   * user agent and app version exactly when they are given; nothing else.
   */
  ghost predicate InstanceHeaders(headers: map<string, string>, title: string, version: string,
                                  userAgent: Option<string>, appVersion: Option<string>, noCase: string -> string) {
    && "Content-Type" in headers && headers["Content-Type"] == "application/json"
    && "Accept" in headers && headers["Accept"] == AcceptHeader(title, version, noCase)
    && ("User-Agent" in headers <==> Truthy(userAgent))
    && (Truthy(userAgent) ==> headers["User-Agent"] == userAgent.value)
    && ("X-App-Version" in headers <==> Truthy(appVersion))
    && (Truthy(appVersion) ==> headers["X-App-Version"] == appVersion.value)
    && headers.Keys <= {"Content-Type", "Accept", "User-Agent", "X-App-Version"}
  }

  /** The instance headers, filled in one conditional assignment at a time. */
  method BuildHeaders(title: string, version: string, userAgent: Option<string>, appVersion: Option<string>,
                      noCase: string -> string)
    returns (headers: map<string, string>)
    ensures InstanceHeaders(headers, title, version, userAgent, appVersion, noCase)
  {
    headers := map["Content-Type" := "application/json", "Accept" := AcceptHeader(title, version, noCase)];
    if Truthy(userAgent) {
      headers := headers["User-Agent" := userAgent.value];
    }
    if Truthy(appVersion) {
      headers := headers["X-App-Version" := appVersion.value];
    }
  }

  /** Removing whitespace distributes over concatenation. */
  lemma {:induction false} StripWhitespaceConcat(x: string, y: string)
    ensures StripWhitespace(x + y) == StripWhitespace(x) + StripWhitespace(y)
  {
    if x != [] {
      assert (x + y)[1..] == x[1..] + y;
      StripWhitespaceConcat(x[1..], y);
    } else {
      assert x + y == y;
    }
  }

  /**
   * A case-normalised title of two words separated by a space (`my api`)
   * gives the words run together (`application/vnd.myapi+json; version=...`).
   */
  lemma AcceptHeaderOfTwoWords(title: string, version: string, noCase: string -> string, first: string, second: string)
    requires noCase(title) == first + " " + second
    requires forall k :: 0 <= k < |first| ==> !Whitespace(first[k])
    requires forall k :: 0 <= k < |second| ==> !Whitespace(second[k])
    ensures AcceptHeader(title, version, noCase) == "application/vnd." + (first + second) + ("+json; version=" + version)
  {
    assert StripWhitespace(noCase(title)) == first + second by {
      StripWhitespaceConcat(first + " ", second);
      StripWhitespaceConcat(first, " ");
      assert StripWhitespace(" ") == [];
    }
  }

  // ---------------------------------------------------------------------
  // Instance and interceptors
  // ---------------------------------------------------------------------

  function TimeoutOf(options: ClientOptions): (t: TimeoutOption)
    ensures options.timeout.None? ==> t == Numeric(DefaultRequestTimeout)
    ensures options.timeout.Some? ==> t == options.timeout.value
  {
    options.timeout.GetOr(Numeric(DefaultRequestTimeout))
  }

  function SerializerOf(options: ClientOptions, defaultSerializer: RequestDebug.Serializer): RequestDebug.Serializer {
    if options.paramsSerializer.Some? then options.paramsSerializer.value else defaultSerializer
  }

  /** The request interceptors, in registration order. */
  function RequestStages(options: ClientOptions, serializer: RequestDebug.Serializer): (r: seq<RequestStage>)
    // the timeout interceptor is registered exactly when the timeout is a per-method map
    ensures (exists k :: 0 <= k < |r| && r[k].TimeoutStage?) <==> TimeoutOf(options).PerMethod?
    // the request-debug interceptor is registered exactly when onRequest is given, with the instance's serializer
    ensures (exists k :: 0 <= k < |r| && r[k].RequestDebugStage?) <==> options.onRequest
    ensures forall k :: 0 <= k < |r| && r[k].RequestDebugStage? ==> r[k].serializer == serializer
    ensures forall k :: 0 <= k < |r| && r[k].TimeoutStage? ==> r[k].timeouts == TimeoutOf(options).timeouts
    ensures |r| <= 2 && (|r| == 2 ==> r[0].TimeoutStage? && r[1].RequestDebugStage?)
  {
    var timeoutStages := if TimeoutOf(options).PerMethod? then [TimeoutStage(TimeoutOf(options).timeouts)] else [];
    var debugStages := if options.onRequest then [RequestDebugStage(serializer)] else [];
    var r := timeoutStages + debugStages;
    assert TimeoutOf(options).PerMethod? ==> r[0].TimeoutStage?;
    assert options.onRequest ==> r[|r| - 1].RequestDebugStage?;
    r
  }

  /** The response interceptors, in registration order. */
  function ResponseStages(options: ClientOptions): (r: seq<ResponseStage>)
    ensures |r| == 3
    ensures r[0].RefreshStage? && r[1].EconnresetStage? && r[2].ResponseDebugStage?
    ensures r[0].codes == options.refreshStatusCodes.GetOr(DefaultRefreshStatusCodes)
    ensures r[0].refresher == options.refreshAccessToken
    ensures r[2].hooks == options.hooks
  {
    [RefreshStage(options.refreshStatusCodes.GetOr(DefaultRefreshStatusCodes), options.refreshAccessToken),
     EconnresetStage,
     ResponseDebugStage(options.hooks)]
  }

  /** The instance-wide timeout: the number when the option is numeric, otherwise none. */
  function InstanceTimeout(options: ClientOptions): (t: Option<int>)
    ensures t.Some? <==> TimeoutOf(options).Numeric?
    ensures options.timeout.None? ==> t == Some(DefaultRequestTimeout)
  {
    match TimeoutOf(options)
    case Numeric(ms) => Some(ms)
    case PerMethod(_) => None
  }

  /** `createAxiosInstance(options, version, title)`. */
  method CreateAxiosInstance(options: ClientOptions, version: string, title: string,
                             noCase: string -> string, defaultSerializer: RequestDebug.Serializer)
    returns (r: Result<AxiosInstance, Thrown>)
    ensures !Truthy(options.baseURL) ==> r == Failure(PlainError(BaseUrlMessage))
    ensures Truthy(options.baseURL) ==> r.Success? && fresh(r.value)
    ensures r.Success? ==>
      && r.value.defaults.baseURL == options.baseURL.value
      && InstanceHeaders(r.value.defaults.headers, title, version, options.userAgent, options.appVersion, noCase)
      && r.value.defaults.paramsSerializer == SerializerOf(options, defaultSerializer)
      && r.value.defaults.timeout == InstanceTimeout(options)
      && r.value.requestStages == RequestStages(options, SerializerOf(options, defaultSerializer))
      && r.value.responseStages == ResponseStages(options)
  {
    if !Truthy(options.baseURL) {
      return Failure(PlainError(BaseUrlMessage));
    }
    var serializer := if options.paramsSerializer.Some? then options.paramsSerializer.value else defaultSerializer;
    var timeout := if options.timeout.Some? then options.timeout.value else Numeric(DefaultRequestTimeout);
    var headers := BuildHeaders(title, version, options.userAgent, options.appVersion, noCase);
    var instance := new AxiosInstance(InstanceConfig(
      options.baseURL.value, headers, serializer, if timeout.Numeric? then Some(timeout.ms) else None));
    if timeout.PerMethod? {
      instance.UseRequest(TimeoutStage(timeout.timeouts));
    }
    var codes := if options.refreshStatusCodes.Some? then options.refreshStatusCodes.value else DefaultRefreshStatusCodes;
    instance.UseResponse(RefreshStage(codes, options.refreshAccessToken));
    instance.UseResponse(EconnresetStage);
    instance.UseResponse(ResponseDebugStage(options.hooks));
    if options.onRequest {
      instance.UseRequest(RequestDebugStage(serializer));
    }
    return Success(instance);
  }

  /** What `createRequestFunction` closes over. */
  datatype RequestFunction = RequestFunction(
    instance: AxiosInstance,
    basePath: Option<string>,
    getAccessToken: Option<Auth.TokenRetriever>,
    refreshAccessToken: Option<Auth.TokenRetriever>)

  /** `getRequestFunction(title, version, options)`. */
  method GetRequestFunction(title: string, version: string, options: ClientOptions,
                            noCase: string -> string, defaultSerializer: RequestDebug.Serializer)
    returns (r: Result<RequestFunction, Thrown>)
    ensures !Truthy(options.baseURL) ==> r == Failure(PlainError(BaseUrlMessage))
    ensures Truthy(options.baseURL) ==> r.Success? && fresh(r.value.instance)
    ensures r.Success? ==>
      && r.value.basePath == options.basePath
      && r.value.getAccessToken == options.getAccessToken
      && r.value.refreshAccessToken == options.refreshAccessToken
      && r.value.instance.responseStages == ResponseStages(options)
      && r.value.instance.requestStages == RequestStages(options, SerializerOf(options, defaultSerializer))
  {
    var instance := CreateAxiosInstance(options, version, title, noCase, defaultSerializer);
    if instance.Failure? {
      return Failure(instance.error);
    }
    return Success(RequestFunction(instance.value, options.basePath, options.getAccessToken, options.refreshAccessToken));
  }
}
