/**
 * The request-debug interceptor: before a request leaves, it reports the
 * upper-cased method and the resolved URL (with the serialized query) to
 * the `onRequest` hook, and passes the configuration on unchanged.
 *
 * URL resolution (`new URL(url, baseURL)`) and the query serializer are
 * foreign code and are parameters here; the hook call is the event it emits.
 */
module RequestDebug {
  import opened Wrappers
  import opened Strings
  import opened Errors
  import opened Http

  /** A parsed URL: everything up to the query, and the query (`search`). */
  datatype Url = Url(location: string, search: string)

  /** `new URL(url, base)`; None when the constructor throws. */
  type UrlParser = (string, Option<string>) -> Option<Url>

  /** The instance's `paramsSerializer`. */
  type Serializer = Entries -> string

  /** One call of `onRequest`. */
  datatype RequestEvent = RequestEvent(httpMethod: string, url: Url)

  /** The error `new URL` throws for an unparsable address. */
  const InvalidUrl := PlainError("Invalid URL")

  /** The URL that is reported: the parsed one, its query replaced when there are params. */
  function ReportedUrl(serializer: Serializer, parsed: Url, params: Option<Entries>): (u: Url)
    ensures u.location == parsed.location
    ensures params.None? ==> u == parsed
    ensures params.Some? ==> u.search == "?" + serializer(params.value)
  {
    if params.Some? then parsed.(search := "?" + serializer(params.value)) else parsed
  }

  /**
   * `success`: the configuration it passes on (or the error `new URL`
   * throws) and the event it reports.
   */
  function OnFulfilled(serializer: Serializer, parse: UrlParser, config: RequestConfig)
    : (o: (Result<RequestConfig, Thrown>, Option<RequestEvent>))
    // without a url or a method nothing is reported
    ensures !Truthy(config.url) || !Truthy(config.httpMethod) ==> o == (Success(config), None)
    // the configuration is never altered
    ensures o.0.Success? ==> o.0.value == config
    ensures o.0.Failure? <==> Truthy(config.url) && Truthy(config.httpMethod) && parse(config.url.value, config.baseURL).None?
    // exactly one report, with the method upper-cased and the URL resolved against the base
    ensures o.1.Some? <==> Truthy(config.url) && Truthy(config.httpMethod) && parse(config.url.value, config.baseURL).Some?
    ensures o.1.Some? ==> o.0.Success?
    ensures o.1.Some? ==> o.1.value.httpMethod == ToUpper(config.httpMethod.value)
    ensures o.1.Some? ==>
      o.1.value.url == ReportedUrl(serializer, parse(config.url.value, config.baseURL).value, config.params)
  {
    if !Truthy(config.url) || !Truthy(config.httpMethod) then (Success(config), None)
    else
      match parse(config.url.value, config.baseURL)
      case None => (Failure(InvalidUrl), None)
      case Some(parsed) =>
        (Success(config), Some(RequestEvent(ToUpper(config.httpMethod.value), ReportedUrl(serializer, parsed, config.params))))
  }

  /** `error`: the same error is rejected and nothing is reported. */
  function OnRejected(error: Thrown): (o: (Result<RequestConfig, Thrown>, Option<RequestEvent>))
    ensures o.0 == Failure(error) && o.1.None?
  {
    (Failure(error), None)
  }

  /** The reported query is whatever the supplied serializer makes of the params. */
  lemma SerializerIsTheInstances(s1: Serializer, s2: Serializer, parse: UrlParser, config: RequestConfig)
    requires config.params.Some? && s1(config.params.value) != s2(config.params.value)
    requires Truthy(config.url) && Truthy(config.httpMethod) && parse(config.url.value, config.baseURL).Some?
    ensures OnFulfilled(s1, parse, config).1 != OnFulfilled(s2, parse, config).1
  {
    var u1 := OnFulfilled(s1, parse, config).1.value.url;
    var u2 := OnFulfilled(s2, parse, config).1.value.url;
    assert u1.search == "?" + s1(config.params.value);
    assert u2.search == "?" + s2(config.params.value);
    assert u1.search[1..] != u2.search[1..];
  }
}
