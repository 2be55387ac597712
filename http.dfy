/**
 * The transport-facing values the client builds and reads: parameter
 * records, response bodies, responses, the request configuration as a
 * value, and the configuration object that interceptors update in place.
 */
module Http {
  import opened Wrappers
  import opened Strings
  import opened Errors

  /** A scalar value of a parameter record (`Record<string, unknown>`). */
  datatype Value = Undefined | Null | Str(s: string) | Num(n: int) | Bool(b: bool)

  /** A parameter record as its `Object.entries`, in insertion order. */
  type Entries = seq<(string, Value)>

  /** `String(value)`. */
  function ValueToString(v: Value): string {
    match v
    case Undefined => "undefined"
    case Null => "null"
    case Str(s) => s
    case Num(n) => IntToString(n)
    case Bool(b) => if b then "true" else "false"
  }

  /**
   * A response body: absent, a bare string, or a JSON object of which the
   * fields the client reads are kept.
   */
  datatype Body =
    | NoBody
    | TextBody(text: string)
    | ObjectBody(
        message: Option<string>,
        problemType: Option<string>,
        errors: Option<seq<ValidationError>>,
        detail: Option<string>)

  datatype Response = Response(status: int, data: Body)

  /** A request configuration as a value (the fields the client reads or writes). */
  datatype RequestConfig = RequestConfig(
    url: Option<string>,
    httpMethod: Option<string>,
    baseURL: Option<string>,
    data: Option<Entries>,
    params: Option<Entries>,
    headers: map<string, string>,
    timeout: Option<int>,
    retry: bool)

  /**
   * The configuration object of one in-flight request. Interceptors update
   * its fields in place; `retry` is the `_retry` marker.
   */
  class InternalConfig {
    var url: Option<string>
    var httpMethod: Option<string>
    var baseURL: Option<string>
    var data: Option<Entries>
    var params: Option<Entries>
    var headers: map<string, string>
    var timeout: Option<int>
    var retry: bool

    constructor (c: RequestConfig)
      ensures Snapshot() == c
    {
      url := c.url;
      httpMethod := c.httpMethod;
      baseURL := c.baseURL;
      data := c.data;
      params := c.params;
      headers := c.headers;
      timeout := c.timeout;
      retry := c.retry;
    }

    /** The current field values. */
    function Snapshot(): RequestConfig
      reads this
    {
      RequestConfig(url, httpMethod, baseURL, data, params, headers, timeout, retry)
    }
  }
}
