/**
 * The response-debug interceptor: it passes successful responses through
 * and turns every failure into one of the client's own errors, reporting it
 * to at most one hook before throwing it.
 *
 * Hook calls are modelled as the event they emit; when a hook is not given
 * the event goes to the console channel the interceptor falls back to.
 */
module ResponseDebug {
  import opened Wrappers
  import opened Strings
  import opened Errors
  import opened Http

  /** The fields of the failed request's configuration the interceptor reads. */
  datatype ErrorConfig = ErrorConfig(url: Option<string>, httpMethod: Option<string>, baseURL: Option<string>)

  /**
   * A transport failure: its request configuration, the response when one
   * arrived, the transport message, a fallback status and the error code.
   * A status that is not a finite number is modelled as absent.
   */
  datatype ResponseError = ResponseError(
    config: Option<ErrorConfig>,
    response: Option<Response>,
    message: Option<string>,
    statusCode: Option<int>,
    code: Option<string>)

  /** Which hooks the caller supplied. */
  datatype Hooks = Hooks(onError: bool, onClientError: bool, onTimeoutError: bool)

  /** Where a report goes: a caller's hook, or the console fallback. */
  datatype Channel = OnError | OnClientError | OnTimeoutError | ConsoleError | ConsoleWarn

  /** One hook call, with the error it is given. */
  datatype HookEvent = HookEvent(channel: Channel, error: ApiError)

  function ServerChannel(hooks: Hooks): Channel {
    if hooks.onError then OnError else ConsoleError
  }

  function ClientChannel(hooks: Hooks): Channel {
    if hooks.onClientError then OnClientError else ConsoleWarn
  }

  function TimeoutChannel(hooks: Hooks): Channel {
    if hooks.onTimeoutError then OnTimeoutError else ConsoleWarn
  }

  /** `success`: the response is returned as it is. */
  function OnFulfilled(response: Response): (r: Response)
    ensures r == response
  {
    response
  }

  /** `status ?? statusCode`: the response's status wins whenever a response arrived. */
  function FinalStatus(e: ResponseError): (s: Option<int>)
    ensures e.response.Some? ==> s == Some(e.response.value.status)
    ensures e.response.None? ==> s == e.statusCode
  {
    if e.response.Some? then Some(e.response.value.status) else e.statusCode
  }

  /** The code names a timeout. */
  function TimeoutCodeOf(code: Option<string>): Option<TimeoutCode> {
    if code == Some("ETIMEDOUT") then Some(ETIMEDOUT)
    else if code == Some("ECONNABORTED") then Some(ECONNABORTED)
    else None
  }

  // ---------------------------------------------------------------------
  // `/${url}`.replace(/\/\//g, '/')
  // ---------------------------------------------------------------------

  predicate DoubleSlashAt(s: string, k: int) {
    0 <= k && k + 1 < |s| && s[k] == '/' && s[k + 1] == '/'
  }

  ghost predicate NoDoubleSlash(s: string) {
    forall k :: !DoubleSlashAt(s, k)
  }

  ghost predicate NoTripleSlash(s: string) {
    forall k :: DoubleSlashAt(s, k) ==> !DoubleSlashAt(s, k + 1)
  }

  /** One left-to-right pass replacing each non-overlapping `//` with `/`. */
  function CollapseDoubleSlashes(s: string): (r: string)
    ensures |r| <= |s|
    ensures r == [] <==> s == []
    ensures r != [] ==> r[0] == s[0]
  {
    if |s| >= 2 && s[0] == '/' && s[1] == '/' then "/" + CollapseDoubleSlashes(s[2..])
    else if s == [] then []
    else [s[0]] + CollapseDoubleSlashes(s[1..])
  }

  /** A string without `//` passes through unchanged. */
  lemma {:induction false} CollapseKeepsClean(s: string)
    requires NoDoubleSlash(s)
    ensures CollapseDoubleSlashes(s) == s
  {
    if s != [] {
      assert !DoubleSlashAt(s, 0);
      assert NoDoubleSlash(s[1..]) by {
        forall k ensures !DoubleSlashAt(s[1..], k) {
          assert DoubleSlashAt(s[1..], k) ==> DoubleSlashAt(s, k + 1);
        }
      }
      CollapseKeepsClean(s[1..]);
    }
  }

  /** Unless the input holds three slashes in a row, the output holds no `//`. */
  lemma {:induction false} CollapseLeavesNoDoubleSlash(s: string)
    requires NoTripleSlash(s)
    ensures NoDoubleSlash(CollapseDoubleSlashes(s))
  {
    var r := CollapseDoubleSlashes(s);
    if |s| >= 2 && s[0] == '/' && s[1] == '/' {
      var t := s[2..];
      assert NoTripleSlash(t) by {
        forall k | DoubleSlashAt(t, k) ensures !DoubleSlashAt(t, k + 1) {
          assert DoubleSlashAt(s, k + 2);
          assert DoubleSlashAt(t, k + 1) ==> DoubleSlashAt(s, k + 3);
        }
      }
      CollapseLeavesNoDoubleSlash(t);
      var rt := CollapseDoubleSlashes(t);
      assert r == "/" + rt;
      assert DoubleSlashAt(s, 0);
      assert !DoubleSlashAt(s, 1);
      assert t != [] ==> t[0] != '/';
      forall k ensures !DoubleSlashAt(r, k) {
        if k >= 1 {
          assert DoubleSlashAt(r, k) ==> DoubleSlashAt(rt, k - 1);
        }
      }
    } else if s != [] {
      var t := s[1..];
      assert NoTripleSlash(t) by {
        forall k | DoubleSlashAt(t, k) ensures !DoubleSlashAt(t, k + 1) {
          assert DoubleSlashAt(s, k + 1);
          assert DoubleSlashAt(t, k + 1) ==> DoubleSlashAt(s, k + 2);
        }
      }
      CollapseLeavesNoDoubleSlash(t);
      var rt := CollapseDoubleSlashes(t);
      assert r == [s[0]] + rt;
      forall k ensures !DoubleSlashAt(r, k) {
        if k >= 1 {
          assert DoubleSlashAt(r, k) ==> DoubleSlashAt(rt, k - 1);
        }
      }
    }
  }

  /** `/${url}` with each `//` collapsed; an absent url renders as "undefined". */
  function Endpoint(url: Option<string>): (r: string)
    ensures r != [] && r[0] == '/'
  {
    CollapseDoubleSlashes("/" + Show(url))
  }

  /** A url that already starts with one slash is not given a second one. */
  lemma EndpointOfRootedUrl(url: string)
    requires url != [] && url[0] == '/' && NoDoubleSlash(url)
    ensures Endpoint(Some(url)) == url
  {
    var s := "/" + url;
    assert s[2..] == url[1..];
    assert NoDoubleSlash(url[1..]) by {
      forall k ensures !DoubleSlashAt(url[1..], k) {
        assert DoubleSlashAt(url[1..], k) ==> DoubleSlashAt(url, k + 1);
      }
    }
    CollapseKeepsClean(url[1..]);
    assert url == "/" + url[1..];
  }

  /** A url without a leading slash is given exactly one. */
  lemma EndpointOfRelativeUrl(url: string)
    requires (url == [] || url[0] != '/') && NoDoubleSlash(url)
    ensures Endpoint(Some(url)) == "/" + url
  {
    var s := "/" + url;
    assert NoDoubleSlash(s) by {
      forall k ensures !DoubleSlashAt(s, k) {
        if k >= 1 {
          assert DoubleSlashAt(s, k) ==> DoubleSlashAt(url, k - 1);
        }
      }
    }
    CollapseKeepsClean(s);
  }

  // ---------------------------------------------------------------------
  // The error handler
  // ---------------------------------------------------------------------

  /** `data?.message`: only an object body carries a message. */
  function BodyMessage(data: Body): Option<string> {
    if data.ObjectBody? then data.message else None
  }

  function ResponseBody(e: ResponseError): Body {
    if e.response.Some? then e.response.value.data else NoBody
  }

  /** `${method?.toUpperCase()}`. */
  function ShowMethod(m: Option<string>): string {
    if m.Some? then ToUpper(m.value) else "undefined"
  }

  /** `${finalStatus}`: the status in decimal, or "undefined" without one. */
  function ShowStatus(status: Option<int>): string {
    if status.Some? then IntToString(status.value) else "undefined"
  }

  /** The base message: status, the body's message or else the transport's, then method and full URL. */
  function BaseMessage(e: ResponseError): (m: string)
    // it opens with the status, or "undefined" without one, and a space
    ensures FinalStatus(e).Some? ==> IntToString(FinalStatus(e).value) + " " <= m
    ensures FinalStatus(e).None? ==> "undefined " <= m
    // then the body's message when it has one, and the transport's message otherwise
    ensures BodyMessage(ResponseBody(e)).Some? ==>
      ShowStatus(FinalStatus(e)) + " " + BodyMessage(ResponseBody(e)).value + " <" <= m
    ensures BodyMessage(ResponseBody(e)).None? ==>
      ShowStatus(FinalStatus(e)) + " " + Show(e.message) + " <" <= m
    // and closes on the upper-cased method, the base URL and the endpoint inside the angle brackets
    ensures var config := e.config.GetOr(ErrorConfig(None, None, None));
      EndsWith(m, " <" + ShowMethod(config.httpMethod) + " " + Show(config.baseURL) + Endpoint(config.url) + ">")
    ensures EndsWith(m, Endpoint(e.config.GetOr(ErrorConfig(None, None, None)).url) + ">")
    // and holds nothing else: the prefix and the suffix above meet at ` <`
    ensures var config := e.config.GetOr(ErrorConfig(None, None, None));
      var text := Show(if BodyMessage(ResponseBody(e)).Some? then BodyMessage(ResponseBody(e)) else e.message);
      |m| == |ShowStatus(FinalStatus(e))| + 1 + |text| + 2 + |ShowMethod(config.httpMethod)| + 1
        + |Show(config.baseURL)| + |Endpoint(config.url)| + 1
  {
    var config := e.config.GetOr(ErrorConfig(None, None, None));
    var text := Show(if BodyMessage(ResponseBody(e)).Some? then BodyMessage(ResponseBody(e)) else e.message);
    MessageShape(ShowStatus(FinalStatus(e)), text, ShowMethod(config.httpMethod), Show(config.baseURL), Endpoint(config.url));
    ShowStatus(FinalStatus(e)) + " " + text + " <" + ShowMethod(config.httpMethod) + " " + Show(config.baseURL)
      + Endpoint(config.url) + ">"
  }

  /** Where each part of `${status} ${text} <${method} ${baseURL}${endpoint}>` can be read back. */
  lemma MessageShape(status: string, text: string, verb: string, baseUrl: string, endpoint: string)
    ensures var m := status + " " + text + " <" + verb + " " + baseUrl + endpoint + ">";
      status + " " <= m && status + " " + text + " <" <= m
      && EndsWith(m, " <" + verb + " " + baseUrl + endpoint + ">") && EndsWith(m, endpoint + ">")
      && |m| == |status| + 1 + |text| + 2 + |verb| + 1 + |baseUrl| + |endpoint| + 1
  {
    var head := status + " " + text;
    var tail := " <" + verb + " " + baseUrl + endpoint + ">";
    var m := status + " " + text + " <" + verb + " " + baseUrl + endpoint + ">";
    assert m == head + tail;
    assert m[..|head| + 2] == head + " <";
    assert m[|head|..] == tail;
    assert m[|m| - |endpoint + ">"|..] == endpoint + ">";
  }

  /** The options the client error is constructed with; only an object body carries them. */
  function BodyOptions(data: Body): ErrorOptions {
    if data.ObjectBody? then ErrorOptions(data.problemType, data.errors, data.detail) else NoOptions
  }

  /**
   * The `error` handler: the error it throws and the hook event it emits.
   * It never returns normally.
   */
  function OnRejected(hooks: Hooks, e: ResponseError): (o: (ApiError, Option<HookEvent>))
    // a timeout code always yields a timeout error, reported to the timeout hook only
    ensures TimeoutCodeOf(e.code).Some? <==> o.0.TimeoutError?
    ensures TimeoutCodeOf(e.code).Some? ==>
      o.0 == NewTimeoutError(e.message.GetOr(""), TimeoutCodeOf(e.code).value)
      && o.1 == Some(HookEvent(TimeoutChannel(hooks), o.0))
    // any other failure yields the client error built from the final status, the base message and the body
    ensures o.0.ClientError? ==> o.0 == NewClientError(FinalStatus(e), BaseMessage(e), BodyOptions(ResponseBody(e)))
    ensures o.0.ClientError? ==> o.0.statusCode == FinalStatus(e)
    ensures o.0.ClientError? ==> o.0.problemType == BodyOptions(ResponseBody(e)).problemType
    ensures o.0.ClientError? ==> o.0.errors == BodyOptions(ResponseBody(e)).errors
    // server failures go to the error hook, client failures to the client-error hook, others nowhere
    ensures o.0.ClientError? ==>
      (o.1.Some? && o.1.value.channel == ServerChannel(hooks) <==> FinalStatus(e).Some? && FinalStatus(e).value >= 500)
    ensures o.0.ClientError? ==>
      (o.1.Some? && o.1.value.channel == ClientChannel(hooks) <==> FinalStatus(e).Some? && 400 <= FinalStatus(e).value < 500)
    ensures o.0.ClientError? ==>
      (o.1.None? <==> FinalStatus(e).None? || FinalStatus(e).value < 400)
    // the hook is handed the very error that is thrown
    ensures o.1.Some? ==> o.1.value.error == o.0
  {
    var status := FinalStatus(e);
    var clientError := NewClientError(status, BaseMessage(e), BodyOptions(ResponseBody(e)));
    match TimeoutCodeOf(e.code)
    case Some(code) =>
      var timeoutError := NewTimeoutError(e.message.GetOr(""), code);
      (timeoutError, Some(HookEvent(TimeoutChannel(hooks), timeoutError)))
    case None =>
      if status.Some? && status.value >= 500 then (clientError, Some(HookEvent(ServerChannel(hooks), clientError)))
      else if status.Some? && 400 <= status.value < 500 then (clientError, Some(HookEvent(ClientChannel(hooks), clientError)))
      else (clientError, None)
  }

  /** The thrown message is the base message with the validation errors of the body appended. */
  lemma ClientErrorMessage(hooks: Hooks, e: ResponseError)
    requires TimeoutCodeOf(e.code).None?
    ensures OnRejected(hooks, e).0.message == ComposeMessage(BaseMessage(e), BodyOptions(ResponseBody(e)).errors)
    ensures BaseMessage(e) <= OnRejected(hooks, e).0.message
  {
  }

  /** An absent body, an empty object and an empty string all fall back to the transport message. */
  lemma EmptyBodiesUseTransportMessage(hooks: Hooks, e: ResponseError, status: int)
    requires e.response.None? || e.response.value.status == status
    ensures var absent := e.(response := Some(Response(status, NoBody)));
      var emptyObject := e.(response := Some(Response(status, ObjectBody(None, None, None, None))));
      var emptyText := e.(response := Some(Response(status, TextBody(""))));
      OnRejected(hooks, absent) == OnRejected(hooks, emptyObject) == OnRejected(hooks, emptyText)
    ensures var absent := e.(response := Some(Response(status, NoBody)));
      TimeoutCodeOf(e.code).None? ==>
        OnRejected(hooks, absent).0.message == BaseMessage(absent)
        && IntToString(status) + " " + Show(e.message) + " <" <= OnRejected(hooks, absent).0.message
  {
    var absent := e.(response := Some(Response(status, NoBody)));
    assert FinalStatus(absent) == Some(status);
    assert BodyMessage(ResponseBody(absent)).None?;
  }

  /** The failed `POST` of `/endpoint` on `http://api.com` with status 500 and no body message. */
  lemma TransportMessageOfFailedPost(hooks: Hooks, data: Body)
    requires data == NoBody || data == ObjectBody(None, None, None, None) || data == TextBody("")
    ensures var e := ResponseError(
        Some(ErrorConfig(Some("/endpoint"), Some("post"), Some("http://api.com"))),
        Some(Response(500, data)), Some("Bad thing"), None, None);
      OnRejected(hooks, e).0.message == "500 Bad thing <POST http://api.com/endpoint>"
  {
    var e := ResponseError(
      Some(ErrorConfig(Some("/endpoint"), Some("post"), Some("http://api.com"))),
      Some(Response(500, data)), Some("Bad thing"), None, None);
    FailedPostParts();
    assert BodyMessage(ResponseBody(e)).None?;
    assert BaseMessage(e) == "500" + " " + "Bad thing" + " <" + "POST" + " " + "http://api.com" + "/endpoint" + ">";
    FailedPostText();
    assert BodyOptions(ResponseBody(e)).errors.None?;
    ClientErrorMessage(hooks, e);
  }

  /** The rendered status, method and endpoint of the failed `POST`. */
  lemma FailedPostParts()
    ensures ShowStatus(Some(500)) == "500"
    ensures ShowMethod(Some("post")) == "POST"
    ensures Endpoint(Some("/endpoint")) == "/endpoint"
  {
    assert NatToString(5) == "5";
    assert NatToString(50) == "50";
    assert ToUpper("post") == "POST";
    assert NoDoubleSlash("/endpoint") by {
      forall k ensures !DoubleSlashAt("/endpoint", k) {
      }
    }
    EndpointOfRootedUrl("/endpoint");
  }

  /** The parts of the failed `POST`'s message, put together. */
  lemma FailedPostText()
    ensures "500" + " " + "Bad thing" + " <" + "POST" + " " + "http://api.com" + "/endpoint" + ">"
      == "500 Bad thing <POST http://api.com/endpoint>"
  {
    assert "500" + " " == "500 ";
    assert "500 " + "Bad thing" == "500 Bad thing";
    assert "500 Bad thing" + " <" == "500 Bad thing <";
    assert "500 Bad thing <" + "POST" == "500 Bad thing <POST";
    assert "500 Bad thing <POST" + " " == "500 Bad thing <POST ";
    assert "500 Bad thing <POST " + "http://api.com" == "500 Bad thing <POST http://api.com";
    assert "500 Bad thing <POST http://api.com" + "/endpoint" == "500 Bad thing <POST http://api.com/endpoint";
  }

  /** Swapping the response body for one that differs only in `detail` changes nothing. */
  lemma DetailNeverReachesTheError(hooks: Hooks, e: ResponseError, detail: Option<string>)
    requires e.response.Some? && e.response.value.data.ObjectBody?
    ensures OnRejected(hooks, e)
      == OnRejected(hooks, e.(response := Some(e.response.value.(data := e.response.value.data.(detail := detail)))))
  {
    var other := e.(response := Some(e.response.value.(data := e.response.value.data.(detail := detail))));
    assert BaseMessage(e) == BaseMessage(other);
    DetailIsDropped(FinalStatus(e), BaseMessage(e), BodyOptions(ResponseBody(e)), detail);
  }

  /** A timeout is reported as a timeout whatever the status says. */
  lemma TimeoutWinsOverStatus(hooks: Hooks, e: ResponseError, status: int)
    requires TimeoutCodeOf(e.code).Some?
    ensures OnRejected(hooks, e.(statusCode := Some(status))) == OnRejected(hooks, e)
  {
  }
}
