/**
 * The refresh-and-retry interceptor: when a request that carried an
 * `Authorization` header fails with one of the refresh status codes, it
 * marks the configuration as retried, asks the refresher for a new token,
 * rewrites the header and replays the same configuration once.
 */
module RefreshToken {
  import opened Wrappers
  import opened Http
  import Auth

  /** The failure the interceptor receives: the request's configuration object and the response. */
  datatype AxiosError = AxiosError(config: Option<InternalConfig>, response: Option<Response>, message: string)

  /** How a request settles: a response, or a rejection with a transport failure. */
  datatype Outcome = Resolved(response: Response) | Rejected(error: AxiosError)

  /** What the handler decides: reject with the failure it was given, or replay a configuration. */
  datatype Action = RejectOriginal | Replay(config: RequestConfig)

  /** `success`: the response is returned as it is. */
  function OnFulfilled(response: Response): (r: Response)
    ensures r == response
  {
    response
  }

  /** `config.headers?.Authorization` is truthy. */
  predicate HasAuthorization(c: RequestConfig) {
    "Authorization" in c.headers && c.headers["Authorization"] != ""
  }

  /** The guard: every condition under which a replay is attempted. */
  predicate ShouldReplay(codes: seq<int>, refresher: Option<Auth.TokenRetriever>,
                         config: Option<RequestConfig>, response: Option<Response>): (b: bool)
    // without a refresher, a response or a configuration nothing is replayed
    ensures refresher.None? || response.None? || config.None? ==> !b
    // only a listed, non-zero status of a request that carried a token and was not retried yet
    ensures b ==> response.value.status in codes && response.value.status != 0
    ensures b ==> "Authorization" in config.value.headers && !config.value.retry
  {
    && config.Some?
    && refresher.Some?
    && response.Some? && response.value.status != 0
    && response.value.status in codes
    && HasAuthorization(config.value)
    && !config.value.retry
  }

  /**
   * The configuration after the handler and what it does next, given the
   * token the refresher yields on its first invocation.
   */
  function Step(codes: seq<int>, refresher: Option<Auth.TokenRetriever>,
                config: Option<RequestConfig>, response: Option<Response>): (s: (Option<RequestConfig>, Action))
    ensures !ShouldReplay(codes, refresher, config, response) ==> s == (config, RejectOriginal)
    // once the guard passes the marker is set, whether or not a token comes back
    ensures ShouldReplay(codes, refresher, config, response) ==> s.0.Some? && s.0.value.retry
    // only the marker and the Authorization header change
    ensures ShouldReplay(codes, refresher, config, response) ==>
      s.0.value.(retry := false, headers := config.value.headers) == config.value
      && s.0.value.headers.Keys == config.value.headers.Keys
      && forall k :: k in config.value.headers && k != "Authorization" ==> s.0.value.headers[k] == config.value.headers[k]
    // a falsy token rejects with the original failure and leaves the header alone
    ensures ShouldReplay(codes, refresher, config, response) && !Auth.Present(refresher.value(0)) ==>
      s.1 == RejectOriginal && s.0.value.headers == config.value.headers
    // a token is written as a bearer header and the updated configuration is replayed
    ensures ShouldReplay(codes, refresher, config, response) && Auth.Present(refresher.value(0)) ==>
      s.1 == Replay(s.0.value) && s.0.value.headers["Authorization"] == "Bearer " + refresher.value(0).value.raw
  {
    if !ShouldReplay(codes, refresher, config, response) then (config, RejectOriginal)
    else
      var marked := config.value.(retry := true);
      var token := refresher.value(0);
      if !Auth.Present(token) then (Some(marked), RejectOriginal)
      else
        var updated := marked.(headers := marked.headers["Authorization" := "Bearer " + token.value.raw]);
        (Some(updated), Replay(updated))
  }

  function SnapshotOf(config: Option<InternalConfig>): Option<RequestConfig>
    reads if config.Some? then {config.value} else {}
  {
    if config.Some? then Some(config.value.Snapshot()) else None
  }

  function ObjectsOf(config: Option<InternalConfig>): set<object> {
    if config.Some? then {config.value} else {}
  }

  /**
   * `error`: runs the guard, updates the configuration object in place, and
   * either rejects with the same failure or returns the replay's outcome.
   * `send` stands for `axios(config)`.
   */
  method OnRejected(codes: seq<int>, refresher: Option<Auth.TokenRetriever>, error: AxiosError,
                    send: RequestConfig -> Outcome)
    returns (o: Outcome, refreshCalled: bool)
    modifies ObjectsOf(error.config)
    ensures refreshCalled == ShouldReplay(codes, refresher, old(SnapshotOf(error.config)), error.response)
    ensures SnapshotOf(error.config) == Step(codes, refresher, old(SnapshotOf(error.config)), error.response).0
    ensures match Step(codes, refresher, old(SnapshotOf(error.config)), error.response).1
      case RejectOriginal => o == Rejected(error)
      case Replay(c) => o == send(c)
  {
    var config := error.config;
    var status := if error.response.Some? then error.response.value.status else 0;
    if config.Some? && refresher.Some? && status != 0 && status in codes
       && "Authorization" in config.value.headers && config.value.headers["Authorization"] != ""
       && !config.value.retry
    {
      config.value.retry := true;
      refreshCalled := true;
      var token := refresher.value(0);
      if !Auth.Present(token) {
        return Rejected(error), refreshCalled;
      }
      config.value.headers := config.value.headers["Authorization" := "Bearer " + token.value.raw];
      o := send(config.value.Snapshot());
      return;
    }
    refreshCalled := false;
    o := Rejected(error);
  }

  /** A configuration the handler has replayed, or tried to, is never replayed again. */
  lemma AtMostOneReplay(codes: seq<int>, refresher: Option<Auth.TokenRetriever>,
                        config: Option<RequestConfig>, response: Option<Response>,
                        laterCodes: seq<int>, laterRefresher: Option<Auth.TokenRetriever>, laterResponse: Option<Response>)
    requires ShouldReplay(codes, refresher, config, response)
    ensures !ShouldReplay(laterCodes, laterRefresher, Step(codes, refresher, config, response).0, laterResponse)
  {
  }

  /** A request sent without an Authorization header is never replayed. */
  lemma AnonymousRequestsAreNotReplayed(codes: seq<int>, refresher: Option<Auth.TokenRetriever>,
                                        config: RequestConfig, response: Option<Response>)
    requires "Authorization" !in config.headers
    ensures Step(codes, refresher, Some(config), response) == (Some(config), RejectOriginal)
  {
  }

  /** The status list is honoured as given: 403 replays with [401, 403] and is rejected with [401]. */
  lemma CustomStatusCodes(refresher: Auth.TokenRetriever, config: RequestConfig, data: Body)
    requires HasAuthorization(config) && !config.retry
    ensures ShouldReplay([401, 403], Some(refresher), Some(config), Some(Response(403, data)))
    ensures !ShouldReplay([401], Some(refresher), Some(config), Some(Response(403, data)))
  {
    assert 403 in [401, 403];
  }

  /** A zero status never triggers a replay, even when it is listed. */
  lemma ZeroStatusIsFalsy(refresher: Option<Auth.TokenRetriever>, config: Option<RequestConfig>, data: Body)
    ensures !ShouldReplay([0, 401], refresher, config, Some(Response(0, data)))
  {
  }
}
