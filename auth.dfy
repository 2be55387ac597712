/**
 * The token authority: turns a route's `secure` flag, an optional token
 * retriever and an optional refresher into no header, a bearer header or a
 * 401 error.
 *
 * Decoding a token is foreign code; a token here carries its decoded claims
 * (none when decoding fails). The clock is the parameter `now`, in seconds.
 * A retriever or refresher is the function from the number of earlier
 * invocations within one call to the token it yields on this invocation.
 */
module Auth {
  import opened Wrappers
  import opened Strings
  import opened Errors

  /** The `role` claim: absent, one role, or a list of roles. */
  datatype Role = NoRole | SingleRole(name: string) | RoleList(names: seq<string>)

  /** The decoded claims; `exp` is None when it is absent or not a number. */
  datatype Claims = Claims(exp: Option<real>, role: Role)

  /** A token's text, and its claims when it decodes. */
  datatype Token = Token(raw: string, claims: Option<Claims>)

  /** What a retriever returns: a token, or null/undefined. */
  type AccessToken = Option<Token>

  type TokenRetriever = nat -> AccessToken

  const AdminRole := "wp-admin"

  const NoRetrieverMessage := "Authorization is required but no `getAccessToken()` function was provided"
  const NoRefresherMessage :=
    "Authorization is required but there is no valid access token and no `refreshAccessToken()` function was provided"
  const NothingRefreshedMessage :=
    "Authorization is required but there is no valid access token and nothing was returned from `refreshAccessToken()`"
  const RefreshedExpiredMessage :=
    "Authorization is required but the access token has expired and `refreshAccessToken()` also returned an expired token"

  /** JavaScript truthiness of a retrieved token: present and not the empty string. */
  predicate Present(t: AccessToken) {
    t.Some? && t.value.raw != ""
  }

  /** `getTokenProperty(token, 'role')`: null when decoding fails. */
  function TokenRole(t: Token): Role {
    if t.claims.None? then NoRole else t.claims.value.role
  }

  /** `getTokenProperty(token, 'exp')`, kept only when it is a number. */
  function TokenExp(t: Token): Option<real> {
    if t.claims.None? then None else t.claims.value.exp
  }

  /** The role claim equals the admin role or is a list containing it. */
  predicate IsUserAdmin(t: Token): (b: bool)
    // a token that does not decode is never an admin's
    ensures b ==> t.claims.Some?
    ensures t.claims.Some? && t.claims.value.role.SingleRole? ==> (b <==> t.claims.value.role.name == AdminRole)
    ensures t.claims.Some? && t.claims.value.role.RoleList? ==>
      (b <==> exists k :: 0 <= k < |t.claims.value.role.names| && t.claims.value.role.names[k] == AdminRole)
  {
    match TokenRole(t)
    case NoRole => false
    case SingleRole(name) => name == AdminRole
    case RoleList(names) => AdminRole in names
  }

  /** Expired when `exp` cannot be read as a number, or lies strictly before `now`. */
  predicate IsTokenExpired(t: Token, now: real): (b: bool)
    // a token is valid exactly when it decodes to a numeric `exp` no earlier than now
    ensures !b <==> t.claims.Some? && t.claims.value.exp.Some? && now <= t.claims.value.exp.value
  {
    TokenExp(t).None? || TokenExp(t).value < now
  }

  /** `throwUnauthorizedError(message, url)`: the 401 error it throws. */
  function Unauthorized(message: string, url: string): (e: ApiError)
    ensures e.ClientError? && e.statusCode == Some(401) && e.code == EHTTPCLIENT
    ensures e.message == message + " <" + url + ">"
    ensures e.problemType.None? && e.errors.None?
  {
    NewClientError(Some(401), message + " <" + url + ">", NoOptions)
  }

  /**
   * `getRefreshedAccessToken(url, refresher)`, where `calls` is the number of
   * earlier refresher invocations in this call.
   */
  function GetRefreshedAccessToken(url: string, refresher: Option<TokenRetriever>, calls: nat): (r: Result<Token, ApiError>)
    ensures refresher.None? ==> r == Failure(Unauthorized(NoRefresherMessage, url))
    ensures refresher.Some? && !Present(refresher.value(calls)) ==> r == Failure(Unauthorized(NothingRefreshedMessage, url))
    ensures refresher.Some? && Present(refresher.value(calls)) ==> r == Success(refresher.value(calls).value)
    ensures r.Success? ==> r.value.raw != ""
  {
    if refresher.None? then Failure(Unauthorized(NoRefresherMessage, url))
    else
      var t := refresher.value(calls);
      if !Present(t) then Failure(Unauthorized(NothingRefreshedMessage, url)) else Success(t.value)
  }

  /** The outcome of the authority: no header, a bearer token, or a 401 error. */
  datatype Decision = Anonymous | Bearer(token: Token) | Denied(error: ApiError)

  /** The header value a decision produces, or the error it throws. */
  function HeaderOf(d: Decision): Result<Option<string>, ApiError> {
    match d
    case Anonymous => Success(None)
    case Bearer(t) => Success(Some("Bearer " + t.raw))
    case Denied(e) => Failure(e)
  }

  /** The refresh of an expired token, after `calls` earlier refreshes. */
  function RefreshExpired(url: string, refresher: Option<TokenRetriever>, calls: nat, now: real): (o: (Decision, nat))
    ensures o.1 == calls + (if refresher.Some? then 1 else 0)
    ensures refresher.None? ==> o.0 == Denied(Unauthorized(NoRefresherMessage, url))
    ensures refresher.Some? && !Present(refresher.value(calls)) ==> o.0 == Denied(Unauthorized(NothingRefreshedMessage, url))
    // a refreshed token is sent only when it is unexpired
    ensures refresher.Some? && Present(refresher.value(calls)) ==>
      o.0 == (if IsTokenExpired(refresher.value(calls).value, now) then Denied(Unauthorized(RefreshedExpiredMessage, url))
              else Bearer(refresher.value(calls).value))
    ensures !o.0.Anonymous?
  {
    match GetRefreshedAccessToken(url, refresher, calls)
    case Failure(e) => (Denied(e), calls + (if refresher.Some? then 1 else 0))
    case Success(t) =>
      if IsTokenExpired(t, now) then (Denied(Unauthorized(RefreshedExpiredMessage, url)), calls + 1)
      else (Bearer(t), calls + 1)
  }

  /**
   * The decision table of the authority, with the number of refresher
   * invocations it makes.
   */
  function Decide(url: string, secure: bool, getAccessToken: Option<TokenRetriever>,
                  refreshAccessToken: Option<TokenRetriever>, now: real): (o: (Decision, nat))
    ensures o.1 <= 2 && (o.1 > 0 ==> refreshAccessToken.Some?)
    ensures o.0.Denied? ==> o.0.error.ClientError? && o.0.error.statusCode == Some(401)
    ensures secure && getAccessToken.None? ==> o == (Denied(Unauthorized(NoRetrieverMessage, url)), 0)
    // an open route never fails, never refreshes, and sends a token only for an unexpired admin token
    ensures !secure ==> o.1 == 0 && !o.0.Denied?
    ensures !secure ==>
      (o.0.Bearer? <==> getAccessToken.Some? && Present(getAccessToken.value(0))
                        && IsUserAdmin(getAccessToken.value(0).value)
                        && !IsTokenExpired(getAccessToken.value(0).value, now))
    // a secure route always gets a header or an error
    ensures secure ==> !o.0.Anonymous?
    // a bearer token is non-empty, unexpired, and the answer of the last invocation made
    ensures o.0.Bearer? ==> o.0.token.raw != "" && !IsTokenExpired(o.0.token, now)
    ensures o.0.Bearer? && o.1 == 0 ==> getAccessToken.Some? && Some(o.0.token) == getAccessToken.value(0)
    ensures o.0.Bearer? && o.1 > 0 ==> Some(o.0.token) == refreshAccessToken.value(o.1 - 1)
    // a secure route with a retriever: a present, unexpired token is sent as it is
    ensures secure && getAccessToken.Some? && Present(getAccessToken.value(0)) && !IsTokenExpired(getAccessToken.value(0).value, now) ==>
      o == (Bearer(getAccessToken.value(0).value), 0)
    // an expired token is refreshed once
    ensures secure && getAccessToken.Some? && Present(getAccessToken.value(0)) && IsTokenExpired(getAccessToken.value(0).value, now) ==>
      o == RefreshExpired(url, refreshAccessToken, 0, now)
    // a missing token is refreshed, and the refreshed token once more when it has expired
    ensures secure && getAccessToken.Some? && !Present(getAccessToken.value(0)) && refreshAccessToken.None? ==>
      o == (Denied(Unauthorized(NoRefresherMessage, url)), 0)
    ensures secure && getAccessToken.Some? && !Present(getAccessToken.value(0)) && refreshAccessToken.Some? ==>
      var t1 := refreshAccessToken.value(0);
      && (!Present(t1) ==> o == (Denied(Unauthorized(NothingRefreshedMessage, url)), 1))
      && (Present(t1) && !IsTokenExpired(t1.value, now) ==> o == (Bearer(t1.value), 1))
      && (Present(t1) && IsTokenExpired(t1.value, now) ==> o == RefreshExpired(url, refreshAccessToken, 1, now))
  {
    if secure && getAccessToken.None? then (Denied(Unauthorized(NoRetrieverMessage, url)), 0)
    else
      var t0 := if getAccessToken.Some? then getAccessToken.value(0) else None;
      if !secure then
        if Present(t0) && IsUserAdmin(t0.value) && !IsTokenExpired(t0.value, now) then (Bearer(t0.value), 0)
        else (Anonymous, 0)
      else if Present(t0) then
        if IsTokenExpired(t0.value, now) then RefreshExpired(url, refreshAccessToken, 0, now)
        else (Bearer(t0.value), 0)
      else
        match GetRefreshedAccessToken(url, refreshAccessToken, 0)
        case Failure(e) => (Denied(e), if refreshAccessToken.Some? then 1 else 0)
        case Success(t1) =>
          if IsTokenExpired(t1, now) then RefreshExpired(url, refreshAccessToken, 1, now)
          else (Bearer(t1), 1)
  }

  /**
   * `getAuthorizationHeader(url, secure, getAccessToken, refreshAccessToken)`
   * step by step: its result is the decision table's header, and it invokes
   * the refresher as often as the table says.
   */
  method GetAuthorizationHeader(url: string, secure: bool, getAccessToken: Option<TokenRetriever>,
                                refreshAccessToken: Option<TokenRetriever>, now: real)
    returns (header: Result<Option<string>, ApiError>, refreshCalls: nat)
    ensures header == HeaderOf(Decide(url, secure, getAccessToken, refreshAccessToken, now).0)
    ensures refreshCalls == Decide(url, secure, getAccessToken, refreshAccessToken, now).1
  {
    refreshCalls := 0;
    if secure && getAccessToken.None? {
      header := Failure(Unauthorized(NoRetrieverMessage, url));
      return;
    }
    var accessToken := if getAccessToken.Some? then getAccessToken.value(0) else None;
    if !secure && (!Present(accessToken) || !IsUserAdmin(accessToken.value)) {
      header := Success(None);
      return;
    }
    if !Present(accessToken) {
      var refreshed := GetRefreshedAccessToken(url, refreshAccessToken, refreshCalls);
      if refreshAccessToken.Some? {
        refreshCalls := refreshCalls + 1;
      }
      if refreshed.Failure? {
        header := Failure(refreshed.error);
        return;
      }
      accessToken := Some(refreshed.value);
    }
    var token := accessToken.value;
    // an admin whose token expired still goes ahead, anonymously, on an open route
    if !secure && IsTokenExpired(token, now) {
      header := Success(None);
      return;
    }
    if IsTokenExpired(token, now) {
      var refreshed := GetRefreshedAccessToken(url, refreshAccessToken, refreshCalls);
      if refreshAccessToken.Some? {
        refreshCalls := refreshCalls + 1;
      }
      if refreshed.Failure? {
        header := Failure(refreshed.error);
        return;
      }
      token := refreshed.value;
      if IsTokenExpired(token, now) {
        header := Failure(Unauthorized(RefreshedExpiredMessage, url));
        return;
      }
    }
    header := Success(Some("Bearer " + token.raw));
  }

  /** A token whose `exp` equals `now` is not expired; one that does not decode is. */
  lemma ExpiryBoundary(raw: string, role: Role, now: real)
    ensures !IsTokenExpired(Token(raw, Some(Claims(Some(now), role))), now)
    ensures IsTokenExpired(Token(raw, None), now)
    ensures IsTokenExpired(Token(raw, Some(Claims(None, role))), now)
  {
  }

  /**
   * On a secure route the refresher can run twice in one call: once because
   * no token was retrieved, once because the refreshed token had expired.
   */
  lemma RefresherRunsTwice(url: string, stale: Token, renewed: Token, now: real)
    requires stale.raw != "" && IsTokenExpired(stale, now)
    requires renewed.raw != "" && !IsTokenExpired(renewed, now)
    ensures var refresher := (n: nat) => if n == 0 then Some(stale) else Some(renewed);
      Decide(url, true, Some((n: nat) => None), Some(refresher), now) == (Bearer(renewed), 2)
  {
  }

  /** A secure route with an expired token and a refresher that returns one too is denied. */
  lemma RefreshedTokenAlsoExpired(url: string, stale: Token, now: real)
    requires stale.raw != "" && IsTokenExpired(stale, now)
    ensures var same := (n: nat) => Some(stale);
      Decide(url, true, Some(same), Some(same), now).0 == Denied(Unauthorized(RefreshedExpiredMessage, url))
  {
  }
}
