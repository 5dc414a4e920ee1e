/**
 * The token lifecycle of `SmartViewClient` and the shaping of its requests.
 *
 * The client holds three token fields (access token, refresh token, expiry).
 * `authenticate` replaces them from a client-credentials grant, and
 * `refresh_access_token` replaces them from a refresh grant. When there is
 * no refresh token, or the refresh fails over HTTP, `refresh_access_token`
 * falls back to `authenticate`. `ensure_valid_token` picks one of the two,
 * or does nothing, from the stored state and the clock.
 *
 * Expiry is stored pessimistically: `now + token_timeout - 300`. A token is
 * treated as expired five minutes before the upstream says it is.
 *
 * The clock is an integer number of seconds, passed in as `now`. Each POST
 * to the token or refresh endpoint is an input `Reply`.
 */
module Client {
  import opened Wrappers
  import opened Params
  import Endpoints

  /** Seconds subtracted from the announced lifetime when the expiry is stored. */
  const ExpiryMargin := 300
  /** Lifetime assumed when a grant carries no `token_timeout`. */
  const DefaultTimeout := 3600

  /** How an optional string key reads in a JSON body: missing, null, or a string. */
  datatype Field = Absent | Null | Present(value: string)

  /**
   * A decoded token response. `accessToken` is None for a JSON null.
   * `tokenTimeout` is one that keeps the stored expiry within the range of a
   * Python `datetime`; a larger one makes the source raise, a `BadBody` reply.
   */
  datatype Grant = Grant(accessToken: Option<string>, refreshToken: Field, tokenTimeout: Option<int>)

  /**
   * What one POST to the token or refresh endpoint yields:
   *  - Granted: a 2xx response whose body decoded;
   *  - HttpFailure: an httpx.HTTPError (transport error or non-2xx status);
   *  - BadBody: any other exception while reading the body (undecodable JSON,
   *    no `access_token` key, a `token_timeout` that `int()` rejects).
   */
  datatype Reply = Granted(grant: Grant) | HttpFailure | BadBody

  /** A POST the client makes to obtain tokens. */
  datatype TokenPost =
    | ClientCredentials(clientId: string, clientSecret: string)
    | RefreshRequest(clientId: string, clientSecret: string, refreshToken: string)

  /** The three token fields of a client. */
  datatype Tokens = Tokens(accessToken: Option<string>, refreshToken: Option<string>, tokenExpiry: Option<int>)

  const NoTokens := Tokens(None, None, None)

  /** The outcome of a token operation: success, new token fields, POSTs made in order. */
  datatype Step = Step(ok: bool, after: Tokens, posts: seq<TokenPost>)

  /** `int(data.get("token_timeout", 3600))`. */
  function Timeout(g: Grant): int {
    if g.tokenTimeout.Some? then g.tokenTimeout.value else DefaultTimeout
  }

  /** `now + timedelta(seconds=timeout - 300)`. */
  function ExpiryFrom(now: int, g: Grant): int {
    now + (Timeout(g) - ExpiryMargin)
  }

  /** True unless the reply is a grant announcing a lifetime of at most the margin. */
  predicate OutlastsMargin(r: Reply) {
    r.Granted? ==> Timeout(r.grant) > ExpiryMargin
  }

  /** True unless the reply is a grant whose access token is null or empty. */
  predicate CarriesToken(r: Reply) {
    r.Granted? ==> Truthy(r.grant.accessToken)
  }

  // ---------------------------------------------------------------------
  // Specification of the three token operations, on values

  /** `authenticate`: one client-credentials POST; tokens replaced on success only. */
  function AuthenticateStep(clientId: string, clientSecret: string, t: Tokens, now: int, reply: Reply): Step {
    var posts := [ClientCredentials(clientId, clientSecret)];
    match reply
    case Granted(g) =>
      var refresh := if g.refreshToken.Present? then Some(g.refreshToken.value) else None;
      Step(true, Tokens(g.accessToken, refresh, Some(ExpiryFrom(now, g))), posts)
    case HttpFailure => Step(false, t, posts)
    case BadBody => Step(false, t, posts)
  }

  /**
   * `refresh_access_token`: without a (non-empty) refresh token, exactly
   * `authenticate`; otherwise one refresh POST, and on an HTTP failure of it
   * `authenticate`.
   */
  function RefreshStep(clientId: string, clientSecret: string, t: Tokens, now: int,
                       refreshReply: Reply, tokenReply: Reply): Step {
    if !Truthy(t.refreshToken) then AuthenticateStep(clientId, clientSecret, t, now, tokenReply)
    else
      var post := RefreshRequest(clientId, clientSecret, t.refreshToken.value);
      match refreshReply
      case Granted(g) =>
        var refresh := match g.refreshToken
          case Absent => t.refreshToken
          case Null => None
          case Present(s) => Some(s);
        Step(true, Tokens(g.accessToken, refresh, Some(ExpiryFrom(now, g))), [post])
      case HttpFailure =>
        var a := AuthenticateStep(clientId, clientSecret, t, now, tokenReply);
        Step(a.ok, a.after, [post] + a.posts)
      case BadBody => Step(false, t, [post])
  }

  /** True when `ensure_valid_token` takes its `authenticate` branch. */
  predicate NeedsAuthentication(t: Tokens) {
    !Truthy(t.accessToken) || t.tokenExpiry.None?
  }

  /** True when `ensure_valid_token` takes its `refresh_access_token` branch. */
  predicate NeedsRefresh(t: Tokens, now: int) {
    !NeedsAuthentication(t) && now >= t.tokenExpiry.value
  }

  /** `ensure_valid_token`: authenticate, refresh, or nothing. */
  function EnsureValidStep(clientId: string, clientSecret: string, t: Tokens, now: int,
                           refreshReply: Reply, tokenReply: Reply): Step {
    if NeedsAuthentication(t) then AuthenticateStep(clientId, clientSecret, t, now, tokenReply)
    else if NeedsRefresh(t, now) then RefreshStep(clientId, clientSecret, t, now, refreshReply, tokenReply)
    else Step(true, t, [])
  }

  // ---------------------------------------------------------------------
  // Request shaping

  /** The header value `f"Bearer {self.access_token}"` (None prints as "None"). */
  function BearerHeader(token: Option<string>): (h: string)
    ensures BearerToken(h) == Some(PyStr(token))
  {
    "Bearer " + PyStr(token)
  }

  /** The credential a server reads back from an Authorization header value. */
  function BearerToken(h: string): Option<string> {
    if |h| >= 7 && h[..7] == "Bearer " then Some(h[7..]) else None
  }

  /** An outbound API request as handed to the HTTP client. */
  datatype Outbound = Outbound(verb: string, url: string, authorization: string, params: Params, json: Option<Params>)

  /** What the upstream API answers to an outbound request. */
  datatype ApiReply = Response(status: int, payload: string) | TransportFailure

  /** Why `request` raised. */
  datatype ApiError =
    | AuthenticationFailed   // ensure_valid_token raised before anything was sent
    | StatusError(status: int, text: string)   // "API Error {status}: {text}"
    | Transport              // "HTTP error: ..."

  /** `request` after the send: a 2xx yields the payload, anything else an error. */
  function Received(reply: ApiReply): (r: Result<string, ApiError>)
    ensures r.Success? <==> reply.Response? && 200 <= reply.status < 300
    ensures r.Success? ==> r.value == reply.payload
    ensures reply.Response? && r.Failure? ==> r.error == StatusError(reply.status, reply.payload)
    ensures reply.TransportFailure? ==> r == Failure(Transport)
  {
    match reply
    case Response(status, payload) =>
      if 200 <= status < 300 then Success(payload) else Failure(StatusError(status, payload))
    case TransportFailure => Failure(Transport)
  }

  // ---------------------------------------------------------------------
  // The client object

  class SmartViewClient {
    var clientId: string
    var clientSecret: string
    var baseUrl: string
    var accessToken: Option<string>
    var refreshToken: Option<string>
    var tokenExpiry: Option<int>
    /** Every POST made to the token and refresh endpoints, oldest first. */
    ghost var posts: seq<TokenPost>

    function TokenState(): Tokens
      reads this
    {
      Tokens(accessToken, refreshToken, tokenExpiry)
    }

    /** A fresh client holds no token, refresh token or expiry. */
    constructor (clientId: string, clientSecret: string, baseUrl: string)
      ensures this.clientId == clientId && this.clientSecret == clientSecret && this.baseUrl == baseUrl
      ensures TokenState() == NoTokens
      ensures posts == []
    {
      this.clientId := clientId;
      this.clientSecret := clientSecret;
      this.baseUrl := baseUrl;
      accessToken := None;
      refreshToken := None;
      tokenExpiry := None;
      posts := [];
    }

    method Authenticate(now: int, reply: Reply) returns (ok: bool)
      modifies this`accessToken, this`refreshToken, this`tokenExpiry, this`posts
      ensures var s := AuthenticateStep(clientId, clientSecret, old(TokenState()), now, reply);
        ok == s.ok && TokenState() == s.after && posts == old(posts) + s.posts
      ensures ok <==> reply.Granted?
      ensures ok ==> accessToken == reply.grant.accessToken
      ensures ok ==> refreshToken == (if reply.grant.refreshToken.Present? then Some(reply.grant.refreshToken.value) else None)
      ensures ok ==> tokenExpiry == Some(now + Timeout(reply.grant) - ExpiryMargin)
      ensures !ok ==> TokenState() == old(TokenState())
    {
      posts := posts + [ClientCredentials(clientId, clientSecret)];
      match reply {
        case Granted(data) =>
          accessToken := data.accessToken;
          refreshToken := if data.refreshToken.Present? then Some(data.refreshToken.value) else None;
          tokenExpiry := Some(ExpiryFrom(now, data));
          ok := true;
        case HttpFailure =>
          ok := false;
        case BadBody =>
          ok := false;
      }
    }

    method RefreshAccessToken(now: int, refreshReply: Reply, tokenReply: Reply) returns (ok: bool)
      modifies this`accessToken, this`refreshToken, this`tokenExpiry, this`posts
      ensures var s := RefreshStep(clientId, clientSecret, old(TokenState()), now, refreshReply, tokenReply);
        ok == s.ok && TokenState() == s.after && posts == old(posts) + s.posts
      ensures Truthy(old(refreshToken)) && refreshReply.Granted? ==>
        && ok
        && accessToken == refreshReply.grant.accessToken
        && (refreshReply.grant.refreshToken.Absent? ==> refreshToken == old(refreshToken))
        && tokenExpiry == Some(now + Timeout(refreshReply.grant) - ExpiryMargin)
    {
      if !Truthy(refreshToken) {
        ok := Authenticate(now, tokenReply);
        return;
      }
      posts := posts + [RefreshRequest(clientId, clientSecret, refreshToken.value)];
      match refreshReply {
        case Granted(data) =>
          accessToken := data.accessToken;
          match data.refreshToken {
            case Absent =>
            case Null => refreshToken := None;
            case Present(s) => refreshToken := Some(s);
          }
          tokenExpiry := Some(ExpiryFrom(now, data));
          ok := true;
        case HttpFailure =>
          ok := Authenticate(now, tokenReply);
        case BadBody =>
          ok := false;
      }
    }

    method EnsureValidToken(now: int, refreshReply: Reply, tokenReply: Reply) returns (ok: bool)
      modifies this`accessToken, this`refreshToken, this`tokenExpiry, this`posts
      ensures var s := EnsureValidStep(clientId, clientSecret, old(TokenState()), now, refreshReply, tokenReply);
        ok == s.ok && TokenState() == s.after && posts == old(posts) + s.posts
      ensures !NeedsAuthentication(old(TokenState())) && now < old(tokenExpiry.value) ==>
        ok && TokenState() == old(TokenState()) && posts == old(posts)
    {
      if !Truthy(accessToken) || tokenExpiry.None? {
        ok := Authenticate(now, tokenReply);
      } else if now >= tokenExpiry.value {
        ok := RefreshAccessToken(now, refreshReply, tokenReply);
      } else {
        ok := true;
      }
    }

    /**
     * `request`: make sure a token is held, then send `verb` to
     * `baseUrl + endpoint` with the bearer header, the cleaned query
     * parameters (none when no query dict or an empty one is given) and the
     * body (none when it is absent or empty). `sent` is what went out, if
     * anything; `result` is what the caller gets.
     */
    method Request(now: int, refreshReply: Reply, tokenReply: Reply,
                   endpoint: string, verb: string, body: Option<Params>, queryParams: Option<Params>,
                   reply: ApiReply)
      returns (sent: Option<Outbound>, result: Result<string, ApiError>)
      modifies this`accessToken, this`refreshToken, this`tokenExpiry, this`posts
      ensures var s := EnsureValidStep(clientId, clientSecret, old(TokenState()), now, refreshReply, tokenReply);
        TokenState() == s.after && posts == old(posts) + s.posts && (sent.Some? <==> s.ok)
      ensures sent.None? ==> result == Failure(AuthenticationFailed)
      ensures sent.Some? ==>
        && sent.value.verb == verb
        && sent.value.url == baseUrl + endpoint
        && BearerToken(sent.value.authorization) == Some(PyStr(accessToken))
        && sent.value.params == (if queryParams.Some? then Cleaned(queryParams.value) else [])
        && sent.value.json == (if body.Some? && body.value != [] then body else None)
        && result == Received(reply)
    {
      var ok := EnsureValidToken(now, refreshReply, tokenReply);
      if !ok {
        return None, Failure(AuthenticationFailed);
      }
      var authorization := BearerHeader(accessToken);
      var filtered: Params := [];
      if queryParams.Some? && queryParams.value != [] {
        filtered := CleanParams(queryParams.value);
      }
      var url := baseUrl + endpoint;
      var json := if body.Some? && body.value != [] then body else None;
      sent := Some(Outbound(verb, url, authorization, filtered, json));
      match reply {
        case Response(status, payload) =>
          if 200 <= status < 300 {
            result := Success(payload);
          } else {
            result := Failure(StatusError(status, payload));
          }
        case TransportFailure =>
          result := Failure(Transport);
      }
    }

    /** An endpoint wrapper: `request` with the wrapper's route. */
    method Call(now: int, refreshReply: Reply, tokenReply: Reply, call: Endpoints.ApiCall, reply: ApiReply)
      returns (sent: Option<Outbound>, result: Result<string, ApiError>)
      modifies this`accessToken, this`refreshToken, this`tokenExpiry, this`posts
      ensures var s := EnsureValidStep(clientId, clientSecret, old(TokenState()), now, refreshReply, tokenReply);
        TokenState() == s.after && posts == old(posts) + s.posts && (sent.Some? <==> s.ok)
      ensures sent.None? ==> result == Failure(AuthenticationFailed)
      ensures sent.Some? ==>
        var r := Endpoints.RouteOf(call);
        && sent.value.verb == r.verb
        && sent.value.url == baseUrl + r.endpoint
        && BearerToken(sent.value.authorization) == Some(PyStr(accessToken))
        && sent.value.params == (if r.query.Some? then Cleaned(r.query.value) else [])
        && sent.value.json == (if r.body.Some? && r.body.value != [] then r.body else None)
        && result == Received(reply)
    {
      var r := Endpoints.RouteOf(call);
      sent, result := Request(now, refreshReply, tokenReply, r.endpoint, r.verb, r.body, r.query, reply);
    }
  }

  // ---------------------------------------------------------------------
  // Properties of the token lifecycle

  /** A failed token operation leaves all three token fields as they were. */
  lemma FailureKeepsTokens(clientId: string, clientSecret: string, t: Tokens, now: int,
                           refreshReply: Reply, tokenReply: Reply)
    ensures !AuthenticateStep(clientId, clientSecret, t, now, tokenReply).ok ==>
      AuthenticateStep(clientId, clientSecret, t, now, tokenReply).after == t
    ensures !RefreshStep(clientId, clientSecret, t, now, refreshReply, tokenReply).ok ==>
      RefreshStep(clientId, clientSecret, t, now, refreshReply, tokenReply).after == t
    ensures !EnsureValidStep(clientId, clientSecret, t, now, refreshReply, tokenReply).ok ==>
      EnsureValidStep(clientId, clientSecret, t, now, refreshReply, tokenReply).after == t
  {
  }

  /** Without a non-empty refresh token, refreshing is exactly authenticating. */
  lemma RefreshWithoutRefreshTokenAuthenticates(clientId: string, clientSecret: string, t: Tokens, now: int,
                                                refreshReply: Reply, tokenReply: Reply)
    requires !Truthy(t.refreshToken)
    ensures RefreshStep(clientId, clientSecret, t, now, refreshReply, tokenReply)
         == AuthenticateStep(clientId, clientSecret, t, now, tokenReply)
  {
  }

  /**
   * When the refresh POST fails over HTTP, the outcome and the new tokens are
   * those of `authenticate`, after the one refresh POST.
   */
  lemma RefreshHttpFailureFallsBack(clientId: string, clientSecret: string, t: Tokens, now: int, tokenReply: Reply)
    requires Truthy(t.refreshToken)
    ensures var r := RefreshStep(clientId, clientSecret, t, now, HttpFailure, tokenReply);
      var a := AuthenticateStep(clientId, clientSecret, t, now, tokenReply);
      r.ok == a.ok && r.after == a.after
      && r.posts == [RefreshRequest(clientId, clientSecret, t.refreshToken.value), ClientCredentials(clientId, clientSecret)]
  {
  }

  /**
   * A call of `ensure_valid_token` POSTs at most once to the refresh endpoint
   * and at most once to the token endpoint, refresh first: there is no retry loop.
   */
  lemma EnsureValidPostsBounded(clientId: string, clientSecret: string, t: Tokens, now: int,
                                refreshReply: Reply, tokenReply: Reply)
    ensures var p := EnsureValidStep(clientId, clientSecret, t, now, refreshReply, tokenReply).posts;
      |p| <= 2
      && (forall i :: 0 <= i < |p| && p[i].ClientCredentials? ==> i == |p| - 1)
      && (forall i :: 0 <= i < |p| && p[i].RefreshRequest? ==> i == 0)
  {
  }

  /**
   * After a successful `ensure_valid_token`, when every grant announces a
   * lifetime above the margin, the stored expiry lies in the future; when
   * every grant also carries a non-empty access token, such a token is held.
   * Without that second assumption a null or empty `access_token` is stored
   * as given and the check still succeeds (see EmptyAccessTokenReauthenticates).
   */
  lemma EnsureValidLeavesUnexpiredToken(clientId: string, clientSecret: string, t: Tokens, now: int,
                                        refreshReply: Reply, tokenReply: Reply)
    requires EnsureValidStep(clientId, clientSecret, t, now, refreshReply, tokenReply).ok
    requires OutlastsMargin(refreshReply) && OutlastsMargin(tokenReply)
    ensures var u := EnsureValidStep(clientId, clientSecret, t, now, refreshReply, tokenReply).after;
      u.tokenExpiry.Some? && now < u.tokenExpiry.value
    ensures CarriesToken(refreshReply) && CarriesToken(tokenReply) ==>
      Truthy(EnsureValidStep(clientId, clientSecret, t, now, refreshReply, tokenReply).after.accessToken)
  {
  }

  /**
   * If, in addition, every grant carries a non-empty access token, a second
   * `ensure_valid_token` at the same instant POSTs nothing and changes nothing,
   * whatever the upstream would answer.
   */
  lemma EnsureValidSettles(clientId: string, clientSecret: string, t: Tokens, now: int,
                           refreshReply: Reply, tokenReply: Reply, refreshReply': Reply, tokenReply': Reply)
    requires EnsureValidStep(clientId, clientSecret, t, now, refreshReply, tokenReply).ok
    requires OutlastsMargin(refreshReply) && OutlastsMargin(tokenReply)
    requires CarriesToken(refreshReply) && CarriesToken(tokenReply)
    ensures var u := EnsureValidStep(clientId, clientSecret, t, now, refreshReply, tokenReply).after;
      EnsureValidStep(clientId, clientSecret, u, now, refreshReply', tokenReply') == Step(true, u, [])
  {
  }

  /**
   * The five-minute safety margin: a token granted at `issued` with lifetime
   * T is used without renewal at a later instant `at` only while more than
   * 300 seconds of T remain.
   */
  lemma UsedOnlyWithMargin(clientId: string, clientSecret: string, t: Tokens, issued: int, g: Grant,
                           at: int, refreshReply: Reply, tokenReply: Reply)
    requires Truthy(g.accessToken)
    ensures var u := AuthenticateStep(clientId, clientSecret, t, issued, Granted(g)).after;
      EnsureValidStep(clientId, clientSecret, u, at, refreshReply, tokenReply).posts == [] <==>
      at + ExpiryMargin < issued + Timeout(g)
  {
  }

  /**
   * A grant announcing exactly 300 seconds is stored as already expired, so
   * `ensure_valid_token` succeeds while the held token has less than five
   * minutes left. The next check takes the refresh branch; with no refresh
   * token held, that is one more client-credentials POST.
   */
  lemma ShortLifetimeIsExpiredAtOnce(now: int)
    ensures var g := Grant(Some("T1"), Absent, Some(300));
      var s := EnsureValidStep("abc", "xyz", NoTokens, now, HttpFailure, Granted(g));
      s.ok && s.after.tokenExpiry == Some(now)
      && NeedsRefresh(s.after, now)
      && EnsureValidStep("abc", "xyz", s.after, now, HttpFailure, Granted(g)).posts == [ClientCredentials("abc", "xyz")]
  {
  }

  /** A grant without `token_timeout` expires, as stored, 3300 seconds after it was received. */
  lemma DefaultLifetime(clientId: string, clientSecret: string, t: Tokens, now: int, access: string)
    ensures AuthenticateStep(clientId, clientSecret, t, now, Granted(Grant(Some(access), Absent, None))).after
         == Tokens(Some(access), None, Some(now + 3300))
  {
  }

  /** An empty access token (or a JSON null) is stored, and the next check authenticates again. */
  lemma EmptyAccessTokenReauthenticates(clientId: string, clientSecret: string, t: Tokens, now: int,
                                        g: Grant, later: int, refreshReply: Reply, tokenReply: Reply)
    requires !Truthy(g.accessToken)
    ensures var u := AuthenticateStep(clientId, clientSecret, t, now, Granted(g)).after;
      EnsureValidStep(clientId, clientSecret, u, later, refreshReply, tokenReply)
      == AuthenticateStep(clientId, clientSecret, u, later, tokenReply)
  {
  }
}
