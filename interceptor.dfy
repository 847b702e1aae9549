/** The HTTP interceptors (`src/renderer/src/shared/http/interceptor.ts`):
    headers attached to every request, business codes turned into errors,
    and the one-time retry of a request whose token was rejected, behind a
    refresh that concurrent failures share.  Requests, the device id and the
    retried request's own result are inputs; the shared refresh is modelled
    sequentially, as a slot that holds the pending refresh's result until it
    settles. */
module Interceptor {
  import opened Wrappers
  import opened JsString
  import opened Rows
  import opened SessionVault
  import opened SessionRefresh

  const LoginPath := "/api/v1/public/user/login"
  const LoginByCodePath := "/api/v1/public/user/login-by-code"
  const RefreshTokenPath := "/api/v1/public/user/refresh-token"
  const BusinessFailedMessage := "业务请求失败"
  const SessionExpiredMessage := "登录状态已失效，请重新登录"

  /** `response.data` as far as the interceptor reads it: `code` (when it
      is a number), `message` and `trace_id`. */
  datatype ResponseBody = ResponseBody(code: Option<int>, message: Option<string>, traceId: Option<string>)

  /** A request config; the interceptors change its headers and its
      `_retried` flag in place. */
  class RequestConfig {
    var url: Option<string>
    var retried: bool
    var headers: map<string, string>
    var formData: bool

    constructor(url: Option<string>, headers: map<string, string>, formData: bool)
      ensures this.url == url && !retried && this.headers == headers && this.formData == formData
    {
      this.url := url;
      retried := false;
      this.headers := headers;
      this.formData := formData;
    }
  }

  /** What the transport hands to the response handlers: a reply, or a
      failure of the request itself (an Axios error or another thrown
      value). */
  datatype Transport = Replied(body: Option<ResponseBody>) | TransportFailed(error: Failure)

  /** What a request can reject with. */
  datatype Failure =
    | Business(bizCode: int, message: string, traceId: string, config: RequestConfig?)  // from `unwrapBusinessCode`
    | Http(status: Option<int>, config: RequestConfig?)                                 // an Axios error
    | Foreign                                  // any other thrown value
    | SessionExpired                           // the refresh gave no access token
    | RefreshRejected                          // the refresh itself threw

  /** How a request settles. */
  datatype Settled = Resolved(body: Option<ResponseBody>) | Rejected(failure: Failure)

  /** How a request settles before this layer retries anything: resolved,
      rejected with a business error by `unwrapBusinessCode`, or rejected by
      the transport.  A resent request settles this way too. */
  predicate FromTransport(s: Settled) {
    s.Resolved? || s.failure.Business? || s.failure.Http? || s.failure.Foreign?
  }

  function ConfigOf(f: Failure): RequestConfig? {
    match f
    case Business(_, _, _, c) => c
    case Http(_, c) => c
    case _ => null
  }

  /** `unwrapBusinessCode`: a numeric non-zero code becomes a business error
      carrying that code; anything else passes through. */
  function UnwrapBusinessCode(body: Option<ResponseBody>, config: RequestConfig?): (r: Settled)
    ensures r.Rejected? <==> body.Some? && body.value.code.Some? && body.value.code.value != 0
    ensures r.Resolved? ==> r.body == body
    ensures r.Rejected? ==>
              && r.failure.Business? && r.failure.bizCode == body.value.code.value && r.failure.config == config
              && r.failure.message == body.value.message.GetOr(BusinessFailedMessage)
              && r.failure.traceId == body.value.traceId.GetOr("")
  {
    match body
    case None => Resolved(body)
    case Some(b) =>
      match b.code
      case None => Resolved(body)
      case Some(code) =>
        if code != 0 then Rejected(Business(code, b.message.GetOr(BusinessFailedMessage), b.traceId.GetOr(""), config))
        else Resolved(body)
  }

  /** `isAuthFreeEndpoint`: the login, login-by-code and refresh-token
      endpoints are never retried.  The login-by-code path contains the
      login path, so its test adds nothing: an endpoint is auth-free exactly
      when its url mentions the login or the refresh-token path. */
  function IsAuthFreeEndpoint(url: Option<string>): (r: bool)
    ensures r <==> url.Some? && (Contains(url.value, LoginPath) || Contains(url.value, RefreshTokenPath))
  {
    if url.Some? then
      PathMentions(url.value);
      && url.value != ""
      && (Contains(url.value, LoginPath) || Contains(url.value, LoginByCodePath)
          || Contains(url.value, RefreshTokenPath))
    else false
  }

  /** A url mentioning the login-by-code path mentions the login path, and
      one mentioning either path is not empty. */
  lemma PathMentions(url: string)
    ensures Contains(url, LoginByCodePath) ==> Contains(url, LoginPath)
    ensures Contains(url, LoginPath) || Contains(url, RefreshTokenPath) ==> url != ""
  {
    assert LoginByCodePath[0..|LoginPath|] == LoginPath;
    if Contains(url, LoginByCodePath) {
      ContainsPiece(url, LoginByCodePath, 0, |LoginPath|);
    }
    if Contains(url, LoginPath) || Contains(url, RefreshTokenPath) {
      var i: nat :| i <= |url| && (OccursAt(url, LoginPath, i) || OccursAt(url, RefreshTokenPath, i));
    }
  }

  /** `canRetry`: a config that exists, was not retried yet and is not for
      an auth-free endpoint. */
  function CanRetry(config: RequestConfig?): (r: bool)
    reads config
    ensures r <==> config != null && !config.retried
                   && !(config.url.Some? && (Contains(config.url.value, LoginPath)
                                             || Contains(config.url.value, RefreshTokenPath)))
  {
    config != null && !config.retried && !IsAuthFreeEndpoint(config.url)
  }

  /** `TOKEN_ERROR_CODES`. */
  const TokenErrorCodes: set<int> := {20002, 20003}

  /** `isTokenBusinessError`: a business error whose code is a token error
      code; those are two of the three login-status codes. */
  function IsTokenBusinessError(f: Failure): (r: bool)
    ensures r <==> f.Business? && (f.bizCode == 20002 || f.bizCode == 20003)
    ensures r ==> 20001 <= f.bizCode <= 20003
  {
    f.Business? && f.bizCode in TokenErrorCodes
  }

  /** Whether `normalizeTransportError` retries `f`: a token error, or an
      HTTP 401, on a config that can still be retried. */
  predicate Retries(f: Failure)
    reads ConfigOf(f)
  {
    (IsTokenBusinessError(f) || (f.Http? && f.status == Some(401))) && CanRetry(ConfigOf(f))
  }

  /** `attachHeaders`: the device id always; `Content-Type: application/json`
      unless the body is form data, in which case any `Content-Type` is
      removed; `Authorization: Bearer <token>` when the vault holds a
      session with an access token.  No other header changes. */
  method AttachHeaders(config: RequestConfig, deviceId: string, vault: Vault)
    modifies config`headers
    ensures "X-Device-ID" in config.headers && config.headers["X-Device-ID"] == deviceId
    ensures !config.formData ==> "Content-Type" in config.headers && config.headers["Content-Type"] == "application/json"
    ensures config.formData ==> "Content-Type" !in config.headers
    ensures vault.stored.Some? && vault.stored.value.accessToken != "" ==>
              "Authorization" in config.headers && config.headers["Authorization"] == "Bearer " + vault.stored.value.accessToken
    ensures !(vault.stored.Some? && vault.stored.value.accessToken != "") ==>
              ("Authorization" in config.headers <==> "Authorization" in old(config.headers))
              && ("Authorization" in config.headers ==> config.headers["Authorization"] == old(config.headers)["Authorization"])
    ensures forall k :: k in old(config.headers) && k != "X-Device-ID" && k != "Content-Type" && k != "Authorization" ==>
              k in config.headers && config.headers[k] == old(config.headers)[k]
    ensures forall k :: k in config.headers ==>
              k in old(config.headers) || k == "X-Device-ID" || k == "Content-Type" || k == "Authorization"
  {
    var headers := config.headers["X-Device-ID" := deviceId];
    if !config.formData {
      headers := headers["Content-Type" := "application/json"];
    } else if "Content-Type" in headers {
      headers := headers - {"Content-Type"};
    }
    var session := vault.Get();
    if session.Some? && session.value.accessToken != "" {
      headers := headers["Authorization" := "Bearer " + session.value.accessToken];
    }
    config.headers := headers;
  }

  /** The shared refresh: `inFlight` holds the result the pending refresh
      will settle with, and `started` counts the refreshes actually run. */
  class RefreshCoordinator {
    var inFlight: Option<Reply<Option<SessionData>>>
    var started: nat

    /** A pending refresh that produced a session has stored it, with its
        access token, in the vault. */
    predicate Valid(vault: Vault)
      reads this, vault
    {
      inFlight.Some? && inFlight.value.Ok? && inFlight.value.value.Some? ==>
        inFlight.value.value.value.accessToken != "" && vault.stored == inFlight.value.value
    }

    constructor()
      ensures inFlight == None && started == 0
    {
      inFlight := None;
      started := 0;
    }

    /** The first half of `refreshSessionOnce`: start a refresh unless one
        is pending, in which case join it. */
    method Begin(vault: Vault, post: RefreshRequest -> Reply<RefreshReply>, now: int)
      requires Valid(vault)
      modifies this, vault
      ensures Valid(vault) && inFlight.Some?
      ensures old(inFlight).Some? ==>
                inFlight == old(inFlight) && started == old(started) && vault.stored == old(vault.stored)
      ensures old(inFlight).None? ==> started == old(started) + 1
      ensures old(inFlight).None? ==> (inFlight.value == Ok(None) <==> !Refreshable(old(vault.stored)))
      ensures inFlight.value.Failed? ==> vault.stored == old(vault.stored)
    {
      if inFlight.None? {
        var result := RefreshSessionToken(vault, post, now);
        inFlight := Some(result);
        started := started + 1;
      }
    }

    /** The `finally` of the pending refresh: the slot is cleared once it
        settles. */
    method Settle()
      modifies this`inFlight
      ensures inFlight == None
    {
      inFlight := None;
    }

    /** `refreshSessionOnce`: the pending refresh's result, or a new
        refresh's when none is pending; the slot is empty afterwards. */
    method RefreshSessionOnce(vault: Vault, post: RefreshRequest -> Reply<RefreshReply>, now: int)
      returns (r: Reply<Option<SessionData>>)
      requires Valid(vault)
      modifies this, vault
      ensures Valid(vault) && inFlight == None
      ensures old(inFlight).Some? ==>
                r == old(inFlight).value && started == old(started) && vault.stored == old(vault.stored)
      ensures old(inFlight).None? ==> started == old(started) + 1
      ensures old(inFlight).None? ==> (r == Ok(None) <==> !Refreshable(old(vault.stored)))
      ensures r.Ok? && r.value.Some? ==> r.value.value.accessToken != "" && vault.stored == r.value
      ensures r.Failed? ==> vault.stored == old(vault.stored)
    {
      Begin(vault, post, now);
      r := inFlight.value;
      Settle();
    }
  }

  /** `retryWithFreshToken`: mark the config retried, wait for the shared
      refresh, and resend with the new token; a refresh that throws rejects
      the request as it is, and one that yields no access token clears the
      stored session and rejects with "session expired".  `resend` is how
      the resent request settles. */
  method RetryWithFreshToken(config: RequestConfig, coordinator: RefreshCoordinator, vault: Vault,
                             post: RefreshRequest -> Reply<RefreshReply>, now: int, resend: Settled)
    returns (r: Settled)
    requires coordinator.Valid(vault) && FromTransport(resend)
    modifies config`retried, config`headers, coordinator, vault
    ensures coordinator.Valid(vault)
    ensures config.retried && !CanRetry(config)
    ensures coordinator.inFlight == None
    ensures r == resend || r == Rejected(RefreshRejected) || r == Rejected(SessionExpired)
    ensures r == Rejected(SessionExpired) ==> vault.stored == None
    ensures r == Rejected(RefreshRejected) ==> vault.stored == old(vault.stored)
    ensures r == resend ==>
              vault.stored.Some? && vault.stored.value.accessToken != ""
              && "Authorization" in config.headers
              && config.headers["Authorization"] == "Bearer " + vault.stored.value.accessToken
    ensures old(coordinator.inFlight).None? && Refreshable(old(vault.stored)) ==> r != Rejected(SessionExpired)
    ensures !Refreshable(old(vault.stored)) && old(coordinator.inFlight).None? ==>
              r == Rejected(SessionExpired)
  {
    config.retried := true;
    var next := coordinator.RefreshSessionOnce(vault, post, now);
    if next.Failed? {
      return Rejected(RefreshRejected);
    }
    if next.value.None? || next.value.value.accessToken == "" {
      vault.Clear();
      return Rejected(SessionExpired);
    }
    config.headers := config.headers["Authorization" := "Bearer " + next.value.value.accessToken];
    r := resend;
  }

  /** `normalizeTransportError`: a token business error or an HTTP 401 on a
      config that can still be retried is retried once with a fresh token;
      every other error rejects unchanged, touching nothing.  A request that
      was retried already is never retried again. */
  method NormalizeTransportError(error: Failure, coordinator: RefreshCoordinator, vault: Vault,
                                 post: RefreshRequest -> Reply<RefreshReply>, now: int, resend: Settled)
    returns (r: Settled)
    requires coordinator.Valid(vault) && FromTransport(Rejected(error)) && FromTransport(resend)
    modifies ConfigOf(error), coordinator, vault
    ensures coordinator.Valid(vault)
    ensures !old(Retries(error)) ==>
              && r == Rejected(error)
              && unchanged(coordinator, vault)
              && (ConfigOf(error) != null ==> unchanged(ConfigOf(error)))
    ensures old(Retries(error)) ==>
              && ConfigOf(error).retried && !CanRetry(ConfigOf(error))
              && (r == resend || r == Rejected(RefreshRejected) || r == Rejected(SessionExpired))
              && (r == Rejected(SessionExpired) ==> vault.stored == None)
              && (r == Rejected(RefreshRejected) ==> vault.stored == old(vault.stored))
              && (r == resend ==>
                    vault.stored.Some? && "Authorization" in ConfigOf(error).headers
                    && ConfigOf(error).headers["Authorization"] == "Bearer " + vault.stored.value.accessToken)
    ensures ConfigOf(error) != null && old(ConfigOf(error).retried) ==> r == Rejected(error)
  {
    if Retries(error) {
      r := RetryWithFreshToken(ConfigOf(error), coordinator, vault, post, now, resend);
    } else {
      r := Rejected(error);
    }
  }

  /** The response handlers as `installHttpInterceptors` installs them, as
      one pair: a reply goes through `unwrapBusinessCode` alone, so a
      business error it raises (a token error included) rejects the request
      as it is; only a transport failure goes to `normalizeTransportError`.
      So the refresh and the retry happen only for an HTTP 401. */
  method InstalledResponse(t: Transport, config: RequestConfig?, coordinator: RefreshCoordinator, vault: Vault,
                           post: RefreshRequest -> Reply<RefreshReply>, now: int, resend: Settled)
    returns (r: Settled)
    requires coordinator.Valid(vault) && FromTransport(resend)
    requires t.TransportFailed? ==> t.error.Http? || t.error.Foreign?
    modifies if t.TransportFailed? then {ConfigOf(t.error)} else {}, coordinator, vault
    ensures coordinator.Valid(vault)
    ensures t.Replied? ==> r == UnwrapBusinessCode(t.body, config) && unchanged(coordinator, vault)
    ensures t.Replied? && t.body.Some? && t.body.value.code.Some? && t.body.value.code.value in TokenErrorCodes ==>
              r.Rejected? && IsTokenBusinessError(r.failure) && unchanged(coordinator, vault)
    ensures !(t.TransportFailed? && t.error.Http? && t.error.status == Some(401) && old(CanRetry(t.error.config))) ==>
              unchanged(coordinator, vault) && (r.Rejected? ==> r.failure != SessionExpired && r.failure != RefreshRejected)
    ensures t.TransportFailed? && !old(Retries(t.error)) ==> r == Rejected(t.error)
    ensures t.TransportFailed? && old(Retries(t.error)) ==>
              && t.error.Http? && t.error.status == Some(401)
              && (r == resend || r == Rejected(RefreshRejected) || r == Rejected(SessionExpired))
              && (r == Rejected(SessionExpired) ==> vault.stored == None)
              && (r == Rejected(RefreshRejected) ==> vault.stored == old(vault.stored))
  {
    match t
    case Replied(body) =>
      r := UnwrapBusinessCode(body, config);
    case TransportFailed(error) =>
      r := NormalizeTransportError(error, coordinator, vault, post, now, resend);
  }
}
