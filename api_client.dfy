/** The decision logic of the HTTP client (services/apiClient.ts): how a
    request is routed and authorised, how a response body that reports an
    authentication failure ends the session, the priority-ordered handling
    of failed requests (session end on 401, network errors, a single token
    refresh, bounded retries with a delay table, normalisation), the
    single-slot token refresh, and the wrappers `get`/`post`/`put`/`delete`
    and `authPost`.

    The transport is an input: the k-th time the interceptor chain runs,
    `server(k)` says whether the device was online before the request, what
    the server replied, and whether the device was online when a network
    error was examined. Storage is the `Store` record, the toast and the
    navigation of a session end are counted as one session end each, and
    the token refresh sends its request through the same chain, on the
    next runs of the transport. The
    build is a production build (no development logging, axios' default
    rule that exactly the 2xx statuses resolve). */
module ApiClient {
  import opened JsValue

  /** `RETRY_DELAYS`, in milliseconds. */
  const RetryDelays: seq<nat> := [1000, 2000, 5000, 10000, 30000]
  const MaxRetries: nat := 5

  const AuthFailedMessage: string := "Authentication failed. Please log in again."
  const OfflineMessage: string := "No internet connection. Please check your network settings."
  const TimeoutMessage: string := "Request timed out. The server is taking too long to respond."
  const NetworkNativeMessage: string := "Network connection issue. Please check your internet connection and ensure the server is accessible from your device."
  const NetworkWebMessage: string := "Network connection issue. Please check your internet connection and try again."
  const NoResponseNativeMessage: string := "No response from server. Please check that your API server is running and accessible from your mobile device."
  const NoResponseWebMessage: string := "No response received from server. Check if API is running and network connectivity."
  const CorsMessage: string := "Unable to connect to the server. This might be due to CORS settings or the server being unavailable."

  datatype Platform = Web | Native

  /** `API_URL` and `AUTH_API_URL`. */
  datatype Config = Config(apiUrl: string, authApiUrl: string)

  /** The server's reply as an `AxiosError` carries it. */
  datatype ServerResponse = ServerResponse(status: int, data: Json)

  /** A rejection value, by the properties the client reads from it:
      `message`, `code`, `status`, `response` and `request` (`undefined`
      where absent). An `AxiosError` has a response or a request; the plain
      objects the client builds have neither. */
  datatype ErrorValue = ErrorValue(message: Json, code: Json, status: Json,
                                   response: Option<ServerResponse>, request: bool)

  /** A plain `{ message, code }` error object. */
  function ErrorObject(message: string, code: string): ErrorValue {
    ErrorValue(JStr(message), JStr(code), JUndefined, None, false)
  }

  /** The rejection that replaces an authentication failure. */
  const AuthFailure: ErrorValue := ErrorObject(AuthFailedMessage, "401")

  /** `new Error(OfflineMessage)` from the request interceptor. */
  const OfflineError: ErrorValue := ErrorValue(JStr(OfflineMessage), JUndefined, JUndefined, None, false)

  /** The error thrown when `toLowerCase` is called on a message that is
      not a string. */
  const TypeErrorValue: ErrorValue :=
    ErrorValue(JStr("errorMessage.toLowerCase is not a function"), JUndefined, JUndefined, None, false)

  // ---------------------------------------------------------------------
  // Authentication-error classification

  predicate MentionsAuth(s: string) {
    var l := Lower(s);
    Contains(l, "unauthorized") || Contains(l, "invalid user") || Contains(l, "token expired")
  }

  predicate AuthCode(code: Json) {
    code == JStr("401") || code == JNum(401.0)
  }

  /** `isAuthError` over the `error` object of a response body (the same
      expression in the response interceptor and in `checkForAuthError`).
      `None` stands for the `TypeError` thrown when the message is truthy
      but not a string. */
  function IsAuthError(error: Json): (r: Option<bool>)
    ensures r == Some(true) <==>
      AuthCode(Get(error, "code")) || (Get(error, "message").JStr? && MentionsAuth(Get(error, "message").s))
    ensures r.None? <==>
      !AuthCode(Get(error, "code")) && Truthy(Get(error, "message")) && !Get(error, "message").JStr?
  {
    var code := Get(error, "code");
    var message := Or(Get(error, "message"), JStr(""));
    if AuthCode(code) then Some(true)
    else if !Truthy(message) then Some(false)
    else if !message.JStr? then None
    else Some(MentionsAuth(message.s))
  }

  // ---------------------------------------------------------------------
  // The request interceptor and `authPost`

  /** The base URL of a request. */
  function BaseUrl(url: string, config: Config): (r: string)
    ensures StartsWith(url, "/auth/") ==> r == config.authApiUrl
    ensures !StartsWith(url, "/auth/") ==> r == config.apiUrl
  {
    if StartsWith(url, "/auth/") then config.authApiUrl else config.apiUrl
  }

  /** The `Authorization` header for the stored token, if there is one. */
  function Authorization(token: Json): (r: Option<string>)
    ensures r.Some? <==> Truthy(token)
    ensures Truthy(token) && token.JStr? ==> r == Some("Bearer " + token.s)
  {
    if Truthy(token) then Some("Bearer " + JsString(token)) else None
  }

  datatype Outgoing = Outgoing(url: string, baseUrl: string, authorization: Option<string>)

  datatype Prepared = Blocked(error: ErrorValue) | Ready(request: Outgoing)

  /** The request interceptor: a native device that is offline rejects the
      request; otherwise it gets its base URL and, when a token is stored,
      a bearer header. */
  function RequestInterceptor(url: string, platform: Platform, connected: bool, token: Json, config: Config)
    : (r: Prepared)
    ensures r.Blocked? <==> platform.Native? && !connected
    ensures r.Blocked? ==> r.error == OfflineError
    ensures r.Ready? ==> r.request == Outgoing(url, BaseUrl(url, config), Authorization(token))
  {
    if platform.Native? && !connected then Blocked(OfflineError)
    else Ready(Outgoing(url, BaseUrl(url, config), Authorization(token)))
  }

  /** Every URL routed to the authentication API is also exempt from the
      session end. */
  lemma AuthRoutedUrlsAreExempt(url: string)
    requires StartsWith(url, "/auth/")
    ensures Contains(url, "/auth/")
  {
    StartsWithContains(url, "/auth/");
  }

  /** The URL `authPost` requests. */
  function AuthPostUrl(url: string): (r: string)
    ensures StartsWith(url, "/auth/") ==> r == url
    ensures !StartsWith(url, "/auth/") ==> r == "/auth" + url
  {
    if StartsWith(url, "/auth/") then url else "/auth" + url
  }

  /** For a path that starts with '/', `authPost` always reaches the
      authentication API and is exempt from the session end. */
  lemma AuthPostRoutesToAuthApi(url: string, config: Config)
    requires |url| >= 1 && url[0] == '/'
    ensures StartsWith(AuthPostUrl(url), "/auth/")
    ensures BaseUrl(AuthPostUrl(url), config) == config.authApiUrl
    ensures Contains(AuthPostUrl(url), "/auth/")
  {
    var r := AuthPostUrl(url);
    if !StartsWith(url, "/auth/") {
      assert r[..6] == "/auth" + url[..1];
    }
    StartsWithContains(r, "/auth/");
  }

  // ---------------------------------------------------------------------
  // Replies

  /** What the transport produced for one dispatch. */
  datatype Reply =
    | HttpReply(status: int, data: Json)
    | NoResponse(message: string, code: Json, requestSent: bool)

  /** One run of the interceptor chain: connectivity before the request,
      the reply, and connectivity when a network error is examined. */
  datatype Attempt = Attempt(connectedBefore: bool, reply: Reply, connectedAfter: bool)

  /** axios' default `validateStatus`. */
  predicate Resolves(reply: Reply) {
    reply.HttpReply? && 200 <= reply.status < 300
  }

  const StatusMessagePrefix: string := "Request failed with status code "

  /** The `AxiosError` of a reply that does not resolve. */
  function AxiosError(reply: Reply): (r: ErrorValue)
    ensures r.response.Some? <==> reply.HttpReply?
    ensures r.status == JUndefined
    ensures reply.HttpReply? ==> r.response.value == ServerResponse(reply.status, reply.data) && r.request
    ensures reply.HttpReply? ==> r.message == JStr(StatusMessagePrefix + IntText(reply.status))
    ensures reply.HttpReply? && 400 <= reply.status < 500 ==> r.code == JStr("ERR_BAD_REQUEST")
    ensures reply.HttpReply? && 500 <= reply.status < 600 ==> r.code == JStr("ERR_BAD_RESPONSE")
    ensures reply.NoResponse? ==> r.message == JStr(reply.message) && r.code == reply.code && r.request == reply.requestSent
  {
    match reply
    case HttpReply(status, data) =>
      ErrorValue(JStr(StatusMessagePrefix + IntText(status)),
                 if 400 <= status < 500 then JStr("ERR_BAD_REQUEST")
                 else if 500 <= status < 600 then JStr("ERR_BAD_RESPONSE") else JUndefined,
                 JUndefined, Some(ServerResponse(status, data)), true)
    case NoResponse(message, code, sent) =>
      ErrorValue(JStr(message), code, JUndefined, None, sent)
  }

  /** An HTTP error is never mistaken for a network error. */
  lemma StatusErrorIsNotNetworkError(status: int, data: Json)
    ensures !IsNetworkError(AxiosError(HttpReply(status, data)))
  {
    assert (StatusMessagePrefix + IntText(status))[0] == 'R';
  }

  // ---------------------------------------------------------------------
  // The response interceptor, fulfilled side

  datatype Fulfilled = Pass | EndSessionWith401 | ThrowTypeError

  /** The check of a resolved body: one that reports failure with an
      authentication error ends the session unless the URL is an
      authentication URL. */
  function FulfilledCheck(data: Json, url: string): (r: Fulfilled)
    ensures r == EndSessionWith401 <==>
      Truthy(data) && !Truthy(Get(data, "success")) && Truthy(Get(data, "error")) &&
      IsAuthError(Get(data, "error")) == Some(true) && !Contains(url, "/auth/")
    ensures r == ThrowTypeError <==>
      Truthy(data) && !Truthy(Get(data, "success")) && Truthy(Get(data, "error")) &&
      IsAuthError(Get(data, "error")).None?
  {
    if Truthy(data) && !Truthy(Get(data, "success")) && Truthy(Get(data, "error")) then
      match IsAuthError(Get(data, "error"))
      case None => ThrowTypeError
      case Some(auth) => if auth && !Contains(url, "/auth/") then EndSessionWith401 else Pass
    else Pass
  }

  /** `checkForAuthError`: `Some(true)` when it ends the session, `None`
      when it throws. */
  function CheckForAuthError(error: Json, url: string): (r: Option<bool>)
    ensures r == Some(true) <==> !Contains(url, "/auth/") && IsAuthError(error) == Some(true)
    ensures r.None? <==> !Contains(url, "/auth/") && IsAuthError(error).None?
    ensures Contains(url, "/auth/") ==> r == Some(false)
  {
    if Contains(url, "/auth/") then Some(false) else IsAuthError(error)
  }

  /** The wrappers call `checkForAuthError` only on bodies the interceptor
      let through, so it never ends the session and never throws. */
  lemma CheckForAuthErrorIsInert(data: Json, url: string)
    requires FulfilledCheck(data, url) == Pass
    requires Truthy(data) && !Truthy(Get(data, "success")) && Truthy(Get(data, "error"))
    ensures CheckForAuthError(Get(data, "error"), url) == Some(false)
  {
  }

  // ---------------------------------------------------------------------
  // Error normalisation (`handleError`)

  /** A normalised error and whether producing it ended the session. */
  datatype Handled = Handled(error: ErrorValue, endsSession: bool)

  /** `error.response?.data?.error?.code`. */
  function BodyErrorCode(error: ErrorValue): Json {
    if error.response.Some? then Get(Get(error.response.value.data, "error"), "code") else JUndefined
  }

  predicate Has401(error: ErrorValue) {
    error.response.Some? && error.response.value.status == 401
  }

  predicate IsNetworkError(error: ErrorValue) {
    error.message == JStr("Network Error")
  }

  /** The branches of `handleError` after the 401 branch, in their order:
      network error, timeout, server response (with the body's error code
      when there is one), request without response, anything else. Every
      outcome has a message. */
  function NormaliseError(error: ErrorValue, platform: Platform): (r: ErrorValue)
    ensures Truthy(r.message) && r.response.None? && !r.request
    ensures IsNetworkError(error) ==>
      r.code == JStr(if platform.Native? then "MOBILE_NETWORK_ERROR" else "NETWORK_ERROR")
    ensures !IsNetworkError(error) && error.code == JStr("ECONNABORTED") ==> r.code == JStr("TIMEOUT_ERROR")
    ensures !IsNetworkError(error) && error.code != JStr("ECONNABORTED") && error.response.Some? ==>
      r.status == JNum(error.response.value.status as real) &&
      r.code == (if Truthy(BodyErrorCode(error)) then BodyErrorCode(error)
                 else Get(error.response.value.data, "code"))
    ensures !IsNetworkError(error) && error.code != JStr("ECONNABORTED") && error.response.None? ==>
      r.code == JStr(if !error.request then "UNKNOWN_ERROR"
                     else if platform.Native? then "MOBILE_REQUEST_FAILED" else "NETWORK_ERROR")
    ensures IsNetworkError(error) || error.code == JStr("ECONNABORTED") || error.response.None? ==>
      r.status == JUndefined
  {
    if IsNetworkError(error) then NetworkFailure(platform)
    else if error.code == JStr("ECONNABORTED") then
      ErrorObject(TimeoutMessage, "TIMEOUT_ERROR")
    else if error.response.Some? then ResponseFailure(error.response.value)
    else if error.request then NoResponseFailure(platform)
    else
      ErrorValue(Or(error.message, JStr("An unexpected error occurred")), JStr("UNKNOWN_ERROR"), JUndefined, None, false)
  }

  /** The network-error branch of `handleError`. */
  function NetworkFailure(platform: Platform): (r: ErrorValue)
    ensures r.code == JStr(if platform.Native? then "MOBILE_NETWORK_ERROR" else "NETWORK_ERROR")
    ensures Truthy(r.message) && r.response.None? && !r.request
  {
    if platform.Native? then
      ErrorObject(NetworkNativeMessage, "MOBILE_NETWORK_ERROR")
    else
      ErrorObject(NetworkWebMessage, "NETWORK_ERROR")
  }

  /** The server-response branch of `handleError`: the body's nested error
      when it has a code, the body itself otherwise. */
  function ResponseFailure(response: ServerResponse): (r: ErrorValue)
    ensures var bodyCode := Get(Get(response.data, "error"), "code");
            r.code == (if Truthy(bodyCode) then bodyCode else Get(response.data, "code"))
    ensures r.status == JNum(response.status as real)
    ensures Truthy(r.message) && r.response.None? && !r.request
  {
    var data := response.data;
    var status := JNum(response.status as real);
    var bodyCode := Get(Get(data, "error"), "code");
    if Truthy(bodyCode) then
      ErrorValue(Or(Get(Get(data, "error"), "message"), JStr("An error occurred")), bodyCode, status, None, false)
    else
      ErrorValue(Or(Get(data, "message"), JStr("An error occurred")), Get(data, "code"), status, None, false)
  }

  /** The request-without-response branch of `handleError`. */
  function NoResponseFailure(platform: Platform): (r: ErrorValue)
    ensures r.code == JStr(if platform.Native? then "MOBILE_REQUEST_FAILED" else "NETWORK_ERROR")
    ensures Truthy(r.message) && r.response.None? && !r.request
  {
    if platform.Native? then
      ErrorObject(NoResponseNativeMessage, "MOBILE_REQUEST_FAILED")
    else
      ErrorObject(NoResponseWebMessage, "NETWORK_ERROR")
  }

  /** `handleError` as written: any 401 response ends the session. */
  function HandleErrorAsWritten(error: ErrorValue, platform: Platform): (r: Handled)
    ensures r.endsSession <==> Has401(error)
    ensures Has401(error) ==> r.error == AuthFailure
    ensures !Has401(error) ==> r.error == NormaliseError(error, platform)
  {
    if Has401(error) then Handled(AuthFailure, true) else Handled(NormaliseError(error, platform), false)
  }

  /** `handleError` with the exemption of authentication URLs that the
      interceptors apply: a 401 from an authentication URL (a failed login)
      is normalised from the server's response instead. */
  function HandleError(error: ErrorValue, url: string, platform: Platform): (r: Handled)
    ensures r.endsSession <==> Has401(error) && !Contains(url, "/auth/")
    ensures r.endsSession ==> r.error == AuthFailure
    ensures !r.endsSession ==> r.error == NormaliseError(error, platform)
    ensures Truthy(r.error.message)
  {
    if Has401(error) && !Contains(url, "/auth/") then Handled(AuthFailure, true)
    else Handled(NormaliseError(error, platform), false)
  }

  const LoginFailureBody: Json := JObj(map["message" := JStr("Invalid credentials")])

  /** A failed login: the interceptor lets a 401 from '/auth/login'
      through to `handleError`, which as written ends the session although
      both interceptor checks exempt authentication URLs. */
  lemma FailedLoginEndsSessionAsWritten(platform: Platform, connectedAfter: bool)
    ensures var e := AxiosError(HttpReply(401, LoginFailureBody));
            EarlyRejection(e, "/auth/login", platform, connectedAfter).None? &&
            !WantsRefresh(e, false) &&
            LateDecisionAsWritten(e, 0, platform) == Give(Handled(AuthFailure, true))
  {
    assert OccursAt("/auth/login", "/auth/", 0);
    StatusErrorIsNotNetworkError(401, LoginFailureBody);
  }

  /** With the exemption, the same failed login keeps the session and
      reports the server's message with status 401. */
  lemma FailedLoginKeepsSession(platform: Platform)
    ensures HandleError(AxiosError(HttpReply(401, LoginFailureBody)), "/auth/login", platform) ==
      Handled(ErrorValue(JStr("Invalid credentials"), JUndefined, JNum(401.0), None, false), false)
  {
    assert OccursAt("/auth/login", "/auth/", 0);
    StatusErrorIsNotNetworkError(401, LoginFailureBody);
  }

  // ---------------------------------------------------------------------
  // The response interceptor, rejected side

  /** The two checks that come before the token refresh: a 401 on a
      non-authentication URL ends the session; a network error is
      classified by platform and connectivity. */
  function EarlyRejection(error: ErrorValue, url: string, platform: Platform, connectedNow: bool): (r: Option<Handled>)
    ensures Has401(error) && !Contains(url, "/auth/") ==> r == Some(Handled(AuthFailure, true))
    ensures r.Some? && r.value.endsSession ==> Has401(error) && !Contains(url, "/auth/")
    ensures r.None? <==> !(Has401(error) && !Contains(url, "/auth/")) && !IsNetworkError(error)
  {
    if Has401(error) && !Contains(url, "/auth/") then Some(Handled(AuthFailure, true))
    else if IsNetworkError(error) then Some(Handled(NetworkRejection(platform, connectedNow), false))
    else None
  }

  /** The interceptor's classification of a network error. */
  function NetworkRejection(platform: Platform, connectedNow: bool): (r: ErrorValue)
    ensures r.code == JStr(if platform.Native? && !connectedNow then "NETWORK_DISCONNECTED" else "SERVER_UNREACHABLE")
    ensures Truthy(r.message) && r.response.None? && !r.request
  {
    if platform.Native? then
      if !connectedNow then
        ErrorObject(OfflineMessage, "NETWORK_DISCONNECTED")
      else
        ErrorObject(UnreachableMessage, "SERVER_UNREACHABLE")
    else
      ErrorObject(CorsMessage, "SERVER_UNREACHABLE")
  }

  /** The token-expiry branch applies once per request (`_retry`). */
  predicate WantsRefresh(error: ErrorValue, retried: bool) {
    BodyErrorCode(error) == JStr("TOKEN_EXPIRED") && !retried
  }

  /** `status && status >= 500`. */
  predicate ServerFailure(error: ErrorValue) {
    error.response.Some? && error.response.value.status != 0 && error.response.value.status >= 500
  }

  datatype Decision = Retry(delay: nat) | Give(handled: Handled)

  /** The checks after the token refresh: rate limiting and server
      failures share one retry counter, and retry n waits
      `RetryDelays[n - 1]`; everything else is normalised. */
  function LateDecision(error: ErrorValue, retryCount: nat, url: string, platform: Platform): (r: Decision)
    ensures r.Retry? <==>
      (retryCount < MaxRetries && (BodyErrorCode(error) == JStr("RATE_LIMIT_EXCEEDED") || ServerFailure(error)))
    ensures r.Retry? ==> r.delay == RetryDelays[retryCount]
    ensures r.Give? ==> r.handled == HandleError(error, url, platform)
  {
    if BodyErrorCode(error) == JStr("RATE_LIMIT_EXCEEDED") && retryCount < |RetryDelays| then
      Retry(RetryDelays[retryCount])
    else if ServerFailure(error) && retryCount < |RetryDelays| then
      Retry(RetryDelays[retryCount])
    else Give(HandleError(error, url, platform))
  }

  /** The same checks with `handleError` as written. */
  function LateDecisionAsWritten(error: ErrorValue, retryCount: nat, platform: Platform): (r: Decision)
    ensures r.Retry? <==>
      (retryCount < MaxRetries && (BodyErrorCode(error) == JStr("RATE_LIMIT_EXCEEDED") || ServerFailure(error)))
    ensures r.Retry? ==> r.delay == RetryDelays[retryCount]
    ensures r.Give? ==> r.handled == HandleErrorAsWritten(error, platform)
  {
    if BodyErrorCode(error) == JStr("RATE_LIMIT_EXCEEDED") && retryCount < |RetryDelays| then
      Retry(RetryDelays[retryCount])
    else if ServerFailure(error) && retryCount < |RetryDelays| then
      Retry(RetryDelays[retryCount])
    else Give(HandleErrorAsWritten(error, platform))
  }

  /** Which reading of the client a chain runs: `AsWritten` is the code
      (the `handleError` of lines 307-386 after the late checks, and a second
      `handleError` in the wrappers' catch); `Intended` exempts
      authentication URLs in `handleError` as the interceptor does, does
      not start a token refresh for them (the refresh request included),
      and rethrows what the interceptor determined. */
  datatype Variant = AsWritten | Intended

  function DecisionOf(v: Variant, error: ErrorValue, retryCount: nat, url: string, platform: Platform): Decision {
    match v
    case AsWritten => LateDecisionAsWritten(error, retryCount, platform)
    case Intended => LateDecision(error, retryCount, url, platform)
  }

  // ---------------------------------------------------------------------
  // Storage and the token refresh

  /** The stored tokens (`null` when absent), the number of session ends so
      far (each one the toast, the token removal and the navigation of
      `logoutAndRedirect`), and whether `refreshPromise` holds a pending
      refresh. */
  datatype Store = Store(authToken: Json, refreshToken: Json, ends: nat, refreshPending: bool)

  /** `showError(...)` and `logoutAndRedirect()`: both tokens removed. */
  function EndSession(s: Store): (r: Store)
    ensures r.ends == s.ends + 1 && r.refreshPending == s.refreshPending
    ensures r.authToken == JNull && r.refreshToken == JNull
  {
    Store(JNull, JNull, s.ends + 1, s.refreshPending)
  }

  /** The path of the refresh request. */
  const RefreshUrl: string := "/auth/refresh"

  lemma RefreshUrlIsExempt()
    ensures StartsWith(RefreshUrl, "/auth/") && Contains(RefreshUrl, "/auth/")
  {
    assert OccursAt(RefreshUrl, "/auth/", 0);
  }

  /** What the refresh resolves to once its request resolved with `data`:
      the new token when the body reports success and carries one, `null`
      in every other case. */
  function RefreshedToken(data: Json): (r: Json)
    ensures r == JNull || Truthy(r)
    ensures Truthy(r) <==>
      Truthy(Get(data, "success")) && Truthy(Get(data, "data")) && Truthy(Get(Get(data, "data"), "token"))
    ensures Truthy(r) ==> r == Get(Get(data, "data"), "token")
  {
    var token := Get(Get(data, "data"), "token");
    if Truthy(Get(data, "success")) && Truthy(Get(data, "data")) && Truthy(token) then token else JNull
  }

  /** The storage after the refresh request resolved with `data`: a new
      token is stored, and the new refresh token too when there is one;
      without a token nothing changes. */
  function AfterRefresh(s: Store, data: Json): (r: Store)
    ensures r.ends == s.ends && r.refreshPending == s.refreshPending
    ensures !Truthy(RefreshedToken(data)) ==> r == s
    ensures Truthy(RefreshedToken(data)) ==> r.authToken == RefreshedToken(data)
    ensures Truthy(RefreshedToken(data)) ==>
      r.refreshToken == (if Truthy(Get(Get(data, "data"), "refreshToken")) then Get(Get(data, "data"), "refreshToken")
                         else s.refreshToken)
  {
    var token := RefreshedToken(data);
    if !Truthy(token) then s
    else
      var newRefresh := Get(Get(data, "data"), "refreshToken");
      s.(authToken := token, refreshToken := if Truthy(newRefresh) then newRefresh else s.refreshToken)
  }

  // ---------------------------------------------------------------------
  // A request through the interceptor chain

  /** `NeverSettles`: the request waits on a refresh that never settles. */
  datatype CallResult = Resolved(value: Json) | Rejected(reason: ErrorValue) | NeverSettles

  /** The end of a request: its result, the index on the transport after
      its last run of the chain (the runs of its token refresh included),
      the delays its own retries waited, the number of token refreshes it
      started, and the storage afterwards. */
  datatype Run = Run(result: CallResult, rounds: nat, delays: seq<nat>, refreshes: nat, store: Store)

  function Measure(retried: bool, retryCount: nat): nat
    requires retryCount <= MaxRetries
  {
    (if retried then 0 else 1) + (MaxRetries - retryCount)
  }

  /** A chain that runs while the refresh slot is taken cannot start a
      refresh of its own. */
  function Depth(store: Store): nat {
    if store.refreshPending then 0 else 1
  }

  /** Whether a token-expiry error starts the refresh: as written on every
      URL, the refresh request included (the check at line 222 has no URL
      test); intended, never on an authentication URL. */
  predicate RefreshApplies(v: Variant, url: string) {
    v.AsWritten? || !Contains(url, "/auth/")
  }

  /** What a request may do to the session begun with `store`. The request
      itself ends it at most once, and only with the authentication failure
      as its result; as written, a token refresh it started may end it once
      more, whatever the result. No rejection carries a server response. A
      request that never settles leaves the refresh slot taken; any other
      leaves it as it was. */
  predicate Settled(v: Variant, run: Run, store: Store, refreshed: bool) {
    var most := if v.AsWritten? && refreshed then 2 else 1;
    store.ends <= run.store.ends <= store.ends + most &&
    (run.store.ends == store.ends + most ==> run.result == Rejected(AuthFailure)) &&
    (run.result.Rejected? ==> run.result.reason.response.None?) &&
    (if run.result.NeverSettles? then run.store.refreshPending else run.store.refreshPending == store.refreshPending)
  }

  /** The after-refresh part of the rejected side, at the retry state
      `retried`/`retryCount`. */
  function Later(v: Variant, url: string, server: nat -> Attempt, platform: Platform, error: ErrorValue,
                 retried: bool, retryCount: nat, rounds: nat, delays: seq<nat>, refreshes: nat, store: Store): (r: Run)
    requires retryCount <= MaxRetries
    ensures Settled(v, r, store, r.refreshes > refreshes)
    ensures retried || store.refreshPending ==> r.refreshes == refreshes
    ensures v.Intended? && Contains(url, "/auth/") ==> r.store.ends == store.ends
    ensures v.Intended? && (!store.refreshPending || Contains(url, "/auth/")) ==> !r.result.NeverSettles?
    decreases Depth(store), Measure(retried, retryCount), 0
  {
    match DecisionOf(v, error, retryCount, url, platform)
    case Retry(d) =>
      Pipeline(v, url, server, platform, retried, retryCount + 1, rounds, delays + [d], refreshes, store)
    case Give(h) => Run(Rejected(h.error), rounds, delays, refreshes, if h.endsSession then EndSession(store) else store)
  }

  /** The rejected side of the response interceptor for `error`. A
      token-expiry error the refresh applies to either waits on a pending
      refresh, which never settles, or starts one; afterwards the request
      is retried with the new token, or goes on to the late checks when the
      refresh gave `null`. */
  function Rejection(v: Variant, url: string, server: nat -> Attempt, platform: Platform, error: ErrorValue,
                     connectedNow: bool, retried: bool, retryCount: nat, rounds: nat, delays: seq<nat>,
                     refreshes: nat, store: Store): (r: Run)
    requires retryCount <= MaxRetries
    ensures Settled(v, r, store, r.refreshes > refreshes)
    ensures retried || store.refreshPending ==> r.refreshes == refreshes
    ensures v.Intended? && Contains(url, "/auth/") ==> r.store.ends == store.ends
    ensures v.Intended? && (!store.refreshPending || Contains(url, "/auth/")) ==> !r.result.NeverSettles?
    decreases Depth(store), Measure(retried, retryCount), 1
  {
    match EarlyRejection(error, url, platform, connectedNow)
    case Some(h) =>
      Run(Rejected(h.error), rounds, delays, refreshes, if h.endsSession then EndSession(store) else store)
    case None =>
      if WantsRefresh(error, retried) && RefreshApplies(v, url) then
        if store.refreshPending then Run(NeverSettles, rounds, delays, refreshes, store)
        else Refreshing(v, url, server, platform, error, retryCount, rounds, delays, refreshes, store)
      else
        Later(v, url, server, platform, error, retried, retryCount, rounds, delays, refreshes, store)
  }

  /** The token-expiry branch with the slot empty: a refresh starts (and
      marks the request as retried); afterwards the request is retried with
      the new token, or goes on to the late checks when the refresh gave
      `null`. */
  function Refreshing(v: Variant, url: string, server: nat -> Attempt, platform: Platform, error: ErrorValue,
                      retryCount: nat, rounds: nat, delays: seq<nat>, refreshes: nat, store: Store): (r: Run)
    requires retryCount <= MaxRetries && !store.refreshPending
    ensures Settled(v, r, store, true)
    ensures r.refreshes == refreshes + 1
    ensures v.Intended? && Contains(url, "/auth/") ==> r.store.ends == store.ends
    ensures v.Intended? ==> !r.result.NeverSettles?
    decreases Depth(store), Measure(false, retryCount), 0
  {
    var rr := Refresh(v, server, platform, rounds, store);
    if rr.result.NeverSettles? then Run(NeverSettles, rr.rounds, delays, refreshes + 1, rr.store)
    else if Truthy(rr.result.value) then
      Pipeline(v, url, server, platform, true, retryCount, rr.rounds, delays, refreshes + 1, rr.store)
    else
      Later(v, url, server, platform, error, true, retryCount, rr.rounds, delays, refreshes + 1, rr.store)
  }

  /** `refreshToken()` when no refresh is pending. The slot is taken.
      Without a stored refresh token the refresh resolves to `null`;
      otherwise its request runs through the same chain, from the next run
      of the transport on, and a resolved body gives its token while a
      rejection is caught and gives `null`. The `finally` empties the slot,
      except when the refresh request never settles. */
  function Refresh(v: Variant, server: nat -> Attempt, platform: Platform, rounds: nat, store: Store): (r: Run)
    requires !store.refreshPending
    ensures r.result.Resolved? || r.result.NeverSettles?
    ensures r.result.Resolved? ==> (r.result.value == JNull || Truthy(r.result.value)) && !r.store.refreshPending
    ensures r.result.Resolved? && Truthy(r.result.value) ==> r.store.authToken == r.result.value
    ensures r.result.NeverSettles? ==> v.AsWritten? && r.store.refreshPending
    ensures !Truthy(store.refreshToken) ==> r == Run(Resolved(JNull), rounds, [], 0, store)
    ensures store.ends <= r.store.ends <= store.ends + (if v.AsWritten? then 1 else 0)
    ensures r.refreshes == 0
    decreases 0, MaxRetries + 2, 0
  {
    if !Truthy(store.refreshToken) then Run(Resolved(JNull), rounds, [], 0, store)
    else
      RefreshUrlIsExempt();
      var call := Pipeline(v, RefreshUrl, server, platform, false, 0, rounds, [], 0, store.(refreshPending := true));
      match call.result
      case Resolved(data) =>
        Run(Resolved(RefreshedToken(data)), call.rounds, call.delays, 0,
            AfterRefresh(call.store, data).(refreshPending := false))
      case Rejected(_) => Run(Resolved(JNull), call.rounds, call.delays, 0, call.store.(refreshPending := false))
      case NeverSettles => Run(NeverSettles, call.rounds, call.delays, 0, call.store)
  }

  /** The request from the retry state `retried`/`retryCount`, its next run
      of the chain being the `rounds`-th of the transport. */
  function Pipeline(v: Variant, url: string, server: nat -> Attempt, platform: Platform, retried: bool,
                    retryCount: nat, rounds: nat, delays: seq<nat>, refreshes: nat, store: Store): (r: Run)
    requires retryCount <= MaxRetries
    ensures Settled(v, r, store, r.refreshes > refreshes)
    ensures retried || store.refreshPending ==> r.refreshes == refreshes
    ensures v.Intended? && Contains(url, "/auth/") ==> r.store.ends == store.ends
    ensures v.Intended? && (!store.refreshPending || Contains(url, "/auth/")) ==> !r.result.NeverSettles?
    decreases Depth(store), Measure(retried, retryCount), 2
  {
    var a := server(rounds);
    var sent := !(platform.Native? && !a.connectedBefore);
    if sent && Resolves(a.reply) then
      match FulfilledCheck(a.reply.data, url)
      case Pass => Run(Resolved(a.reply.data), rounds + 1, delays, refreshes, store)
      case EndSessionWith401 => Run(Rejected(AuthFailure), rounds + 1, delays, refreshes, EndSession(store))
      case ThrowTypeError => Run(Rejected(TypeErrorValue), rounds + 1, delays, refreshes, store)
    else
      var error := if sent then AxiosError(a.reply) else OfflineError;
      Rejection(v, url, server, platform, error, a.connectedAfter, retried, retryCount, rounds + 1, delays, refreshes,
                store)
  }

  /** A request through the chain, from a fresh retry state. */
  function Request(v: Variant, url: string, server: nat -> Attempt, platform: Platform, store: Store): (r: Run)
    ensures Settled(v, r, store, r.refreshes > 0)
    ensures v.Intended? && Contains(url, "/auth/") ==> r.store.ends == store.ends
    ensures v.Intended? && !store.refreshPending ==> !r.result.NeverSettles?
  {
    Pipeline(v, url, server, platform, false, 0, 0, [], 0, store)
  }

  /** A run on which the device is online and the server's reply does
      not resolve goes to the rejected side with the reply's error. */
  lemma RejectedRun(v: Variant, url: string, server: nat -> Attempt, platform: Platform, retried: bool,
                    retryCount: nat, rounds: nat, delays: seq<nat>, refreshes: nat, store: Store)
    requires retryCount <= MaxRetries
    requires server(rounds).connectedBefore && !Resolves(server(rounds).reply)
    ensures Pipeline(v, url, server, platform, retried, retryCount, rounds, delays, refreshes, store) ==
              Rejection(v, url, server, platform, AxiosError(server(rounds).reply), server(rounds).connectedAfter,
                        retried, retryCount, rounds + 1, delays, refreshes, store)
  {
  }

  /** How many more runs of the transport a chain may take after the
      current one: as many retries as the counter allows, and, while a
      refresh can still start, the runs of the refresh request and the one
      retry after it. */
  function Budget(retried: bool, retryCount: nat, store: Store): nat
    requires retryCount <= MaxRetries
  {
    if retried || store.refreshPending then MaxRetries - retryCount
    else Measure(false, retryCount) + 1 + MaxRetries
  }

  /** From any retry state: at most one further refresh, at most
      `Budget + 1` further runs, and the delays stay a prefix of the
      table. */
  lemma {:induction false} PipelineBounds(v: Variant, url: string, server: nat -> Attempt, platform: Platform,
                                          retried: bool, retryCount: nat, rounds: nat, delays: seq<nat>,
                                          refreshes: nat, store: Store)
    requires retryCount <= MaxRetries && delays == RetryDelays[..retryCount]
    ensures var run := Pipeline(v, url, server, platform, retried, retryCount, rounds, delays, refreshes, store);
            rounds < run.rounds <= rounds + 1 + Budget(retried, retryCount, store) &&
            refreshes <= run.refreshes <= refreshes + (if retried || store.refreshPending then 0 else 1) &&
            |run.delays| <= MaxRetries && run.delays == RetryDelays[..|run.delays|]
    decreases Depth(store), Measure(retried, retryCount), 2
  {
    var a := server(rounds);
    var sent := !(platform.Native? && !a.connectedBefore);
    if !(sent && Resolves(a.reply)) {
      var error := if sent then AxiosError(a.reply) else OfflineError;
      assert Pipeline(v, url, server, platform, retried, retryCount, rounds, delays, refreshes, store) ==
               Rejection(v, url, server, platform, error, a.connectedAfter, retried, retryCount, rounds + 1, delays,
                         refreshes, store);
      RejectionBounds(v, url, server, platform, error, a.connectedAfter, retried, retryCount, rounds + 1, delays,
                      refreshes, store);
    }
  }

  lemma {:induction false} RejectionBounds(v: Variant, url: string, server: nat -> Attempt, platform: Platform,
                                           error: ErrorValue, connectedNow: bool, retried: bool, retryCount: nat,
                                           rounds: nat, delays: seq<nat>, refreshes: nat, store: Store)
    requires retryCount <= MaxRetries && delays == RetryDelays[..retryCount]
    ensures var run := Rejection(v, url, server, platform, error, connectedNow, retried, retryCount, rounds, delays,
                                 refreshes, store);
            rounds <= run.rounds <= rounds + Budget(retried, retryCount, store) &&
            refreshes <= run.refreshes <= refreshes + (if retried || store.refreshPending then 0 else 1) &&
            |run.delays| <= MaxRetries && run.delays == RetryDelays[..|run.delays|]
    decreases Depth(store), Measure(retried, retryCount), 1
  {
    if EarlyRejection(error, url, platform, connectedNow).None? {
      if WantsRefresh(error, retried) && RefreshApplies(v, url) {
        if !store.refreshPending {
          RefreshingBounds(v, url, server, platform, error, retryCount, rounds, delays, refreshes, store);
        }
      } else {
        LaterBounds(v, url, server, platform, error, retried, retryCount, rounds, delays, refreshes, store);
      }
    }
  }

  lemma {:induction false} RefreshingBounds(v: Variant, url: string, server: nat -> Attempt, platform: Platform,
                                            error: ErrorValue, retryCount: nat, rounds: nat, delays: seq<nat>,
                                            refreshes: nat, store: Store)
    requires retryCount <= MaxRetries && delays == RetryDelays[..retryCount] && !store.refreshPending
    ensures var run := Refreshing(v, url, server, platform, error, retryCount, rounds, delays, refreshes, store);
            rounds <= run.rounds <= rounds + Budget(false, retryCount, store) &&
            |run.delays| <= MaxRetries && run.delays == RetryDelays[..|run.delays|]
    decreases Depth(store), Measure(false, retryCount), 0
  {
    var rr := Refresh(v, server, platform, rounds, store);
    RefreshBounds(v, server, platform, rounds, store);
    if rr.result.Resolved? && Truthy(rr.result.value) {
      PipelineBounds(v, url, server, platform, true, retryCount, rr.rounds, delays, refreshes + 1, rr.store);
    } else if rr.result.Resolved? {
      LaterBounds(v, url, server, platform, error, true, retryCount, rr.rounds, delays, refreshes + 1, rr.store);
    }
  }

  lemma {:induction false} LaterBounds(v: Variant, url: string, server: nat -> Attempt, platform: Platform,
                                       error: ErrorValue, retried: bool, retryCount: nat, rounds: nat,
                                       delays: seq<nat>, refreshes: nat, store: Store)
    requires retryCount <= MaxRetries && delays == RetryDelays[..retryCount]
    ensures var run := Later(v, url, server, platform, error, retried, retryCount, rounds, delays, refreshes, store);
            rounds <= run.rounds <= rounds + Budget(retried, retryCount, store) &&
            refreshes <= run.refreshes <= refreshes + (if retried || store.refreshPending then 0 else 1) &&
            |run.delays| <= MaxRetries && run.delays == RetryDelays[..|run.delays|]
    decreases Depth(store), Measure(retried, retryCount), 0
  {
    match DecisionOf(v, error, retryCount, url, platform)
    case Retry(d) =>
      assert delays + [d] == RetryDelays[..retryCount + 1];
      PipelineBounds(v, url, server, platform, retried, retryCount + 1, rounds, delays + [d], refreshes, store);
    case Give(h) =>
  }

  /** The refresh request runs the chain at most six times (one try, five
      retries) and waits the table's delays in order. */
  lemma {:induction false} RefreshBounds(v: Variant, server: nat -> Attempt, platform: Platform, rounds: nat,
                                         store: Store)
    requires !store.refreshPending
    ensures var r := Refresh(v, server, platform, rounds, store);
            rounds <= r.rounds <= rounds + 1 + MaxRetries &&
            |r.delays| <= MaxRetries && r.delays == RetryDelays[..|r.delays|]
    decreases 0, MaxRetries + 2, 0
  {
    if Truthy(store.refreshToken) {
      assert [] == RetryDelays[..0];
      PipelineBounds(v, RefreshUrl, server, platform, false, 0, rounds, [], 0, store.(refreshPending := true));
    }
  }

  /** A request runs the chain at most thirteen times (one try, five
      retries and one retry after a token refresh, plus the six runs of the
      refresh request), starts at most one refresh, and waits the table's
      delays in order, at most five of them. */
  lemma RequestBounds(v: Variant, url: string, server: nat -> Attempt, platform: Platform, store: Store)
    ensures var run := Request(v, url, server, platform, store);
            1 <= run.rounds <= 13 && run.refreshes <= 1 &&
            |run.delays| <= 5 && run.delays == RetryDelays[..|run.delays|]
  {
    PipelineBounds(v, url, server, platform, false, 0, 0, [], 0, store);
  }

  /** A 401 from a non-authentication URL ends the session at once, even
      when the body reports an expired token: no refresh, no retry. */
  lemma Unauthorized401EndsSession(v: Variant, url: string, server: nat -> Attempt, platform: Platform, store: Store,
                                   data: Json)
    requires !Contains(url, "/auth/")
    requires server(0) == Attempt(true, HttpReply(401, data), true)
    ensures Request(v, url, server, platform, store) == Run(Rejected(AuthFailure), 1, [], 0, EndSession(store))
  {
    assert Has401(AxiosError(HttpReply(401, data)));
    RejectedRun(v, url, server, platform, false, 0, 0, [], 0, store);
  }

  /** As written, a 401 ends the session on every URL: on an
      authentication URL the interceptor lets it through, and the late
      checks hand it to `handleError`, unless the body asks for a refresh
      or a rate-limit retry. */
  lemma Unauthorized401EndsSessionAsWritten(url: string, server: nat -> Attempt, platform: Platform, store: Store,
                                            data: Json)
    requires server(0) == Attempt(true, HttpReply(401, data), true)
    requires Get(Get(data, "error"), "code") != JStr("TOKEN_EXPIRED")
    requires Get(Get(data, "error"), "code") != JStr("RATE_LIMIT_EXCEEDED")
    ensures Request(AsWritten, url, server, platform, store) == Run(Rejected(AuthFailure), 1, [], 0, EndSession(store))
  {
    RejectedRun(AsWritten, url, server, platform, false, 0, 0, [], 0, store);
    var e := AxiosError(HttpReply(401, data));
    StatusErrorIsNotNetworkError(401, data);
    assert Has401(e) && !ServerFailure(e) && !WantsRefresh(e, false);
    assert LateDecisionAsWritten(e, 0, platform) == Give(Handled(AuthFailure, true));
  }

  /** Intended: the same reply to an authentication URL keeps the session
      and rejects with the server's error, status 401. */
  lemma AuthUrl401KeepsSession(url: string, server: nat -> Attempt, platform: Platform, store: Store, data: Json)
    requires Contains(url, "/auth/")
    requires server(0) == Attempt(true, HttpReply(401, data), true)
    requires Get(Get(data, "error"), "code") != JStr("TOKEN_EXPIRED")
    requires Get(Get(data, "error"), "code") != JStr("RATE_LIMIT_EXCEEDED")
    ensures Request(Intended, url, server, platform, store)
         == Run(Rejected(NormaliseError(AxiosError(HttpReply(401, data)), platform)), 1, [], 0, store)
  {
    RejectedRun(Intended, url, server, platform, false, 0, 0, [], 0, store);
    var e := AxiosError(HttpReply(401, data));
    StatusErrorIsNotNetworkError(401, data);
    assert !ServerFailure(e) && !WantsRefresh(e, false);
    assert LateDecision(e, 0, url, platform) == Give(Handled(NormaliseError(e, platform), false));
  }

  /** A token-expiry reply (status 403) to the first run, with a refresh
      token stored: the refresh request is the second run. */
  predicate ExpiredThenRefresh(server: nat -> Attempt, store: Store, data: Json) {
    !store.refreshPending && Truthy(store.refreshToken) &&
    Get(Get(data, "error"), "code") == JStr("TOKEN_EXPIRED") &&
    server(0) == Attempt(true, HttpReply(403, data), true)
  }

  /** After a refresh that gave `null`, the token-expiry reply of the
      first run falls through to the late checks: no retry for a 403, so
      the request fails with it, normalised. */
  lemma NullRefreshFallsThrough(v: Variant, url: string, server: nat -> Attempt, platform: Platform, store: Store,
                                data: Json, after: Store)
    requires RefreshApplies(v, url) && ExpiredThenRefresh(server, store, data)
    requires Refresh(v, server, platform, 1, store) == Run(Resolved(JNull), 2, [], 0, after)
    ensures Request(v, url, server, platform, store) ==
              Run(Rejected(NormaliseError(AxiosError(HttpReply(403, data)), platform)), 2, [], 1, after)
  {
    RejectedRun(v, url, server, platform, false, 0, 0, [], 0, store);
    var e := AxiosError(HttpReply(403, data));
    StatusErrorIsNotNetworkError(403, data);
    assert !Has401(e) && !ServerFailure(e) && WantsRefresh(e, false);
    assert EarlyRejection(e, url, platform, true) == None;
    assert DecisionOf(v, e, 0, url, platform) == Give(Handled(NormaliseError(e, platform), false));
    assert Rejection(v, url, server, platform, e, true, false, 0, 1, [], 0, store) ==
             Later(v, url, server, platform, e, true, 0, 2, [], 1, after);
  }

  /** A 401 to the refresh request: the refresh gives `null`; as written
      `handleError` has ended the session, as intended it has not. */
  lemma RefreshUnauthorized(v: Variant, server: nat -> Attempt, platform: Platform, store: Store, refreshData: Json)
    requires !store.refreshPending && Truthy(store.refreshToken)
    requires server(1) == Attempt(true, HttpReply(401, refreshData), true)
    requires Get(Get(refreshData, "error"), "code") != JStr("TOKEN_EXPIRED")
    requires Get(Get(refreshData, "error"), "code") != JStr("RATE_LIMIT_EXCEEDED")
    ensures Refresh(v, server, platform, 1, store) ==
              Run(Resolved(JNull), 2, [], 0, if v.AsWritten? then EndSession(store) else store)
  {
    var pending := store.(refreshPending := true);
    RefreshUrlIsExempt();
    RejectedRun(v, RefreshUrl, server, platform, false, 0, 1, [], 0, pending);
    var e1 := AxiosError(HttpReply(401, refreshData));
    StatusErrorIsNotNetworkError(401, refreshData);
    assert Has401(e1) && !ServerFailure(e1) && !WantsRefresh(e1, false);
    assert EarlyRejection(e1, RefreshUrl, platform, true) == None;
    assert DecisionOf(v, e1, 0, RefreshUrl, platform) ==
             Give(if v.AsWritten? then Handled(AuthFailure, true) else Handled(NormaliseError(e1, platform), false));
  }

  /** As written, a 401 to the refresh request ends the session (the
      refresh is an authentication URL, so only `handleError` sees it); the
      refresh gives `null` and the original request then fails with its
      own 403. The session has ended, yet the caller sees no
      authentication failure. */
  lemma RefreshUnauthorizedEndsSession(url: string, server: nat -> Attempt, platform: Platform, store: Store,
                                       data: Json, refreshData: Json)
    requires ExpiredThenRefresh(server, store, data)
    requires server(1) == Attempt(true, HttpReply(401, refreshData), true)
    requires Get(Get(refreshData, "error"), "code") != JStr("TOKEN_EXPIRED")
    requires Get(Get(refreshData, "error"), "code") != JStr("RATE_LIMIT_EXCEEDED")
    ensures Request(AsWritten, url, server, platform, store) ==
              Run(Rejected(NormaliseError(AxiosError(HttpReply(403, data)), platform)), 2, [], 1, EndSession(store))
    ensures NormaliseError(AxiosError(HttpReply(403, data)), platform) != AuthFailure
  {
    RefreshUnauthorized(AsWritten, server, platform, store, refreshData);
    NullRefreshFallsThrough(AsWritten, url, server, platform, store, data, EndSession(store));
    StatusErrorIsNotNetworkError(403, data);
    assert NormaliseError(AxiosError(HttpReply(403, data)), platform).status == JNum(403.0);
  }

  /** Intended: with the refresh exempt from `handleError`'s session end,
      the same replies keep the session; the original request fails with
      its own 403. */
  lemma RefreshUnauthorizedKeepsSession(url: string, server: nat -> Attempt, platform: Platform, store: Store,
                                        data: Json, refreshData: Json)
    requires !Contains(url, "/auth/")
    requires ExpiredThenRefresh(server, store, data)
    requires server(1) == Attempt(true, HttpReply(401, refreshData), true)
    requires Get(Get(refreshData, "error"), "code") != JStr("TOKEN_EXPIRED")
    requires Get(Get(refreshData, "error"), "code") != JStr("RATE_LIMIT_EXCEEDED")
    ensures Request(Intended, url, server, platform, store) ==
              Run(Rejected(NormaliseError(AxiosError(HttpReply(403, data)), platform)), 2, [], 1, store)
  {
    RefreshUnauthorized(Intended, server, platform, store, refreshData);
    NullRefreshFallsThrough(Intended, url, server, platform, store, data, store);
  }

  /** As written, a token-expiry reply to the refresh request makes the
      refresh wait on its own pending promise: the original request never
      settles and the refresh slot stays taken. */
  lemma RefreshWaitsOnItself(url: string, server: nat -> Attempt, platform: Platform, store: Store, data: Json)
    requires ExpiredThenRefresh(server, store, data)
    requires server(1) == Attempt(true, HttpReply(403, data), true)
    ensures Request(AsWritten, url, server, platform, store) ==
              Run(NeverSettles, 2, [], 1, store.(refreshPending := true))
  {
    var pending := store.(refreshPending := true);
    RejectedRun(AsWritten, url, server, platform, false, 0, 0, [], 0, store);
    RejectedRun(AsWritten, RefreshUrl, server, platform, false, 0, 1, [], 0, pending);
    var e := AxiosError(HttpReply(403, data));
    StatusErrorIsNotNetworkError(403, data);
    assert !Has401(e) && WantsRefresh(e, false);
    assert Pipeline(AsWritten, RefreshUrl, server, platform, false, 0, 1, [], 0, pending) ==
             Run(NeverSettles, 2, [], 0, pending);
    assert Refresh(AsWritten, server, platform, 1, store) == Run(NeverSettles, 2, [], 0, pending);
    assert EarlyRejection(e, url, platform, true) == None;
  }

  /** Intended: the refresh request does not start a refresh of its own,
      so the same replies settle; the refresh gives `null` and the
      original request fails with its 403, the session kept. */
  lemma RefreshExemptSettles(url: string, server: nat -> Attempt, platform: Platform, store: Store, data: Json)
    requires !Contains(url, "/auth/")
    requires ExpiredThenRefresh(server, store, data)
    requires server(1) == Attempt(true, HttpReply(403, data), true)
    ensures Request(Intended, url, server, platform, store) ==
              Run(Rejected(NormaliseError(AxiosError(HttpReply(403, data)), platform)), 2, [], 1, store)
  {
    var pending := store.(refreshPending := true);
    RefreshUrlIsExempt();
    RejectedRun(Intended, RefreshUrl, server, platform, false, 0, 1, [], 0, pending);
    var e := AxiosError(HttpReply(403, data));
    StatusErrorIsNotNetworkError(403, data);
    assert !Has401(e) && !ServerFailure(e) && WantsRefresh(e, false);
    assert LateDecision(e, 0, RefreshUrl, platform) == Give(Handled(NormaliseError(e, platform), false));
    assert Refresh(Intended, server, platform, 1, store) == Run(Resolved(JNull), 2, [], 0, store);
    NullRefreshFallsThrough(Intended, url, server, platform, store, data, store);
  }

  /** While the refresh slot is taken, a request that needs a refresh
      waits on the pending one. After `RefreshWaitsOnItself` the slot is
      never emptied, so every later request that needs a refresh hangs. */
  lemma PendingRefreshHangs(v: Variant, url: string, server: nat -> Attempt, platform: Platform, store: Store,
                            data: Json)
    requires RefreshApplies(v, url) && store.refreshPending
    requires Get(Get(data, "error"), "code") == JStr("TOKEN_EXPIRED")
    requires server(0) == Attempt(true, HttpReply(403, data), true)
    ensures Request(v, url, server, platform, store) == Run(NeverSettles, 1, [], 0, store)
  {
    RejectedRun(v, url, server, platform, false, 0, 0, [], 0, store);
    var e := AxiosError(HttpReply(403, data));
    StatusErrorIsNotNetworkError(403, data);
    assert !Has401(e) && WantsRefresh(e, false);
  }

  /** One run against an unavailable server ends in the after-refresh
      checks. */
  lemma UnavailableRound(v: Variant, url: string, server: nat -> Attempt, platform: Platform, retryCount: nat,
                         delays: seq<nat>, store: Store, data: Json)
    requires retryCount <= MaxRetries
    requires server(retryCount) == Attempt(true, HttpReply(503, data), true)
    requires Get(Get(data, "error"), "code") != JStr("TOKEN_EXPIRED")
    ensures Pipeline(v, url, server, platform, false, retryCount, retryCount, delays, 0, store)
         == Later(v, url, server, platform, AxiosError(HttpReply(503, data)), false, retryCount, retryCount + 1,
                  delays, 0, store)
  {
    var e := AxiosError(HttpReply(503, data));
    StatusErrorIsNotNetworkError(503, data);
    assert ServerFailure(e) && !Has401(e) && !WantsRefresh(e, false);
    assert !Resolves(server(retryCount).reply);
    assert EarlyRejection(e, url, platform, true) == None;
  }

  /** After a 503, the checks retry until the table of delays is used
      up, then give the normalised 503 (both readings agree here). */
  lemma UnavailableLater(v: Variant, url: string, server: nat -> Attempt, platform: Platform, retryCount: nat,
                         store: Store, data: Json)
    requires retryCount <= MaxRetries
    ensures var e := AxiosError(HttpReply(503, data));
            var later := Later(v, url, server, platform, e, false, retryCount, retryCount + 1,
                               RetryDelays[..retryCount], 0, store);
            if retryCount < MaxRetries then
              later == Pipeline(v, url, server, platform, false, retryCount + 1, retryCount + 1,
                                RetryDelays[..retryCount + 1], 0, store)
            else
              later == Run(Rejected(NormaliseError(e, platform)), 6, RetryDelays, 0, store)
  {
    var e := AxiosError(HttpReply(503, data));
    assert ServerFailure(e) && !Has401(e);
    if retryCount < MaxRetries {
      assert DecisionOf(v, e, retryCount, url, platform) == Retry(RetryDelays[retryCount]);
      assert RetryDelays[..retryCount] + [RetryDelays[retryCount]] == RetryDelays[..retryCount + 1];
    } else {
      StatusErrorIsNotNetworkError(503, data);
      assert DecisionOf(v, e, retryCount, url, platform) == Give(Handled(NormaliseError(e, platform), false));
      assert RetryDelays[..retryCount] == RetryDelays;
    }
  }

  /** A server that keeps answering 503 (with no token-expiry code) is
      retried exactly five times, waiting each delay of the table in turn,
      and the request then fails with the normalised 503. */
  lemma {:induction false} UnavailableFrom(v: Variant, url: string, server: nat -> Attempt, platform: Platform,
                                           retryCount: nat, store: Store, data: Json)
    requires retryCount <= MaxRetries
    requires forall k :: server(k) == Attempt(true, HttpReply(503, data), true)
    requires Get(Get(data, "error"), "code") != JStr("TOKEN_EXPIRED")
    ensures Pipeline(v, url, server, platform, false, retryCount, retryCount, RetryDelays[..retryCount], 0, store)
         == Run(Rejected(NormaliseError(AxiosError(HttpReply(503, data)), platform)), 6, RetryDelays, 0, store)
    decreases MaxRetries - retryCount
  {
    UnavailableRound(v, url, server, platform, retryCount, RetryDelays[..retryCount], store, data);
    UnavailableLater(v, url, server, platform, retryCount, store, data);
    if retryCount < MaxRetries {
      UnavailableFrom(v, url, server, platform, retryCount + 1, store, data);
    }
  }

  lemma AlwaysUnavailable(v: Variant, url: string, server: nat -> Attempt, platform: Platform, store: Store,
                          data: Json)
    requires forall k :: server(k) == Attempt(true, HttpReply(503, data), true)
    requires Get(Get(data, "error"), "code") != JStr("TOKEN_EXPIRED")
    ensures Request(v, url, server, platform, store)
         == Run(Rejected(NormaliseError(AxiosError(HttpReply(503, data)), platform)), 6, RetryDelays, 0, store)
  {
    UnavailableFrom(v, url, server, platform, 0, store, data);
  }

  /** The refresh request has retries of its own: against a server that
      keeps answering 503 it runs six times, waits the whole table, and
      the refresh then gives `null` with the storage unchanged. */
  lemma RefreshRetriesUnavailable(v: Variant, server: nat -> Attempt, platform: Platform, store: Store, data: Json)
    requires !store.refreshPending && Truthy(store.refreshToken)
    requires forall k :: server(k) == Attempt(true, HttpReply(503, data), true)
    requires Get(Get(data, "error"), "code") != JStr("TOKEN_EXPIRED")
    ensures Refresh(v, server, platform, 0, store) == Run(Resolved(JNull), 6, RetryDelays, 0, store)
  {
    UnavailableFrom(v, RefreshUrl, server, platform, 0, store.(refreshPending := true), data);
  }

  // ---------------------------------------------------------------------
  // The wrappers' catch

  /** A rejection the interceptor already turned into `{ code: '401' }`. */
  predicate IsHandled401(e: ErrorValue) {
    e.code == JStr("401") && Truthy(e.message)
  }

  /** `{ success: false, error: { code: '401', message } }`. */
  function Envelope401(e: ErrorValue): Json {
    JObj(map["success" := JBool(false), "error" := JObj(map["code" := JStr("401"), "message" := e.message])])
  }

  /** `NeverReturns`: the awaited request never settles. */
  datatype Outcome = Returned(value: Json) | Thrown(error: ErrorValue) | NeverReturns

  /** The catch of `get`/`post`/`put`/`delete` as written: any other
      rejection goes through `handleError` a second time. */
  function CatchAsWritten(e: ErrorValue, platform: Platform): (r: Outcome)
    ensures IsHandled401(e) ==> r == Returned(Envelope401(e))
    ensures !IsHandled401(e) ==> r == Thrown(HandleErrorAsWritten(e, platform).error)
  {
    if IsHandled401(e) then Returned(Envelope401(e)) else Thrown(HandleErrorAsWritten(e, platform).error)
  }

  const UnreachableMessage: string := "Unable to reach the server. Please check that your API server is running and accessible."

  /** The second pass loses what the interceptor determined: an
      unreachable server arrives as an unknown error. */
  lemma SecondPassLosesCode(platform: Platform)
    ensures CatchAsWritten(ErrorObject(UnreachableMessage, "SERVER_UNREACHABLE"), platform) ==
              Thrown(ErrorObject(UnreachableMessage, "UNKNOWN_ERROR"))
  {
    assert |UnreachableMessage| != |"Network Error"|;
  }

  /** Intended: the catch rethrows what the interceptor determined. */
  function Catch(e: ErrorValue): (r: Outcome)
    ensures IsHandled401(e) ==> r == Returned(Envelope401(e))
    ensures !IsHandled401(e) ==> r == Thrown(e)
  {
    if IsHandled401(e) then Returned(Envelope401(e)) else Thrown(e)
  }

  /** A wrapper call (`get`, `post`, `put`, `delete`): a resolved body is
      returned and a handled 401 becomes the unsuccessful envelope. Any
      other rejection is thrown: as written after a second `handleError`,
      which leaves no status on it; as intended as the interceptor
      normalised it. A request that never settles never returns. */
  function Call(v: Variant, url: string, server: nat -> Attempt, platform: Platform, store: Store): (r: (Outcome, Store))
    ensures var run := Request(v, url, server, platform, store);
            r.1 == run.store &&
            (run.result.Resolved? ==> r.0 == Returned(run.result.value)) &&
            (run.result == Rejected(AuthFailure) ==> r.0 == Returned(Envelope401(AuthFailure))) &&
            (r.0.NeverReturns? <==> run.result.NeverSettles?) &&
            (v.Intended? && r.0.Thrown? ==> run.result == Rejected(r.0.error))
    ensures v.AsWritten? && r.0.Thrown? ==> r.0.error.status == JUndefined && r.0.error.response.None?
    ensures v.Intended? ==> r.1.ends == store.ends || r.0 == Returned(Envelope401(AuthFailure))
  {
    var run := Request(v, url, server, platform, store);
    match run.result
    case Resolved(value) => (Returned(value), run.store)
    case Rejected(e) => (if v.AsWritten? then CatchAsWritten(e, platform) else Catch(e), run.store)
    case NeverSettles => (NeverReturns, run.store)
  }

  /** On a non-authentication URL, a 401 reaches the caller as the
      unsuccessful envelope with the authentication message. */
  lemma Unauthorized401Envelope(v: Variant, url: string, server: nat -> Attempt, platform: Platform, store: Store,
                                data: Json)
    requires !Contains(url, "/auth/")
    requires server(0) == Attempt(true, HttpReply(401, data), true)
    ensures Call(v, url, server, platform, store).0 ==
      Returned(JObj(map["success" := JBool(false),
                        "error" := JObj(map["code" := JStr("401"), "message" := JStr(AuthFailedMessage)])]))
  {
    Unauthorized401EndsSession(v, url, server, platform, store, data);
  }

  /** Intended: the server's unavailability reaches the caller with its
      status. */
  lemma UnavailableReachesCaller(url: string, server: nat -> Attempt, platform: Platform, store: Store, data: Json)
    requires forall k :: server(k) == Attempt(true, HttpReply(503, data), true)
    requires Get(Get(data, "error"), "code") != JStr("TOKEN_EXPIRED")
    requires Get(Get(data, "error"), "code") != JStr("401") && Get(data, "code") != JStr("401")
    ensures Call(Intended, url, server, platform, store).0.Thrown?
    ensures Call(Intended, url, server, platform, store).0.error.status == JNum(503.0)
  {
    AlwaysUnavailable(Intended, url, server, platform, store, data);
    StatusErrorIsNotNetworkError(503, data);
  }

  /** As written, the same request reaches the caller through `get` as an
      unknown error without status: the second `handleError` sees a plain
      object with neither response nor request. Only the message is kept. */
  lemma UnavailableUnknownAsWritten(url: string, server: nat -> Attempt, platform: Platform, store: Store, data: Json)
    requires forall k :: server(k) == Attempt(true, HttpReply(503, data), true)
    requires Get(Get(data, "error"), "code") != JStr("TOKEN_EXPIRED")
    requires Get(Get(data, "error"), "code") != JStr("401") && Get(data, "code") != JStr("401")
    requires Get(Get(data, "error"), "code") != JStr("ECONNABORTED") && Get(data, "code") != JStr("ECONNABORTED")
    requires Get(Get(data, "error"), "message") != JStr("Network Error") && Get(data, "message") != JStr("Network Error")
    ensures var n := NormaliseError(AxiosError(HttpReply(503, data)), platform);
            Call(AsWritten, url, server, platform, store) ==
              (Thrown(ErrorValue(n.message, JStr("UNKNOWN_ERROR"), JUndefined, None, false)), store)
  {
    var e := AxiosError(HttpReply(503, data));
    StatusErrorIsNotNetworkError(503, data);
    var n := NormaliseError(e, platform);
    assert n == ResponseFailure(ServerResponse(503, data));
    assert |"An error occurred"| != |"Network Error"|;
    assert !IsNetworkError(n) && n.code != JStr("ECONNABORTED") && !IsHandled401(n);
    SecondPassUnknown(n, platform);
    AlwaysUnavailable(AsWritten, url, server, platform, store, data);
  }

  /** The second pass over an error that is neither a 401, a network
      error nor a timeout, and has neither response nor request. */
  lemma SecondPassUnknown(n: ErrorValue, platform: Platform)
    requires n.response.None? && !n.request && Truthy(n.message)
    requires !IsHandled401(n) && !IsNetworkError(n) && n.code != JStr("ECONNABORTED")
    ensures CatchAsWritten(n, platform) == Thrown(ErrorValue(n.message, JStr("UNKNOWN_ERROR"), JUndefined, None, false))
  {
  }

  /** `authPost` as written runs `handleError` again on the rejection, so
      a failed login arrives as an unknown error. */
  function AuthPostCatchAsWritten(e: ErrorValue, platform: Platform): (r: Outcome)
    ensures r == Thrown(HandleErrorAsWritten(e, platform).error)
  {
    Thrown(HandleErrorAsWritten(e, platform).error)
  }

  lemma FailedLoginUnknownAsWritten(platform: Platform)
    ensures AuthPostCatchAsWritten(AuthFailure, platform) == Thrown(ErrorObject(AuthFailedMessage, "UNKNOWN_ERROR"))
  {
    assert AuthFailedMessage[0] == 'A';
  }

  /** `authPost`: no envelope, every rejection is thrown; as written after
      a second `handleError`, as intended unchanged. A session end reaches
      the caller as the unknown error as written, as the authentication
      failure as intended. */
  function AuthPost(v: Variant, url: string, server: nat -> Attempt, platform: Platform, store: Store)
    : (r: (Outcome, Store))
    ensures var run := Request(v, AuthPostUrl(url), server, platform, store);
            r.1 == run.store &&
            (r.0.Thrown? <==> run.result.Rejected?) &&
            (r.0.NeverReturns? <==> run.result.NeverSettles?) &&
            (run.result.Resolved? ==> r.0 == Returned(run.result.value)) &&
            (v.Intended? && r.0.Thrown? ==> run.result == Rejected(r.0.error)) &&
            (v.AsWritten? && run.result == Rejected(AuthFailure) ==>
               r.0 == Thrown(ErrorObject(AuthFailedMessage, "UNKNOWN_ERROR")))
    ensures v.AsWritten? && r.0.Thrown? ==> r.0.error.status == JUndefined
    ensures v.Intended? ==> r.1.ends == store.ends || r.0 == Thrown(AuthFailure)
  {
    FailedLoginUnknownAsWritten(platform);
    var run := Request(v, AuthPostUrl(url), server, platform, store);
    match run.result
    case Resolved(value) => (Returned(value), run.store)
    case Rejected(e) => (if v.AsWritten? then AuthPostCatchAsWritten(e, platform) else Thrown(e), run.store)
    case NeverSettles => (NeverReturns, run.store)
  }

  /** As written, a failed login through `authPost` ends the session and
      reaches the caller as an unknown error. */
  lemma FailedLoginAsWritten(url: string, server: nat -> Attempt, platform: Platform, store: Store, data: Json)
    requires server(0) == Attempt(true, HttpReply(401, data), true)
    requires Get(Get(data, "error"), "code") != JStr("TOKEN_EXPIRED")
    requires Get(Get(data, "error"), "code") != JStr("RATE_LIMIT_EXCEEDED")
    ensures AuthPost(AsWritten, url, server, platform, store) ==
              (Thrown(ErrorObject(AuthFailedMessage, "UNKNOWN_ERROR")), EndSession(store))
  {
    Unauthorized401EndsSessionAsWritten(AuthPostUrl(url), server, platform, store, data);
    FailedLoginUnknownAsWritten(platform);
  }

  /** Intended: the failed login keeps the session and reaches the caller
      with the server's error and status 401. */
  lemma FailedLoginIntended(url: string, server: nat -> Attempt, platform: Platform, store: Store, data: Json)
    requires |url| >= 1 && url[0] == '/'
    requires server(0) == Attempt(true, HttpReply(401, data), true)
    requires Get(Get(data, "error"), "code") != JStr("TOKEN_EXPIRED")
    requires Get(Get(data, "error"), "code") != JStr("RATE_LIMIT_EXCEEDED")
    ensures AuthPost(Intended, url, server, platform, store) ==
              (Thrown(NormaliseError(AxiosError(HttpReply(401, data)), platform)), store)
  {
    AuthPostRoutesToAuthApi(url, Config("", ""));
    AuthUrl401KeepsSession(AuthPostUrl(url), server, platform, store, data);
  }

  /** Intended: `authPost` neither ends the session nor waits on a
      refresh for a path starting with '/'. */
  lemma AuthPostKeepsSession(url: string, server: nat -> Attempt, platform: Platform, store: Store)
    requires |url| >= 1 && url[0] == '/'
    ensures AuthPost(Intended, url, server, platform, store).1.ends == store.ends
    ensures !AuthPost(Intended, url, server, platform, store).0.NeverReturns?
  {
    AuthPostRoutesToAuthApi(url, Config("", ""));
  }

  // ---------------------------------------------------------------------
  // The client object

  class Client {
    /** The reading of the chain the client runs. */
    const variant: Variant
    const platform: Platform
    const config: Config
    var authToken: Json
    var refreshToken: Json
    var sessionEnds: nat
    /** `refreshPromise`: the handle of the pending refresh, if any. */
    var refreshSlot: Option<nat>
    var handlesIssued: nat

    function Snapshot(): Store
      reads this
    {
      Store(authToken, refreshToken, sessionEnds, refreshSlot.Some?)
    }

    constructor(variant: Variant, platform: Platform, config: Config, authToken: Json, refreshToken: Json)
      ensures this.variant == variant && this.platform == platform && this.config == config
      ensures Snapshot() == Store(authToken, refreshToken, 0, false)
      ensures handlesIssued == 0
    {
      this.variant := variant;
      this.platform := platform;
      this.config := config;
      this.authToken := authToken;
      this.refreshToken := refreshToken;
      sessionEnds := 0;
      refreshSlot := None;
      handlesIssued := 0;
    }

    /** `refreshToken()` up to its first `await`: a pending refresh is
        shared; otherwise a new one takes the slot. */
    method BeginRefresh() returns (handle: nat)
      modifies this
      ensures old(refreshSlot).Some? ==> handle == old(refreshSlot).value && handlesIssued == old(handlesIssued)
      ensures old(refreshSlot).None? ==> handle == old(handlesIssued) && handlesIssued == old(handlesIssued) + 1
      ensures refreshSlot == Some(handle)
      ensures Snapshot() == old(Snapshot()).(refreshPending := true)
    {
      if refreshSlot.None? {
        refreshSlot := Some(handlesIssued);
        handlesIssued := handlesIssued + 1;
      }
      handle := refreshSlot.value;
    }

    /** The end of the refresh and its `finally`: with the body of a
        resolved refresh request the tokens are stored; without one
        (`None`: no refresh token, or the request was rejected) nothing is.
        The slot is emptied and the result is a token or `null`. */
    method SettleRefresh(body: Option<Json>) returns (token: Json)
      requires refreshSlot.Some?
      modifies this
      ensures token == (if body.Some? then RefreshedToken(body.value) else JNull)
      ensures Snapshot() == (if body.Some? then AfterRefresh(old(Snapshot()), body.value) else old(Snapshot()))
                              .(refreshPending := false)
      ensures refreshSlot.None? && handlesIssued == old(handlesIssued)
    {
      token := JNull;
      if body.Some? && Truthy(Get(body.value, "success")) && Truthy(Get(body.value, "data")) {
        var t := Get(Get(body.value, "data"), "token");
        if Truthy(t) {
          authToken := t;
          var newRefresh := Get(Get(body.value, "data"), "refreshToken");
          if Truthy(newRefresh) {
            refreshToken := newRefresh;
          }
          token := t;
        }
      }
      refreshSlot := None;
    }

    method EndCurrentSession()
      modifies this
      ensures Snapshot() == EndSession(old(Snapshot()))
      ensures refreshSlot == old(refreshSlot) && handlesIssued == old(handlesIssued)
    {
      sessionEnds := sessionEnds + 1;
      authToken := JNull;
      refreshToken := JNull;
    }

    /** `refreshToken()` when the slot is empty: the refresh request runs
        through the chain from the `first`-th run of the transport on. */
    method RunRefresh(server: nat -> Attempt, first: nat) returns (result: CallResult, rounds: nat, delays: seq<nat>)
      requires refreshSlot.None?
      modifies this
      ensures Run(result, rounds, delays, 0, Snapshot()) == Refresh(variant, server, platform, first, old(Snapshot()))
      decreases 1, 1
    {
      var _ := BeginRefresh();
      if !Truthy(refreshToken) {
        var _ := SettleRefresh(None);
        result, rounds, delays := Resolved(JNull), first, [];
        return;
      }
      RefreshUrlIsExempt();
      var reply: CallResult, refreshes;
      reply, rounds, delays, refreshes := Send(RefreshUrl, server, first);
      match reply
      case NeverSettles =>
        result := NeverSettles;
      case Resolved(data) =>
        var token := SettleRefresh(Some(data));
        result := Resolved(token);
      case Rejected(_) =>
        var _ := SettleRefresh(None);
        result := Resolved(JNull);
    }

    /** The after-refresh checks of the rejected side, on the retry state
        of the request. */
    method Decide(url: string, error: ErrorValue, retried: bool, retryCount: nat, rounds: nat, delays: seq<nat>,
                  refreshes: nat, server: nat -> Attempt)
      returns (done: bool, result: CallResult, retryCount': nat, delays': seq<nat>)
      requires retryCount <= MaxRetries
      modifies this
      ensures retryCount' <= MaxRetries
      ensures !done ==> (retryCount' == retryCount + 1 &&
        Pipeline(variant, url, server, platform, retried, retryCount', rounds, delays', refreshes, Snapshot()) ==
        Later(variant, url, server, platform, error, retried, retryCount, rounds, delays, refreshes, old(Snapshot())))
      ensures done ==> (Run(result, rounds, delays', refreshes, Snapshot()) ==
        Later(variant, url, server, platform, error, retried, retryCount, rounds, delays, refreshes, old(Snapshot())))
      ensures refreshSlot == old(refreshSlot)
    {
      var decision := DecisionOf(variant, error, retryCount, url, platform);
      retryCount' := retryCount;
      delays' := delays;
      result := Resolved(JUndefined);
      if decision.Retry? {
        retryCount' := retryCount + 1;
        delays' := delays + [decision.delay];
        done := false;
      } else {
        if decision.handled.endsSession {
          EndCurrentSession();
        }
        result := Rejected(decision.handled.error);
        done := true;
      }
    }

    /** The rejected side of the response interceptor for one run. */
    method Reject(url: string, error: ErrorValue, connectedNow: bool, retried: bool, retryCount: nat, rounds: nat,
                  delays: seq<nat>, refreshes: nat, server: nat -> Attempt)
      returns (done: bool, result: CallResult, retried': bool, retryCount': nat, rounds': nat, delays': seq<nat>,
               refreshes': nat)
      requires retryCount <= MaxRetries
      modifies this
      ensures retryCount' <= MaxRetries
      ensures !done ==> (Measure(retried', retryCount') < Measure(retried, retryCount) &&
        refreshSlot.Some? == old(refreshSlot).Some? &&
        Pipeline(variant, url, server, platform, retried', retryCount', rounds', delays', refreshes', Snapshot()) ==
        Rejection(variant, url, server, platform, error, connectedNow, retried, retryCount, rounds, delays,
                  refreshes, old(Snapshot())))
      ensures done ==> (Run(result, rounds', delays', refreshes', Snapshot()) ==
        Rejection(variant, url, server, platform, error, connectedNow, retried, retryCount, rounds, delays,
                  refreshes, old(Snapshot())))
      decreases Depth(Snapshot()), 2
    {
      retried', retryCount', rounds', delays', refreshes' := retried, retryCount, rounds, delays, refreshes;
      var early := EarlyRejection(error, url, platform, connectedNow);
      if early.Some? {
        if early.value.endsSession {
          EndCurrentSession();
        }
        result := Rejected(early.value.error);
        done := true;
        return;
      }
      if WantsRefresh(error, retried) && RefreshApplies(variant, url) {
        if refreshSlot.Some? {
          // The pending refresh is shared, and it is this request's own wait.
          var _ := BeginRefresh();
          result := NeverSettles;
          done := true;
          return;
        }
        var token: CallResult, refreshDelays;
        token, rounds', refreshDelays := RunRefresh(server, rounds);
        retried' := true;
        refreshes' := refreshes + 1;
        if token.NeverSettles? {
          result := NeverSettles;
          done := true;
          return;
        }
        if Truthy(token.value) {
          result := Resolved(JUndefined);
          done := false;
          return;
        }
      }
      done, result, retryCount', delays' :=
        Decide(url, error, retried', retryCount, rounds', delays, refreshes', server);
    }

    /** A request through the interceptor chain from the `first`-th run of
        the transport on, with the retry state `_retry`/`retryCount` of the
        request updated in place between runs. */
    method Send(url: string, server: nat -> Attempt, first: nat)
      returns (result: CallResult, rounds: nat, delays: seq<nat>, refreshes: nat)
      modifies this
      ensures Run(result, rounds, delays, refreshes, Snapshot()) ==
                Pipeline(variant, url, server, platform, false, 0, first, [], 0, old(Snapshot()))
      decreases Depth(Snapshot()), 3
    {
      ghost var target := Pipeline(variant, url, server, platform, false, 0, first, [], 0, Snapshot());
      var retried := false;
      var retryCount: nat := 0;
      refreshes := 0;
      rounds := first;
      delays := [];
      var done := false;
      result := Resolved(JUndefined);
      while !done
        invariant retryCount <= MaxRetries
        invariant !done ==>
          Pipeline(variant, url, server, platform, retried, retryCount, rounds, delays, refreshes, Snapshot()) == target
        invariant done ==> Run(result, rounds, delays, refreshes, Snapshot()) == target
        invariant !done ==> refreshSlot.Some? == old(refreshSlot).Some?
        decreases if done then 0 else 1 + Measure(retried, retryCount)
      {
        var a := server(rounds);
        var sent := !(platform.Native? && !a.connectedBefore);
        rounds := rounds + 1;
        if sent && Resolves(a.reply) {
          var check := FulfilledCheck(a.reply.data, url);
          if check == Pass {
            result := Resolved(a.reply.data);
          } else if check == EndSessionWith401 {
            EndCurrentSession();
            result := Rejected(AuthFailure);
          } else {
            result := Rejected(TypeErrorValue);
          }
          done := true;
        } else {
          var error := if sent then AxiosError(a.reply) else OfflineError;
          done, result, retried, retryCount, rounds, delays, refreshes :=
            Reject(url, error, a.connectedAfter, retried, retryCount, rounds, delays, refreshes, server);
        }
      }
    }
  }
}
