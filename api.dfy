/** The request executor of `src/services/api.js` and its endpoint tables. `fetch` is not
    performed: a call yields the request it would send, and what the network answered is a
    `Reply` supplied by the caller. */
module Api {
  import opened Common
  import opened Json

  /** The value of `REACT_APP_API_URL`, or `None` when it is not set, picks the base URL. */
  const DefaultBaseUrl := "http://localhost:5000/api/v1"

  function BaseUrl(env: Option<string>): (r: string)
    ensures env.Some? && env.value != "" ==> r == env.value
    ensures env.None? || env.value == "" ==> r == DefaultBaseUrl
  {
    if env.Some? && env.value != "" then env.value else DefaultBaseUrl
  }

  /** A headers object: names in insertion order, each at most once. */
  type Headers = seq<(string, string)>

  /** `h[name] = value`: an existing entry keeps its place, a new one is appended. */
  function WithHeader(h: Headers, name: string, value: string): (r: Headers)
    ensures Get(r, name) == Some(value)
    ensures forall other :: other != name ==> Get(r, other) == Get(h, other)
    ensures |r| == if Get(h, name).Some? then |h| else |h| + 1
  {
    if h == [] then [(name, value)]
    else if h[0].0 == name then [(name, value)] + h[1..]
    else [h[0]] + WithHeader(h[1..], name, value)
  }

  /** A JavaScript object never holds two entries of one name. */
  predicate UniqueNames(h: Headers) {
    forall i, j :: 0 <= i < j < |h| ==> h[i].0 != h[j].0
  }

  /** `{...h, ...extra}`: the entries of `extra` written over `h` one by one. */
  function Spread(h: Headers, extra: Headers): (r: Headers)
    ensures UniqueNames(extra) ==>
              forall name :: Get(extra, name).Some? ==> Get(r, name) == Get(extra, name)
    ensures forall name :: Get(extra, name).None? ==> Get(r, name) == Get(h, name)
    decreases |extra|
  {
    if extra == [] then h
    else
      UniqueRest(extra);
      Spread(WithHeader(h, extra[0].0, extra[0].1), extra[1..])
  }

  /** Below the first entry of an object without repeated names, that name is absent. */
  lemma UniqueRest(h: Headers)
    requires h != []
    ensures UniqueNames(h) ==> Get(h[1..], h[0].0).None? && UniqueNames(h[1..])
  {
    GetFinds(h[1..], h[0].0);
    if UniqueNames(h) {
      assert forall i :: 0 <= i < |h[1..]| ==> h[1..][i] == h[i + 1];
    }
  }

  /** The `options` argument of `apiCall`: a `None` member is one the caller left out.
      A body is the JSON value the caller serialised with `JSON.stringify`. */
  datatype Options = Options(httpMethod: Option<string>, body: Option<Json>, headers: Option<Headers>)

  /** What `fetch(url, config)` is handed; a missing method means `GET`. */
  datatype Request = Request(url: string, httpMethod: Option<string>, headers: Headers, body: Option<Json>)

  /** What came back: a failure of the transport or of `response.json()`, or a parsed body. */
  datatype Reply = NetworkFailure(reason: string) | Response(ok: bool, body: Json)

  const JsonContentType: Headers := [("Content-Type", "application/json")]

  /** The request `apiCall(endpoint, options)` sends when `localStorage` holds `token`
      under `accessToken`. */
  function RequestFor(env: Option<string>, endpoint: string, options: Options, token: Option<string>): (r: Request)
    ensures r.url == BaseUrl(env) + endpoint
    ensures r.httpMethod == options.httpMethod && r.body == options.body
    ensures token.Some? && token.value != "" ==> Get(r.headers, "Authorization") == Some("Bearer " + token.value)
    ensures options.headers.None? && (token.None? || token.value == "") ==> r.headers == JsonContentType
    ensures options.headers.None? && token.Some? && token.value != "" ==>
              r.headers == JsonContentType + [("Authorization", "Bearer " + token.value)]
    ensures options.headers.None? ==> Get(r.headers, "Content-Type") == Some("application/json")
    ensures options.headers.None? ==> (Get(r.headers, "Authorization").Some? <==> token.Some? && token.value != "")
  {
    var configHeaders := if options.headers.Some? then options.headers.value else JsonContentType;
    var headers := if token.Some? && token.value != "" then WithHeader(configHeaders, "Authorization", "Bearer " + token.value)
                   else configHeaders;
    assert options.headers.None? && token.Some? && token.value != "" ==>
             headers == [JsonContentType[0]] + WithHeader(JsonContentType[1..], "Authorization", "Bearer " + token.value);
    Request(BaseUrl(env) + endpoint, options.httpMethod, headers, options.body)
  }

  /** The first half of `apiCall`: the `config` object is built and its headers are then
      updated in place with the bearer token. */
  method BuildRequest(env: Option<string>, endpoint: string, options: Options, token: Option<string>) returns (req: Request)
    ensures req == RequestFor(env, endpoint, options, token)
  {
    var url := BaseUrl(env) + endpoint;
    // config = { headers: { 'Content-Type': ..., ...options.headers }, ...options }:
    // the trailing spread puts the caller's own headers object back in place.
    var merged := Spread(JsonContentType, if options.headers.Some? then options.headers.value else []);
    var headers := merged;
    if options.headers.Some? {
      headers := options.headers.value;
    }
    if token.Some? && token.value != "" {
      headers := WithHeader(headers, "Authorization", "Bearer " + token.value);
    }
    req := Request(url, options.httpMethod, headers, options.body);
  }

  const GenericFailure := "Something went wrong"

  /** The message `apiCall` throws for a response that is not ok:
      `data.message || data.errors?.[0]?.message || 'Something went wrong'`. Reading
      `message` of a `null` body throws a `TypeError` itself. */
  function FailureMessage(body: Json): (r: string)
  {
    match Prop(Some(body), "message")
    case Err(typeError) => typeError
    case Ok(message) =>
      ToText(Or(message, Or(OptionalProp(OptionalFirst(OptionalProp(Some(body), "errors")), "message"),
                            Some(JStr(GenericFailure)))))
  }

  /** The second half of `apiCall`: an ok response yields its parsed body unchanged, and
      every failure reaches the caller as an error. */
  function Settle(reply: Reply): (r: Result<Json>)
    ensures reply.NetworkFailure? ==> r == Err(reply.reason)
    ensures reply.Response? && reply.ok ==> r == Ok(reply.body)
    ensures reply.Response? && !reply.ok ==> r == Err(FailureMessage(reply.body))
  {
    match reply
    case NetworkFailure(reason) => Err(reason)
    case Response(ok, body) => if ok then Ok(body) else Err(FailureMessage(body))
  }

  /** The body's own non-empty `message` wins. */
  lemma MessageComesFirst(fields: seq<(string, Json)>, message: string)
    requires Get(fields, "message") == Some(JStr(message)) && message != ""
    ensures Settle(Response(false, JObj(fields))) == Err(message)
  {
  }

  /** Without a usable `message`, the first entry of `errors` supplies it. */
  lemma FirstErrorComesSecond(fields: seq<(string, Json)>, rest: seq<Json>, entry: seq<(string, Json)>, message: string)
    requires !Truthy(Get(fields, "message"))
    requires Get(fields, "errors") == Some(JArr([JObj(entry)] + rest))
    requires Get(entry, "message") == Some(JStr(message)) && message != ""
    ensures Settle(Response(false, JObj(fields))) == Err(message)
  {
  }

  /** With neither a truthy `message` nor a truthy `errors?.[0]?.message` (no `errors`,
      an empty one, or a first entry without a usable `message`), the fixed fallback is
      used. */
  lemma FallbackComesLast(fields: seq<(string, Json)>)
    requires !Truthy(Get(fields, "message"))
    requires !Truthy(OptionalProp(OptionalFirst(Get(fields, "errors")), "message"))
    ensures Settle(Response(false, JObj(fields))) == Err(GenericFailure)
  {
  }

  /** The whole of `apiCall`: the request it sends and what it returns or throws. */
  method ApiCall(env: Option<string>, call: Call, token: Option<string>, reply: Reply) returns (req: Request, result: Result<Json>)
    ensures req == RequestFor(env, call.endpoint, call.options, token)
    ensures result == Settle(reply)
  {
    req := BuildRequest(env, call.endpoint, call.options, token);
    result := Settle(reply);
  }

  /** An endpoint and the options an `authAPI`/`userAPI`/`dashboardAPI` wrapper passes. */
  datatype Call = Call(endpoint: string, options: Options)

  /** The operations of the three wrapper tables with the argument each takes. */
  datatype Operation =
    | Register(userData: Json)
    | Login(credentials: Json)
    | VerifyOtp(otpData: Json)
    | PasswordlessLogin(email: Json)
    | ForgotPassword(email: Json)
    | ResetPassword(resetData: Json)
    | Logout(refreshToken: Json)
    | GetProfile
    | UpdateProfile(profile: Json)
    | GetPermissions
    | GetAccessLogs
    | GetOverview
    | GetPermissionStats
    | GetSecurityInsights
    | GetAlerts

  predicate IsAuth(op: Operation) {
    op.Register? || op.Login? || op.VerifyOtp? || op.PasswordlessLogin? || op.ForgotPassword?
    || op.ResetPassword? || op.Logout?
  }

  function Post(endpoint: string, body: Json): Call {
    Call(endpoint, Options(Some("POST"), Some(body), None))
  }

  function Fetch(endpoint: string): Call {
    Call(endpoint, Options(None, None, None))
  }

  /** The table itself. */
  function CallFor(op: Operation): (c: Call)
    ensures IsAuth(op) ==> c.options.httpMethod == Some("POST") && c.options.body.Some?
    ensures c.options.headers.None?
    ensures op.UpdateProfile? ==> c.options == Options(Some("PUT"), Some(op.profile), None)
    ensures !IsAuth(op) && !op.UpdateProfile? ==> c.options == Options(None, None, None)
    ensures op.PasswordlessLogin? ==> c.options.body == Some(JObj([("email", op.email)]))
    ensures op.ForgotPassword? ==> c.options.body == Some(JObj([("email", op.email)]))
    ensures op.Logout? ==> c.options.body == Some(JObj([("refreshToken", op.refreshToken)]))
    ensures op.Register? ==> c.options.body == Some(op.userData)
    ensures op.Login? ==> c.options.body == Some(op.credentials)
    ensures op.VerifyOtp? ==> c.options.body == Some(op.otpData)
    ensures op.ResetPassword? ==> c.options.body == Some(op.resetData)
  {
    match op
    case Register(userData) => Post("/auth/register", userData)
    case Login(credentials) => Post("/auth/login", credentials)
    case VerifyOtp(otpData) => Post("/auth/verify-otp", otpData)
    case PasswordlessLogin(email) => Post("/auth/passwordless", JObj([("email", email)]))
    case ForgotPassword(email) => Post("/auth/forgot-password", JObj([("email", email)]))
    case ResetPassword(resetData) => Post("/auth/reset-password", resetData)
    case Logout(refreshToken) => Post("/auth/logout", JObj([("refreshToken", refreshToken)]))
    case GetProfile => Fetch("/users/me")
    case UpdateProfile(profile) => Call("/users/me", Options(Some("PUT"), Some(profile), None))
    case GetPermissions => Fetch("/users/permissions")
    case GetAccessLogs => Fetch("/users/access-logs")
    case GetOverview => Fetch("/dashboard")
    case GetPermissionStats => Fetch("/dashboard/permissions/stats")
    case GetSecurityInsights => Fetch("/dashboard/security")
    case GetAlerts => Fetch("/dashboard/alerts")
  }

  /** The request for `op`: JSON content type always, the bearer token exactly when one is
      stored, so two calls with the same stored token send identical requests. */
  lemma WrapperRequests(env: Option<string>, op: Operation, token: Option<string>)
    ensures var r := RequestFor(env, CallFor(op).endpoint, CallFor(op).options, token);
            && Get(r.headers, "Content-Type") == Some("application/json")
            && (Get(r.headers, "Authorization").Some? <==> token.Some? && token.value != "")
            && (token.Some? && token.value != "" ==> Get(r.headers, "Authorization") == Some("Bearer " + token.value))
            && (r.httpMethod.None? <==> !IsAuth(op) && !op.UpdateProfile?)
  {
  }

  /** A caller's own `headers` object is sent as it is, apart from the bearer token. */
  lemma CallerHeadersKept(env: Option<string>, endpoint: string, options: Options, token: Option<string>)
    requires options.headers.Some?
    ensures forall name :: name != "Authorization" ==>
              Get(RequestFor(env, endpoint, options, token).headers, name) == Get(options.headers.value, name)
  {
  }

  /** A caller's own `headers` replace the merged object: `Content-Type` is then sent only if
      the caller wrote it. */
  lemma CallerHeadersReplaceDefaults(env: Option<string>, endpoint: string, httpMethod: Option<string>, body: Option<Json>, h: Headers)
    requires Get(h, "Content-Type").None?
    ensures Get(RequestFor(env, endpoint, Options(httpMethod, body, Some(h)), None).headers, "Content-Type").None?
  {
    CallerHeadersKept(env, endpoint, Options(httpMethod, body, Some(h)), None);
  }
}
