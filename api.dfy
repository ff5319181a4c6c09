/**
 * The HTTP client configuration: `API_CONFIG`, the `ENDPOINTS` path builders
 * and the `APIClient` wrapper around `fetch`.
 *
 * `fetch` itself is not modelled: `Request` returns the call it would make
 * (`FetchCall`) and classifies the `Response` it is given, which stands for
 * whatever the network answered.
 */
module Api {
  import opened Common
  import Numbers

  // ---------------------------------------------------------------- API_CONFIG

  const PRODUCTION_BASE_URL := "https://your-domain.com/api"
  const DEVELOPMENT_BASE_URL := "http://localhost:5000/api"

  /** `API_CONFIG.TIMEOUT`, in milliseconds. */
  const TIMEOUT_MS: nat := 10000

  const AUTHORIZATION := "Authorization"

  /** `API_CONFIG.HEADERS` as initialised. */
  const DEFAULT_HEADERS: map<string, string> :=
    map["Content-Type" := "application/json", "Accept" := "application/json"]

  /** `API_CONFIG.BASE_URL`, chosen by whether `NODE_ENV` is `production`. */
  function BaseUrl(production: bool): (url: string)
    ensures production <==> url == PRODUCTION_BASE_URL
    ensures !production <==> url == DEVELOPMENT_BASE_URL
  {
    if production then PRODUCTION_BASE_URL else DEVELOPMENT_BASE_URL
  }

  // ---------------------------------------------------------------- ENDPOINTS

  const AUTH_LOGIN := "/auth/login"
  const AUTH_REGISTER := "/auth/register"
  const AUTH_LOGOUT := "/auth/logout"
  const AUTH_REFRESH := "/auth/refresh"
  const AUTH_ME := "/auth/me"
  const SERVICES_LIST := "/services"
  const SERVICES_REQUESTS := "/requests"
  const WORKERS_REGISTER := "/workers/register"
  const WORKERS_SEARCH := "/workers/search"
  const ADMIN_LOGIN := "/admin/login"
  const ADMIN_STATS := "/admin/stats"
  const ADMIN_USERS := "/admin/users"
  const ADMIN_WORKERS := "/admin/workers"
  const ADMIN_REQUESTS := "/admin/requests"
  const ADMIN_CONTACTS := "/admin/contacts"
  const REVIEWS_CREATE := "/reviews"

  /** A template literal `${prefix}${id}${suffix}`: the id is inserted verbatim, unescaped. */
  function Wrap(prefix: string, id: string, suffix: string): (path: string)
    ensures |path| == |prefix| + |id| + |suffix|
    ensures path[..|prefix|] == prefix
    ensures path[|prefix|..|prefix| + |id|] == id
    ensures path[|prefix| + |id|..] == suffix
  {
    prefix + id + suffix
  }

  function ServiceById(id: string): string { Wrap("/services/", id, "") }
  function UserRequests(userId: string): string { Wrap("/requests/user/", userId, "") }
  function RequestById(id: string): string { Wrap("/requests/", id, "") }
  function WorkerById(id: string): string { Wrap("/workers/", id, "") }
  function WorkerReviews(id: string): string { Wrap("/workers/", id, "/reviews") }
  function WorkerRequests(id: string): string { Wrap("/workers/", id, "/requests") }
  function AdminContactStatus(id: string): string { Wrap("/admin/contacts/", id, "") }
  function AdminWorkerStatus(id: string): string { Wrap("/admin/workers/", id, "/status") }
  function AdminDeleteUser(id: string): string { Wrap("/admin/users/", id, "") }
  function ReviewsByWorker(workerId: string): string { Wrap("/reviews/worker/", workerId, "") }

  /** With a fixed prefix and suffix, the path determines the id. */
  lemma WrapInjective(prefix: string, suffix: string, a: string, b: string)
    requires Wrap(prefix, a, suffix) == Wrap(prefix, b, suffix)
    ensures a == b
  {
    var path := Wrap(prefix, a, suffix);
    assert a == path[|prefix|..|prefix| + |a|];
  }

  /** Every `ENDPOINTS` path builder is injective in its id. */
  lemma EndpointBuildersInjective(a: string, b: string)
    ensures ServiceById(a) == ServiceById(b) ==> a == b
    ensures UserRequests(a) == UserRequests(b) ==> a == b
    ensures RequestById(a) == RequestById(b) ==> a == b
    ensures WorkerById(a) == WorkerById(b) ==> a == b
    ensures WorkerReviews(a) == WorkerReviews(b) ==> a == b
    ensures WorkerRequests(a) == WorkerRequests(b) ==> a == b
    ensures AdminContactStatus(a) == AdminContactStatus(b) ==> a == b
    ensures AdminWorkerStatus(a) == AdminWorkerStatus(b) ==> a == b
    ensures AdminDeleteUser(a) == AdminDeleteUser(b) ==> a == b
    ensures ReviewsByWorker(a) == ReviewsByWorker(b) ==> a == b
  {
    if ServiceById(a) == ServiceById(b) { WrapInjective("/services/", "", a, b); }
    if UserRequests(a) == UserRequests(b) { WrapInjective("/requests/user/", "", a, b); }
    if RequestById(a) == RequestById(b) { WrapInjective("/requests/", "", a, b); }
    if WorkerById(a) == WorkerById(b) { WrapInjective("/workers/", "", a, b); }
    if WorkerReviews(a) == WorkerReviews(b) { WrapInjective("/workers/", "/reviews", a, b); }
    if WorkerRequests(a) == WorkerRequests(b) { WrapInjective("/workers/", "/requests", a, b); }
    if AdminContactStatus(a) == AdminContactStatus(b) { WrapInjective("/admin/contacts/", "", a, b); }
    if AdminWorkerStatus(a) == AdminWorkerStatus(b) { WrapInjective("/admin/workers/", "/status", a, b); }
    if AdminDeleteUser(a) == AdminDeleteUser(b) { WrapInjective("/admin/users/", "", a, b); }
    if ReviewsByWorker(a) == ReviewsByWorker(b) { WrapInjective("/reviews/worker/", "", a, b); }
  }

  /**
   * Ids are not escaped, so different builders can produce the same path:
   * the worker with id `x + "/reviews"` and the reviews of worker `x` share it.
   */
  lemma WorkerPathsCanCollide(x: string)
    ensures WorkerById(x + "/reviews") == WorkerReviews(x)
  {
    assert "/workers/" + (x + "/reviews") + "" == "/workers/" + x + "/reviews";
  }

  /** The sixteen fixed paths of `ENDPOINTS` are pairwise different. */
  lemma StaticEndpointsDistinct()
    ensures var paths := [AUTH_LOGIN, AUTH_REGISTER, AUTH_LOGOUT, AUTH_REFRESH, AUTH_ME,
                          SERVICES_LIST, SERVICES_REQUESTS, WORKERS_REGISTER, WORKERS_SEARCH,
                          ADMIN_LOGIN, ADMIN_STATS, ADMIN_USERS, ADMIN_WORKERS, ADMIN_REQUESTS,
                          ADMIN_CONTACTS, REVIEWS_CREATE];
            forall i, j :: 0 <= i < j < |paths| ==> paths[i] != paths[j]
  {
  }

  /**
   * Ids can also reach fixed paths: the worker with id "register" or "search"
   * and the request with id `"user/" + u` share their paths with
   * `WORKERS.REGISTER`, `WORKERS.SEARCH` and `SERVICES.USER_REQUESTS(u)`.
   */
  lemma IdsCanShadowFixedPaths(u: string)
    ensures WorkerById("register") == WORKERS_REGISTER
    ensures WorkerById("search") == WORKERS_SEARCH
    ensures RequestById("user/" + u) == UserRequests(u)
  {
    assert "/requests/" + ("user/" + u) + "" == "/requests/user/" + u + "";
  }

  // ---------------------------------------------------------------- headers

  /** `{ ...defaults, ...overrides }`: every key of either, the override winning. */
  function MergeHeaders(defaults: map<string, string>, overrides: map<string, string>): (r: map<string, string>)
    ensures r.Keys == defaults.Keys + overrides.Keys
    ensures forall k :: k in overrides ==> r[k] == overrides[k]
    ensures forall k :: k in defaults && k !in overrides ==> r[k] == defaults[k]
  {
    defaults + overrides
  }

  /** Merging no per-call headers yields the defaults; merging the same overrides twice changes nothing more. */
  lemma MergeHeadersLaws(defaults: map<string, string>, overrides: map<string, string>)
    ensures MergeHeaders(defaults, map[]) == defaults
    ensures MergeHeaders(MergeHeaders(defaults, overrides), overrides) == MergeHeaders(defaults, overrides)
  {
  }

  /** The header dictionary after `setAuthToken(token)`. */
  function WithToken(headers: map<string, string>, token: string): (r: map<string, string>)
    ensures r.Keys == headers.Keys + {AUTHORIZATION}
    ensures r[AUTHORIZATION] == "Bearer " + token
    ensures forall k :: k in headers && k != AUTHORIZATION ==> r[k] == headers[k]
  {
    headers[AUTHORIZATION := "Bearer " + token]
  }

  /** The header dictionary after `removeAuthToken()`. */
  function WithoutToken(headers: map<string, string>): (r: map<string, string>)
    ensures r.Keys == headers.Keys - {AUTHORIZATION}
    ensures forall k :: k in r ==> r[k] == headers[k]
  {
    headers - {AUTHORIZATION}
  }

  /** A later token overwrites an earlier one; removing is idempotent and undoes setting. */
  lemma TokenLaws(headers: map<string, string>, t1: string, t2: string)
    ensures WithToken(WithToken(headers, t1), t2) == WithToken(headers, t2)
    ensures WithoutToken(WithoutToken(headers)) == WithoutToken(headers)
    ensures WithoutToken(WithToken(headers, t1)) == WithoutToken(headers)
    ensures AUTHORIZATION !in headers ==> WithoutToken(WithToken(headers, t1)) == headers
  {
  }

  // ---------------------------------------------------------------- requests

  datatype HttpMethod = GET | POST | PUT | DELETE

  /** The `data` argument: a JavaScript value, enough of it to decide truthiness. */
  datatype JsValue =
    | Undefined
    | Null
    | Bool(b: bool)
    | Number(n: int)
    | Str(s: string)
    | Object(json: string)  // an object or array, with its JSON text

  /** JavaScript truthiness, as in `if (data && ...)`. */
  predicate Truthy(v: JsValue)
    ensures !Truthy(v) <==> v in {Undefined, Null, Bool(false), Number(0), Str("")}
  {
    match v
    case Undefined => false
    case Null => false
    case Bool(b) => b
    case Number(n) => n != 0
    case Str(s) => s != ""
    case Object(_) => true
  }

  /** The `options` argument of `request` (`verb` is its `method`); an absent property is `None` (or `Undefined`). */
  datatype RequestOptions = RequestOptions(
    verb: Option<HttpMethod>,
    data: JsValue,
    headers: Option<map<string, string>>)

  /** `options = {}`. */
  const NO_OPTIONS := RequestOptions(None, Undefined, None)

  /**
   * The `fetch(url, config)` call a request makes. `body` holds the value
   * that `JSON.stringify` serialises; `timeoutMs` is the delay of the
   * `AbortSignal.timeout` signal.
   */
  datatype FetchCall = FetchCall(
    url: string,
    verb: HttpMethod,  // `config.method`
    headers: map<string, string>,
    body: Option<JsValue>,
    timeoutMs: nat)

  /** The call `request(endpoint, options)` makes on a client with the given state. */
  function BuildFetch(baseUrl: string, timeout: nat, defaults: map<string, string>,
                      endpoint: string, options: RequestOptions): (call: FetchCall)
    ensures call.url == baseUrl + endpoint
    ensures options.verb.None? ==> call.verb == GET
    ensures options.verb.Some? ==> call.verb == options.verb.value
    ensures options.headers.None? ==> call.headers == defaults
    ensures options.headers.Some? ==> call.headers == MergeHeaders(defaults, options.headers.value)
    ensures call.body.Some? <==> Truthy(options.data) && call.verb in {POST, PUT}
    ensures call.body.Some? ==> call.body.value == options.data
    ensures call.timeoutMs == timeout
  {
    var verb := options.verb.GetOr(GET);
    var headers := MergeHeaders(defaults, options.headers.GetOr(map[]));
    var body := if Truthy(options.data) && verb in {POST, PUT} then Some(options.data) else None;
    FetchCall(baseUrl + endpoint, verb, headers, body, timeout)
  }

  /**
   * What the network answered: a response, or a rejection of `fetch` (timeout
   * abort, network error). `json` is what `response.json()` would parse from
   * the body, `None` when the body is not JSON (an empty `204 No Content` body,
   * an HTML error page).
   */
  datatype Response =
    | Response(status: nat, statusText: string, json: Option<JsValue>)
    | Rejected(reason: string)

  /** `response.ok`. */
  predicate IsOk(status: nat)
    ensures IsOk(status) <==> status / 100 == 2
  {
    200 <= status <= 299
  }

  datatype ApiError =
    | HttpError(message: string)   // `new Error(`HTTP ${status}: ${statusText}`)`
    | FetchError(reason: string)   // a rejection of `fetch`, re-thrown after logging
    | ParseError                   // `response.json()` rejected: the body is not JSON

  /** The promise returned by `request` settles with this. */
  function Classify(response: Response): (r: Result<JsValue, ApiError>)
    ensures r.Success? <==> response.Response? && IsOk(response.status) && response.json.Some?
    ensures r.Success? ==> r.value == response.json.value
    ensures response.Response? && IsOk(response.status) && response.json.None? ==> r == Failure(ParseError)
    ensures response.Response? && !IsOk(response.status) ==>
      r == Failure(HttpError("HTTP " + Numbers.NatToString(response.status) + ": " + response.statusText))
    ensures response.Rejected? ==> r == Failure(FetchError(response.reason))
  {
    match response
    case Rejected(reason) => Failure(FetchError(reason))
    case Response(status, statusText, json) =>
      if !IsOk(status) then Failure(HttpError("HTTP " + Numbers.NatToString(status) + ": " + statusText))
      else if json.None? then Failure(ParseError)
      else Success(json.value)
  }

  /** The status code of a failed response can be read back from the error message. */
  lemma HttpErrorCarriesStatus(response: Response)
    requires response.Response? && !IsOk(response.status)
    ensures Classify(response).error.HttpError?
    ensures Classify(response).error.message[..5] == "HTTP "
    ensures Numbers.ParseInt(Classify(response).error.message[5..]) == Some(response.status)
  {
    var digits := Numbers.NatToString(response.status);
    var message := "HTTP " + digits + ": " + response.statusText;
    assert message[5..] == digits + (": " + response.statusText);
    Numbers.ParseIntOfNatToString(response.status, ": " + response.statusText);
  }

  // ---------------------------------------------------------------- objects

  /** A mutable `Record<string, string>`, shared by reference. */
  class HeaderMap {
    var entries: map<string, string>

    constructor (initial: map<string, string>)
      ensures entries == initial
    {
      entries := initial;
    }
  }

  /** The `API_CONFIG` object. */
  class ApiConfig {
    const baseUrl: string
    const timeout: nat
    const headers: HeaderMap

    constructor (production: bool)
      ensures baseUrl == BaseUrl(production) && timeout == TIMEOUT_MS
      ensures fresh(headers) && headers.entries == DEFAULT_HEADERS
    {
      baseUrl := BaseUrl(production);
      timeout := TIMEOUT_MS;
      headers := new HeaderMap(DEFAULT_HEADERS);
    }
  }

  class APIClient {
    const baseURL: string
    const timeout: nat
    const defaultHeaders: HeaderMap

    /** The client keeps a reference to the configuration's header object, not a copy. */
    constructor (config: ApiConfig)
      ensures baseURL == config.baseUrl && timeout == config.timeout
      ensures defaultHeaders == config.headers
    {
      baseURL := config.baseUrl;
      timeout := config.timeout;
      defaultHeaders := config.headers;
    }

    method SetAuthToken(token: string)
      modifies defaultHeaders
      ensures defaultHeaders.entries == WithToken(old(defaultHeaders.entries), token)
    {
      defaultHeaders.entries := defaultHeaders.entries[AUTHORIZATION := "Bearer " + token];
    }

    method RemoveAuthToken()
      modifies defaultHeaders
      ensures defaultHeaders.entries == WithoutToken(old(defaultHeaders.entries))
    {
      defaultHeaders.entries := defaultHeaders.entries - {AUTHORIZATION};
    }

    /**
     * `request(endpoint, options)`: the call it makes and how its promise
     * settles once the network answered `response`. It changes no state.
     */
    method Request(endpoint: string, options: RequestOptions, response: Response)
      returns (call: FetchCall, result: Result<JsValue, ApiError>)
      ensures call == BuildFetch(baseURL, timeout, defaultHeaders.entries, endpoint, options)
      ensures result == Classify(response)
    {
      var verb := options.verb.GetOr(GET);
      var headers := defaultHeaders.entries + options.headers.GetOr(map[]);
      var body := None;
      if Truthy(options.data) && (verb == POST || verb == PUT) {
        body := Some(options.data);
      }
      call := FetchCall(baseURL + endpoint, verb, headers, body, timeout);
      match response {
        case Rejected(reason) =>
          result := Failure(FetchError(reason));
        case Response(status, statusText, json) =>
          if !IsOk(status) {
            result := Failure(HttpError("HTTP " + Numbers.NatToString(status) + ": " + statusText));
          } else if json.None? {
            result := Failure(ParseError);
          } else {
            result := Success(json.value);
          }
      }
    }

    /** `get(endpoint, headers)`: never carries a body. */
    method Get(endpoint: string, headers: Option<map<string, string>>, response: Response)
      returns (call: FetchCall, result: Result<JsValue, ApiError>)
      ensures call.verb == GET && call.body.None?
      ensures call.url == baseURL + endpoint && call.timeoutMs == timeout
      ensures call.headers == MergeHeaders(defaultHeaders.entries, headers.GetOr(map[]))
      ensures result == Classify(response)
    {
      call, result := Request(endpoint, RequestOptions(Some(GET), Undefined, headers), response);
    }

    /** `post(endpoint, data, headers)`: carries `data` exactly when it is truthy. */
    method Post(endpoint: string, data: JsValue, headers: Option<map<string, string>>, response: Response)
      returns (call: FetchCall, result: Result<JsValue, ApiError>)
      ensures call.verb == POST
      ensures call.body == if Truthy(data) then Some(data) else None
      ensures call.url == baseURL + endpoint && call.timeoutMs == timeout
      ensures call.headers == MergeHeaders(defaultHeaders.entries, headers.GetOr(map[]))
      ensures result == Classify(response)
    {
      call, result := Request(endpoint, RequestOptions(Some(POST), data, headers), response);
    }

    /** `put(endpoint, data, headers)`: carries `data` exactly when it is truthy. */
    method Put(endpoint: string, data: JsValue, headers: Option<map<string, string>>, response: Response)
      returns (call: FetchCall, result: Result<JsValue, ApiError>)
      ensures call.verb == PUT
      ensures call.body == if Truthy(data) then Some(data) else None
      ensures call.url == baseURL + endpoint && call.timeoutMs == timeout
      ensures call.headers == MergeHeaders(defaultHeaders.entries, headers.GetOr(map[]))
      ensures result == Classify(response)
    {
      call, result := Request(endpoint, RequestOptions(Some(PUT), data, headers), response);
    }

    /** `delete(endpoint, headers)`: never carries a body. */
    method Delete(endpoint: string, headers: Option<map<string, string>>, response: Response)
      returns (call: FetchCall, result: Result<JsValue, ApiError>)
      ensures call.verb == DELETE && call.body.None?
      ensures call.url == baseURL + endpoint && call.timeoutMs == timeout
      ensures call.headers == MergeHeaders(defaultHeaders.entries, headers.GetOr(map[]))
      ensures result == Classify(response)
    {
      call, result := Request(endpoint, RequestOptions(Some(DELETE), Undefined, headers), response);
    }
  }

  /**
   * The exported `apiClient` singleton shares `API_CONFIG.HEADERS`: a token
   * set on it shows in the configuration object and in every client built
   * from that configuration afterwards.
   */
  method TokenReachesSharedConfig(production: bool, token: string)
    returns (configHeaders: map<string, string>, laterClientHeaders: map<string, string>)
    ensures configHeaders == WithToken(DEFAULT_HEADERS, token)
    ensures laterClientHeaders == configHeaders
  {
    var config := new ApiConfig(production);
    var apiClient := new APIClient(config);
    apiClient.SetAuthToken(token);
    configHeaders := config.headers.entries;
    var laterClient := new APIClient(config);
    laterClientHeaders := laterClient.defaultHeaders.entries;
  }
}
