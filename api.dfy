/**
 * The authenticated request client: how each request's headers are assembled from the
 * caller's headers and the stored token, how a response is classified into a result or
 * one of the failures, and the paths and query strings of the expense endpoints.
 */
module Api {
  import opened Wrappers
  import opened JsonValues
  import opened JsString
  import opened UrlEncoding
  import opened Schemas
  import opened Auth

  const CONTENT_TYPE: string := "Content-Type"
  const AUTHORIZATION: string := "Authorization"
  const JSON_MEDIA_TYPE: string := "application/json"
  const UNKNOWN_ERROR: string := "Unknown error"
  const REQUEST_FAILED: string := "API request failed"
  const AUTHENTICATION_FAILED: string := "Authentication failed"
  const DEFAULT_LIMIT: int := 50
  const DEFAULT_OFFSET: int := 0

  /** What a caller passes to `fetchWithAuth`: the HTTP method, its own headers and a body. */
  datatype RequestOptions = RequestOptions(verb: Option<string>, headers: map<string, string>, body: Option<string>)

  /** No options: a GET with no extra headers. */
  const NO_OPTIONS: RequestOptions := RequestOptions(None, map[], None)

  /** The request handed to `fetch`. */
  datatype HttpRequest = HttpRequest(url: string, verb: Option<string>, headers: map<string, string>, body: Option<string>)

  /** A response: its status and what `response.json()` yields (`None` when it rejects). */
  datatype HttpResponse = HttpResponse(status: int, body: Option<Json>)

  /** `response.ok`. */
  predicate IsOk(status: int) { 200 <= status <= 299 }

  /** `fetch`: the response, or `None` when the call itself rejects (no response arrived). */
  type Transport = HttpRequest -> Option<HttpResponse>

  /**
   * `ApiError`: the response status and the value handed to `Error` as its message
   * (`None` is `undefined`, which gives an empty message).
   */
  datatype ApiError = ApiError(status: int, message: Option<Json>)

  /** The ways a request can fail. */
  datatype Failure =
    | Unauthorized      // the 401 `Response` thrown after the token is cleared
    | Api(error: ApiError)
    | DetailOfNull      // the error body parsed to `null`: reading `.detail` throws a TypeError
    | NetworkFailure    // `fetch` rejected; passed on unchanged
    | BodyNotJson       // an ok response whose `response.json()` rejected
    | SchemaViolation   // an ok response whose body the schema rejected

  datatype Outcome<T> = Done(value: T) | Failed(failure: Failure)

  // ---- Headers -----------------------------------------------------------------

  /** `if (token)`: a stored, non-empty token is sent as a bearer credential. */
  predicate SendsBearer(token: Option<string>) { token.Some? && token.value != "" }

  /**
   * The headers `fetchWithAuth` sends: JSON content type first, the caller's headers over
   * it, and the bearer credential over everything when a token is present.
   */
  function RequestHeaders(caller: map<string, string>, token: Option<string>): (h: map<string, string>)
    ensures h.Keys == caller.Keys + {CONTENT_TYPE} + (if SendsBearer(token) then {AUTHORIZATION} else {})
    ensures h[CONTENT_TYPE] == if CONTENT_TYPE in caller then caller[CONTENT_TYPE] else JSON_MEDIA_TYPE
    ensures SendsBearer(token) ==> h[AUTHORIZATION] == "Bearer " + token.value
    ensures !SendsBearer(token) ==> forall k :: k in caller ==> h[k] == caller[k]
    ensures forall k :: k in caller && k != AUTHORIZATION ==> h[k] == caller[k]
  {
    var merged := map[CONTENT_TYPE := JSON_MEDIA_TYPE] + caller;
    if SendsBearer(token) then merged[AUTHORIZATION := "Bearer " + token.value] else merged
  }

  /** The request `fetchWithAuth` issues for `endpoint` while the store holds `token`. */
  function AuthorizedRequest(baseUrl: string, endpoint: string, options: RequestOptions, token: Option<string>): (req: HttpRequest)
    ensures req.url == baseUrl + endpoint && req.verb == options.verb && req.body == options.body
    ensures SendsBearer(token) ==> AUTHORIZATION in req.headers && req.headers[AUTHORIZATION] == "Bearer " + token.value
    ensures !SendsBearer(token) ==> (AUTHORIZATION in req.headers <==> AUTHORIZATION in options.headers)
    ensures CONTENT_TYPE in req.headers
  {
    HttpRequest(baseUrl + endpoint, options.verb, RequestHeaders(options.headers, token), options.body)
  }

  // ---- Response classification -------------------------------------------------

  /**
   * `.detail` of the error body, the body being `{detail: fallback}` when it does not parse:
   * `None` when the body is `null` (the read throws), else the field or `undefined`.
   */
  function ErrorDetail(body: Option<Json>, fallback: string): (d: Option<Option<Json>>)
    ensures body.None? ==> d == Some(Some(JString(fallback)))
    ensures body == Some(JNull) ==> d.None?
    ensures body.Some? && body.value != JNull ==> d == Some(Property(body.value, "detail"))
  {
    match body
    case None => Some(Some(JString(fallback)))
    case Some(JNull) => None
    case Some(j) => Some(Property(j, "detail"))
  }

  /** What `fetchWithAuth` makes of what `fetch` produced. */
  function Classify(response: Option<HttpResponse>): (o: Outcome<HttpResponse>)
    ensures response.None? <==> o == Failed(NetworkFailure)
    ensures response.Some? ==> (o == Failed(Unauthorized) <==> response.value.status == 401)
    ensures response.Some? ==> (o == Done(response.value) <==> IsOk(response.value.status))
    ensures o.Failed? && o.failure.Api? ==>
      && response.Some? && o.failure.error.status == response.value.status
      && o.failure.error.message.Some? && Truthy(o.failure.error.message.value)
    ensures o == Failed(DetailOfNull) <==>
      && response.Some? && response.value.status != 401
      && !IsOk(response.value.status) && response.value.body == Some(JNull)
    ensures o.Done? ==> response.Some? && o.value == response.value
    ensures o.Done? || o.failure in {Unauthorized, NetworkFailure, DetailOfNull} || o.failure.Api?
  {
    match response
    case None => Failed(NetworkFailure)
    case Some(r) =>
      if r.status == 401 then Failed(Unauthorized)
      else if !IsOk(r.status) then
        match ErrorDetail(r.body, UNKNOWN_ERROR)
        case None => Failed(DetailOfNull)
        case Some(detail) => Failed(Api(ApiError(r.status, Some(OrElse(detail, JString(REQUEST_FAILED))))))
      else Done(r)
  }

  /** The message of the `ApiError` for a failed, non-401 response. */
  lemma ApiErrorMessage(r: HttpResponse)
    requires r.status != 401 && !IsOk(r.status) && r.body != Some(JNull)
    ensures Classify(Some(r)).Failed? && Classify(Some(r)).failure.Api?
    ensures var e := Classify(Some(r)).failure.error;
      && e.status == r.status
      && (r.body.None? ==> e.message == Some(JString(UNKNOWN_ERROR)))
      && (r.body.Some? && TruthyOpt(Property(r.body.value, "detail")) ==>
            e.message == Property(r.body.value, "detail"))
      && (r.body.Some? && !TruthyOpt(Property(r.body.value, "detail")) ==>
            e.message == Some(JString(REQUEST_FAILED)))
  {
  }

  /**
   * `fetchWithAuth`: send the request with the assembled headers; on 401 clear the token and
   * fail with `Unauthorized`; on another failure status fail with an `ApiError`; otherwise
   * hand back the response untouched. The token is changed on the 401 path only.
   */
  method FetchWithAuth(store: SessionStore, baseUrl: string, endpoint: string, options: RequestOptions, network: Transport)
    returns (o: Outcome<HttpResponse>)
    modifies store
    ensures o == Classify(network(AuthorizedRequest(baseUrl, endpoint, options, old(store.token))))
    ensures store.token == if o == Failed(Unauthorized) then None else old(store.token)
  {
    var token := store.GetToken();
    var headers := map[CONTENT_TYPE := JSON_MEDIA_TYPE] + options.headers;
    if token.Some? && token.value != "" {
      headers := headers[AUTHORIZATION := "Bearer " + token.value];
    }
    var response := network(HttpRequest(baseUrl + endpoint, options.verb, headers, options.body));
    if response.None? {
      return Failed(NetworkFailure);
    }
    var r := response.value;
    if r.status == 401 {
      store.RemoveToken();
      return Failed(Unauthorized);
    }
    if !IsOk(r.status) {
      var error := if r.body.None? then JObject(map["detail" := JString(UNKNOWN_ERROR)]) else r.body.value;
      if error == JNull {
        return Failed(DetailOfNull);
      }
      var detail := Property(error, "detail");
      var message := if TruthyOpt(detail) then detail.value else JString(REQUEST_FAILED);
      return Failed(Api(ApiError(r.status, Some(message))));
    }
    o := Done(r);
  }

  /** `const json = await response.json(); return Schema.parse(json);` after a request. */
  function ParseBody<T>(o: Outcome<HttpResponse>, parse: Json -> Option<T>): (r: Outcome<T>)
    ensures o.Failed? ==> r == Failed(o.failure)
    ensures r.Done? <==> o.Done? && o.value.body.Some? && parse(o.value.body.value).Some?
    ensures r.Done? ==> Some(r.value) == parse(o.value.body.value)
  {
    match o
    case Failed(f) => Failed(f)
    case Done(resp) =>
      match resp.body
      case None => Failed(BodyNotJson)
      case Some(j) =>
        match parse(j)
        case None => Failed(SchemaViolation)
        case Some(v) => Done(v)
  }

  /** An authenticated GET of `endpoint` whose body is checked with `parse`. */
  method FetchParsed<T>(store: SessionStore, baseUrl: string, endpoint: string, network: Transport, parse: Json -> Option<T>)
    returns (r: Outcome<T>)
    modifies store
    ensures r == ParseBody(Classify(network(AuthorizedRequest(baseUrl, endpoint, NO_OPTIONS, old(store.token)))), parse)
    ensures store.token == if r == Failed(Unauthorized) then None else old(store.token)
  {
    var response := FetchWithAuth(store, baseUrl, endpoint, NO_OPTIONS, network);
    match response
    case Failed(f) =>
      r := Failed(f);
    case Done(resp) =>
      if resp.body.None? {
        r := Failed(BodyNotJson);
      } else {
        var v := parse(resp.body.value);
        r := if v.None? then Failed(SchemaViolation) else Done(v.value);
      }
  }

  // ---- Endpoints -----------------------------------------------------------------

  /** The path of `getExpenses`. */
  function ExpensesPath(limit: int := DEFAULT_LIMIT, offset: int := DEFAULT_OFFSET): string {
    "/expenses/?" + QueryString([("limit", IntToString(limit)), ("offset", IntToString(offset))])
  }

  /** The path of `getExpensesByCategory`; the category is one encoded path segment. */
  function CategoryPath(category: string, limit: int := DEFAULT_LIMIT, offset: int := DEFAULT_OFFSET): string {
    "/expenses/category/" + EncodeUriComponent(category) + "?"
      + QueryString([("limit", IntToString(limit)), ("offset", IntToString(offset))])
  }

  /**
   * The path of `getExpensesByDateRange`; `startIso` and `endIso` are the dates'
   * `toISOString()` text, which is foreign.
   */
  function DateRangePath(startIso: string, endIso: string, limit: int := DEFAULT_LIMIT, offset: int := DEFAULT_OFFSET): string {
    "/expenses/date-range?" + QueryString(DateRangeParams(startIso, endIso, limit, offset))
  }

  function DateRangeParams(startIso: string, endIso: string, limit: int, offset: int): seq<(string, string)> {
    [("start_date", startIso), ("end_date", endIso), ("limit", IntToString(limit)), ("offset", IntToString(offset))]
  }

  /** The path of `getMonthlyStats`. */
  function MonthlyStatsPath(month: int, year: int): string {
    "/expenses/stats/monthly?" + QueryString([("month", IntToString(month)), ("year", IntToString(year))])
  }

  /** `getExpenses`. */
  method GetExpenses(store: SessionStore, baseUrl: string, network: Transport, coerce: DateCoercion,
                     limit: int := DEFAULT_LIMIT, offset: int := DEFAULT_OFFSET)
    returns (r: Outcome<ExpensesResponse>)
    modifies store
    ensures r == ParseBody(Classify(network(AuthorizedRequest(baseUrl, ExpensesPath(limit, offset), NO_OPTIONS, old(store.token)))),
                           j => ParseExpensesResponse(j, coerce))
    ensures store.token == if r == Failed(Unauthorized) then None else old(store.token)
  {
    r := FetchParsed(store, baseUrl, ExpensesPath(limit, offset), network, j => ParseExpensesResponse(j, coerce));
  }

  /** `getExpensesByCategory`. */
  method GetExpensesByCategory(store: SessionStore, baseUrl: string, network: Transport, coerce: DateCoercion,
                               category: string, limit: int := DEFAULT_LIMIT, offset: int := DEFAULT_OFFSET)
    returns (r: Outcome<ExpensesResponse>)
    modifies store
    ensures r == ParseBody(Classify(network(AuthorizedRequest(baseUrl, CategoryPath(category, limit, offset), NO_OPTIONS, old(store.token)))),
                           j => ParseExpensesResponse(j, coerce))
    ensures store.token == if r == Failed(Unauthorized) then None else old(store.token)
  {
    r := FetchParsed(store, baseUrl, CategoryPath(category, limit, offset), network, j => ParseExpensesResponse(j, coerce));
  }

  /** `getExpensesByDateRange`. */
  method GetExpensesByDateRange(store: SessionStore, baseUrl: string, network: Transport, coerce: DateCoercion,
                                startIso: string, endIso: string, limit: int := DEFAULT_LIMIT, offset: int := DEFAULT_OFFSET)
    returns (r: Outcome<ExpensesResponse>)
    modifies store
    ensures r == ParseBody(Classify(network(AuthorizedRequest(baseUrl, DateRangePath(startIso, endIso, limit, offset), NO_OPTIONS, old(store.token)))),
                           j => ParseExpensesResponse(j, coerce))
    ensures store.token == if r == Failed(Unauthorized) then None else old(store.token)
  {
    r := FetchParsed(store, baseUrl, DateRangePath(startIso, endIso, limit, offset), network, j => ParseExpensesResponse(j, coerce));
  }

  /** `getMonthlyStats`. */
  method GetMonthlyStats(store: SessionStore, baseUrl: string, network: Transport, month: int, year: int)
    returns (r: Outcome<MonthlyStats>)
    modifies store
    ensures r == ParseBody(Classify(network(AuthorizedRequest(baseUrl, MonthlyStatsPath(month, year), NO_OPTIONS, old(store.token)))),
                           ParseMonthlyStats)
    ensures store.token == if r == Failed(Unauthorized) then None else old(store.token)
  {
    r := FetchParsed(store, baseUrl, MonthlyStatsPath(month, year), network, ParseMonthlyStats);
  }

  // ---- Authentication ------------------------------------------------------------

  /** The login request: a POST with only the JSON content type, never a bearer credential. */
  function TelegramLoginRequest(baseUrl: string, body: string): (req: HttpRequest)
    ensures req.headers == map[CONTENT_TYPE := JSON_MEDIA_TYPE] && AUTHORIZATION !in req.headers
  {
    HttpRequest(baseUrl + "/auth/telegram", Some("POST"), map[CONTENT_TYPE := JSON_MEDIA_TYPE], Some(body))
  }

  /**
   * `authenticateWithTelegram`; `stringify` is `JSON.stringify`, which is foreign. A failure
   * status, 401 included, is an `ApiError` carrying the body's `detail` as it is, with
   * "Authentication failed" only for a body that does not parse.
   */
  function AuthenticateWithTelegram(data: TelegramAuthData, baseUrl: string, network: Transport,
                                    stringify: TelegramAuthData -> string): (r: Outcome<TokenResponse>)
    ensures r != Failed(Unauthorized)
    ensures var resp := network(TelegramLoginRequest(baseUrl, stringify(data)));
      && (resp.None? <==> r == Failed(NetworkFailure))
      && (r.Failed? && r.failure.Api? ==>
            && resp.Some? && !IsOk(resp.value.status) && r.failure.error.status == resp.value.status
            && (resp.value.body.None? ==> r.failure.error.message == Some(JString(AUTHENTICATION_FAILED)))
            && (resp.value.body.Some? ==> r.failure.error.message == Property(resp.value.body.value, "detail")))
      && (resp.Some? && !IsOk(resp.value.status) ==>
            && (r == Failed(DetailOfNull) <==> resp.value.body == Some(JNull))
            && (resp.value.body != Some(JNull) ==> r.Failed? && r.failure.Api?))
      && (resp.Some? && IsOk(resp.value.status) && resp.value.body.None? ==> r == Failed(BodyNotJson))
      && ((resp.Some? && IsOk(resp.value.status) && resp.value.body.Some?
             && ParseTokenResponse(resp.value.body.value).None?) ==> r == Failed(SchemaViolation))
      && (r.Done? <==> resp.Some? && IsOk(resp.value.status) && resp.value.body.Some?
                         && ParseTokenResponse(resp.value.body.value).Some?)
      && (r.Done? ==> Some(r.value) == ParseTokenResponse(resp.value.body.value))
  {
    match network(TelegramLoginRequest(baseUrl, stringify(data)))
    case None => Failed(NetworkFailure)
    case Some(resp) =>
      if !IsOk(resp.status) then
        match ErrorDetail(resp.body, AUTHENTICATION_FAILED)
        case None => Failed(DetailOfNull)
        case Some(detail) => Failed(Api(ApiError(resp.status, detail)))
      else ParseBody(Done(resp), ParseTokenResponse)
  }

  /** The health request: a plain GET of `/health`, with no headers and no credential. */
  function HealthRequest(baseUrl: string): (req: HttpRequest)
    ensures req.headers == map[] && req.verb.None? && req.body.None?
  {
    HttpRequest(baseUrl + "/health", None, map[], None)
  }

  /**
   * `healthCheck`: the parsed body of whatever response arrives. The status is never
   * consulted and no schema is applied, so a failure status still yields its body.
   */
  function HealthCheck(baseUrl: string, network: Transport): (r: Outcome<Json>)
    ensures var resp := network(HealthRequest(baseUrl));
      && (r == Failed(NetworkFailure) <==> resp.None?)
      && (r == Failed(BodyNotJson) <==> resp.Some? && resp.value.body.None?)
      && (r.Done? <==> resp.Some? && resp.value.body.Some?)
      && (r.Done? ==> r.value == resp.value.body.value)
  {
    match network(HealthRequest(baseUrl))
    case None => Failed(NetworkFailure)
    case Some(resp) =>
      match resp.body
      case None => Failed(BodyNotJson)
      case Some(j) => Done(j)
  }

  // ---- Properties of the paths ---------------------------------------------------

  /** Regrouping a concatenation (kept apart so that it is proved over plain variables). */
  lemma Regroup(p: string, a: string, x: string, b: string, y: string)
    ensures p + (a + x + (b + y)) == (p + a) + x + b + y
  {
  }

  /** A two-parameter query of plain names and integer values: `a=x&b=y`. */
  lemma TwoIntegerQuery(a: string, x: int, b: string, y: int)
    requires forall k :: 0 <= k < |a| ==> FormUnreserved(a[k])
    requires forall k :: 0 <= k < |b| ==> FormUnreserved(b[k])
    ensures QueryString([(a, IntToString(x)), (b, IntToString(y))])
         == (a + "=") + IntToString(x) + ("&" + b + "=") + IntToString(y)
  {
    var xs, ys := IntToString(x), IntToString(y);
    QueryStringOfTwo((a, xs), (b, ys));
    IntegerPair(a, x);
    IntegerPair(b, y);
    Regroup("", a + "=", xs, "&", b + "=" + ys);
    assert "&" + (b + "=" + ys) == ("&" + b + "=") + ys;
  }

  // The literal text of each path is assembled over plain strings, where it is cheap.

  lemma ExpensesText(l: string, o: string, query: string)
    requires query == ("limit" + "=") + l + ("&" + "offset" + "=") + o
    ensures "/expenses/?" + query == "/expenses/?limit=" + l + "&offset=" + o
  {
    var a, b := "limit" + "=", "&" + "offset" + "=";
    assert a == "limit=" && b == "&offset=";
    assert "/expenses/?" + (a + l + b + o) == "/expenses/?" + a + l + b + o;
    assert "/expenses/?" + a == "/expenses/?limit=";
  }

  lemma CategoryText(c: string, l: string, o: string, query: string)
    requires query == ("limit" + "=") + l + ("&" + "offset" + "=") + o
    ensures "/expenses/category/" + c + "?" + query == "/expenses/category/" + c + "?limit=" + l + "&offset=" + o
  {
    var a, b := "limit" + "=", "&" + "offset" + "=";
    assert a == "limit=" && b == "&offset=";
    var p := "/expenses/category/" + c;
    assert p + "?" + (a + l + b + o) == p + ("?" + a) + l + b + o;
    assert "?" + a == "?limit=";
    assert p + "?limit=" == "/expenses/category/" + c + "?limit=";
  }

  lemma MonthlyStatsText(m: string, y: string, query: string)
    requires query == ("month" + "=") + m + ("&" + "year" + "=") + y
    ensures "/expenses/stats/monthly?" + query == "/expenses/stats/monthly?month=" + m + "&year=" + y
  {
    var a, b := "month" + "=", "&" + "year" + "=";
    assert a == "month=" && b == "&year=";
    assert "/expenses/stats/monthly?" + (a + m + b + y) == "/expenses/stats/monthly?" + a + m + b + y;
    assert "/expenses/stats/monthly?" + a == "/expenses/stats/monthly?month=";
  }

  /** `getExpenses` asks for `limit` then `offset`, as decimal integers. */
  lemma ExpensesPathShape(limit: int, offset: int)
    ensures ExpensesPath(limit, offset) == "/expenses/?limit=" + IntToString(limit) + "&offset=" + IntToString(offset)
  {
    TwoIntegerQuery("limit", limit, "offset", offset);
    ExpensesText(IntToString(limit), IntToString(offset),
                 QueryString([("limit", IntToString(limit)), ("offset", IntToString(offset))]));
  }

  lemma DefaultText(l: string, o: string)
    requires l == "50" && o == "0"
    ensures "/expenses/?limit=" + l + "&offset=" + o == "/expenses/?limit=50&offset=0"
  {
  }

  /** With no arguments, `getExpenses` requests the first 50 expenses. */
  lemma DefaultExpensesPath()
    ensures ExpensesPath() == "/expenses/?limit=50&offset=0"
  {
    ExpensesPathShape(50, 0);
    DecimalOfDefaults();
    DefaultText(IntToString(50), IntToString(0));
  }

  /**
   * The category is one URI-encoded path segment: it can hold no `/`, `?` or `#`, so it
   * cannot reach another endpoint or add to the query.
   */
  lemma CategoryPathShape(category: string, limit: int, offset: int)
    ensures CategoryPath(category, limit, offset)
         == "/expenses/category/" + EncodeUriComponent(category) + "?limit=" + IntToString(limit) + "&offset=" + IntToString(offset)
    ensures '/' !in EncodeUriComponent(category) && '?' !in EncodeUriComponent(category) && '#' !in EncodeUriComponent(category)
  {
    TwoIntegerQuery("limit", limit, "offset", offset);
    CategoryText(EncodeUriComponent(category), IntToString(limit), IntToString(offset),
                 QueryString([("limit", IntToString(limit)), ("offset", IntToString(offset))]));
    EncodedSegmentStaysInPlace(category);
  }

  /** The date-range query carries `start_date`, `end_date`, `limit`, `offset`, in that order. */
  lemma DateRangeParameterOrder(startIso: string, endIso: string, limit: int, offset: int)
    ensures var parts := Split(QueryString(DateRangeParams(startIso, endIso, limit, offset)), '&');
      parts == [Pair(("start_date", startIso)), Pair(("end_date", endIso)),
                Pair(("limit", IntToString(limit))), Pair(("offset", IntToString(offset)))]
  {
    FourPairsSplit(("start_date", startIso), ("end_date", endIso),
                   ("limit", IntToString(limit)), ("offset", IntToString(offset)));
  }

  /** Monthly statistics ask for `month` then `year`. */
  lemma MonthlyStatsPathShape(month: int, year: int)
    ensures MonthlyStatsPath(month, year) == "/expenses/stats/monthly?month=" + IntToString(month) + "&year=" + IntToString(year)
  {
    TwoIntegerQuery("month", month, "year", year);
    MonthlyStatsText(IntToString(month), IntToString(year),
                     QueryString([("month", IntToString(month)), ("year", IntToString(year))]));
  }

  /**
   * A 401 on a statistics fetch, mid-session, clears the token and surfaces `Unauthorized`;
   * the session is then no longer authenticated.
   */
  method UnauthorizedStatsFetch(store: SessionStore, baseUrl: string, month: int, year: int, nowMs: int, decode: SegmentDecoder)
    returns (r: Outcome<MonthlyStats>)
    modifies store
    ensures r == Failed(Unauthorized)
    ensures store.token == None && !store.IsAuthenticated(nowMs, decode)
  {
    r := GetMonthlyStats(store, baseUrl, _ => Some(HttpResponse(401, None)), month, year);
  }
}
