/** The HTTP middleware of the API (src/api/middleware.py): the API-key gate, the
    request metrics, the two error fallbacks and the request-id headers, and the
    stack `setup_middleware` assembles from them. A middleware is modelled as what
    it makes of the outcome of the layer inside it (`next`), which stands for
    `await call_next(request)`. */
module Middleware {
  import opened Common
  import Metrics

  /** What a response carries: whatever the route rendered, FastAPI's rendering of an
      `HTTPException`, or one of the JSON error bodies the middleware builds. */
  datatype Body =
    | RouteBody
    | DetailBody(detail: string)
    | ErrorBody(success: bool, message: string, error: string, requestId: Option<string>)

  datatype Response = Response(statusCode: int, body: Body, headers: map<string, string>)

  /** The parts of a request the middleware reads; the two headers are as
      `request.headers.get` returns them. */
  datatype Request = Request(httpMethod: string, path: string, authorization: Option<string>, xApiKey: Option<string>)

  const InternalError := "内部服务器错误"
  const Unexpected := "服务器处理请求时发生错误"
  const Unauthorized := "未授权访问"
  const InvalidKey := "无效的API密钥"
  const BearerPrefix := "Bearer "
  const RequestIdHeader := "X-Request-ID"
  const ProcessTimeHeader := "X-Process-Time"

  // ---------------------------------------------------------------- SecurityMiddleware

  /** Paths served without a key. */
  const PublicPaths: set<string> := {"/", "/docs", "/redoc", "/openapi.json", "/system/health", "/system/version"}

  /** `if self.api_key:` — a key is configured and not empty. */
  predicate KeyConfigured(apiKey: Option<string>) {
    apiKey.Some? && apiKey.value != []
  }

  /** `provided_key`: the text after "Bearer " when the Authorization header starts
      with it, else a non-empty X-API-Key header, else nothing. */
  function ProvidedKey(req: Request): (k: Option<string>)
    ensures req.authorization.Some? && StartsWith(req.authorization.value, BearerPrefix) ==>
      k == Some(req.authorization.value[|BearerPrefix|..])
    ensures !(req.authorization.Some? && StartsWith(req.authorization.value, BearerPrefix)) ==>
      k == (if req.xApiKey.Some? && req.xApiKey.value != [] then req.xApiKey else None)
  {
    if req.authorization.Some? && req.authorization.value != [] && StartsWith(req.authorization.value, BearerPrefix) then
      Some(req.authorization.value[|BearerPrefix|..])
    else if req.xApiKey.Some? && req.xApiKey.value != [] then req.xApiKey
    else None
  }

  /** The gate's decision: a public path, no configured key, or exactly the configured key. */
  predicate Admits(apiKey: Option<string>, req: Request) {
    req.path in PublicPaths || !KeyConfigured(apiKey) || ProvidedKey(req) == Some(apiKey.value)
  }

  const UnauthorizedResponse := Response(401, ErrorBody(false, Unauthorized, InvalidKey, None), map[])

  /** `SecurityMiddleware.dispatch`: the layer inside runs only for an admitted request. */
  function SecurityDispatch(apiKey: Option<string>, req: Request, next: Outcome<Response>): (r: Outcome<Response>)
    ensures Admits(apiKey, req) ==> r == next
    ensures !Admits(apiKey, req) ==> r == Ok(UnauthorizedResponse)
    ensures !Admits(apiKey, req) <==>
      && req.path !in PublicPaths && KeyConfigured(apiKey)
      && (ProvidedKey(req).None? || ProvidedKey(req).value == [] || ProvidedKey(req).value != apiKey.value)
  {
    if req.path in PublicPaths then next
    else if KeyConfigured(apiKey) then
      var provided := ProvidedKey(req);
      if provided.None? || provided.value == [] || provided.value != apiKey.value then Ok(UnauthorizedResponse)
      else next
    else next
  }

  /** A bearer token decides on its own: it is accepted exactly when it is the key,
      whatever the X-API-Key header holds. */
  lemma BearerDecides(apiKey: Option<string>, req: Request, token: string)
    requires KeyConfigured(apiKey) && req.path !in PublicPaths
    requires req.authorization == Some(BearerPrefix + token)
    ensures Admits(apiKey, req) <==> token == apiKey.value
  {
    var auth := BearerPrefix + token;
    assert auth[..|BearerPrefix|] == BearerPrefix;
    assert auth[|BearerPrefix|..] == token;
  }

  /** An Authorization header that is not a bearer token is ignored: the decision is
      the one taken without it. */
  lemma OtherAuthorizationIgnored(apiKey: Option<string>, req: Request)
    requires req.authorization.Some? && !StartsWith(req.authorization.value, BearerPrefix)
    ensures Admits(apiKey, req) <==> Admits(apiKey, req.(authorization := None))
  {
  }

  /** "Bearer " with nothing after it is refused even when X-API-Key holds the key. */
  lemma EmptyBearerShadowsKeyHeader(apiKey: Option<string>, req: Request)
    requires KeyConfigured(apiKey) && req.path !in PublicPaths
    requires req.authorization == Some(BearerPrefix) && req.xApiKey == apiKey
    ensures !Admits(apiKey, req)
  {
    assert BearerPrefix + [] == BearerPrefix;
    BearerDecides(apiKey, req, []);
  }

  // ---------------------------------------------------------------- MetricsMiddleware

  /** The status label of a response: below 400 a success, below 500 a client error,
      otherwise a server error. */
  function RequestStatus(code: int): (s: string)
    ensures s == "success" <==> code < 400
    ensures s == "client_error" <==> 400 <= code < 500
    ensures s == "server_error" <==> 500 <= code
  {
    if code < 400 then "success" else if code < 500 then "client_error" else "server_error"
  }

  /** The label recorded for what the inner layer did: "error" when it raised. */
  function OutcomeStatus(next: Outcome<Response>): (s: string)
    ensures s == "error" <==> next.Raise?
  {
    if next.Ok? then RequestStatus(next.value.statusCode) else "error"
  }

  /** `MetricsMiddleware.dispatch`: counts the request under its path, method and
      status, observes its duration, and hands back what the inner layer did. */
  method MetricsDispatch(collector: Metrics.MetricsCollector, req: Request, duration: real, next: Outcome<Response>)
    returns (r: Outcome<Response>)
    modifies collector
    ensures r == next
    ensures var key := (req.path, req.httpMethod, OutcomeStatus(next));
      collector.requestCount
        == old(collector.requestCount)[key := (if key in old(collector.requestCount) then old(collector.requestCount)[key] else 0) + 1]
    ensures collector.requestDurations == old(collector.requestDurations) + [(req.path, req.httpMethod, duration)]
    ensures collector.Snapshot() == old(collector.Snapshot()).(
              requestCount := collector.requestCount, requestDurations := collector.requestDurations)
  {
    var status;
    if next.Ok? {
      var code := next.value.statusCode;
      if code < 400 {
        status := "success";
      } else if code < 500 {
        status := "client_error";
      } else {
        status := "server_error";
      }
    } else {
      status := "error";
    }
    collector.RecordRequest(req.path, req.httpMethod, status, duration);
    r := next;
  }

  // ---------------------------------------------------------------- ErrorHandlingMiddleware

  /** `ErrorHandlingMiddleware.dispatch`: an `HTTPException` passes through, any other
      exception becomes a 500 with the request id found on the request (or "unknown"). */
  function ErrorDispatch(stateRequestId: Option<string>, next: Outcome<Response>): (r: Outcome<Response>)
    ensures r.Raise? <==> next.Raise? && next.exc.HTTPException?
    ensures r.Raise? || next.Ok? ==> r == next
    ensures next.Raise? && !next.exc.HTTPException? ==>
      r == Ok(Response(500, ErrorBody(false, InternalError, Unexpected,
                                      Some(if stateRequestId.Some? then stateRequestId.value else "unknown")), map[]))
  {
    match next
    case Ok(_) => next
    case Raise(e) =>
      if e.HTTPException? then next
      else Ok(Response(500, ErrorBody(false, InternalError, Unexpected,
                                      Some(if stateRequestId.Some? then stateRequestId.value else "unknown")), map[]))
  }

  // ---------------------------------------------------------------- RequestLoggingMiddleware

  /** `RequestLoggingMiddleware.dispatch` with its request id and formatted processing
      time: the inner response gains the two tracing headers; an exception becomes a
      500 carrying its text and the same headers. It never raises. */
  function LoggingDispatch(requestId: string, processTime: string, next: Outcome<Response>): (r: Response)
    ensures RequestIdHeader in r.headers && r.headers[RequestIdHeader] == requestId
    ensures ProcessTimeHeader in r.headers && r.headers[ProcessTimeHeader] == processTime
    ensures next.Ok? ==>
      && r.statusCode == next.value.statusCode && r.body == next.value.body
      && forall h :: h in next.value.headers && h != RequestIdHeader && h != ProcessTimeHeader ==>
           h in r.headers && r.headers[h] == next.value.headers[h]
    ensures next.Raise? ==>
      r == Response(500, ErrorBody(false, InternalError, next.exc.Text(), Some(requestId)),
                    map[RequestIdHeader := requestId, ProcessTimeHeader := processTime])
  {
    match next
    case Ok(resp) => resp.(headers := resp.headers[RequestIdHeader := requestId][ProcessTimeHeader := processTime])
    case Raise(e) =>
      Response(500, ErrorBody(false, InternalError, e.Text(), Some(requestId)),
               map[RequestIdHeader := requestId, ProcessTimeHeader := processTime])
  }

  // ---------------------------------------------------------------- the stack

  /** What the router hands the innermost middleware: FastAPI renders an
      `HTTPException` raised by a route as a response; anything else propagates. */
  function Routed(route: Outcome<Response>): (r: Outcome<Response>)
    ensures r.Raise? <==> route.Raise? && !route.exc.HTTPException?
    ensures route.Raise? && route.exc.HTTPException? ==>
      r == Ok(Response(route.exc.status, DetailBody(route.exc.detail), map[]))
  {
    if route.Raise? && route.exc.HTTPException? then Ok(Response(route.exc.status, DetailBody(route.exc.detail), map[]))
    else route
  }

  /** `add_middleware` puts each new middleware outside the ones added before it, so
      `setup_middleware` builds, from the outside in: CORS, request logging, metrics,
      security, error handling, then the router. `Inner` is what the metrics layer
      sees; the logging layer has already set the request id on the request. */
  function Inner(apiKey: Option<string>, req: Request, requestId: string, route: Outcome<Response>): Outcome<Response> {
    SecurityDispatch(apiKey, req, ErrorDispatch(Some(requestId), Routed(route)))
  }

  function Stack(apiKey: Option<string>, req: Request, requestId: string, processTime: string, route: Outcome<Response>)
    : Response
  {
    LoggingDispatch(requestId, processTime, Inner(apiKey, req, requestId, route))
  }

  /** Below the metrics layer nothing raises: a refused request is a 401, a route's
      `HTTPException` a response, and any other failure the error handler's 500. So
      the metrics layer never records "error" and the logging fallback never runs. */
  lemma InnerNeverRaises(apiKey: Option<string>, req: Request, requestId: string, route: Outcome<Response>)
    ensures Inner(apiKey, req, requestId, route).Ok?
    ensures OutcomeStatus(Inner(apiKey, req, requestId, route)) != "error"
  {
  }

  /** An admitted request whose route fails with anything but an `HTTPException` is
      answered with the error handler's 500, naming the request, and is counted as a
      server error. */
  lemma RouteFailureAnswered(apiKey: Option<string>, req: Request, requestId: string, processTime: string, e: Exc)
    requires Admits(apiKey, req) && !e.HTTPException?
    ensures var resp := Stack(apiKey, req, requestId, processTime, Raise(e));
      && resp.statusCode == 500 && resp.body == ErrorBody(false, InternalError, Unexpected, Some(requestId))
      && resp.headers[RequestIdHeader] == requestId
    ensures OutcomeStatus(Inner(apiKey, req, requestId, Raise(e))) == "server_error"
  {
  }

  /** A refused request never reaches the route, is answered 401 and counted as a
      client error. */
  lemma RefusedRequestAnswered(apiKey: Option<string>, req: Request, requestId: string, processTime: string,
                               route: Outcome<Response>)
    requires !Admits(apiKey, req)
    ensures var resp := Stack(apiKey, req, requestId, processTime, route);
      && resp.statusCode == 401 && resp.body == UnauthorizedResponse.body
      && resp == Stack(apiKey, req, requestId, processTime, Ok(Response(200, RouteBody, map[])))
    ensures OutcomeStatus(Inner(apiKey, req, requestId, route)) == "client_error"
  {
  }

  /** One request through the stack: the response `Stack` describes, and one more
      count under the label of what the layers below metrics made of it. */
  method Handle(collector: Metrics.MetricsCollector, apiKey: Option<string>, req: Request,
                requestId: string, processTime: string, duration: real, route: Outcome<Response>)
    returns (resp: Response)
    modifies collector
    ensures resp == Stack(apiKey, req, requestId, processTime, route)
    ensures var key := (req.path, req.httpMethod, OutcomeStatus(Inner(apiKey, req, requestId, route)));
      collector.requestCount
        == old(collector.requestCount)[key := (if key in old(collector.requestCount) then old(collector.requestCount)[key] else 0) + 1]
    ensures collector.requestDurations == old(collector.requestDurations) + [(req.path, req.httpMethod, duration)]
    ensures collector.Snapshot() == old(collector.Snapshot()).(
              requestCount := collector.requestCount, requestDurations := collector.requestDurations)
  {
    var handled := ErrorDispatch(Some(requestId), Routed(route));
    var secured := SecurityDispatch(apiKey, req, handled);
    var measured := MetricsDispatch(collector, req, duration, secured);
    resp := LoggingDispatch(requestId, processTime, measured);
  }
}
