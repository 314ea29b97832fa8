/**
 * The HTTP layer of backend/internal/transport/http.go with the
 * `ResponseWriter` stripped away: every handler maps a request (and the
 * service state) to the response it writes (status, headers, body).
 * JSON decoding and encoding are library code: a request body is given as
 * the outcome of decoding it, a response body as the value encoded.
 */
module Transport {
  import opened GoInt
  import Service

  const PathGetRandomNumber: string := "/GetRandomNumber"
  const PathGetRandomQuote: string := "/GetRandomQuote"
  const PathHealth: string := "/healthz"

  const MethodGet: string := "GET"
  const MethodHead: string := "HEAD"
  const MethodPost: string := "POST"
  const MethodOptions: string := "OPTIONS"

  /** What `json.NewDecoder(r.Body).Decode(&in)` made of the body of a number request. */
  datatype Payload = Undecodable | RangeJson(min: int64, max: int64)

  datatype Request = Request(verb: string, path: string, payload: Payload)

  /** The value a response body encodes, or no body at all. */
  datatype Body =
    | NoBody
    | ErrorJson(error: string)     // ErrorResponse
    | ValueJson(value: int64)      // GetRandomNumberResponse
    | QuoteJson(quote: string)     // GetRandomQuoteResponse
    | NotFoundPage                 // the library ServeMux's answer to an unknown path
  {
    predicate IsJson() {
      ErrorJson? || ValueJson? || QuoteJson?
    }
  }

  /**
   * What the client receives: a written response, or nothing at all when
   * the handler panicked and net/http aborted the connection.
   */
  datatype Response = Response(status: nat, headers: map<string, string>, body: Body) | ConnectionAborted

  type Svc = Service.GeneratorService

  const JsonHeaders: map<string, string> := map["Content-Type" := "application/json"]

  const CorsHeaders: map<string, string> :=
    map["Access-Control-Allow-Origin" := "*",
        "Access-Control-Allow-Headers" := "*",
        "Access-Control-Allow-Methods" := "POST, OPTIONS"]

  /** `writeJSON`: Content-Type first, then the status, then the encoded value. */
  function WriteJson(status: nat, body: Body): (r: Response)
    ensures r.Response? && r.status == status && r.body == body
    ensures r.headers.Keys == {"Content-Type"} && r.headers["Content-Type"] == "application/json"
  {
    Response(status, JsonHeaders, body)
  }

  /** The 405 the two POST endpoints write: `Allow: POST`, no Content-Type and no body. */
  function PostOnly(): (r: Response)
    ensures r.Response? && r.status == 405 && r.body == NoBody
    ensures r.headers.Keys == {"Allow"} && r.headers["Allow"] == MethodPost
  {
    Response(405, map["Allow" := MethodPost], NoBody)
  }

  /** The connect error codes. */
  datatype Code =
    | Canceled | Unknown | InvalidArgument | DeadlineExceeded | NotFound
    | AlreadyExists | PermissionDenied | ResourceExhausted | FailedPrecondition
    | Aborted | OutOfRange | Unimplemented | Internal | Unavailable | DataLoss
    | Unauthenticated

  /** The errors the number handler's error branch distinguishes. */
  datatype HandlerError =
    | ServiceErr(e: Service.ServiceError)        // service.ErrInvalidArgument itself
    | ConnectErr(code: Code, message: string)    // any *connect.Error
    | PlainErr(text: string)                     // any other error

  /** The message an error shows: `ce.Message()` for a connect error, `err.Error()` otherwise. */
  function ErrorMessage(err: HandlerError): string {
    match err
    case ServiceErr(e) => Service.ErrorText(e)
    case ConnectErr(_, m) => m
    case PlainErr(t) => t
  }

  /**
   * The error branch of the number handler: the sentinel is wrapped as a
   * connect InvalidArgument error; InvalidArgument answers 400, every other
   * code and every non-connect error 500, each carrying the message.
   */
  function ErrorToResponse(err: HandlerError): (r: Response)
    ensures r.Response? && r.headers == JsonHeaders
    ensures r.body == ErrorJson(ErrorMessage(err))
    ensures r.status == 400 <==> err.ServiceErr? || (err.ConnectErr? && err.code == InvalidArgument)
    ensures r.status == 400 || r.status == 500
  {
    var wrapped := if err.ServiceErr? then ConnectErr(InvalidArgument, Service.ErrorText(err.e)) else err;
    if wrapped.ConnectErr? then
      if wrapped.code == InvalidArgument then WriteJson(400, ErrorJson(wrapped.message))
      else WriteJson(500, ErrorJson(wrapped.message))
    else WriteJson(500, ErrorJson(ErrorMessage(wrapped)))
  }

  /**
   * The `/GetRandomNumber` handler, on the service as written: a span of
   * 2^63 or more makes `Int63n` panic, and the connection is aborted.
   */
  function HandleNumber(req: Request, svc: Svc): (r: (Response, Svc))
    ensures r.1.quotes == svc.quotes
    ensures req.verb != MethodPost ==> r == (PostOnly(), svc)
    ensures req.verb == MethodPost && req.payload.Undecodable? ==>
              r == (WriteJson(400, ErrorJson("invalid JSON")), svc)
    ensures req.verb == MethodPost && req.payload.RangeJson? && req.payload.min > req.payload.max ==>
              r == (Response(400, JsonHeaders, ErrorJson("invalid argument")), svc)
    ensures req.verb == MethodPost && req.payload.RangeJson? && req.payload.min <= req.payload.max &&
            req.payload.max as int - req.payload.min as int + 1 < Two63 ==>
              r.0.Response? && r.0.status == 200 && r.0.headers == JsonHeaders && r.0.body.ValueJson? &&
              req.payload.min <= r.0.body.value <= req.payload.max
    ensures req.verb == MethodPost && req.payload.RangeJson? &&
            req.payload.max as int - req.payload.min as int + 1 >= Two63 ==>
              r == (ConnectionAborted, svc)
    ensures req.verb == MethodPost && req.payload.RangeJson? ==>
              r.1 == Service.GenerateNumber(svc, req.payload.min, req.payload.max).1
    ensures req.verb == MethodPost && req.payload.RangeJson? && r.0.Response? && r.0.status == 200 ==>
              r.0.body == ValueJson(Service.GenerateNumber(svc, req.payload.min, req.payload.max).0.value)
  {
    if req.verb != MethodPost then (PostOnly(), svc)
    else match req.payload
      case Undecodable => (WriteJson(400, ErrorJson("invalid JSON")), svc)
      case RangeJson(min, max) =>
        Service.GenerateNumberPanicsIff(svc, min, max);
        var (g, svc') := Service.GenerateNumber(svc, min, max);
        if g.Panic? then (ConnectionAborted, svc')
        else if g.err.Some? then (ErrorToResponse(ServiceErr(g.err.value)), svc')
        else (WriteJson(200, ValueJson(g.value)), svc')
  }

  /** The `/GetRandomQuote` handler: any POST gets 200 and the quote, even "". */
  function HandleQuote(req: Request, svc: Svc): (r: (Response, Svc))
    ensures r.1.quotes == svc.quotes
    ensures req.verb != MethodPost ==> r == (PostOnly(), svc)
    ensures req.verb == MethodPost ==>
              r.0.Response? && r.0.status == 200 && r.0.headers == JsonHeaders && r.0.body.QuoteJson? &&
              (if svc.quotes == [] then r.0.body.quote == "" else r.0.body.quote in svc.quotes)
    ensures req.verb == MethodPost ==>
              r == (WriteJson(200, QuoteJson(Service.RandomQuote(svc).0)), Service.RandomQuote(svc).1)
  {
    if req.verb != MethodPost then (PostOnly(), svc)
    else
      var (q, svc') := Service.RandomQuote(svc);
      (WriteJson(200, QuoteJson(q)), svc')
  }

  /** The `/healthz` handler: 204 for GET and HEAD, a bare 405 otherwise. */
  function HandleHealth(req: Request): (r: Response)
    ensures r.Response? && r.headers == map[] && r.body == NoBody
    ensures r.status == 204 <==> req.verb == MethodGet || req.verb == MethodHead
    ensures r.status == 204 || r.status == 405
  {
    if req.verb != MethodGet && req.verb != MethodHead then Response(405, map[], NoBody)
    else Response(204, map[], NoBody)
  }

  /** `NewMux`: the three exact paths; any other path gets the library's 404. */
  function Mux(req: Request, svc: Svc): (r: (Response, Svc))
    ensures r.1.quotes == svc.quotes
    ensures req.path == PathGetRandomNumber ==> r == HandleNumber(req, svc)
    ensures req.path == PathGetRandomQuote ==> r == HandleQuote(req, svc)
    ensures req.path == PathHealth ==> r == (HandleHealth(req), svc)
    ensures req.path !in {PathGetRandomNumber, PathGetRandomQuote, PathHealth} ==>
              r == (Response(404, map[], NotFoundPage), svc)
    ensures r.0.Response? && r.0.body.IsJson() ==> r.0.headers == JsonHeaders
    ensures r.0.Response? ==> r.0.headers.Keys <= {"Content-Type", "Allow"}
  {
    if req.path == PathGetRandomNumber then HandleNumber(req, svc)
    else if req.path == PathGetRandomQuote then HandleQuote(req, svc)
    else if req.path == PathHealth then (HandleHealth(req), svc)
    else (Response(404, map[], NotFoundPage), svc)
  }

  /**
   * `WithCORS` around any handler: the three CORS headers are set first;
   * OPTIONS is answered 204 at once, anything else goes to `next`, whose
   * headers are set on top of them (an aborted connection stays aborted).
   */
  function WithCors<S>(req: Request, state: S, next: (Request, S) -> (Response, S)): (r: (Response, S))
    ensures req.verb == MethodOptions ==> r == (Response(204, CorsHeaders, NoBody), state)
    ensures req.verb != MethodOptions ==>
              var (inner, state') := next(req, state);
              r == (if inner.ConnectionAborted? then ConnectionAborted
                    else Response(inner.status, CorsHeaders + inner.headers, inner.body), state')
  {
    if req.verb == MethodOptions then (Response(204, CorsHeaders, NoBody), state)
    else
      var (inner, state') := next(req, state);
      if inner.ConnectionAborted? then (ConnectionAborted, state')
      else (inner.(headers := CorsHeaders + inner.headers), state')
  }

  /** The server as main.go assembles it: WithCORS(Logging(mux)); Logging passes requests through. */
  function Serve(req: Request, svc: Svc): (r: (Response, Svc))
    ensures r.1.quotes == svc.quotes
  {
    WithCors(req, svc, Mux)
  }

  /** An OPTIONS request never reaches the mux, whatever its path. */
  lemma OptionsShortCircuits(req: Request, svc: Svc)
    requires req.verb == MethodOptions
    ensures Serve(req, svc) == (Response(204, CorsHeaders, NoBody), svc)
  {
  }

  /** Every response the server writes carries the three CORS headers. */
  lemma CorsOnEveryResponse(req: Request, svc: Svc, name: string)
    requires Serve(req, svc).0.Response?
    requires name in CorsHeaders
    ensures name in Serve(req, svc).0.headers
    ensures Serve(req, svc).0.headers[name] == CorsHeaders[name]
  {
  }

  /** Every response with a JSON body is labelled `Content-Type: application/json`. */
  lemma JsonBodiesAreLabelled(req: Request, svc: Svc)
    requires Serve(req, svc).0.Response? && Serve(req, svc).0.body.IsJson()
    ensures "Content-Type" in Serve(req, svc).0.headers
    ensures Serve(req, svc).0.headers["Content-Type"] == "application/json"
  {
  }

  /**
   * A number request rejected for its method or its body is answered
   * without consulting the service: the answer is the same whatever the
   * service state, and the state is left as it was.
   */
  lemma RejectedBeforeService(req: Request, svc1: Svc, svc2: Svc)
    requires req.path == PathGetRandomNumber
    requires req.verb != MethodOptions
    requires req.verb != MethodPost || req.payload.Undecodable?
    ensures Serve(req, svc1).0 == Serve(req, svc2).0
    ensures Serve(req, svc1).1 == svc1
    ensures Serve(req, svc1).0.Response?
    ensures Serve(req, svc1).0.status == (if req.verb != MethodPost then 405 else 400)
  {
  }

  /**
   * The server writes no response exactly for a decodable POST to
   * `/GetRandomNumber` whose span max - min + 1 reaches 2^63.
   */
  lemma AbortedIff(req: Request, svc: Svc)
    ensures Serve(req, svc).0.ConnectionAborted? <==>
              req.path == PathGetRandomNumber && req.verb == MethodPost && req.payload.RangeJson? &&
              req.payload.max as int - req.payload.min as int + 1 >= Two63
  {
  }
}
