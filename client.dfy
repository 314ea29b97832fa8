/**
 * `createClient` of frontend/app/page.tsx: two POST calls, and the one
 * rule by which a non-OK response becomes a rejected call. The network
 * (`fetch`, `res.json()`, `res.text()`) is abstract: a call is described by
 * what it sends, and its reply is given as what came back.
 */
module Client {
  import opened Wrappers
  import JsText

  const DefaultBaseUrl: string := "http://localhost:8080"

  /** `process.env.NEXT_PUBLIC_BACKEND_URL || "http://localhost:8080"`. */
  function ResolveBaseUrl(env: Option<string>): (url: string)
    ensures url != ""
    ensures env.Some? && env.value != "" ==> url == env.value
    ensures env.None? || env.value == "" ==> url == DefaultBaseUrl
  {
    if env.Some? && env.value != "" then env.value else DefaultBaseUrl
  }

  /** What `Number(text)` gives; the parse itself is not modelled. */
  datatype JsNumber = NaN | Num(value: real)

  datatype NumberRequest = NumberRequest(min: JsNumber, max: JsNumber)
  datatype NumberResponse = NumberResponse(value: int)
  datatype QuoteResponse = QuoteResponse(quote: string)

  /** The JSON body a call sends. */
  datatype JsonBody = RangeBody(min: JsNumber, max: JsNumber) | EmptyObject

  /** One `fetch`: the base URL, the endpoint path, the method, the content type and the body. */
  datatype Call = Call(baseUrl: string, path: string, verb: string, contentType: string, body: JsonBody) {
    function Url(): string {
      baseUrl + path
    }
  }

  /** `getRandomNumber(req)`: POST `{min, max}` to `<baseUrl>/GetRandomNumber`. */
  function GetRandomNumberCall(baseUrl: string, req: NumberRequest): (c: Call)
    ensures c.Url() == baseUrl + "/GetRandomNumber" && c.baseUrl == baseUrl
    ensures c.verb == "POST" && c.contentType == "application/json"
    ensures c.body == RangeBody(req.min, req.max)
  {
    Call(baseUrl, "/GetRandomNumber", "POST", "application/json", RangeBody(req.min, req.max))
  }

  /** `getRandomQuote({})`: POST `{}` to `<baseUrl>/GetRandomQuote`. */
  function GetRandomQuoteCall(baseUrl: string): (c: Call)
    ensures c.Url() == baseUrl + "/GetRandomQuote" && c.baseUrl == baseUrl
    ensures c.verb == "POST" && c.contentType == "application/json"
    ensures c.body == EmptyObject
  {
    Call(baseUrl, "/GetRandomQuote", "POST", "application/json", EmptyObject)
  }

  /**
   * What came back from a call: an OK response whose JSON was read, a
   * non-OK response with its status and body text, or a rejection
   * (`fetch` or `res.json()` threw) carrying the thrown value's message,
   * if it had one.
   */
  datatype Reply<T> = Ok(body: T) | NotOk(status: nat, text: string) | Threw(message: Option<string>)

  /** What the client's promise settles to. */
  datatype Settled<T> = Fulfilled(value: T) | Rejected(message: Option<string>)

  /** The message of the error thrown for a non-OK response: `text || \`HTTP ${res.status}\``. */
  function HttpErrorMessage(status: nat, text: string): (m: string)
    ensures m != ""
    ensures text != "" ==> m == text
    ensures text == "" ==> m == "HTTP " + JsText.NatToString(status)
  {
    if text != "" then text else "HTTP " + JsText.NatToString(status)
  }

  /** A call's reply, normalised: OK bodies fulfil, everything else rejects. */
  function Settle<T>(reply: Reply<T>): (r: Settled<T>)
    ensures r.Fulfilled? <==> reply.Ok?
    ensures reply.Ok? ==> r.value == reply.body
    ensures reply.NotOk? ==> r.message == Some(HttpErrorMessage(reply.status, reply.text))
    ensures reply.Threw? ==> r.message == reply.message
  {
    match reply
    case Ok(b) => Fulfilled(b)
    case NotOk(status, text) => Rejected(Some(HttpErrorMessage(status, text)))
    case Threw(m) => Rejected(m)
  }
}
