/**
 * The page's client calls as the backend server answers them. The wire is
 * abstract: a 2xx response with the expected JSON body reaches the page as
 * its value, a non-2xx response as its status and some body text, and an
 * aborted connection or a 2xx body of the wrong shape as a thrown error
 * whose message (`failure`) the browser chooses.
 */
module EndToEnd {
  import opened Wrappers
  import opened GoInt
  import JsText
  import Service
  import Transport
  import opened Client
  import opened Page

  /**
   * The backend request a client call becomes, with the outcome of decoding
   * its body. The server sees exactly the call's path: this assumes a base
   * URL naming a host with no path and no trailing slash (a trailing slash
   * would give `//GetRandomNumber`, which the library mux redirects).
   */
  function ToBackend(c: Call, payload: Transport.Payload): Transport.Request {
    Transport.Request(c.verb, c.path, payload)
  }

  /** How a backend response to a number call reaches the client. */
  function NumberReply(resp: Transport.Response, text: string, failure: Option<string>): (r: Reply<NumberResponse>)
    ensures r.Ok? <==> resp.Response? && 200 <= resp.status < 300 && resp.body.ValueJson?
    ensures r.Ok? ==> r.body.value == resp.body.value as int
    ensures r.NotOk? <==> resp.Response? && !(200 <= resp.status < 300)
    ensures r.NotOk? ==> r.status == resp.status && r.text == text
    ensures r.Threw? ==> r.message == failure
  {
    if resp.ConnectionAborted? then Threw(failure)
    else if !(200 <= resp.status < 300) then NotOk(resp.status, text)
    else if resp.body.ValueJson? then Ok(NumberResponse(resp.body.value as int))
    else Threw(failure)
  }

  /** How a backend response to a quote call reaches the client. */
  function QuoteReply(resp: Transport.Response, text: string, failure: Option<string>): (r: Reply<QuoteResponse>)
    ensures r.Ok? <==> resp.Response? && 200 <= resp.status < 300 && resp.body.QuoteJson?
    ensures r.Ok? ==> r.body.quote == resp.body.quote
    ensures r.NotOk? <==> resp.Response? && !(200 <= resp.status < 300)
    ensures r.NotOk? ==> r.status == resp.status && r.text == text
    ensures r.Threw? ==> r.message == failure
  {
    if resp.ConnectionAborted? then Threw(failure)
    else if !(200 <= resp.status < 300) then NotOk(resp.status, text)
    else if resp.body.QuoteJson? then Ok(QuoteResponse(resp.body.quote))
    else Threw(failure)
  }

  /**
   * A number request the page issues for inputs whose JSON numbers Go
   * decodes into int64 values lo and hi (the encoding of `minNum`/`maxNum`
   * and Go's decoding of it are library code, so the decoded pair is given):
   * for lo <= hi with a span below 2^63 the card ends showing a value of
   * [lo, hi] and no error; for a span of 2^63 or more the server panics, the
   * connection is aborted and the card ends showing an error and no result;
   * for lo > hi the server answers 400 and the card ends showing an error
   * and no result.
   */
  lemma NumberRoundTrip(baseUrl: string, c: Card, svc: Service.GeneratorService,
                        minNum: JsNumber, maxNum: JsNumber, lo: int64, hi: int64,
                        text: string, failure: Option<string>)
    ensures
      var call := GetRandomNumberCall(baseUrl, NumberRequest(minNum, maxNum));
      var resp := Transport.Serve(ToBackend(call, Transport.RangeJson(lo, hi)), svc).0;
      var done := CompleteNumber(StartNumber(c, true), Settle(NumberReply(resp, text, failure)));
      !done.loading &&
      (lo <= hi && hi as int - lo as int + 1 < Two63 ==>
         resp.Response? && resp.status == 200 && resp.body.ValueJson? && lo <= resp.body.value <= hi &&
         done == Card(JsText.IntToString(resp.body.value as int), "", false)) &&
      (hi as int - lo as int + 1 >= Two63 ==>
         resp.ConnectionAborted? && done == Card("", FailureMessage(failure), false)) &&
      (lo > hi ==> resp.Response? && resp.status == 400 && done.result == "" &&
                   done.error == HttpErrorMessage(400, text))
  {
  }

  /**
   * A number request whose body Go cannot decode into two int64 values
   * (the gate accepts "1.5", which is no int64) is answered 400 "invalid
   * JSON", and the card ends showing an error and no result.
   */
  lemma UndecodableNumberRequest(baseUrl: string, c: Card, svc: Service.GeneratorService,
                                 minNum: JsNumber, maxNum: JsNumber, text: string, failure: Option<string>)
    ensures
      var call := GetRandomNumberCall(baseUrl, NumberRequest(minNum, maxNum));
      var resp := Transport.Serve(ToBackend(call, Transport.Undecodable), svc);
      var done := CompleteNumber(StartNumber(c, true), Settle(NumberReply(resp.0, text, failure)));
      resp.1 == svc && resp.0.Response? && resp.0.status == 400 &&
      resp.0.body == Transport.ErrorJson("invalid JSON") &&
      done.result == "" && done.error == HttpErrorMessage(400, text) && !done.loading
  {
  }

  /** A quote request the page issues always ends with no error and the server's quote shown. */
  lemma QuoteRoundTrip(baseUrl: string, svc: Service.GeneratorService,
                       payload: Transport.Payload, text: string, failure: Option<string>)
    ensures
      var resp := Transport.Serve(ToBackend(GetRandomQuoteCall(baseUrl), payload), svc).0;
      var done := CompleteQuote(Pending, Settle(QuoteReply(resp, text, failure)));
      resp.Response? && resp.status == 200 && resp.body.QuoteJson? &&
      done == Card(resp.body.quote, "", false) &&
      (svc.quotes != [] ==> done.result in svc.quotes)
  {
  }
}
