# GeneratorService, modelled in Dafny

A model of a small web application with two features: a random integer in a
range the user types, and a random quote from a preset list. The backend is a
Go server: a generator service (`GenerateNumber`, `RandomQuote`) behind three
HTTP handlers (`/GetRandomNumber`, `/GetRandomQuote`, `/healthz`) wrapped in a
CORS middleware. The frontend is one React page: a client that POSTs to the two
endpoints and turns non-OK responses into errors, and two action cards, each
holding a result text, an error text and a loading flag.

Modules, one per component:

- `GoInt` — Go's `int64` and its two's-complement wrap-around.
- `Service` — backend/internal/service/generator.go. The `*rand.Rand` is an
  oracle stream (`Rng`): a draw reads the next raw value and advances a
  counter, so "no draw is made" means "the stream is unchanged".
- `Transport` — backend/internal/transport/http.go. Every handler is a pure
  function from a request (and the service state) to the response it writes.
- `JsText` — JavaScript's `trim` and `String(n)` of an integer, which the page uses.
- `Client` — `createClient` of frontend/app/page.tsx and its error rule.
- `Page` — the page's state: pure transitions on a `Card` value, the classes
  `NumberAction` and `QuoteAction` that perform them field by field, and the
  card invariant kept across every sequence of UI events.
- `EndToEnd` — the page's calls as the backend answers them.

Behaviour of the code worth knowing before reading the model:

- The page renders a card's result and its error independently
  (frontend/app/page.tsx:111-113 and 122-124). On invalid input,
  `onGenerateNumber` sets the error but does not clear an earlier result, so a
  direct call can leave both shown at once (`Page.InvalidInputKeepsResult`).
  Through the UI that path cannot be reached, because the Generate button is
  disabled whenever the gate fails (`Page.EnabledGeneratePassesGate`). So every
  sequence of UI events from page load leaves each card showing exactly one of
  result, error and note (`Page.UiRunsShowOneThing`).
- The page shows a non-OK body's text verbatim. The backend's 400 body for
  min > max is the JSON object `{"error": "invalid argument"}` (an undecodable
  body gets `{"error": "invalid JSON"}`), not the plain text
  "min must be <= max" that page.test.tsx mocks.
- backend/cmd/server/main_test.go calls functions that the current package
  does not define. It is used only as evidence of the intended behaviour.

## Model

| member | source | states |
|---|---|---|
| `GoInt.Wrap` | backend/internal/service/generator.go:37 | Go's int64 result of a mathematical value: unchanged in range, shifted by 2^64 just outside it |
| `GoInt.Sub` | backend/internal/service/generator.go:37 | Go's `a - b` on int64: the true difference when it fits, otherwise shifted by 2^64 |
| `GoInt.Add` | backend/internal/service/generator.go:37 | Go's `a + b` on int64: the true sum when it fits, otherwise shifted by 2^64 |
| `Service.ErrorText` | backend/internal/service/generator.go:11 | the sentinel's `Error()` text is "invalid argument" |
| `Service.Int63n` | backend/internal/service/generator.go:37 | panics exactly when the bound is not positive; otherwise one draw in [0, n), advancing the stream |
| `Service.DrawBound` | backend/internal/service/generator.go:37 | for min <= max, the bound `max-min+1` is the true span when below 2^63, and the span less 2^64 otherwise |
| `Service.DrawBoundExact` | backend/internal/service/generator.go:37 | for min < max the wrapped `max-min+1` is positive iff the true span is below 2^63, and then equals it |
| `Service.GenerateNumber` | backend/internal/service/generator.go:29-39 | as written: min > max gives (0, ErrInvalidArgument) and no draw; min == max gives min and no draw; a non-panicking draw lies in [min, max]; quotes never change |
| `Service.GenerateNumberPanicsIff` | backend/internal/service/generator.go:37 | the as-written operation panics iff max - min + 1 >= 2^63 |
| `Service.FullRangePanics` | backend/internal/service/generator.go:37 | min = -2^63, max = 2^63-1 panics although min <= max |
| `Service.GenerateNumberCorrected` | backend/internal/service/generator.go:29-39 | never panics; the same error and shortcut cases; for min < max exactly one draw and a value in [min, max] |
| `Service.CorrectedAgreesWhenNoPanic` | backend/internal/service/generator.go:30-39 | wherever the code as written returns, the corrected operation returns the same value and state |
| `Service.CorrectedReachesEveryValue` | backend/internal/service/generator.go:29 | every value of [min, max] is the result of some draw |
| `Service.RandomQuote` | backend/internal/service/generator.go:41-48 | empty list: "" and no draw; otherwise a member of the list and one draw; quotes never change |
| `Service.RandomQuoteReachesEveryQuote` | backend/internal/service/generator.go:46-47 | every quote of the list is the result of some draw |
| `Transport.WriteJson` | backend/internal/transport/http.go:92-96 | the given status and body, with exactly one header, Content-Type: application/json |
| `Transport.PostOnly` | backend/internal/transport/http.go:44-47 | the 405 the POST endpoints write: exactly one header, Allow: POST, and no body |
| `Transport.ErrorToResponse` | backend/internal/transport/http.go:55-69 | 400 iff the error is ErrInvalidArgument or a connect InvalidArgument error, 500 otherwise; JSON body carrying the error's message |
| `Transport.HandleNumber` | backend/internal/transport/http.go:43-72 | non-POST: 405 with Allow: POST and no service call; undecodable body: 400 "invalid JSON"; min > max: 400 "invalid argument"; a span below 2^63: 200 with a value in [min, max]; on every decodable POST the body carries the value `GenerateNumber` returned and the new service state is the one it left; a span of 2^63 or more: the service panics and the connection is aborted with the state unchanged |
| `Transport.HandleQuote` | backend/internal/transport/http.go:73-81 | non-POST: 405 with Allow: POST; any POST: 200 with exactly the quote `RandomQuote` returned and the stream it left, so a quote from the list, or "" when the list is empty |
| `Transport.HandleHealth` | backend/internal/transport/http.go:82-88 | 204 iff GET or HEAD, else 405; no headers and no body either way |
| `Transport.Mux` | backend/internal/transport/http.go:41-90 | each of the three exact paths goes to its handler, any other path gets the library's 404 (its headers left out) and the state unchanged; a JSON body always comes with Content-Type: application/json; the three routes set no header but Content-Type or Allow; no route changes the stored quotes |
| `Transport.WithCors` | backend/internal/transport/http.go:99-110 | OPTIONS: 204 with the three CORS headers, and `next` is not applied; otherwise `next`'s response and state, with its headers set over the CORS headers, and an aborted connection stays aborted |
| `Transport.Serve` | backend/cmd/server/main.go:22-23 | the assembled server leaves the stored quotes unchanged |
| `Transport.OptionsShortCircuits` | backend/internal/transport/http.go:104-107 | an OPTIONS request to any path is answered 204 without routing or touching the service |
| `Transport.CorsOnEveryResponse` | backend/internal/transport/http.go:101-103 | every response the server writes carries all three Access-Control headers with their values |
| `Transport.JsonBodiesAreLabelled` | backend/internal/transport/http.go:92-96 | every written response with a JSON body carries Content-Type: application/json |
| `Transport.AbortedIff` | backend/internal/transport/http.go:54 | the server writes no response exactly for a decodable POST to /GetRandomNumber whose span max - min + 1 is 2^63 or more |
| `Transport.RejectedBeforeService` | backend/internal/transport/http.go:44-53 | a number request rejected for its method (405) or body (400) gets the same answer whatever the service state, which is left unchanged |
| `JsText.TrimStart` | frontend/app/page.tsx:55 | the result is a suffix of the input; all that was dropped is whitespace; it does not start with whitespace |
| `JsText.TrimEnd` | frontend/app/page.tsx:55 | the result is a prefix of the input; all that was dropped is whitespace; it does not end with whitespace |
| `JsText.Trim` | frontend/app/page.tsx:55 | `trim()` is empty exactly when the string is whitespace only |
| `JsText.NatToString` | frontend/app/page.tsx:20 | a non-empty string of decimal digits with no leading zero |
| `JsText.ParseNatToString` | frontend/app/page.tsx:20 | reading the numeral back gives the number |
| `JsText.IntToString` | frontend/app/page.tsx:67 | `String(v)` of an integer: non-empty, a leading '-' exactly for negatives, digits after it |
| `JsText.IntToStringRoundTrip` | frontend/app/page.tsx:67 | `String(v)` of an integer reads back as v |
| `JsText.IntToStringInjective` | frontend/app/page.tsx:67 | two integers with the same displayed text are equal |
| `Client.ResolveBaseUrl` | frontend/app/page.tsx:40 | the configured URL when set and non-empty, otherwise http://localhost:8080; never empty |
| `Client.GetRandomNumberCall` | frontend/app/page.tsx:12-17 | POST to `<baseUrl>/GetRandomNumber`, content type application/json, body {min, max} of the request |
| `Client.GetRandomQuoteCall` | frontend/app/page.tsx:24-29 | POST to `<baseUrl>/GetRandomQuote`, content type application/json, body `{}` |
| `Client.HttpErrorMessage` | frontend/app/page.tsx:18-21 | the body text when non-empty, otherwise "HTTP " and the status; never empty |
| `Client.Settle` | frontend/app/page.tsx:12-35 | fulfils iff the response was OK, with its body; a non-OK response rejects with the non-empty HTTP error message; a thrown error keeps its message |
| `Page.IsNumeric` | frontend/app/page.tsx:55 | `!Number.isNaN(...)` holds exactly for a parse that is a number |
| `Page.CanGenerate` | frontend/app/page.tsx:53-55 | holds iff both inputs parse as numbers and neither is whitespace only |
| `Page.FailureMessage` | frontend/app/page.tsx:69 | the error's message when present and non-empty, otherwise "Request failed"; never empty |
| `Page.StartNumber` | frontend/app/page.tsx:57-64 | gate passes: both texts cleared and loading set; gate fails: the error is set and result and loading are kept |
| `Page.CompleteNumber` | frontend/app/page.tsx:65-72 | loading cleared; from a started request exactly one of result and error is set; success shows String(value) and keeps the error; failure shows exactly `e?.message || "Request failed"` and keeps the result |
| `Page.CompleteQuote` | frontend/app/page.tsx:79-86 | loading cleared; the quote is stored verbatim (possibly ""); success keeps the error; failure shows exactly `e?.message || "Request failed"` and keeps the result; from a started request at most one of result and error is set |
| `Page.GenerateDisabled` | frontend/app/page.tsx:108 | the Generate button is enabled exactly when the gate passes and no number request is in flight |
| `Page.QuoteDisabled` | frontend/app/page.tsx:120 | the Get Quote button is enabled exactly when no quote request is in flight |
| `Page.ShowsNote` | frontend/app/page.tsx:113 | the placeholder note is rendered exactly when neither a result nor an error is |
| `Page.Shown` | frontend/app/page.tsx:111-113 | a card always renders at least one of result, error and note, and two exactly when result and error are both set |
| `Page.EnabledGeneratePassesGate` | frontend/app/page.tsx:108 | a click on the enabled Generate button always passes the gate and starts a request |
| `Page.InvalidInputKeepsResult` | frontend/app/page.tsx:58-61 | invalid input after a success keeps the old result beside the new error, and the note is not shown |
| `Page.UiRunsShowOneThing` | frontend/app/page.tsx:111-124 | after any sequence of UI events from page load, each card renders exactly one of result, error and note, and only the note while loading |
| `Page.NumberCardStaysConsistent` | frontend/app/page.tsx:57-72 | over any sequence of clicks and settlements the number card keeps the invariant |
| `Page.QuoteCardStaysConsistent` | frontend/app/page.tsx:75-87 | over any sequence of clicks and settlements the quote card keeps the invariant |
| `Page.TestScenarios` | frontend/app/page.test.tsx:19-47 | value 7 shows "7"; quote "Test Quote" shows it; a failed response's text is the error shown |
| `Page.NumberAction.constructor` | frontend/app/page.tsx:45-47 | initial state: empty texts, not loading |
| `Page.NumberAction.Start` | frontend/app/page.tsx:57-64 | new state is `StartNumber` of the old; a request {min, max} is issued iff the gate passes |
| `Page.NumberAction.Complete` | frontend/app/page.tsx:65-72 | new state is `CompleteNumber` of the old; loading is false |
| `Page.QuoteAction.constructor` | frontend/app/page.tsx:49-51 | initial state: empty texts, not loading |
| `Page.QuoteAction.Start` | frontend/app/page.tsx:75-78 | no gate: both texts cleared and loading set, whatever the state before |
| `Page.QuoteAction.Complete` | frontend/app/page.tsx:79-86 | new state is `CompleteQuote` of the old; loading is false |
| `EndToEnd.NumberReply` | frontend/app/page.tsx:13-22 | an OK reply exactly for a written 2xx response with a number body, carrying that value; a non-OK reply exactly for a written non-2xx response, with its status; anything else throws |
| `EndToEnd.QuoteReply` | frontend/app/page.tsx:25-34 | an OK reply exactly for a written 2xx response with a quote body, carrying that quote; a non-OK reply exactly for a written non-2xx response, with its status; anything else throws |
| `EndToEnd.NumberRoundTrip` | backend/internal/transport/http.go:43-72 | a page request for lo <= hi with a span below 2^63 gets 200 and ends showing a value in [lo, hi] and no error; a span of 2^63 or more aborts the connection and ends showing the failure message and no result; lo > hi gets 400 and ends showing no result and the error `text || "HTTP 400"` built from the response text |
| `EndToEnd.UndecodableNumberRequest` | backend/internal/transport/http.go:49-53 | a number request whose body does not decode into two int64 values gets 400 "invalid JSON" without touching the service, and the card ends showing no result and the error `text || "HTTP 400"` built from the response text |
| `EndToEnd.QuoteRoundTrip` | backend/internal/transport/http.go:73-81 | a page quote request always gets a written 200, with the server's quote shown and no error |

## Findings

| source | as written | input that shows it | evidently intended | confidence | as-written member | corrected member |
|---|---|---|---|---|---|---|
| backend/internal/service/generator.go:37 | `Int63n(max-min+1)` computes its bound in wrapping int64, and Int63n panics for a bound <= 0 | min = -9223372036854775808, max = 9223372036854775807 (any span of 2^63 or more) | an integer in [min, max] for every min <= max, as the doc comment at line 29 says | not executed | `Service.FullRangePanics` | `Service.GenerateNumberCorrected` |

The transport model builds the handler on `Service.GenerateNumber` as written: a panic there aborts the connection (`Transport.AbortedIff`), and the page then shows its failure message (`EndToEnd.NumberRoundTrip`).
`Service.GenerateNumberPanicsIff` gives the exact set of inputs that panic.
`Service.CorrectedAgreesWhenNoPanic` shows the corrected operation changes nothing on any other input.

## Left out

- Service.Int63n: the distribution of `math/rand` draws is not modelled. A draw is an oracle value reduced modulo the bound, and one call counts as one draw. Int63n's rejection sampling may read several source values.
- A handler panic is modelled as `net/http` handles it: the connection is aborted and nothing is written. The server's recovery log line is left out, as is the message the browser gives the failed `fetch`, which is a parameter (`failure`).
- Transport.Serve: requests are modelled one at a time, each passing the service state on to the next. `net/http` runs each connection's handler in its own goroutine and all of them share the one `*rand.Rand` (backend/internal/service/generator.go:24), which `math/rand` does not make safe for concurrent use; that race is not modelled.
- EndToEnd.NumberReply, EndToEnd.QuoteReply: a 2xx response whose body is not the expected JSON is treated as a thrown error. The server never sends one on these paths, and the page's unchecked `as` cast of some other JSON value is not modelled.
- JSON decoding and encoding are library code. A request body is given as its decoded result (`Payload`). A response body is the value it encodes, not its bytes.
- Transport.Mux: details of the library `ServeMux` are left out: its 404 page's text and headers (`Content-Type: text/plain; charset=utf-8`, `X-Content-Type-Options: nosniff`), path cleaning and redirects. Headers added automatically (Content-Length, Date) are left out too.
- The `Logging` middleware does nothing observable and is treated as passing requests through. `ListenAndServe` and the literal quote list in main.go are outside the model.
- `fetch`, `res.json()` and `res.text()` are left out. A call's reply is given as an OK body, a non-OK status with its text, or a thrown error's message.
- `Number()` parsing and NaN are not modelled. The caller supplies each input's parse as a `JsNumber`. JavaScript numbers are floating point; `String(v)` is modelled for integers only, without the exponent form above 10^21.
- EndToEnd.NumberRoundTrip: the value shown is `String` of the server's int64 exactly. In the page, `res.json()` (frontend/app/page.tsx:22) parses it into a floating-point number first, so values beyond 2^53 in magnitude may be shown rounded; the lemma is exact only below that.
- EndToEnd.NumberRoundTrip: the JSON encoding of the page's two numbers and Go's decoding of them are not modelled, so nothing ties `minNum`/`maxNum` to the decoded `lo`/`hi`; the decoded pair is a parameter. The server is assumed to see exactly the call's path, i.e. a base URL with no path and no trailing slash.
- The input fields' `onChange` updates are not modelled. The handler receives the current texts and their parses.
- React rendering, JSX, CSS, `useMemo`/`useState` batching, the footer text, frontend/app/layout.tsx and the jest configuration are left out.
- Out-of-order completion of concurrent requests is left out. In the event model a settlement only exists while a request is outstanding. The class methods accept any order.
- A thrown value whose `message` is a truthy non-string is folded into "has a message".
