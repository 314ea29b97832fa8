/**
 * The interaction logic of the `Page` component in frontend/app/page.tsx.
 * Each action (number, quote) owns a card of state: result text, error
 * text and a loading flag. A handler runs in two steps around its awaited
 * client call: `Start` (up to the await) and `Complete` (the try / catch /
 * finally once the call settles). The pure transitions are stated as
 * functions on `Card`; the two classes perform them field by field.
 */
module Page {
  import opened Wrappers
  import JsText
  import opened Client

  const InvalidInputMessage: string := "Please enter valid numbers"
  const RequestFailedMessage: string := "Request failed"

  /** One action's state. */
  datatype Card = Card(result: string, error: string, loading: bool)

  /** The state on page load. */
  const Idle: Card := Card("", "", false)

  /** The state while a request is outstanding. */
  const Pending: Card := Card("", "", true)

  /** `!Number.isNaN(Number(text))`, on the parse of the text. */
  function IsNumeric(n: JsNumber): (r: bool)
    ensures r <==> n.Num?
  {
    !n.NaN?
  }

  /** `canGenerate`: both inputs parse as numbers and neither is blank. */
  function CanGenerate(min: string, max: string, minNum: JsNumber, maxNum: JsNumber): (ok: bool)
    ensures ok <==> IsNumeric(minNum) && IsNumeric(maxNum) && !JsText.Blank(min) && !JsText.Blank(max)
  {
    IsNumeric(minNum) && IsNumeric(maxNum) && JsText.Trim(min) != "" && JsText.Trim(max) != ""
  }

  /** `e?.message || "Request failed"`: never empty. */
  function FailureMessage(message: Option<string>): (m: string)
    ensures m != ""
    ensures message.Some? && message.value != "" ==> m == message.value
    ensures message.None? || message.value == "" ==> m == RequestFailedMessage
  {
    if message.Some? && message.value != "" then message.value else RequestFailedMessage
  }

  /**
   * `onGenerateNumber` up to its await. Invalid input sets the error and
   * touches nothing else (the prior result stays); valid input clears both
   * texts and sets loading.
   */
  function StartNumber(c: Card, canGenerate: bool): (c': Card)
    ensures canGenerate ==> c' == Pending
    ensures !canGenerate ==> c' == Card(c.result, InvalidInputMessage, c.loading)
  {
    if !canGenerate then c.(error := InvalidInputMessage) else Pending
  }

  /**
   * `onGenerateNumber` once the call settles: loading is cleared; from the
   * pending state exactly one of result and error is set; success shows
   * `String(value)` and keeps the error, failure shows a non-empty message
   * and keeps the result.
   */
  function CompleteNumber(c: Card, outcome: Settled<NumberResponse>): (c': Card)
    ensures !c'.loading
    ensures c.result == "" && c.error == "" ==> (c'.result != "" <==> c'.error == "")
    ensures outcome.Fulfilled? ==> c'.result == JsText.IntToString(outcome.value.value) && c'.error == c.error
    ensures outcome.Rejected? ==> c'.error == FailureMessage(outcome.message) && c'.result == c.result
  {
    match outcome
    case Fulfilled(res) => c.(result := JsText.IntToString(res.value), loading := false)
    case Rejected(m) => c.(error := FailureMessage(m), loading := false)
  }

  /**
   * `onGetQuote` once the call settles: loading is cleared; the quote is
   * stored verbatim, even "", so from the pending state at most one of
   * result and error is set.
   */
  function CompleteQuote(c: Card, outcome: Settled<QuoteResponse>): (c': Card)
    ensures !c'.loading
    ensures c.result == "" && c.error == "" ==> c'.result == "" || c'.error == ""
    ensures outcome.Fulfilled? ==> c'.result == outcome.value.quote && c'.error == c.error
    ensures outcome.Rejected? ==> c'.error == FailureMessage(outcome.message) && c'.result == c.result
  {
    match outcome
    case Fulfilled(res) => c.(result := res.quote, loading := false)
    case Rejected(m) => c.(error := FailureMessage(m), loading := false)
  }

  /** The Generate button's `disabled`: enabled only for valid input with nothing in flight. */
  function GenerateDisabled(canGenerate: bool, loading: bool): (disabled: bool)
    ensures !disabled <==> canGenerate && !loading
  {
    !canGenerate || loading
  }

  /** The Get Quote button's `disabled`: enabled whenever no quote request is in flight. */
  function QuoteDisabled(loading: bool): (disabled: bool)
    ensures !disabled <==> !loading
  {
    loading
  }

  /** The card's placeholder note is rendered: neither a result nor an error is. */
  function ShowsNote(c: Card): (shown: bool)
    ensures shown <==> c.result == "" && c.error == ""
  {
    c.result == "" && c.error == ""
  }

  /** How many of the card's three blocks (result, error, note) are rendered. */
  function Shown(c: Card): (n: nat)
    ensures 1 <= n <= 2
    ensures n == 2 <==> c.result != "" && c.error != ""
  {
    (if c.result != "" then 1 else 0) + (if c.error != "" then 1 else 0) + (if ShowsNote(c) then 1 else 0)
  }

  /** A click on an enabled Generate button always passes the gate and issues a request. */
  lemma EnabledGeneratePassesGate(c: Card, min: string, max: string, minNum: JsNumber, maxNum: JsNumber)
    requires !GenerateDisabled(CanGenerate(min, max, minNum, maxNum), c.loading)
    ensures StartNumber(c, CanGenerate(min, max, minNum, maxNum)) == Pending
    ensures !JsText.Blank(min) && !JsText.Blank(max)
  {
  }

  /** Called directly on invalid input after a success, the handler leaves result and error both set. */
  lemma InvalidInputKeepsResult()
    ensures StartNumber(Card("7", "", false), false) == Card("7", InvalidInputMessage, false)
    ensures !ShowsNote(StartNumber(Card("7", "", false), false))
  {
  }

  /** What the user does to a card, and what the network does back. */
  datatype NumberEvent =
    | ClickGenerate(min: string, max: string, minNum: JsNumber, maxNum: JsNumber)
    | NumberSettles(outcome: Settled<NumberResponse>)

  datatype QuoteEvent = ClickQuote | QuoteSettles(outcome: Settled<QuoteResponse>)

  /**
   * One event on the number card. A click on a disabled button does
   * nothing; a settlement only exists while a request is outstanding.
   */
  function OnNumberEvent(c: Card, e: NumberEvent): Card {
    match e
    case ClickGenerate(min, max, minNum, maxNum) =>
      var gate := CanGenerate(min, max, minNum, maxNum);
      if GenerateDisabled(gate, c.loading) then c else StartNumber(c, gate)
    case NumberSettles(outcome) =>
      if c.loading then CompleteNumber(c, outcome) else c
  }

  function OnQuoteEvent(c: Card, e: QuoteEvent): Card {
    match e
    case ClickQuote => if QuoteDisabled(c.loading) then c else Pending
    case QuoteSettles(outcome) => if c.loading then CompleteQuote(c, outcome) else c
  }

  function RunNumber(c: Card, events: seq<NumberEvent>): Card
    decreases |events|
  {
    if events == [] then c else RunNumber(OnNumberEvent(c, events[0]), events[1..])
  }

  function RunQuote(c: Card, events: seq<QuoteEvent>): Card
    decreases |events|
  {
    if events == [] then c else RunQuote(OnQuoteEvent(c, events[0]), events[1..])
  }

  /**
   * The card invariant: nothing is shown while loading, and result and
   * error are never both set.
   */
  ghost predicate Consistent(c: Card) {
    (c.loading ==> c.result == "" && c.error == "") && (c.result == "" || c.error == "")
  }

  /** Through the UI, the number card stays consistent from page load on. */
  lemma {:induction false} NumberCardStaysConsistent(c: Card, events: seq<NumberEvent>)
    requires Consistent(c)
    ensures Consistent(RunNumber(c, events))
    decreases |events|
  {
    if events != [] {
      NumberCardStaysConsistent(OnNumberEvent(c, events[0]), events[1..]);
    }
  }

  /** Through the UI, the quote card stays consistent from page load on. */
  lemma {:induction false} QuoteCardStaysConsistent(c: Card, events: seq<QuoteEvent>)
    requires Consistent(c)
    ensures Consistent(RunQuote(c, events))
    decreases |events|
  {
    if events != [] {
      QuoteCardStaysConsistent(OnQuoteEvent(c, events[0]), events[1..]);
    }
  }

  /**
   * Whatever the user clicks and however the calls settle, from page load
   * each card renders exactly one of its result, its error and its note,
   * and only the note while its request is in flight.
   */
  lemma UiRunsShowOneThing(numberEvents: seq<NumberEvent>, quoteEvents: seq<QuoteEvent>)
    ensures Shown(RunNumber(Idle, numberEvents)) == 1
    ensures RunNumber(Idle, numberEvents).loading ==> ShowsNote(RunNumber(Idle, numberEvents))
    ensures Shown(RunQuote(Idle, quoteEvents)) == 1
    ensures RunQuote(Idle, quoteEvents).loading ==> ShowsNote(RunQuote(Idle, quoteEvents))
  {
    NumberCardStaysConsistent(Idle, numberEvents);
    QuoteCardStaysConsistent(Idle, quoteEvents);
  }

  /** The three behaviours page.test.tsx renders: 7, "Test Quote", and a server's error text. */
  lemma TestScenarios()
    ensures CompleteNumber(StartNumber(Idle, true), Settle(Ok(NumberResponse(7)))).result == "7"
    ensures CompleteQuote(Pending, Settle(Ok(QuoteResponse("Test Quote")))).result == "Test Quote"
    ensures CompleteNumber(StartNumber(Idle, true), Settle(NotOk(400, "min must be <= max"))).error
            == "min must be <= max"
  {
  }

  /** The number action's state: `numberResult`, `numberError`, `loadingNumber`. */
  class NumberAction {
    var result: string
    var error: string
    var loading: bool

    function View(): Card
      reads this
    {
      Card(result, error, loading)
    }

    constructor ()
      ensures View() == Idle
    {
      result, error, loading := "", "", false;
    }

    /** `onGenerateNumber` up to its await; returns the request it issues, if any. */
    method Start(min: string, max: string, minNum: JsNumber, maxNum: JsNumber) returns (request: Option<NumberRequest>)
      modifies this
      ensures View() == StartNumber(old(View()), CanGenerate(min, max, minNum, maxNum))
      ensures request.Some? <==> CanGenerate(min, max, minNum, maxNum)
      ensures request.Some? ==> request.value == NumberRequest(minNum, maxNum)
    {
      if !CanGenerate(min, max, minNum, maxNum) {
        error := InvalidInputMessage;
        request := None;
        return;
      }
      error := "";
      result := "";
      loading := true;
      request := Some(NumberRequest(minNum, maxNum));
    }

    /** `onGenerateNumber` after its await: try, catch, finally. */
    method Complete(outcome: Settled<NumberResponse>)
      modifies this
      ensures View() == CompleteNumber(old(View()), outcome)
      ensures !loading
      ensures old(result) == "" && old(error) == "" ==> (result != "" <==> error == "")
    {
      match outcome {
        case Fulfilled(res) =>
          result := JsText.IntToString(res.value);
        case Rejected(m) =>
          error := FailureMessage(m);
      }
      loading := false;
    }
  }

  /** The quote action's state: `quoteResult`, `quoteError`, `loadingQuote`. */
  class QuoteAction {
    var result: string
    var error: string
    var loading: bool

    function View(): Card
      reads this
    {
      Card(result, error, loading)
    }

    constructor ()
      ensures View() == Idle
    {
      result, error, loading := "", "", false;
    }

    /** `onGetQuote` up to its await: no gate; both texts cleared and loading set. */
    method Start()
      modifies this
      ensures View() == Pending
    {
      error := "";
      result := "";
      loading := true;
    }

    /** `onGetQuote` after its await: try, catch, finally. */
    method Complete(outcome: Settled<QuoteResponse>)
      modifies this
      ensures View() == CompleteQuote(old(View()), outcome)
      ensures !loading
    {
      match outcome {
        case Fulfilled(res) =>
          result := res.quote;
        case Rejected(m) =>
          error := FailureMessage(m);
      }
      loading := false;
    }
  }
}
