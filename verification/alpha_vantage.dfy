/** The GLOBAL_QUOTE reply of the upstream market-data provider, and the one classification of it
    that both the server proxy and the browser client apply, in the same order:
    a rate-limit or information notice first, then an empty or missing quote, then the fields.
    The HTTP request itself is not modelled: its outcome is the `Reply` value. */
module AlphaVantage {
  import opened Wrappers
  import opened Text

  /** The parsed JSON body: the two notice fields and the `Global Quote` object, whose string
      fields are keyed as the provider names them (`"05. price"`, ...). */
  datatype Body = Body(
    note: Option<string>,
    information: Option<string>,
    globalQuote: Option<map<string, string>>)

  /** What awaiting the request gave: an exception (network, timeout, unparsable JSON) or a body. */
  datatype Reply = Threw | Received(body: Body)

  /** The numeric fields of a quote after `parseFloat`. */
  datatype Quote = Quote(symbol: string, price: real, changePercent: real, previousClose: real)

  datatype Classified =
    | Failed           // an exception inside the `try`: the request, or reading a missing percent field
    | Limited(body: Body)
    | Missing
    | Parsed(quote: Quote)

  const SymbolKey := "01. symbol"
  const PriceKey := "05. price"
  const PreviousCloseKey := "08. previous close"
  const ChangePercentKey := "10. change percent"

  /** `String(quote[k])`: JavaScript renders a missing field as the text "undefined", and that text
      is what `parseFloat` then sees. */
  function Field(quote: map<string, string>, k: string): string {
    if k in quote then quote[k] else "undefined"
  }

  predicate RateLimited(body: Body) {
    Truthy(body.note) || Truthy(body.information)
  }

  predicate NoQuote(body: Body) {
    body.globalQuote.None? || |body.globalQuote.value| == 0
  }

  /** Classify a reply. `parseFloat` is the library number parser, passed in. A missing
      `"01. symbol"` is read as the empty string. */
  function Classify(reply: Reply, parseFloat: string -> real): (c: Classified)
    ensures c.Limited? <==> reply.Received? && RateLimited(reply.body)
    ensures c.Missing? <==> reply.Received? && !RateLimited(reply.body) && NoQuote(reply.body)
    ensures c.Failed? <==>
      || reply.Threw?
      || (!RateLimited(reply.body) && !NoQuote(reply.body) && ChangePercentKey !in reply.body.globalQuote.value)
    ensures c.Limited? ==> c.body == reply.body
    ensures c.Parsed? ==>
      var quote := reply.body.globalQuote.value;
      && ChangePercentKey in quote
      && c.quote.symbol == (if SymbolKey in quote then quote[SymbolKey] else "")
      && c.quote.price == parseFloat(Field(quote, PriceKey))
      && c.quote.previousClose == parseFloat(Field(quote, PreviousCloseKey))
      && c.quote.changePercent == parseFloat(RemoveFirst(quote[ChangePercentKey], '%'))
  {
    match reply
    case Threw => Failed
    case Received(body) =>
      if RateLimited(body) then Limited(body)
      else if NoQuote(body) then Missing
      else
        var quote := body.globalQuote.value;
        if ChangePercentKey !in quote then Failed
        else
          Parsed(Quote(
            if SymbolKey in quote then quote[SymbolKey] else "",
            parseFloat(Field(quote, PriceKey)),
            parseFloat(RemoveFirst(quote[ChangePercentKey], '%')),
            parseFloat(Field(quote, PreviousCloseKey))))
  }

  /** A provider quote whose percent field is `t + "%"` yields `parseFloat(t)`: the `%` is stripped
      before parsing, and the notice check precedes any look at the quote. */
  lemma PercentStripped(body: Body, t: string, parseFloat: string -> real)
    requires !RateLimited(body) && body.globalQuote.Some?
    requires ChangePercentKey in body.globalQuote.value
    requires body.globalQuote.value[ChangePercentKey] == t + "%" && '%' !in t
    ensures Classify(Received(body), parseFloat).Parsed?
    ensures Classify(Received(body), parseFloat).quote.changePercent == parseFloat(t)
  {
    RemoveFirstAfterPrefix(t, '%', "");
    assert t + ['%'] + "" == t + "%";
    assert RemoveFirst(t + "%", '%') == t;
  }
}
