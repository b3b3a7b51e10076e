/** The browser's quote service: a demo mode that fabricates quotes from a fixed table plus
    random noise, and a live mode that classifies the provider's reply and throws on failure.
    The two `Math.random()` draws are the parameters `r1` and `r2`, each in [0, 1). */
module Api {
  import opened Wrappers
  import opened Text
  import opened Types
  import opened AlphaVantage

  /** The error a rejected `fetchStockData` promise carries. */
  datatype FetchError =
    | LimitReached(message: string)
    | NotFound(message: string)
    | RequestFailed

  const MockDb: map<string, StockData> := map[
    "AAPL" := StockData("AAPL", 230.50, 1.25, 227.65, "Technology", false),
    "MSFT" := StockData("MSFT", 410.20, -0.5, 412.26, "Technology", false),
    "GOOGL" := StockData("GOOGL", 175.00, 0.8, 173.61, "Technology", false),
    "AMZN" := StockData("AMZN", 185.30, 2.1, 181.49, "Consumer Cyclical", false),
    "TSLA" := StockData("TSLA", 240.00, -3.5, 248.70, "Consumer Cyclical", false),
    "NVDA" := StockData("NVDA", 120.50, 4.0, 115.87, "Technology", false),
    "JPM" := StockData("JPM", 205.10, 0.2, 204.69, "Financial", false),
    "V" := StockData("V", 290.00, -0.1, 290.29, "Financial", false),
    "JNJ" := StockData("JNJ", 155.00, 0.5, 154.23, "Healthcare", false),
    "SPY" := StockData("SPY", 560.00, 0.9, 555.00, "Index", false)
  ]

  /** `getRandomMockData`: a table symbol is perturbed by one noise value `(r1 - 0.5) * 2`; any
      other symbol gets a price from `r1` and a percent change from `r2`. */
  function RandomMockData(symbol: string, r1: real, r2: real): (d: StockData)
    requires 0.0 <= r1 < 1.0 && 0.0 <= r2 < 1.0
    ensures symbol in MockDb ==>
      var base := MockDb[symbol];
      && base.price - 1.0 <= d.price < base.price + 1.0
      && d.changePercent == base.changePercent + (d.price - base.price) / 10.0
      && d.symbol == base.symbol && d.previousClose == base.previousClose && d.sector == base.sector
    ensures symbol !in MockDb ==>
      && d.symbol == symbol
      && 100.0 <= d.price < 150.0
      && -2.5 <= d.changePercent < 2.5
      && d.previousClose == 100.0
      && d.sector == "Unknown"
    ensures !d.isMock
  {
    if symbol in MockDb then
      var noise := (r1 - 0.5) * 2.0;
      var base := MockDb[symbol];
      base.(price := base.price + noise, changePercent := base.changePercent + noise / 10.0)
    else
      StockData(symbol, 100.0 + r1 * 50.0, (r2 - 0.5) * 5.0, 100.0, "Unknown", false)
  }

  /** An empty key or "DEMO" selects the demo mode. */
  predicate DemoMode(apiKey: string) {
    apiKey == "" || apiKey == "DEMO"
  }

  /** `fetchStockData(symbol, apiKey)`: what the returned promise resolves to or rejects with. */
  function FetchStockData(symbol: string, apiKey: string, r1: real, r2: real,
                          reply: Reply, parseFloat: string -> real): (r: Result<StockData, FetchError>)
    requires 0.0 <= r1 < 1.0 && 0.0 <= r2 < 1.0
    // Demo mode fabricates a quote for the upper-cased symbol and always resolves.
    ensures DemoMode(apiKey) ==> r == Success(RandomMockData(Upper(symbol), r1, r2))
    // Live mode: an exception rejects; a notice rejects before the quote is looked at.
    ensures !DemoMode(apiKey) && reply.Threw? ==> r == Failure(RequestFailed)
    ensures !DemoMode(apiKey) && reply.Received? && RateLimited(reply.body) ==>
      r == Failure(LimitReached(if Truthy(reply.body.note) then reply.body.note.value else "API Limit Reached"))
    // An empty or missing quote rejects with "not found".
    ensures !DemoMode(apiKey) && reply.Received? && !RateLimited(reply.body) && NoQuote(reply.body) ==>
      r == Failure(NotFound("Symbol " + symbol + " not found"))
    // A non-empty quote without a notice resolves exactly when it has a percent field; reading
    // the missing field throws, and the error is rethrown.
    ensures !DemoMode(apiKey) && reply.Received? && !RateLimited(reply.body) && !NoQuote(reply.body) ==>
      (r.Success? <==> ChangePercentKey in reply.body.globalQuote.value)
    ensures !DemoMode(apiKey) && Classify(reply, parseFloat).Failed? ==> r == Failure(RequestFailed)
    // A resolved live quote is the classified quote, with sector "Unknown" and no demo flag.
    ensures !DemoMode(apiKey) && Classify(reply, parseFloat).Parsed? ==>
      var q := Classify(reply, parseFloat).quote;
      r == Success(StockData(q.symbol, q.price, q.changePercent, q.previousClose, "Unknown", false))
    // A live quote carries the provider's symbol and numbers, the percent parsed after its `%` is
    // removed, and sector "Unknown".
    ensures !DemoMode(apiKey) && r.Success? ==>
      var quote := reply.body.globalQuote.value;
      && reply.Received? && !RateLimited(reply.body) && !NoQuote(reply.body)
      && ChangePercentKey in quote
      && r.value.symbol == (if SymbolKey in quote then quote[SymbolKey] else "")
      && r.value.price == parseFloat(Field(quote, PriceKey))
      && r.value.previousClose == parseFloat(Field(quote, PreviousCloseKey))
      && r.value.changePercent == parseFloat(RemoveFirst(quote[ChangePercentKey], '%'))
      && r.value.sector == "Unknown"
    // Nothing this service returns is flagged `isMock`.
    ensures r.Success? ==> !r.value.isMock
  {
    if DemoMode(apiKey) then
      Success(RandomMockData(Upper(symbol), r1, r2))
    else
      match Classify(reply, parseFloat)
      case Failed => Failure(RequestFailed)
      case Limited(body) =>
        Failure(LimitReached(if Truthy(body.note) then body.note.value else "API Limit Reached"))
      case Missing => Failure(NotFound("Symbol " + symbol + " not found"))
      case Parsed(q) => Success(StockData(q.symbol, q.price, q.changePercent, q.previousClose, "Unknown", false))
  }

  /** Demo mode never looks at the upstream: any two replies give the same quote, and it always succeeds. */
  lemma DemoIgnoresUpstream(symbol: string, apiKey: string, r1: real, r2: real,
                            reply1: Reply, reply2: Reply, parseFloat: string -> real)
    requires DemoMode(apiKey)
    requires 0.0 <= r1 < 1.0 && 0.0 <= r2 < 1.0
    ensures FetchStockData(symbol, apiKey, r1, r2, reply1, parseFloat)
         == FetchStockData(symbol, apiKey, r1, r2, reply2, parseFloat)
    ensures FetchStockData(symbol, apiKey, r1, r2, reply1, parseFloat).Success?
  {
  }

  /** Demo quote for "AAPL" with the "DEMO" key: within one unit of the table price 230.50. */
  lemma DemoAaplScenario(r1: real, r2: real, reply: Reply, parseFloat: string -> real)
    requires 0.0 <= r1 < 1.0 && 0.0 <= r2 < 1.0
    ensures var r := FetchStockData("aapl", "DEMO", r1, r2, reply, parseFloat);
      r.Success? && 229.50 <= r.value.price < 231.50 && r.value.symbol == "AAPL"
  {
    assert Upper("aapl") == "AAPL";
  }
}
