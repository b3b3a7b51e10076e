# stock_viewer: quote cache, quote service and portfolio aggregation in Dafny

This project models the logic core of a personal portfolio dashboard. The dashboard has three parts:

- **The backend quote proxy** (`server/index.js`). It keeps a cache of upstream GLOBAL_QUOTE
  answers, keyed by upper-cased symbol. It serves an entry while it is younger than one hour and
  otherwise asks the upstream once. It sorts the reply into four cases: a rate-limit or information
  notice, a missing quote, an exception, or a quote. On a notice it falls back to the expired entry,
  and on success it writes the new quote through to the cache. This part is the class
  `QuoteServer.QuoteCache`, with a `map` field and the method `Resolve`. The clock reading, the
  upstream reply and the persisted cache file are inputs.
- **The browser's quote service** (`src/services/api.ts`). In demo mode it builds a quote from a
  fixed table plus random noise. In live mode it sorts the reply the same way as the server and
  throws on every failure. This part is the functions of module `Api`. The reply classification the
  two share is defined once, in `AlphaVantage.Classify`.
- **The dashboard's aggregation and handlers** (`src/App.tsx`). For each holding it computes one
  line: value, day change, and conversion between USD and JPY. A failed fetch gives a zeroed line.
  It also computes the summary totals, the portfolio percent change and the allocation by sector.
  The pure parts are functions in module `Portfolio`. The state (holdings list, computed lines, add
  form) is the class `App.Dashboard`, with the methods `AddStock`, `RemoveStock` and `Refresh`.
  `App.SectorData` is the map-filling loop that builds the sector allocation.

The record shapes of `src/types.ts` are the datatypes of module `Types`. Numbers are `real`.
`parseFloat` is passed in as a function from `string` to `real`. The two `Math.random()` draws are
parameters in [0, 1).

Behaviour of the source worth knowing:

- Demo quotes are never flagged `isMock`, so the "(Demo Data)" badge never shows
  (`App.MockBadgeNeverShown`).
- An upstream exception on the server is a 500 with no stale fallback. Only a notice falls back
  to the cache.
- Without a key the server answers 503, but only after it has checked the cache, so a fresh entry
  is still served. Demo quotes exist only in the browser.
- The percent text loses its FIRST `%`, wherever that `%` is, not a trailing one.
- A holding's quantity is not checked to be positive.

## Model

| member | source | states |
|---|---|---|
| `QuoteServer.QuoteCache.constructor` | server/index.js:25-34 | A missing, unreadable or corrupt cache file gives an empty cache, a parsed one is taken as it is, and start-up never fails |
| `QuoteServer.QuoteCache.Resolve` | server/index.js:47-127 | A missing, empty or non-string symbol gets 400 and changes nothing. An entry younger than one hour is returned as it is, with no upstream request, even without a key. An entry exactly one hour old counts as expired. With no key, a miss or expired entry gets 503. The upstream is asked exactly when the symbol is named, there is no fresh entry and a key is set. An exception gets 500 with no fallback. A notice returns the (necessarily expired) entry marked stale, or 429 if there is none. A missing quote gets 404 even when an entry exists. Success stores exactly the upper-cased key with timestamp `now` and persists the whole cache. Only success changes the cache, no entry is ever dropped, and timestamps never go back while the clock does not |
| `QuoteServer.Clean` | server/index.js:105-112 | The stored record carries the provider's symbol, price, previous close and percent, sector "Unknown" and `updatedAt = now` |
| `AlphaVantage.Classify` | server/index.js:88-112 | A notice (`Note` or `Information` non-empty) is reported first, whatever the quote holds. Without a notice, an absent or empty quote is "missing". An exception, or a quote without the percent field (whose `.replace` then throws), is a failure. A parsed quote carries the provider's `"01. symbol"` (or "" if absent) and each field parsed, with the percent parsed after its first `%` is removed |
| `AlphaVantage.PercentStripped` | src/services/api.ts:62-64 | A quote whose percent field reads `t%` yields `parseFloat(t)` |
| `Text.Upper` | server/index.js:53 | Upper-casing keeps the length and maps each character to its upper-case form |
| `Text.UpperIdempotent` | server/index.js:53 | Upper-casing twice is the same as upper-casing once |
| `Text.RemoveFirst` | src/services/api.ts:64 | `replace('%', '')` removes exactly the first occurrence, or returns the text unchanged when there is none |
| `Text.RemoveFirstAfterPrefix` | src/services/api.ts:64 | For a prefix `t` with no `%`, removing the first `%` from `t % u` gives `t u` |
| `Api.RandomMockData` | src/services/api.ts:19-37 | For a table symbol: price within [base − 1, base + 1), percent moved by a tenth of the same noise, and symbol, previous close and sector as in the table. For any other symbol: price in [100, 150), percent in [−2.5, 2.5), previous close 100, sector "Unknown". The mock never sets `isMock` |
| `Api.FetchStockData` | src/services/api.ts:41-82 | An empty key or "DEMO" always resolves to the mock of the upper-cased symbol. In live mode an exception rejects, and a notice rejects with the `Note` text or "API Limit Reached" before the quote is looked at. An empty or missing quote rejects with "Symbol … not found". A non-empty quote without a notice resolves exactly when it has a percent field. Without one, `.replace` throws and the call rejects with the request error, as every exception does. A live quote resolves to the classified quote: the provider's symbol, the parsed fields, its percent parsed without its first `%`, and sector "Unknown". Nothing returned is flagged `isMock` |
| `Api.DemoIgnoresUpstream` | src/services/api.ts:42-46 | In demo mode the result does not depend on the upstream reply (no request is made), and it always succeeds |
| `Api.DemoAaplScenario` | src/services/api.ts:7-29 | The demo quote for `aapl` has symbol "AAPL" and a price in [229.50, 231.50) |
| `Portfolio.Rate` | src/App.tsx:72-79 | The rate is 1 when the holding's currency (USD if missing) is the base currency, `exchangeRate` for USD into JPY, and the inverse of `exchangeRate` for JPY into USD |
| `Portfolio.Convert` | src/App.tsx:81-82 | An amount in the base currency is unchanged. A USD amount shown in JPY is multiplied by the rate, and a JPY amount shown in USD, times the rate, gives the amount back. Its round trip is `Portfolio.RateRoundTrip` |
| `Portfolio.RateRoundTrip` | src/App.tsx:72-82 | Converting an amount into the other currency and back at the same rate gives the amount back |
| `Portfolio.FinalSector` | src/App.tsx:61-63 | The user's sector is used only when the quote's sector is "Unknown" and the user's is non-empty. Otherwise the quote's sector is kept |
| `Portfolio.Line` | src/App.tsx:57-111 | The line keeps the holding's id, quantity and fields. For a quote: the quote's symbol, price, percent and previous close are copied in, value = price × quantity, day change = (price − previous close) × quantity, both converted at the rate, and the percent copied, not recomputed. For a failed fetch: every number is 0, the symbol is the holding's, and the sector is the user's or "Unknown" |
| `Portfolio.Lines` | src/App.tsx:57-115 | A refresh gives exactly one line per holding, in the holdings' order, and line `i` is `Portfolio.Line` of holding `i` and its fetch outcome, so all of that line's contract applies. Failed holdings give zeroed lines, and the others are valued at price × quantity converted |
| `Portfolio.Summarize` | src/App.tsx:166-173 | The summary's percent field stays 0, and lines that are all zeroed (every fetch failed) total 0 and 0. Additivity over any split is `Portfolio.SummarizeAppend`, and a single line's totals are `Portfolio.SummarizeSingle` |
| `Portfolio.SummarizeSingle` | src/App.tsx:167-172 | One line totals its own base-currency value and its own base-currency day change. With `Portfolio.SummarizeAppend`, each total is the sum of that field over all lines |
| `Portfolio.FetchAll` | src/App.tsx:57-59 | Each holding's outcome is the quote service's answer for that holding's symbol and key, one per holding, in order |
| `Portfolio.SummarizeAppend` | src/App.tsx:166-173 | Both totals add up over any split of the lines, and the empty portfolio totals 0 and 0 |
| `Portfolio.FailedLineAddsNothing` | src/App.tsx:97-110 | A zeroed line (a failed holding) changes neither total, so the summary reflects only the other holdings |
| `Portfolio.ChangePercent` | src/App.tsx:175-178 | The result times yesterday's value (total − day change) is 100 × the day change. It is 0 when yesterday's value is 0, so there is no division by zero |
| `Portfolio.EmptyPortfolio` | src/App.tsx:166-178 | With no lines, the totals and the percent change are all 0 |
| `Portfolio.SectorName` | src/App.tsx:183 | A non-empty sector keeps its own name, and an empty one reads as "Unknown", so the name is never empty |
| `Portfolio.Sectors` | src/App.tsx:180-187 | The sector list has no repeats. Membership is `Portfolio.SectorsCover` and order is `Portfolio.SectorsInFirstOccurrenceOrder` |
| `Portfolio.SectorsInFirstOccurrenceOrder` | src/App.tsx:181-187 | Sectors are listed in the order of their first line, which is the key order of a `Map` filled in line order: a line of a later-listed sector is preceded by a line of every earlier-listed one |
| `Portfolio.SectorsCover` | src/App.tsx:182-186 | A sector is in the list exactly when some line carries it |
| `Portfolio.Allocation` | src/App.tsx:180-188 | The allocation has one entry per listed sector, in the list's order, named by that sector. Entry values are `Portfolio.AllocationOverAt`, and their sum is `Portfolio.AllocationSumsToTotal` |
| `Portfolio.AllocationOverAt` | src/App.tsx:187 | Allocation entry `j` is the `j`-th sector with the summed value of that sector's lines |
| `Portfolio.AllocationSumsToTotal` | src/App.tsx:166-188 | The allocation's values add up to the summary's total value |
| `Portfolio.AaplInYenScenario` | src/App.tsx:66-82 | 10 USD shares at 230.50 (previous close 227.65) shown in JPY at 150: value 2305, in yen 345750, day change 28.50, in yen 4275, percent 1.25 as given |
| `App.FindPreset` | src/App.tsx:137 | It returns the first preset with the id, and nothing exactly when no preset has that id |
| `App.AddTarget` | src/App.tsx:132-143 | A found preset decides symbol, sector and currency. Otherwise the typed symbol, the typed sector or "Other", and the chosen currency are used. The sector is never empty |
| `App.WithoutId` | src/App.tsx:161-162 | The filtered list holds exactly the entries whose id differs, and is no longer than the input |
| `App.WithoutIdAppend` | src/App.tsx:161-162 | Filtering distributes over concatenation, so the kept entries stay in order |
| `App.WithoutAbsentId` | src/App.tsx:161-162 | A list with no entry of that id is unchanged |
| `App.MockBadgeNeverShown` | src/App.tsx:197-199 | No fetched quote sets `isMock`, so no refreshed line does, and the demo badge is never shown |
| `App.MockBadgeNeverShownAfterFetch` | src/App.tsx:57-59 | When every holding is fetched through the quote service, which never flags a quote, no refreshed line is flagged as demo data and the badge never shows |
| `App.TallyStep` | src/App.tsx:182-186 | One `map.set(sec, (map.get(sec) or 0) + val)` keeps the map's key order and totals equal to the sector list and sector sums of the lines seen so far |
| `App.SectorData` | src/App.tsx:180-188 | The loop builds exactly the allocation (one entry per distinct sector, in first-occurrence order, each with its sum), and its values add up to the summary total |
| `App.Dashboard.constructor` | src/App.tsx:34-50 | The page starts with the stored holdings, base currency and rate, no lines, and an empty form on the first preset |
| `App.Dashboard.AddStock` | src/App.tsx:129-158 | With an empty symbol or quantity nothing changes. Otherwise exactly one holding is appended, with the new id, the upper-cased symbol, the parsed quantity, the sector (typed, "Other" or the preset's) and the currency, and the text fields are cleared. The lines are untouched |
| `App.Dashboard.RemoveStock` | src/App.tsx:160-163 | Both the holdings and the lines lose exactly the entries with that id |
| `App.Dashboard.Refresh` | src/App.tsx:53-121 | The lines become the lines of the holdings with their fetch outcomes. Holdings, form, base currency and rate stay as they were |
| `App.AddThenRemove` | src/App.tsx:129-163 | Adding a holding under an unused id and then removing that id restores the holdings |

## Left out

- Express routing, CORS, `dotenv` and `app.listen`: the handler is modelled from the parsed query
  onwards, and the environment key is a constructor argument.
- The axios and `fetch` requests (URL, query parameters, timeouts): what awaiting them gives is the
  `Reply` input.
- File I/O: reading the cache file and `JSON.parse` are summarised by the `CacheFile` input, and a
  file that parses to something other than a map of entries is not modelled. `saveCache` is the
  `saved` snapshot, and its write errors, which are only logged, are not modelled.
- `parseFloat` and JSON parsing are library calls. `parseFloat` is a parameter, and its `NaN`
  results cannot be represented in `real`.
- `Math.random` and the 500 ms `setTimeout`: the random draws are parameters and the delay is
  dropped.
- `Promise.all`: the holdings are fetched concurrently in the source. Here each holding's fetch
  outcome is one element of an input sequence, in the holdings' order.
- Concurrent requests to the server: each `Resolve` runs to completion on its own.
- React hooks, `useLocalStorage`, the `useEffect` that triggers refreshes, the settings inputs
  (key, currency, rate), the loading and error flags, JSX, recharts, `renderCustomizedLabel`
  and `toLocaleString` formatting.
- Floating-point rounding: all arithmetic is exact over `real`.
- Text.Upper: covers the ASCII letters only. JavaScript's `toUpperCase` also maps other Unicode
  letters, for example "ß" to "SS".
- AlphaVantage.Classify: a quote without `"01. symbol"` gets the empty string as its symbol. In
  the source the symbol is `undefined`.
- Portfolio.Rate: requires a non-zero rate. With a zero rate the source computes `1 / 0 =
  Infinity`, which `real` cannot represent. Line, Lines and Dashboard.Refresh carry the same
  requirement.
- The `|| 0` defaults: lines always carry numbers here, so the `|| 0` defaults in the summary and
  the sector map never apply.
- App.Dashboard.AddStock: `crypto.randomUUID` is the `newId` parameter.
- `purchasePrice` and the `Summary.totalDayChangePercent` field are never computed by the source.
  They are kept or set to 0 as the source does.
- The optional `StockData.currency` field is dropped, because nothing in the source ever sets it.
  A line's currency is therefore always the holding's own.
