/** The backend proxy: an in-memory cache of upstream quotes, loaded from a persisted snapshot at
    start-up, and the `/api/quote` handler that decides between the cache, the upstream and the
    error responses. The clock reading, the upstream reply and the persisted file are inputs. */
module QuoteServer {
  import opened Wrappers
  import opened Text
  import opened AlphaVantage

  /** One hour, in milliseconds. */
  const CacheDuration: int := 60 * 60 * 1000

  /** The key value that the deployment template ships, treated as "no key". */
  const PlaceholderKey := "YOUR_API_KEY_HERE"

  /** The quote the server stores and answers with. */
  datatype CachedQuote = CachedQuote(
    symbol: string,
    price: real,
    changePercent: real,
    previousClose: real,
    sector: string,
    updatedAt: int)

  datatype Entry = Entry(timestamp: int, data: CachedQuote)

  /** The persisted cache as start-up finds it: no file, a file that cannot be read or parsed, or
      the parsed mapping. */
  datatype CacheFile = NoFile | Unreadable | Stored(entries: map<string, Entry>)

  /** `req.query.symbol`: absent, one string, or something else (a repeated or nested parameter). */
  datatype Query = NoSymbol | SymbolParam(value: string) | NonStringParam

  datatype Payload =
    | QuoteJson(quote: CachedQuote, stale: bool)     // `stale` is the `_stale: true` marker
    | ErrorJson(error: string, details: Option<Body>)

  datatype Response = Response(status: int, payload: Payload)

  /** `!symbol || typeof symbol !== 'string'` is false. */
  predicate Named(query: Query) {
    query.SymbolParam? && query.value != ""
  }

  /** A key is configured when it is set, non-empty and not the template placeholder. */
  predicate Configured(apiKey: Option<string>) {
    Truthy(apiKey) && apiKey.value != PlaceholderKey
  }

  predicate IsFresh(entry: Entry, now: int) {
    now - entry.timestamp < CacheDuration
  }

  predicate FreshIn(entries: map<string, Entry>, key: string, now: int) {
    key in entries && IsFresh(entries[key], now)
  }

  /** The record a successful fetch stores: the provider's fields, sector "Unknown", stamped `now`. */
  function Clean(q: Quote, now: int): (d: CachedQuote)
    ensures d.sector == "Unknown" && d.updatedAt == now
    ensures d.symbol == q.symbol && d.price == q.price && d.previousClose == q.previousClose
    ensures d.changePercent == q.changePercent
  {
    CachedQuote(q.symbol, q.price, q.changePercent, q.previousClose, "Unknown", now)
  }

  class QuoteCache {
    /** The module-level `cache` object, keyed by upper-cased symbol. */
    var entries: map<string, Entry>
    /** The last snapshot written by `saveCache`, if any was written in this run. */
    var saved: Option<map<string, Entry>>
    /** `ALPHA_VANTAGE_API_KEY` from the environment. */
    const apiKey: Option<string>

    /** Start-up: a missing, unreadable or corrupt cache file gives an empty cache; nothing fails. */
    constructor (file: CacheFile, apiKey: Option<string>)
      ensures this.apiKey == apiKey && saved == None
      ensures file.Stored? ==> entries == file.entries
      ensures !file.Stored? ==> entries == map[]
    {
      this.apiKey := apiKey;
      saved := None;
      if file.Stored? {
        entries := file.entries;
      } else {
        entries := map[];
      }
    }

    /** Handle one `/api/quote` request at time `now`. `reply` is what the upstream would answer;
        `asked` says whether the handler sent the upstream request at all. */
    method Resolve(query: Query, now: int, reply: Reply, parseFloat: string -> real)
      returns (res: Response, asked: bool)
      modifies this
      // A missing, empty or non-string symbol is refused, with nothing else done.
      ensures !Named(query) ==>
        && res == Response(400, ErrorJson("Symbol is required", None))
        && entries == old(entries) && saved == old(saved)
      // The upstream is asked exactly when the symbol is named, has no fresh entry, and a key is set.
      ensures asked <==> Named(query) && !FreshIn(old(entries), Upper(query.value), now) && Configured(apiKey)
      // A fresh entry is served as it is, even with no key configured.
      ensures Named(query) && FreshIn(old(entries), Upper(query.value), now) ==>
        && res == Response(200, QuoteJson(old(entries)[Upper(query.value)].data, false))
        && entries == old(entries) && saved == old(saved)
      // Without a key, a miss or an expired entry is answered 503.
      ensures Named(query) && !FreshIn(old(entries), Upper(query.value), now) && !Configured(apiKey) ==>
        && res == Response(503, ErrorJson("API Key not configured on server", None))
        && entries == old(entries) && saved == old(saved)
      // An upstream exception is a 500, with no fallback to the cache.
      ensures asked && Classify(reply, parseFloat).Failed? ==>
        && res == Response(500, ErrorJson("Failed to fetch data", None))
        && entries == old(entries) && saved == old(saved)
      // A notice falls back to the (necessarily expired) entry, marked stale, or is a 429.
      ensures asked && Classify(reply, parseFloat).Limited? ==>
        && entries == old(entries) && saved == old(saved)
        && (Upper(query.value) in old(entries) ==>
              && !IsFresh(old(entries)[Upper(query.value)], now)
              && res == Response(200, QuoteJson(old(entries)[Upper(query.value)].data, true)))
        && (Upper(query.value) !in old(entries) ==>
              res == Response(429, ErrorJson("Upstream API rate limit or error", Some(reply.body))))
      // A missing quote is a 404, whatever the cache holds.
      ensures asked && Classify(reply, parseFloat).Missing? ==>
        && res == Response(404, ErrorJson("Symbol not found", None))
        && entries == old(entries) && saved == old(saved)
      // A quote is written through under exactly the upper-cased key, stamped `now`, and persisted.
      ensures asked && Classify(reply, parseFloat).Parsed? ==>
        var data := Clean(Classify(reply, parseFloat).quote, now);
        && entries == old(entries)[Upper(query.value) := Entry(now, data)]
        && saved == Some(entries)
        && res == Response(200, QuoteJson(data, false))
      // No entry is ever dropped, and no timestamp goes back while the clock does not.
      ensures old(entries).Keys <= entries.Keys
      ensures forall k :: k in old(entries) && old(entries)[k].timestamp <= now ==>
        old(entries)[k].timestamp <= entries[k].timestamp
    {
      if !query.SymbolParam? || query.value == "" {
        return Response(400, ErrorJson("Symbol is required", None)), false;
      }
      var key := Upper(query.value);

      if key in entries {
        var entry := entries[key];
        if now - entry.timestamp < CacheDuration {
          return Response(200, QuoteJson(entry.data, false)), false;
        }
      }

      if !Configured(apiKey) {
        return Response(503, ErrorJson("API Key not configured on server", None)), false;
      }

      asked := true;
      match Classify(reply, parseFloat)
      case Failed =>
        res := Response(500, ErrorJson("Failed to fetch data", None));
      case Limited(body) =>
        if key in entries {
          res := Response(200, QuoteJson(entries[key].data, true));
        } else {
          res := Response(429, ErrorJson("Upstream API rate limit or error", Some(body)));
        }
      case Missing =>
        res := Response(404, ErrorJson("Symbol not found", None));
      case Parsed(quote) =>
        var data := Clean(quote, now);
        entries := entries[key := Entry(now, data)];
        saved := Some(entries);
        res := Response(200, QuoteJson(data, false));
    }
  }

  /** Three requests for one symbol an hour apart, against a configured key: the first fetches and
      stores, a second within the hour is served from the cache without a request, and a third one
      hour later, met by a rate-limit notice, falls back to the stored quote marked stale. */
  method ExpiryScenario(quote: map<string, string>, notice: string, parseFloat: string -> real)
    requires ChangePercentKey in quote && notice != ""
  {
    var cache := new QuoteCache(NoFile, Some("key"));
    var ok := Received(Body(None, None, Some(quote)));
    var limited := Received(Body(Some(notice), None, None));

    assert Upper("aapl") == "AAPL" && Upper("AAPL") == "AAPL";
    var first, asked1 := cache.Resolve(SymbolParam("aapl"), 0, ok, parseFloat);
    assert asked1 && first.status == 200 && !first.payload.stale;
    assert "AAPL" in cache.entries;

    var second, asked2 := cache.Resolve(SymbolParam("AAPL"), CacheDuration - 1, limited, parseFloat);
    assert !asked2 && second == first;

    var third, asked3 := cache.Resolve(SymbolParam("AAPL"), CacheDuration, limited, parseFloat);
    assert asked3 && third == Response(200, QuoteJson(first.payload.quote, true));
  }
}
