/**
 * The typed fetch wrappers of src/services/stockService.ts and the module-wide `historyCache`:
 * a map from series key to the last non-empty series fetched for it, used as a fallback when a
 * fetch succeeds with no data.
 */
module StockService {
  import opened Wrappers
  import opened Text
  import opened Json
  import opened Gateway

  /** Which backend endpoint a series comes from. */
  datatype Source = Alpha | Finnhub

  /** The cache key: the upper-cased symbol, prefixed with "finnhub_" for Finnhub series. */
  function SeriesKey(source: Source, symbol: string): string
  {
    match source
    case Alpha => ToUpper(symbol)
    case Finnhub => "finnhub_" + ToUpper(symbol)
  }

  /** The two sources never share a key, so neither reads or overwrites the other's series. */
  lemma SourcesNeverShareKeys(s: string, t: string)
    ensures SeriesKey(Alpha, s) != SeriesKey(Finnhub, t)
  {
    var k := SeriesKey(Finnhub, t);
    assert k[0] == 'f' && IsLower(k[0]);
  }

  /** Within one source, two symbols share a key exactly when they are equal ignoring case. */
  lemma SeriesKeySameSource(source: Source, s: string, t: string)
    ensures SeriesKey(source, s) == SeriesKey(source, t) <==> EqualsIgnoreCase(s, t)
  {
    if source == Finnhub && SeriesKey(source, s) == SeriesKey(source, t) {
      assert ToUpper(s) == SeriesKey(source, s)[8..];
      assert ToUpper(t) == SeriesKey(source, t)[8..];
    }
  }

  function HistoryUrl(source: Source): string
  {
    match source
    case Alpha => "/api/proxy/alpha/history"
    case Finnhub => "/api/proxy/finnhub/history"
  }

  /** GET <history url>?symbol=SYMBOL&days=N. */
  function HistoryRequest(source: Source, symbol: string, days: int): RequestConfig
  {
    RequestConfig("get", HistoryUrl(source), [Param("symbol", PStr(ToUpper(symbol))), Param("days", PNum(days))], Undefined)
  }

  /** GET /api/proxy/alpha/quote?symbol=SYMBOL. */
  function QuoteRequest(symbol: string): RequestConfig
  {
    RequestConfig("get", "/api/proxy/alpha/quote", [Param("symbol", PStr(ToUpper(symbol)))], Undefined)
  }

  /** The message of a rethrown gateway error. */
  function ErrorMessage(o: Outcome): string
  {
    match o
    case Ok(_) => ""
    case Http(_, _, m) => m
    case NoResponse(m) => m
  }

  function HistoryErrorPrefix(source: Source, symbol: string): string
  {
    match source
    case Alpha => "Failed to fetch history for " + symbol + ": "
    case Finnhub => "Failed to fetch Finnhub history for " + symbol + ": "
  }

  function NoDataMessage(source: Source): string
  {
    match source
    case Alpha => "No historical data returned"
    case Finnhub => "No historical data returned from Finnhub"
  }

  /** `fetchStockQuote` after the gateway settled: the payload, or the error re-wrapped with the symbol as given. */
  function QuoteResult(symbol: string, fetched: Result<Value, Outcome>): (r: Result<Value, string>)
    ensures fetched.Success? ==> r == Success(fetched.value)
    ensures fetched.Failure? ==> r == Failure("Failed to fetch quote for " + symbol + ": " + ErrorMessage(fetched.error))
  {
    match fetched
    case Success(v) => Success(v)
    case Failure(e) => Failure("Failed to fetch quote for " + symbol + ": " + ErrorMessage(e))
  }

  /** The cache only ever holds non-empty series. */
  ghost predicate CacheValid(cache: map<string, seq<Value>>)
  {
    forall k :: k in cache ==> |cache[k]| > 0
  }

  /** The outcome of one history fetch: what the caller gets and what the cache holds afterwards. */
  datatype Absorbed = Absorbed(result: Result<seq<Value>, string>, cache: map<string, seq<Value>>)

  /**
   * The branch after the gateway settled: a non-empty array is stored and returned; an empty or
   * non-array result falls back to the cached series; with neither the fetch fails; a gateway
   * failure is re-wrapped without consulting the cache.
   */
  function Absorb(cache: map<string, seq<Value>>, source: Source, symbol: string, fetched: Result<Value, Outcome>): (a: Absorbed)
    ensures CacheValid(cache) ==> CacheValid(a.cache)
    ensures forall k :: k != SeriesKey(source, symbol) ==> (k in a.cache <==> k in cache) && (k in cache ==> a.cache[k] == cache[k])
    ensures CacheValid(cache) && a.result.Success? ==> |a.result.value| > 0
  {
    var key := SeriesKey(source, symbol);
    match fetched
    case Failure(e) =>
      Absorbed(Failure(HistoryErrorPrefix(source, symbol) + ErrorMessage(e)), cache)
    case Success(data) =>
      if data.Arr? && |data.items| > 0 then
        Absorbed(Success(data.items), cache[key := data.items])
      else if key in cache && |cache[key]| > 0 then
        Absorbed(Success(cache[key]), cache)
      else
        Absorbed(Failure(HistoryErrorPrefix(source, symbol) + NoDataMessage(source)), cache)
  }

  /** A non-empty array is stored under the series key and returned unchanged. */
  lemma FreshSeriesStored(cache: map<string, seq<Value>>, source: Source, symbol: string, items: seq<Value>)
    requires |items| > 0
    ensures var a := Absorb(cache, source, symbol, Success(Arr(items)));
      a.result == Success(items) && a.cache == cache[SeriesKey(source, symbol) := items]
  {
  }

  /** An empty or non-array result never overwrites the cache, and returns the cached series when there is one. */
  lemma EmptyResultReadsCache(cache: map<string, seq<Value>>, source: Source, symbol: string, data: Value)
    requires CacheValid(cache)
    requires !(data.Arr? && |data.items| > 0)
    ensures var a := Absorb(cache, source, symbol, Success(data));
      var key := SeriesKey(source, symbol);
      && a.cache == cache
      && (key in cache ==> a.result == Success(cache[key]))
      && (key !in cache ==> a.result == Failure(HistoryErrorPrefix(source, symbol) + NoDataMessage(source)))
  {
  }

  /** A gateway failure is re-wrapped with the symbol as given and leaves the cache alone. */
  lemma FailurePropagates(cache: map<string, seq<Value>>, source: Source, symbol: string, e: Outcome)
    ensures Absorb(cache, source, symbol, Failure(e))
         == Absorbed(Failure(HistoryErrorPrefix(source, symbol) + ErrorMessage(e)), cache)
  {
  }

  /**
   * Fetching a series the cache already holds, when the backend returns nothing, gives back the
   * cached series itself; and doing it again changes nothing (the fallback is idempotent).
   */
  lemma {:induction false} FallbackIdempotent(cache: map<string, seq<Value>>, source: Source, symbol: string, data: Value)
    requires CacheValid(cache) && SeriesKey(source, symbol) in cache
    requires !(data.Arr? && |data.items| > 0)
    ensures var a := Absorb(cache, source, symbol, Success(data));
      a.result == Success(cache[SeriesKey(source, symbol)]) && Absorb(a.cache, source, symbol, Success(data)) == a
  {
    EmptyResultReadsCache(cache, source, symbol, data);
  }

  /** The wrappers and the module-wide cache, over one shared gateway. */
  class StockService {
    var historyCache: map<string, seq<Value>>
    const gateway: RequestGateway

    ghost predicate Valid()
      reads this, gateway
    {
      CacheValid(historyCache) && gateway.Valid()
    }

    constructor (gateway: RequestGateway)
      requires gateway.Valid()
      ensures Valid() && historyCache == map[] && this.gateway == gateway
    {
      historyCache := map[];
      this.gateway := gateway;
    }

    /** `fetchStockQuote(symbol)`: the quote endpoint with the upper-cased symbol, default retries. */
    method FetchStockQuote(symbol: string, now: int, net: nat -> Outcome) returns (r: Result<Value, string>)
      requires Valid()
      modifies gateway
      ensures Valid()
      ensures var key := CacheKey(QuoteRequest(symbol));
        if Live(old(gateway.inflight), key, now) then
          && gateway.issued == old(gateway.issued) && gateway.inflight == old(gateway.inflight)
          && r == QuoteResult(symbol, old(gateway.issued)[old(gateway.inflight)[key].request].run.result)
        else
          && gateway.issued == old(gateway.issued) + [Issued(key, RunRequest(net, 1))]
          && gateway.inflight == old(gateway.inflight)[key := Entry(|old(gateway.issued)|, now + InFlightWindowMs)]
          && r == QuoteResult(symbol, RunRequest(net, 1).result)
    {
      var id := gateway.Request(QuoteRequest(symbol), 1, now, net);
      r := QuoteResult(symbol, gateway.Settled(id));
    }

    /** `fetchHistoricalPrices` (Alpha) and `fetchFinnhubHistory` (Finnhub). */
    method FetchHistory(source: Source, symbol: string, days: int, now: int, net: nat -> Outcome)
      returns (r: Result<seq<Value>, string>)
      requires Valid()
      modifies this, gateway
      ensures Valid()
      ensures var key := CacheKey(HistoryRequest(source, symbol, days));
        if Live(old(gateway.inflight), key, now) then
          && gateway.issued == old(gateway.issued) && gateway.inflight == old(gateway.inflight)
          && Absorbed(r, historyCache)
             == Absorb(old(historyCache), source, symbol, old(gateway.issued)[old(gateway.inflight)[key].request].run.result)
        else
          && gateway.issued == old(gateway.issued) + [Issued(key, RunRequest(net, 1))]
          && gateway.inflight == old(gateway.inflight)[key := Entry(|old(gateway.issued)|, now + InFlightWindowMs)]
          && Absorbed(r, historyCache) == Absorb(old(historyCache), source, symbol, RunRequest(net, 1).result)
    {
      var id := gateway.Request(HistoryRequest(source, symbol, days), 1, now, net);
      var fetched := gateway.Settled(id);
      var key := SeriesKey(source, symbol);
      match fetched {
        case Failure(e) =>
          r := Failure(HistoryErrorPrefix(source, symbol) + ErrorMessage(e));
        case Success(data) =>
          if data.Arr? && |data.items| > 0 {
            historyCache := historyCache[key := data.items];
            r := Success(data.items);
          } else if key in historyCache && |historyCache[key]| > 0 {
            r := Success(historyCache[key]);
          } else {
            r := Failure(HistoryErrorPrefix(source, symbol) + NoDataMessage(source));
          }
      }
    }
  }
}
