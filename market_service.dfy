/** The market service: four read-through cached resources over the Polygon
    and Alpha Vantage APIs, and one uncached pass-through to CoinGecko.

    Every cached fetch builds its key from upper-cased parameters, returns a
    live cached value at once, and otherwise calls upstream exactly once,
    normalises the answer, and decides per resource whether to write the
    cache and with which TTL. An upstream call is an oracle argument of type
    `Http<Body>`: the answer the provider would give if it were asked. The
    ghost log `calls` records every request actually sent, so "no upstream
    call on a hit" is a statement about state. */
module MarketService {
  import opened Common
  import opened CacheStore

  /** JSON numbers are carried as opaque values; nothing here computes with them. */
  type Number = real

  const CACHE_TTL_STOCK_AGGS_MS: nat := 60 * 60 * 1000
  const CACHE_TTL_STOCK_PRICE_MS: nat := 15 * 60 * 1000
  const CACHE_TTL_STOCK_DETAILS_MS: nat := 24 * 60 * 60 * 1000
  /** TTL of a parsed exchange rate. */
  const RATE_TTL_MS: nat := 3600 * 1000
  /** TTL of the null written when no rate could be obtained. */
  const RATE_NULL_TTL_MS: nat := 15 * 60 * 1000

  const PREV_CLOSE_PREFIX := "stock_prev_close_"
  const DETAILS_PREFIX := "stock_details_"
  const AGGS_PREFIX := "stock_aggs_"
  const RATE_PREFIX := "forex_av_"

  // ---------------------------------------------------------------- entities

  /** One previous-close bar (Polygon's T, v, vw, o, c, h, l, t, n). */
  datatype PrevClose = PrevClose(
    ticker: string, volume: Number, volumeWeighted: Option<Number>,
    open: Number, close: Number, high: Number, low: Number,
    timestamp: int, transactions: Option<int>)

  /** The descriptive fields of a ticker that the model carries. */
  datatype TickerDetails = TickerDetails(
    ticker: string, name: string, market: Option<string>,
    primaryExchange: Option<string>, currencyName: Option<string>,
    description: Option<string>, homepageUrl: Option<string>,
    totalEmployees: Option<int>, marketCap: Option<Number>, logoUrl: Option<string>)

  /** One aggregate candle (v, vw, o, c, h, l, t, n). */
  datatype AggBar = AggBar(
    volume: Number, volumeWeighted: Option<Number>,
    open: Number, close: Number, high: Number, low: Number,
    timestamp: int, transactions: Option<int>)

  datatype CryptoQuote = CryptoQuote(
    id: string, symbol: string, name: string, image: string,
    currentPrice: Number, marketCap: Number, marketCapRank: int,
    totalVolume: Number, priceChangePercentage24h: Number)

  /** What the shared cache holds under the keys this service writes. */
  datatype CacheValue =
    | PrevCloseValue(prev: PrevClose)
    | DetailsValue(details: TickerDetails)
    | AggsValue(bars: seq<AggBar>)
    | RateValue(rate: Option<Number>)

  datatype RateSource = FromCache | FromApi

  /** `{ rate, source }` as returned by the exchange-rate fetch. */
  datatype RateReply = RateReply(rate: Option<Number>, source: RateSource)

  // ------------------------------------------------------- upstream answers

  /** Polygon previous close: `results`, absent when the body or the field is missing. */
  datatype PrevCloseBody = PrevCloseBody(results: Option<seq<PrevClose>>)

  datatype DetailsBody = DetailsBody(results: Option<TickerDetails>)

  datatype AggsBody = AggsBody(results: Option<seq<AggBar>>)

  /** Alpha Vantage: the '5. Exchange Rate' text, 'Error Message' and 'Note'. */
  datatype RateBody = RateBody(rateText: Option<string>, errorMessage: Option<string>, note: Option<string>)

  /** The requests this service sends upstream. */
  datatype UpstreamCall =
    | CoinGeckoMarkets(vsCurrency: string, perPage: int, page: int, order: string)
    | PolygonPrevClose(ticker: string)
    | PolygonDetails(ticker: string)
    | PolygonAggs(ticker: string, multiplier: int, timespan: string, from: string, to: string)
    | AlphaVantageRate(from: string, to: string)

  // ------------------------------------------------------------ configuration

  datatype ApiKeys = ApiKeys(polygon: string, alphaVantage: string)

  /** The constructor's key checks: Polygon's key first, then Alpha Vantage's. */
  function Configure(polygon: Option<string>, alphaVantage: Option<string>): (r: Raised<ApiKeys>)
    ensures r.Returned? <==> Truthy(polygon) && Truthy(alphaVantage)
    ensures r.Returned? ==> r.value == ApiKeys(polygon.value, alphaVantage.value)
    ensures !Truthy(polygon) ==> r == Threw(PlainError("POLYGON_API_KEY environment variable is not set."))
    ensures Truthy(polygon) && !Truthy(alphaVantage) ==>
              r == Threw(PlainError("ALPHAVANTAGE_API_KEY environment variable is not set."))
  {
    if !Truthy(polygon) then Threw(PlainError("POLYGON_API_KEY environment variable is not set."))
    else if !Truthy(alphaVantage) then Threw(PlainError("ALPHAVANTAGE_API_KEY environment variable is not set."))
    else Returned(ApiKeys(polygon.value, alphaVantage.value))
  }

  // ------------------------------------------------------------------- keys

  function PrevCloseKey(ticker: string): string {
    PREV_CLOSE_PREFIX + Upper(ticker)
  }

  function DetailsKey(ticker: string): string {
    DETAILS_PREFIX + Upper(ticker)
  }

  function AggsKey(ticker: string, multiplier: int, timespan: string, from: string, to: string): string {
    AGGS_PREFIX + Upper(ticker) + "_" + IntToString(multiplier) + "_" + timespan + "_" + from + "_" + to
  }

  function RateKey(from: string, to: string): string {
    RATE_PREFIX + Upper(from) + "_" + Upper(to)
  }

  lemma PrefixCancel(p: string, x: string, y: string)
    requires p + x == p + y
    ensures x == y
  {
    assert x == (p + x)[|p|..];
    assert y == (p + y)[|p|..];
  }

  /** Two previous-close requests share a cache entry exactly when their
      tickers agree up to case. */
  lemma PrevCloseKeySharedIffSameTicker(a: string, b: string)
    ensures PrevCloseKey(a) == PrevCloseKey(b) <==> Upper(a) == Upper(b)
  {
    if PrevCloseKey(a) == PrevCloseKey(b) {
      PrefixCancel(PREV_CLOSE_PREFIX, Upper(a), Upper(b));
    }
  }

  /** Two ticker-details requests share a cache entry exactly when their
      tickers agree up to case. */
  lemma DetailsKeySharedIffSameTicker(a: string, b: string)
    ensures DetailsKey(a) == DetailsKey(b) <==> Upper(a) == Upper(b)
  {
    if DetailsKey(a) == DetailsKey(b) {
      PrefixCancel(DETAILS_PREFIX, Upper(a), Upper(b));
    }
  }

  /** Aggregate requests differing only in the case of the ticker share an entry. */
  lemma AggsKeyIgnoresTickerCase(a: string, b: string, m: int, ts: string, from: string, to: string)
    requires Upper(a) == Upper(b)
    ensures AggsKey(a, m, ts, from, to) == AggsKey(b, m, ts, from, to)
  {
  }

  /** Rate requests differing only in the case of the currency codes share an entry. */
  lemma RateKeyIgnoresCase(f1: string, t1: string, f2: string, t2: string)
    requires Upper(f1) == Upper(f2) && Upper(t1) == Upper(t2)
    ensures RateKey(f1, t1) == RateKey(f2, t2)
  {
  }

  /** The aggregates key joins its five parameters with '_' and so does not
      tell them apart when a parameter itself contains '_': two different
      requests then read and write one entry. */
  lemma AggsKeyCollision()
    ensures AggsKey("MSFT", 1, "day_2024-01-01", "2024-01-05", "x") == AggsKey("MSFT", 1, "day", "2024-01-01_2024-01-05", "x")
  {
  }

  /** Which resource a key belongs to, read off its prefix. */
  datatype Kind = PrevCloseKind | DetailsKind | AggsKind | RateKind

  function KeyKind(key: string): Option<Kind> {
    if HasPrefix(key, PREV_CLOSE_PREFIX) then Some(PrevCloseKind)
    else if HasPrefix(key, DETAILS_PREFIX) then Some(DetailsKind)
    else if HasPrefix(key, AGGS_PREFIX) then Some(AggsKind)
    else if HasPrefix(key, RATE_PREFIX) then Some(RateKind)
    else None
  }

  function ValueKind(v: CacheValue): Kind {
    match v
    case PrevCloseValue(_) => PrevCloseKind
    case DetailsValue(_) => DetailsKind
    case AggsValue(_) => AggsKind
    case RateValue(_) => RateKind
  }

  lemma StartsWith(p: string, x: string)
    ensures HasPrefix(p + x, p)
  {
    assert (p + x)[..|p|] == p;
  }

  lemma CharOfPrefix(k: string, p: string, i: nat)
    requires HasPrefix(k, p) && i < |p|
    ensures k[i] == p[i]
  {
    assert k[i] == k[..|p|][i];
  }

  /** Each key builder produces a key of its own resource, so the four
      resources never read or overwrite one another's entries. */
  lemma PrevCloseKeyKind(t: string)
    ensures KeyKind(PrevCloseKey(t)) == Some(PrevCloseKind)
  {
    StartsWith(PREV_CLOSE_PREFIX, Upper(t));
  }

  lemma DetailsKeyKind(t: string)
    ensures KeyKind(DetailsKey(t)) == Some(DetailsKind)
  {
    var k := DetailsKey(t);
    StartsWith(DETAILS_PREFIX, Upper(t));
    CharOfPrefix(k, DETAILS_PREFIX, 6);
    if HasPrefix(k, PREV_CLOSE_PREFIX) { CharOfPrefix(k, PREV_CLOSE_PREFIX, 6); }
  }

  /** Any key starting with the aggregates prefix belongs to the aggregates resource. */
  lemma AggsPrefixKind(rest: string)
    ensures KeyKind(AGGS_PREFIX + rest) == Some(AggsKind)
  {
    var k := AGGS_PREFIX + rest;
    StartsWith(AGGS_PREFIX, rest);
    CharOfPrefix(k, AGGS_PREFIX, 6);
    if HasPrefix(k, PREV_CLOSE_PREFIX) { CharOfPrefix(k, PREV_CLOSE_PREFIX, 6); }
    if HasPrefix(k, DETAILS_PREFIX) { CharOfPrefix(k, DETAILS_PREFIX, 6); }
  }

  lemma AggsKeyKind(t: string, m: int, ts: string, from: string, to: string)
    ensures KeyKind(AggsKey(t, m, ts, from, to)) == Some(AggsKind)
  {
    var rest := Upper(t) + "_" + IntToString(m) + "_" + ts + "_" + from + "_" + to;
    assert AggsKey(t, m, ts, from, to) == AGGS_PREFIX + rest;
    AggsPrefixKind(rest);
  }

  lemma RateKeyKind(from: string, to: string)
    ensures KeyKind(RateKey(from, to)) == Some(RateKind)
  {
    var rest := Upper(from) + "_" + Upper(to);
    var k := RateKey(from, to);
    assert k == RATE_PREFIX + rest;
    StartsWith(RATE_PREFIX, rest);
    CharOfPrefix(k, RATE_PREFIX, 0);
    if HasPrefix(k, PREV_CLOSE_PREFIX) { CharOfPrefix(k, PREV_CLOSE_PREFIX, 0); }
    if HasPrefix(k, DETAILS_PREFIX) { CharOfPrefix(k, DETAILS_PREFIX, 0); }
    if HasPrefix(k, AGGS_PREFIX) { CharOfPrefix(k, AGGS_PREFIX, 0); }
  }

  /** Keys of different resources are never equal. */
  lemma KeyFamiliesDisjoint(t1: string, t2: string, m: int, ts: string, from: string, to: string)
    ensures PrevCloseKey(t1) != DetailsKey(t2)
    ensures PrevCloseKey(t1) != AggsKey(t2, m, ts, from, to)
    ensures PrevCloseKey(t1) != RateKey(from, to)
    ensures DetailsKey(t1) != AggsKey(t2, m, ts, from, to)
    ensures DetailsKey(t1) != RateKey(from, to)
    ensures AggsKey(t1, m, ts, from, to) != RateKey(from, to)
  {
    PrevCloseKeyKind(t1);
    DetailsKeyKind(t1);
    DetailsKeyKind(t2);
    AggsKeyKind(t1, m, ts, from, to);
    AggsKeyKind(t2, m, ts, from, to);
    RateKeyKind(from, to);
  }

  /** Every entry sits under a key of its own resource. */
  ghost predicate WellTyped(entries: map<string, Entry<CacheValue>>) {
    forall k | k in entries :: KeyKind(k) == Some(ValueKind(entries[k].value))
  }

  /** Under `WellTyped`, whatever a live entry holds under a key of kind `kind`
      is a value of that kind. */
  lemma LookupHasKeyKind(entries: map<string, Entry<CacheValue>>, now: int, key: string, kind: Kind)
    requires WellTyped(entries) && KeyKind(key) == Some(kind)
    ensures LookupIn(entries, now, key).Some? ==> ValueKind(LookupIn(entries, now, key).value) == kind
  {
  }

  // ------------------------------------------------------------ normalisers

  function PrevCloseError(upperTicker: string): ServiceError {
    PlainError("Failed to fetch stock data for " + upperTicker + " from Polygon.io.")
  }

  /** The previous-close response mapping: the first result when there is one,
      null for an empty or missing result list, and a thrown error when the
      request failed. */
  function PrevCloseOf(ticker: string, resp: Http<PrevCloseBody>): (r: Raised<Option<PrevClose>>)
    ensures r.Threw? <==> resp.Failure?
    ensures r.Threw? ==> r.error == PrevCloseError(Upper(ticker))
    ensures r == Returned(None) <==> resp.Body? && (resp.data.results.None? || resp.data.results.value == [])
    ensures r.Returned? && r.value.Some? ==>
              resp.Body? && resp.data.results.Some? && |resp.data.results.value| > 0 &&
              r.value.value == resp.data.results.value[0]
  {
    match resp
    case Failure(_) => Threw(PrevCloseError(Upper(ticker)))
    case Body(PrevCloseBody(results)) =>
      if results.Some? && |results.value| > 0 then Returned(Some(results.value[0])) else Returned(None)
  }

  /** The ticker-details mapping: the `results` object, or null when it is
      missing or the request failed. */
  function DetailsOf(resp: Http<DetailsBody>): (r: Option<TickerDetails>)
    ensures r.Some? <==> resp.Body? && resp.data.results.Some?
    ensures r.Some? ==> r.value == resp.data.results.value
  {
    match resp
    case Failure(_) => None
    case Body(DetailsBody(results)) => results
  }

  /** The aggregates mapping: the result list, empty when missing or on failure. */
  function AggsOf(resp: Http<AggsBody>): (r: seq<AggBar>)
    ensures resp.Failure? ==> r == []
    ensures resp.Body? && resp.data.results.None? ==> r == []
    ensures resp.Body? && resp.data.results.Some? ==> r == resp.data.results.value
  {
    match resp
    case Failure(_) => []
    case Body(AggsBody(results)) => if results.Some? then results.value else []
  }

  /** The exchange-rate mapping. An 'Error Message', a missing or empty rate
      text, a text that does not parse, and a failed request all give null;
      none of them throws past this point. `parse` stands for
      `parseFloat` followed by the `isNaN` test. */
  function RateOf(resp: Http<RateBody>, parse: string -> Option<Number>): (r: Option<Number>)
    ensures resp.Failure? ==> r.None?
    ensures resp.Body? && Truthy(resp.data.errorMessage) ==> r.None?
    ensures resp.Body? && !Truthy(resp.data.rateText) ==> r.None?
    ensures resp.Body? && !Truthy(resp.data.errorMessage) && Truthy(resp.data.rateText) ==>
              r == parse(resp.data.rateText.value)
  {
    match resp
    case Failure(_) => None
    case Body(RateBody(rateText, errorMessage, _)) =>
      if Truthy(errorMessage) then None
      else if Truthy(rateText) then parse(rateText.value)
      else None
  }

  /** Whatever the answer, the rate mapping never throws and never invents a
      rate: a rate it returns is what `parse` read from the rate text. */
  lemma RateComesFromText(resp: Http<RateBody>, parse: string -> Option<Number>)
    requires RateOf(resp, parse).Some?
    ensures resp.Body? && resp.data.rateText.Some? && parse(resp.data.rateText.value) == RateOf(resp, parse)
  {
  }

  function CryptoError(): ServiceError {
    PlainError("Failed to fetch data from CoinGecko API.")
  }

  function CryptoOf(resp: Http<seq<CryptoQuote>>): (r: Raised<seq<CryptoQuote>>)
    ensures r.Threw? <==> resp.Failure?
    ensures r.Threw? ==> r.error == CryptoError()
    ensures resp.Body? ==> r == Returned(resp.data)
  {
    match resp
    case Failure(_) => Threw(CryptoError())
    case Body(quotes) => Returned(quotes)
  }

  // ---------------------------------------------------------------- service

  class Service {
    const keys: ApiKeys
    const cache: Cache<CacheValue>
    /** Every request sent upstream, oldest first. */
    ghost var calls: seq<UpstreamCall>

    ghost predicate Valid()
      reads this, cache
    {
      keys.polygon != "" && keys.alphaVantage != "" && WellTyped(cache.entries)
    }

    /** Built from the result of `Configure`, so both keys are present. */
    constructor (keys: ApiKeys, cache: Cache<CacheValue>)
      requires keys.polygon != "" && keys.alphaVantage != ""
      requires WellTyped(cache.entries)
      ensures Valid() && this.keys == keys && this.cache == cache && calls == []
    {
      this.keys := keys;
      this.cache := cache;
      calls := [];
    }

    /** CoinGecko market data: never cached, an upstream failure is rethrown. */
    method FetchCoinGeckoMarketData(vsCurrency: string, perPage: int, page: int, order: string,
                                    upstream: Http<seq<CryptoQuote>>)
      returns (r: Raised<seq<CryptoQuote>>)
      requires Valid()
      modifies this
      ensures Valid()
      ensures calls == old(calls) + [CoinGeckoMarkets(vsCurrency, perPage, page, order)]
      ensures r == CryptoOf(upstream)
    {
      calls := calls + [CoinGeckoMarkets(vsCurrency, perPage, page, order)];
      r := CryptoOf(upstream);
    }

    method FetchStockPreviousClose(ticker: string, upstream: Http<PrevCloseBody>)
      returns (r: Raised<Option<PrevClose>>)
      requires Valid()
      modifies this, cache
      ensures Valid() && cache.now == old(cache.now)
      ensures var hit := old(cache.Lookup(PrevCloseKey(ticker)));
        if hit.Some? then
          && hit.value.PrevCloseValue?
          && r == Returned(Some(hit.value.prev))
          && cache.entries == old(cache.entries)
          && calls == old(calls)
        else
          && calls == old(calls) + [PolygonPrevClose(Upper(ticker))]
          && r == PrevCloseOf(ticker, upstream)
          && cache.entries ==
               if r.Returned? && r.value.Some?
               then old(cache.entries)[PrevCloseKey(ticker) :=
                      Entry(PrevCloseValue(r.value.value), old(cache.now) + CACHE_TTL_STOCK_PRICE_MS)]
               else old(cache.entries)
    {
      var key := PrevCloseKey(ticker);
      PrevCloseKeyKind(ticker);
      LookupHasKeyKind(cache.entries, cache.now, key, PrevCloseKind);
      var cached := cache.Get(key);
      if cached.Some? {
        r := Returned(Some(cached.value.prev));
        return;
      }
      calls := calls + [PolygonPrevClose(Upper(ticker))];
      r := PrevCloseOf(ticker, upstream);
      if r.Returned? && r.value.Some? {
        cache.Set(key, PrevCloseValue(r.value.value), CACHE_TTL_STOCK_PRICE_MS);
      }
    }

    method FetchTickerDetails(ticker: string, upstream: Http<DetailsBody>)
      returns (r: Raised<Option<TickerDetails>>)
      requires Valid()
      modifies this, cache
      ensures Valid() && cache.now == old(cache.now)
      ensures r.Returned?
      ensures var hit := old(cache.Lookup(DetailsKey(ticker)));
        if hit.Some? then
          && hit.value.DetailsValue?
          && r == Returned(Some(hit.value.details))
          && cache.entries == old(cache.entries)
          && calls == old(calls)
        else
          && calls == old(calls) + [PolygonDetails(Upper(ticker))]
          && r == Returned(DetailsOf(upstream))
          && cache.entries ==
               if r.value.Some?
               then old(cache.entries)[DetailsKey(ticker) :=
                      Entry(DetailsValue(r.value.value), old(cache.now) + CACHE_TTL_STOCK_DETAILS_MS)]
               else old(cache.entries)
    {
      var key := DetailsKey(ticker);
      DetailsKeyKind(ticker);
      LookupHasKeyKind(cache.entries, cache.now, key, DetailsKind);
      var cached := cache.Get(key);
      if cached.Some? {
        r := Returned(Some(cached.value.details));
        return;
      }
      calls := calls + [PolygonDetails(Upper(ticker))];
      var details := DetailsOf(upstream);
      if details.Some? {
        cache.Set(key, DetailsValue(details.value), CACHE_TTL_STOCK_DETAILS_MS);
      }
      r := Returned(details);
    }

    /** A cached bar list is a hit even when empty (an array is truthy), but
        an empty list is never written, so only non-empty lists are cached. */
    method FetchStockAggregates(ticker: string, multiplier: int, timespan: string, from: string, to: string,
                                upstream: Http<AggsBody>)
      returns (r: Raised<seq<AggBar>>)
      requires Valid()
      modifies this, cache
      ensures Valid() && cache.now == old(cache.now)
      ensures r.Returned?
      ensures var key := AggsKey(ticker, multiplier, timespan, from, to);
        var hit := old(cache.Lookup(key));
        if hit.Some? then
          && hit.value.AggsValue?
          && r == Returned(hit.value.bars)
          && cache.entries == old(cache.entries)
          && calls == old(calls)
        else
          && calls == old(calls) + [PolygonAggs(Upper(ticker), multiplier, timespan, from, to)]
          && r == Returned(AggsOf(upstream))
          && cache.entries ==
               if |r.value| > 0
               then old(cache.entries)[key := Entry(AggsValue(r.value), old(cache.now) + CACHE_TTL_STOCK_AGGS_MS)]
               else old(cache.entries)
    {
      var key := AggsKey(ticker, multiplier, timespan, from, to);
      AggsKeyKind(ticker, multiplier, timespan, from, to);
      LookupHasKeyKind(cache.entries, cache.now, key, AggsKind);
      var cached := cache.Get(key);
      if cached.Some? {
        r := Returned(cached.value.bars);
        return;
      }
      calls := calls + [PolygonAggs(Upper(ticker), multiplier, timespan, from, to)];
      var bars := AggsOf(upstream);
      if |bars| > 0 {
        cache.Set(key, AggsValue(bars), CACHE_TTL_STOCK_AGGS_MS);
      }
      r := Returned(bars);
    }

    /** Only a cached non-null rate is a hit. On a miss the rate is fetched,
        and the cache is written either way: the rate for an hour, or null for
        fifteen minutes. A cached null is not a hit, so that null is never
        served from the cache. */
    method FetchAlphaVantageExchangeRate(fromCurrency: string, toCurrency: string,
                                         upstream: Http<RateBody>, parse: string -> Option<Number>)
      returns (r: Raised<RateReply>)
      requires Valid()
      modifies this, cache
      ensures Valid() && cache.now == old(cache.now)
      ensures r.Returned?
      ensures var key := RateKey(fromCurrency, toCurrency);
        var hit := old(cache.Lookup(key));
        if hit.Some? && hit.value.RateValue? && hit.value.rate.Some? then
          && r == Returned(RateReply(hit.value.rate, FromCache))
          && cache.entries == old(cache.entries)
          && calls == old(calls)
        else
          && calls == old(calls) + [AlphaVantageRate(Upper(fromCurrency), Upper(toCurrency))]
          && r == Returned(RateReply(RateOf(upstream, parse), FromApi))
          && cache.entries ==
               old(cache.entries)[key := Entry(RateValue(r.value.rate),
                 old(cache.now) + if r.value.rate.Some? then RATE_TTL_MS else RATE_NULL_TTL_MS)]
    {
      var key := RateKey(fromCurrency, toCurrency);
      RateKeyKind(fromCurrency, toCurrency);
      LookupHasKeyKind(cache.entries, cache.now, key, RateKind);
      var cached := cache.Get(key);
      if cached.Some? && cached.value.rate.Some? {
        r := Returned(RateReply(cached.value.rate, FromCache));
        return;
      }
      calls := calls + [AlphaVantageRate(Upper(fromCurrency), Upper(toCurrency))];
      var rate := RateOf(upstream, parse);
      if rate.Some? {
        cache.Set(key, RateValue(rate), RATE_TTL_MS);
      } else {
        cache.Set(key, RateValue(None), RATE_NULL_TTL_MS);
      }
      r := Returned(RateReply(rate, FromApi));
    }
  }

  // -------------------------------------------------------------- scenarios

  /** `aapl` then `AAPL`: once the first call has cached a bar, the second is
      served from the cache with no second upstream call. */
  method TickerCaseSharesOneCall(svc: Service, lower: string, upper: string,
                                 first: Http<PrevCloseBody>, second: Http<PrevCloseBody>)
    returns (r1: Raised<Option<PrevClose>>, r2: Raised<Option<PrevClose>>)
    requires svc.Valid() && svc.cache.Lookup(PrevCloseKey(lower)).None?
    requires Upper(lower) == Upper(upper)
    modifies svc, svc.cache
    ensures svc.Valid()
    ensures r1 == PrevCloseOf(lower, first)
    ensures r1.Returned? && r1.value.Some? ==> r2 == r1 && |svc.calls| == |old(svc.calls)| + 1
  {
    r1 := svc.FetchStockPreviousClose(lower, first);
    PrevCloseKeySharedIffSameTicker(lower, upper);
    r2 := svc.FetchStockPreviousClose(upper, second);
  }

  /** A failing rate lookup, asked twice in a row: both answers come from the
      API and both calls go upstream, because the null written by the first
      call does not count as a hit. */
  method FailedRateIsRefetched(svc: Service, from: string, to: string, parse: string -> Option<Number>)
    returns (r1: Raised<RateReply>, r2: Raised<RateReply>)
    requires svc.Valid()
    requires svc.cache.Lookup(RateKey(from, to)).None?
    modifies svc, svc.cache
    ensures svc.Valid()
    ensures r1 == Returned(RateReply(None, FromApi)) && r2 == r1
    ensures |svc.calls| == |old(svc.calls)| + 2
    ensures svc.cache.Lookup(RateKey(from, to)) == Some(RateValue(None))
  {
    r1 := svc.FetchAlphaVantageExchangeRate(from, to, Failure(None), parse);
    r2 := svc.FetchAlphaVantageExchangeRate(from, to, Failure(None), parse);
  }

  /** Three bars fetched for a range are served again, identical and without an
      upstream call, to a repeat request made within the hour. */
  method AggregatesServedWithinTheHour(svc: Service, bars: seq<AggBar>, elapsed: nat, second: Http<AggsBody>)
    returns (r1: Raised<seq<AggBar>>, r2: Raised<seq<AggBar>>)
    requires svc.Valid() && |bars| == 3 && elapsed < CACHE_TTL_STOCK_AGGS_MS
    requires svc.cache.Lookup(AggsKey("MSFT", 1, "day", "2024-01-01", "2024-01-05")).None?
    modifies svc, svc.cache
    ensures svc.Valid()
    ensures r1 == Returned(bars) && r2 == Returned(bars)
    ensures |svc.calls| == |old(svc.calls)| + 1
  {
    r1 := svc.FetchStockAggregates("MSFT", 1, "day", "2024-01-01", "2024-01-05", Body(AggsBody(Some(bars))));
    svc.cache.Tick(elapsed);
    r2 := svc.FetchStockAggregates("MSFT", 1, "day", "2024-01-01", "2024-01-05", second);
  }

  /** A range with no bars is asked for again upstream on the next request. */
  method EmptyAggregatesRefetched(svc: Service, t: string, m: int, ts: string, from: string, to: string,
                                  second: Http<AggsBody>)
    returns (r1: Raised<seq<AggBar>>, r2: Raised<seq<AggBar>>)
    requires svc.Valid() && svc.cache.Lookup(AggsKey(t, m, ts, from, to)).None?
    modifies svc, svc.cache
    ensures svc.Valid()
    ensures r1 == Returned([]) && r2 == Returned(AggsOf(second))
    ensures |svc.calls| == |old(svc.calls)| + 2
  {
    r1 := svc.FetchStockAggregates(t, m, ts, from, to, Body(AggsBody(Some([]))));
    r2 := svc.FetchStockAggregates(t, m, ts, from, to, second);
  }
}
