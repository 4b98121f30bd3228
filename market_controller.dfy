/** The market request layer. Each endpoint fills in defaults, rejects a
    missing required parameter before anything else happens, calls the
    service once, and maps what the service did (a value, null, or a thrown
    error) to a response or a status.

    The service call is a function argument: `service(args)` is the outcome
    the call would produce. "Rejected before the service is called" then
    reads: the reply does not depend on `service` at all. */
module MarketController {
  import opened Common
  import opened MarketService

  // ----------------------------------------------------------------- crypto

  datatype CryptoQuery = CryptoQuery(vsCurrency: string, perPage: int, page: int, order: string)

  /** Query defaulting for GET market/crypto; a falsy parameter takes its
      default, `toNumber` stands for `Number(...)`. */
  function CryptoQueryOf(vsCurrency: Option<string>, perPage: Option<string>, page: Option<string>,
                         order: Option<string>, toNumber: string -> int): (q: CryptoQuery)
    ensures q.vsCurrency == if Truthy(vsCurrency) then vsCurrency.value else "usd"
    ensures q.perPage == if Truthy(perPage) then toNumber(perPage.value) else 50
    ensures q.page == if Truthy(page) then toNumber(page.value) else 1
    ensures q.order == if Truthy(order) then order.value else "market_cap_desc"
  {
    CryptoQuery(
      if Truthy(vsCurrency) then vsCurrency.value else "usd",
      if Truthy(perPage) then toNumber(perPage.value) else 50,
      if Truthy(page) then toNumber(page.value) else 1,
      if Truthy(order) then order.value else "market_cap_desc")
  }

  /** GET market/crypto: any failure of the service becomes 503. */
  function GetCryptoMarketData(vsCurrency: Option<string>, perPage: Option<string>, page: Option<string>,
                               order: Option<string>, toNumber: string -> int,
                               service: CryptoQuery -> Raised<seq<CryptoQuote>>): (r: Reply<seq<CryptoQuote>>)
    ensures var q := CryptoQueryOf(vsCurrency, perPage, page, order, toNumber);
      && (service(q).Returned? ==> r == Respond(service(q).value))
      && (service(q).Threw? ==> r == Fail(ServiceUnavailable))
  {
    match service(CryptoQueryOf(vsCurrency, perPage, page, order, toNumber))
    case Returned(quotes) => Respond(quotes)
    case Threw(_) => Fail(ServiceUnavailable)
  }

  /** Against the service model: the crypto endpoint answers 503 exactly when
      CoinGecko failed, whatever the failure was. */
  lemma CryptoUnavailableIffUpstreamFailed(toNumber: string -> int, upstream: Http<seq<CryptoQuote>>)
    ensures var r := GetCryptoMarketData(None, None, None, None, toNumber, q => CryptoOf(upstream));
      (r == Fail(ServiceUnavailable) <==> upstream.Failure?) &&
      (upstream.Body? ==> r == Respond(upstream.data))
  {
  }

  // --------------------------------------------------------- previous close

  /** GET market/stocks/:ticker. A missing ticker is 400, a null result 404. */
  function GetStockPreviousClose(ticker: string, service: string -> Raised<Option<PrevClose>>): (r: Reply<PrevClose>)
    ensures ticker == "" ==> r == Fail(BadRequest)
    ensures ticker != "" && service(ticker) == Returned(None) ==> r == Fail(NotFound)
    ensures ticker != "" && service(ticker).Returned? && service(ticker).value.Some? ==>
              r == Respond(service(ticker).value.value)
    ensures ticker != "" && service(ticker).Threw? ==> r == Fail(StatusOf(service(ticker).error))
  {
    if ticker == "" then Fail(BadRequest)
    else match service(ticker)
      case Returned(Some(p)) => Respond(p)
      case Returned(None) => Fail(NotFound)
      case Threw(e) => Fail(StatusOf(e))
  }

  /** Against the service model, on a cache miss: 500 when Polygon failed,
      404 when it had no result, otherwise the first result. */
  lemma PrevCloseStatusOnMiss(ticker: string, upstream: Http<PrevCloseBody>)
    requires ticker != ""
    ensures var r := GetStockPreviousClose(ticker, t => PrevCloseOf(t, upstream));
      && (r == Fail(InternalServerError) <==> upstream.Failure?)
      && (r == Fail(NotFound) <==> upstream.Body? && (upstream.data.results.None? || upstream.data.results.value == []))
      && (r.Respond? ==> upstream.Body? && upstream.data.results.Some? && r.body == upstream.data.results.value[0])
  {
  }

  // ---------------------------------------------------------------- details

  /** GET market/stocks/:ticker/details: null is passed through as a body. */
  function GetTickerDetails(ticker: string, service: string -> Raised<Option<TickerDetails>>)
    : (r: Reply<Option<TickerDetails>>)
    ensures ticker == "" ==> r == Fail(BadRequest)
    ensures ticker != "" && service(ticker).Returned? ==> r == Respond(service(ticker).value)
    ensures ticker != "" && service(ticker).Threw? ==> r == Fail(StatusOf(service(ticker).error))
  {
    if ticker == "" then Fail(BadRequest)
    else match service(ticker)
      case Returned(d) => Respond(d)
      case Threw(e) => Fail(StatusOf(e))
  }

  /** Against the service model: with a ticker, the details endpoint always
      answers with a body, null when Polygon failed or had no details. */
  lemma DetailsAlwaysAnswered(ticker: string, upstream: Http<DetailsBody>)
    requires ticker != ""
    ensures GetTickerDetails(ticker, t => Returned(DetailsOf(upstream))) == Respond(DetailsOf(upstream))
    ensures upstream.Failure? ==> GetTickerDetails(ticker, t => Returned(DetailsOf(upstream))) == Respond(None)
  {
  }

  // ------------------------------------------------------------- aggregates

  datatype AggsQuery = AggsQuery(ticker: string, multiplier: int, timespan: string, from: string, to: string)

  /** Query defaulting for GET market/stocks/:ticker/aggs. `parseInt` stands
      for `parseInt(_, 10)`, `today` for today's date and `minusDays` for the
      dayjs subtraction, all formatted 'YYYY-MM-DD'. */
  function AggsQueryOf(ticker: string, multiplier: Option<string>, timespan: Option<string>,
                       from: Option<string>, to: Option<string>, limitDays: Option<string>,
                       parseInt: string -> int, today: string, minusDays: (string, int) -> string)
    : (q: AggsQuery)
    ensures q.ticker == ticker
    ensures q.multiplier == if Truthy(multiplier) then parseInt(multiplier.value) else 1
    ensures q.timespan == if Truthy(timespan) then timespan.value else "day"
    ensures q.to == if Truthy(to) then to.value else today
    ensures q.from == if Truthy(from) then from.value
                      else minusDays(q.to, if Truthy(limitDays) then parseInt(limitDays.value) else 7)
  {
    var daysToFetch := if Truthy(limitDays) then parseInt(limitDays.value) else 7;
    var dateTo := if Truthy(to) then to.value else today;
    var dateFrom := if Truthy(from) then from.value else minusDays(dateTo, daysToFetch);
    var mult := if Truthy(multiplier) then parseInt(multiplier.value) else 1;
    var ts := if Truthy(timespan) then timespan.value else "day";
    AggsQuery(ticker, mult, ts, dateFrom, dateTo)
  }

  /** With every optional parameter absent: multiplier 1, timespan 'day', and
      a range of the seven days up to today. */
  lemma AggsDefaults(ticker: string, parseInt: string -> int, today: string, minusDays: (string, int) -> string)
    ensures AggsQueryOf(ticker, None, None, None, None, None, parseInt, today, minusDays)
            == AggsQuery(ticker, 1, "day", minusDays(today, 7), today)
  {
  }

  function GetStockAggregates(ticker: string, multiplier: Option<string>, timespan: Option<string>,
                              from: Option<string>, to: Option<string>, limitDays: Option<string>,
                              parseInt: string -> int, today: string, minusDays: (string, int) -> string,
                              service: AggsQuery -> Raised<seq<AggBar>>): (r: Reply<seq<AggBar>>)
    ensures ticker == "" ==> r == Fail(BadRequest)
    ensures var q := AggsQueryOf(ticker, multiplier, timespan, from, to, limitDays, parseInt, today, minusDays);
      && (ticker != "" && service(q).Returned? ==> r == Respond(service(q).value))
      && (ticker != "" && service(q).Threw? ==> r == Fail(StatusOf(service(q).error)))
  {
    if ticker == "" then Fail(BadRequest)
    else match service(AggsQueryOf(ticker, multiplier, timespan, from, to, limitDays, parseInt, today, minusDays))
      case Returned(bars) => Respond(bars)
      case Threw(e) => Fail(StatusOf(e))
  }

  // ---------------------------------------------------------- exchange rate

  /** GET market/currency/exchange/:from/:to: both codes are required. */
  function GetAlphaVantageExchangeRate(from: string, to: string, service: (string, string) -> Raised<RateReply>)
    : (r: Reply<RateReply>)
    ensures from == "" || to == "" ==> r == Fail(BadRequest)
    ensures from != "" && to != "" && service(from, to).Returned? ==> r == Respond(service(from, to).value)
    ensures from != "" && to != "" && service(from, to).Threw? ==> r == Fail(StatusOf(service(from, to).error))
  {
    if from == "" || to == "" then Fail(BadRequest)
    else match service(from, to)
      case Returned(reply) => Respond(reply)
      case Threw(e) => Fail(StatusOf(e))
  }

  /** Against the service model, on a cache miss: an unavailable rate is a
      200 answer with rate null and source 'api', never an error status. */
  lemma UnavailableRateIsNotAnError(from: string, to: string, upstream: Http<RateBody>, parse: string -> Option<Number>)
    requires from != "" && to != ""
    requires upstream.Failure? || (upstream.Body? && Truthy(upstream.data.errorMessage))
    ensures GetAlphaVantageExchangeRate(from, to, (f, t) => Returned(RateReply(RateOf(upstream, parse), FromApi)))
            == Respond(RateReply(None, FromApi))
  {
  }
}
