/**
 The chat tools (app/api/chat/tools.ts): five provider adapters that
 normalise an already-parsed provider payload into a fixed record or an
 absence, and seven tools that turn adapter results into
 `{success, data?, message}`.

 Each provider is a function from the identifier the adapter asks for to the
 payload it would return (`None` when the request, the JSON parse or the
 expected key failed). Number parsing and formatting are fields of a
 `Numerics` record and are not interpreted.
 */
module Tools {
  import opened Base
  import Text

  // ---------------------------------------------------------------------------
  // Numbers

  /** A JavaScript number as far as the tools inspect it: finite, or NaN from a failed parse. */
  datatype JsNumber = Finite(value: real) | NaN

  /** `n >= 0` in JavaScript, which is false for NaN. */
  predicate NonNegative(n: JsNumber) {
    n.Finite? && n.value >= 0.0
  }

  /** JavaScript truthiness of a number: neither 0 nor NaN. */
  predicate TruthyNumber(n: JsNumber) {
    n.Finite? && n.value != 0.0
  }

  /** The floating-point parsing and formatting the tools call, left uninterpreted. */
  datatype Numerics = Numerics(
    parseFloat: string -> JsNumber,
    parseInt: string -> JsNumber,
    toFixed: (JsNumber, nat) -> string,
    toLocaleString: JsNumber -> string,
    show: JsNumber -> string)

  /** `parseFloat(field)`, where a missing field is `undefined` and parses to NaN. */
  function ParseFloatField(num: Numerics, field: Option<string>): JsNumber {
    match field
    case Some(s) => num.parseFloat(s)
    case None => NaN
  }

  function ParseIntField(num: Numerics, field: Option<string>): JsNumber {
    match field
    case Some(s) => num.parseInt(s)
    case None => NaN
  }

  /** `n / 1e9`. */
  function Billions(n: JsNumber): JsNumber {
    match n
    case Finite(v) => Finite(v / 1000000000.0)
    case NaN => NaN
  }

  /** The sign written before a change: "+" exactly when the value is not negative. */
  function SignPrefix(n: JsNumber): (p: string)
    ensures p == "+" <==> NonNegative(n)
    ensures p == "" <==> !NonNegative(n)
  {
    if NonNegative(n) then "+" else ""
  }

  // ---------------------------------------------------------------------------
  // Normalised records

  datatype StockQuote = StockQuote(
    symbol: Option<string>, price: JsNumber, change: JsNumber, changePercent: JsNumber,
    high: JsNumber, low: JsNumber, volume: JsNumber, latestTradingDay: Option<string>)

  /** A coin record as the crypto provider sends it; the adapters pass it through. */
  datatype CryptoPrice = CryptoPrice(
    id: string, symbol: string, name: string, currentPrice: JsNumber, priceChange24h: JsNumber,
    priceChangePercentage24h: JsNumber, marketCap: JsNumber, totalVolume: JsNumber,
    high24h: JsNumber, low24h: JsNumber)

  datatype ForexRate = ForexRate(base: string, target: string, rate: JsNumber, lastUpdated: Option<string>)

  /** The rates payload of the exchange-rate provider. */
  datatype ForexPayload = ForexPayload(rates: Option<map<string, JsNumber>>, date: Option<string>)

  /** One item of the news provider's `feed`. */
  datatype FeedItem = FeedItem(
    title: string, summary: Option<string>, source: string, url: string,
    timePublished: string, overallSentimentLabel: string)

  datatype MarketNews = MarketNews(
    title: string, summary: string, source: string, url: string, publishedAt: string, sentiment: string)

  /** One entry of the sentiment-index provider's `data`. */
  datatype IndexEntry = IndexEntry(value: string, valueClassification: string, timestamp: string)

  datatype FearGreedIndex = FearGreedIndex(value: JsNumber, classification: string, timestamp: string)

  // ---------------------------------------------------------------------------
  // Adapters

  function Lookup(m: map<string, string>, key: string): Option<string> {
    if key in m then Some(m[key]) else None
  }

  /**
   `fetchStockQuote` on the "Global Quote" object: absent or empty means no
   quote; otherwise the numbered provider fields are renamed and parsed, the
   percentage after its first "%" is removed.
   */
  function FetchStockQuote(num: Numerics, globalQuote: Option<map<string, string>>): (r: Option<StockQuote>)
    ensures r.Some? <==> globalQuote.Some? && |globalQuote.value| > 0
    ensures r.Some? ==>
              var g := globalQuote.value;
              && r.value.symbol == Lookup(g, "01. symbol")
              && r.value.price == ParseFloatField(num, Lookup(g, "05. price"))
              && r.value.change == ParseFloatField(num, Lookup(g, "09. change"))
              && r.value.high == ParseFloatField(num, Lookup(g, "03. high"))
              && r.value.low == ParseFloatField(num, Lookup(g, "04. low"))
              && r.value.volume == ParseIntField(num, Lookup(g, "06. volume"))
              && r.value.latestTradingDay == Lookup(g, "07. latest trading day")
    ensures r.Some? && "10. change percent" in globalQuote.value ==>
              r.value.changePercent == num.parseFloat(Text.ReplaceFirst(globalQuote.value["10. change percent"], "%", ""))
    ensures r.Some? && "10. change percent" !in globalQuote.value ==> r.value.changePercent == NaN
  {
    if globalQuote.None? || |globalQuote.value| == 0 then None
    else
      var g := globalQuote.value;
      var percent := match Lookup(g, "10. change percent")
        case Some(p) => Some(Text.ReplaceFirst(p, "%", ""))
        case None => None;
      Some(StockQuote(
        Lookup(g, "01. symbol"),
        ParseFloatField(num, Lookup(g, "05. price")),
        ParseFloatField(num, Lookup(g, "09. change")),
        ParseFloatField(num, percent),
        ParseFloatField(num, Lookup(g, "03. high")),
        ParseFloatField(num, Lookup(g, "04. low")),
        ParseIntField(num, Lookup(g, "06. volume")),
        Lookup(g, "07. latest trading day")))
  }

  /** `fetchCryptoPrice`: the first coin of a non-empty list, passed through unchanged. */
  function FetchCryptoPrice(coins: Option<seq<CryptoPrice>>): (r: Option<CryptoPrice>)
    ensures r.Some? <==> coins.Some? && |coins.value| > 0
    ensures r.Some? ==> r.value == coins.value[0]
  {
    if coins.Some? && |coins.value| > 0 then Some(coins.value[0]) else None
  }

  /** `fetchTopCryptos`: the provider's list as it comes, or empty when there is none. */
  function FetchTopCryptos(coins: Option<seq<CryptoPrice>>): (r: seq<CryptoPrice>)
    ensures coins.None? ==> r == []
    ensures coins.Some? ==> r == coins.value
  {
    coins.GetOr([])
  }

  /**
   `fetchForexRate`: a rate exists only when the target's entry is truthy, so
   a rate of 0 counts as missing; base and target echo the request.
   */
  function FetchForexRate(base: string, target: string, payload: Option<ForexPayload>): (r: Option<ForexRate>)
    ensures r.Some? <==>
              payload.Some? && payload.value.rates.Some? && target in payload.value.rates.value &&
              TruthyNumber(payload.value.rates.value[target])
    ensures r.Some? ==>
              && r.value.base == base && r.value.target == target
              && r.value.rate == payload.value.rates.value[target]
              && r.value.lastUpdated == payload.value.date
  {
    if payload.Some? && payload.value.rates.Some? && target in payload.value.rates.value &&
       TruthyNumber(payload.value.rates.value[target])
    then Some(ForexRate(base, target, payload.value.rates.value[target], payload.value.date))
    else None
  }

  const MaxNewsItems: nat := 5
  const SummaryLength: nat := 200

  /** `item.summary?.slice(0, 200) + "..."`; a missing summary renders as "undefined...". */
  function TruncateSummary(summary: Option<string>): (r: string)
    ensures |r| <= SummaryLength + 3
    ensures Text.EndsWith(r, "...")
    ensures summary.None? ==> r == "undefined..."
    ensures summary.Some? ==> Text.StartsWith(summary.value, r[..|r| - 3])
    ensures summary.Some? && |summary.value| >= SummaryLength ==> |r| == SummaryLength + 3
    ensures summary.Some? && |summary.value| <= SummaryLength ==> r == summary.value + "..."
  {
    var kept := match summary
      case Some(s) => if |s| <= SummaryLength then s else s[..SummaryLength]
      case None => "undefined";
    assert (kept + "...")[..|kept|] == kept;
    kept + "..."
  }

  /** One news item with the provider's field names replaced by the tool's. */
  function NormalizeNews(item: FeedItem): (n: MarketNews)
    ensures n.title == item.title && n.source == item.source && n.url == item.url
    ensures n.publishedAt == item.timePublished && n.sentiment == item.overallSentimentLabel
    ensures n.summary == TruncateSummary(item.summary)
  {
    MarketNews(item.title, TruncateSummary(item.summary), item.source, item.url,
               item.timePublished, item.overallSentimentLabel)
  }

  /** `fetchMarketNews`: the first five feed items, normalised, or empty without a feed. */
  function FetchMarketNews(feed: Option<seq<FeedItem>>): (r: seq<MarketNews>)
    ensures feed.None? ==> r == []
    ensures feed.Some? ==> |r| == if |feed.value| < MaxNewsItems then |feed.value| else MaxNewsItems
    ensures forall i :: 0 <= i < |r| ==> r[i] == NormalizeNews(feed.value[i])
    ensures forall i :: 0 <= i < |r| ==> |r[i].summary| <= SummaryLength + 3 && Text.EndsWith(r[i].summary, "...")
  {
    match feed
    case None => []
    case Some(items) =>
      var kept := if |items| < MaxNewsItems then items else items[..MaxNewsItems];
      seq(|kept|, i requires 0 <= i < |kept| => NormalizeNews(kept[i]))
  }

  /** `fetchFearGreedIndex`: the first entry of non-empty data, its value parsed as an integer. */
  function FetchFearGreedIndex(num: Numerics, entries: Option<seq<IndexEntry>>): (r: Option<FearGreedIndex>)
    ensures r.Some? <==> entries.Some? && |entries.value| > 0
    ensures r.Some? ==>
              && r.value.value == num.parseInt(entries.value[0].value)
              && r.value.classification == entries.value[0].valueClassification
              && r.value.timestamp == entries.value[0].timestamp
  {
    if entries.Some? && |entries.value| > 0 then
      var e := entries.value[0];
      Some(FearGreedIndex(num.parseInt(e.value), e.valueClassification, e.timestamp))
    else None
  }

  // ---------------------------------------------------------------------------
  // Tool results

  datatype ToolData =
    | StockData(quote: StockQuote)
    | CryptoData(coin: CryptoPrice)
    | CryptoListData(coins: seq<CryptoPrice>)
    | ForexData(rate: ForexRate)
    | NewsData(news: seq<MarketNews>)
    | IndexData(index: FearGreedIndex)

  datatype ToolResult = ToolResult(success: bool, data: Option<ToolData>, message: string)

  /** Every result carries a message to render, and data only when it succeeded. */
  predicate WellFormed(r: ToolResult) {
    r.message != "" && (r.data.Some? ==> r.success)
  }

  /** A failed lookup: no data and an explanatory message. */
  function Failure(message: string): (r: ToolResult)
    requires message != ""
    ensures WellFormed(r) && !r.success && r.data.None?
  {
    ToolResult(false, None, message)
  }

  /** The numeral of a 1-based list position. */
  function Ordinal(i: nat): string {
    Text.NatToString(i + 1)
  }

  // getStockQuote

  const StockFailurePrefix: string := "Unable to fetch stock data for "

  function StockMessage(num: Numerics, q: StockQuote): string {
    "Stock data for " + Show(q.symbol) + ": Price $" + num.toFixed(q.price, 2)
    + ", Change: " + SignPrefix(q.change) + num.toFixed(q.change, 2)
    + " (" + SignPrefix(q.changePercent) + num.toFixed(q.changePercent, 2)
    + "%), Day Range: $" + num.toFixed(q.low, 2) + " - $" + num.toFixed(q.high, 2)
    + ", Volume: " + num.toLocaleString(q.volume)
  }

  /** `getStockQuote`: the symbol is upper-cased before the lookup; a failure echoes it as given. */
  function GetStockQuote(symbol: string, provider: string -> Option<map<string, string>>, num: Numerics): (r: ToolResult)
    ensures WellFormed(r)
    ensures r.success <==> FetchStockQuote(num, provider(Text.ToUpper(symbol))).Some?
    ensures r.success ==>
              && r.data == Some(StockData(FetchStockQuote(num, provider(Text.ToUpper(symbol))).value))
              && r.message == StockMessage(num, r.data.value.quote)
    ensures !r.success ==> r.data.None? && Text.OccursAt(r.message, symbol, |StockFailurePrefix|)
  {
    var quote := FetchStockQuote(num, provider(Text.ToUpper(symbol)));
    if quote.Some? then ToolResult(true, Some(StockData(quote.value)), StockMessage(num, quote.value))
    else
      var m := StockFailurePrefix + symbol + ". The symbol might be invalid"
               + " or the API limit may have been reached.";
      assert m[|StockFailurePrefix|..|StockFailurePrefix| + |symbol|] == symbol;
      Failure(m)
  }

  /** Symbols that differ only in letter case fetch the same quote. */
  lemma StockSymbolCaseInsensitive(s1: string, s2: string, provider: string -> Option<map<string, string>>, num: Numerics)
    requires Text.ToLower(s1) == Text.ToLower(s2)
    ensures GetStockQuote(s1, provider, num).success == GetStockQuote(s2, provider, num).success
    ensures GetStockQuote(s1, provider, num).data == GetStockQuote(s2, provider, num).data
  {
    Text.ToUpperIgnoresCase(s1, s2);
  }

  // getCryptoPrice

  const CryptoFailurePrefix: string := "Unable to fetch crypto data for "

  function CryptoMessage(num: Numerics, c: CryptoPrice): string {
    c.name + " (" + Text.ToUpper(c.symbol) + "): Price $" + num.toLocaleString(c.currentPrice)
    + ", 24h Change: " + SignPrefix(c.priceChangePercentage24h) + num.toFixed(c.priceChangePercentage24h, 2)
    + "%, Market Cap: $" + num.toFixed(Billions(c.marketCap), 2)
    + "B, 24h Volume: $" + num.toFixed(Billions(c.totalVolume), 2) + "B"
  }

  /** `getCryptoPrice`: the coin id is lower-cased before the lookup; a failure echoes it as given. */
  function GetCryptoPrice(coinId: string, provider: string -> Option<seq<CryptoPrice>>, num: Numerics): (r: ToolResult)
    ensures WellFormed(r)
    ensures r.success <==> FetchCryptoPrice(provider(Text.ToLower(coinId))).Some?
    ensures r.success ==>
              && r.data == Some(CryptoData(provider(Text.ToLower(coinId)).value[0]))
              && r.message == CryptoMessage(num, r.data.value.coin)
    ensures !r.success ==> r.data.None? && Text.OccursAt(r.message, coinId, |CryptoFailurePrefix|)
  {
    var coin := FetchCryptoPrice(provider(Text.ToLower(coinId)));
    if coin.Some? then ToolResult(true, Some(CryptoData(coin.value)), CryptoMessage(num, coin.value))
    else
      var m := CryptoFailurePrefix + coinId + ". Please check the coin name.";
      assert m[|CryptoFailurePrefix|..|CryptoFailurePrefix| + |coinId|] == coinId;
      Failure(m)
  }

  /** Coin ids that differ only in letter case fetch the same coin. */
  lemma CoinIdCaseInsensitive(c1: string, c2: string, provider: string -> Option<seq<CryptoPrice>>, num: Numerics)
    requires Text.ToUpper(c1) == Text.ToUpper(c2)
    ensures GetCryptoPrice(c1, provider, num).success == GetCryptoPrice(c2, provider, num).success
    ensures GetCryptoPrice(c1, provider, num).data == GetCryptoPrice(c2, provider, num).data
  {
    Text.ToLowerIgnoresCase(c1, c2);
  }

  // getTopCryptos

  const DefaultTopLimit: real := 10.0

  /**
   The `limit` schema: a number in [1, 20], 10 when omitted. The rejection
   text comes from the schema library and is not modelled: the two reasons
   below are placeholders that only tell the two bounds apart.
   */
  function ValidateTopLimit(limit: Option<real>): (r: Validated<real>)
    ensures limit.None? ==> r == Valid(DefaultTopLimit)
    ensures limit.Some? ==> (r.Valid? <==> 1.0 <= limit.value <= 20.0)
    ensures limit.Some? && r.Valid? ==> r.value == limit.value
    ensures r.Valid? ==> 1.0 <= r.value <= 20.0
  {
    match limit
    case None => Valid(DefaultTopLimit)
    case Some(n) =>
      if n < 1.0 then Invalid("limit must be at least 1")
      else if n > 20.0 then Invalid("limit must be at most 20")
      else Valid(n)
  }

  function TopCryptoLine(num: Numerics, position: nat, c: CryptoPrice): string {
    Ordinal(position) + ". " + c.name + " (" + Text.ToUpper(c.symbol) + "): $"
    + num.toLocaleString(c.currentPrice) + " (" + SignPrefix(c.priceChangePercentage24h)
    + num.toFixed(c.priceChangePercentage24h, 2) + "%)"
  }

  /** One line per coin, numbered from 1 in the provider's order. */
  function TopCryptoLines(num: Numerics, coins: seq<CryptoPrice>): (lines: seq<string>)
    ensures |lines| == |coins|
    ensures forall i :: 0 <= i < |coins| ==>
              Text.StartsWith(lines[i], Text.NatToString(i + 1) + ". " + coins[i].name + " (")
  {
    seq(|coins|, i requires 0 <= i < |coins| => TopCryptoLine(num, i, coins[i]))
  }

  function TopCryptosHeader(num: Numerics, limit: real): string {
    "Top " + num.show(Finite(limit)) + " Cryptocurrencies by Market Cap:\n"
  }

  /**
   `getTopCryptos`: a limit outside [1, 20] is rejected before any lookup; the
   header names the requested limit, whatever number of coins came back.
   */
  function GetTopCryptos(limit: Option<real>, provider: real -> Option<seq<CryptoPrice>>, num: Numerics): (r: Validated<ToolResult>)
    ensures r.Invalid? <==> limit.Some? && !(1.0 <= limit.value <= 20.0)
    ensures r.Valid? ==> WellFormed(r.value)
    ensures r.Valid? ==>
              var n := limit.GetOr(DefaultTopLimit);
              var coins := FetchTopCryptos(provider(n));
              && (r.value.success <==> |coins| > 0)
              && (r.value.success ==>
                    && r.value.data == Some(CryptoListData(coins))
                    && r.value.message == TopCryptosHeader(num, n) + Text.Join(TopCryptoLines(num, coins), "\n"))
              && (!r.value.success ==> r.value.data.None?)
  {
    match ValidateTopLimit(limit)
    case Invalid(reason) => Invalid(reason)
    case Valid(n) =>
      var coins := FetchTopCryptos(provider(n));
      if |coins| > 0 then
        Valid(ToolResult(true, Some(CryptoListData(coins)),
                         TopCryptosHeader(num, n) + Text.Join(TopCryptoLines(num, coins), "\n")))
      else Valid(Failure("Unable to fetch top cryptocurrencies."))
  }

  // getForexRate

  const ForexFailurePrefix: string := "Unable to fetch exchange rate for "

  function ForexMessage(num: Numerics, rate: ForexRate): string {
    "Exchange Rate: 1 " + rate.base + " = " + num.toFixed(rate.rate, 4) + " " + rate.target
    + " (Last updated: " + Show(rate.lastUpdated) + ")"
  }

  /**
   `getForexRate`: both codes are upper-cased; the base chooses the request
   and the target the entry read from it. A failure echoes the codes as given.
   */
  function GetForexRate(baseCurrency: string, targetCurrency: string,
                        provider: string -> Option<ForexPayload>, num: Numerics): (r: ToolResult)
    ensures WellFormed(r)
    ensures var rate := FetchForexRate(Text.ToUpper(baseCurrency), Text.ToUpper(targetCurrency),
                                       provider(Text.ToUpper(baseCurrency)));
            && (r.success <==> rate.Some?)
            && (r.success ==> r.data == Some(ForexData(rate.value)) && r.message == ForexMessage(num, rate.value))
    ensures r.success ==>
              r.data.value.rate.base == Text.ToUpper(baseCurrency) &&
              r.data.value.rate.target == Text.ToUpper(targetCurrency)
    ensures !r.success ==>
              && r.data.None?
              && Text.OccursAt(r.message, baseCurrency, |ForexFailurePrefix|)
              && Text.OccursAt(r.message, targetCurrency, |ForexFailurePrefix| + |baseCurrency| + 1)
  {
    var base := Text.ToUpper(baseCurrency);
    var target := Text.ToUpper(targetCurrency);
    var rate := FetchForexRate(base, target, provider(base));
    if rate.Some? then ToolResult(true, Some(ForexData(rate.value)), ForexMessage(num, rate.value))
    else
      var m := ForexFailurePrefix + baseCurrency + "/" + targetCurrency + ".";
      assert m[|ForexFailurePrefix|..|ForexFailurePrefix| + |baseCurrency|] == baseCurrency;
      assert m[|ForexFailurePrefix| + |baseCurrency| + 1..|ForexFailurePrefix| + |baseCurrency| + 1 + |targetCurrency|]
             == targetCurrency;
      Failure(m)
  }

  // getMarketNews

  function NewsLine(position: nat, n: MarketNews): string {
    Ordinal(position) + ". **" + n.title + "** (" + n.source + ") - Sentiment: " + n.sentiment
    + "\n   " + n.summary
  }

  /** One entry per news item, numbered from 1 in feed order. */
  function NewsLines(news: seq<MarketNews>): (lines: seq<string>)
    ensures |lines| == |news|
    ensures forall i :: 0 <= i < |news| ==>
              Text.StartsWith(lines[i], Text.NatToString(i + 1) + ". **" + news[i].title + "** (")
  {
    seq(|news|, i requires 0 <= i < |news| => NewsLine(i, news[i]))
  }

  /** The ticker filter sent to the provider: none when the argument is absent or empty. */
  function TickerFilter(tickers: Option<string>): Option<string> {
    if Truthy(tickers) then tickers else None
  }

  /** `getMarketNews`: the entries are numbered and separated by blank lines. */
  function GetMarketNews(tickers: Option<string>, provider: Option<string> -> Option<seq<FeedItem>>): (r: ToolResult)
    ensures WellFormed(r)
    ensures var news := FetchMarketNews(provider(TickerFilter(tickers)));
            && (r.success <==> |news| > 0)
            && (r.success ==>
                  && r.data == Some(NewsData(news))
                  && r.message == "Latest Market News:\n\n" + Text.Join(NewsLines(news), "\n\n"))
            && (!r.success ==> r.data.None?)
  {
    var news := FetchMarketNews(provider(TickerFilter(tickers)));
    if |news| > 0 then
      ToolResult(true, Some(NewsData(news)), "Latest Market News:\n\n" + Text.Join(NewsLines(news), "\n\n"))
    else Failure("Unable to fetch market news at this time.")
  }

  // getFearGreedIndex

  function IndexMessage(num: Numerics, index: FearGreedIndex): string {
    "Crypto Fear & Greed Index: " + num.show(index.value) + "/100 (" + index.classification + "). "
    + "This indicates the current market sentiment - "
    + "lower values suggest fear (potential buying opportunity), "
    + "higher values suggest greed (potential caution)."
  }

  /** `getFearGreedIndex`. */
  function GetFearGreedIndex(entries: Option<seq<IndexEntry>>, num: Numerics): (r: ToolResult)
    ensures WellFormed(r)
    ensures var index := FetchFearGreedIndex(num, entries);
            && (r.success <==> index.Some?)
            && (r.success ==> r.data == Some(IndexData(index.value)) && r.message == IndexMessage(num, index.value))
            && (!r.success ==> r.data.None?)
  {
    var index := FetchFearGreedIndex(num, entries);
    if index.Some? then ToolResult(true, Some(IndexData(index.value)), IndexMessage(num, index.value))
    else Failure("Unable to fetch Fear & Greed Index.")
  }

  // getMarketOverview

  const OverviewHeader: string := "\U{1F4CA} **Market Overview**\n\n"
  const RisingIcon: string := "\U{1F4C8}"
  const FallingIcon: string := "\U{1F4C9}"
  const OverviewCryptoHeader: string := "**Top 3 Cryptocurrencies:**\n"

  /** The sentiment paragraph, present exactly when the index was fetched. */
  function SentimentSection(num: Numerics, index: Option<FearGreedIndex>): (s: string)
    ensures s == "" <==> index.None?
    ensures index.Some? ==> Text.StartsWith(s, "**Crypto Market Sentiment:** " + index.value.classification)
  {
    match index
    case None => ""
    case Some(i) => "**Crypto Market Sentiment:** " + i.classification + " (" + num.show(i.value) + "/100)\n\n"
  }

  /** The trend icon: rising exactly when the 24h change is not negative. */
  function TrendIcon(change: JsNumber): (icon: string)
    ensures icon == RisingIcon <==> NonNegative(change)
    ensures icon == FallingIcon <==> !NonNegative(change)
  {
    if NonNegative(change) then RisingIcon else FallingIcon
  }

  function OverviewLine(num: Numerics, position: nat, c: CryptoPrice): string {
    Ordinal(position) + ". " + c.name + ": $" + num.toLocaleString(c.currentPrice) + " "
    + TrendIcon(c.priceChangePercentage24h) + " " + num.toFixed(c.priceChangePercentage24h, 2) + "%\n"
  }

  /** The lines of the first `n` coins, concatenated. */
  function OverviewLines(num: Numerics, coins: seq<CryptoPrice>, n: nat): (s: string)
    requires n <= |coins|
  {
    if n == 0 then "" else OverviewLines(num, coins, n - 1) + OverviewLine(num, n - 1, coins[n - 1])
  }

  /** The coin list, present exactly when coins came back; every coin gets a line. */
  function CryptoSection(num: Numerics, coins: seq<CryptoPrice>): (s: string)
    ensures s == "" <==> |coins| == 0
    ensures |coins| > 0 ==> s == OverviewCryptoHeader + OverviewLines(num, coins, |coins|)
  {
    if |coins| > 0 then OverviewCryptoHeader + OverviewLines(num, coins, |coins|) else ""
  }

  /**
   `getMarketOverview`: never fails and carries no data; the header is always
   there, followed by the sentiment paragraph when the index was fetched and
   the coin list when any coin came back. The two lookups are independent.
   */
  function GetMarketOverview(entries: Option<seq<IndexEntry>>, provider: real -> Option<seq<CryptoPrice>>,
                             num: Numerics): (r: ToolResult)
    ensures WellFormed(r) && r.success && r.data.None?
    ensures var index := FetchFearGreedIndex(num, entries);
            var coins := FetchTopCryptos(provider(3.0));
            r.message == OverviewHeader + SentimentSection(num, index) + CryptoSection(num, coins)
    ensures Text.StartsWith(r.message, OverviewHeader)
  {
    var index := FetchFearGreedIndex(num, entries);
    var coins := FetchTopCryptos(provider(3.0));
    var m := OverviewHeader + SentimentSection(num, index) + CryptoSection(num, coins);
    assert m[..|OverviewHeader|] == OverviewHeader;
    ToolResult(true, None, m)
  }
}
