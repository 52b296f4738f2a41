/** The quote client of `src/lib/api.ts`: one quote with its three-tier fallback,
    symbol search, and the daily and intraday price series. The transport's outcome,
    the number parsers and the clock are inputs. */
module QuoteClient {
  import opened Wrappers
  import opened Text
  import opened Payload

  /** `StockQuote`. */
  datatype StockQuote = StockQuote(
    symbol: string,
    price: real,
    change: real,
    changePercent: real,
    volume: int,
    lastUpdated: string)

  /** What the client takes from the JavaScript runtime. `parseFloat` and `parseInt`
      give `None` for `NaN`; `toIso` is `new Date(s).toISOString()`, `None` where that
      throws; `nowIso` is `new Date().toISOString()` at the time of the call. */
  datatype Env = Env(
    parseFloat: string -> Option<real>,
    parseInt: string -> Option<int>,
    toIso: string -> Option<string>,
    nowIso: string)

  const GlobalQuoteKey := "Global Quote"
  const SymbolKey := "01. symbol"
  const PriceKey := "05. price"
  const VolumeKey := "06. volume"
  const TradingDayKey := "07. latest trading day"
  const ChangeKey := "09. change"
  const ChangePercentKey := "10. change percent"
  const BestMatchesKey := "bestMatches"
  const DailySeriesKey := "Time Series (Daily)"
  const IntradaySeriesKey := "Time Series (5min)"

  /** The localStorage key under which a symbol's last quote is kept. */
  function CacheKey(symbol: string): string {
    "quote_" + symbol
  }

  /** `obj[key]`, `None` for `undefined`. */
  function Field(f: Fields, key: string): Option<string> {
    if key in f then Some(f[key]) else None
  }

  /** `obj[key] || fallback` on a string field: a missing or empty field falls back. */
  function TextOr(f: Fields, key: string, fallback: string): (r: string)
    ensures key in f && f[key] != "" ==> r == f[key]
    ensures key !in f || f[key] == "" ==> r == fallback
    ensures r == "" ==> fallback == ""
  {
    if key in f && f[key] != "" then f[key] else fallback
  }

  /** `parseFloat(obj[key]) || 0`, with `pre` applied to the text before parsing. */
  function RealOrZero(env: Env, f: Fields, key: string, pre: string -> string): (r: real)
    ensures key !in f || env.parseFloat(pre(f[key])).None? ==> r == 0.0
    ensures key in f && env.parseFloat(pre(f[key])).Some? ==> r == env.parseFloat(pre(f[key])).value
  {
    if key in f then env.parseFloat(pre(f[key])).GetOr(0.0) else 0.0
  }

  /** `parseInt(obj[key]) || 0`. */
  function IntOrZero(env: Env, f: Fields, key: string): (r: int)
    ensures key !in f || env.parseInt(f[key]).None? ==> r == 0
    ensures key in f && env.parseInt(f[key]).Some? ==> r == env.parseInt(f[key]).value
  {
    if key in f then env.parseInt(f[key]).GetOr(0) else 0
  }

  function NoChange(s: string): string { s }

  function StripPercent(s: string): string { RemoveFirst(s, '%') }

  /** The quote object of a reply when `get` succeeded and it is present and non-empty. */
  function LiveQuote(reply: Reply): (q: Option<Fields>)
    ensures q.Some? <==> Get(reply).Ok? && GlobalQuoteKey in Get(reply).value.records
                         && Get(reply).value.records[GlobalQuoteKey] != map[]
    ensures q.Some? ==> q.value == Get(reply).value.records[GlobalQuoteKey] && q.value != map[]
    ensures Throttled(reply) || reply.Failed? ==> q.None?
  {
    match Get(reply)
    case Err(_) => None
    case Ok(b) =>
      if GlobalQuoteKey in b.records && b.records[GlobalQuoteKey] != map[]
      then Some(b.records[GlobalQuoteKey]) else None
  }

  /** The quote built from a valid quote object (the `return` of the `try` block). */
  function ParseQuote(env: Env, symbol: string, f: Fields): StockQuote {
    StockQuote(
      TextOr(f, SymbolKey, symbol),
      RealOrZero(env, f, PriceKey, NoChange),
      RealOrZero(env, f, ChangeKey, NoChange),
      RealOrZero(env, f, ChangePercentKey, StripPercent),
      IntOrZero(env, f, VolumeKey),
      TextOr(f, TradingDayKey, Before(env.nowIso, 'T')))
  }

  /** Parsing never fails on a present quote object: every missing or unparseable
      number becomes 0, the percentage is parsed without its first `%`, and a missing
      or empty symbol or trading day falls back to the requested symbol and to
      today's date (the part of the current ISO time before the `T`). */
  lemma ParsedFieldsDefault(env: Env, symbol: string, f: Fields)
    ensures var q := ParseQuote(env, symbol, f);
      && (PriceKey !in f || env.parseFloat(f[PriceKey]).None? ==> q.price == 0.0)
      && (PriceKey in f && env.parseFloat(f[PriceKey]).Some? ==> q.price == env.parseFloat(f[PriceKey]).value)
      && (ChangeKey !in f || env.parseFloat(f[ChangeKey]).None? ==> q.change == 0.0)
      && (ChangeKey in f && env.parseFloat(f[ChangeKey]).Some? ==> q.change == env.parseFloat(f[ChangeKey]).value)
      && (ChangePercentKey !in f || env.parseFloat(RemoveFirst(f[ChangePercentKey], '%')).None? ==> q.changePercent == 0.0)
      && (ChangePercentKey in f && env.parseFloat(RemoveFirst(f[ChangePercentKey], '%')).Some? ==>
            q.changePercent == env.parseFloat(RemoveFirst(f[ChangePercentKey], '%')).value)
      && (VolumeKey !in f || env.parseInt(f[VolumeKey]).None? ==> q.volume == 0)
      && (VolumeKey in f && env.parseInt(f[VolumeKey]).Some? ==> q.volume == env.parseInt(f[VolumeKey]).value)
      && q.symbol == (if SymbolKey in f && f[SymbolKey] != "" then f[SymbolKey] else symbol)
      && q.lastUpdated == (if TradingDayKey in f && f[TradingDayKey] != "" then f[TradingDayKey]
                           else Before(env.nowIso, 'T'))
  {
  }

  /** The zero-valued quote returned when there is neither live nor cached data. */
  function Placeholder(symbol: string, nowIso: string): (q: StockQuote)
    ensures q.symbol == symbol && q.lastUpdated == nowIso
    ensures q.price == 0.0 && q.change == 0.0 && q.changePercent == 0.0 && q.volume == 0
  {
    StockQuote(symbol, 0.0, 0.0, 0.0, 0, nowIso)
  }

  /** The `catch` branch of `getQuote`: the cached quote with its timestamp
      normalised, else the placeholder. Normalising throws on an invalid date. */
  function Fallback(env: Env, cache: map<string, StockQuote>, symbol: string): (r: Result<StockQuote, ApiError>)
    ensures CacheKey(symbol) !in cache ==> r == Ok(Placeholder(symbol, env.nowIso))
    ensures CacheKey(symbol) in cache ==>
      (match env.toIso(cache[CacheKey(symbol)].lastUpdated)
       case Some(t) => r == Ok(cache[CacheKey(symbol)].(lastUpdated := t))
       case None => r == Err(InvalidTime))
  {
    var key := CacheKey(symbol);
    if key in cache then
      match env.toIso(cache[key].lastUpdated)
      case Some(t) => Ok(cache[key].(lastUpdated := t))
      case None => Err(InvalidTime)
    else
      Ok(Placeholder(symbol, env.nowIso))
  }

  /** `getQuote`, given how its request settled. It fails only when the cache entry
      it falls back on holds a date that cannot be normalised; the rate-limit error
      never escapes it. */
  function GetQuote(env: Env, cache: map<string, StockQuote>, symbol: string, reply: Reply): (r: Result<StockQuote, ApiError>)
    ensures LiveQuote(reply).Some? ==> r == Ok(ParseQuote(env, symbol, LiveQuote(reply).value))
    ensures LiveQuote(reply).None? ==> r == Fallback(env, cache, symbol)
    ensures r.Err? ==> r.error == InvalidTime && CacheKey(symbol) in cache
                       && env.toIso(cache[CacheKey(symbol)].lastUpdated).None?
  {
    match LiveQuote(reply)
    case Some(f) => Ok(ParseQuote(env, symbol, f))
    case None => Fallback(env, cache, symbol)
  }

  /** A tier-two answer is the quote the store saved for that symbol, with only its timestamp changed. */
  lemma SavedQuoteServesFailure(env: Env, cache: map<string, StockQuote>, symbol: string, q: StockQuote, reply: Reply)
    requires LiveQuote(reply).None?
    requires env.toIso(q.lastUpdated).Some?
    ensures GetQuote(env, cache[CacheKey(symbol) := q], symbol, reply)
            == Ok(q.(lastUpdated := env.toIso(q.lastUpdated).value))
  {
  }

  /** Without a usable cache entry every failure, throttling included, yields the
      placeholder for the requested symbol: `getQuote` then never fails. */
  lemma NoCacheNeverFails(env: Env, cache: map<string, StockQuote>, symbol: string, reply: Reply)
    requires CacheKey(symbol) !in cache
    ensures GetQuote(env, cache, symbol, reply).Ok?
    ensures LiveQuote(reply).None? ==> GetQuote(env, cache, symbol, reply).value.symbol == symbol
  {
  }

  /** A throttled reply and one with no quote object at all take the same fallback path. */
  lemma ThrottledLikeMissing(env: Env, cache: map<string, StockQuote>, symbol: string, throttled: Reply, empty: Reply)
    requires Throttled(throttled) && LiveQuote(empty).None?
    ensures GetQuote(env, cache, symbol, throttled) == GetQuote(env, cache, symbol, empty)
  {
  }

  /** The worked example of a successful reply: "175.50", "2.30" and "1.33%" give
      175.50, 2.30 and 1.33, the percent sign being stripped before parsing. */
  lemma ExampleQuote(env: Env, cache: map<string, StockQuote>, reply: Reply)
    requires reply.Received? && reply.body.note.None?
    requires GlobalQuoteKey in reply.body.records
    requires reply.body.records[GlobalQuoteKey]
             == map[PriceKey := "175.50", ChangeKey := "2.30", ChangePercentKey := "1.33%"]
    requires env.parseFloat("175.50") == Some(175.50) && env.parseFloat("2.30") == Some(2.30)
    requires env.parseFloat("1.33") == Some(1.33)
    ensures GetQuote(env, cache, "AAPL", reply).Ok?
    ensures var q := GetQuote(env, cache, "AAPL", reply).value;
            q.symbol == "AAPL" && q.price == 175.50 && q.change == 2.30 && q.changePercent == 1.33 && q.volume == 0
  {
    var f := reply.body.records[GlobalQuoteKey];
    assert PriceKey in f;
    assert LiveQuote(reply) == Some(f);
    ExampleFields(env, f);
  }

  lemma PercentStripped()
    ensures StripPercent("1.33%") == "1.33"
  {
    assert IndexOf("1.33%", '%') == 4 by {
      assert "1.33%"[1..] == ".33%" && ".33%"[1..] == "33%" && "33%"[1..] == "3%" && "3%"[1..] == "%";
    }
  }

  lemma ExampleFields(env: Env, f: Fields)
    requires f == map[PriceKey := "175.50", ChangeKey := "2.30", ChangePercentKey := "1.33%"]
    requires env.parseFloat("175.50") == Some(175.50) && env.parseFloat("2.30") == Some(2.30)
    requires env.parseFloat("1.33") == Some(1.33)
    ensures var q := ParseQuote(env, "AAPL", f);
            q.symbol == "AAPL" && q.price == 175.50 && q.change == 2.30 && q.changePercent == 1.33 && q.volume == 0
  {
    PercentStripped();
    assert SymbolKey !in f;
    assert VolumeKey !in f;
  }

  /** One entry of `bestMatches`; `kind` is the source's `type`. Missing fields stay `undefined`. */
  datatype StockMatch = StockMatch(symbol: Option<string>, name: Option<string>, kind: Option<string>, region: Option<string>)

  function MatchOf(f: Fields): (m: StockMatch)
    ensures m.symbol.Some? <==> "1. symbol" in f
    ensures m.name.Some? <==> "2. name" in f
    ensures m.kind.Some? <==> "3. type" in f
    ensures m.region.Some? <==> "4. region" in f
    ensures m.symbol.Some? ==> m.symbol.value == f["1. symbol"]
    ensures m.name.Some? ==> m.name.value == f["2. name"]
    ensures m.kind.Some? ==> m.kind.value == f["3. type"]
    ensures m.region.Some? ==> m.region.value == f["4. region"]
  {
    StockMatch(Field(f, "1. symbol"), Field(f, "2. name"), Field(f, "3. type"), Field(f, "4. region"))
  }

  /** `searchStocks`: one match per entry of `bestMatches`, in order; no list, or any error, gives []. */
  function SearchStocks(reply: Reply): (r: seq<StockMatch>)
    ensures Get(reply).Err? ==> r == []
    ensures Get(reply).Ok? && BestMatchesKey !in Get(reply).value.lists ==> r == []
    ensures Get(reply).Ok? && BestMatchesKey in Get(reply).value.lists ==>
      var ms := Get(reply).value.lists[BestMatchesKey];
      |r| == |ms| && forall i :: 0 <= i < |ms| ==> r[i] == MatchOf(ms[i])
  {
    match Get(reply)
    case Err(_) => []
    case Ok(b) =>
      if BestMatchesKey in b.lists then
        var ms := b.lists[BestMatchesKey];
        seq(|ms|, i requires 0 <= i < |ms| => MatchOf(ms[i]))
      else []
  }

  /** One row of `getDailyPrices`. */
  datatype DailyBar = DailyBar(date: string, open: real, high: real, low: real, close: real, volume: int)

  function BarOf(env: Env, entry: (string, Fields)): (b: DailyBar)
    ensures b.date == entry.0
    ensures b.open == RealOrZero(env, entry.1, "1. open", NoChange)
    ensures b.high == RealOrZero(env, entry.1, "2. high", NoChange)
    ensures b.low == RealOrZero(env, entry.1, "3. low", NoChange)
    ensures b.close == RealOrZero(env, entry.1, "4. close", NoChange)
    ensures b.volume == IntOrZero(env, entry.1, "5. volume")
  {
    var f := entry.1;
    DailyBar(entry.0, RealOrZero(env, f, "1. open", NoChange), RealOrZero(env, f, "2. high", NoChange),
             RealOrZero(env, f, "3. low", NoChange), RealOrZero(env, f, "4. close", NoChange),
             IntOrZero(env, f, "5. volume"))
  }

  /** The entries of a named series when `get` succeeded and the series is there. */
  function Series(reply: Reply, key: string): (s: Option<seq<(string, Fields)>>)
    ensures s.Some? <==> Get(reply).Ok? && key in Get(reply).value.series
    ensures s.Some? ==> s.value == Get(reply).value.series[key]
  {
    match Get(reply)
    case Err(_) => None
    case Ok(b) => if key in b.series then Some(b.series[key]) else None
  }

  /** `getDailyPrices`: one bar per series entry, in entry order and with the entry's
      date; no series, or any error, gives []. */
  function GetDailyPrices(env: Env, reply: Reply): (r: seq<DailyBar>)
    ensures Series(reply, DailySeriesKey).None? ==> r == []
    ensures Series(reply, DailySeriesKey).Some? ==>
      var es := Series(reply, DailySeriesKey).value;
      |r| == |es| && forall i :: 0 <= i < |es| ==> r[i] == BarOf(env, es[i]) && r[i].date == es[i].0
  {
    match Series(reply, DailySeriesKey)
    case None => []
    case Some(es) => seq(|es|, i requires 0 <= i < |es| => BarOf(env, es[i]))
  }

  /** One point of `getIntraday`. */
  datatype IntradayPoint = IntradayPoint(timestamp: string, price: real)

  /** `getIntraday`: one point per series entry, priced at its close (0 when missing
      or unparseable); no series, or any error, gives []. */
  function GetIntraday(env: Env, reply: Reply): (r: seq<IntradayPoint>)
    ensures Series(reply, IntradaySeriesKey).None? ==> r == []
    ensures Series(reply, IntradaySeriesKey).Some? ==>
      var es := Series(reply, IntradaySeriesKey).value;
      |r| == |es| && forall i :: 0 <= i < |es| ==>
        r[i] == IntradayPoint(es[i].0, RealOrZero(env, es[i].1, "4. close", NoChange))
  {
    match Series(reply, IntradaySeriesKey)
    case None => []
    case Some(es) => seq(|es|, i requires 0 <= i < |es| => IntradayPoint(es[i].0, RealOrZero(env, es[i].1, "4. close", NoChange)))
  }
}
