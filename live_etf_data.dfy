/** The live-metrics layer of live_etf_data.py: a second cache, keyed by
    the symbol with a "_live" suffix, in front of a ticker fetch; guarded
    percentage changes; a degraded record on a failed fetch that is never
    cached; and the branch choices of the text block for the assistant.
    The fetch is an oracle, the clock (`now`, in seconds) and the rendered
    timestamp (`stamp`) are parameters. */
module LiveEtfData {
  import opened Wrappers

  /** How long a cached record stays fresh, in seconds. */
  const CacheDuration: real := 900.0

  /** The ticker fields the source reads; None stands for a missing key. */
  datatype TickerInfo = TickerInfo(
    regularMarketPrice: Option<real>,
    currentPrice: Option<real>,
    regularMarketPreviousClose: Option<real>,
    previousClose: Option<real>,
    volume: Option<real>,
    totalAssets: Option<real>,
    annualReportExpenseRatio: Option<real>,
    dividendYield: Option<real>,
    trailingAnnualDividendYield: Option<real>,
    averageVolume: Option<real>,
    holdingsCount: Option<real>,
    fiftyTwoWeekHigh: Option<real>,
    fiftyTwoWeekLow: Option<real>)

  /** What the ticker fetch gives: the info and the closing prices of the
      last month and of the year to date, oldest first; or the message of
      the exception it raised. */
  datatype Fetch =
    | Fetched(info: TickerInfo, monthCloses: seq<real>, ytdCloses: seq<real>)
    | Failed(error: string)

  /** A live record; None stands for "N/A". */
  datatype LiveData =
    | Live(
        symbol: string,
        currentPrice: real,
        previousClose: real,
        dayChange: real,
        monthChange: real,
        ytdChange: real,
        volume: Option<real>,
        marketCap: Option<real>,
        expenseRatio: Option<real>,
        dividendYield: real,
        avgVolume: Option<real>,
        holdingsCount: Option<real>,
        lastUpdated: string,
        fiftyTwoWeekHigh: Option<real>,
        fiftyTwoWeekLow: Option<real>)
    | Degraded(symbol: string, currentPrice: real, error: string, lastUpdated: string)

  /** Python's `info.get(a, 0) or info.get(b, 0)` on numbers: the first
      field unless it is missing or zero. */
  function FirstNonZero(a: Option<real>, b: Option<real>): (r: real)
    ensures a.Some? && a.value != 0.0 ==> r == a.value
    ensures (a.None? || a.value == 0.0) ==> r == (if b.Some? then b.value else 0.0)
  {
    if a.Some? && a.value != 0.0 then a.value
    else if b.Some? then b.value
    else 0.0
  }

  /** The day's change in percent, 0 unless both prices are non-zero. */
  function DayChange(current: real, previous: real): (r: real)
    ensures current == 0.0 || previous == 0.0 ==> r == 0.0
    ensures current != 0.0 && previous != 0.0 ==> r * previous == (current - previous) * 100.0
    ensures current != 0.0 && 0.0 < previous < current ==> r > 0.0
  {
    if current != 0.0 && previous != 0.0 then ((current - previous) / previous) * 100.0 else 0.0
  }

  /** The change in percent since the first close of a window, 0 when the
      window is empty or starts at zero. */
  function WindowChange(current: real, closes: seq<real>): (r: real)
    ensures closes == [] || closes[0] == 0.0 ==> r == 0.0
    ensures closes != [] && closes[0] != 0.0 ==> r * closes[0] == (current - closes[0]) * 100.0
    ensures closes != [] && 0.0 < closes[0] < current ==> r > 0.0
  {
    if closes != [] && closes[0] != 0.0 then ((current - closes[0]) / closes[0]) * 100.0 else 0.0
  }

  /** The live record built from a successful fetch. */
  function BuildLive(symbol: string, info: TickerInfo, monthCloses: seq<real>, ytdCloses: seq<real>, stamp: string): (d: LiveData)
    ensures d.Live? && d.symbol == symbol && d.lastUpdated == stamp
    ensures d.currentPrice == FirstNonZero(info.regularMarketPrice, info.currentPrice)
    ensures d.dayChange == DayChange(d.currentPrice, d.previousClose)
    ensures d.monthChange == WindowChange(d.currentPrice, monthCloses)
    ensures d.ytdChange == WindowChange(d.currentPrice, ytdCloses)
    ensures d.marketCap == info.totalAssets
  {
    var current := FirstNonZero(info.regularMarketPrice, info.currentPrice);
    var previous := FirstNonZero(info.regularMarketPreviousClose, info.previousClose);
    Live(
      symbol,
      current,
      previous,
      DayChange(current, previous),
      WindowChange(current, monthCloses),
      WindowChange(current, ytdCloses),
      info.volume,
      info.totalAssets,
      info.annualReportExpenseRatio,
      FirstNonZero(info.dividendYield, info.trailingAnnualDividendYield),
      info.averageVolume,
      info.holdingsCount,
      stamp,
      info.fiftyTwoWeekHigh,
      info.fiftyTwoWeekLow)
  }

  /** The key a symbol's record is cached under. */
  function CacheKey(symbol: string): string
  {
    symbol + "_live"
  }

  /** Distinct symbols never share a cache entry. */
  lemma CacheKeyInjective(a: string, b: string)
    requires CacheKey(a) == CacheKey(b)
    ensures a == b
  {
    assert |a| == |b|;
    assert a == CacheKey(a)[..|a|];
    assert b == CacheKey(b)[..|b|];
  }

  datatype CacheEntry = CacheEntry(data: LiveData, time: real)

  /** The outcome of one call: the record returned and the cache afterwards. */
  datatype Step = Step(data: LiveData, cache: map<string, CacheEntry>)

  /** get_live_etf_data as a step on the cache. */
  function LiveStep(cache: map<string, CacheEntry>, symbol: string, now: real, stamp: string, fetch: string -> Fetch): (s: Step)
    // a fresh entry is returned as it is
    ensures CacheKey(symbol) in cache && now - cache[CacheKey(symbol)].time < CacheDuration
            ==> s == Step(cache[CacheKey(symbol)].data, cache)
    // otherwise a successful fetch is cached under the key with the call's time
    ensures !(CacheKey(symbol) in cache && now - cache[CacheKey(symbol)].time < CacheDuration) && fetch(symbol).Fetched? ==>
      && s.data.Live? && s.data.symbol == symbol
      && s.data == BuildLive(symbol, fetch(symbol).info, fetch(symbol).monthCloses, fetch(symbol).ytdCloses, stamp)
      && s.cache == cache[CacheKey(symbol) := CacheEntry(s.data, now)]
    // and a failed one gives a degraded record at price 0 that is not cached
    ensures !(CacheKey(symbol) in cache && now - cache[CacheKey(symbol)].time < CacheDuration) && fetch(symbol).Failed? ==>
      && s.data == Degraded(symbol, 0.0, fetch(symbol).error, stamp)
      && s.cache == cache
  {
    var key := CacheKey(symbol);
    if key in cache && now - cache[key].time < CacheDuration then
      Step(cache[key].data, cache)
    else
      match fetch(symbol)
      case Fetched(info, monthCloses, ytdCloses) =>
        var d := BuildLive(symbol, info, monthCloses, ytdCloses, stamp);
        Step(d, cache[key := CacheEntry(d, now)])
      case Failed(error) =>
        Step(Degraded(symbol, 0.0, error, stamp), cache)
  }

  /** Only live records are ever cached. */
  ghost predicate OnlyLive(cache: map<string, CacheEntry>)
  {
    forall k :: k in cache ==> cache[k].data.Live?
  }

  /** A call keeps the cache free of degraded records, and a degraded
      answer only ever comes from a failed fetch. */
  lemma LiveStepKeepsOnlyLive(cache: map<string, CacheEntry>, symbol: string, now: real, stamp: string, fetch: string -> Fetch)
    requires OnlyLive(cache)
    ensures OnlyLive(LiveStep(cache, symbol, now, stamp, fetch).cache)
    ensures LiveStep(cache, symbol, now, stamp, fetch).data.Degraded? ==> fetch(symbol).Failed?
  {
  }

  /** get_multiple_live_data: the calls in order, each seeing the cache the
      previous one left. */
  function MultiLive(cache: map<string, CacheEntry>, symbols: seq<string>, now: real, stamp: string, fetch: string -> Fetch)
    : (map<string, LiveData>, map<string, CacheEntry>)
  {
    if symbols == [] then (map[], cache)
    else
      var (results, c) := MultiLive(cache, symbols[..|symbols| - 1], now, stamp, fetch);
      var symbol := symbols[|symbols| - 1];
      var s := LiveStep(c, symbol, now, stamp, fetch);
      (results[symbol := s.data], s.cache)
  }

  function Members(symbols: seq<string>): set<string>
  {
    set s | s in symbols
  }

  /** Exactly one record per input symbol, each about that symbol, and the
      cache still holds only live records. */
  lemma {:induction false} MultiLiveShape(cache: map<string, CacheEntry>, symbols: seq<string>, now: real, stamp: string, fetch: string -> Fetch)
    requires OnlyLive(cache)
    requires forall k :: k in cache ==> CacheKey(cache[k].data.symbol) == k
    ensures var (results, c) := MultiLive(cache, symbols, now, stamp, fetch);
      && results.Keys == Members(symbols)
      && (forall s :: s in results ==> results[s].symbol == s)
      && OnlyLive(c)
      && (forall k :: k in c ==> CacheKey(c[k].data.symbol) == k)
  {
    if symbols != [] {
      var init := symbols[..|symbols| - 1];
      MultiLiveShape(cache, init, now, stamp, fetch);
      var (results, c) := MultiLive(cache, init, now, stamp, fetch);
      var symbol := symbols[|symbols| - 1];
      var key := CacheKey(symbol);
      if key in c && now - c[key].time < CacheDuration {
        CacheKeyInjective(c[key].data.symbol, symbol);
      }
      LiveStepKeepsOnlyLive(c, symbol, now, stamp, fetch);
      assert symbols == init + [symbol];
    }
  }

  class LiveDataCache {
    var entries: map<string, CacheEntry>

    constructor ()
      ensures entries == map[]
    {
      entries := map[];
    }

    /** get_live_etf_data */
    method GetLiveEtfData(symbol: string, now: real, stamp: string, fetch: string -> Fetch)
      returns (data: LiveData)
      modifies this
      ensures Step(data, entries) == LiveStep(old(entries), symbol, now, stamp, fetch)
    {
      var key := symbol + "_live";
      if key in entries {
        var cached := entries[key];
        if now - cached.time < CacheDuration {
          return cached.data;
        }
      }
      match fetch(symbol)
      case Fetched(info, monthCloses, ytdCloses) =>
        data := BuildLive(symbol, info, monthCloses, ytdCloses, stamp);
        entries := entries[key := CacheEntry(data, now)];
      case Failed(error) =>
        data := Degraded(symbol, 0.0, error, stamp);
    }

    /** get_multiple_live_data, all calls at the same `now`. */
    method GetMultipleLiveData(symbols: seq<string>, now: real, stamp: string, fetch: string -> Fetch)
      returns (results: map<string, LiveData>)
      modifies this
      ensures (results, entries) == MultiLive(old(entries), symbols, now, stamp, fetch)
    {
      results := map[];
      for i := 0 to |symbols|
        invariant (results, entries) == MultiLive(old(entries), symbols[..i], now, stamp, fetch)
      {
        assert symbols[..i + 1][..i] == symbols[..i];
        var data := GetLiveEtfData(symbols[i], now, stamp, fetch);
        results := results[symbols[i] := data];
      }
      assert symbols[..|symbols|] == symbols;
    }
  }

  // ---------------------------------------------------------------------
  // Formatting for the assistant

  /** How total assets are shown. */
  datatype AssetsDisplay = Billions(amount: real) | Millions(amount: real) | Dollars(amount: real) | AssetsNA

  /** A ratio shown as a percentage, or "N/A". */
  datatype RatioDisplay = Percent(value: real) | RatioNA

  /** The block format_live_data_for_ai produces. */
  datatype LiveView =
    | Unavailable(text: string)
    | MarketData(
        symbol: string,
        lastUpdated: string,
        currentPrice: real,
        dayChange: real,
        monthChange: real,
        ytdChange: real,
        totalAssets: AssetsDisplay,
        expenseRatio: RatioDisplay,
        dividendYield: RatioDisplay,
        fiftyTwoWeekHigh: Option<real>,
        fiftyTwoWeekLow: Option<real>)

  const Billion: real := 1000000000.0
  const Million: real := 1000000.0

  function ShowAssets(marketCap: Option<real>): (a: AssetsDisplay)
    ensures a.AssetsNA? <==> marketCap.None?
    ensures a.Billions? <==> marketCap.Some? && marketCap.value >= Billion
    ensures a.Millions? <==> marketCap.Some? && Million <= marketCap.value < Billion
    ensures a.Dollars? <==> marketCap.Some? && marketCap.value < Million
    ensures a.Billions? ==> a.amount * Billion == marketCap.value
    ensures a.Millions? ==> a.amount * Million == marketCap.value
    ensures a.Dollars? ==> a.amount == marketCap.value
  {
    match marketCap
    case None => AssetsNA
    case Some(v) =>
      if v >= Billion then Billions(v / Billion)
      else if v >= Million then Millions(v / Million)
      else Dollars(v)
  }

  /** format_live_data_for_ai: the unavailable block exactly for a degraded
      record, otherwise the market block with the tiered choices. */
  function FormatLiveData(symbol: string, d: LiveData): (v: LiveView)
    ensures v.Unavailable? <==> d.Degraded?
    ensures d.Degraded? ==> v.text == "**" + symbol + " - Live Data Unavailable**\nError: " + d.error
    ensures d.Live? ==>
      && v.totalAssets == ShowAssets(d.marketCap)
      && (v.expenseRatio.Percent? <==> d.expenseRatio.Some?)
      && (v.expenseRatio.Percent? ==> v.expenseRatio.value == d.expenseRatio.value * 100.0)
      && (v.dividendYield.Percent? <==> d.dividendYield > 0.0)
      && (v.dividendYield.Percent? ==> v.dividendYield.value == d.dividendYield * 100.0)
      && v.currentPrice == d.currentPrice && v.dayChange == d.dayChange
      && v.monthChange == d.monthChange && v.ytdChange == d.ytdChange
  {
    match d
    case Degraded(_, _, error, _) =>
      Unavailable("**" + symbol + " - Live Data Unavailable**\nError: " + error)
    case Live(_, _, _, _, _, _, _, _, _, _, _, _, _, _, _) =>
      MarketData(
        symbol,
        d.lastUpdated,
        d.currentPrice,
        d.dayChange,
        d.monthChange,
        d.ytdChange,
        ShowAssets(d.marketCap),
        if d.expenseRatio.Some? then Percent(d.expenseRatio.value * 100.0) else RatioNA,
        if d.dividendYield > 0.0 then Percent(d.dividendYield * 100.0) else RatioNA,
        d.fiftyTwoWeekHigh,
        d.fiftyTwoWeekLow)
  }
}
