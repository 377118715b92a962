/** The quote cache of financial_api.py: a keyed cache with a fifteen-minute
    freshness window in front of two price sources, the Alpha Vantage query
    first and Yahoo Finance second. The sources are oracle functions from a
    symbol to an optional quote, and the clock is a parameter `now` in
    seconds. */
module FinancialApi {
  import opened Wrappers

  const CacheDurationMinutes: nat := 15

  /** The freshness window, in seconds. */
  const CacheWindow: real := (CacheDurationMinutes * 60) as real

  datatype Source = AlphaVantage | YahooFinance

  /** One price record; `timestamp` is the time it was fetched, in seconds. */
  datatype Quote = Quote(
    symbol: string,
    price: real,
    change: real,
    changePercent: string,
    volume: int,
    timestamp: real,
    source: Source)

  /** A price source: the quote it returns for a symbol, if any. */
  type Provider = string -> Option<Quote>

  predicate Fresh(q: Quote, now: real)
  {
    now - q.timestamp < CacheWindow
  }

  /** The outcome of one lookup: the answer, the cache afterwards and the
      sources consulted, in order. */
  datatype Lookup = Lookup(result: Option<Quote>, cache: map<string, Quote>, consulted: seq<Source>)

  /** get_stock_price as a step on the cache. */
  function PriceLookup(
    cache: map<string, Quote>, symbol: string, useCache: bool, now: real,
    primary: Provider, secondary: Provider): (l: Lookup)
    // a fresh cached entry is answered as it is, consulting nothing
    ensures useCache && symbol in cache && Fresh(cache[symbol], now)
            ==> l == Lookup(Some(cache[symbol]), cache, [])
    // otherwise the primary source is asked first, the secondary only after
    // the primary had nothing
    ensures !(useCache && symbol in cache && Fresh(cache[symbol], now)) ==>
      && |l.consulted| >= 1 && l.consulted[0] == AlphaVantage
      && (YahooFinance in l.consulted <==> primary(symbol).None?)
      && l.result == (if primary(symbol).Some? then primary(symbol) else secondary(symbol))
    // a found quote is written under the symbol and nothing else changes
    ensures l.result.Some? ==> l.cache == cache[symbol := l.result.value]
    // when nothing is found the cache, stale entry included, is untouched
    ensures l.result.None? ==> l.cache == cache && l.consulted == [AlphaVantage, YahooFinance]
  {
    if useCache && symbol in cache && Fresh(cache[symbol], now) then
      Lookup(Some(cache[symbol]), cache, [])
    else
      var first := primary(symbol);
      if first.Some? then
        Lookup(first, cache[symbol := first.value], [AlphaVantage])
      else
        var second := secondary(symbol);
        if second.Some? then
          Lookup(second, cache[symbol := second.value], [AlphaVantage, YahooFinance])
        else
          Lookup(None, cache, [AlphaVantage, YahooFinance])
  }

  /** With the cache read switched off both sources are still the only
      answer, and a found quote is still written. */
  lemma BypassStillWrites(
    cache: map<string, Quote>, symbol: string, now: real, primary: Provider, secondary: Provider)
    ensures var l := PriceLookup(cache, symbol, false, now, primary, secondary);
      && l.consulted != []
      && (l.result.Some? ==> symbol in l.cache && l.cache[symbol] == l.result.value)
  {
  }

  /** The distinct symbols of a list. */
  function Members(symbols: seq<string>): set<string>
  {
    set s | s in symbols
  }

  /** The state of a batch of lookups: one answer per symbol and the cache. */
  datatype Batch = Batch(results: map<string, Option<Quote>>, cache: map<string, Quote>)

  /** get_multiple_prices: the lookups in order, each seeing the cache the
      previous one left. */
  function MultiLookup(
    cache: map<string, Quote>, symbols: seq<string>, now: real,
    primary: Provider, secondary: Provider): Batch
  {
    if symbols == [] then Batch(map[], cache)
    else
      var b := MultiLookup(cache, symbols[..|symbols| - 1], now, primary, secondary);
      var symbol := symbols[|symbols| - 1];
      var l := PriceLookup(b.cache, symbol, true, now, primary, secondary);
      Batch(b.results[symbol := l.result], l.cache)
  }

  /** One answer per input symbol, no other key; each found answer is what
      the cache holds afterwards, and no cached symbol is ever dropped. */
  lemma {:induction false} MultiLookupShape(
    cache: map<string, Quote>, symbols: seq<string>, now: real,
    primary: Provider, secondary: Provider)
    ensures var b := MultiLookup(cache, symbols, now, primary, secondary);
      && b.results.Keys == Members(symbols)
      && cache.Keys <= b.cache.Keys
      && (forall s :: s in b.results && b.results[s].Some? ==> s in b.cache && b.cache[s] == b.results[s].value)
  {
    if symbols != [] {
      var init := symbols[..|symbols| - 1];
      MultiLookupShape(cache, init, now, primary, secondary);
      assert symbols == init + [symbols[|symbols| - 1]];
    }
  }

  /** POPULAR_ETFS, in definition order. */
  const PopularEtfs: seq<(string, string)> := [
    ("SPY", "S&P 500 ETF (Large US stocks)"),
    ("VOO", "Vanguard S&P 500 ETF (Low-cost US stocks)"),
    ("VTI", "Total Stock Market ETF (All US stocks)"),
    ("BND", "Bond ETF (Safe, stable bonds)"),
    ("AGG", "Aggregate Bond ETF (Diverse bonds)"),
    ("VWO", "Emerging Markets ETF (International growth)"),
    ("VEA", "Developed Markets ETF (International stability)"),
    ("QQQ", "Nasdaq 100 ETF (Tech-focused)")
  ]

  /** The display name of a symbol in `names`, falling back to the symbol. */
  function NameOr(names: seq<(string, string)>, symbol: string): (r: string)
    ensures (forall i :: 0 <= i < |names| ==> names[i].0 != symbol) ==> r == symbol
    ensures (exists i :: 0 <= i < |names| && names[i].0 == symbol) ==> (symbol, r) in names
  {
    if names == [] then symbol
    else if names[0].0 == symbol then names[0].1
    else NameOr(names[1..], symbol)
  }

  /** The symbols whose prices get_recommended_etfs fetches. */
  const KeyEtfs: seq<string> := ["SPY", "VOO", "BND", "AGG"]

  lemma KeyEtfsDistinct()
    ensures forall i, j :: 0 <= i < j < |KeyEtfs| ==> KeyEtfs[i] != KeyEtfs[j]
  {
  }

  datatype EtfSummary = EtfSummary(name: string, price: real, changePercent: string, source: Source)

  function Summary(symbol: string, q: Quote): EtfSummary
  {
    EtfSummary(NameOr(PopularEtfs, symbol), q.price, q.changePercent, q.source)
  }

  /** get_recommended_etfs over a list of symbols: a summary for each
      symbol whose lookup found a quote. */
  function Recommended(
    cache: map<string, Quote>, symbols: seq<string>, now: real,
    primary: Provider, secondary: Provider): (map<string, EtfSummary>, map<string, Quote>)
  {
    if symbols == [] then (map[], cache)
    else
      var (data, c) := Recommended(cache, symbols[..|symbols| - 1], now, primary, secondary);
      var symbol := symbols[|symbols| - 1];
      var l := PriceLookup(c, symbol, true, now, primary, secondary);
      (if l.result.Some? then data[symbol := Summary(symbol, l.result.value)] else data, l.cache)
  }

  /** One more symbol adds its lookup to the batch, against the cache
      the earlier lookups left. */
  lemma RecommendedStep(
    cache: map<string, Quote>, symbols: seq<string>, n: nat, now: real,
    primary: Provider, secondary: Provider)
    requires n < |symbols|
    ensures var (data, c) := Recommended(cache, symbols[..n], now, primary, secondary);
      var l := PriceLookup(c, symbols[n], true, now, primary, secondary);
      Recommended(cache, symbols[..n + 1], now, primary, secondary)
        == (if l.result.Some? then data[symbols[n] := Summary(symbols[n], l.result.value)] else data, l.cache)
  {
    assert symbols[..n + 1][..n] == symbols[..n];
  }

  /** For distinct symbols, the summaries are exactly the successful
      answers of the same batch of lookups. */
  lemma {:induction false} RecommendedAreSuccesses(
    cache: map<string, Quote>, symbols: seq<string>, now: real,
    primary: Provider, secondary: Provider)
    requires forall i, j :: 0 <= i < j < |symbols| ==> symbols[i] != symbols[j]
    ensures var (data, c) := Recommended(cache, symbols, now, primary, secondary);
      var b := MultiLookup(cache, symbols, now, primary, secondary);
      && c == b.cache
      && (forall s :: s in data <==> s in b.results && b.results[s].Some?)
      && (forall s :: s in data ==> data[s] == Summary(s, b.results[s].value))
  {
    if symbols != [] {
      var init := symbols[..|symbols| - 1];
      RecommendedAreSuccesses(cache, init, now, primary, secondary);
      MultiLookupShape(cache, init, now, primary, secondary);
      assert symbols[|symbols| - 1] !in init;
    }
  }

  class PriceCache {
    var entries: map<string, Quote>

    constructor ()
      ensures entries == map[]
    {
      entries := map[];
    }

    /** get_stock_price */
    method GetStockPrice(symbol: string, useCache: bool, now: real, primary: Provider, secondary: Provider)
      returns (result: Option<Quote>)
      modifies this
      ensures var l := PriceLookup(old(entries), symbol, useCache, now, primary, secondary);
        result == l.result && entries == l.cache
    {
      if useCache && symbol in entries {
        var cached := entries[symbol];
        if now - cached.timestamp < CacheWindow {
          return Some(cached);
        }
      }
      var priceData := primary(symbol);
      if priceData.None? {
        priceData := secondary(symbol);
      }
      if priceData.Some? {
        entries := entries[symbol := priceData.value];
        return priceData;
      }
      return None;
    }

    /** clear_cache */
    method ClearCache()
      modifies this
      ensures entries == map[]
    {
      entries := map[];
    }

    /** get_multiple_prices, all lookups at the same `now`. */
    method GetMultiplePrices(symbols: seq<string>, now: real, primary: Provider, secondary: Provider)
      returns (results: map<string, Option<Quote>>)
      modifies this
      ensures Batch(results, entries) == MultiLookup(old(entries), symbols, now, primary, secondary)
      ensures results.Keys == Members(symbols)
    {
      results := map[];
      for i := 0 to |symbols|
        invariant Batch(results, entries) == MultiLookup(old(entries), symbols[..i], now, primary, secondary)
      {
        assert symbols[..i + 1][..i] == symbols[..i];
        var price := GetStockPrice(symbols[i], true, now, primary, secondary);
        results := results[symbols[i] := price];
      }
      assert symbols[..|symbols|] == symbols;
      MultiLookupShape(old(entries), symbols, now, primary, secondary);
    }

    /** get_recommended_etfs, all lookups at the same `now`. */
    method GetRecommendedEtfs(now: real, primary: Provider, secondary: Provider)
      returns (etfData: map<string, EtfSummary>)
      modifies this
      ensures (etfData, entries) == Recommended(old(entries), KeyEtfs, now, primary, secondary)
      ensures etfData.Keys <= Members(KeyEtfs)
    {
      etfData := map[];
      for i := 0 to |KeyEtfs|
        invariant (etfData, entries) == Recommended(old(entries), KeyEtfs[..i], now, primary, secondary)
      {
        RecommendedStep(old(entries), KeyEtfs, i, now, primary, secondary);
        var symbol := KeyEtfs[i];
        var priceInfo := GetStockPrice(symbol, true, now, primary, secondary);
        if priceInfo.Some? {
          etfData := etfData[symbol := Summary(symbol, priceInfo.value)];
        }
        assert (etfData, entries) == Recommended(old(entries), KeyEtfs[..i + 1], now, primary, secondary);
      }
      assert KeyEtfs[..|KeyEtfs|] == KeyEtfs;
      KeyEtfsDistinct();
      RecommendedAreSuccesses(old(entries), KeyEtfs, now, primary, secondary);
      MultiLookupShape(old(entries), KeyEtfs, now, primary, secondary);
    }
  }
}
