/** The ETF knowledge base (etf_knowledge.py): a fixed, insertion-ordered
    dictionary from ticker symbol to beginner-facing facts, and the queries
    over it. */
module EtfKnowledge {
  import opened Wrappers
  import Text
  import Sequences

  /** The fields of one knowledge-base entry. */
  datatype EtfInfo = EtfInfo(
    name: string,
    simpleName: string,
    category: string,
    riskLevel: string,
    expenseRatio: string,
    beginnerExplanation: string,
    goodFor: string,
    whyBeginnersLoveIt: string,
    realWorldExample: string)

  /** One key/value pair of the dictionary. The same shape is the
      `{'symbol': symbol, **info}` record the searches return. */
  datatype Entry = Entry(symbol: string, info: EtfInfo)

  /** A Python dict keeps insertion order: a sequence of pairs. */
  type KnowledgeBase = seq<Entry>

  /** Dictionary keys are unique. */
  ghost predicate UniqueSymbols(kb: KnowledgeBase)
  {
    forall i, j :: 0 <= i < j < |kb| ==> kb[i].symbol != kb[j].symbol
  }

  /** `kb.get(symbol)`. */
  function Find(kb: KnowledgeBase, symbol: string): (r: Option<EtfInfo>)
    ensures r.None? <==> forall i :: 0 <= i < |kb| ==> kb[i].symbol != symbol
    ensures r.Some? ==> Entry(symbol, r.value) in kb
    ensures UniqueSymbols(kb) ==>
      forall i :: 0 <= i < |kb| && kb[i].symbol == symbol ==> r == Some(kb[i].info)
  {
    if |kb| == 0 then None
    else if kb[0].symbol == symbol then Some(kb[0].info)
    else
      var r := Find(kb[1..], symbol);
      assert forall i :: 1 <= i < |kb| ==> kb[i] == kb[1..][i - 1];
      r
  }

  /** get_etf_info: the symbol is upper-cased, then looked up; unknown
      symbols give None. */
  function GetEtfInfo(kb: KnowledgeBase, symbol: string): (r: Option<EtfInfo>)
    ensures r.None? <==> forall i :: 0 <= i < |kb| ==> kb[i].symbol != Text.Upper(symbol)
    ensures r.Some? ==> Entry(Text.Upper(symbol), r.value) in kb
  {
    Find(kb, Text.Upper(symbol))
  }

  /** The lookup does not depend on the case of the symbol given. */
  lemma GetEtfInfoIgnoresCase(kb: KnowledgeBase, symbol: string)
    ensures GetEtfInfo(kb, Text.Lower(symbol)) == GetEtfInfo(kb, symbol)
  {
    var a, b := Text.Upper(Text.Lower(symbol)), Text.Upper(symbol);
    assert forall i :: 0 <= i < |a| ==> a[i] == b[i];
    assert a == b;
  }

  /** get_all_etf_symbols: the keys in definition order. */
  function GetAllEtfSymbols(kb: KnowledgeBase): (r: seq<string>)
    ensures |r| == |kb|
    ensures forall i :: 0 <= i < |kb| ==> r[i] == kb[i].symbol
    ensures UniqueSymbols(kb) ==> forall i, j :: 0 <= i < j < |r| ==> r[i] != r[j]
  {
    seq(|kb|, i requires 0 <= i < |kb| => kb[i].symbol)
  }

  /** The entry field a search filters on. */
  datatype Field = Category | RiskLevel

  function FieldValue(info: EtfInfo, field: Field): string
  {
    match field
    case Category => info.category
    case RiskLevel => info.riskLevel
  }

  /** `query.lower() in value.lower()`. */
  predicate Matches(query: string, value: string)
  {
    Text.Contains(Text.Lower(query), Text.Lower(value))
  }

  /** The entries whose `field` matches `query`, in knowledge-base order. */
  function Filter(kb: KnowledgeBase, field: Field, query: string): (r: seq<Entry>)
    ensures |r| <= |kb|
  {
    if |kb| == 0 then []
    else
      var last := kb[|kb| - 1];
      Filter(kb[..|kb| - 1], field, query)
        + (if Matches(query, FieldValue(last.info, field)) then [last] else [])
  }

  /** The loop shared by search_etfs_by_category and search_etfs_by_risk. */
  method SearchByField(kb: KnowledgeBase, field: Field, query: string) returns (results: seq<Entry>)
    ensures results == Filter(kb, field, query)
  {
    results := [];
    var q := Text.Lower(query);
    for i := 0 to |kb|
      invariant results == Filter(kb[..i], field, query)
    {
      assert kb[..i + 1][..i] == kb[..i];
      if Text.Contains(q, Text.Lower(FieldValue(kb[i].info, field))) {
        results := results + [kb[i]];
      }
    }
    assert kb[..|kb|] == kb;
  }

  /** search_etfs_by_category */
  method SearchEtfsByCategory(kb: KnowledgeBase, category: string) returns (results: seq<Entry>)
    ensures results == Filter(kb, Category, category)
  {
    results := SearchByField(kb, Category, category);
  }

  /** search_etfs_by_risk */
  method SearchEtfsByRisk(kb: KnowledgeBase, riskLevel: string) returns (results: seq<Entry>)
    ensures results == Filter(kb, RiskLevel, riskLevel)
  {
    results := SearchByField(kb, RiskLevel, riskLevel);
  }

  /** An entry is in a search result exactly when it is in the knowledge
      base and its field contains the query, ignoring case. */
  lemma {:induction false} FilterMembership(kb: KnowledgeBase, field: Field, query: string, e: Entry)
    ensures e in Filter(kb, field, query) <==> e in kb && Matches(query, FieldValue(e.info, field))
  {
    if |kb| > 0 {
      FilterMembership(kb[..|kb| - 1], field, query, e);
      assert kb == kb[..|kb| - 1] + [kb[|kb| - 1]];
    }
  }

  /** Search results keep the knowledge-base order. */
  lemma {:induction false} FilterPreservesOrder(kb: KnowledgeBase, field: Field, query: string)
    ensures Sequences.IsSubsequence(Filter(kb, field, query), kb)
  {
    if |kb| > 0 {
      var init, last := kb[..|kb| - 1], kb[|kb| - 1];
      assert kb == init + [last];
      FilterPreservesOrder(init, field, query);
      var f := Filter(init, field, query);
      if Matches(query, FieldValue(last.info, field)) {
        assert (f + [last])[..|f|] == f;
      } else {
        assert Filter(kb, field, query) == f;
        Sequences.SubsequenceExtend(f, init, last);
      }
    }
  }

  /** An empty query matches every entry. */
  lemma {:induction false} EmptyQueryMatchesAll(kb: KnowledgeBase, field: Field)
    ensures Filter(kb, field, "") == kb
  {
    if |kb| > 0 {
      var init, last := kb[..|kb| - 1], kb[|kb| - 1];
      EmptyQueryMatchesAll(init, field);
      assert Matches("", FieldValue(last.info, field)) by {
        assert Text.Lower("") == "";
        Text.EmptyOccursEverywhere(Text.Lower(FieldValue(last.info, field)));
      }
      assert Filter(kb, field, "") == init + [last];
      assert init + [last] == kb;
    }
  }

  /** "high" finds both "Higher" and "Very High". */
  lemma HighMatchesBothHighTiers()
    ensures Matches("high", "Higher") && Matches("high", "Very High")
  {
    assert Text.Lower("high") == "high";
    assert Text.Lower("Higher") == "higher";
    assert Text.OccursAt("high", "higher", 0);
    assert Text.Lower("Very High") == "very high";
    assert Text.OccursAt("high", "very high", 5);
  }

  /** The list get_beginner_friendly_etfs checks against the knowledge base. */
  const BeginnerSymbols: seq<string> := ["SPY", "VOO", "VTI", "BND", "AGG", "VEA", "SCHD"]

  /** The entries for those of `symbols` that are keys of `kb`, in the
      order of `symbols`. */
  function Present(kb: KnowledgeBase, symbols: seq<string>): (r: seq<Entry>)
  {
    if |symbols| == 0 then []
    else
      var s := symbols[|symbols| - 1];
      Present(kb, symbols[..|symbols| - 1])
        + (match Find(kb, s) case Some(info) => [Entry(s, info)] case None => [])
  }

  /** get_beginner_friendly_etfs */
  method GetBeginnerFriendlyEtfs(kb: KnowledgeBase) returns (results: seq<Entry>)
    ensures results == Present(kb, BeginnerSymbols)
  {
    results := [];
    var symbols := BeginnerSymbols;
    for i := 0 to |symbols|
      invariant results == Present(kb, symbols[..i])
    {
      assert symbols[..i + 1][..i] == symbols[..i];
      var found := Find(kb, symbols[i]);
      if found.Some? {
        results := results + [Entry(symbols[i], found.value)];
      }
    }
    assert symbols[..|symbols|] == symbols;
  }

  /** Every result is a listed symbol together with its knowledge-base entry;
      a listed symbol is in the result exactly when it is a key; there are at
      most as many results as listed symbols, and all of them when every
      listed symbol is a key. */
  lemma {:induction false} PresentShape(kb: KnowledgeBase, symbols: seq<string>)
    ensures |Present(kb, symbols)| <= |symbols|
    ensures forall e :: e in Present(kb, symbols) ==> e.symbol in symbols && Find(kb, e.symbol) == Some(e.info)
    ensures forall s :: s in symbols ==> (Find(kb, s).Some? <==> exists e :: e in Present(kb, symbols) && e.symbol == s)
    ensures (forall s :: s in symbols ==> Find(kb, s).Some?) ==> |Present(kb, symbols)| == |symbols|
  {
    if |symbols| > 0 {
      var init, s := symbols[..|symbols| - 1], symbols[|symbols| - 1];
      assert symbols == init + [s];
      PresentShape(kb, init);
      var r := Present(kb, symbols);
      forall t | t in symbols
        ensures Find(kb, t).Some? <==> exists e :: e in r && e.symbol == t
      {
        if t == s && Find(kb, s).Some? {
          assert Entry(s, Find(kb, s).value) in r;
        }
      }
    }
  }

  /** Where the beginner symbols sit in the repository's knowledge base. */
  ghost predicate BeginnerSymbolsListed(kb: KnowledgeBase)
  {
    && |kb| >= 10
    && kb[0].symbol == "SPY" && kb[1].symbol == "VOO" && kb[2].symbol == "VTI"
    && kb[4].symbol == "BND" && kb[5].symbol == "AGG" && kb[6].symbol == "VEA"
    && kb[9].symbol == "SCHD"
  }

  /** When every beginner symbol is a key, get_beginner_friendly_etfs
      returns all seven. */
  lemma AllBeginnerSymbolsFound(kb: KnowledgeBase)
    requires BeginnerSymbolsListed(kb)
    ensures |Present(kb, BeginnerSymbols)| == 7
  {
    assert forall t :: t in BeginnerSymbols ==>
      t == kb[0].symbol || t == kb[1].symbol || t == kb[2].symbol || t == kb[4].symbol
      || t == kb[5].symbol || t == kb[6].symbol || t == kb[9].symbol;
    PresentShape(kb, BeginnerSymbols);
  }

  /** The keys of ETF_KNOWLEDGE_BASE, in definition order. */
  const KnowledgeBaseSymbols: seq<string> := [
    "SPY", "VOO", "VTI", "QQQ", "BND", "AGG", "VEA", "VWO", "VYM", "SCHD", "XLK", "XLV",
    "XLF", "XLE", "VUG", "VTV", "VB", "VNQ", "ESGU", "GLD", "VTTVX", "ITOT", "ARKK"
  ]

  /** The knowledge base's keys, one by one. */
  lemma KnowledgeBaseKeys()
    ensures |EtfKnowledgeBase| == |KnowledgeBaseSymbols|
    ensures forall i :: 0 <= i < |KnowledgeBaseSymbols| ==> EtfKnowledgeBase[i].symbol == KnowledgeBaseSymbols[i]
  {
  }

  lemma KnowledgeBaseSymbolsDistinct()
    ensures forall i, j :: 0 <= i < j < |KnowledgeBaseSymbols| ==> KnowledgeBaseSymbols[i] != KnowledgeBaseSymbols[j]
  {
  }

  /** The knowledge base has no repeated key, so the key listing and every
      keyed lookup carry their unique-key guarantees over to it. */
  lemma KnowledgeBaseKeysUnique()
    ensures UniqueSymbols(EtfKnowledgeBase)
  {
    KnowledgeBaseKeys();
    KnowledgeBaseSymbolsDistinct();
  }

  /** Any knowledge base with these keys lists the beginner symbols. */
  lemma KeysListBeginners(kb: KnowledgeBase)
    requires |kb| == |KnowledgeBaseSymbols|
    requires forall i :: 0 <= i < |KnowledgeBaseSymbols| ==> kb[i].symbol == KnowledgeBaseSymbols[i]
    ensures BeginnerSymbolsListed(kb)
  {
  }

  /** On the shipped knowledge base, get_beginner_friendly_etfs returns
      all seven beginner funds. */
  lemma ShippedBeginnerEtfs()
    ensures |Present(EtfKnowledgeBase, BeginnerSymbols)| == 7
  {
    KnowledgeBaseKeys();
    KeysListBeginners(EtfKnowledgeBase);
    AllBeginnerSymbolsFound(EtfKnowledgeBase);
  }

  /** ETF_KNOWLEDGE_BASE: the entries in definition order. */
  const EtfKnowledgeBase: KnowledgeBase := [
    SpyEntry, VooEntry, VtiEntry, QqqEntry, BndEntry, AggEntry,
    VeaEntry, VwoEntry, VymEntry, SchdEntry, XlkEntry, XlvEntry,
    XlfEntry, XleEntry, VugEntry, VtvEntry, VbEntry, VnqEntry,
    EsguEntry, GldEntry, VttvxEntry, ItotEntry, ArkkEntry
  ]

  const SpyEntry: Entry := Entry("SPY", EtfInfo(
    "SPDR S&P 500 ETF",
    "America's Top 500 Companies",
    "US Stocks - Large Companies",
    "Medium",
    "0.09%",
    "Think of SPY as owning a tiny piece of 500 of America's biggest and most successful companies like Apple, Microsoft, Amazon, and Google. When you buy SPY, you're spreading your money across all these companies instead of betting on just one. It's one of the safest ways to invest in stocks because even if a few companies do badly, the others usually balance it out.",
    "Long-term growth, retirement savings, first-time investors",
    "It's simple, proven, and you own a piece of America's economy",
    "If you invested $10,000 in SPY 10 years ago, you'd have about $30,000 today"))

  const VooEntry: Entry := Entry("VOO", EtfInfo(
    "Vanguard S&P 500 ETF",
    "Same as SPY but Cheaper",
    "US Stocks - Large Companies",
    "Medium",
    "0.03%",
    "VOO is almost identical to SPY - it owns the same 500 big American companies. The difference? VOO charges lower fees, which means more money stays in your pocket over time. Think of it like buying the same product at two stores - VOO is the discount store version.",
    "Long-term investors who want to minimize costs",
    "Lower fees mean your money grows faster over time",
    "Over 30 years, the lower fees could save you thousands of dollars"))

  const VtiEntry: Entry := Entry("VTI", EtfInfo(
    "Vanguard Total Stock Market ETF",
    "Every US Company, Big and Small",
    "US Stocks - All Sizes",
    "Medium",
    "0.03%",
    "VTI is like owning a piece of almost every publicly traded company in America - not just the big 500, but also thousands of smaller companies. It's the most diversified way to invest in the US stock market. You get big companies like Apple, plus smaller companies that might become the next Apple.",
    "Maximum diversification in US stocks, long-term growth",
    "You own the entire US market with one purchase",
    "Includes about 4,000 companies - from giants to future stars"))

  const QqqEntry: Entry := Entry("QQQ", EtfInfo(
    "Invesco QQQ Trust",
    "Top 100 Tech Companies",
    "Technology Stocks",
    "Higher",
    "0.20%",
    "QQQ focuses on the 100 biggest tech and innovation companies traded on the Nasdaq stock exchange. Think Apple, Microsoft, Tesla, Netflix, and Amazon. If you believe technology will keep growing, QQQ is your bet. But remember: higher potential rewards come with bigger ups and downs.",
    "Tech enthusiasts, long-term growth, higher risk tolerance",
    "You own the companies shaping the future",
    "During tech booms it soars, but during tech downturns it falls harder than SPY"))

  const BndEntry: Entry := Entry("BND", EtfInfo(
    "Vanguard Total Bond Market ETF",
    "The Safety Net",
    "Bonds - Safe Investments",
    "Low",
    "0.03%",
    "BND is like a savings account that pays better interest, but is still very safe. When you buy bonds, you're lending money to the government and big companies, and they pay you back with interest. Bonds don't grow as fast as stocks, but they protect your money when the stock market gets scary. Perfect for money you'll need soon.",
    "Stability, protecting your money, reducing risk",
    "It's boring, and that's a good thing - your money stays safe",
    "Returns about 3-4% per year - slow and steady wins the race"))

  const AggEntry: Entry := Entry("AGG", EtfInfo(
    "iShares Core U.S. Aggregate Bond ETF",
    "Another Safe Choice",
    "Bonds - Safe Investments",
    "Low",
    "0.03%",
    "AGG is very similar to BND - it's another way to own safe bonds. Think of it as a different brand of the same product. Both are excellent choices for keeping part of your money safe while earning modest returns.",
    "Safety, income, balancing risky investments",
    "Reliable and predictable - no surprises",
    "When stocks crashed in 2020, bonds like AGG stayed stable"))

  const VeaEntry: Entry := Entry("VEA", EtfInfo(
    "Vanguard FTSE Developed Markets ETF",
    "Stable Foreign Companies",
    "International Stocks - Developed Countries",
    "Medium",
    "0.05%",
    "VEA lets you own pieces of big companies in wealthy countries like Japan, UK, Canada, Germany, and France. It's like SPY, but for international companies instead of American ones. This helps you spread risk - if America's economy slows down, other countries might do well.",
    "Global diversification, don't want to bet only on America",
    "You own companies from all over the developed world",
    "Includes companies like Toyota, Samsung, and Nestle"))

  const VwoEntry: Entry := Entry("VWO", EtfInfo(
    "Vanguard FTSE Emerging Markets ETF",
    "Fast-Growing Countries",
    "International Stocks - Emerging Markets",
    "Higher",
    "0.08%",
    "VWO invests in companies from countries that are growing fast, like China, India, Brazil, and Taiwan. These countries are developing rapidly, which can mean bigger profits - but also bigger risks. Think of it as investing in countries that might become the next America.",
    "Long-term growth, higher risk tolerance, diversification",
    "Potential for high growth as these countries develop",
    "China and India's middle class is growing - millions of new consumers"))

  const VymEntry: Entry := Entry("VYM", EtfInfo(
    "Vanguard High Dividend Yield ETF",
    "Companies That Pay You Regularly",
    "Dividend Stocks",
    "Medium",
    "0.06%",
    "VYM owns companies that regularly share their profits with investors (called dividends). It's like getting a paycheck from your investments every few months. These companies are usually stable and established, like utilities and banks. Good for people who want regular income.",
    "Regular income, semi-retirement, stable growth",
    "You get paid while your investment grows",
    "Might pay you $300-400 per year for every $10,000 invested"))

  const SchdEntry: Entry := Entry("SCHD", EtfInfo(
    "Schwab U.S. Dividend Equity ETF",
    "Quality Companies That Pay",
    "Dividend Stocks",
    "Medium",
    "0.06%",
    "SCHD is pickier than VYM - it only owns high-quality companies with strong finances that have consistently paid and grown their dividends. It's like VYM but with stricter standards. Popular with investors who want both income and quality.",
    "Income + quality, long-term dividend growth",
    "You own the best of the best dividend payers",
    "Companies that have increased their dividend payments for 10+ years"))

  const XlkEntry: Entry := Entry("XLK", EtfInfo(
    "Technology Select Sector SPDR Fund",
    "Pure Technology",
    "Technology Sector",
    "Higher",
    "0.10%",
    "XLK is all-in on technology. It owns the tech companies from the S&P 500, like Apple, Microsoft, and Nvidia. If you believe tech is the future but want something more focused than QQQ, this is it. But remember: when tech crashes, this crashes hard.",
    "Tech believers, long-term growth, higher risk tolerance",
    "Direct bet on technology's growth",
    "Up over 400% in the past 10 years during the tech boom"))

  const XlvEntry: Entry := Entry("XLV", EtfInfo(
    "Health Care Select Sector SPDR Fund",
    "Healthcare Companies",
    "Healthcare Sector",
    "Medium",
    "0.10%",
    "XLV owns pharmaceutical companies, hospitals, and medical device makers. As people age and healthcare advances, these companies tend to grow steadily. Healthcare is one of the most stable sectors - people always need medicine and doctors.",
    "Stability, aging population trend, defensive investing",
    "Healthcare demand never stops",
    "Includes companies like Johnson & Johnson and Pfizer"))

  const XlfEntry: Entry := Entry("XLF", EtfInfo(
    "Financial Select Sector SPDR Fund",
    "Banks and Financial Companies",
    "Financial Sector",
    "Medium",
    "0.10%",
    "XLF owns banks, insurance companies, and other financial institutions. These companies make money from interest rates and managing money. When the economy is strong, they tend to do well. When the economy struggles, they can suffer.",
    "Economic growth believers, diversification",
    "Banks are the backbone of the economy",
    "Includes JPMorgan, Bank of America, Wells Fargo"))

  const XleEntry: Entry := Entry("XLE", EtfInfo(
    "Energy Select Sector SPDR Fund",
    "Oil and Energy Companies",
    "Energy Sector",
    "Higher",
    "0.10%",
    "XLE owns oil, gas, and energy companies like ExxonMobil and Chevron. Energy prices go up and down a lot, which makes this investment more volatile. Good for hedging against inflation - when everything gets expensive, energy often does too.",
    "Inflation protection, oil price believers, diversification",
    "Performs well when oil prices rise",
    "Up 50%+ when oil prices surged in 2022"))

  const VugEntry: Entry := Entry("VUG", EtfInfo(
    "Vanguard Growth ETF",
    "Fast-Growing Companies",
    "Growth Stocks",
    "Higher",
    "0.04%",
    "VUG owns companies that are growing fast - think tech companies and innovative businesses. These companies reinvest their profits to grow bigger rather than paying dividends. Higher risk, higher potential reward. Like planting a tree that might grow tall.",
    "Long-term growth, younger investors, higher risk tolerance",
    "Focuses on tomorrow's winners",
    "Heavy in companies like Amazon and Tesla"))

  const VtvEntry: Entry := Entry("VTV", EtfInfo(
    "Vanguard Value ETF",
    "Bargain-Priced Stable Companies",
    "Value Stocks",
    "Medium",
    "0.04%",
    "VTV owns established companies that the market thinks are underpriced - basically bargains. These are often older, stable companies in traditional industries. They may grow slower, but they're usually safer and pay dividends.",
    "Stability, dividend income, defensive investing",
    "Buying quality at a discount",
    "Companies like Berkshire Hathaway and Johnson & Johnson"))

  const VbEntry: Entry := Entry("VB", EtfInfo(
    "Vanguard Small-Cap ETF",
    "Small Companies, Big Potential",
    "Small Company Stocks",
    "Higher",
    "0.05%",
    "VB owns smaller companies that have room to grow into big companies. Small companies can grow faster than giants, but they're also riskier - many fail. Think of it as investing in the next potential Amazon when it was still small.",
    "Long-term growth, higher risk tolerance, diversification",
    "Hunting for the next big success story",
    "More volatile but historically outperforms large caps over long periods"))

  const VnqEntry: Entry := Entry("VNQ", EtfInfo(
    "Vanguard Real Estate ETF",
    "Owning Buildings Without the Hassle",
    "Real Estate",
    "Medium",
    "0.12%",
    "VNQ lets you invest in real estate without buying actual property. You own pieces of companies that own malls, apartment buildings, offices, and warehouses. They collect rent and share the profits with you. It's like being a landlord without fixing toilets.",
    "Diversification, passive real estate exposure, income",
    "Real estate exposure without buying a house",
    "Paid good dividends from rental income"))

  const EsguEntry: Entry := Entry("ESGU", EtfInfo(
    "iShares ESG Aware MSCI USA ETF",
    "Responsible Investing",
    "Sustainable/ESG Investing",
    "Medium",
    "0.15%",
    "ESGU invests in companies that score well on environmental, social, and governance (ESG) factors. It avoids companies with bad environmental records or poor labor practices. You can grow your money while supporting companies that do good.",
    "Values-based investing, socially conscious investors",
    "Invest according to your values",
    "Excludes tobacco, weapons, and major polluters"))

  const GldEntry: Entry := Entry("GLD", EtfInfo(
    "SPDR Gold Trust",
    "Digital Gold",
    "Commodities - Gold",
    "Medium",
    "0.40%",
    "GLD tracks the price of gold. When people get scared about the economy or inflation, they buy gold, and GLD goes up. It's a hedge - insurance against your other investments falling. Gold doesn't pay dividends or grow like companies, but it holds value when things get uncertain.",
    "Portfolio insurance, inflation hedge, diversification",
    "Gold has been valuable for thousands of years",
    "Surged during 2008 financial crisis and 2020 pandemic"))

  const VttvxEntry: Entry := Entry("VTTVX", EtfInfo(
    "Vanguard Target Retirement 2030",
    "Auto-Pilot Retirement Fund",
    "Target Date Fund",
    "Medium (Auto-Adjusting)",
    "0.08%",
    "This fund does all the work for you. If you plan to retire around 2030, it automatically adjusts your mix of stocks and bonds as you get closer to retirement. More stocks when you're young (risky = higher growth), more bonds as you age (safe = preserve wealth). Set it and forget it.",
    "Hands-off investors, retirement planning, beginners",
    "You don't have to think about it - it rebalances automatically",
    "Perfect for someone who wants to retire in 2030"))

  const ItotEntry: Entry := Entry("ITOT", EtfInfo(
    "iShares Core S&P Total U.S. Stock Market ETF",
    "Another Total Market Option",
    "US Total Market",
    "Medium",
    "0.03%",
    "ITOT is similar to VTI - it owns the entire US stock market. Same concept, different company. Both are excellent choices. Pick based on which broker you use or which has lower fees for you.",
    "Total market exposure, diversification",
    "Simple, cheap, and effective",
    "Owns about 3,500 US companies"))

  const ArkkEntry: Entry := Entry("ARKK", EtfInfo(
    "ARK Innovation ETF",
    "Betting on Future Tech",
    "Innovation/Disruptive Tech",
    "Very High",
    "0.75%",
    "ARKK invests in companies working on cutting-edge technology like AI, robotics, genomics, and electric vehicles. It's very aggressive - big wins or big losses. Not for the faint of heart. Managed by Cathie Wood, a famous (and controversial) investor.",
    "Risk-takers, believers in disruptive innovation, small portion of portfolio",
    "Focuses on world-changing companies",
    "Up 150% in 2020, down 70% in 2022 - very volatile!"))
}
