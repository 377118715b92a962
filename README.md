# InvestBuddy core in Dafny

InvestBuddy is a chat assistant that helps beginners in Azerbaijan start investing in ETFs. It has five parts:

- a static ETF knowledge base;
- a safety check and a stock/bond portfolio planner;
- a price service with a 15-minute cache and an Alpha Vantage → Yahoo Finance fallback;
- a live market-data fetcher with its own cache;
- a semantic search over the knowledge base.

A FastAPI backend ties these together. Its `/chat` endpoint splits the conversation, assembles the system prompt and forwards the request to a language model.

This project models that core as Dafny modules, one per source file:

| module | source file | form |
|---|---|---|
| `EtfKnowledge` | etf_knowledge.py | the knowledge base as a sequence of entries; searches as loops specified by a filter function |
| `InvestmentLogic` | investment_logic.py | safety check, risk profile, portfolio legs, projection and plan; the list-building steps are methods |
| `FinancialApi` | financial_api.py | `PriceCache` class over a `map`; each lookup is specified by a pure step function |
| `LiveEtfData` | live_etf_data.py | `LiveDataCache` class, change computations, and the choice of what the AI text shows |
| `VectorStore` | vector_store.py | `ETFVectorStore` class; document texts, top-k search and context assembly |
| `Backend` | backend.py | message partition, system-prompt sections, and the `/stock/{symbol}` response |
| `InvestmentPlatforms` | investment_platforms.py | platform catalogue, selection by level, and the text listing |

Three support modules are shared:

- `Wrappers` holds `Option`/`Result`.
- `Text` holds Python's `lower`/`upper`, `in`, `join`, `split` and `strip`, for ASCII text.
- `Sequences` holds the subsequence relation used for "keeps the original order".

Everything that crosses a process boundary is a parameter, so the model is deterministic:

- the HTTP price sources;
- yfinance;
- the sentence encoder and its cosine scores;
- the clock;
- the pickle file;
- the knowledge-base context that `chat` receives.

Amounts are `real`. Texts that embed formatted numbers are structured values. For example, an `Action` carries the debt percentage, not the rendered sentence.

## Model

| member | source | states |
|---|---|---|
| Text.Lower | etf_knowledge.py:404 | `str.lower`: same length, and every character lower-cased |
| Text.Upper | etf_knowledge.py:394 | `str.upper`: same length, every character upper-cased, and no lower-case letter left |
| Text.UpperIdempotent | backend.py:228 | upper-casing an upper-cased symbol changes nothing |
| Text.Contains | etf_knowledge.py:404 | Python's substring test: true exactly when the query occurs at some position |
| Text.SplitJoin | investment_platforms.py:274-276 | splitting a `"\n"`-join of newline-free parts at `'\n'` gives back the parts |
| Text.StripSpec | live_etf_data.py:168 | `str.strip` returns a slice of the input, with only whitespace removed at either end, and with no whitespace at its own ends |
| EtfKnowledge.Find | etf_knowledge.py:394 | dictionary `.get`: None exactly when no entry has the key; a found value belongs to an entry with that key, and is that entry's value when keys are unique |
| EtfKnowledge.GetEtfInfo | etf_knowledge.py:392-394 | lookup under the upper-cased symbol: None exactly when that key is absent |
| EtfKnowledge.GetEtfInfoIgnoresCase | etf_knowledge.py:392-394 | a lower-case spelling of a symbol finds the same entry |
| EtfKnowledge.GetAllEtfSymbols | etf_knowledge.py:396-398 | one symbol per entry, in knowledge-base order, with no duplicates when keys are unique |
| EtfKnowledge.SearchEtfsByCategory | etf_knowledge.py:400-409 | the loop returns exactly the case-insensitive category filter of the knowledge base |
| EtfKnowledge.SearchEtfsByRisk | etf_knowledge.py:411-420 | the loop returns exactly the case-insensitive risk-level filter of the knowledge base |
| EtfKnowledge.SearchByField | etf_knowledge.py:400-420 | the shared search loop computes the filter, with `results` grown by appending |
| EtfKnowledge.Filter | etf_knowledge.py:403-404 | a search never returns more entries than the knowledge base holds |
| EtfKnowledge.FilterMembership | etf_knowledge.py:403-408 | an entry is in the result iff it is in the knowledge base and its field contains the query, ignoring case |
| EtfKnowledge.FilterPreservesOrder | etf_knowledge.py:403-408 | results keep knowledge-base order (a subsequence) |
| EtfKnowledge.EmptyQueryMatchesAll | etf_knowledge.py:404 | the empty query returns the whole knowledge base |
| EtfKnowledge.HighMatchesBothHighTiers | etf_knowledge.py:415 | the query "high" matches both "Higher" and "Very High" |
| EtfKnowledge.GetBeginnerFriendlyEtfs | etf_knowledge.py:422-434 | the loop returns the fixed beginner list filtered by presence in the knowledge base |
| EtfKnowledge.PresentShape | etf_knowledge.py:425-432 | at most one result per listed symbol; every result is listed and is that symbol's entry; a listed symbol is returned iff it is in the knowledge base |
| EtfKnowledge.AllBeginnerSymbolsFound | etf_knowledge.py:425-432 | when all seven beginner symbols are in the knowledge base, seven entries come back |
| EtfKnowledge.KnowledgeBaseKeys | etf_knowledge.py:7-390 | the knowledge base's 23 keys, SPY to ARKK, in definition order |
| EtfKnowledge.KnowledgeBaseKeysUnique | etf_knowledge.py:7-390 | no key of the shipped knowledge base repeats, as for any Python dict literal |
| EtfKnowledge.KeysListBeginners | etf_knowledge.py:425-432 | a knowledge base with the shipped keys holds all seven beginner symbols |
| EtfKnowledge.ShippedBeginnerEtfs | etf_knowledge.py:422-432 | on the shipped knowledge base, get_beginner_friendly_etfs returns all seven funds |
| InvestmentLogic.SafetyCheck | investment_logic.py:33-91 | fund needed is exactly 3 × expenses; the debt ratio is debt/salary, or 0 when salary ≤ 0; safe iff ratio ≤ 0.3 and savings ≥ fund; the message is the ready text iff safe; actions as `PriorityActions` |
| InvestmentLogic.PriorityActionsShape | investment_logic.py:58-83 | 2 actions per failed check; debt actions before fund actions; the soft suggestion is last; the suggestion alone never blocks investing |
| InvestmentLogic.HighDebtBlocks | investment_logic.py:59-66 | a debt ratio above 30% blocks investing, and the first action is to pay down the debt at that percentage |
| InvestmentLogic.SafeProfileIsReady | investment_logic.py:59-70 | a 3-month fund and a ratio ≤ 0.3 make the user ready |
| InvestmentLogic.Mix | investment_logic.py:14-30 | every risk profile's stocks and bonds sum to 100, both positive |
| InvestmentLogic.DetermineRiskProfile | investment_logic.py:94-103 | total: < 3 years conservative, 3..6 moderate, ≥ 7 aggressive (each an iff) |
| InvestmentLogic.Leg | investment_logic.py:139-167 | at most one allocation per asset, present iff the amount is positive and a price was found; its ETF and percentage from the profile, its USD amount the profile's share of the investment in dollars, its AZN amount the same share of the investment in manat; shares × price = USD amount |
| InvestmentLogic.LegAmountPositive | investment_logic.py:120-122 | a leg's USD amount is positive iff the monthly investment is |
| InvestmentLogic.LegAmountsSplitInvestment | investment_logic.py:120-122 | the profile's two USD shares add up to the whole investment in USD |
| InvestmentLogic.LegsSplitInvestment | investment_logic.py:139-167 | with a positive investment and both prices found, the portfolio has both legs, and their USD amounts add up to the investment in dollars and their AZN amounts to the investment in manat |
| InvestmentLogic.CalculatePortfolio | investment_logic.py:106-169 | profile from the horizon; USD amount at the fixed rate; allocations = stocks leg then bonds leg, at most two |
| InvestmentLogic.PowPositive | investment_logic.py:196 | powers of a positive growth factor are positive |
| InvestmentLogic.GeometricSum | investment_logic.py:196 | the contribution sum satisfies the closed form (g^n − 1)·g/(g − 1) |
| InvestmentLogic.FutureValueIsAnnuityDue | investment_logic.py:195-197 | the projected future value is the annuity-due formula of the source |
| InvestmentLogic.PowAboveOne | investment_logic.py:196 | a growth factor above 1 stays above 1 under positive powers |
| InvestmentLogic.ContributionsExceedCount | investment_logic.py:196 | with positive growth, n deposits grow to more than n deposits |
| InvestmentLogic.GainsPositive | investment_logic.py:195-197 | total invested is 12 × years × monthly, and the gains are positive for a positive investment over ≥ 1 year |
| InvestmentLogic.ProjectionExample | investment_logic.py:188-197 | 500 AZN a month for 7 years at the moderate 7% rate invests 42000 and ends above it |
| InvestmentLogic.RecommendationPlan | investment_logic.py:172-258 | projection as computed; first purchase is the first allocation; second is the second allocation or "bonds" |
| InvestmentLogic.GenerateInvestmentRecommendation | investment_logic.py:261-314 | portfolio and plan iff the safety check passes; the safety message and every safety detail (fund needed, debt ratio, savings, actions) as safety_check computes them; the portfolio's profile, horizon, AZN and USD amounts and legs tied to the inputs, and the plan built from it; otherwise guidance with the hold-on message, a non-empty action list and the fund target |
| InvestmentLogic.GoodFinancialPosition | investment_logic.py:320-336 | the first self-test is safe and gets SPY 80% then BND 20% |
| InvestmentLogic.HighDebt | investment_logic.py:338-353 | the second self-test is blocked and first asks to pay down a 75% debt ratio |
| FinancialApi.PriceLookup | financial_api.py:91-115 | a fresh cache hit consults no source; otherwise Alpha Vantage first and Yahoo only when it failed; a success is cached under the symbol; a total failure leaves the cache alone |
| FinancialApi.BypassStillWrites | financial_api.py:93-112 | with the cache bypassed a source is always consulted and a success is still written to the cache |
| FinancialApi.MultiLookupShape | financial_api.py:118-122 | one result per requested symbol; no cache entry is lost; every found price is the cached one |
| FinancialApi.NameOr | financial_api.py:135 | `POPULAR_ETFS.get(symbol, symbol)`: the listed name, or the symbol itself when unlisted |
| FinancialApi.RecommendedAreSuccesses | financial_api.py:125-141 | a key ETF is in the result iff its lookup succeeded, with name, price, change and source taken from that quote |
| FinancialApi.PriceCache.constructor | financial_api.py:15 | the cache starts empty |
| FinancialApi.PriceCache.GetStockPrice | financial_api.py:91-115 | result and new cache are those of `PriceLookup` |
| FinancialApi.PriceCache.ClearCache | financial_api.py:153-156 | the cache becomes empty |
| FinancialApi.PriceCache.GetMultiplePrices | financial_api.py:118-122 | the loop's results and cache are those of `MultiLookup`; keys are exactly the requested symbols |
| FinancialApi.PriceCache.GetRecommendedEtfs | financial_api.py:125-141 | the loop computes `Recommended` over SPY, VOO, BND, AGG; no other key appears |
| LiveEtfData.FirstNonZero | live_etf_data.py:41-42 | `a or b`: the first value unless it is missing or zero |
| LiveEtfData.DayChange | live_etf_data.py:44-47 | 0 when either price is 0; otherwise change × previous = (current − previous) × 100; positive on a rise |
| LiveEtfData.WindowChange | live_etf_data.py:50-62 | 0 for an empty history or a zero start; otherwise the percentage change from the first close |
| LiveEtfData.BuildLive | live_etf_data.py:64-81 | the record's price, day, month and year changes and assets come from the ticker data by the rules above |
| LiveEtfData.CacheKeyInjective | live_etf_data.py:23 | distinct symbols never share a `<symbol>_live` cache key |
| LiveEtfData.LiveStep | live_etf_data.py:16-96 | a fresh hit returns the cached record unchanged; a successful fetch returns `BuildLive` of the ticker data (price, day, month and year changes, assets) and caches it with the current time; a failure returns price 0 with the error and caches nothing |
| LiveEtfData.LiveStepKeepsOnlyLive | live_etf_data.py:84-96 | error records are never cached; an error record comes only from a failed fetch |
| LiveEtfData.MultiLiveShape | live_etf_data.py:98-113 | one record per requested symbol, each about that symbol; the cache keeps holding good records under their own keys |
| LiveEtfData.LiveDataCache.constructor | live_etf_data.py:13 | the cache starts empty |
| LiveEtfData.LiveDataCache.GetLiveEtfData | live_etf_data.py:16-96 | record and new cache are those of `LiveStep` |
| LiveEtfData.LiveDataCache.GetMultipleLiveData | live_etf_data.py:98-113 | the loop's results and cache are those of `MultiLive` |
| LiveEtfData.ShowAssets | live_etf_data.py:130-139 | N/A iff no number; billions iff ≥ 1e9; millions iff in [1e6, 1e9); dollars below 1e6; the shown amount scales back to the value |
| LiveEtfData.FormatLiveData | live_etf_data.py:115-168 | the unavailable text iff the record holds an error, with the exact error line; otherwise assets, expense ratio (iff a number) and dividend yield (iff > 0) as percentages, and changes copied |
| VectorStore.MetadataOf | vector_store.py:55-62 | metadata carries the entry's symbol, name, simple name, category, risk level and expense ratio |
| VectorStore.DocTextStartsWithSymbol | vector_store.py:42-54 | the stripped document text begins with the "Symbol: …" line |
| VectorStore.StripKeepsHead | vector_store.py:54 | stripping leading layout keeps a non-blank head intact at the front |
| VectorStore.TrimStartSkipsLayout | vector_store.py:54 | stripping removes exactly the whitespace layout before the first real character |
| VectorStore.ArtifactFile.Save | vector_store.py:76-84 | the saved artifact is the documents, embeddings and metadata written |
| VectorStore.ArtifactFile.Load | vector_store.py:87-94 | loading returns what was saved |
| VectorStore.Insert | vector_store.py:115 | inserting an index keeps all indices in range and adds exactly that index |
| VectorStore.InsertDescending | vector_store.py:115 | insertion keeps indices ordered by non-increasing score |
| VectorStore.InsertDistinct | vector_store.py:115 | insertion of a new index keeps indices distinct |
| VectorStore.SortedIndices | vector_store.py:115 | the first n indices, each once, by non-increasing score |
| VectorStore.TopK | vector_store.py:115 | one choice for `torch.topk` with k = min(n, count): distinct in-range indices by non-increasing score, lower index first among ties |
| VectorStore.TopKMeetsIsTopK | vector_store.py:115 | that choice meets everything `torch.topk` promises (count, distinct, in range, by score, none left out scoring higher) |
| VectorStore.TopKIsBest | vector_store.py:115 | no index left out scores higher than one chosen |
| VectorStore.Blocks | vector_store.py:150-175 | succeeds iff every hit has knowledge; one block per hit, in order |
| VectorStore.BlockKeepsKnowledge | vector_store.py:155-171 | the live-data paragraph is only ever appended after the knowledge text |
| VectorStore.ContextShape | vector_store.py:143-177 | "" iff no hits; a missing entry fails like the source's KeyError; otherwise the text opens with the header line |
| VectorStore.ETFVectorStore.constructor | vector_store.py:16-33 | with a saved file, the store is loaded from it and is valid iff the saved sequences line up; otherwise a valid store with one document, metadata and embedding per entry, saved |
| VectorStore.ETFVectorStore.CreateEmbeddings | vector_store.py:36-73 | document i is the stripped text of entry i, metadata i its metadata, embedding i its encoding; the store is valid and the artifact is saved |
| VectorStore.ETFVectorStore.LoadEmbeddings | vector_store.py:87-94 | the fields become the saved artifact |
| VectorStore.ETFVectorStore.Search | vector_store.py:97-128 | min(n, count) hits by non-increasing relevance; hit p belongs to the p-th index of some top-k choice `torch.topk` may return, whatever the order among ties |
| VectorStore.ETFVectorStore.HitAt | vector_store.py:120-126 | a hit carries the index's symbol, its score and the knowledge-base entry found for it |
| VectorStore.ETFVectorStore.GetContextForQuery | vector_store.py:131-177 | the context assembled from the hits of some top-k choice `torch.topk` may return |
| VectorStore.AssembleContext | vector_store.py:145-177 | the loop returns exactly `Context` of the hits |
| VectorStore.BlocksFailureSticks | vector_store.py:150-153 | once a hit lacks knowledge the whole context fails |
| VectorStore.BuiltStoreFindsEveryHit | vector_store.py:120-125 | every symbol a built store can return is in the knowledge base, with its own entry |
| VectorStore.StoreHolder.constructor | vector_store.py:181 | no store at first |
| VectorStore.StoreHolder.GetVectorStore | vector_store.py:184-189 | the first call builds the store: loaded from the saved file (valid iff it lines up), or built valid from the knowledge base and saved; later calls return the same store and do not touch the file |
| Backend.ProfileIsLastMarked | backend.py:78-84 | the profile is "" iff no system message holds "User Profile:"; otherwise it is the content of the last such message |
| Backend.ConversationIsNonSystem | backend.py:81-87 | a message is in the conversation iff it is one of the incoming messages and not a system message |
| Backend.ConversationKeepsOrder | backend.py:81-87 | the conversation keeps the incoming order (a subsequence) |
| Backend.PartitionMessages | backend.py:78-87 | the loop yields `ProfileOf` and `Conversation` of the messages |
| Backend.LastUserMessageIsLast | backend.py:90-94 | None iff no message has role "user"; otherwise the content of the last one |
| Backend.FindLastUserMessage | backend.py:90-94 | the reverse scan yields `LastUserMessage` |
| Backend.SectionsShape | backend.py:100-158 | profile section iff a profile, placed first; platforms section always; ETF section iff a non-empty last question with non-empty context; reminders last |
| Backend.SystemPromptOpens | backend.py:97-110 | the prompt starts with the base prompt and, when there is a profile, with the profile section next |
| Backend.SystemPromptPieces | backend.py:97-158 | the prompt is the base prompt, the optional profile section, the platforms section, the optional ETF section and the reminders, in that order |
| Backend.AppendSections | backend.py:97-158 | the `+=` steps build `SystemPrompt` for any fixed wording |
| Backend.BuildSystemPrompt | backend.py:112-158 | with the platform listing and the beginners' guide, the prompt is `SystemPrompt` in the source's wording |
| Backend.ChatMessages | backend.py:161 | one system message with the prompt, then the conversation: length 1 + \|conversation\| |
| Backend.PrepareChat | backend.py:75-161 | the request is a system message carrying the prompt for this profile and last question, followed by the conversation |
| Backend.NotFoundBecomesServerError | backend.py:227-240 | a symbol no source prices gets 500 as written where 404 is intended; found prices are answered alike |
| Backend.GetStock | backend.py:224-238 | the corrected endpoint: the price is looked up through the cache under the upper-cased symbol and a found price is answered with its data; an unpriced symbol gets the intended 404 naming the symbol as given, where the code as written answers 500 (see Findings) |
| InvestmentPlatforms.GetPlatformRecommendations | investment_platforms.py:240-262 | a beginner gets eToro then Binance; an intermediate investor Interactive Brokers then eToro; any other level Interactive Brokers, eToro and Saxo Bank; every pick is from the catalogue, and only beginners get a crypto-friendly platform |
| InvestmentPlatforms.PrefixEach | investment_platforms.py:274-276 | one line per item, behind the fixed prefix, in order |
| InvestmentPlatforms.PrefixedListLines | investment_platforms.py:274-276 | the joined list splits back into exactly the prefixed items |
| InvestmentPlatforms.FormattedBlockNamesPlatform | investment_platforms.py:278-279 | a platform's block contains its name and its URL |
| InvestmentPlatforms.Blocks | investment_platforms.py:302-303 | one formatted block per platform, in order |
| InvestmentPlatforms.BlocksAppend | investment_platforms.py:296-303 | the international blocks come before the crypto-friendly ones |
| InvestmentPlatforms.ListingStartsWithHeader | investment_platforms.py:300-304 | the listing opens with "# Investment Platforms Available:" |
| InvestmentPlatforms.ListPlatforms | investment_platforms.py:300-304 | the loop yields the header and the blocks joined by "\n" |
| InvestmentPlatforms.GetAllPlatformsForAi | investment_platforms.py:294-304 | the listing of the international platforms followed by the crypto-friendly ones |

## Left out

- HTTP and library calls are oracle parameters: Alpha Vantage, yfinance, the OpenAI client, and FastAPI routing and CORS. The request bodies of `/chat`, `/webhook/chat`, `/etfs/recommended` and `/investment/recommend` only forward to modelled operations.
- The embedding model and the cosine scores are inputs (`Encoder`, `scores`). pickle is reduced to an `ArtifactFile` holding the saved triple.
- `search_etfs` and `get_ai_context` are one-line wrappers over the singleton; the backend receives the context as a function.
- database.py, frontend.py and prompts.py are not part of this model. The advisor prompt from prompts.py is the `basePrompt` parameter.
- Float formatting is not modelled: `:.2f`, thousands separators, `round(..., 2)` and `round(..., 4)` in allocations, and `format_price`. Plans, actions and live views keep the unrounded `real` values.
- The goal's `.title()` and the rendering of the plan and guidance texts are not modelled. They are structured values (`Plan`, `Guidance`).
- Text.Lower: ASCII letters only; Python also maps non-ASCII letters.
- Text.Upper: ASCII letters only; Python also maps non-ASCII letters.
- Text.StripSpec: white space below 0x80 only (the six C white-space characters and 0x1C to 0x1F); Python's `strip` also removes non-ASCII spaces such as 0x85 and 0xA0.
- LiveEtfData.BuildLive: a ticker field set to `None` is treated like a missing key. Non-numeric values (`'N/A'`) are modelled as absent.
- The exception raised by `yf.Ticker` is a `Failed(error)` fetch. The exception text is its payload.
- FinancialApi.PriceCache.GetMultiplePrices: one `now` for the whole batch, where the source reads the clock on every lookup.
- FinancialApi.PriceCache.GetRecommendedEtfs: one `now` for all four lookups, where each `get_stock_price` call reads the clock again.
- LiveEtfData.LiveDataCache.GetMultipleLiveData: one `now` and one `stamp` for the whole batch. The 0.2 s sleep between fetches is not modelled.
- VectorStore.TopK: breaks ties lowest index first, one of the orders `torch.topk` may return. The store's contracts (`Search`, `GetContextForQuery`) are stated over any choice meeting `IsTopK`, so they do not depend on it.
- VectorStore.ETFVectorStore.GetContextForQuery: the live-data paragraph is an oracle per symbol. When it raises, the block keeps only the knowledge text.
- Backend.GetStock: answers the evidently intended 404 for a symbol no source can price. The code as written answers 500 with detail "404: …" (backend.py:239-240); `StockResponseAsWritten` models that answer and `NotFoundBecomesServerError` relates the two (see Findings).
- Backend.PrepareChat: the ETF context is a total function. A failure inside get_ai_context (for instance the missing-entry KeyError that `VectorStore.Context` models as `MissingField`) is caught by chat's generic handler and answered 500 (backend.py:181-185); the model does not carry that error path.
- InvestmentLogic.Leg: requires a non-zero price whenever the leg is listed (a positive amount and a found quote). The source's guard `and stock_price_data` only tests for a non-empty quote, so a price of 0 raises ZeroDivisionError there (investment_logic.py:140-141,155-156).
- InvestmentLogic.CalculatePortfolio: requires the same non-zero price for each listed leg, for the same reason.
- InvestmentLogic.GenerateInvestmentRecommendation: requires a non-zero price for every listed leg and at least one leg once the check passes. The source divides by the price (investment_logic.py:141,156) and reads the first allocation unconditionally (investment_logic.py:243).
- Global mutable state and concurrent requests are not modelled. Each cache and the store singleton is an explicit object.

## Findings

| source | as written | input that shows it | evidently intended | confidence | as-written member | corrected member |
|---|---|---|---|---|---|---|
| backend.py:235-240 | the 404 for an unknown symbol is raised inside the `try` whose `except Exception` turns it into a 500 with detail "404: Could not fetch price data for …" | any symbol for which both price sources return nothing, e.g. a misspelt ticker | answer 404 with detail "Could not fetch price data for <symbol>" | not executed; relies on the exception's text being "<status>: <detail>" | Backend.StockResponseAsWritten | Backend.StockResponseFor |
