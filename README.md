# LLM-Logic-Trading-System, modelled in Dafny

A model of the decision core of a cryptocurrency trading assistant.
The modelled parts are:

- how a position is sized: fixed risk, clamped Kelly or volatility scaled, and then capped;
- where the stop-loss and take-profit levels go;
- how a portfolio's exposure and concentration are rated;
- how an untrusted reply from an LLM endpoint becomes a BUY/SELL/HOLD recommendation with a confidence in [0, 100];
- how quotes from several price sources are checked against each other;
- how news articles are scored for sentiment and blended with a social score;
- how a LunarCrush sentiment score falls back to its cache;
- how a Coinbase account list becomes balances, positions and percentages;
- when the orchestrator acts on a recommendation and what order it places.

There is one module per source file, and each module lives in its own `.dfy` file:

| module | file |
|---|---|
| `RiskManager` | `src/risk/risk_manager.py` |
| `ExecutionRisk` | `execution/risk_manager.py` |
| `TradingAdvisor` | `src/llm/trading_advisor.py` |
| `PriceGuard` | `data_feeds/multi_source_price_guard.py` |
| `PriceFetcher` | `src/data_sources/price_fetcher.py` |
| `SentimentAnalyzer` | `src/data_sources/sentiment_analyzer.py` |
| `SentimentMonitor` | `data_feeds/sentiment_monitor.py` |
| `CoinbaseManager` | `src/portfolio/coinbase_manager.py` |
| `TradingSystem` | `src/trading_system.py` |

`Common` holds the shared vocabulary:

- `Option` and `Result`;
- JSON values;
- insertion-ordered dictionaries, as association lists with `Put` and `Get`;
- the ASCII subset of Python's string methods;
- a decimal parser that stands in for `float()` on text.

How the model represents the source:

- A Python exception that escapes a call is an `Err` carrying the exception's name. This includes the unguarded divisions in `calculate_position_size` and `_calculate_kelly_size`, which become `ZeroDivisionError`.
- Every HTTP request is a function parameter, from the request to its decoded answer or to the failure.
- The clock is a `now` parameter.
- Environment variables are `Option` parameters.
- Objects whose fields the source updates in place are classes: the caches of `PriceFetcher`, `SentimentAnalyzer` and `CoinbasePortfolioManager`, and the monitor's cache file. Their loops are methods, each proved equal to a function that defines its result.

## Model

| member | source | states |
|---|---|---|
| RiskManager.FixedRiskSize | src/risk/risk_manager.py:94-104 | with a positive per-unit risk, losing that risk on every unit loses exactly portfolio times risk-per-trade times confidence; otherwise the size is 0 |
| RiskManager.WinProbability | src/risk/risk_manager.py:118 | the win probability is the confidence clamped into [0.1, 0.9]: equal inside the band, 0.1 below and 0.9 above it |
| RiskManager.KellyFraction | src/risk/risk_manager.py:118-132 | at 2:1 odds the fraction is the edge (3p - 1)/2 of the clamped win probability p whenever that edge lies within both caps. Without an edge it is 0, or the risk cap if that is negative. An edge over the position cap gives the smaller of the two caps. An edge within the position cap but over the risk cap gives the risk cap. In every case it never exceeds either cap, and it is non-negative for a positive risk percentage |
| RiskManager.KellyNoEdgeNoBet | src/risk/risk_manager.py:118-129 | at 2:1 odds a win probability of at most one in three has no edge and bets nothing |
| RiskManager.KellySize | src/risk/risk_manager.py:106-135 | a stop equal to the entry (risk percentage 0) raises ZeroDivisionError; otherwise size times entry is the portfolio times the Kelly fraction |
| RiskManager.VolatilityFactor | src/risk/risk_manager.py:146-149 | the factor is positive and at most 5; it is 5% over the risk percentage when that is at least 1%, and 5 below it |
| RiskManager.VolatilitySize | src/risk/risk_manager.py:137-158 | size times entry is the portfolio times risk-per-trade times the factor times confidence; for a stop at least 1% away, the loss at the stop is 5% of portfolio times risk-per-trade times confidence |
| RiskManager.MethodSize | src/risk/risk_manager.py:53-64 | the selected method's size; it raises only for Kelly with the stop at the entry |
| RiskManager.CalculatePositionSize | src/risk/risk_manager.py:25-92 | a non-positive entry or stop, or an unknown method, gives the zero record; a zero portfolio value (or Kelly with stop at entry) raises; otherwise the size is the method's size capped at portfolio times the position cap over the entry, and the value, loss and percentages follow from that size |
| RiskManager.SizingFor | src/risk/risk_manager.py:75-92 | the record's value is size times entry, its loss size times the per-unit risk, and both percentages are those amounts over the portfolio times 100 |
| RiskManager.CappedSizing | src/risk/risk_manager.py:69-92 | for valid prices, a known method and a non-zero portfolio, the result is the record built from the capped size |
| RiskManager.MethodSizeNonNegative | src/risk/risk_manager.py:53-64 | with non-negative inputs every method asks for a non-negative size. This includes a stop at the entry for fixed risk (size 0) and volatility (the 1% floor); only Kelly is excluded there, because it divides by zero |
| RiskManager.SizingBounds | src/risk/risk_manager.py:69-79 | under those inputs, with Kelly's stop away from the entry, the position is non-negative and worth at most portfolio times the position cap. It is at most cap times 100 percent of the portfolio, and its loss is non-negative |
| RiskManager.CappedSizingBounds | src/risk/risk_manager.py:69-79 | the same bounds hold for any non-negative requested size once it is capped |
| RiskManager.SizingPositive | src/risk/risk_manager.py:25-104 | with every input positive and the stop away from the entry, fixed-risk and volatility sizing buy a positive quantity |
| RiskManager.MethodSizePositive | src/risk/risk_manager.py:94-158 | under those inputs the fixed-risk and volatility methods ask for a positive size |
| RiskManager.StopLossTakeProfit | src/risk/risk_manager.py:160-201 | the distances are 2 and 4 ATR for a positive ATR, else 5% and 10% of the entry; a buy puts the stop below and the target above, any other side the reverse; the reward:risk ratio is always 2; a zero entry without ATR raises ZeroDivisionError |
| RiskManager.LevelsBracketEntry | src/risk/risk_manager.py:177-193 | for a positive entry or ATR the levels exist, and a buy has stop < entry < target (a sell target < entry < stop) |
| RiskManager.BuyIgnoresCase | src/risk/risk_manager.py:188 | "buy", "BUY" and "Buy" are buys and "sell" is not |
| RiskManager.DefaultLevelsExample | src/risk/risk_manager.py:322 | entry 100, long, no ATR: stop 95, target 110, distances 5 and 10, ratio 2 |
| RiskManager.MaxFromZeroIsMaximum | src/risk/risk_manager.py:217-229 | the largest single position is non-negative, at least every percentage, and is either 0 or one of them |
| RiskManager.SumSquaresNonNegative | src/risk/risk_manager.py:233-238 | the concentration (Herfindahl) index is never negative |
| RiskManager.RiskLevelFor | src/risk/risk_manager.py:249-255 | Very High exactly above 80, High exactly in (60, 80], Medium exactly in (40, 60], Low exactly at or below 40 |
| RiskManager.RiskLevelMonotone | src/risk/risk_manager.py:249-255 | more adjusted exposure never gives a lower risk band |
| RiskManager.RiskRecommendations | src/risk/risk_manager.py:270-288 | the list is never empty; each warning appears exactly when its threshold is exceeded; the all-clear message appears exactly when none is, and then alone; the warnings keep their fixed order |
| RiskManager.AssessPortfolioRisk | src/risk/risk_manager.py:203-268 | the loop's exposure, largest position and index are the sum, maximum and sum of squares over 100 of the non-cash percentages; the band is that of the adjusted exposure; within-limits holds exactly when the largest position is within the cap and exposure is at most 90; the advice meets the recommendations' contract |
| RiskManager.AssessmentExample | src/risk/risk_manager.py:326-331 | BTC 30, ETH 25, ADA 10: exposure 65, largest position 30, concentration 16.25, band High |
| RiskManager.UsdIgnored | src/risk/risk_manager.py:222-223 | adding a cash entry never changes what the assessment sees |
| PriceGuard.RelTol | data_feeds/multi_source_price_guard.py:8-14 | the tolerance is the environment variable read as a float; it falls back to the 0.5% default when the variable is missing or cannot be read |
| PriceGuard.BinanceSymbol | data_feeds/multi_source_price_guard.py:16-17 | the Binance pair is the upper-cased symbol followed by exactly "USDT" |
| PriceGuard.CoinbaseProduct | data_feeds/multi_source_price_guard.py:19-20 | the Coinbase product is the upper-cased symbol followed by exactly "-USD" |
| PriceGuard.ExchangeNamesIgnoreCase | data_feeds/multi_source_price_guard.py:16-20 | upper-casing a symbol first gives the same exchange names |
| PriceGuard.ExchangeNamesAgree | data_feeds/multi_source_price_guard.py:16-20 | two symbols give the same pair and the same product if and only if they agree once upper-cased |
| PriceGuard.ParsePricePayload | data_feeds/multi_source_price_guard.py:27-31 | a payload that is not an object raises AttributeError; a missing or null price raises ValueError; otherwise the result is the price read as a float, and it succeeds exactly when a price is present and readable |
| PriceGuard.PayloadExamples | data_feeds/multi_source_price_guard.py:28-31 | a numeric price is read; a null price is a ValueError, a list price a TypeError and a list payload an AttributeError |
| PriceGuard.CheckQuotes | data_feeds/multi_source_price_guard.py:49-56 | the Binance exception wins over the Coinbase one; two quotes that disagree are a ValueError; success holds exactly when both quotes arrived and agree, and it returns both quotes and their average |
| PriceGuard.VerifyPrices | data_feeds/multi_source_price_guard.py:44-56 | a failed Binance request is raised before Coinbase is asked; success needs both requests to succeed, and holds exactly when the two quotes agree under the environment's tolerance |
| PriceGuard.AgreeSymmetric | data_feeds/multi_source_price_guard.py:51-54 | swapping the two exchanges does not change the verdict |
| PriceGuard.AgreeBoundsSpread | data_feeds/multi_source_price_guard.py:51-55 | for a positive average, accepted quotes differ by at most tol times the average, and each lies within tol/2 of it |
| PriceGuard.CloseQuotesAgree | data_feeds/multi_source_price_guard.py:51-55 | the converse: quotes within tol times a positive average of each other are accepted |
| PriceGuard.IdenticalQuotesAgree | data_feeds/multi_source_price_guard.py:51-55 | equal non-zero quotes always pass a non-negative tolerance |
| PriceGuard.NegativeQuotesAgree | data_feeds/multi_source_price_guard.py:52-54 | the guard rejects only a zero average: two negative quotes always pass |
| PriceGuard.DefaultToleranceExamples | data_feeds/multi_source_price_guard.py:51-54 | with the default tolerance, 100 against 100.4 passes and 100 against 101 is rejected |
| ExecutionRisk.PositionSize | execution/risk_manager.py:3-13 | any non-positive input raises ValueError; otherwise the quantity is positive, and losing the stop distance on it loses exactly 2% of the balance |
| ExecutionRisk.PositionSizeDecreasing | execution/risk_manager.py:11-12 | a larger stop distance times price buys strictly fewer units |
| ExecutionRisk.PositionSizeLinear | execution/risk_manager.py:11-12 | scaling the balance by k scales the quantity by k |
| ExecutionRisk.PositionSizeExample | execution/risk_manager.py:15-16 | a balance of 10000 with a 1% stop at 20000 buys one unit |
| SentimentMonitor.Delay | data_feeds/sentiment_monitor.py:18-19 | the pause after a failed attempt is at least half a second |
| SentimentMonitor.Backoff | data_feeds/sentiment_monitor.py:18-19 | after m pauses, the j-th pause is the delay for attempt j |
| SentimentMonitor.FirstSuccess | data_feeds/sentiment_monitor.py:11-15 | the attempt found is the first successful one at or after i: every earlier attempt failed, and it succeeded unless attempts ran out |
| SentimentMonitor.Retried | data_feeds/sentiment_monitor.py:9-20 | retrying succeeds exactly when some attempt succeeds; on failure it raises the last attempt's exception, or a TypeError (raise None) when no attempt is made |
| SentimentMonitor.RetryGet | data_feeds/sentiment_monitor.py:9-20 | the loop returns the first successful reply after that many requests; on failure every attempt was made and failed; it pauses after every failed attempt except the last |
| SentimentMonitor.AssetScore | data_feeds/sentiment_monitor.py:27-31 | a payload that is not an object raises; a falsy or missing `data` list means no score; a score that is returned is not null and comes from the first asset |
| SentimentMonitor.AssetScoreExamples | data_feeds/sentiment_monitor.py:28-31 | one asset gives its galaxy score; an empty, null or missing list gives none; an object in place of the list raises KeyError |
| SentimentMonitor.Fetched | data_feeds/sentiment_monitor.py:22-31 | a missing or empty key raises ValueError before any request; a failed retry raises; a score that is returned is never null |
| SentimentMonitor.FetchLunarCrushSentiment | data_feeds/sentiment_monitor.py:22-31 | asking through the retry loop gives exactly the fetch outcome above |
| SentimentMonitor.CacheContents | data_feeds/sentiment_monitor.py:33-40 | a missing or unreadable cache file reads as the empty dict; a stored object reads as its entries; any other JSON value the file holds is handed back as it is |
| SentimentMonitor.CacheWrite | data_feeds/sentiment_monitor.py:42-47 | writing succeeds exactly when the cache read back is a dict and the file can be opened for writing; the file then holds every earlier entry unchanged plus the symbol's new score entry; a non-dict cache is a TypeError and an unwritable file an OSError |
| SentimentMonitor.CachedScore | data_feeds/sentiment_monitor.py:65-69 | a cache that is not a dict raises AttributeError; an absent entry is no score; a truthy entry that is not an object raises; a returned score is the entry's `score` |
| SentimentMonitor.LiveScoreWrittenThrough | data_feeds/sentiment_monitor.py:54-60 | when the cache is a dict and can be written, a live score is returned and the cache then answers that same score |
| SentimentMonitor.FallbackReadsCache | data_feeds/sentiment_monitor.py:54-69 | without a key, or when the live fetch raises, finds no score, or writing it raises, the answer is the cached one and the file is unchanged |
| SentimentMonitor.NothingToFallBackOn | data_feeds/sentiment_monitor.py:64-69 | with no loadable cache file and no live score written, there is no score |
| SentimentMonitor.NonObjectCacheRaises | data_feeds/sentiment_monitor.py:44-69 | a cache file holding JSON that is not an object makes `get_sentiment` raise AttributeError whatever the network answers, and leaves the file as it was |
| SentimentMonitor.SentimentStore.ReadCache | data_feeds/sentiment_monitor.py:33-40 | reading the store returns the file's contents as `_read_cache` defines them |
| SentimentMonitor.SentimentStore.CacheSentiment | data_feeds/sentiment_monitor.py:42-47 | on success the new file is the old one with the symbol's score written in; otherwise the exception is reported and the file is unchanged |
| SentimentMonitor.SentimentStore.GetSentiment | data_feeds/sentiment_monitor.py:49-69 | the answer and the file afterwards are those of the `get_sentiment` function, so the four lemmas above describe the method |
| TradingAdvisor.MockRecommendation | src/llm/trading_advisor.py:242-252 | the fallback holds the context's symbol with action HOLD and confidence 0 |
| TradingAdvisor.ActionOf | src/llm/trading_advisor.py:155-161 | BUY exactly for a string reading "buy" in any case, SELL exactly for one reading "sell", HOLD for every other value |
| TradingAdvisor.Clamp | src/llm/trading_advisor.py:162 | the confidence is forced into [0, 100], unchanged inside it, 0 below it and 100 above it |
| TradingAdvisor.ConfidenceOf | src/llm/trading_advisor.py:156 | a missing confidence is 0; a present one is accepted exactly when `float` reads it, and then is that number; otherwise text raises ValueError and any other value TypeError |
| TradingAdvisor.FromDecision | src/llm/trading_advisor.py:155-164 | a decision gives a recommendation exactly when its confidence is readable; then the confidence is clamped, the action is read from `action` (default HOLD), and a non-empty context symbol is kept |
| TradingAdvisor.DecisionSymbol | src/llm/trading_advisor.py:148 | a decision's symbol is readable exactly when it is missing, empty or a string, and is then upper-cased |
| TradingAdvisor.Matching | src/llm/trading_advisor.py:144-151 | a chosen decision is one of the listed dicts and its symbol is the context's, upper-cased; when none is chosen, the context symbol is empty or no listed dict names it |
| TradingAdvisor.MatchingIsEarliest | src/llm/trading_advisor.py:144-151 | the decision chosen is the earliest dict naming the context symbol, provided every decision before it is passed over |
| TradingAdvisor.MatchingStops | src/llm/trading_advisor.py:145-148 | a dict whose truthy symbol is not text, reached before any match, raises AttributeError |
| TradingAdvisor.NothingMatches | src/llm/trading_advisor.py:144-152 | when every decision is passed over, nothing matches and the first dict is used |
| TradingAdvisor.FirstDict | src/llm/trading_advisor.py:152-153 | with no dict in the list the choice is the empty dict |
| TradingAdvisor.FirstDictIsEarliest | src/llm/trading_advisor.py:152-153 | the choice is the earliest dict in the list |
| TradingAdvisor.ChooseDecision | src/llm/trading_advisor.py:143-153 | the loop over the decisions picks the decision `Chosen` defines: the matching one, else the first dict |
| TradingAdvisor.MatchingDecisionPreferred | src/llm/trading_advisor.py:145-151 | a later decision naming the context symbol wins over an earlier one naming another symbol |
| TradingAdvisor.FirstDictWhenNoMatch | src/llm/trading_advisor.py:152-153 | when nothing names the context symbol, the first dict is chosen and non-dicts before it are skipped |
| TradingAdvisor.KeywordAction | src/llm/trading_advisor.py:214-219 | BUY exactly when the lower-cased text contains "buy" and not "sell", SELL exactly when it contains "sell" and not "buy" |
| TradingAdvisor.FirstConfidence | src/llm/trading_advisor.py:221-229 | the confidence is in [0, 100], and 0 when no token is a number in that range |
| TradingAdvisor.FirstConfidenceIsEarliest | src/llm/trading_advisor.py:221-229 | the confidence is the value of the earliest token that is a number in [0, 100] |
| TradingAdvisor.ScanConfidence | src/llm/trading_advisor.py:221-229 | the token loop stops at the token `FirstConfidence` picks, after "%" is turned into a space |
| TradingAdvisor.FromText | src/llm/trading_advisor.py:208-236 | prose keeps the context symbol and the given reason, and takes its action from the keywords and its confidence from the first token in range |
| TradingAdvisor.ChoiceText | src/llm/trading_advisor.py:168-169 | a falsy first choice reads as empty text, and a truthy non-dict choice raises AttributeError. A truthy `text` wins: its string, or AttributeError when it is not one. Otherwise a missing or falsy `message` gives empty text, and a non-dict message raises. Otherwise the message's truthy `content` gives its string (AttributeError if it is not one), and a falsy or missing content gives empty text |
| TradingAdvisor.DecisionReading | src/llm/trading_advisor.py:142-164 | a decision reply, when it is read, has a confidence in [0, 100] |
| TradingAdvisor.ChoiceReading | src/llm/trading_advisor.py:166-193 | a completion reply is read exactly when its text can be taken, and fails with the same exception otherwise. The reading carries the context symbol, the keyword action of the text, the first in-range number token of the text as confidence, and the stripped text (or the placeholder) as reason |
| TradingAdvisor.FlatReading | src/llm/trading_advisor.py:195-206 | a flat reply is read exactly when its confidence is readable, and that confidence is then clamped into [0, 100] |
| TradingAdvisor.ProseReading | src/llm/trading_advisor.py:208-236 | a string reply is read as prose with itself as the reason, or "No reasoning provided." when empty |
| TradingAdvisor.Normalized | src/llm/trading_advisor.py:141-236 | every normalised reading has a confidence in [0, 100]; a reply of none of the three dict shapes is read as prose |
| TradingAdvisor.ParseLlmResponse | src/llm/trading_advisor.py:129-240 | the result always has a confidence in [0, 100]; it is the normalised reading, or the safe fallback whenever reading raised |
| TradingAdvisor.TradingRecommendation | src/llm/trading_advisor.py:28-44 | with no endpoint or a failed request, the safe fallback; otherwise the parsed reply, whose confidence is in [0, 100] |
| TradingAdvisor.RecordFieldsRead | src/llm/trading_advisor.py:159-164 | each key of a normalised recommendation reads back its field, and it has no `decisions` or `choices` key |
| TradingAdvisor.ActionNameRead | src/llm/trading_advisor.py:155-161 | an action's own name reads back as that action |
| TradingAdvisor.FlatRoundTrip | src/llm/trading_advisor.py:195-206 | a normalised recommendation read again as a flat reply gives itself back |
| TradingAdvisor.CanonicalRoundTrip | src/llm/trading_advisor.py:129-240 | parsing a canonical recommendation (truthy symbol and reason, confidence in [0, 100]) gives it back |
| TradingAdvisor.ParsedIsCanonical | src/llm/trading_advisor.py:129-240 | with a non-empty context symbol, every parsed recommendation is canonical |
| TradingAdvisor.ParseIdempotent | src/llm/trading_advisor.py:129-240 | with a non-empty context symbol normalising is idempotent: a parsed recommendation sent back as a reply is read as itself |
| TradingAdvisor.HighIsNotANumber | src/llm/trading_advisor.py:156 | "high" is not a number `float` reads |
| TradingAdvisor.UnreadableConfidenceFallsBack | src/llm/trading_advisor.py:156-240 | a decision whose confidence `float` cannot read makes the whole reply fall back to the safe HOLD |
| PriceFetcher.Values | src/data_sources/price_fetcher.py:83 | the quotes of a per-source dictionary in insertion order |
| PriceFetcher.WithinDeviation | src/data_sources/price_fetcher.py:87-93 | a quote is kept exactly when it is one of the given quotes and its relative deviation from the mean is at most `max_deviation`; at most as many quotes as given are kept |
| PriceFetcher.WithinDeviationCounts | src/data_sources/price_fetcher.py:87-93 | each in-band quote is kept as many times as it was quoted and no out-of-band quote is kept, so the mean weighs repeated quotes as the source's list does |
| PriceFetcher.Consensus | src/data_sources/price_fetcher.py:76-99 | no quote omits the symbol; a single quote is used as it is; two or more raise ZeroDivisionError exactly when their mean is 0 |
| PriceFetcher.VerifyPrices | src/data_sources/price_fetcher.py:61-101 | the loop over the symbols computes exactly the consensus of each symbol's quotes, stored under the symbol when there is one |
| PriceFetcher.PrefixError | src/data_sources/price_fetcher.py:75-101 | an exception raised on some symbol is the outcome of the whole call |
| PriceFetcher.SymbolConsensus | src/data_sources/price_fetcher.py:76-99 | the deviation-filter loop for one symbol computes exactly its consensus |
| PriceFetcher.VerifiedKeysSubset | src/data_sources/price_fetcher.py:73-101 | every verified symbol was among the inputs |
| PriceFetcher.TwoSources | src/data_sources/price_fetcher.py:83-96 | with exactly two quotes the result is their mean or nothing, since both lie equally far from the mean |
| PriceFetcher.ConsensusExample | src/data_sources/price_fetcher.py:62 | with the default 5% deviation, quotes 45000 and 45100 give 45050 |
| PriceFetcher.ConsensusWithinBand | src/data_sources/price_fetcher.py:84-96 | for a positive mean, the consensus of two or more quotes lies within `max_deviation` of that mean |
| PriceFetcher.MeanOfValidWithinBand | src/data_sources/price_fetcher.py:87-96 | the mean of the quotes that pass the filter is within the band |
| PriceFetcher.CollectSound | src/data_sources/price_fetcher.py:46-53 | exactly the sources that answered with a non-zero price appear, each with the price it gave |
| PriceFetcher.CollectComplete | src/data_sources/price_fetcher.py:46-50 | a fetch round keeps every source that answered with a non-zero price, with that price |
| PriceFetcher.RoundRequests | src/data_sources/price_fetcher.py:46-48 | a fetch round asks every source about this symbol and nothing else |
| PriceFetcher.FetchSymbol | src/data_sources/price_fetcher.py:43-53 | the inner loop collects the round's quotes and makes exactly the round's requests |
| PriceFetcher.PriceFetcher.constructor | src/data_sources/price_fetcher.py:21-23 | a new fetcher has empty caches and a five-minute duration |
| PriceFetcher.PriceFetcher.UpdateCache | src/data_sources/price_fetcher.py:167-170 | only this symbol's quotes and time are written; it is then valid for the next `cache_duration`, and every other symbol's validity is unchanged |
| PriceFetcher.PriceFetcher.GetPrices | src/data_sources/price_fetcher.py:25-59 | each symbol is served its valid cached quotes without any request, or else a fresh round. Every request is for a listed symbol whose cache was stale, and every such symbol asks every source. A symbol ends up cached exactly when it got quotes. A valid entry, and a stale one whose round found nothing, keep their quotes and fetch time; a round with quotes is stored and stamped `now`. Symbols not listed keep their cache entries |
| PriceFetcher.PriceFetcher.ServeSymbol | src/data_sources/price_fetcher.py:38-57 | one iteration serves the symbol and touches no other symbol's result or cache entry. It makes no request for a valid cache entry and exactly one round otherwise. It leaves the entry and its fetch time as they were unless the round found quotes, which are stored and stamped `now` |
| PriceFetcher.FramePreservesServed | src/data_sources/price_fetcher.py:37-57 | what was served for a symbol stays served while its result and cache entry are unchanged |
| SentimentAnalyzer.LowerField | src/data_sources/sentiment_analyzer.py:149-150 | a missing field reads as empty text; a text field is lower-cased with its length kept; any other value raises AttributeError |
| SentimentAnalyzer.ArticleText | src/data_sources/sentiment_analyzer.py:149-151 | an article that is not an object, or whose title or description is not text, raises AttributeError; otherwise the scored text is lower-case |
| SentimentAnalyzer.Hits | src/data_sources/sentiment_analyzer.py:153-154 | the hit count is at most the number of keywords |
| SentimentAnalyzer.NoHits | src/data_sources/sentiment_analyzer.py:153-154 | no hits exactly when no keyword occurs in the text |
| SentimentAnalyzer.Classify | src/data_sources/sentiment_analyzer.py:156-164 | +1 exactly when positive hits win, -1 exactly when negative hits win, 0 exactly on a tie |
| SentimentAnalyzer.ClassifyAntisymmetric | src/data_sources/sentiment_analyzer.py:156-164 | swapping the two hit counts flips the score |
| SentimentAnalyzer.ArticleScore | src/data_sources/sentiment_analyzer.py:149-164 | an article's score is in [-1, 1], and it raises exactly when its text cannot be read |
| SentimentAnalyzer.NestedKeywordsCountTwice | src/data_sources/sentiment_analyzer.py:133-134 | "bullish" contains both "bull" and "bullish", so it hits twice |
| SentimentAnalyzer.ArticleScoresAt | src/data_sources/sentiment_analyzer.py:148-164 | the i-th outcome is the i-th article's score |
| SentimentAnalyzer.Scores | src/data_sources/sentiment_analyzer.py:148-164 | the scores exist exactly when every article is readable; then there is one score in [-1, 1] per article; otherwise AttributeError |
| SentimentAnalyzer.CountExtend | src/data_sources/sentiment_analyzer.py:156-164 | one more score adds one to its own counter only, and its value to the sum |
| SentimentAnalyzer.CountsPartition | src/data_sources/sentiment_analyzer.py:148-166 | every score is counted once: the three counters add up to the number of scores, and the sum is positives minus negatives |
| SentimentAnalyzer.SummaryFacts | src/data_sources/sentiment_analyzer.py:122-174 | the record built from n scores is consistent: counters add up to n, the score is their mean in [-1, 1] and positive exactly when positives outnumber negatives, confidence is min(n/20, 1) |
| SentimentAnalyzer.NonEmptySummaryFacts | src/data_sources/sentiment_analyzer.py:166-174 | the same for a non-empty list |
| SentimentAnalyzer.CountedRecordFacts | src/data_sources/sentiment_analyzer.py:166-174 | the same in terms of the three counters alone |
| SentimentAnalyzer.AnalysisFacts | src/data_sources/sentiment_analyzer.py:120-175 | every successful analysis of a list of articles is consistent with that many articles |
| SentimentAnalyzer.ManyArticlesFullConfidence | src/data_sources/sentiment_analyzer.py:174 | twenty readable articles or more give confidence 1 |
| SentimentAnalyzer.AnalysisStops | src/data_sources/sentiment_analyzer.py:148-151 | an unreadable article after readable ones ends the analysis with its exception |
| SentimentAnalyzer.AnalysisCompletes | src/data_sources/sentiment_analyzer.py:148-175 | when every article is readable, the analysis summarises their scores, one per article |
| SentimentAnalyzer.AnalyzeNewsSentiment | src/data_sources/sentiment_analyzer.py:120-175 | the counting loop computes exactly the analysis: the all-zero record for no articles, the summary of the scores, or the first unreadable article's exception |
| SentimentAnalyzer.NewsForBounds | src/data_sources/sentiment_analyzer.py:63-107 | whatever the endpoint answers, the news record's counters add up, its score is in [-1, 1] and its confidence in [0, 1] |
| SentimentAnalyzer.FetchNewsSentiment | src/data_sources/sentiment_analyzer.py:63-107 | without a key, after a failed request, or with no readable `articles`, the placeholder; otherwise the analysis of the articles |
| SentimentAnalyzer.Interpret | src/data_sources/sentiment_analyzer.py:201-212 | each of the five labels is given exactly on its band, with strict lower bounds 0.3, 0.1, -0.1 and -0.3 |
| SentimentAnalyzer.InterpretMonotone | src/data_sources/sentiment_analyzer.py:201-212 | a higher score never gets a more bearish label |
| SentimentAnalyzer.InterpretExamples | src/data_sources/sentiment_analyzer.py:201-212 | 0.4, 0.2, 0, -0.2 and -0.4 fall in the five bands in order |
| SentimentAnalyzer.Combine | src/data_sources/sentiment_analyzer.py:177-199 | the overall score times the total confidence is the confidence-weighted sum of the two scores, or 0 when the total is not positive; the combined confidence is half the total; the label is that of the overall score |
| SentimentAnalyzer.WeightedScore | src/data_sources/sentiment_analyzer.py:186-190 | with positive total weight, the result times that weight is the weighted sum; otherwise 0 |
| SentimentAnalyzer.CombineBetween | src/data_sources/sentiment_analyzer.py:186-190 | with non-negative confidences that do not both vanish, the overall score lies between the two scores |
| SentimentAnalyzer.PlaceholderDampens | src/data_sources/sentiment_analyzer.py:109-118 | against the neutral social placeholder, news keeps its sign and keeps at most two thirds of its score |
| SentimentAnalyzer.NeutralSentiment | src/data_sources/sentiment_analyzer.py:225-234 | the neutral record's label is that of its zero score |
| SentimentAnalyzer.NeutralIsEmptyCombination | src/data_sources/sentiment_analyzer.py:225-234 | the neutral record is what combining two empty readings gives |
| SentimentAnalyzer.NoNewsIsNeutral | src/data_sources/sentiment_analyzer.py:65-67 | without a news key a fresh lookup scores 0, is labelled Neutral and has confidence one quarter |
| SentimentAnalyzer.SentimentAnalyzer.constructor | src/data_sources/sentiment_analyzer.py:18-22 | the key is the given one, or the environment's when the given one is missing or empty; the caches start empty with a 30-minute duration |
| SentimentAnalyzer.SentimentAnalyzer.UpdateCache | src/data_sources/sentiment_analyzer.py:246-249 | only this symbol's record and time are written; it is then valid for the next `cache_duration`, and every other symbol's validity is unchanged |
| SentimentAnalyzer.SentimentAnalyzer.GetSentimentData | src/data_sources/sentiment_analyzer.py:24-61 | every listed symbol gets its valid cached record without a fetch, or else a fresh combined record, and exactly the stale symbols are fetched. Every listed symbol ends up cached with the record returned. A valid entry keeps its record and fetch time; a fetched record is stamped `now`. Other symbols are untouched |
| SentimentAnalyzer.SentimentAnalyzer.LookUp | src/data_sources/sentiment_analyzer.py:37-53 | one iteration serves this symbol only, and fetches exactly when its cache entry was stale. A valid entry keeps its record and fetch time; a fetched record is cached and stamped `now` |
| SentimentAnalyzer.FramePreservesLookedUp | src/data_sources/sentiment_analyzer.py:36-59 | what was served for a symbol stays served while its result and cache entry are unchanged |
| CoinbaseManager.NumberAt | src/portfolio/coinbase_manager.py:102-104 | a missing key raises KeyError; a value read is the account field read as a float |
| CoinbaseManager.ParseAccount | src/portfolio/coinbase_manager.py:99-105 | an account that is not an object is a TypeError and one without `currency` a KeyError; an unreadable balance raises its own error; a parsed account is an object whose `currency` is the entry's currency and whose three numbers read as the entry's balance |
| CoinbaseManager.AccountEntries | src/portfolio/coinbase_manager.py:99-105 | one parse result per account, in order |
| CoinbaseManager.AssignKeys | src/portfolio/coinbase_manager.py:97-105 | the balances hold exactly the currencies of the accounts |
| CoinbaseManager.AssignLastWins | src/portfolio/coinbase_manager.py:97-105 | the balances keep one entry per currency, and a later account for a currency overwrites an earlier one |
| CoinbaseManager.Balances | src/portfolio/coinbase_manager.py:96-105 | the accounts give balances exactly when every account is well formed |
| CoinbaseManager.AccountList | src/portfolio/coinbase_manager.py:96-99 | a list body gives its items; an empty object or string gives nothing to iterate; anything else raises |
| CoinbaseManager.ParseAccounts | src/portfolio/coinbase_manager.py:97-105 | the accounts loop builds exactly the balances above, or stops with the first malformed account's exception |
| CoinbaseManager.PriceOf | src/portfolio/coinbase_manager.py:178 | a currency without a price is priced at 0; otherwise its listed price |
| CoinbaseManager.PositionKeys | src/portfolio/coinbase_manager.py:183-188 | the positions are exactly the non-dollar currencies held in a positive quantity |
| CoinbaseManager.WithPercentages | src/portfolio/coinbase_manager.py:191-193 | every position keeps its currency, quantity and value, and gets its value over the total times 100 as its percentage |
| CoinbaseManager.Valuate | src/portfolio/coinbase_manager.py:154-200 | the valuation lists the same currencies, in the same order, as the positions |
| CoinbaseManager.CalculatePortfolioValue | src/portfolio/coinbase_manager.py:154-200 | the two loops (totals and positions, then percentages) compute exactly the valuation |
| CoinbaseManager.NoDollars | src/portfolio/coinbase_manager.py:171-181 | without a dollar account the dollar balance is 0 and the total is the crypto value |
| CoinbaseManager.TotalIsDollarsPlusCrypto | src/portfolio/coinbase_manager.py:171-181 | for balances with one entry per currency, the total is the dollar balance plus the crypto value |
| CoinbaseManager.PositionOf | src/portfolio/coinbase_manager.py:183-188 | a held non-dollar currency's position records its quantity and its value at its price (0 when unpriced) |
| CoinbaseManager.PercentageOf | src/portfolio/coinbase_manager.py:190-193 | with a positive total each percentage is value over total times 100; otherwise every percentage stays 0 |
| CoinbaseManager.PositionsUnpriced | src/portfolio/coinbase_manager.py:184-188 | positions are first stored with a zero percentage |
| CoinbaseManager.DemoTotals | src/portfolio/coinbase_manager.py:273-279 | the demonstration balances at BTC 45000 and ETH 3000 are worth 19000 in total, 9000 in crypto and 10000 in dollars |
| CoinbaseManager.DemoPositions | src/portfolio/coinbase_manager.py:273-279 | their positions are BTC then ETH, 4500 each |
| CoinbaseManager.DemoValuation | src/portfolio/coinbase_manager.py:316-318 | the module's demonstration valuation: total 19000, each position 4500/19000 of it |
| CoinbaseManager.PositionValue | src/portfolio/coinbase_manager.py:118-152 | a currency not held gives the zero record without a price; a held one reports its account's quantities, its price (0 when unlisted) and quantity times price |
| CoinbaseManager.PositionValueAgrees | src/portfolio/coinbase_manager.py:139-144 | the value reported for a held crypto currency is its position's value in the valuation |
| CoinbaseManager.Truncate | src/portfolio/coinbase_manager.py:285 | `int()` truncates toward zero |
| CoinbaseManager.MockOrderResponse | src/portfolio/coinbase_manager.py:281-296 | the response is an object; it has an `id` exactly when the order succeeded, and that id is truthy; a success echoes the product, side and size, with status `pending` and type `market`; a failure says `success = False` |
| CoinbaseManager.Fetched | src/portfolio/coinbase_manager.py:81-112 | balances are fetched only with credentials, a reply, status 200 and a decoded body, and they hold one entry per currency |
| CoinbaseManager.CoinbasePortfolioManager.constructor | src/portfolio/coinbase_manager.py:34-37 | a new manager has an empty cache stamped at time 0 and a 60-second duration |
| CoinbaseManager.CoinbasePortfolioManager.UpdateCache | src/portfolio/coinbase_manager.py:302-305 | both cache fields are set, and the cache is then valid exactly when the duration is positive |
| CoinbaseManager.CoinbasePortfolioManager.GetPortfolioBalance | src/portfolio/coinbase_manager.py:69-116 | a fresh cache is served with nothing changed; fetched balances are cached and returned; in every fallback case the demonstration balances are returned and the cache is left alone |
| TradingSystem.IsActionable | src/trading_system.py:210-227 | a report is actionable exactly when the sized position is worth at least the minimum trade, the advisor is at least 60% confident and the loss at the stop is within the per-trade budget; failing any one gate rules it out |
| TradingSystem.FallbackNeverActionable | src/trading_system.py:217-220 | the advisor's safe fallback (confidence 0) is never actionable |
| TradingSystem.ZeroSizingNeverActionable | src/trading_system.py:212-215 | with a positive minimum trade, a zero-sized position is never actionable |
| TradingSystem.ActionableMonotoneInConfidence | src/trading_system.py:217-220 | raising the advisor's confidence keeps an actionable report actionable |
| TradingSystem.GenerateRecommendation | src/trading_system.py:133-208 | a report is built exactly when sizing with the stop 5% under the price and the buy-side levels both succeed; it then carries that price, position, sizing, levels and advice, and is actionable exactly as the gates say; otherwise it records the error |
| TradingSystem.PricedSymbolReported | src/trading_system.py:139-159 | a positive price and a non-zero portfolio value always give a full report whose stop is under and whose target is over the price |
| TradingSystem.Placing | src/trading_system.py:269-279 | an order is placed and its answer recorded when the exchange answers with an object; any other answer is an AttributeError |
| TradingSystem.ExecuteRecommendation | src/trading_system.py:229-318 | an error report has no advice and fails with KeyError; a report that is not actionable is skipped; HOLD succeeds without an order; an order is placed only for an actionable report, on the symbol's USD pair, buying the sized position or selling the smaller of the holding and the sized position; a sell with nothing held is skipped exactly then |
| TradingSystem.SellWithinHolding | src/trading_system.py:281-302 | a sell order asks for something held, and for no more than is held nor more than the sized position |
| TradingSystem.FallbackNeverTrades | src/trading_system.py:217-244 | when no advisor endpoint is configured, the report built from its fallback never leads to an order |
| TradingSystem.ExecuteAsWritten | src/trading_system.py:229-318 | the execution as written always reports the report's own symbol |
| TradingSystem.AsWrittenAlwaysErrors | src/trading_system.py:240-242 | as written, every report ends in KeyError, because the advice has no `recommendation` key |
| TradingSystem.CorrectedBuyReachesExchange | src/trading_system.py:265-279 | an actionable BUY reaches the exchange when the action is read from `action`, while the code as written errors on it |
| TradingSystem.PricedIff | src/trading_system.py:95-98 | a symbol is priced exactly when it is asked for and has a verified price |
| TradingSystem.RecommendationsFor | src/trading_system.py:93-104 | the reports are keyed by exactly the asked symbols that have a verified price, once each, each built from that symbol's price |
| TradingSystem.AnalysisCycle | src/trading_system.py:58-131 | a failed price fetch ends the cycle with its error; no verified price ends it with "No price data available"; a completed cycle carries the verified prices |
| TradingSystem.CycleReportsPricedSymbols | src/trading_system.py:68-104 | with verified prices, the cycle completes with reports for exactly the asked symbols (all supported ones when none are asked) that have a price, each from that price |
| TradingSystem.RunAnalysisCycle | src/trading_system.py:58-131 | the loop over the symbols builds the cycle `AnalysisCycle` defines |

## Left out

- PriceFetcher.PriceFetcher.GetPrices, SentimentAnalyzer.SentimentAnalyzer.GetSentimentData, CoinbaseManager.CoinbasePortfolioManager.GetPortfolioBalance: one `now` serves every validity check and cache stamp within a call. The source reads `time.time()` afresh in each `_is_cache_valid` and `_update_cache` (src/data_sources/price_fetcher.py:165, 170; src/data_sources/sentiment_analyzer.py:244, 249; src/portfolio/coinbase_manager.py:300, 305), between network requests that may each take seconds. For the portfolio this means the source stamps its cache after the accounts request returns, so its entry can outlive the model's by up to the request's 10-second time-out. The promise that every listed symbol is cached and valid at `now` after the call therefore holds for a clock that does not move during the call; a real entry can expire while later symbols are still being fetched.
- Network I/O is not modelled. Every `requests`/`aiohttp` call is an oracle parameter. This covers the price sources `_fetch_coingecko` and `_fetch_coinbase`, the Binance and Coinbase spot requests of the price guard, the news and LunarCrush requests, the accounts request and the LLM request. The payload and prompt building in `_query_llm` is not modelled either.
- `run_continuous_trading` (src/trading_system.py:320-379) is left out. It is a scheduling loop with `asyncio.sleep` and a `running` flag.
- The HMAC request signing is left out, because it calls foreign cryptographic and base64 routines. This is `_generate_signature` and `_get_headers` (src/portfolio/coinbase_manager.py:39-67).
- `place_market_order` and `get_order_status` are thin wrappers around HTTP requests. Order placement is the `place` parameter of `TradingSystem.ExecuteRecommendation`.
- Logging, the configuration file, `main.py`, `demo.py` and `validate_setup.py` are not modelled. Configuration values are parameters.
- Python's `float()` is modelled only for optional signs, digits and one decimal point. Exponents, `inf`, `nan` and underscores are not parsed. A token written that way counts as unreadable.
- Floats are exact reals. Rounding and IEEE special values are not modelled, so the NaN/inf rejection in data_feeds/multi_source_price_guard.py:52 has no counterpart.
- `json.dumps` is a parameter of `TradingAdvisor.ParseLlmResponse`. Its text is not modelled.
- Number formatting is not modelled. This covers `str(size)`, f-strings holding floats and the recommendation message texts.
- Case mapping covers ASCII letters only, and whitespace covers the ASCII characters Python treats as whitespace. Non-ASCII whitespace such as U+00A0 or U+2028 is treated as an ordinary character.
- TradingSystem.AnalysisCycle: the sentiment, portfolio and risk-assessment steps of `run_analysis_cycle` are not modelled inside the cycle. Each is modelled by its own module, and the per-symbol report is the `generate` parameter. A completed cycle carries only the verified prices and the reports. An exception raised after the prices were verified is not distinguished from a price failure.
- `TradingSystem.__init__` is not modelled. As written it passes `max_drawdown` as `max_position_size` (src/trading_system.py:37). It also passes `api_key=`, which `LLMTradingAdvisor.__init__` does not accept (src/trading_system.py:43-46), so construction raises TypeError. The model takes a `RiskConfig` and an advisor reply as parameters instead.
- SentimentAnalyzer.SentimentAnalyzer.GetSentimentData: the `except` branch of `get_sentiment_data` (src/data_sources/sentiment_analyzer.py:57-59) is not modelled, because nothing in the `try` can raise. `_fetch_news_sentiment` catches every failure, and the other steps are total.
- The `__main__` demonstrations and the context builder are not modelled. Where a demonstration fixes concrete values, an example lemma states them.
- ParseAccount: an account whose currency is null, a number or a boolean is a TypeError in the model, so the manager serves the mock portfolio. Python keys the balance by that value. Balances here are keyed by text, so such a key cannot be held.
- ParseIdempotent: with an empty context symbol, normalising is not promised to be idempotent. A decision whose symbol is `null` yields the symbol `null`, and reading that back gives the empty string.
- SentimentStore.GetSentiment: a write that fails is modelled as failing before the file is opened, so the file stays as it was. A write that fails after `open(..., "w")` has truncated the file is not modelled.
- `_rel_tol` reads `PRICE_GUARD_TOLERANCE` from the environment. That read is an `Option<string>` parameter of `PriceGuard.RelTol`.

## Findings

| source | as written | input that shows it | evidently intended | confidence | as-written member | corrected member |
|---|---|---|---|---|---|---|
| src/trading_system.py:242 | `execute_recommendation` reads the advisor's answer under the key `recommendation`. The advisor returns its decision under `action` (src/llm/trading_advisor.py:159-164), so every execution ends in the `except` branch with a KeyError. | any report, for example an actionable BUY with confidence 80 | read `llm_rec['action']`, so that actionable BUY and SELL reports reach the exchange | not executed | TradingSystem.AsWrittenAlwaysErrors | TradingSystem.CorrectedBuyReachesExchange |
