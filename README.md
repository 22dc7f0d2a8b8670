# Stock portfolio recommender — a Dafny model

The recommender takes an ordered list of stock tickers, a funding amount and
a risk profile. It fetches about a year of prices for each ticker, one ticker
at a time. From each series it derives a volatility, turns the vector of
volatilities into percentage allocations, and returns one recommendation row
per ticker.

The repository ships four variants of this pipeline, and the model covers all
four.

- **`app.js`** fetches weekly bars from Polygon.
  - Its retry policy switches to a CORS proxy on a 403.
  - A rate limit (429) or a network failure is retried up to three times, with the delay doubling from 1 s.
  - The call pauses 1.5 s between tickers.
  - Volatility is the population standard deviation of the weekly returns.
- **`client.js`** adds a five-question risk questionnaire.
  - The questionnaire stores the resulting profile in page state.
  - The recommendation call reads the profile back from that state.
  - Quotes come from a single global-quote request per ticker.
  - Volatility is `(high - low) / price`.
- **`app_v2.0.js`** reads Yahoo chart data.
  - It drops null closes and refuses a ticker with fewer than two prices.
  - It keeps the per-ticker records in a dictionary keyed by ticker.
  - A second loop builds the rows.
- **`index_based.js`** runs the `app_v2.0.js` pipeline over the five hard-coded constituents of a named index.

All four share one allocation rule:
- conservative weights are `1/v`;
- moderate weights are `1/sqrt(v)`;
- aggressive weights are `v / mean(v)`.

The weights are then normalised to percentages summing to 100. Each amount is `funding * percentage / 100`.

## Modules

- **`Wrappers`** and **`Text`**:
  - option and result types;
  - digits;
  - the `join` of a list of strings.
- **`RealMath`**:
  - sums;
  - percentages;
  - maximum and minimum;
  - the square-root contract `IsSqrt` that every use of `Math.sqrt` is given.
- **`Volatility`**:
  - returns, mean, population variance and the standard deviation of a price series;
  - the imperative return loop of `app_v2.0.js`;
  - the quote-range proxy of `client.js`.
- **`Allocation`**:
  - risk profiles;
  - `calculateRiskAdjustedAllocation`;
  - the two ways the source reacts to an unrecognised profile.
- **`Events`**: the observable trace of a call. It records the loading text shown per ticker, the 1.5 s pauses, the requests (direct or through the proxy) and the retry waits.
- **`PolygonFetch`**: `fetchStockData` and `fetchWithRetry` of `app.js`.
- **`PacedLoop`**: the sequential, paced per-ticker loop that `app.js` and `client.js` share.
  - The method `RunLoop` is proved against the function `Gather`.
- **`AppRecommend`**: `generateRecommendations` of `app.js`.
- **`Client`**:
  - the questionnaire, the quote fetch and the recommendation call of `client.js`;
  - the class `Page` holds the stored risk profile, which the questionnaire updates in place.
- **`ChartRecommend`**: `generateRecommendations` of `app_v2.0.js`.
  - Two imperative loops are each proved against a function: the collection of per-ticker records into a map, and the assembly of rows.
- **`IndexBased`**: the index lookup and `generateRecommendations` of `index_based.js`.

Network responses are parameters: a function from the attempt (or ticker position) to the outcome of that request.
- In `app.js` this is `respond: (nat, nat) -> Outcome`, taking the ticker position and the attempt.
- In `client.js` it is `quotes: nat -> QuoteOutcome`.
- In `app_v2.0.js` it is `charts: nat -> ChartOutcome`.

`Math.sqrt` is a parameter `sqrt`, constrained by `IsSqrt` wherever a property depends on it.

### Input the code does not reject

The code validates less than a reader might expect. Three cases stand out.

- **Non-positive volatilities are not rejected up front.** A zero volatility, or a zero total weight, divides by zero.
  - The model reports the resulting non-finite value as the error `NonFinite`.
  - A negative volatility passes through as the formula dictates.
- **An unrecognised profile is not rejected at the boundary.**
  - In `app.js` and `client.js`, `weights` stays undefined, so the call throws (`UndefinedWeights`).
  - In `app_v2.0.js` and `index_based.js`, `weights` starts as `[]`, so the allocation is empty. The row loop then throws at `allocation.toFixed` (`MissingAllocation`) as soon as there is a ticker. With no ticker, the call returns no rows.
- **The current risk profile is page state, not a parameter.**
  - `client.js` stores it in a global (`Client.Page.currentRiskProfile`).
  - `Client.Page.GenerateRecommendations` reads it from there.

## Model

| member | source | states |
|---|---|---|
| Allocation.ParseProfile | app.js:173-183 | only the three profile names `conservative`, `moderate` and `aggressive` select a branch of the switch |
| Allocation.ParseProfileName | app.js:173-183 | a string selects a profile exactly when it is that profile's name |
| Allocation.Allocate | app.js:169-187 | the allocation has one percentage per volatility; its only failure is a non-finite value |
| Allocation.AllocateOrThrow | app.js:169-187 | an unrecognised profile leaves `weights` undefined and the call throws; a recognised one allocates |
| Allocation.AllocateOrEmpty | app_v2.0.js:36-61 | an unrecognised profile leaves `weights` as `[]`, so the allocation is empty; a recognised one allocates |
| Allocation.SumAmounts | app.js:223-227 | the amounts `funding * p / 100` sum to `funding` times the sum of the percentages over 100 |
| Allocation.AllocationSumsTo100 | app.js:185-186 | a successful allocation over at least one volatility has one percentage per input, and the percentages sum to 100 |
| Allocation.AllocationSpendsFunding | app.js:223-227 | the amounts of a successful allocation spend exactly the funding |
| Allocation.PositiveVolatilitiesAllocate | app.js:169-187 | for every profile, strictly positive volatilities always allocate |
| Allocation.AverageVolatilityPositive | app.js:171 | the mean of positive volatilities is positive |
| Allocation.ShareAt | app.js:173-186 | helper for the proportionality lemmas: each percentage is its weight over the total weight, times 100; the conservative weight is `1/v` and the moderate weight is `1/sqrt(v)` |
| Allocation.ConservativeShareAt | app.js:174-176 | a conservative percentage times its volatility is the same constant `100 / total weight` for every ticker |
| Allocation.ModerateShareAt | app.js:177-179 | a moderate percentage times the square root of its volatility is the same constant for every ticker |
| Allocation.ConservativeInverseProportional | app.js:174-176 | conservative percentages are inversely proportional to volatility |
| Allocation.ModerateInverseSqrtProportional | app.js:177-179 | moderate percentages are inversely proportional to the square root of volatility |
| Allocation.AggressiveTotalWeight | app.js:180-185 | the aggressive weights `v / mean` sum to the number of tickers |
| Allocation.AggressiveProportional | app.js:180-186 | an aggressive percentage is the ticker's share of the total volatility, times 100 |
| Allocation.InverseProfilesFavourLowVolatility | app.js:174-179 | under the conservative and moderate profiles, with positive volatilities, a less volatile stock gets a strictly larger percentage |
| Allocation.AggressiveFavoursHighVolatility | app.js:180-182 | under the aggressive profile, with a positive total, a more volatile stock gets a strictly larger percentage |
| Allocation.ModerateWorkedExample | app.js:177-186 | moderate volatilities 0.05 and 0.20 are allocated 200/3 and 100/3 percent |
| RealMath.Max | app.js:211 | `Math.max(...prices)` is one of the prices and bounds all of them from above |
| RealMath.Min | app.js:212 | `Math.min(...prices)` is one of the prices and bounds all of them from below |
| RealMath.SqrtPositive | app.js:178 | under the square-root contract, the root is positive exactly when its argument is |
| RealMath.SqrtStrictlyIncreasing | app.js:178 | the square root is strictly increasing on non-negative reals |
| Volatility.CompoundReturns | app.js:162 | the returns determine the series: compounding them from the first price gives the prices back |
| Volatility.VarianceNonNegative | app.js:164 | the population variance is non-negative |
| Volatility.VarianceZeroIff | app.js:164 | the variance is zero exactly when all returns are equal |
| Volatility.VolatilityNonNegative | app.js:161-166 | at least two prices always yield a volatility, and it is non-negative |
| Volatility.VolatilityZeroIff | app.js:161-166 | the volatility is zero exactly when every weekly return is the same |
| Volatility.ConstantSeriesVolatility | app.js:161-166 | a constant price series has volatility zero |
| Volatility.WorkedExample | app.js:161-166 | prices 100, 110, 99 have returns 0.1 and -0.1, variance 0.01, and volatility the square root of 0.01 |
| Volatility.WorkedExampleRoot | app.js:165 | under a true square root, the worked example's volatility `sqrt(0.01)` is 0.1 |
| Volatility.CalculateVolatility | app_v2.0.js:22-33 | the loop that pushes the returns, followed by mean and variance, computes the series' standard deviation (none when there are fewer than two prices) |
| Volatility.QuoteVolatility | client.js:121-123 | the quote volatility times the price is the day's range; it is non-negative iff high is at least low, and zero iff they are equal |
| PolygonFetch.Normalise | app.js:136-139 | the series has one price and one timestamp per bar, in bar order, taken from `c` and `t` |
| PolygonFetch.ForbiddenSwitchesToProxy | app.js:121-124 | a direct 403 is followed by the same request through the proxy, with the same retry budget and delay |
| PolygonFetch.ForbiddenViaProxyIsFinal | app.js:121-128 | a 403 through the proxy is final: a single request and an HTTP 403 error |
| PolygonFetch.NonRetryableIsFinal | app.js:120-139 | any status other than 403 and 429 settles the fetch at once; missing results or a count of 0 give the no-data error; a non-ok status gives the HTTP error |
| PolygonFetch.PersistentFailure | app.js:141-147 | when every attempt is retryable, the fetch makes `retries + 1` requests separated by doubling waits and settles with the last outcome |
| PolygonFetch.RateLimitedThroughout | app.js:117-150 | with the default budget of 3 and 1000 ms, a persistent rate limit gives four requests with waits of 1000, 2000 and 4000 ms, then the rate-limit error |
| PolygonFetch.BackoffDoubles | app.js:141-147 | there are at most `retries` waits, and the i-th wait is the initial delay times 2^i |
| PolygonFetch.AttemptBound | app.js:117-150 | one more request than waits, plus at most one proxy switch; at most `retries + 2` requests in total |
| PolygonFetch.LastRequestSettles | app.js:117-150 | the result is decided by the outcome of the last request made |
| PolygonFetch.SuccessComesFromResults | app.js:130-139 | a successful fetch comes from an ok response whose `results` is present and whose `resultsCount` is not 0, normalised (an empty `results` array passes that test) |
| PolygonFetch.FetchIsUnpaced | app.js:117-150 | the fetch shows no loading text and takes no inter-ticker pause of its own |
| PacedLoop.RunLoop | app.js:198-216 | the paced loop over the tickers produces exactly the trace, records and failure of the specification `Gather` |
| PacedLoop.FailureIsFinal | app.js:199-216 | once a fetch throws, later positions change nothing |
| PacedLoop.GatherRecords | app.js:205-215 | the i-th record comes from the successful fetch of the i-th ticker |
| PacedLoop.GatherCount | app.js:199-216 | without a failure there is one record per ticker visited |
| PacedLoop.GatherSucceeds | app.js:199-216 | the loop finishes without a failure exactly when every fetch so far succeeded |
| PacedLoop.GatherStopsAt | app.js:199-216 | the first failing fetch decides the error, and the records before it are kept |
| PacedLoop.GatherFailsWith | app.js:199-216 | the loop fails with message m exactly when some fetch fails with m after all earlier fetches succeeded |
| PacedLoop.PacedScheduleShape | app.js:200-204 | for each ticker, loading text is shown, with a 1.5 s pause before every ticker after the first |
| PacedLoop.GatherPacing | app.js:199-216 | with fetches that do not pace themselves, the loop's trace follows the paced schedule of the tickers it started |
| PacedLoop.GatherPacingUpTo | app.js:199-216 | the loop shows the loading text of exactly the tickers up to and including the first failing one |
| AppRecommend.Rows | app.js:223-227 | one row per record, each spreading that record with its percentage and amount |
| AppRecommend.RowsDescribe | app.js:206-215 | every row describes its ticker's series: the last price, the maximum, the minimum and the volatility of that series |
| AppRecommend.RowsColumns | app.js:219-227 | helper for `FinishRows`: the rows' volatilities are the records' volatilities; the rows' percentages are the allocation; the amounts are `funding * p / 100` |
| AppRecommend.GatherConsistent | app.js:205-215 | helper for `RecommendRows`: every gathered record is consistent with its own series |
| AppRecommend.GenerateRecommendations | app.js:190-233 | the call's trace and result are those of the specification `Recommend` |
| AppRecommend.FetchedAllLoop | app.js:199-205 | all fetches succeeding is the loop's own success condition |
| AppRecommend.RecommendFetchFailure | app.js:199-216 | the call fails with a fetch error m exactly when some ticker's fetch fails with m after all earlier fetches succeeded |
| AppRecommend.FinishRows | app.js:219-227 | successful rows describe their records; the percentages are the allocation of the row volatilities under the given profile; the amounts spend them |
| AppRecommend.RowDescribes | app.js:206-215 | helper for `RowsDescribe`: a consistent record becomes a row describing its series |
| AppRecommend.RecommendRows | app.js:190-233 | a successful call fetched every ticker, returns one row per ticker in order describing that ticker's series, and allocates the row volatilities under the profile |
| AppRecommend.GatherFetched | app.js:199-216 | a loop without failure holds one record per ticker, carrying that ticker's fetched series |
| AppRecommend.RecommendSpendsFunding | app.js:219-227 | a successful call over at least one ticker allocates 100 percent and spends the whole funding |
| AppRecommend.RecommendUnknownProfile | app.js:170-185 | the call throws for undefined weights exactly when every fetch succeeded and the profile is unrecognised |
| AppRecommend.RecommendShortSeries | app.js:161-166 | a fetched series with fewer than two closes makes a recognised profile's allocation non-finite |
| AppRecommend.FinishSucceeds | app.js:219-227 | positive volatilities under a recognised profile always finish with rows |
| AppRecommend.RecommendSucceeds | app.js:190-233 | every fetch succeeding with a positive volatility, under a recognised profile, is enough for the call to succeed |
| AppRecommend.AppFetcherUnpaced | app.js:107-158 | the fetch of `app.js` adds no loading text or pause of its own |
| AppRecommend.RecommendPacing | app.js:199-205 | the call shows the loading text of every ticker up to and including the first failing one, with a 1.5 s pause after each but the first |
| Client.QuestionDigit | client.js:33 | question i is labelled by the digit `i + 1`, between 1 and 5 |
| Client.UnansweredListsMissing | client.js:37-44 | a question's digit is listed exactly when it is unanswered; the list is in question order |
| Client.ScoreRange | client.js:52 | five answers scored 1 to 4 total between 5 and 20 |
| Client.ClassifyScoreBands | client.js:56-62 | the score is conservative iff it is at most 10, moderate iff it is in 11..15, aggressive iff it is above 15; every result is a recognised profile |
| Client.JoinSingles | client.js:47 | joining one-character strings with ", " puts the k-th character at position 3k |
| Client.AlertListsQuestions | client.js:46-48 | the alert starts "Please answer question", adds `s` iff more than one is missing, and lists the missing digits in order |
| Client.AlertExamples | client.js:47 | one missing question gives "Please answer question 3"; two give "Please answer questions 1, 4" |
| Client.ClassificationBands | client.js:32-62 | a profile is produced iff all five questions are answered, and it is recognised; otherwise the result is the alert |
| Client.Page.CalculateRiskProfile | client.js:32-71 | with a missing answer, the alert is raised and the stored profile is untouched; otherwise there is no alert and the classified profile is stored |
| Client.Page.GenerateRecommendations | client.js:147-188 | the call's trace and result are those of `QuoteRecommend`, under the profile stored on the page |
| Client.FetchQuoteOnce | client.js:94-118 | one direct request per ticker; success iff the status is ok and a global quote is present, and the result is that quote; any error message starts "Failed to fetch data for" and the ticker |
| Client.FetchQuoteErrors | client.js:99-106 | a non-ok status gives the HTTP error; a missing or empty global quote gives the no-data error |
| Client.QuoteVolatilities | client.js:174 | helper (the volatility column): one volatility per record |
| Client.QuoteRows | client.js:178-182 | helper (the row map): one row per record |
| Client.QuotedAllLoop | client.js:156-171 | all quotes succeeding is the paced loop's success condition |
| Client.QuotesGathered | client.js:156-171 | a loop without failure records each ticker's own quote, in order |
| Client.QuoteFinishRows | client.js:173-182 | successful rows carry their records; the percentages are the allocation under the stored profile; the amounts spend them |
| Client.QuoteRecommendRows | client.js:147-188 | a successful call quoted every ticker and returns one row per ticker in order, with that ticker's quote record; the percentages are the allocation of the row volatilities under the stored profile, and the amounts spend them |
| Client.QuoteRecommendUnsetProfile | client.js:174-175 | the call throws for undefined weights exactly when every quote succeeded and no recognised profile is stored |
| Client.StoredProfileRecognised | client.js:56-65 | a profile stored by the questionnaire is always recognised by the allocation |
| Client.QuoteRecommendFetchFailure | client.js:156-171 | the call fails with message m exactly when some quote fails with m after all earlier quotes succeeded |
| Client.QuoteRecommendPacing | client.js:156-161 | the call shows the loading text of every ticker up to and including the first failing one, with a 1.5 s pause after each but the first |
| Client.QuoteRecommendSpendsFunding | client.js:174-182 | a successful call over at least one ticker allocates 100 percent and spends the whole funding |
| ChartRecommend.FilterKeepsPrices | app_v2.0.js:97 | filtering keeps exactly the non-null closes, never lengthens the series, and keeps a null-free series unchanged |
| ChartRecommend.FilterAppend | app_v2.0.js:97 | filtering a concatenation filters each part, so the kept closes stay in order, repeats included |
| ChartRecommend.FilterExample | app_v2.0.js:97 | closes 1, null, 2, 1 filter to 1, 2, 1 |
| ChartRecommend.ChartEntry | app_v2.0.js:96-111 | a ticker's entry fails only when the fetch threw or there are too few prices |
| ChartRecommend.ChartRecordDescribes | app_v2.0.js:96-111 | a kept record's prices are the filtered closes (at least two); the current price is the last; year high and low are attained and bound every price; the volatility is the series' standard deviation and is non-negative |
| ChartRecommend.ChartEntryRefuses | app_v2.0.js:97-100 | the entry is refused with "Insufficient price data for" plus the ticker exactly when fewer than two closes are non-null; all-null closes are refused |
| ChartRecommend.Collect | app_v2.0.js:95-112 | after n tickers, there are n volatilities and every ticker so far is a key of the dictionary |
| ChartRecommend.CollectSucceeds | app_v2.0.js:95-112 | the first loop succeeds exactly when every entry so far succeeded |
| ChartRecommend.CollectVolatilities | app_v2.0.js:101-102 | the j-th pushed volatility is the volatility of the j-th ticker's entry |
| ChartRecommend.CollectFailureIsFinal | app_v2.0.js:95-112 | once an entry throws, later tickers change nothing |
| ChartRecommend.CollectStopsAt | app_v2.0.js:95-112 | the first failing entry decides the error |
| ChartRecommend.CollectFailureCause | app_v2.0.js:95-112 | a failed loop names a position where the entry failed with that error after all earlier ones succeeded |
| ChartRecommend.CollectFailsWith | app_v2.0.js:95-112 | the loop fails with e exactly when some entry fails with e after all earlier entries succeeded |
| ChartRecommend.CollectKeys | app_v2.0.js:104 | the dictionary's keys are exactly the tickers visited |
| ChartRecommend.LastWriteWins | app_v2.0.js:104-111 | a ticker's dictionary entry is the record of its last occurrence |
| ChartRecommend.MeasureChart | app_v2.0.js:96-111 | computes the ticker's entry |
| ChartRecommend.CollectOne | app_v2.0.js:96-111 | one pass of the first loop body advances the collection by one ticker |
| ChartRecommend.CollectCharts | app_v2.0.js:92-112 | the first loop computes the collection of all tickers |
| ChartRecommend.AssembleRows | app_v2.0.js:118-134 | the second loop builds the rows of the assembly, or throws on a missing allocation |
| ChartRecommend.GenerateRecommendations | app_v2.0.js:84-142 | the call returns exactly the specification `Recommend` |
| ChartRecommend.EntryVolatilities | app_v2.0.js:101-102 | helper (the volatility column): one volatility per ticker |
| ChartRecommend.RowColumns | app_v2.0.js:119-134 | helper for `RecommendSpendsFunding`: the rows' percentages are the allocations and the amounts are `funding * p / 100` |
| ChartRecommend.RecommendRows | app_v2.0.js:84-142 | a successful call had every entry succeed and a recognised profile; it returns one row per ticker, built from that ticker's allocation and its dictionary record |
| ChartRecommend.DistinctRows | app_v2.0.js:104-134 | with distinct tickers, each row carries its own ticker's entry record |
| ChartRecommend.RecommendSpendsFunding | app_v2.0.js:115-134 | a successful call over at least one ticker allocates 100 percent and spends the whole funding |
| ChartRecommend.UnknownProfile | app_v2.0.js:36-61 | with an unrecognised profile, the call throws at `toFixed` exactly when there is a ticker and all entries succeeded; no tickers give no rows |
| ChartRecommend.RecommendEntryFailure | app_v2.0.js:95-112 | the call fails with a fetch or data error e exactly when some entry fails with e after all earlier entries succeeded |
| IndexBased.IndexStocksShape | index_based.js:106-116 | a known index lists five distinct tickers and any other lists none; the market-cap range never changes the list |
| IndexBased.GenerateRecommendations | index_based.js:119-171 | the call returns exactly the specification `Recommend` over the index's tickers |
| IndexBased.UnknownIndexNoRows | index_based.js:115-121 | an unknown index yields no rows and no error, whatever the profile |
| IndexBased.KnownIndexRows | index_based.js:119-171 | a successful call on a known index returns five rows in list order, each from its own ticker's chart, summing to 100 percent and spending the funding |
| IndexBased.KnownIndexUnknownProfile | index_based.js:145-163 | for a known index and an unrecognised profile, the call throws at `toFixed` exactly when all five charts were kept |

## Left out

- The DOM is not modelled. This covers element lookup, the results display, `innerHTML` text, the style sheet, the Chart.js graphs (`renderStockGraph`, the pie chart), `displayRiskProfile`, the question progress bar, `addStock` and `removeStock`.
  - Only the loading text per ticker and the retry notices are kept, as events of the trace.
- `server.js` and `checkConfiguration` are not modelled. They serve the page and report configuration.
- `console.log`, `console.error` and `alert` are not modelled as output. The alert's text is the error result of the questionnaire.
- `setTimeout` is not modelled as a timer. Pauses and retry waits are events in the trace, not elapsed time.
- URLs, API keys, dates and request headers are not modelled. Network responses are parameters.
- The number formatting of `toFixed(2)` is not modelled. Percentages, amounts, volatilities and year extremes stay exact reals.
- `parseInt` and `parseFloat` are not modelled. Answers are integers, and quote fields are reals.
- Floating point is not modelled. Arithmetic is on exact reals.
  - Where JavaScript would produce NaN or Infinity, the model reports the error `NonFinite`. This covers fewer than two prices in `app.js`, a zero volatility under the conservative or moderate profile, a negative volatility under the moderate profile (where `Math.sqrt` gives NaN), and a zero total weight.
  - None of the four variants throws on such a value: each formats it with `toFixed(2)` and returns rows that read "NaN" or "Infinity". The model reports `NonFinite` (in `app.js` and `client.js`) or `NonFiniteAllocation` (in `app_v2.0.js` and `index_based.js`) in place of those rows.
- Prices are positive reals (the `Price` type). A zero close, which would divide by zero in the return formula, and a negative close are not modelled.
- `Math.sqrt` is a parameter constrained by `IsSqrt`. It is not a built-in.
- PolygonFetch.FetchWithRetry: a retry is triggered by the kind of failure (a 429 or a network failure), not by matching the message text.
- The failures of `app_v2.0.js` and `index_based.js` fetches are one case, `ChartFailure`, carrying a message. These are a network error, invalid JSON and a missing `chart.result`, and those versions make no status check.
- A Yahoo chart is assumed to have `indicators.quote[0].close` and `timestamp`.
- `app_v2.0.js` and `index_based.js` record no trace. Their loading text and their lack of pacing are not modelled.
- IndexBased.IndexStocks: looking up an index named like an inherited object property (such as "constructor") does not return that property; any name other than the three indices gives no tickers.
- `index_based.js` declares `fetchStockData`, `calculateVolatility` and `calculateRiskAdjustedAllocation` twice. The later declarations (lines 53-103) are the ones in effect and the ones modelled. The two copies are the same.
- There is no concurrency: the async calls run one after another, as the source awaits them.
