# Portfolio signal analysis — a verified model

This project models the signal-analysis core of an investment-portfolio assistant. The assistant's agents analyse a crypto portfolio and a traditional portfolio. Its suggestion services turn their reports into KEEP/REDUCE and MONITOR advice. The model covers six parts of that system:

- **Momentum indicators** (`Momentum`). Covers RSI with Wilder smoothing over the newest 28 daily bars, the 21-day volume analysis, the 14-day VWAP and the diagnosis bands that label each reading. It also covers the tool loop that builds the `crypto_momentum_indicators` report. The loop is aborted by the first `ZeroDivisionError`.
- **Crypto trends** (`Trends`). Covers the 10- and 20-bar moving averages, the last close and the dual-MA trend labels. Stablecoins get a peg check instead. Also covers the loop that builds `crypto_trends`.
- **Agent state** (`CryptoAnalysisAgent`). The `CryptoAnalysisAgentState` object is a class that the two crypto tools update in place.
- **News sentiment** (`NewsSentiment`, with `SentimentScoring`, `Grouping`, `Numeric`). Covers:
  - per-article dominance scoring with its positive bias;
  - the per-asset mean, with a second bias and a confidence factor;
  - the 0.6/0.4 categories;
  - the tool that writes the records and the overall diagnosis into the shared report object.
- **Social-media sentiment** (`SocialSentiment`). Posts are sorted newest first. Scores are weighted by recency (×1.1 for the three newest posts) and by engagement (capped at ×1.1). The per-asset confidence factor and the 0.55/0.45 categories are also covered.
- **Suggestion services.**
  - `AssetSuggestions` covers the macro-indicator rule table with its conflict notes, and the VIX × sensitivity × trend action.
  - `CryptoSuggestions` reads numbers back out of report sentences. It then builds MA, RSI, Volume and VWAP indicators for the trend-based, momentum-based and comprehensive suggestions.
  - `Patterns` and `Text` model the fixed regular expressions and the `float()` conversions those readings rely on.

How the source's constructs are modelled:

- A Python exception that the source lets propagate is an `Outcome.Raised` value (`ZeroDivisionError`, `ValueError`). It aborts the enclosing loop exactly where the source's exception would. A service's `except Exception: return []` becomes an empty list.
- A Python dict is an insertion-ordered list of entries (`OrderedDict`). Assigning to an existing key keeps the key's first position and replaces its value.
- Database queries are replaced by the data they return. A symbol's price history is a newest-first sequence of bars, passed in as a `map<string, seq<Bar>>`.
- The current time (`now`) is an integer parameter.
- The methods with loops (`CalculateRsi`, `CalculateVwap`, `BuildCryptoTrends`, `ReadDirections`, `FindConflicts`, `ExtractMaValues`, `AnalyseIndicators`, …) are proved against the functions that specify them. The properties the source promises are proved as lemmas about those functions.

## Model

| member | source | states |
|---|---|---|
| Momentum.Newest | backend/agents/tools/tool_crypto_momentum_indicators.py:83-89 | the `$sort: -1, $limit: k` query yields the first `min(k, n)` bars of the newest-first history, unchanged |
| Momentum.Reverse | backend/agents/tools/tool_crypto_momentum_indicators.py:34-41 | the second `$sort: 1` gives the same bars in exactly the opposite order |
| Momentum.PriceChanges | backend/agents/tools/tool_crypto_momentum_indicators.py:46-49 | one change per consecutive pair of bars, each equal to the later close minus the earlier close |
| Momentum.Gains | backend/agents/tools/tool_crypto_momentum_indicators.py:55 | gains are non-negative; a gain minus the matching loss gives back the change; at most one of the two is non-zero |
| Momentum.Losses | backend/agents/tools/tool_crypto_momentum_indicators.py:56 | losses are non-negative and zero exactly for non-negative changes; gain minus loss gives back the change |
| Momentum.WilderStepInRange | backend/agents/tools/tool_crypto_momentum_indicators.py:64-66 | one Wilder smoothing step of values within [lo, hi] stays within [lo, hi] |
| Momentum.SmoothInRange | backend/agents/tools/tool_crypto_momentum_indicators.py:60-66 | the whole smoothing loop stays within any bounds the seed and every later value respect |
| Momentum.WilderAverageNonNegative | backend/agents/tools/tool_crypto_momentum_indicators.py:60-66 | the average gain and the average loss are never negative |
| Momentum.WilderAverageOfZeros | backend/agents/tools/tool_crypto_momentum_indicators.py:60-66 | an all-zero series smooths to exactly 0 (so rising closes have no average loss) |
| Momentum.RsiFromAverages | backend/agents/tools/tool_crypto_momentum_indicators.py:69-73 | the RSI lies in [0, 100] and is 100 exactly when the average loss is 0 |
| Momentum.CalculateRsi | backend/agents/tools/tool_crypto_momentum_indicators.py:41-76 | the change loop and the smoothing loop compute the RSI specification, or None below `period + 1` bars |
| Momentum.CollectPriceChanges | backend/agents/tools/tool_crypto_momentum_indicators.py:46-49 | the change loop builds exactly the list of consecutive close differences |
| Momentum.WilderAverages | backend/agents/tools/tool_crypto_momentum_indicators.py:60-66 | the seed average over the first `period` values plus the smoothing loop give the Wilder average of both lists |
| Momentum.RsiUnavailableIff | backend/agents/tools/tool_crypto_momentum_indicators.py:42-52 | the RSI is missing exactly when fewer than `period + 1` bars exist; the second length guard can never fire |
| Momentum.RsiInRange | backend/agents/tools/tool_crypto_momentum_indicators.py:69-76 | every available RSI reading lies between 0 and 100 |
| Momentum.RsiOfRisingCloses | backend/agents/tools/tool_crypto_momentum_indicators.py:60-75 | closes that never fall give RSI 100, dated with the newest bar of the window |
| Momentum.RsiFifteenRisingCloses | backend/agents/tools/tool_crypto_momentum_indicators.py:17-76 | with the default period of 14, fifteen strictly rising closes already give an RSI of 100 |
| Momentum.Volumes | backend/agents/tools/tool_crypto_momentum_indicators.py:97 | the volume list holds each bar's volume in bar order |
| Momentum.VolumeAnalysis | backend/agents/tools/tool_crypto_momentum_indicators.py:78-106 | missing exactly below `period` bars; otherwise current = newest volume, average = mean of the newest `period` volumes, ratio × average = current, and ratio 0 when the average is not positive |
| Momentum.VolumeRatioBounds | backend/agents/tools/tool_crypto_momentum_indicators.py:94-101 | with non-negative volumes the volume ratio lies between 0 and the period length |
| Momentum.CalculateVwap | backend/agents/tools/tool_crypto_momentum_indicators.py:108-143 | the accumulation loop computes the VWAP specification: total price·volume over total volume of the newest `period` bars |
| Momentum.VwapAvailability | backend/agents/tools/tool_crypto_momentum_indicators.py:121-140 | VWAP is missing exactly when there are too few bars or their total volume is 0; the current price is the newest close |
| Momentum.TotalsBounded | backend/agents/tools/tool_crypto_momentum_indicators.py:128-134 | the price·volume total lies between lo and hi times the volume total when every typical price lies in [lo, hi] |
| Momentum.VwapWithinTypicalRange | backend/agents/tools/tool_crypto_momentum_indicators.py:125-139 | the VWAP lies within the range of the window's typical prices |
| Momentum.VolumeNonNegative | backend/agents/tools/tool_crypto_momentum_indicators.py:126-134 | non-negative volumes give a non-negative volume total |
| Momentum.Typicals | backend/agents/tools/tool_crypto_momentum_indicators.py:130 | the typical price of each bar is (high + low + close) / 3 |
| Momentum.TotalsWithEqualVolumes | backend/agents/tools/tool_crypto_momentum_indicators.py:128-134 | with one common volume the totals are count × volume and (sum of typical prices) × volume |
| Momentum.VwapOfEqualVolumes | backend/agents/tools/tool_crypto_momentum_indicators.py:125-139 | with equal positive volumes the VWAP is the plain mean of the typical prices |
| Momentum.TotalsWithOneTradingBar | backend/agents/tools/tool_crypto_momentum_indicators.py:128-134 | when only one bar traded, the totals are that bar's volume and typical price × volume |
| Momentum.TotalsWithoutVolume | backend/agents/tools/tool_crypto_momentum_indicators.py:128-134 | when no bar traded, both totals are 0 |
| Momentum.VwapOfSingleTradingBar | backend/agents/tools/tool_crypto_momentum_indicators.py:125-141 | when only one bar of the window traded, the VWAP is that bar's typical price |
| Momentum.AnalyzeMomentumIndicator | backend/agents/tools/tool_crypto_momentum_indicators.py:145-209 | an unknown indicator name gets the insufficient-data diagnosis; RSI is always a band; the call raises exactly for VWAP with a zero VWAP value |
| Momentum.RsiBands | backend/agents/tools/tool_crypto_momentum_indicators.py:149-167 | stablecoin bands are 45..55 inclusive; other assets use ≥70, ≤30, [50, 70) and (30, 50), each as an if-and-only-if |
| Momentum.RsiDiagnosisMonotone | backend/agents/tools/tool_crypto_momentum_indicators.py:149-167 | a higher RSI never gets a more bearish band |
| Momentum.VolumeBands | backend/agents/tools/tool_crypto_momentum_indicators.py:170-181 | the volume ratio is exceptional above 2, above average in (1.5, 2], below average under 0.7 and normal in [0.7, 1.5], each as an if-and-only-if |
| Momentum.VwapBands | backend/agents/tools/tool_crypto_momentum_indicators.py:184-207 | against a positive VWAP, a stablecoin deviates exactly when the price lies outside 99.5%-100.5% of it; other assets are strongly bullish above 105%, moderately bullish in (102%, 105%], strongly bearish below 95%, moderately bearish in [95%, 98%) and neutral in [98%, 102%] |
| Momentum.PercentAgainstVwap | backend/agents/tools/tool_crypto_momentum_indicators.py:189-196 | the percentage above a positive VWAP is above or below a threshold `p` exactly when the price is above or below the VWAP scaled by 1 + p/100 |
| Momentum.AssetMomentum | backend/agents/tools/tool_crypto_momentum_indicators.py:222-288 | the loop body computes the asset's indicator list from its history |
| Momentum.AssembleIndicators | backend/agents/tools/tool_crypto_momentum_indicators.py:227-279 | the three conditional appends build RSI, Volume, VWAP in that order; a zero VWAP raises |
| Momentum.MomentumReportStep | backend/agents/tools/tool_crypto_momentum_indicators.py:221-288 | one more asset either keeps an earlier raise, raises, adds nothing (no indicators) or appends one entry |
| Momentum.MomentumReportAbortsAtFirstRaise | backend/agents/tools/tool_crypto_momentum_indicators.py:221-288 | once an asset raises, the whole report is that exception regardless of the later assets |
| Momentum.BuildMomentumIndicators | backend/agents/tools/tool_crypto_momentum_indicators.py:211-294 | the portfolio loop computes the momentum report specification |
| Momentum.AssembleOrdered | backend/agents/tools/tool_crypto_momentum_indicators.py:227-279 | an asset's indicators are strictly ordered RSI before Volume before VWAP |
| Momentum.MomentumReportShape | backend/agents/tools/tool_crypto_momentum_indicators.py:282-288 | every reported asset has at least one indicator, in RSI/Volume/VWAP order, and there are at most as many entries as allocations |
| Momentum.MomentumReportSkips | backend/agents/tools/tool_crypto_momentum_indicators.py:282-288 | an asset without any available indicator leaves the report unchanged |
| Momentum.IndicatorsByHistoryLength | backend/agents/tools/tool_crypto_momentum_indicators.py:17-20 | fewer than 14 bars give no indicator; RSI appears exactly from 15 bars and Volume exactly from 21 |
| Momentum.AssembleKinds | backend/agents/tools/tool_crypto_momentum_indicators.py:227-279 | an RSI entry exists exactly when there is an RSI reading and a Volume entry exactly when there is a volume reading |
| Trends.Closes | backend/agents/tools/tool_crypto_trends.py:38 | the closes of the bars, in bar order |
| Trends.MovingAverage | backend/agents/tools/tool_crypto_trends.py:28-42 | the `$avg` over the newest bars is missing exactly when the symbol has no bars |
| Trends.MovingAverageWindow | backend/agents/tools/tool_crypto_trends.py:32-42 | the MA is the mean close of the newest `min(period, n)` bars and lies within their range |
| Trends.LastClose | backend/agents/tools/tool_crypto_trends.py:44-56 | missing exactly without bars; otherwise the newest bar's close and date |
| Trends.AnalyzeCryptoTrend | backend/agents/tools/tool_crypto_trends.py:58-95 | stablecoins get depeg risk or stable and never raise; other assets raise exactly when an MA is 0 and never get a stablecoin label |
| Trends.StablecoinPeg | backend/agents/tools/tool_crypto_trends.py:62-68 | a stablecoin is at depeg risk exactly when its price is more than 0.5% from 1.0 |
| Trends.PercentAbove | backend/agents/tools/tool_crypto_trends.py:75-79 | a percentage distance above a bound is the same as a price above the scaled MA |
| Trends.PercentBelow | backend/agents/tools/tool_crypto_trends.py:75-82 | a percentage distance below a bound is the same as a price below the scaled MA |
| Trends.TrendLabels | backend/agents/tools/tool_crypto_trends.py:72-93 | with positive MAs, each of the five labels holds exactly under its price condition |
| Trends.TrendOrdersPrices | backend/agents/tools/tool_crypto_trends.py:85-90 | uptrend means price > short MA > long MA; downtrend means price < short MA ≤ long MA |
| Trends.UptrendExample | backend/agents/tools/tool_crypto_trends.py:72-87 | a concrete BTC-sized price just above both MAs is an uptrend, not a strong one |
| Trends.StablecoinExamples | backend/agents/tools/tool_crypto_trends.py:62-68 | 1.007 is a depeg risk and 0.998 is stable, whatever the MAs |
| Trends.BuildCryptoTrends | backend/agents/tools/tool_crypto_trends.py:97-152 | the portfolio loop computes the trend report specification |
| Trends.AssetTrendStep | backend/agents/tools/tool_crypto_trends.py:106-141 | the loop body skips an asset without data, raises on a zero MA, and otherwise builds its trend entry |
| Trends.TrendReportStep | backend/agents/tools/tool_crypto_trends.py:105-141 | one more asset keeps an earlier raise, raises, skips (`continue`) or appends one entry |
| Trends.TrendReportAbortsAtFirstRaise | backend/agents/tools/tool_crypto_trends.py:105-141 | once an asset raises, the whole report is that exception |
| Trends.AssetTrendShape | backend/agents/tools/tool_crypto_trends.py:109-141 | an asset gets an entry exactly when it has bars; the entry is for that asset and its newest close |
| Trends.Traded | backend/agents/tools/tool_crypto_trends.py:105-120 | the assets with price data, a sub-list of the portfolio |
| Trends.TrendReportFollowsPortfolio | backend/agents/tools/tool_crypto_trends.py:105-141 | the report has exactly one entry per traded asset, in portfolio order, with that asset's newest close |
| Trends.SkipLeavesReportUnchanged | backend/agents/tools/tool_crypto_trends.py:112-120 | an asset without bars leaves the report unchanged |
| CryptoAnalysisAgent.CryptoAnalysisAgentState.constructor | backend/agents/tools/states/agent_crypto_analysis_state.py:35-39 | a fresh state holds the allocation, empty trends and momentum lists, no diagnosis, no step and no updates |
| CryptoAnalysisAgent.CalculateCryptoTrends | backend/agents/tools/tool_crypto_trends.py:97-152 | on success the state's trends are the report, the message is appended and the next step is the momentum node; nothing else changes; a raise leaves the state untouched |
| CryptoAnalysisAgent.CalculateCryptoMomentumIndicators | backend/agents/tools/tool_crypto_momentum_indicators.py:211-294 | on success the state's momentum list is the report, the message is appended and the next step is the diagnosis node; the trends are kept |
| CryptoAnalysisAgent.RunTrendsThenMomentum | backend/agents/tools/tool_crypto_momentum_indicators.py:290-294 | both tools in sequence succeed exactly when both reports succeed and leave both reports, both messages and the diagnosis step; the portfolio and diagnosis are never touched; when the trends tool raises the state is unchanged, and when only the momentum tool raises the state holds the new trends, the old indicators, the trends message alone and the momentum step next |
| SentimentScoring.DominanceSign | backend/agents/tools/tool_news_sentiment_calc.py:67-74 | the dominance score is above, at or below 0.5 exactly when positive is above, equal to or below negative |
| SentimentScoring.DominanceInUnit | backend/agents/tools/tool_news_sentiment_calc.py:67-74 | probabilities in [0, 1] give a dominance score in [0, 1] |
| SentimentScoring.DominanceMonotone | backend/agents/tools/tool_news_sentiment_calc.py:67-74 | more positive probability never lowers the score |
| SentimentScoring.DominanceAntitone | backend/agents/tools/tool_news_sentiment_calc.py:67-74 | more negative probability never raises the score |
| SentimentScoring.DominanceExamples | backend/agents/tools/tool_news_sentiment_calc.py:67-74 | each branch on a concrete input: positive-dominant 0.9, balanced 0.525, negative-dominant 0.2 |
| SentimentScoring.Categorize | backend/agents/tools/tool_news_sentiment_calc.py:140-155 | Positive from the upper threshold (inclusive), Neutral from the lower threshold, Negative below it, each as an if-and-only-if |
| SentimentScoring.CategorizeMonotone | backend/agents/tools/tool_news_sentiment_calc.py:140-155 | a higher score never gets a lower category |
| SentimentScoring.CountOf | backend/agents/tools/tool_news_sentiment_calc.py:208-210 | a category count never exceeds the number of assets |
| SentimentScoring.CountsAddUp | backend/agents/tools/tool_news_sentiment_calc.py:208-212 | the three category counts add up to the number of assets |
| SentimentScoring.Diagnose | backend/agents/tools/tool_news_sentiment_calc.py:215-220 | POSITIVE exactly when positives strictly outnumber both others, NEGATIVE likewise, MIXED otherwise; POSITIVE and NEGATIVE carry their count and the number of assets, MIXED carries all three counts |
| SentimentScoring.DiagnoseMajority | backend/agents/tools/tool_news_sentiment_calc.py:215-220 | a strict majority decides the diagnosis; no assets give MIXED |
| SentimentScoring.DiagnoseTie | backend/agents/tools/tool_news_sentiment_calc.py:215-220 | a tie for the largest count gives MIXED |
| NewsSentiment.ArticleScore | backend/agents/tools/tool_news_sentiment_calc.py:67-83 | an article's clamped score lies in [0, 1] |
| NewsSentiment.ArticleScoreSign | backend/agents/tools/tool_news_sentiment_calc.py:67-83 | an article scores above 0.5 exactly when positive exceeds negative, and 0.5 exactly on a tie |
| NewsSentiment.FirstBiasBounds | backend/agents/tools/tool_news_sentiment_calc.py:77-80 | the first positive bias never lowers a score and adds at most 0.08 |
| NewsSentiment.FirstBiasExample | backend/agents/tools/tool_news_sentiment_calc.py:67-83 | positive 0.3 and negative 0.25 score 0.525, then 0.531 after the bias |
| NewsSentiment.Scores | backend/agents/tools/tool_news_sentiment_calc.py:59-94 | one score per article |
| NewsSentiment.ScoresInUnit | backend/agents/tools/tool_news_sentiment_calc.py:59-94 | every article score, including the 0.5 of an unscored article, lies in [0, 1] |
| NewsSentiment.SecondBiasBounds | backend/agents/tools/tool_news_sentiment_calc.py:102-110 | the second bias adds between 0 and 0.08, and only to means in [0.54, 0.6) |
| NewsSentiment.Confidence | backend/agents/tools/tool_news_sentiment_calc.py:113-114 | the confidence lies in [0.6, 1] and is 1 exactly from three articles |
| NewsSentiment.SummaryProperties | backend/agents/tools/tool_news_sentiment_calc.py:97-136 | a summary's score lies in [0, 1] and its category matches it; it counts every article, has the confidence bounds and names the first article as most recent |
| NewsSentiment.ScoreArticles | backend/agents/tools/tool_news_sentiment_calc.py:59-94 | the article loop fills the four score lists as specified |
| NewsSentiment.SummarizeGroup | backend/agents/tools/tool_news_sentiment_calc.py:51-136 | the per-asset body computes the summary specification |
| NewsSentiment.CalculateAggregatedSentiment | backend/agents/tools/tool_news_sentiment_calc.py:27-138 | grouping plus the per-asset loop compute the aggregated summaries |
| NewsSentiment.SummariesOfSnoc | backend/agents/tools/tool_news_sentiment_calc.py:51-136 | the summaries of one more asset are the earlier ones plus that asset's summary |
| NewsSentiment.SummariesOfAt | backend/agents/tools/tool_news_sentiment_calc.py:51-136 | the i-th summary is the summary of the i-th asset's articles |
| NewsSentiment.AggregatedSentimentShape | backend/agents/tools/tool_news_sentiment_calc.py:37-136 | one summary per named asset, in order of first appearance, each with articles and confidence in [0.6, 1] |
| NewsSentiment.TotalNewsCountsEveryArticle | backend/agents/tools/tool_news_sentiment_calc.py:37-47 | the summaries' `total_news` add up to the number of articles that name an asset |
| NewsSentiment.TotalNewsOfKeys | backend/agents/tools/tool_news_sentiment_calc.py:126-136 | the summaries' article counts add up to the group sizes of their assets |
| NewsSentiment.ConfidenceScenario | backend/agents/tools/tool_news_sentiment_calc.py:97-119 | one strongly positive article (0.9) is damped to 0.54 and Neutral; three such articles stay 0.9 and Positive |
| NewsSentiment.ScenarioMeans | backend/agents/tools/tool_news_sentiment_calc.py:99 | the mean article score of that scenario is 0.9 for one and for three articles |
| NewsSentiment.Categories | backend/agents/tools/tool_news_sentiment_calc.py:208-210 | the category of each summary, in order |
| NewsSentiment.ToRecords | backend/agents/tools/tool_news_sentiment_calc.py:193-205 | one sentiment record per summary, in order |
| NewsSentiment.NewsReport.constructor | backend/agents/tools/tool_news_sentiment_calc.py:190 | a fresh report holds the articles and no sentiments or diagnosis |
| NewsSentiment.NewsReport.StoreSentiments | backend/agents/tools/tool_news_sentiment_calc.py:190-225 | the report keeps its articles and gains their records and the diagnosis of their categories |
| NewsSentiment.UpdateLog.constructor | backend/agents/tools/tool_news_sentiment_calc.py:226 | a fresh update log is empty |
| NewsSentiment.UpdateLog.Append | backend/agents/tools/tool_news_sentiment_calc.py:226 | appending adds exactly one message at the end |
| NewsSentiment.NewsAgentState.constructor | backend/agents/tools/tool_news_sentiment_calc.py:223 | a state holds the given report, log and step |
| NewsSentiment.CalculateNewsSentimentTool | backend/agents/tools/tool_news_sentiment_calc.py:161-229 | the shallow copy shares report and log; records and diagnosis land in the old state's report, the progress message is appended, and the copy moves to the summary node |
| SocialSentiment.Insert | backend/agents/tools/tool_social_media_sentiment_calc.py:53 | insertion adds exactly the one submission (multiset) |
| SocialSentiment.SortNewestFirst | backend/agents/tools/tool_social_media_sentiment_calc.py:53 | the sort is a permutation of the submissions |
| SocialSentiment.InsertNewestFirst | backend/agents/tools/tool_social_media_sentiment_calc.py:53 | insertion keeps the list newest first |
| SocialSentiment.SortIsNewestFirst | backend/agents/tools/tool_social_media_sentiment_calc.py:53 | the sorted list is newest first (missing dates last) and a permutation |
| SocialSentiment.InsertStable | backend/agents/tools/tool_social_media_sentiment_calc.py:53 | insertion into a newest-first list places the submission after every submission with the same timestamp |
| SocialSentiment.SortIsStable | backend/agents/tools/tool_social_media_sentiment_calc.py:53 | the sort is stable: for every timestamp, the submissions carrying it appear in the output in their input order |
| SocialSentiment.SubmissionScore | backend/agents/tools/tool_social_media_sentiment_calc.py:81-91 | a submission's clamped score lies in [0, 1] |
| SocialSentiment.EngagementWeight | backend/agents/tools/tool_social_media_sentiment_calc.py:122-123 | the engagement weight is capped at 1.1 |
| SocialSentiment.EngagementWeightBounds | backend/agents/tools/tool_social_media_sentiment_calc.py:122-123 | with non-negative counts the weight lies in [1, 1.1] |
| SocialSentiment.EngagementWeightExample | backend/agents/tools/tool_social_media_sentiment_calc.py:122-123 | score 100, 50 comments and 90 ups weigh 1.049 |
| SocialSentiment.Scores | backend/agents/tools/tool_social_media_sentiment_calc.py:70-96 | one score per submission, each its dominance score |
| SocialSentiment.RecentCount | backend/agents/tools/tool_social_media_sentiment_calc.py:108-111 | the recent count never exceeds the submissions |
| SocialSentiment.Confidence | backend/agents/tools/tool_social_media_sentiment_calc.py:132-133 | the confidence lies in [0.7, 1] and is 1 exactly from five submissions |
| SocialSentiment.CategoryThresholdsDiffer | backend/agents/tools/tool_social_media_sentiment_calc.py:162-177 | the 0.55/0.45 bands contain the news bands (0.6/0.4); 0.58 is Positive here but Neutral for news |
| SocialSentiment.ScoreSubmissions | backend/agents/tools/tool_social_media_sentiment_calc.py:70-111 | the submission loop fills the four score lists, the three engagement totals and the recent count |
| SocialSentiment.ScoreListsStep | backend/agents/tools/tool_social_media_sentiment_calc.py:70-96 | one more submission appends its score and probabilities |
| SocialSentiment.EngagementStep | backend/agents/tools/tool_social_media_sentiment_calc.py:99-111 | one more submission adds its counts (0 when missing) and counts once if recent |
| SocialSentiment.WeightScores | backend/agents/tools/tool_social_media_sentiment_calc.py:114-126 | the weighting loop gives each score its time and engagement weights |
| SocialSentiment.WeightedSnoc | backend/agents/tools/tool_social_media_sentiment_calc.py:117-126 | one more submission appends its score times the recency weight of its position and its engagement weight |
| SocialSentiment.SummarizeGroup | backend/agents/tools/tool_social_media_sentiment_calc.py:51-158 | the per-asset body computes the summary specification |
| SocialSentiment.SummaryProperties | backend/agents/tools/tool_social_media_sentiment_calc.py:114-158 | score in [0, 1] with matching category, confidence bounds, recent ≤ total = count, and the most recent submission is the newest |
| SocialSentiment.WeightedAtLeastScores | backend/agents/tools/tool_social_media_sentiment_calc.py:114-126 | weighting never lowers the sum of the scores |
| SocialSentiment.FullConfidenceNeverLowers | backend/agents/tools/tool_social_media_sentiment_calc.py:114-138 | from five submissions the final score is at least the plain mean of the scores |
| SocialSentiment.MeanLifted | backend/agents/tools/tool_social_media_sentiment_calc.py:129 | the weighted mean is at least the unweighted mean |
| SocialSentiment.ScoresMeanInUnit | backend/agents/tools/tool_social_media_sentiment_calc.py:70-96 | the mean of the scores lies in [0, 1] |
| SocialSentiment.SummariesOf | backend/agents/tools/tool_social_media_sentiment_calc.py:51-158 | one summary per asset |
| SocialSentiment.AllGroupsNonEmpty | backend/agents/tools/tool_social_media_sentiment_calc.py:37-46 | every grouped asset has at least one submission |
| SocialSentiment.CalculateAggregatedSentiment | backend/agents/tools/tool_social_media_sentiment_calc.py:26-160 | grouping plus the per-asset loop compute the aggregated summaries |
| SocialSentiment.SummariesOfSnoc | backend/agents/tools/tool_social_media_sentiment_calc.py:51-158 | the summaries of one more asset are the earlier ones plus its summary |
| SocialSentiment.SummariesOfAt | backend/agents/tools/tool_social_media_sentiment_calc.py:51-158 | the i-th summary is the summary of the i-th asset's submissions |
| SocialSentiment.AggregatedSentimentShape | backend/agents/tools/tool_social_media_sentiment_calc.py:37-158 | one summary per named asset in first-appearance order, with submissions, recent ≤ total and confidence in [0.7, 1] |
| SocialSentiment.Categories | backend/agents/tools/tool_social_media_sentiment_calc.py:218-220 | the category of each summary, in order |
| SocialSentiment.ToRecords | backend/agents/tools/tool_social_media_sentiment_calc.py:199-215 | one sentiment record per summary, in order |
| SocialSentiment.SocialMediaReport.constructor | backend/agents/tools/tool_social_media_sentiment_calc.py:196 | a fresh report holds the submissions and no sentiments or diagnosis |
| SocialSentiment.SocialMediaAgentState.constructor | backend/agents/tools/tool_social_media_sentiment_calc.py:232 | a state holds the given report and step |
| SocialSentiment.CalculateSocialMediaSentimentTool | backend/agents/tools/tool_social_media_sentiment_calc.py:183-240 | the copy shares the report; records and diagnosis land in it, the summaries are returned and the copy moves to the end |
| Grouping.FirstSeen | backend/agents/tools/tool_news_sentiment_calc.py:37-47 | the group keys skip empty asset names |
| Grouping.Members | backend/agents/tools/tool_news_sentiment_calc.py:37-47 | a group holds only items of its asset |
| Grouping.GroupByAsset | backend/agents/tools/tool_news_sentiment_calc.py:37-47 | the grouping loop builds one group per first-seen asset, each with exactly its items in order |
| Grouping.MembersEmpty | backend/agents/tools/tool_social_media_sentiment_calc.py:37-46 | an asset that never appears has no items |
| Grouping.FirstSeenKeys | backend/agents/tools/tool_social_media_sentiment_calc.py:37-46 | an asset is a key exactly when it is non-empty and some item names it |
| Grouping.FirstSeenDistinct | backend/agents/tools/tool_social_media_sentiment_calc.py:37-46 | no asset is grouped twice |
| Grouping.GroupsNonEmpty | backend/agents/tools/tool_news_sentiment_calc.py:37-47 | every group has at least one item |
| Grouping.GroupSizesAddUp | backend/agents/tools/tool_news_sentiment_calc.py:37-47 | group sizes add up to the items that name an asset (nothing lost or duplicated) |
| OrderedDict.Keys | backend/service_asset_suggestions.py:190 | the dict's keys in insertion order |
| OrderedDict.Get | backend/service_asset_suggestions.py:346-347 | a lookup finds a value exactly for a present key |
| OrderedDict.PutKeys | backend/service_asset_suggestions.py:72-83 | assigning keeps an existing key's position and appends a new key |
| OrderedDict.PutGet | backend/service_asset_suggestions.py:72-83 | after assigning, the key reads the new value and other keys are unaffected |
| OrderedDict.PutDistinct | backend/service_asset_suggestions.py:72-83 | assignment never duplicates a key |
| OrderedDict.Collect | backend/service_asset_suggestions.py:72-83 | the dict-building loop computes the dict of the pairs |
| OrderedDict.FromPairsDistinct | backend/service_asset_suggestions.py:72-83 | a dict built from pairs has distinct keys |
| OrderedDict.FromPairsKeys | backend/service_asset_suggestions.py:72-83 | its keys are exactly the keys of the pairs |
| OrderedDict.FromPairsGet | backend/service_asset_suggestions.py:72-83 | a key reads the value of its last pair |
| OrderedDict.FromPairsMissing | backend/service_asset_suggestions.py:72-83 | a key of no pair is absent |
| OrderedDict.FromPairsKeyOrder | backend/service_asset_suggestions.py:72-83 | the keys come in the order of their first pair |
| AssetSuggestions.IndicatorNamed | backend/service_asset_suggestions.py:96-109 | an entry names an indicator exactly by its exact name; any other name matches none |
| AssetSuggestions.ReadDirection | backend/service_asset_suggestions.py:97-113 | UP exactly when the lower-cased sentence contains "up by"; DOWN exactly when it contains "down by" but not "up by"; nothing exactly when it contains neither; never NEUTRAL |
| AssetSuggestions.ReadDirections | backend/service_asset_suggestions.py:91-113 | the direction loop computes the directions specification |
| AssetSuggestions.LastSignalWins | backend/service_asset_suggestions.py:95-113 | the last entry that announces a direction for an indicator decides it |
| AssetSuggestions.NeutralWithoutSignal | backend/service_asset_suggestions.py:91-113 | an indicator stays neutral exactly when no entry announces a direction for it |
| AssetSuggestions.LastEntryStep | backend/service_asset_suggestions.py:95-113 | the last entry sets an indicator it signals and leaves others as before; a neutral later entry does not reset |
| AssetSuggestions.ClassOf | backend/service_asset_suggestions.py:119-180 | an asset type matches a table column exactly by its exact name |
| AssetSuggestions.Recommend | backend/service_asset_suggestions.py:195-198 | a known type gets the table's action and sentence, any other type KEEP with the default sentence |
| AssetSuggestions.ActionOfRecommend | backend/service_asset_suggestions.py:195-205 | the conflict check reads the same action the recommendation gives |
| AssetSuggestions.NeutralKeeps | backend/service_asset_suggestions.py:133-177 | a neutral indicator keeps every asset type |
| AssetSuggestions.UnknownTypeKept | backend/service_asset_suggestions.py:195-206 | an unknown asset type is kept under every indicator and never has conflicts |
| AssetSuggestions.TableShape | backend/service_asset_suggestions.py:119-180 | bonds move against equities on every announced direction; real estate and commodities follow equities |
| AssetSuggestions.ActionsFor | backend/service_asset_suggestions.py:194-204 | each indicator's action is the table's action for its direction |
| AssetSuggestions.ConflictsAmong | backend/service_asset_suggestions.py:201-206 | an indicator is listed exactly when it is another indicator with a different action |
| AssetSuggestions.FindConflicts | backend/service_asset_suggestions.py:201-206 | the conflict loop computes the conflict list |
| AssetSuggestions.ConflictsInTableOrder | backend/service_asset_suggestions.py:184-206 | conflicts are listed once each in the order GDP, interest rate, unemployment |
| AssetSuggestions.ConflictsAgree | backend/service_asset_suggestions.py:201-206 | three agreeing actions give no conflict |
| AssetSuggestions.ConflictsSymmetric | backend/service_asset_suggestions.py:201-206 | x conflicts with y exactly when y conflicts with x |
| AssetSuggestions.OddOneOut | backend/service_asset_suggestions.py:201-216 | either no indicator has a note, or one odd indicator conflicts with both others and each other conflicts only with it |
| AssetSuggestions.OddIs | backend/service_asset_suggestions.py:201-216 | names the odd indicator when the other two agree |
| AssetSuggestions.IndicatorNames | backend/service_asset_suggestions.py:216 | one name per conflicting indicator |
| AssetSuggestions.ConflictNote | backend/service_asset_suggestions.py:214-216 | a note exists exactly when there are conflicts, and it joins their names with ", " |
| AssetSuggestions.Recommendations | backend/service_asset_suggestions.py:193-218 | each asset gets exactly three entries, in the order GDP, interest rate, unemployment |
| AssetSuggestions.RecommendationsOf | backend/service_asset_suggestions.py:194-218 | one entry per indicator, in the given order |
| AssetSuggestions.RecommendOne | backend/service_asset_suggestions.py:195-218 | the loop body computes an indicator's entry |
| AssetSuggestions.RecommendAll | backend/service_asset_suggestions.py:193-218 | the per-indicator loop computes the three entries |
| AssetSuggestions.MacroSuggestionsFor | backend/service_asset_suggestions.py:190-227 | one suggestion per portfolio entry, in dict order |
| AssetSuggestions.FetchMacroSuggestions | backend/service_asset_suggestions.py:42-234 | the service computes the macro suggestions specification, with [] for a missing report or empty macro indicators |
| AssetSuggestions.SuggestMacro | backend/service_asset_suggestions.py:190-227 | the portfolio loop computes one suggestion per symbol |
| AssetSuggestions.MacroSuggestionsOrder | backend/service_asset_suggestions.py:72-227 | one suggestion per distinct symbol in order of first document, each with three entries in table order |
| AssetSuggestions.LastDocumentDecides | backend/service_asset_suggestions.py:75-83 | a symbol's suggestion carries the type and description of its last document |
| AssetSuggestions.VixReading | backend/service_asset_suggestions.py:272-279 | a VIX value exists exactly when the pattern matches, and it is `float` of the captured text |
| AssetSuggestions.StateOf | backend/service_asset_suggestions.py:331-336 | HIGH exactly above 20, LOW exactly below 12, NORMAL on [12, 20] |
| AssetSuggestions.TrendOf | backend/service_asset_suggestions.py:285-292 | UPTREND exactly when "uptrend" occurs (ignoring case), DOWNTREND exactly when only "downtrend" does |
| AssetSuggestions.VixActionTable | backend/service_asset_suggestions.py:388-426 | for low and neutral sensitivity only a downtrend reduces; high sensitivity reduces under high VIX, keeps under low VIX, and follows the trend under normal VIX |
| AssetSuggestions.VixAction | backend/service_asset_suggestions.py:388-426 | a downtrend reduces unless a VIX-sensitive asset meets a low VIX; otherwise only high sensitivity under high VIX reduces |
| AssetSuggestions.RationaleContradictsAction | backend/service_asset_suggestions.py:463-467 | as written, a neutral-sensitivity asset in a downtrend under low VIX is told to maintain while its action is REDUCE |
| AssetSuggestions.RationaleAsWritten | backend/service_asset_suggestions.py:444-486 | the written sentence advises the action taken in every combination except a neutral-sensitivity asset in a downtrend under low VIX |
| AssetSuggestions.Rationale | backend/service_asset_suggestions.py:444-486 | the corrected explanation always advises the action taken, and equals the written one elsewhere |
| AssetSuggestions.VixNote | backend/service_asset_suggestions.py:362-369 | no note exactly when sensitivity and trend are both neutral; otherwise the present parts joined by ". " |
| AssetSuggestions.SensitivityOf | backend/service_asset_suggestions.py:317-328 | QQQ, EEM and HYG are HIGH, TLT, LQD and GLD are LOW, and every other symbol (listed or not) is NEUTRAL |
| AssetSuggestions.VixRecommendationFor | backend/service_asset_suggestions.py:346-369 | the entry carries the symbol's sensitivity, the VIX action, the explanation as written, and the note; the explanation advises the action except for a neutral-sensitivity asset in a downtrend under low VIX |
| AssetSuggestions.VixRecommendationCorrected | backend/service_asset_suggestions.py:346-369 | the corrected entry: same action, sensitivity and note as the written one, an explanation that always advises the action, and the written entry itself wherever that one already agrees |
| AssetSuggestions.VixSuggestionsFor | backend/service_asset_suggestions.py:343-378 | one suggestion per portfolio entry, in dict order |
| AssetSuggestions.FetchVixSuggestions | backend/service_asset_suggestions.py:236-385 | the service computes the VIX suggestions specification, with [] without a report, volatility data or VIX value |
| AssetSuggestions.SuggestVix | backend/service_asset_suggestions.py:343-378 | the portfolio loop computes one suggestion per symbol |
| AssetSuggestions.DowntrendAssetsReduced | backend/service_asset_suggestions.py:283-351 | an asset whose last trend entry is a downtrend is reduced unless it is VIX-sensitive under low VIX, and its explanation advises that action unless the asset is neutral-sensitivity under low VIX |
| CryptoSuggestions.MaValuesFrom | backend/service_crypto_suggestions.py:330-393 | the dict exists exactly when all four readings succeed; a failing close reading, the first one read, is the error reported |
| CryptoSuggestions.ReadFirstValue | backend/service_crypto_suggestions.py:358-363 | the pattern loop with `break` reads the number of the first matching pattern |
| CryptoSuggestions.ExtractMaValues | backend/service_crypto_suggestions.py:330-393 | the four pattern loops compute the MA values specification |
| CryptoSuggestions.MaValuesOfEthSentence | backend/service_crypto_suggestions.py:333-393 | the sentence of the docstring reads close 3371.35, MA9 3368.93, MA21 3367.09 and MA50 3361.92 |
| CryptoSuggestions.ReadsCommaPrice | backend/service_crypto_suggestions.py:347-348 | a price with a thousands comma reads, once the comma is removed, as the number its digits spell |
| CryptoSuggestions.RsiValueOf | backend/service_crypto_suggestions.py:435-446 | no match gives no value; a value read is `float` of the first pattern's capture and is non-negative; ValueError is raised exactly when that capture does not parse |
| CryptoSuggestions.RsiAfterNoBreakSpace | backend/service_crypto_suggestions.py:436-445 | "12", a no-break space and "RSI" fail the first two patterns and are read as 12 by the third, whose `\s*` accepts Unicode whitespace |
| CryptoSuggestions.ReadRsi | backend/service_crypto_suggestions.py:441-446 | the RSI pattern loop computes the RSI value specification |
| CryptoSuggestions.PositionAgainstPositiveAverage | backend/service_crypto_suggestions.py:398-408 | against a positive MA, above/below/at holds exactly when the close is above/below/equal to it |
| CryptoSuggestions.PercentSign | backend/service_crypto_suggestions.py:398 | against a positive base the percentage is positive or negative exactly when the value is above or below it |
| CryptoSuggestions.InterpretRsi | backend/service_crypto_suggestions.py:449-459 | not available exactly for a missing or zero value; overbought above 70, oversold below 30, bullish on (50, 70], bearish on [30, 50] |
| CryptoSuggestions.RsiBoundsDifferFromMomentumTool | backend/service_crypto_suggestions.py:449-459 | this reading and the momentum tool's bands name the same band exactly away from 30, 50 and 70 |
| CryptoSuggestions.VolumeRatio | backend/service_crypto_suggestions.py:505-507 | a ratio exists exactly when both volumes are truthy and the average is positive |
| CryptoSuggestions.VolumeBands | backend/service_crypto_suggestions.py:505-515 | high activity exactly above 1.5× average, low exactly below 0.7×, normal in between |
| CryptoSuggestions.PriceVsVwap | backend/service_crypto_suggestions.py:563-566 | a percentage exists exactly when VWAP and price are both truthy |
| CryptoSuggestions.VwapBands | backend/service_crypto_suggestions.py:563-575 | buying pressure exactly above 101% of a positive VWAP, selling pressure exactly below 99% |
| CryptoSuggestions.MaIndicator | backend/service_crypto_suggestions.py:396-426 | an MA analysis of the given average; against a positive MA its direction is the close's side of it |
| CryptoSuggestions.MaIndicatorIf | backend/service_crypto_suggestions.py:93-105 | an MA indicator is present exactly when the close and that MA are truthy |
| CryptoSuggestions.AppendMaIndicators | backend/service_crypto_suggestions.py:93-105 | the three conditional appends compute the MA indicators |
| CryptoSuggestions.MaIndicatorsShape | backend/service_crypto_suggestions.py:93-105 | only MA analyses, one for each truthy average, strictly in MA9, MA21, MA50 order |
| CryptoSuggestions.MaIndicatorIfKind | backend/service_crypto_suggestions.py:93-105 | the conditional indicator of an average is an analysis of that average |
| CryptoSuggestions.RsiIndicator | backend/service_crypto_suggestions.py:429-470 | an RSI analysis whose interpretation matches its value; no match gives "not available" |
| CryptoSuggestions.CreateRsiIndicator | backend/service_crypto_suggestions.py:429-470 | the method computes the RSI indicator specification |
| CryptoSuggestions.VolumeIndicator | backend/service_crypto_suggestions.py:473-528 | a volume analysis whose ratio and interpretation follow from its readings; not available exactly when a volume is missing or zero |
| CryptoSuggestions.CreateVolumeIndicator | backend/service_crypto_suggestions.py:473-528 | the two pattern loops compute the volume indicator specification |
| CryptoSuggestions.VwapIndicator | backend/service_crypto_suggestions.py:531-588 | a VWAP analysis whose percentage and interpretation follow from its readings; not available exactly when VWAP or price is missing or zero |
| CryptoSuggestions.CreateVwapIndicator | backend/service_crypto_suggestions.py:531-588 | the two pattern loops compute the VWAP indicator specification |
| CryptoSuggestions.GatherOk | backend/service_crypto_suggestions.py:76-131 | a loop completes exactly when no step raises |
| CryptoSuggestions.GatherPrefixRaised | backend/service_crypto_suggestions.py:76-131 | once a prefix has raised, the later steps do not matter |
| CryptoSuggestions.GatherStep | backend/service_crypto_suggestions.py:76-124 | one more step keeps a raise, raises or appends its items |
| CryptoSuggestions.GatherSingles | backend/service_crypto_suggestions.py:76-124 | steps of one item each yield the items in order |
| CryptoSuggestions.Single | backend/service_crypto_suggestions.py:117-124 | one suggestion, or the exception raised making it |
| CryptoSuggestions.Details | backend/service_crypto_suggestions.py:85-87 | an allocated asset takes its allocation's type and description; any other gets "Cryptocurrency" and its own symbol |
| CryptoSuggestions.DetailsFromAllocation | backend/service_crypto_suggestions.py:63-87 | an allocated asset takes the type and description of its last allocation entry |
| CryptoSuggestions.DetailsUnallocated | backend/service_crypto_suggestions.py:63-87 | an unallocated asset gets the defaults |
| CryptoSuggestions.TrendResults | backend/service_crypto_suggestions.py:76-124 | one step result per trend entry |
| CryptoSuggestions.SuggestForTrend | backend/service_crypto_suggestions.py:77-124 | the loop body computes an entry's trend suggestion |
| CryptoSuggestions.FetchTrendSuggestions | backend/service_crypto_suggestions.py:35-131 | the service computes the trend suggestions specification |
| CryptoSuggestions.TrendSuggestionsShape | backend/service_crypto_suggestions.py:76-124 | when every sentence reads, one suggestion per trend entry in order, each ending with the overall trend carrying the entry's diagnosis |
| CryptoSuggestions.TrendResultsShape | backend/service_crypto_suggestions.py:76-124 | each readable step gives one suggestion for its asset ending with its overall trend |
| CryptoSuggestions.TrendSuggestionOk | backend/service_crypto_suggestions.py:77-124 | a readable entry gives one suggestion whose last indicator is the overall trend of its MA values |
| CryptoSuggestions.TrendSuggestionsRaise | backend/service_crypto_suggestions.py:129-131 | one unreadable trend sentence leaves no suggestions at all |
| CryptoSuggestions.IndicatorResults | backend/service_crypto_suggestions.py:186-199 | one step result per momentum indicator entry |
| CryptoSuggestions.AnalyseIndicator | backend/service_crypto_suggestions.py:186-199 | the dispatch analyses RSI, Volume and VWAP and skips any other name |
| CryptoSuggestions.AnalyseIndicators | backend/service_crypto_suggestions.py:186-199 | the indicator loop computes the analysed indicators |
| CryptoSuggestions.IndicatorsOfShape | backend/service_crypto_suggestions.py:186-199 | exactly one analysis per entry with a known name, and only RSI, Volume and VWAP analyses |
| CryptoSuggestions.IndicatorsOfSnoc | backend/service_crypto_suggestions.py:186-199 | the analyses of all entries are those of all but the last, then the last's |
| CryptoSuggestions.IndicatorOfShape | backend/service_crypto_suggestions.py:191-199 | one entry gives one analysis when its name is known and none otherwise |
| CryptoSuggestions.MomentumResults | backend/service_crypto_suggestions.py:174-209 | one step result per momentum entry |
| CryptoSuggestions.SuggestForMomentum | backend/service_crypto_suggestions.py:175-209 | the loop body computes an entry's momentum suggestion |
| CryptoSuggestions.FetchMomentumSuggestions | backend/service_crypto_suggestions.py:133-215 | the service computes the momentum suggestions specification |
| CryptoSuggestions.ComprehensiveResults | backend/service_crypto_suggestions.py:267-320 | one step result per allocated symbol |
| CryptoSuggestions.SuggestForAllocation | backend/service_crypto_suggestions.py:268-320 | the loop body computes one allocated symbol's suggestion |
| CryptoSuggestions.FetchComprehensiveSuggestions | backend/service_crypto_suggestions.py:217-327 | the service computes the comprehensive suggestions specification |
| CryptoSuggestions.ComprehensiveHasNoOverallTrend | backend/service_crypto_suggestions.py:267-320 | a comprehensive suggestion holds MA and momentum analyses only, never an overall trend |
| CryptoSuggestions.ComprehensiveCoversAllocation | backend/service_crypto_suggestions.py:242-320 | when nothing raises, one suggestion per allocated symbol in allocation order, none with an overall trend |
| Patterns.RunEnd | backend/service_crypto_suggestions.py:339 | a character-class run `[...]+` ends at the first character outside the class |
| Patterns.TokenEnd | backend/service_crypto_suggestions.py:339 | a number token is non-empty and stays inside the text |
| Patterns.TokenAfter | backend/service_crypto_suggestions.py:339 | the captured group lies after the keyword and is a full number token |
| Patterns.HitAt | backend/service_crypto_suggestions.py:355 | a lazy `.*?` hit captures a full number token |
| Patterns.Scan | backend/service_crypto_suggestions.py:355 | the lazy scan returns a full number token after its start |
| Patterns.AlternativeAt | backend/service_crypto_suggestions.py:355 | a keyword alternative captures a full number token |
| Patterns.MatchAt | backend/service_crypto_suggestions.py:344 | a match at a position captures a full number token at or after it |
| Patterns.SearchFrom | backend/service_crypto_suggestions.py:344 | a search captures a full number token inside the text |
| Patterns.Search | backend/service_crypto_suggestions.py:344 | `re.search` captures a full number token inside the text |
| Patterns.Capture | backend/service_crypto_suggestions.py:361 | a captured group is never empty |
| Patterns.SearchFromLeftmost | backend/service_crypto_suggestions.py:344 | a search succeeds exactly when some position matches, and returns the leftmost match |
| Patterns.SearchLeftmost | backend/service_crypto_suggestions.py:344 | `re.search` returns the match at the leftmost matching position |
| Patterns.SearchSkips | backend/service_crypto_suggestions.py:344 | positions without a match do not change the search result |
| Patterns.AlternativeNeedsKeyword | backend/service_crypto_suggestions.py:355 | without one of the keywords at a position there is no match there |
| Patterns.FirstCapture | backend/service_crypto_suggestions.py:358-363 | no capture exactly when no pattern matches; otherwise the capture of the first matching pattern |
| Patterns.FirstSome | backend/service_crypto_suggestions.py:358-363 | the first present value of a list, or none exactly when all are absent |
| Patterns.ReadNumber | backend/service_crypto_suggestions.py:361-362 | `float` of the comma-free text succeeds exactly when it parses, giving the parsed value, and otherwise raises ValueError |
| Patterns.CaptureInConcat | backend/service_crypto_suggestions.py:339-346 | with no earlier match, `re.search` captures exactly the digits, dot and digits after the keyword and its dollar sign |
| Patterns.CaptureAt | backend/service_crypto_suggestions.py:344 | `re.search` captures the group of the first position where the pattern matches |
| Patterns.MatchAfterKeyword | backend/service_crypto_suggestions.py:339 | a one-keyword pattern matches where its keyword is followed by a dollar sign and a number token |
| Patterns.ReadFirst | backend/service_crypto_suggestions.py:358-363 | no value exactly when no pattern matches; a value read is the number of the first matching pattern's capture and is non-negative; an error is that number's ValueError |
| Patterns.PointNumberParses | backend/service_asset_suggestions.py:273-275 | a capture of `\d+\.\d+` always parses, so reading the VIX value never raises |
| Patterns.PointTokenParses | backend/service_asset_suggestions.py:273-275 | the text of a `\d+\.\d+` token is a valid float literal |
| Text.LowerChar | backend/service_asset_suggestions.py:97 | ASCII capitals map to lower case and every other character is kept |
| Text.Lower | backend/service_asset_suggestions.py:97 | `.lower()` keeps the length and lowers each character |
| Text.OccursAtIgnoringCase | backend/service_crypto_suggestions.py:359 | an exact occurrence is also an occurrence ignoring case |
| Text.RemoveCommas | backend/service_crypto_suggestions.py:361 | `.replace(",", "")` leaves no comma and never lengthens the text |
| Text.RemoveCommasIdentity | backend/service_crypto_suggestions.py:361 | text without commas is unchanged |
| Text.RemoveCommasAppend | backend/service_crypto_suggestions.py:361 | comma removal distributes over concatenation |
| Text.DigitRunEnd | backend/service_crypto_suggestions.py:339 | a digit run ends at the first non-digit |
| Text.ParseFloat | backend/service_crypto_suggestions.py:348 | any number `float` accepts here is non-negative |
| Text.RemoveThousandsComma | backend/service_crypto_suggestions.py:347 | removing commas drops a thousands separator and changes nothing else |
| Text.ParseDecimal | backend/service_crypto_suggestions.py:348 | digits, a point and digits parse to whole part plus fraction |
| Text.ParseFloatDecimal | backend/service_crypto_suggestions.py:348 | a decimal literal parses to the value of its two digit runs |
| Text.ParseFloatRejects | backend/service_crypto_suggestions.py:445 | "", "." and "1.2.3" are rejected, as `float` rejects them |
| Text.ParseFloatReads | backend/service_crypto_suggestions.py:333-348 | "3371.35" reads 3371.35 and "12." reads 12 |
| Text.Join | backend/service_asset_suggestions.py:216 | `", ".join` of none, one or two names |
| Numeric.Clamp | backend/agents/tools/tool_news_sentiment_calc.py:83 | `max(lo, min(hi, x))` lies in [lo, hi], keeps x inside it and snaps to the nearer bound outside |
| Numeric.MeanBounds | backend/agents/tools/tool_news_sentiment_calc.py:99 | the mean of values within [lo, hi] lies within [lo, hi] |
| Numeric.MeanMonotone | backend/agents/tools/tool_social_media_sentiment_calc.py:129 | of two equally long lists, the one with the larger sum has the larger mean |

## Left out

- Rounding and formatting are not modelled. This covers `round(x, n)` on stored values and the f-string sentences, whose numbers and date strings are not reproduced. Classifications use the exact values; the source classifies the RSI after `round(rsi, 2)`, so a value such as 69.996 is bullish here but overbought in the source. Each explanation sentence is a datatype constructor with the parts it prints.
- Python's float arithmetic is modelled as exact real arithmetic.
- Momentum.VolumeAnalysis: it does not model the `round(volume_ratio, 2)` the source stores.
- `datetime` parsing, `now()` and date strings are not modelled. Timestamps are integers, and the time is a parameter.
- MongoDB queries are not modelled. Each is replaced by the list of documents it returns. The language-model agents and the logging are left out.
- Text.Lower: only ASCII letters are lowered; Python's full Unicode `lower()` is not modelled.
- Patterns.RunEnd: the `\d` and `\w` classes and `re.IGNORECASE` matching are ASCII only. Python's `re` also accepts other Unicode decimal digits and letters, and folds some non-ASCII letters (such as "ſ" against "s").
- Text.DigitRunEnd: only the ASCII digits 0-9 are digits; Python's `\d` and `str.isdigit` accept other Unicode decimal digits too.
- Text.ParseFloat: only ASCII digits are read. Python's `float` also reads other Unicode decimal digits, which the `\d` patterns that extract the text can match.
- Patterns.MatchAt: only the fixed expressions the services use are modelled, not a general regular-expression engine. The second close pattern, `(\w+) close price is …`, can only match where the first already has, so it is left out.
- SocialSentiment.CalculateAggregatedSentiment requires every grouped submission to carry a sentiment score. The source dereferences `sentiment_score` without a check, and the retrieval tool always sets one.
- CryptoSuggestions.MaIndicator requires a non-zero average. Its only callers pass a truthy MA value.
- CryptoSuggestions.RsiValueOf: the RSI number is read with `float` without removing commas, exactly as the source does (line 445). Its `\s*` matches the characters `str.isspace` accepts, as Python's `re` does; the digit classes are ASCII only (the `Patterns.RunEnd` and `Text.DigitRunEnd` lines).
- The `allocation_percentage`, `allocation_number` and `allocation_decimal` fields are copied by the services but never used, so they are left out. So are the `MONITOR` action constant, the `suggestion`/`note` strings and `overall_diagnosis` of the comprehensive service.
- A portfolio document without a `symbol` or `asset` key raises `KeyError` in the source, which the service catches. The model assumes the key is present.
- `.lower()` on a `diagnosis` or `fluctuation_answer` that is stored as `None` would raise. So would `re.search` on a `fluctuation_answer` stored as `None` in the crypto suggestion service (backend/service_crypto_suggestions.py lines 344, 359, 443, 494 and 552): the `TypeError` is caught there by `except Exception` and the whole result becomes `[]`. The model reads a missing text as "" and still produces suggestions.
- A `market_volatility_index` that is a non-empty dict without the expected key is modelled like the missing case.
- `calculate_social_media_sentiment_tool` imports `AssetSentiment`, which the state module does not define. It also assigns `asset_sentiments`, while the report's field is `asset_sm_sentiments`. The model gives the evidently intended behaviour: the records land in `asset_sm_sentiments` and the diagnosis in `overall_news_diagnosis`.
- The environment-variable overrides of the periods are not modelled. The defaults are used: RSI 14, volume 21, VWAP 14, MA 10/20.
- Logger warnings and the `__main__` demonstration blocks are left out.

## Findings

| source | as written | input that shows it | evidently intended | confidence | as-written member | corrected member |
|---|---|---|---|---|---|---|
| backend/service_asset_suggestions.py:463-467 | for a neutral-sensitivity asset under a LOW VIX whose trend is not UPTREND, the explanation says "Maintain current allocation". `_get_vix_action_with_trend` (lines 412-417) returns REDUCE for a DOWNTREND there | symbol "SPY" (NEUTRAL sensitivity), VIX 11.5 (LOW), diagnosis "downtrend": action REDUCE, explanation "… lacks upward momentum. Maintain current allocation." | the explanation advises reducing whenever the action is REDUCE | not executed | AssetSuggestions.RationaleAsWritten (shown by AssetSuggestions.RationaleContradictsAction) | AssetSuggestions.Rationale (used by AssetSuggestions.VixRecommendationCorrected) |
