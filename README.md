# Surge analysis core, modelled in Dafny

This project models the analysis core of the surge-analysis tools for
A-share stocks. The model has three parts:

- **The console analyzer** (`UniversalSurgeAnalyzer`). For one stock it
  finds the surge days (a daily return strictly above a threshold, 5% by
  default). It finds the volume spikes: days whose volume exceeds 2 times
  the mean of the 10 preceding days. It also computes the basic price
  statistics.
- **The batch analyzer** (`BatchSurgeAnalyzer`). It runs the console
  analyzer over a stock list and keeps one summary per analysable stock in
  its `results` field. It then builds the summary report: three top-10
  rankings, the per-industry averages ranked by average return, and three
  advice tiers of at most five stocks each.
- **The MCP server's clean analyzer and tool handlers.** The analyzer
  orders the bars by date and takes the surge days from the percentage
  changes, newest first. It counts the volume spikes against the mean of
  the whole series. On top of it sit the single-stock report, the surge
  summary with its frequency rating, the comparison of several stocks
  (best return, most surges), and the batch run over a preset or custom
  list with its two top-5 rankings and totals.

### How the model represents the system

- A market-data provider is a `map` from symbol to the bars, company facts
  and volatility it would return. A symbol missing from the map stands for
  a provider fault.
- Prices are positive reals, volumes are natural numbers, and dates are day
  numbers. Day numbers order the same way as the `YYYY-MM-DD` strings the
  source compares.
- Python's stable `sorted(..., key=k, reverse=True)` is `Ranking.SortDesc`.
  The slice `[:n]` after it is `Ranking.Top`.

### Edge cases the code handles

- **A zero average in the console analyzer.** `_analyze_volume` divides by
  the global average volume when it prints the volume ratios. It also
  divides by a trailing average of 0 on a day that passes the spike test.
  Either division raises an exception, and `analyze_stock` then returns no
  result. `UniversalAnalyzer.AnalysisAbsentExactly` states exactly when
  this happens.
- **Short series.** Both analyzers accept a single bar and report no
  surges for it.
- **Volume spikes in the server.** The server analyzer counts spikes
  against the mean of the whole series. It never fails on a series that
  traded nothing. `SurgeServer.SpikeRulesDiffer` and
  `SurgeServer.IdleSeriesHasNoSpikes` show that its count and the
  trailing-window spikes are different populations.

## Model

| member | source | states |
|---|---|---|
| Ranking.SortDesc | batch_surge_analyzer.py:94 | the stable descending sort by insertion; what it returns is stated by `SortDescIsStableSort` |
| Ranking.SortDescIsStableSort | batch_surge_analyzer.py:94 | `sorted(..., reverse=True)`: same length, a permutation of the input, keys non-increasing, and elements with equal keys keep their input order |
| Ranking.Top | batch_surge_analyzer.py:94-115 | `sorted(...)[:n]`: `min(n, len)` elements taken from the input (a sub-multiset), largest key first; no element left out has a larger key than one kept; the elements of each key are a prefix of the input's elements of that key, in input order |
| Ranking.Filter | batch_surge_analyzer.py:150 | a list comprehension with a condition: only elements that satisfy it, every such element kept, a sub-multiset of the input |
| Ranking.FilterIsComprehension | batch_surge_analyzer.py:150 | the comprehension keeps every satisfying element as often as the input holds it and no other element, and it is a subsequence of the input, so it keeps input order |
| Ranking.FirstMaxIndex | surge_analysis_mcp_server.py:483-484 | `max(results, key=...)`: the chosen element's key bounds every key, and every earlier element has a strictly smaller key, so the first maximum wins |
| Ranking.TopLeads | surge_analysis_mcp_server.py:498-506 | the first element of a non-empty top-n ranking has the largest key of all elements |
| MarketData.DailyReturnInverts | universal_surge_analyzer.py:111 | the percentage return, applied to the previous close, gives today's close; it is positive exactly when the price rose |
| MarketData.MeanVolumeScalesBack | universal_surge_analyzer.py:137 | the mean volume times the number of days is the total volume; the mean is never negative, and it is zero exactly when the total volume is zero |
| MarketData.MeanVolumeBounds | universal_surge_analyzer.py:137-139 | when anything traded, the mean volume is positive and at most the largest volume |
| MarketData.MaxVolumeIsMax | universal_surge_analyzer.py:139 | `max(volumes)`: bounds every day's volume and is some day's volume |
| MarketData.MaxCloseIsMax | universal_surge_analyzer.py:89 | `max(closes)`: bounds every close and is some day's close |
| MarketData.MinCloseIsMin | universal_surge_analyzer.py:90 | `min(closes)`: at most every close and is some day's close |
| MarketData.MaxSurgeReturnIsMax | batch_surge_analyzer.py:76 | the largest surge return: at least every surge's return and equal to one of them |
| UniversalAnalyzer.DetectedSurges | universal_surge_analyzer.py:109-118 | the surge events of days 1 to n-1 in day order; which days they are is stated by `DetectedSurgesAreTheSurgeDays` |
| UniversalAnalyzer.DetectedSurgesAreTheSurgeDays | universal_surge_analyzer.py:109-118 | a day is recorded exactly when it has a previous day and its return is strictly above the threshold; every record has a return above the threshold; there are fewer records than days |
| UniversalAnalyzer.AnalyzeSurges | universal_surge_analyzer.py:103-129 | the loop's records, sorted by return, are the ranked surge days |
| UniversalAnalyzer.SurgeListIsRankedSurgeDays | universal_surge_analyzer.py:123-124 | the surge list is a permutation of the surge days, ordered by return with the largest first, ties in day order |
| UniversalAnalyzer.TrailingAverage | universal_surge_analyzer.py:149 | the mean of the 10 preceding volumes is never negative |
| UniversalAnalyzer.TrailingAverageExcludesToday | universal_surge_analyzer.py:148-149 | changing day i's own bar never changes day i's trailing average |
| UniversalAnalyzer.ScanSpikes | universal_surge_analyzer.py:147-156 | the spikes of days 10 to n-1 in day order, or the first division by zero; stated by the three `ScanSpikes...` lemmas below |
| UniversalAnalyzer.ScanSpikesFailsAtFirstZeroWindow | universal_surge_analyzer.py:148-156 | the spike scan fails exactly when some day passes the spike test with a zero trailing average, and it reports the first such day |
| UniversalAnalyzer.ScanSpikesFailureSticks | universal_surge_analyzer.py:148-156 | once the scan has failed, scanning more days keeps the same failure |
| UniversalAnalyzer.ScanSpikesAreTheSpikeDays | universal_surge_analyzer.py:147-156 | a successful scan holds one spike for every day from index 10 on whose volume beats the multiplier times its trailing average, and only those; each ratio is above the multiplier; with 10 days or fewer there are none |
| UniversalAnalyzer.ScanVolumeSpikes | universal_surge_analyzer.py:147-156 | the loop over days 10 onward computes the spike scan, stopping at the first division by zero |
| UniversalAnalyzer.VolumeAnalysisOf | universal_surge_analyzer.py:131-169 | the mean, current and maximum volume and the ranked spikes, or a division by zero; stated by the three `VolumeAnalysis...` lemmas below |
| UniversalAnalyzer.VolumeAnalysisFailsExactly | universal_surge_analyzer.py:137-156 | the volume analysis fails exactly when nothing traded or when some spike day divides by a zero trailing average |
| UniversalAnalyzer.VolumeAnalysisMean | universal_surge_analyzer.py:137-139 | a successful analysis reports the mean and the maximum, with 0 < mean <= maximum, and the maximum bounds every day |
| UniversalAnalyzer.VolumeAnalysisSpikes | universal_surge_analyzer.py:158-160 | the reported spikes are the scanned spikes ordered by ratio, largest first, with ties in day order, each ratio above the multiplier |
| UniversalAnalyzer.AnalyzeVolume | universal_surge_analyzer.py:131-169 | the loop computes the volume analysis, including its division-by-zero failures |
| UniversalAnalyzer.BasicAnalysisFacts | universal_surge_analyzer.py:77-101 | the start and current prices are the first and last closes; the total return takes the start price to the current price; min and max bound every close and are attained |
| UniversalAnalyzer.AnalysisOf | universal_surge_analyzer.py:26-75 | the whole analysis of one symbol, or none; when it is none is stated by `AnalysisAbsentExactly` |
| UniversalAnalyzer.AnalysisAbsentExactly | universal_surge_analyzer.py:26-75 | the analysis is absent exactly on a provider fault, on an empty series, or on a division by zero in the volume analysis |
| UniversalAnalyzer.AnalyzeStock | universal_surge_analyzer.py:26-75 | the method returns the analysis: basic statistics, ranked surges, volume figures and company facts, or none |
| BatchAnalyzer.CreateSummary | batch_surge_analyzer.py:61-80 | every summary field comes from the analysis; the maximum surge is 0 without surges; industry and market cap default to "未知" |
| BatchAnalyzer.SummaryMaxSurge | batch_surge_analyzer.py:76 | with surges, the summary's maximum surge is the largest surge return: it bounds every surge's return and is one of them |
| BatchAnalyzer.SummariesAreTheAnalysableStocks | batch_surge_analyzer.py:34-50 | the summaries are exactly those of the stocks whose analysis is present, and no stock is dropped exactly when every analysis is present |
| BatchAnalyzer.SummariesOfConcatenation | batch_surge_analyzer.py:25-43 | analysing two lists in turn adds the summaries of their concatenation, because `results` is never cleared |
| BatchAnalyzer.Tier | batch_surge_analyzer.py:150-168 | a tier is a sub-multiset of the qualifying summaries, at most 5 of them, sorted by the tier's key; it holds all of them when at most 5 qualify, exactly 5 otherwise; none left out ranks above one kept; summaries with equal keys are the first ones of that key in list order |
| BatchAnalyzer.TopOfFilterIsTier | batch_surge_analyzer.py:150-168 | `sorted([s for s if p(s)], key)[:5]` meets the tier property |
| BatchAnalyzer.InIndustryMembers | batch_surge_analyzer.py:118-132 | every member of an industry group has that industry and is a summary of the list, and there are no more members than summaries |
| BatchAnalyzer.InIndustryIsTheIndustrysSummaries | batch_surge_analyzer.py:118-132 | an industry group holds each summary of that industry as often as the list does, and no other, and it is a subsequence of the list, so in list order |
| BatchAnalyzer.IndustryOrderFacts | batch_surge_analyzer.py:118-127 | the industry keys are distinct, are exactly the summaries' industries, and are in first-seen order: wherever a key's industry appears in the list, every earlier key's industry has appeared before that position |
| BatchAnalyzer.GroupAverages | batch_surge_analyzer.py:135-138 | the group averages times the count give back the summed returns and surge counts |
| BatchAnalyzer.IndustryTable | batch_surge_analyzer.py:118-138 | one row per industry in first-seen order, each the averaged statistics of its non-empty group |
| BatchAnalyzer.IndustryTableCoversResults | batch_surge_analyzer.py:118-132 | the rows have distinct industries, every summary's industry has a row, and every row counts at least one stock |
| BatchAnalyzer.IndustryRowsListTheirStocks | batch_surge_analyzer.py:118-132 | every summary's name is listed by the row of its industry; no two rows share an industry, so that row is the only one; every name a row lists is the name of a summary of that industry; a row lists one name per stock it counts |
| BatchAnalyzer.IndustryCountsAddUp | batch_surge_analyzer.py:129 | the industry counts add up to the number of summaries |
| BatchAnalyzer.IndustryRanking | batch_surge_analyzer.py:142 | the industry rows sorted by average return: a permutation of the table, largest average first, ties in table order |
| BatchAnalyzer.AccumulateStep | batch_surge_analyzer.py:119-132 | adding one summary to its industry's row (a new row if the industry is unseen) turns the totals of a prefix into the totals of the prefix one longer |
| BatchAnalyzer.AccumulateIndustries | batch_surge_analyzer.py:118-132 | the `+=` loop leaves one row per industry in first-seen order, holding the count, the summed returns and surge counts, and the member names |
| BatchAnalyzer.AverageIndustries | batch_surge_analyzer.py:134-138 | the `/=` loop turns those sums into the industry table |
| BatchAnalyzer.AggregateIndustries | batch_surge_analyzer.py:118-138 | the two loops, `+=` into the dictionary and then `/=` by the count, produce the industry table |
| BatchAnalyzer.ReportOf | batch_surge_analyzer.py:82-168 | no report without summaries; otherwise each of the three rankings meets the top-10 property of `Top` (largest first, nothing left out ranks higher, ties in list order), the industry ranking is a stable descending sort of the industry table, and each advice list meets the tier property of `Tier` |
| BatchAnalyzer.BatchSurgeAnalyzer.constructor | batch_surge_analyzer.py:23-25 | a new batch analyzer holds no summaries |
| BatchAnalyzer.BatchSurgeAnalyzer.AnalyzeStockList | batch_surge_analyzer.py:27-59 | `results` grows by the summaries of the analysable stocks, in list order; the method returns all results and the summary report of them |
| BatchAnalyzer.BatchSurgeAnalyzer.GenerateSummaryReport | batch_surge_analyzer.py:82-168 | the method builds the summary report of the held results |
| SurgeServer.ByDate | surge_analysis_mcp_server.py:71-72 | `sort_values('日期')`: the bars ordered by date; stated by `ByDateOrders` |
| SurgeServer.ByDateOrders | surge_analysis_mcp_server.py:71-72 | the bars are reordered, not changed, with dates non-decreasing |
| SurgeServer.PctChangeIsDailyReturn | surge_analysis_mcp_server.py:73 | `pct_change() * 100` equals the console analyzer's daily return |
| SurgeServer.SurgeRecords | surge_analysis_mcp_server.py:85-93 | the `iterrows` loop records exactly the surge days of the date-ordered bars |
| SurgeServer.ServerAnalysisOf | surge_analysis_mcp_server.py:52-129 | the server analysis of one symbol, or none; stated by `ServerAnalysisAbsentExactly` and the lemmas after it |
| SurgeServer.ServerAnalysisAbsentExactly | surge_analysis_mcp_server.py:52-129 | the analysis is absent exactly when the provider fails or returns no bars, and its surge list is the surge days of the date-ordered bars, newest first |
| SurgeServer.ServerSurgesAreTheSurgeDays | surge_analysis_mcp_server.py:85-96 | the surge list is a permutation of the surge days: it holds every day whose change beats the threshold, only such days, and fewer entries than days |
| SurgeServer.SurgesNewestFirst | surge_analysis_mcp_server.py:96 | the surge list is in non-increasing date order, so `surges[0]`, shown as "Recent Surge" (lines 442-446), has the latest date of all surges |
| SurgeServer.FewerSurgesAboveHigherThreshold | surge_analysis_mcp_server.py:85 | a higher threshold never finds more surge days |
| SurgeServer.GlobalSpikeCount | surge_analysis_mcp_server.py:99-105 | the number of days above the multiplier times the whole-series mean; stated by the lemmas below |
| SurgeServer.CountAboveExtremes | surge_analysis_mcp_server.py:100 | the spike count is 0 exactly when no day is above the level, and it equals the number of days exactly when all are |
| SurgeServer.GlobalSpikesLeaveADay | surge_analysis_mcp_server.py:99-105 | with a multiplier of at least 1, there are fewer spikes than days |
| SurgeServer.IdleSeriesHasNoSpikes | surge_analysis_mcp_server.py:99-105 | a series that traded nothing has 0 spikes here, while the console analyzer's volume analysis fails on it |
| SurgeServer.SpikeRulesDiffer | surge_analysis_mcp_server.py:99-105 | on ten days of volume 1 followed by volumes 3 and 100, day 10 beats twice its trailing average but not twice the global mean: the trailing-window rule finds two spikes and the global-mean rule counts one |
| SurgeServer.ServerStatsFacts | surge_analysis_mcp_server.py:76-82 | the current price is the last close; the total return takes the first close to it; min and max bound every close and are attained |
| SurgeServer.VolumeStatsFacts | surge_analysis_mcp_server.py:99-106 | `int(mean)` is the floor of the mean, between 0 and the maximum; the maximum bounds every volume and is attained; spikes are at most the days |
| SurgeServer.CleanSurgeAnalyzer.constructor | surge_analysis_mcp_server.py:48-50 | the default thresholds are 5.0 and 2.0 |
| SurgeServer.CleanSurgeAnalyzer.AnalyzeStock | surge_analysis_mcp_server.py:52-129 | the method computes the server analysis at the analyzer's current thresholds |
| SurgeServer.HighlightsHoldTheMaximum | surge_analysis_mcp_server.py:409-412 | highlights exist exactly when there are surges; "Max Surge" bounds every surge return and is attained; "Recent Surge" is the first listed surge |
| SurgeServer.SingleReportOf | surge_analysis_mcp_server.py:259-281 | the single-stock report or its error; stated by `SingleReportOutcomes` |
| SurgeServer.SingleReportOutcomes | surge_analysis_mcp_server.py:259-281 | a single-stock report fails exactly without a symbol, on a provider fault or on an empty series; its recent surge is the newest |
| SurgeServer.AnalyzeSingleStock | surge_analysis_mcp_server.py:259-281 | the handler returns the single-stock report |
| SurgeServer.SurgeRating | surge_analysis_mcp_server.py:449-457 | the frequency rating of a surge count; stated by `SurgeRatingBands` and `SurgeRatingMonotone` |
| SurgeServer.SurgeRatingBands | surge_analysis_mcp_server.py:449-457 | the rating's rank is the number of the bounds 2, 5 and 10 that the surge count reaches |
| SurgeServer.SurgeRatingMonotone | surge_analysis_mcp_server.py:449-457 | more surges never lower the rating |
| SurgeServer.SurgeSummaryOf | surge_analysis_mcp_server.py:284-308 | the surge summary at the caller's threshold, 5.0 when none is given; stated by `SurgeSummaryRatingFallsWithThreshold` and `GetSurgeSummary` |
| SurgeServer.SurgeSummaryRatingFallsWithThreshold | surge_analysis_mcp_server.py:284-308 | the summary counts the surge days at the caller's threshold; a higher threshold never raises the count or the rating |
| SurgeServer.GetSurgeSummary | surge_analysis_mcp_server.py:284-308 | the handler overwrites the analyzer's surge threshold with the caller's, or with 5.0 when none is given, and returns the summary at that threshold, which the summary reports |
| SurgeServer.ComparisonOf | surge_analysis_mcp_server.py:311-341 | the comparison or its error; stated by `ComparisonOutcomes`, `ComparisonListsTheAnalysable` and `ComparisonLeaders` |
| SurgeServer.EntriesAreTheAnalysable | surge_analysis_mcp_server.py:323-330 | the compared entries are exactly the analysable stocks' entries: each comes from a requested stock, every analysable stock has one, all are kept exactly when all are analysable, none exactly when none is |
| SurgeServer.ComparisonOutcomes | surge_analysis_mcp_server.py:311-341 | fewer than 2 stocks is an error, and only then; the data are insufficient exactly when 2 or more stocks are asked for and fewer than 2 are analysable; otherwise the comparison succeeds and lists the analysable stocks' entries in input order, all of the stocks when all are analysable |
| SurgeServer.ComparisonListsTheAnalysable | surge_analysis_mcp_server.py:323-330 | a successful comparison lists every analysable stock's entry, and every listed entry is an analysed requested stock |
| SurgeServer.ComparisonLeaders | surge_analysis_mcp_server.py:482-484 | the best performer has the largest total return and the most-surging entry the largest surge count; an earlier entry wins a tie |
| SurgeServer.CompareStocks | surge_analysis_mcp_server.py:311-341 | the handler's loop and checks compute the comparison |
| SurgeServer.SelectStockList | surge_analysis_mcp_server.py:350-360 | the preset or custom list, or its error; stated by `SelectionOutcomes` |
| SurgeServer.SelectionOutcomes | surge_analysis_mcp_server.py:350-360 | only "popular", "tech" and "custom" with a non-empty list select a list; a selected list is never empty; any other preset is invalid |
| SurgeServer.BatchStatsOf | surge_analysis_mcp_server.py:509-512 | the statistics of the batch rows; stated by `BatchAverages` and `AverageReturnBounded` |
| SurgeServer.FormatBatch | surge_analysis_mcp_server.py:492-518 | the two top-5 rankings and the statistics; stated by `BatchLeaders` and `BatchAverages` |
| SurgeServer.BatchLeaders | surge_analysis_mcp_server.py:497-506 | each ranking meets the top-5 property of `Top` for its key (at most 5 rows, largest first, no row left out ranks higher, ties in row order); its first row has the most surges, or the best return, of all rows |
| SurgeServer.BatchAverages | surge_analysis_mcp_server.py:509-518 | the statistics count every row and every surge, and both averages times the row count give back the totals |
| SurgeServer.AverageReturnBounded | surge_analysis_mcp_server.py:511 | the average return lies within any bounds that hold for every row's return |
| SurgeServer.BatchAnalysisOf | surge_analysis_mcp_server.py:344-386 | the batch report or its error; stated by `BatchOutcomes` |
| SurgeServer.BatchOutcomes | surge_analysis_mcp_server.py:362-378 | a batch over a selected list fails exactly when no stock in it is analysable; its rows are exactly the analysable stocks' rows |
| SurgeServer.RowsAreTheAnalysable | surge_analysis_mcp_server.py:366-378 | the batch rows are exactly the analysable stocks' rows, and there are none exactly when no stock can be analysed |
| SurgeServer.AnalyzeRows | surge_analysis_mcp_server.py:362-374 | the handler's loop appends one row per analysable stock, in list order |
| SurgeServer.BatchAnalyzeStocks | surge_analysis_mcp_server.py:344-386 | the handler's selection, loop and checks compute the batch report |

## Left out

- **Network access** to the market-data provider (`ak.stock_zh_a_hist`,
  `ak.stock_individual_info_em`) is left out. It becomes the `market`
  parameter. The `days` look-back window, the date arithmetic and the date
  parsing are therefore not modelled.
- **Volatility**, the standard deviation of the percentage changes, is not
  computed. It is an opaque real supplied with each quote, because it needs
  a floating-point square root.
- **Company facts** are taken as a finished map. The stripping of keys and
  values and the dropping of `nan` entries are not modelled.
- **Floating point.** Arithmetic is exact real arithmetic: no rounding and
  no NaN. The undefined first `pct_change` value is modelled by never
  counting day 0 as a surge, which is what the `> threshold` test does with
  NaN.
- **Duplicate dates.** `sort_values` on the dates is modelled as a stable
  sort. pandas does not promise stability, so only the relative order of
  bars with the same date could differ.
- **Output.** Printing, the report text, number formatting, the first-five
  company items, `asyncio.sleep`, `save_results`, `main` and the MCP tool
  registration and dispatch are left out. They only format or schedule
  work.
- `_create_summary`'s `analysis_time` field is left out, because it reads
  the clock.
- **Input types.** Two handlers unpack each entry of a stock list as a
  (symbol, name) pair inside their `try`: the batch handler's custom
  list, and `_compare_stocks`' `for symbol, name in stocks`
  (surge_analysis_mcp_server.py:319-341). An entry that is not a pair
  raises there, so the batch handler ends in "Batch analysis failed: …"
  (surge_analysis_mcp_server.py:366-387) and the comparison in
  "Comparison failed: …". This cannot occur in the model,
  because both lists are typed as pairs.
- **Missing symbol.** A missing `symbol` argument is modelled as the empty
  string.
- `BatchAnalyzer.BatchSurgeAnalyzer.AnalyzeStockList` and
  `BatchAnalyzer.BatchSurgeAnalyzer.GenerateSummaryReport` return the
  summary report as a value. The source only prints it.
- BatchAnalyzer.BatchSurgeAnalyzer.AnalyzeStockList returns a copy of
  `results`, because Dafny sequences are values. The source returns the
  list object itself (`return self.results`), so later appends through
  either name are visible through the other. The model does not capture
  that aliasing.
- `universal_surge_analyzer.py` `_generate_report` and the other
  repository files (`config.py`, `future_value_dexin.py`, the install and
  quick-start scripts, the tests) are not part of this model.
