/**
 * The MCP server's clean analyzer and the logic of its tool handlers: the
 * per-security analysis (bars ordered by date, surges by percentage change,
 * newest first, a volume-spike count against the global mean), the surge
 * rating, the preset stock lists, and the collection, comparison and
 * ranking of several analyses.
 */
module SurgeServer {
  import opened Wrappers
  import opened Ranking
  import opened MarketData
  import opened UniversalAnalyzer

  /** How many entries a batch report lists per ranking. */
  const ShownLength: nat := 5

  datatype ServerStats = ServerStats(
    currentPrice: Price, totalReturn: real, volatility: real, minPrice: Price, maxPrice: Price)

  /** The volume figures: `int(mean)`, `int(max)` and the number of spike days. */
  datatype VolumeStats = VolumeStats(avgVolume: int, maxVolume: nat, spikes: nat)

  datatype ServerAnalysis = ServerAnalysis(
    basic: ServerStats, surges: seq<SurgeEvent>, volume: VolumeStats, company: map<string, string>)

  /** The texts the tool handlers answer with instead of a report. */
  datatype HandlerError =
    | MissingSymbol          // "Error: Missing stock symbol"
    | NoData(symbol: string) // "Failed to get data for stock {symbol}"
    | TooFewStocks           // "Error: Need at least 2 stocks for comparison"
    | InsufficientData       // "Comparison failed: Insufficient valid data"
    | MissingCustomList      // "Error: Custom mode requires stock list"
    | InvalidPreset          // "Error: Invalid preset type"
    | BatchFailed            // "Batch analysis failed"

  // ---------------------------------------------------------------------------
  // Ordering by date and percentage changes

  function EarliestFirstKey(b: Bar): real { -(b.date as real) }

  function DateKey(e: SurgeEvent): real { e.date as real }

  /** `sort_values('日期')`: the same bars, earliest date first. */
  function ByDate(bars: seq<Bar>): seq<Bar> {
    SortDesc(bars, EarliestFirstKey)
  }

  /** Ordering by date reorders the bars without changing them, dates non-decreasing. */
  lemma ByDateOrders(bars: seq<Bar>)
    ensures |ByDate(bars)| == |bars| && multiset(ByDate(bars)) == multiset(bars)
    ensures forall i, j :: 0 <= i < j < |ByDate(bars)| ==> ByDate(bars)[i].date <= ByDate(bars)[j].date
  {
    var r := ByDate(bars);
    SortDescIsStableSort(bars, EarliestFirstKey);
    assert forall i, j :: 0 <= i < j < |r| ==> EarliestFirstKey(r[i]) >= EarliestFirstKey(r[j]);
  }

  /** `pct_change() * 100` at one day: the same percentage as the console tool's daily return. */
  function PctChange(prev: Price, today: Price): real {
    (today / prev - 1.0) * 100.0
  }

  /** `pct_change() * 100` is the console analyzer's daily return. */
  lemma PctChangeIsDailyReturn(prev: Price, today: Price)
    ensures PctChange(prev, today) == DailyReturn(prev, today)
  {
    assert prev / prev == 1.0;
    assert (today - prev) / prev == today / prev - prev / prev;
  }

  // ---------------------------------------------------------------------------
  // Volume spikes against the mean of the whole series

  /** The number of days among `0 .. n - 1` whose volume is strictly above `level`. */
  function CountAbove(bars: seq<Bar>, level: real, n: nat): (c: nat)
    requires n <= |bars|
    ensures c <= n
  {
    if n == 0 then 0
    else CountAbove(bars, level, n - 1) + (if bars[n - 1].volume as real > level then 1 else 0)
  }

  /** `len(hist_df[volumes > volumes.mean() * threshold])`. */
  function GlobalSpikeCount(bars: seq<Bar>, threshold: real): nat
    requires |bars| > 0
  {
    CountAbove(bars, MeanVolume(bars) * threshold, |bars|)
  }

  /** No day counts exactly when no day is above the level; every day counts exactly when all are. */
  lemma {:induction false} CountAboveExtremes(bars: seq<Bar>, level: real, n: nat)
    requires n <= |bars|
    ensures CountAbove(bars, level, n) == 0 <==> forall i :: 0 <= i < n ==> bars[i].volume as real <= level
    ensures CountAbove(bars, level, n) == n <==> forall i :: 0 <= i < n ==> bars[i].volume as real > level
  {
    if n > 0 {
      CountAboveExtremes(bars, level, n - 1);
    }
  }

  /** A day at or below the level keeps the count below the number of days. */
  lemma {:induction false} CountAboveMisses(bars: seq<Bar>, level: real, n: nat, i: nat)
    requires i < n <= |bars|
    requires bars[i].volume as real <= level
    ensures CountAbove(bars, level, n) < n
  {
    if i < n - 1 {
      CountAboveMisses(bars, level, n - 1, i);
    }
  }

  lemma AtMostMean(v: nat, n: nat, sum: nat, mean: real)
    requires n >= 1 && v * n <= sum && mean == sum as real / n as real
    ensures v as real <= mean
  {
    assert (v * n) as real == v as real * n as real;
    assert v as real * n as real <= sum as real;
  }

  lemma ScaledUp(mean: real, threshold: real)
    requires mean >= 0.0 && threshold >= 1.0
    ensures mean <= mean * threshold
  {
    assert mean * threshold - mean == mean * (threshold - 1.0);
  }

  /** A day at or below the average volume is at or below any multiple of at least 1 of it. */
  lemma AtMostLevel(v: nat, n: nat, sum: nat, mean: real, threshold: real, level: real)
    requires n >= 1 && v * n <= sum && mean == sum as real / n as real
    requires threshold >= 1.0 && level == mean * threshold
    ensures v as real <= level
  {
    AtMostMean(v, n, sum, mean);
    ScaledUp(mean, threshold);
  }

  /** With a multiplier of at least 1, some day is never a spike: there are fewer spikes than days. */
  lemma GlobalSpikesLeaveADay(bars: seq<Bar>, threshold: real)
    requires |bars| > 0 && threshold >= 1.0
    ensures GlobalSpikeCount(bars, threshold) < |bars|
  {
    SomeDayAtMostAverage(bars);
    var i :| 0 <= i < |bars| && bars[i].volume * |bars| <= SumVolumes(bars);
    var level := MeanVolume(bars) * threshold;
    AtMostLevel(bars[i].volume, |bars|, SumVolumes(bars), MeanVolume(bars), threshold, level);
    CountAboveMisses(bars, level, |bars|, i);
  }

  lemma {:induction false} ZeroSumZeroVolumes(bars: seq<Bar>)
    requires SumVolumes(bars) == 0
    ensures forall i :: 0 <= i < |bars| ==> bars[i].volume == 0
  {
    if bars != [] {
      var front := bars[..|bars| - 1];
      ZeroSumZeroVolumes(front);
      assert forall i :: 0 <= i < |front| ==> front[i] == bars[i];
    }
  }

  /**
   * A series that traded nothing has no spikes and is still analysed; the
   * console tool's volume analysis ends in a division by zero on it.
   */
  lemma IdleSeriesHasNoSpikes(bars: seq<Bar>, threshold: real)
    requires |bars| > 0 && SumVolumes(bars) == 0
    ensures GlobalSpikeCount(bars, threshold) == 0
    ensures VolumeAnalysisOf(bars, threshold).Failure?
  {
    ZeroSumZeroVolumes(bars);
    CountAboveExtremes(bars, MeanVolume(bars) * threshold, |bars|);
  }

  /** A run of days that each traded `v` trades `v` times its length. */
  lemma {:induction false} SumOfEqualVolumes(bars: seq<Bar>, v: nat)
    requires forall i :: 0 <= i < |bars| ==> bars[i].volume == v
    ensures SumVolumes(bars) == |bars| * v
  {
    if bars != [] {
      SumOfEqualVolumes(bars[..|bars| - 1], v);
    }
  }

  /** Ten quiet days of volume 1, then volumes 3 and 100. */
  function RulesWitness(): seq<Bar> {
    seq(10, (i: nat) => Bar(i, 1.0, 1)) + [Bar(10, 1.0, 3), Bar(11, 1.0, 100)]
  }

  /** The volume sums of the witness: its total and the windows before days 10 and 11. */
  lemma RulesWitnessVolumes()
    ensures SumVolumes(RulesWitness()) == 113
    ensures TrailingAverage(RulesWitness(), 10) == 1.0
    ensures TrailingAverage(RulesWitness(), 11) == 1.2
  {
    var bars := RulesWitness();
    var quiet := bars[..10];
    assert forall i :: 0 <= i < 10 ==> bars[i].volume == 1;
    SumOfEqualVolumes(quiet, 1);
    SumOfEqualVolumes(bars[1..10], 1);
    assert bars[10 - SpikeWindow .. 10] == quiet;
    assert bars[11 - SpikeWindow .. 11][..9] == bars[1..10];
    assert bars[..11][..10] == quiet && bars[..12][..11] == bars[..11] && bars[..12] == bars;
    assert SumVolumes(bars[..11]) == 13;
  }

  /** Day 10 of the witness is the first trailing-window spike. */
  lemma RulesWitnessFirstSpike()
    ensures ExceedsTrailing(RulesWitness(), DefaultVolumeThreshold, 10)
    ensures TrailingAverage(RulesWitness(), 10) > 0.0
    ensures ScanSpikes(RulesWitness(), DefaultVolumeThreshold, 11) == Success([SpikeAt(RulesWitness(), 10)])
  {
    var bars := RulesWitness();
    RulesWitnessVolumes();
    ScanSpikesNext(bars, DefaultVolumeThreshold, 10, []);
    assert [] + [SpikeAt(bars, 10)] == [SpikeAt(bars, 10)];
  }

  /** Days 10 and 11 of the witness are its trailing-window spikes. */
  lemma RulesWitnessSpikes()
    ensures ScanSpikes(RulesWitness(), DefaultVolumeThreshold, 12).Success?
    ensures |ScanSpikes(RulesWitness(), DefaultVolumeThreshold, 12).value| == 2
  {
    var bars := RulesWitness();
    RulesWitnessVolumes();
    RulesWitnessFirstSpike();
    assert ExceedsTrailing(bars, DefaultVolumeThreshold, 11);
    ScanSpikesNext(bars, DefaultVolumeThreshold, 11, [SpikeAt(bars, 10)]);
  }

  /** The console tool's volume analysis of the witness succeeds and reports both spikes. */
  lemma RulesWitnessScan()
    ensures VolumeAnalysisOf(RulesWitness(), DefaultVolumeThreshold).Success?
    ensures |VolumeAnalysisOf(RulesWitness(), DefaultVolumeThreshold).value.spikes| == 2
  {
    var bars := RulesWitness();
    RulesWitnessVolumes();
    RulesWitnessSpikes();
    SortDescIsStableSort(ScanSpikes(bars, DefaultVolumeThreshold, 12).value, RatioKey);
  }

  /** Only day 11 of the witness is above twice the global mean. */
  lemma RulesWitnessGlobal()
    ensures RulesWitness()[10].volume as real <= MeanVolume(RulesWitness()) * DefaultVolumeThreshold
    ensures GlobalSpikeCount(RulesWitness(), DefaultVolumeThreshold) == 1
  {
    var bars := RulesWitness();
    RulesWitnessVolumes();
    var level := MeanVolume(bars) * DefaultVolumeThreshold;
    assert level == 226.0 / 12.0;
    assert forall i :: 0 <= i < 11 ==> bars[i].volume <= 3;
    CountAboveExtremes(bars, level, 11);
  }

  /**
   * The two spike rules count different days on a series long enough for
   * both: on ten days of volume 1 followed by volumes 3 and 100, day 10
   * beats twice its trailing average (3 > 2 * 1) but not twice the global
   * mean (3 <= 2 * 113 / 12), so the trailing-window rule finds two spikes
   * and the global-mean rule counts one.
   */
  lemma SpikeRulesDiffer()
    ensures var bars := RulesWitness();
      && ExceedsTrailing(bars, DefaultVolumeThreshold, 10)
      && bars[10].volume as real <= MeanVolume(bars) * DefaultVolumeThreshold
      && GlobalSpikeCount(bars, DefaultVolumeThreshold) == 1
      && VolumeAnalysisOf(bars, DefaultVolumeThreshold).Success?
      && |VolumeAnalysisOf(bars, DefaultVolumeThreshold).value.spikes| == 2
  {
    RulesWitnessFirstSpike();
    RulesWitnessScan();
    RulesWitnessGlobal();
  }

  // ---------------------------------------------------------------------------
  // The analysis of one security

  /** `basic_stats` over the bars in date order. */
  function ServerStatsOf(bars: seq<Bar>, volatility: real): ServerStats
    requires |bars| > 0
  {
    var first, last := bars[0].close, bars[|bars| - 1].close;
    ServerStats(last, PctChange(first, last), volatility, MinClose(bars), MaxClose(bars))
  }

  /**
   * The current price is the last close, the total return takes the first
   * close to it, and the price range is attained and bounds every close.
   */
  lemma ServerStatsFacts(bars: seq<Bar>, volatility: real)
    requires |bars| > 0
    ensures var s := ServerStatsOf(bars, volatility);
      && s.currentPrice == bars[|bars| - 1].close
      && bars[0].close * (1.0 + s.totalReturn / 100.0) == s.currentPrice
      && (s.totalReturn > 0.0 <==> s.currentPrice > bars[0].close)
      && (forall i :: 0 <= i < |bars| ==> s.minPrice <= bars[i].close <= s.maxPrice)
      && (exists i :: 0 <= i < |bars| && bars[i].close == s.minPrice)
      && (exists i :: 0 <= i < |bars| && bars[i].close == s.maxPrice)
      && s.volatility == volatility
  {
    var first, last := bars[0].close, bars[|bars| - 1].close;
    PctChangeIsDailyReturn(first, last);
    DailyReturnInverts(first, last);
    MinCloseIsMin(bars);
    MaxCloseIsMax(bars);
  }

  /** `volume_stats`: the truncated mean, the maximum and the spike count. */
  function VolumeStatsOf(bars: seq<Bar>, threshold: real): VolumeStats
    requires |bars| > 0
  {
    VolumeStats(MeanVolume(bars).Floor, MaxVolume(bars), GlobalSpikeCount(bars, threshold))
  }

  /**
   * `int(mean)` is the floor of the mean, between 0 and the maximum; the
   * maximum bounds every day and is attained; there are at most as many
   * spikes as days.
   */
  lemma VolumeStatsFacts(bars: seq<Bar>, threshold: real)
    requires |bars| > 0
    ensures var v := VolumeStatsOf(bars, threshold);
      && 0 <= v.avgVolume <= v.maxVolume
      && v.avgVolume as real <= MeanVolume(bars) < v.avgVolume as real + 1.0
      && (forall i :: 0 <= i < |bars| ==> bars[i].volume <= v.maxVolume)
      && (exists i :: 0 <= i < |bars| && bars[i].volume == v.maxVolume)
      && v.spikes <= |bars|
  {
    MeanVolumeAtMostMax(bars);
    MaxVolumeIsMax(bars);
  }

  /** `sorted(surges, key=date, reverse=True)` over the surge days of the date-ordered bars. */
  function NewestFirst(bars: seq<Bar>, threshold: real): seq<SurgeEvent> {
    SortDesc(DetectedSurges(bars, threshold, |bars|), DateKey)
  }

  /**
   * `CleanSurgeAnalyzer.analyze_stock`: absent when the provider fails or
   * has no bars; otherwise the statistics of the bars in date order, the
   * surge days newest first, the volume figures and the company facts.
   */
  function ServerAnalysisOf(market: Market, symbol: string, surgeThreshold: real, volumeThreshold: real): Option<ServerAnalysis> {
    if symbol !in market || |market[symbol].bars| == 0 then None
    else
      var quote := market[symbol];
      var bars := ByDate(quote.bars);
      Some(ServerAnalysis(
        ServerStatsOf(bars, quote.volatility),
        NewestFirst(bars, surgeThreshold),
        VolumeStatsOf(bars, volumeThreshold),
        quote.company))
  }

  /** Unlike the console tool's, this analysis is absent only on a provider fault or an empty series. */
  lemma ServerAnalysisAbsentExactly(market: Market, symbol: string, surgeThreshold: real, volumeThreshold: real)
    ensures ServerAnalysisOf(market, symbol, surgeThreshold, volumeThreshold).None? <==>
              symbol !in market || |market[symbol].bars| == 0
    ensures ServerAnalysisOf(market, symbol, surgeThreshold, volumeThreshold).Some? ==>
              ServerAnalysisOf(market, symbol, surgeThreshold, volumeThreshold).value.surges
                == NewestFirst(ByDate(market[symbol].bars), surgeThreshold)
  {
  }

  /**
   * The surge list holds exactly the days whose change beats the threshold,
   * each with a change above it, and fewer surges than days.
   */
  lemma ServerSurgesAreTheSurgeDays(bars: seq<Bar>, threshold: real)
    requires |bars| > 0
    ensures var surges := NewestFirst(bars, threshold);
      && multiset(surges) == multiset(DetectedSurges(bars, threshold, |bars|))
      && |surges| < |bars|
      && (forall i :: 1 <= i < |bars| && ReturnAt(bars, i) > threshold ==> SurgeAt(bars, i) in surges)
      && (forall e :: e in surges ==> e.returnPct > threshold)
      && (forall e :: e in surges ==> exists i :: 1 <= i < |bars| && ReturnAt(bars, i) > threshold && e == SurgeAt(bars, i))
  {
    var found := DetectedSurges(bars, threshold, |bars|);
    var surges := NewestFirst(bars, threshold);
    SortDescIsStableSort(found, DateKey);
    DetectedSurgesAreTheSurgeDays(bars, threshold, |bars|);
    forall i | 1 <= i < |bars| && ReturnAt(bars, i) > threshold ensures SurgeAt(bars, i) in surges {
      assert SurgeAt(bars, i) in multiset(found);
    }
    forall e | e in surges
      ensures e.returnPct > threshold
      ensures exists i :: 1 <= i < |bars| && ReturnAt(bars, i) > threshold && e == SurgeAt(bars, i)
    {
      assert e in multiset(surges);
      assert e in found;
    }
  }

  /** The surge list is newest first, so `surges[0]`, shown as "Recent Surge", has the latest date. */
  lemma SurgesNewestFirst(bars: seq<Bar>, threshold: real)
    ensures var surges := NewestFirst(bars, threshold);
      && (forall i, j :: 0 <= i < j < |surges| ==> surges[i].date >= surges[j].date)
      && (surges != [] ==> forall e :: e in surges ==> e.date <= surges[0].date)
  {
    var surges := NewestFirst(bars, threshold);
    SortDescIsStableSort(DetectedSurges(bars, threshold, |bars|), DateKey);
    assert forall i, j :: 0 <= i < j < |surges| ==> DateKey(surges[i]) >= DateKey(surges[j]);
  }

  /** A higher surge threshold never finds more surge days. */
  lemma {:induction false} FewerSurgesAboveHigherThreshold(bars: seq<Bar>, low: real, high: real, n: nat)
    requires low <= high && n <= |bars|
    ensures |DetectedSurges(bars, high, n)| <= |DetectedSurges(bars, low, n)|
  {
    if n > 1 {
      FewerSurgesAboveHigherThreshold(bars, low, high, n - 1);
    }
  }

  /**
   * The `iterrows` loop over the rows whose change beats the threshold: one
   * record per surge day of the date-ordered bars, in date order.
   */
  method SurgeRecords(bars: seq<Bar>, threshold: real) returns (surges: seq<SurgeEvent>)
    requires |bars| > 0
    ensures surges == DetectedSurges(bars, threshold, |bars|)
  {
    surges := [];
    var i := 1;
    while i < |bars|
      invariant 1 <= i <= |bars|
      invariant surges == DetectedSurges(bars, threshold, i)
    {
      var change := PctChange(bars[i - 1].close, bars[i].close);
      PctChangeIsDailyReturn(bars[i - 1].close, bars[i].close);
      if change > threshold {
        surges := surges + [SurgeEvent(bars[i].date, change, bars[i].close, bars[i].volume)];
      }
      i := i + 1;
    }
  }

  /** The clean analyzer: two thresholds, which a handler may overwrite before analysing. */
  class CleanSurgeAnalyzer {
    var surgeThreshold: real
    var volumeThreshold: real

    constructor()
      ensures surgeThreshold == DefaultSurgeThreshold && volumeThreshold == DefaultVolumeThreshold
    {
      surgeThreshold := DefaultSurgeThreshold;
      volumeThreshold := DefaultVolumeThreshold;
    }

    /** `analyze_stock` with the provider's answer for `symbol` taken from `market`. */
    method AnalyzeStock(market: Market, symbol: string) returns (r: Option<ServerAnalysis>)
      ensures r == ServerAnalysisOf(market, symbol, surgeThreshold, volumeThreshold)
    {
      if symbol !in market || |market[symbol].bars| == 0 {
        return None;
      }
      var quote := market[symbol];
      var bars := ByDate(quote.bars);
      var basic := ServerStatsOf(bars, quote.volatility);
      var surges := SurgeRecords(bars, surgeThreshold);
      surges := SortDesc(surges, DateKey);
      var volume := VolumeStatsOf(bars, volumeThreshold);
      r := Some(ServerAnalysis(basic, surges, volume, quote.company));
    }
  }

  // ---------------------------------------------------------------------------
  // Single-security reports

  /** The largest surge and the first-listed (most recent) one. */
  datatype Highlights = Highlights(maxSurge: real, recent: SurgeEvent)

  /** `max(s['return'] for s in surges)` and `surges[0]`, shown only when there are surges. */
  function HighlightsOf(surges: seq<SurgeEvent>): Option<Highlights> {
    if surges == [] then None else Some(Highlights(MaxSurgeReturn(surges), surges[0]))
  }

  /** Highlights exist exactly when there are surges; the maximum is one surge's return and bounds all. */
  lemma HighlightsHoldTheMaximum(surges: seq<SurgeEvent>)
    ensures var h := HighlightsOf(surges);
      && (h.None? <==> surges == [])
      && (h.Some? ==> h.value.recent == surges[0])
      && (h.Some? ==> forall e :: e in surges ==> e.returnPct <= h.value.maxSurge)
      && (h.Some? ==> exists e :: e in surges && e.returnPct == h.value.maxSurge)
  {
    if surges != [] {
      MaxSurgeReturnIsMax(surges);
    }
  }

  datatype SingleReport = SingleReport(analysis: ServerAnalysis, highlights: Option<Highlights>)

  /** `_analyze_single_stock`: the analysis at the default thresholds and its highlights. */
  function SingleReportOf(market: Market, symbol: string): Result<SingleReport, HandlerError> {
    if symbol == "" then Failure(MissingSymbol)
    else
      match ServerAnalysisOf(market, symbol, DefaultSurgeThreshold, DefaultVolumeThreshold)
      case None => Failure(NoData(symbol))
      case Some(a) => Success(SingleReport(a, HighlightsOf(a.surges)))
  }

  /** A single report fails exactly without a symbol or without data, and its recent surge is the newest. */
  lemma SingleReportOutcomes(market: Market, symbol: string)
    ensures SingleReportOf(market, symbol).Failure? <==>
              symbol == "" || symbol !in market || |market[symbol].bars| == 0
    ensures SingleReportOf(market, symbol).Failure? && symbol != "" ==>
              SingleReportOf(market, symbol).error == NoData(symbol)
    ensures SingleReportOf(market, symbol).Success? && SingleReportOf(market, symbol).value.highlights.Some? ==>
              var report := SingleReportOf(market, symbol).value;
              forall e :: e in report.analysis.surges ==> e.date <= report.highlights.value.recent.date
  {
    var a := ServerAnalysisOf(market, symbol, DefaultSurgeThreshold, DefaultVolumeThreshold);
    if symbol != "" && a.Some? && a.value.surges != [] {
      SurgesNewestFirst(ByDate(market[symbol].bars), DefaultSurgeThreshold);
    }
  }

  method AnalyzeSingleStock(market: Market, symbol: string) returns (r: Result<SingleReport, HandlerError>)
    ensures r == SingleReportOf(market, symbol)
  {
    if symbol == "" {
      return Failure(MissingSymbol);
    }
    var analyzer := new CleanSurgeAnalyzer();
    var result := analyzer.AnalyzeStock(market, symbol);
    if result.None? {
      return Failure(NoData(symbol));
    }
    r := Success(SingleReport(result.value, HighlightsOf(result.value.surges)));
  }

  /** The surge-frequency rating of `_format_surge_summary`. */
  datatype Rating = Low | Medium | High | VeryHigh

  function RatingRank(r: Rating): nat {
    match r
    case Low => 0
    case Medium => 1
    case High => 2
    case VeryHigh => 3
  }

  function SurgeRating(surgeCount: nat): Rating {
    if surgeCount >= 10 then VeryHigh
    else if surgeCount >= 5 then High
    else if surgeCount >= 2 then Medium
    else Low
  }

  /** A rating's rank is the number of the bounds 2, 5 and 10 that the count reaches. */
  lemma SurgeRatingBands(surgeCount: nat)
    ensures RatingRank(SurgeRating(surgeCount))
              == (if surgeCount >= 2 then 1 else 0) + (if surgeCount >= 5 then 1 else 0) + (if surgeCount >= 10 then 1 else 0)
  {
  }

  /** More surges never lower the rating. */
  lemma SurgeRatingMonotone(a: nat, b: nat)
    requires a <= b
    ensures RatingRank(SurgeRating(a)) <= RatingRank(SurgeRating(b))
  {
    SurgeRatingBands(a);
    SurgeRatingBands(b);
  }

  datatype SurgeSummary = SurgeSummary(
    currentPrice: Price, totalReturn: real, surgeCount: nat, threshold: real,
    highlights: Option<Highlights>, rating: Rating)

  /** `args.get("surge_threshold", 5.0)`: the caller's surge threshold, or the default one when it gives none. */
  function ThresholdOrDefault(thresholdArg: Option<real>): real {
    match thresholdArg
    case None => DefaultSurgeThreshold
    case Some(t) => t
  }

  /** `_get_surge_summary`: the analysis at the caller's surge threshold, summarised and rated. */
  function SurgeSummaryOf(market: Market, symbol: string, thresholdArg: Option<real>): Result<SurgeSummary, HandlerError> {
    var threshold := ThresholdOrDefault(thresholdArg);
    if symbol == "" then Failure(MissingSymbol)
    else
      match ServerAnalysisOf(market, symbol, threshold, DefaultVolumeThreshold)
      case None => Failure(NoData(symbol))
      case Some(a) =>
        Success(SurgeSummary(
          a.basic.currentPrice, a.basic.totalReturn, |a.surges|, threshold,
          HighlightsOf(a.surges), SurgeRating(|a.surges|)))
  }

  /**
   * A summary counts the surge days of the date-ordered series at the
   * requested threshold, and raising the threshold never raises the rating.
   */
  lemma SurgeSummaryRatingFallsWithThreshold(market: Market, symbol: string, low: real, high: real)
    requires low <= high
    requires SurgeSummaryOf(market, symbol, Some(low)).Success?
    ensures SurgeSummaryOf(market, symbol, Some(high)).Success?
    ensures var bars := ByDate(market[symbol].bars);
      SurgeSummaryOf(market, symbol, Some(low)).value.surgeCount == |DetectedSurges(bars, low, |bars|)|
    ensures SurgeSummaryOf(market, symbol, Some(high)).value.surgeCount <= SurgeSummaryOf(market, symbol, Some(low)).value.surgeCount
    ensures RatingRank(SurgeSummaryOf(market, symbol, Some(high)).value.rating)
              <= RatingRank(SurgeSummaryOf(market, symbol, Some(low)).value.rating)
  {
    var bars := ByDate(market[symbol].bars);
    SortDescIsStableSort(DetectedSurges(bars, low, |bars|), DateKey);
    SortDescIsStableSort(DetectedSurges(bars, high, |bars|), DateKey);
    FewerSurgesAboveHigherThreshold(bars, low, high, |bars|);
    SurgeRatingMonotone(SurgeSummaryOf(market, symbol, Some(high)).value.surgeCount, SurgeSummaryOf(market, symbol, Some(low)).value.surgeCount);
  }

  method GetSurgeSummary(market: Market, symbol: string, thresholdArg: Option<real>) returns (r: Result<SurgeSummary, HandlerError>)
    ensures r == SurgeSummaryOf(market, symbol, thresholdArg)
    ensures r.Success? ==> r.value.threshold == if thresholdArg.Some? then thresholdArg.value else DefaultSurgeThreshold
  {
    var threshold := if thresholdArg.Some? then thresholdArg.value else DefaultSurgeThreshold;
    if symbol == "" {
      return Failure(MissingSymbol);
    }
    var analyzer := new CleanSurgeAnalyzer();
    analyzer.surgeThreshold := threshold;
    var result := analyzer.AnalyzeStock(market, symbol);
    if result.None? {
      return Failure(NoData(symbol));
    }
    var a := result.value;
    r := Success(SurgeSummary(
      a.basic.currentPrice, a.basic.totalReturn, |a.surges|, threshold,
      HighlightsOf(a.surges), SurgeRating(|a.surges|)));
  }

  // ---------------------------------------------------------------------------
  // Comparing securities

  datatype CompareEntry = CompareEntry(symbol: string, name: string, data: ServerAnalysis)

  /** The entries, and the ones shown as "Best Performance" and "Most Surges". */
  datatype Comparison = Comparison(entries: seq<CompareEntry>, bestReturn: CompareEntry, mostSurges: CompareEntry)

  function EntryReturnKey(e: CompareEntry): real { e.data.basic.totalReturn }

  function EntrySurgesKey(e: CompareEntry): real { |e.data.surges| as real }

  function EntryOf(stock: StockId, market: Market): Option<CompareEntry> {
    match ServerAnalysisOf(market, stock.symbol, DefaultSurgeThreshold, DefaultVolumeThreshold)
    case None => None
    case Some(a) => Some(CompareEntry(stock.symbol, stock.name, a))
  }

  /** The outcome for each stock asked for, in input order. */
  function EntryResults(stocks: seq<StockId>, market: Market): (r: seq<Option<CompareEntry>>)
    ensures |r| == |stocks|
  {
    if stocks == [] then []
    else EntryResults(stocks[..|stocks| - 1], market) + [EntryOf(stocks[|stocks| - 1], market)]
  }

  /** Position `i` of the outcomes is the outcome for the `i`-th stock. */
  lemma {:induction false} EntryResultsAt(stocks: seq<StockId>, market: Market, i: nat)
    requires i < |stocks|
    ensures EntryResults(stocks, market)[i] == EntryOf(stocks[i], market)
  {
    var front := stocks[..|stocks| - 1];
    if i < |front| {
      EntryResultsAt(front, market, i);
      assert EntryResults(stocks, market)[i] == EntryResults(front, market)[i];
      assert front[i] == stocks[i];
    }
  }

  lemma EntryResultsAre(stocks: seq<StockId>, market: Market)
    ensures forall i :: 0 <= i < |stocks| ==> EntryResults(stocks, market)[i] == EntryOf(stocks[i], market)
  {
    forall i | 0 <= i < |stocks| ensures EntryResults(stocks, market)[i] == EntryOf(stocks[i], market) {
      EntryResultsAt(stocks, market, i);
    }
  }


  /** The entries of the stocks that could be analysed, in input order. */
  function Entries(stocks: seq<StockId>, market: Market): seq<CompareEntry> {
    Present(EntryResults(stocks, market))
  }

  /** Analysing one more stock appends its entry when its analysis succeeds. */
  lemma EntriesStep(stocks: seq<StockId>, i: nat, market: Market)
    requires i < |stocks|
    ensures Entries(stocks[..i + 1], market)
         == Entries(stocks[..i], market) + match EntryOf(stocks[i], market) case None => [] case Some(e) => [e]
  {
    assert stocks[..i + 1][..i] == stocks[..i];
    PresentStep(EntryResults(stocks[..i], market), EntryOf(stocks[i], market));
  }

  /** `_compare_stocks`: at least two stocks asked for, at least two analysed, then the two leaders. */
  function ComparisonOf(stocks: seq<StockId>, market: Market): Result<Comparison, HandlerError> {
    if |stocks| < 2 then Failure(TooFewStocks)
    else
      var entries := Entries(stocks, market);
      if |entries| < 2 then Failure(InsufficientData)
      else
        Success(Comparison(
          entries,
          entries[FirstMaxIndex(entries, EntryReturnKey)],
          entries[FirstMaxIndex(entries, EntrySurgesKey)]))
  }

  /**
   * The entries are exactly the analysable stocks' entries: each comes from a
   * stock asked for, every analysable stock has its entry, all are kept
   * exactly when every stock is analysable, and none exactly when none is.
   */
  lemma EntriesAreTheAnalysable(stocks: seq<StockId>, market: Market)
    ensures |Entries(stocks, market)| <= |stocks|
    ensures forall j :: 0 <= j < |Entries(stocks, market)| ==>
              exists i :: 0 <= i < |stocks| && EntryOf(stocks[i], market) == Some(Entries(stocks, market)[j])
    ensures forall i :: 0 <= i < |stocks| && EntryOf(stocks[i], market).Some? ==>
              EntryOf(stocks[i], market).value in Entries(stocks, market)
    ensures |Entries(stocks, market)| == |stocks| <==> forall i :: 0 <= i < |stocks| ==> EntryOf(stocks[i], market).Some?
    ensures Entries(stocks, market) == [] <==> forall i :: 0 <= i < |stocks| ==> EntryOf(stocks[i], market).None?
  {
    var results := EntryResults(stocks, market);
    EntryResultsAre(stocks, market);
    PresentAreResults(results);
    PresentResultsKept(results);
    PresentDropsNothing(results);
    PresentNothing(results);
  }

  /**
   * A comparison fails for too few stocks exactly when fewer than two are
   * asked for, fails for lack of data exactly when two or more are asked for
   * but fewer than two can be analysed, and otherwise lists the entries of
   * the analysable stocks, in input order.
   */
  lemma ComparisonOutcomes(stocks: seq<StockId>, market: Market)
    ensures |stocks| < 2 <==> ComparisonOf(stocks, market) == Failure(TooFewStocks)
    ensures ComparisonOf(stocks, market) == Failure(InsufficientData) <==> |stocks| >= 2 && |Entries(stocks, market)| < 2
    ensures ComparisonOf(stocks, market).Success? <==> |Entries(stocks, market)| >= 2
    ensures ComparisonOf(stocks, market).Success? ==> ComparisonOf(stocks, market).value.entries == Entries(stocks, market)
    ensures |stocks| >= 2 && (forall i :: 0 <= i < |stocks| ==> EntryOf(stocks[i], market).Some?) ==>
              ComparisonOf(stocks, market).Success? && |ComparisonOf(stocks, market).value.entries| == |stocks|
    ensures |stocks| >= 2 && (forall i :: 0 <= i < |stocks| ==> EntryOf(stocks[i], market).None?) ==>
              ComparisonOf(stocks, market) == Failure(InsufficientData)
  {
    EntriesAreTheAnalysable(stocks, market);
  }

  /** A successful comparison lists every analysable stock's entry, and only those. */
  lemma ComparisonListsTheAnalysable(stocks: seq<StockId>, market: Market)
    requires ComparisonOf(stocks, market).Success?
    ensures forall i :: 0 <= i < |stocks| && EntryOf(stocks[i], market).Some? ==>
              EntryOf(stocks[i], market).value in ComparisonOf(stocks, market).value.entries
    ensures forall j :: 0 <= j < |ComparisonOf(stocks, market).value.entries| ==>
              exists i :: 0 <= i < |stocks| && EntryOf(stocks[i], market) == Some(ComparisonOf(stocks, market).value.entries[j])
  {
    EntriesAreTheAnalysable(stocks, market);
  }

  /**
   * The best performer has the largest total return and the most-surging
   * entry the largest surge count; an earlier entry with an equal figure wins.
   */
  lemma ComparisonLeaders(stocks: seq<StockId>, market: Market)
    requires ComparisonOf(stocks, market).Success?
    ensures var c := ComparisonOf(stocks, market).value;
      && c.bestReturn in c.entries && c.mostSurges in c.entries
      && (forall e :: e in c.entries ==> e.data.basic.totalReturn <= c.bestReturn.data.basic.totalReturn)
      && (forall e :: e in c.entries ==> |e.data.surges| <= |c.mostSurges.data.surges|)
      && (exists i :: 0 <= i < |c.entries| && c.entries[i] == c.bestReturn
            && forall j :: 0 <= j < i ==> c.entries[j].data.basic.totalReturn < c.bestReturn.data.basic.totalReturn)
      && (exists i :: 0 <= i < |c.entries| && c.entries[i] == c.mostSurges
            && forall j :: 0 <= j < i ==> |c.entries[j].data.surges| < |c.mostSurges.data.surges|)
  {
    var entries := Entries(stocks, market);
    var b := FirstMaxIndex(entries, EntryReturnKey);
    var m := FirstMaxIndex(entries, EntrySurgesKey);
    assert forall j :: 0 <= j < |entries| ==> EntrySurgesKey(entries[j]) <= EntrySurgesKey(entries[m]);
    assert forall j :: 0 <= j < m ==> EntrySurgesKey(entries[j]) < EntrySurgesKey(entries[m]);
  }

  method CompareStocks(stocks: seq<StockId>, market: Market) returns (r: Result<Comparison, HandlerError>)
    ensures r == ComparisonOf(stocks, market)
  {
    if |stocks| < 2 {
      return Failure(TooFewStocks);
    }
    var analyzer := new CleanSurgeAnalyzer();
    var results: seq<CompareEntry> := [];
    var i := 0;
    while i < |stocks|
      invariant i <= |stocks|
      invariant analyzer.surgeThreshold == DefaultSurgeThreshold && analyzer.volumeThreshold == DefaultVolumeThreshold
      invariant results == Entries(stocks[..i], market)
    {
      var stock := stocks[i];
      var result := analyzer.AnalyzeStock(market, stock.symbol);
      if result.Some? {
        results := results + [CompareEntry(stock.symbol, stock.name, result.value)];
      }
      EntriesStep(stocks, i, market);
      i := i + 1;
    }
    assert stocks[..i] == stocks;
    if |results| < 2 {
      return Failure(InsufficientData);
    }
    r := Success(Comparison(
      results,
      results[FirstMaxIndex(results, EntryReturnKey)],
      results[FirstMaxIndex(results, EntrySurgesKey)]));
  }

  // ---------------------------------------------------------------------------
  // Batch analysis

  /** The `POPULAR_STOCKS` preset. */
  const PopularStocks: seq<StockId> := [
    StockId("000001", "平安银行"),
    StockId("000002", "万科A"),
    StockId("000858", "五粮液"),
    StockId("600036", "招商银行"),
    StockId("600519", "贵州茅台")]

  /** The `TECH_STOCKS` preset. */
  const TechStocks: seq<StockId> := [
    StockId("000002", "万科A"),
    StockId("002415", "海康威视"),
    StockId("000725", "京东方A"),
    StockId("002230", "科大讯飞"),
    StockId("300059", "东方财富")]

  /** The stock list a batch runs over: a preset, or the caller's own non-empty list. */
  function SelectStockList(preset: string, custom: seq<StockId>): Result<seq<StockId>, HandlerError> {
    if preset == "popular" then Success(PopularStocks)
    else if preset == "tech" then Success(TechStocks)
    else if preset == "custom" then
      if custom == [] then Failure(MissingCustomList) else Success(custom)
    else Failure(InvalidPreset)
  }

  /** A selected list is never empty; only the three preset names are accepted, and "custom" needs stocks. */
  lemma SelectionOutcomes(preset: string, custom: seq<StockId>)
    ensures SelectStockList(preset, custom).Success? ==> |SelectStockList(preset, custom).value| > 0
    ensures SelectStockList(preset, custom).Success? <==>
              preset == "popular" || preset == "tech" || (preset == "custom" && custom != [])
    ensures SelectStockList(preset, custom) == Failure(InvalidPreset) <==>
              preset != "popular" && preset != "tech" && preset != "custom"
    ensures preset == "custom" && custom != [] ==> SelectStockList(preset, custom) == Success(custom)
  {
  }

  /** One row of the batch: symbol, name, surge count, total return and volatility. */
  datatype BatchRow = BatchRow(symbol: string, name: string, surgeCount: nat, totalReturn: real, volatility: real)

  function BatchRowOf(stock: StockId, market: Market): Option<BatchRow> {
    match ServerAnalysisOf(market, stock.symbol, DefaultSurgeThreshold, DefaultVolumeThreshold)
    case None => None
    case Some(a) => Some(BatchRow(stock.symbol, stock.name, |a.surges|, a.basic.totalReturn, a.basic.volatility))
  }

  /** The outcome for each stock of the list, in list order. */
  function RowResults(stocks: seq<StockId>, market: Market): (r: seq<Option<BatchRow>>)
    ensures |r| == |stocks|
  {
    if stocks == [] then []
    else RowResults(stocks[..|stocks| - 1], market) + [BatchRowOf(stocks[|stocks| - 1], market)]
  }

  /** Position `i` of the outcomes is the outcome for the `i`-th stock. */
  lemma {:induction false} RowResultsAt(stocks: seq<StockId>, market: Market, i: nat)
    requires i < |stocks|
    ensures RowResults(stocks, market)[i] == BatchRowOf(stocks[i], market)
  {
    var front := stocks[..|stocks| - 1];
    if i < |front| {
      RowResultsAt(front, market, i);
      assert RowResults(stocks, market)[i] == RowResults(front, market)[i];
      assert front[i] == stocks[i];
    }
  }

  lemma RowResultsAre(stocks: seq<StockId>, market: Market)
    ensures forall i :: 0 <= i < |stocks| ==> RowResults(stocks, market)[i] == BatchRowOf(stocks[i], market)
  {
    forall i | 0 <= i < |stocks| ensures RowResults(stocks, market)[i] == BatchRowOf(stocks[i], market) {
      RowResultsAt(stocks, market, i);
    }
  }


  /** The rows of the stocks that could be analysed, in list order. */
  function Rows(stocks: seq<StockId>, market: Market): seq<BatchRow> {
    Present(RowResults(stocks, market))
  }

  function RowSurgesKey(r: BatchRow): real { r.surgeCount as real }

  function RowReturnKey(r: BatchRow): real { r.totalReturn }

  function SumRowReturns(rows: seq<BatchRow>): real {
    if rows == [] then 0.0 else SumRowReturns(rows[..|rows| - 1]) + rows[|rows| - 1].totalReturn
  }

  function SumRowSurges(rows: seq<BatchRow>): nat {
    if rows == [] then 0 else SumRowSurges(rows[..|rows| - 1]) + rows[|rows| - 1].surgeCount
  }

  /** The "Statistics Summary" figures. */
  datatype BatchStats = BatchStats(totalStocks: nat, avgReturn: real, totalSurges: nat, avgSurges: real)

  /** The two "Top 5" rankings and the statistics of `_format_batch_analysis`. */
  datatype BatchReport = BatchReport(surgeTop: seq<BatchRow>, returnTop: seq<BatchRow>, stats: BatchStats)

  /** `total_stocks`, `avg_return`, `total_surges` and `total_surges / total_stocks`. */
  function BatchStatsOf(rows: seq<BatchRow>): BatchStats
    requires |rows| > 0
  {
    var n := |rows|;
    var totalSurges := SumRowSurges(rows);
    BatchStats(n, SumRowReturns(rows) / n as real, totalSurges, totalSurges as real / n as real)
  }

  /** `_format_batch_analysis`: `sorted(..., reverse=True)[:5]` by surge count and by return, and the statistics. */
  function FormatBatch(rows: seq<BatchRow>): BatchReport
    requires |rows| > 0
  {
    BatchReport(Top(rows, RowSurgesKey, ShownLength), Top(rows, RowReturnKey, ShownLength), BatchStatsOf(rows))
  }

  /**
   * Each ranking holds the five (or all, when fewer) rows with the most
   * surges, respectively the best return, in descending order, rows with
   * equal figures in input order; its first row leads all rows.
   */
  lemma BatchLeaders(rows: seq<BatchRow>)
    requires |rows| > 0
    ensures IsTopOf(FormatBatch(rows).surgeTop, rows, RowSurgesKey, ShownLength)
    ensures IsTopOf(FormatBatch(rows).returnTop, rows, RowReturnKey, ShownLength)
    ensures forall y :: y in rows ==> y.surgeCount <= FormatBatch(rows).surgeTop[0].surgeCount
    ensures forall y :: y in rows ==> y.totalReturn <= FormatBatch(rows).returnTop[0].totalReturn
  {
    TopLeads(rows, RowSurgesKey, ShownLength);
    TopLeads(rows, RowReturnKey, ShownLength);
    var surgeLeader := FormatBatch(rows).surgeTop[0];
    assert forall y :: y in rows ==> RowSurgesKey(y) <= RowSurgesKey(surgeLeader);
  }

  /** The statistics count every row and every surge, and their averages scale back to the totals. */
  lemma BatchAverages(rows: seq<BatchRow>)
    requires |rows| > 0
    ensures BatchStatsOf(rows).totalStocks == |rows| && BatchStatsOf(rows).totalSurges == SumRowSurges(rows)
    ensures BatchStatsOf(rows).avgReturn * |rows| as real == SumRowReturns(rows)
    ensures BatchStatsOf(rows).avgSurges * |rows| as real == SumRowSurges(rows) as real
  {
    DivThenMul(SumRowReturns(rows), |rows| as real);
    DivThenMul(SumRowSurges(rows) as real, |rows| as real);
  }

  lemma {:induction false} SumRowReturnsBounded(rows: seq<BatchRow>, lo: real, hi: real)
    requires forall i :: 0 <= i < |rows| ==> lo <= rows[i].totalReturn <= hi
    ensures |rows| as real * lo <= SumRowReturns(rows) <= |rows| as real * hi
  {
    if rows != [] {
      var front := rows[..|rows| - 1];
      assert forall i :: 0 <= i < |front| ==> front[i] == rows[i];
      SumRowReturnsBounded(front, lo, hi);
      assert |rows| as real * lo == |front| as real * lo + lo;
      assert |rows| as real * hi == |front| as real * hi + hi;
    }
  }

  lemma MeanBetween(sum: real, n: real, lo: real, hi: real, mean: real)
    requires n > 0.0 && n * lo <= sum <= n * hi && mean == sum / n
    ensures lo <= mean <= hi
  {
    assert mean * n == sum;
  }

  /** The average return lies within any bounds that hold for every row's return. */
  lemma AverageReturnBounded(rows: seq<BatchRow>, lo: real, hi: real)
    requires |rows| > 0
    requires forall i :: 0 <= i < |rows| ==> lo <= rows[i].totalReturn <= hi
    ensures lo <= BatchStatsOf(rows).avgReturn <= hi
  {
    SumRowReturnsBounded(rows, lo, hi);
    MeanBetween(SumRowReturns(rows), |rows| as real, lo, hi, BatchStatsOf(rows).avgReturn);
  }

  /** `_batch_analyze_stocks`: select the list, collect the analysable rows, fail if none, report. */
  function BatchAnalysisOf(preset: string, custom: seq<StockId>, market: Market): Result<BatchReport, HandlerError> {
    match SelectStockList(preset, custom)
    case Failure(e) => Failure(e)
    case Success(stocks) =>
      var rows := Rows(stocks, market);
      if rows == [] then Failure(BatchFailed) else Success(FormatBatch(rows))
  }

  /**
   * A batch over a valid selection fails exactly when no stock of it can be
   * analysed, and its rows are exactly the analysable stocks' rows.
   */
  lemma BatchOutcomes(preset: string, custom: seq<StockId>, market: Market)
    requires SelectStockList(preset, custom).Success?
    ensures var stocks := SelectStockList(preset, custom).value;
      && (BatchAnalysisOf(preset, custom, market) == Failure(BatchFailed) <==>
            forall i :: 0 <= i < |stocks| ==> BatchRowOf(stocks[i], market).None?)
      && (forall j :: 0 <= j < |Rows(stocks, market)| ==>
            exists i :: 0 <= i < |stocks| && BatchRowOf(stocks[i], market) == Some(Rows(stocks, market)[j]))
      && (forall i :: 0 <= i < |stocks| && BatchRowOf(stocks[i], market).Some? ==>
            BatchRowOf(stocks[i], market).value in Rows(stocks, market))
  {
    RowsAreTheAnalysable(SelectStockList(preset, custom).value, market);
  }

  /** The rows are exactly the analysable stocks' rows, and there are none exactly when no stock can be analysed. */
  lemma RowsAreTheAnalysable(stocks: seq<StockId>, market: Market)
    ensures Rows(stocks, market) == [] <==> forall i :: 0 <= i < |stocks| ==> BatchRowOf(stocks[i], market).None?
    ensures forall j :: 0 <= j < |Rows(stocks, market)| ==>
              exists i :: 0 <= i < |stocks| && BatchRowOf(stocks[i], market) == Some(Rows(stocks, market)[j])
    ensures forall i :: 0 <= i < |stocks| && BatchRowOf(stocks[i], market).Some? ==>
              BatchRowOf(stocks[i], market).value in Rows(stocks, market)
  {
    var results := RowResults(stocks, market);
    RowResultsAre(stocks, market);
    PresentAreResults(results);
    PresentResultsKept(results);
    PresentNothing(results);
  }

  /** Analysing one more stock appends its row when its analysis succeeds. */
  lemma RowsStep(stocks: seq<StockId>, i: nat, market: Market)
    requires i < |stocks|
    ensures Rows(stocks[..i + 1], market) == Rows(stocks[..i], market) + match BatchRowOf(stocks[i], market) case None => [] case Some(row) => [row]
  {
    assert stocks[..i + 1][..i] == stocks[..i];
    PresentStep(RowResults(stocks[..i], market), BatchRowOf(stocks[i], market));
  }

  /** The loop of `batch_analyze_stocks`: one row per stock whose analysis succeeds, in list order. */
  method AnalyzeRows(analyzer: CleanSurgeAnalyzer, stocks: seq<StockId>, market: Market) returns (results: seq<BatchRow>)
    requires analyzer.surgeThreshold == DefaultSurgeThreshold && analyzer.volumeThreshold == DefaultVolumeThreshold
    ensures results == Rows(stocks, market)
  {
    results := [];
    var i := 0;
    while i < |stocks|
      invariant i <= |stocks|
      invariant results == Rows(stocks[..i], market)
    {
      var stock := stocks[i];
      var result := analyzer.AnalyzeStock(market, stock.symbol);
      RowsStep(stocks, i, market);
      if result.Some? {
        var a := result.value;
        results := results + [BatchRow(stock.symbol, stock.name, |a.surges|, a.basic.totalReturn, a.basic.volatility)];
      }
      i := i + 1;
    }
    assert stocks[..i] == stocks;
  }

  method BatchAnalyzeStocks(preset: string, custom: seq<StockId>, market: Market) returns (r: Result<BatchReport, HandlerError>)
    ensures r == BatchAnalysisOf(preset, custom, market)
  {
    var stockList: seq<StockId>;
    if preset == "popular" {
      stockList := PopularStocks;
    } else if preset == "tech" {
      stockList := TechStocks;
    } else if preset == "custom" {
      if custom == [] {
        return Failure(MissingCustomList);
      }
      stockList := custom;
    } else {
      return Failure(InvalidPreset);
    }
    var analyzer := new CleanSurgeAnalyzer();
    var results := AnalyzeRows(analyzer, stockList, market);
    if results == [] {
      return Failure(BatchFailed);
    }
    r := Success(FormatBatch(results));
  }
}
