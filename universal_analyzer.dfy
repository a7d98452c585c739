/**
 * The single-security analyzer of the console tool: surge days, trailing-window
 * volume spikes and the basic price statistics of one bar series, and the
 * "absent result" outcome of a whole analysis.
 */
module UniversalAnalyzer {
  import opened Wrappers
  import opened Ranking
  import opened MarketData

  /** The analyzer's default surge threshold, in percent. */
  const DefaultSurgeThreshold: real := 5.0
  /** The analyzer's default volume multiplier. */
  const DefaultVolumeThreshold: real := 2.0
  /** The number of preceding days a trailing volume average is taken over. */
  const SpikeWindow: nat := 10

  /** A volume spike: its date, today's volume over the trailing average, and today's return. */
  datatype VolumeSpike = VolumeSpike(date: Date, volumeRatio: real, returnPct: real)

  datatype VolumeAnalysis = VolumeAnalysis(avgVolume: real, currentVolume: nat, maxVolume: nat, spikes: seq<VolumeSpike>)

  /** The divisions by zero that end a volume analysis with an exception. */
  datatype AnalysisError =
    | ZeroAverageVolume         // every volume is 0, so the printed volume ratios divide by 0
    | ZeroTrailingAverage(day: Date) // a spike day whose preceding window traded nothing

  datatype BasicStats = BasicStats(
    currentPrice: Price, startPrice: Price, totalReturn: real,
    maxPrice: Price, minPrice: Price, volatility: real)

  datatype AnalysisResult = AnalysisResult(
    basic: BasicStats, surges: seq<SurgeEvent>, volume: VolumeAnalysis, company: map<string, string>)

  function ReturnKey(e: SurgeEvent): real { e.returnPct }

  function RatioKey(s: VolumeSpike): real { s.volumeRatio }

  // ---------------------------------------------------------------------------
  // Surge days

  /** The percentage return of day `i` over day `i - 1`. */
  function ReturnAt(bars: seq<Bar>, i: nat): real
    requires 1 <= i < |bars|
  {
    DailyReturn(bars[i - 1].close, bars[i].close)
  }

  /** The event recorded for day `i`: that day's date, return, close and volume. */
  function SurgeAt(bars: seq<Bar>, i: nat): SurgeEvent
    requires 1 <= i < |bars|
  {
    SurgeEvent(bars[i].date, ReturnAt(bars, i), bars[i].close, bars[i].volume)
  }

  /** The surge events among days `1 .. n - 1`, in day order. */
  function DetectedSurges(bars: seq<Bar>, threshold: real, n: nat): seq<SurgeEvent>
    requires n <= |bars|
  {
    if n <= 1 then []
    else
      DetectedSurges(bars, threshold, n - 1)
        + (if ReturnAt(bars, n - 1) > threshold then [SurgeAt(bars, n - 1)] else [])
  }

  /**
   * A day is a surge exactly when it has a previous day and its return is
   * strictly above the threshold; so there are fewer surges than days.
   */
  lemma {:induction false} DetectedSurgesAreTheSurgeDays(bars: seq<Bar>, threshold: real, n: nat)
    requires n <= |bars|
    ensures |DetectedSurges(bars, threshold, n)| <= if n == 0 then 0 else n - 1
    ensures forall i :: 1 <= i < n && ReturnAt(bars, i) > threshold ==> SurgeAt(bars, i) in DetectedSurges(bars, threshold, n)
    ensures forall e :: e in DetectedSurges(bars, threshold, n) ==>
              exists i :: 1 <= i < n && ReturnAt(bars, i) > threshold && e == SurgeAt(bars, i)
    ensures forall e :: e in DetectedSurges(bars, threshold, n) ==> e.returnPct > threshold
  {
    if n > 1 {
      DetectedSurgesAreTheSurgeDays(bars, threshold, n - 1);
    }
  }

  /**
   * `_analyze_surges`: one event per day whose return beats the threshold,
   * then sorted by return, largest first.
   */
  method AnalyzeSurges(bars: seq<Bar>, threshold: real) returns (surges: seq<SurgeEvent>)
    ensures surges == SortDesc(DetectedSurges(bars, threshold, |bars|), ReturnKey)
  {
    var surgeDays: seq<SurgeEvent> := [];
    var i := 1;
    while i < |bars|
      invariant 1 <= i && (|bars| == 0 || i <= |bars|)
      invariant surgeDays == DetectedSurges(bars, threshold, if |bars| == 0 then 0 else i)
    {
      var dailyReturn := DailyReturn(bars[i - 1].close, bars[i].close);
      if dailyReturn > threshold {
        surgeDays := surgeDays + [SurgeEvent(bars[i].date, dailyReturn, bars[i].close, bars[i].volume)];
      }
      i := i + 1;
    }
    surges := SortDesc(surgeDays, ReturnKey);
  }

  /** The surge list of an analysis holds exactly the surge days, largest return first, ties in day order. */
  lemma SurgeListIsRankedSurgeDays(bars: seq<Bar>, threshold: real)
    ensures var ranked := SortDesc(DetectedSurges(bars, threshold, |bars|), ReturnKey);
      && multiset(ranked) == multiset(DetectedSurges(bars, threshold, |bars|))
      && SortedDesc(ranked, ReturnKey)
      && (forall k :: WithKey(ranked, ReturnKey, k) == WithKey(DetectedSurges(bars, threshold, |bars|), ReturnKey, k))
      && |ranked| <= if |bars| == 0 then 0 else |bars| - 1
  {
    DetectedSurgesAreTheSurgeDays(bars, threshold, |bars|);
    SortDescIsStableSort(DetectedSurges(bars, threshold, |bars|), ReturnKey);
  }

  // ---------------------------------------------------------------------------
  // Volume spikes over a trailing window

  /** The mean volume of the `SpikeWindow` days strictly before day `i`. */
  function TrailingAverage(bars: seq<Bar>, i: nat): (avg: real)
    requires SpikeWindow <= i < |bars|
    ensures avg >= 0.0
  {
    SumVolumes(bars[i - SpikeWindow .. i]) as real / SpikeWindow as real
  }

  /** Day `i` trades more than `multiplier` times its trailing average. */
  predicate ExceedsTrailing(bars: seq<Bar>, multiplier: real, i: nat)
    requires SpikeWindow <= i < |bars|
  {
    bars[i].volume as real > TrailingAverage(bars, i) * multiplier
  }

  /** Day `i` passes the spike test but its ratio divides by a zero average. */
  predicate DividesByZeroAt(bars: seq<Bar>, multiplier: real, i: nat) {
    SpikeWindow <= i < |bars| && ExceedsTrailing(bars, multiplier, i) && TrailingAverage(bars, i) == 0.0
  }

  /** The spike recorded for day `i`. */
  function SpikeAt(bars: seq<Bar>, i: nat): VolumeSpike
    requires SpikeWindow <= i < |bars| && TrailingAverage(bars, i) > 0.0
  {
    VolumeSpike(bars[i].date, bars[i].volume as real / TrailingAverage(bars, i), ReturnAt(bars, i))
  }

  /** The spikes among days `SpikeWindow .. n - 1` in day order, or the first division by zero. */
  function ScanSpikes(bars: seq<Bar>, multiplier: real, n: nat): Result<seq<VolumeSpike>, AnalysisError>
    requires n <= |bars|
  {
    if n <= SpikeWindow then Success([])
    else
      match ScanSpikes(bars, multiplier, n - 1)
      case Failure(e) => Failure(e)
      case Success(found) =>
        if !ExceedsTrailing(bars, multiplier, n - 1) then Success(found)
        else if TrailingAverage(bars, n - 1) == 0.0 then Failure(ZeroTrailingAverage(n - 1))
        else Success(found + [SpikeAt(bars, n - 1)])
  }

  /** One more day scanned after a successful scan: a spike day adds its spike, any other day nothing. */
  lemma ScanSpikesNext(bars: seq<Bar>, multiplier: real, i: nat, found: seq<VolumeSpike>)
    requires SpikeWindow <= i < |bars| && ScanSpikes(bars, multiplier, i) == Success(found)
    ensures !ExceedsTrailing(bars, multiplier, i) ==> ScanSpikes(bars, multiplier, i + 1) == Success(found)
    ensures ExceedsTrailing(bars, multiplier, i) && TrailingAverage(bars, i) > 0.0 ==>
              ScanSpikes(bars, multiplier, i + 1) == Success(found + [SpikeAt(bars, i)])
    ensures ExceedsTrailing(bars, multiplier, i) && TrailingAverage(bars, i) == 0.0 ==>
              ScanSpikes(bars, multiplier, i + 1).Failure?
  {
  }

  /** Changing day `i`'s own bar never changes its trailing average. */
  lemma TrailingAverageExcludesToday(bars: seq<Bar>, i: nat, today: Bar)
    requires SpikeWindow <= i < |bars|
    ensures TrailingAverage(bars[i := today], i) == TrailingAverage(bars, i)
  {
    assert bars[i := today][i - SpikeWindow .. i] == bars[i - SpikeWindow .. i];
  }

  lemma RatioAboveMultiplier(volume: real, avg: real, multiplier: real)
    requires avg > 0.0 && volume > avg * multiplier
    ensures volume / avg > multiplier
  {
    assert volume / avg * avg == volume;
  }

  /** The scan fails exactly when some spike day divides by a zero average, and it reports the first one. */
  lemma {:induction false} ScanSpikesFailsAtFirstZeroWindow(bars: seq<Bar>, multiplier: real, n: nat)
    requires n <= |bars|
    ensures ScanSpikes(bars, multiplier, n).Failure? <==> exists i :: 0 <= i < n && DividesByZeroAt(bars, multiplier, i)
    ensures ScanSpikes(bars, multiplier, n).Failure? ==>
              var d := ScanSpikes(bars, multiplier, n).error;
              && d.ZeroTrailingAverage? && d.day < n && DividesByZeroAt(bars, multiplier, d.day)
              && forall j :: 0 <= j < d.day ==> !DividesByZeroAt(bars, multiplier, j)
  {
    if n > SpikeWindow {
      ScanSpikesFailsAtFirstZeroWindow(bars, multiplier, n - 1);
      if DividesByZeroAt(bars, multiplier, n - 1) {
        assert exists i :: 0 <= i < n && DividesByZeroAt(bars, multiplier, i);
      }
      if exists i :: 0 <= i < n && DividesByZeroAt(bars, multiplier, i) {
        var i :| 0 <= i < n && DividesByZeroAt(bars, multiplier, i);
        if i < n - 1 {
          assert exists i :: 0 <= i < n - 1 && DividesByZeroAt(bars, multiplier, i);
        }
      }
    }
  }

  /** Once the scan has failed, scanning further days keeps the same failure. */
  lemma {:induction false} ScanSpikesFailureSticks(bars: seq<Bar>, multiplier: real, k: nat, n: nat)
    requires k <= n <= |bars|
    requires ScanSpikes(bars, multiplier, k).Failure?
    ensures ScanSpikes(bars, multiplier, n) == ScanSpikes(bars, multiplier, k)
  {
    if n > k {
      ScanSpikesFailureSticks(bars, multiplier, k, n - 1);
    }
  }

  /**
   * A successful scan holds one spike per day `i >= SpikeWindow` whose volume
   * beats the multiplier times its trailing average, each with a ratio above
   * the multiplier; with `SpikeWindow` days or fewer there are none.
   */
  lemma {:induction false} ScanSpikesAreTheSpikeDays(bars: seq<Bar>, multiplier: real, n: nat)
    requires n <= |bars|
    requires ScanSpikes(bars, multiplier, n).Success?
    ensures n <= SpikeWindow ==> ScanSpikes(bars, multiplier, n).value == []
    ensures |ScanSpikes(bars, multiplier, n).value| <= if n <= SpikeWindow then 0 else n - SpikeWindow
    ensures forall i :: SpikeWindow <= i < n && ExceedsTrailing(bars, multiplier, i) ==>
              TrailingAverage(bars, i) > 0.0 && SpikeAt(bars, i) in ScanSpikes(bars, multiplier, n).value
    ensures forall s :: s in ScanSpikes(bars, multiplier, n).value ==>
              exists i :: SpikeWindow <= i < n && ExceedsTrailing(bars, multiplier, i)
                && TrailingAverage(bars, i) > 0.0 && s == SpikeAt(bars, i)
    ensures forall s :: s in ScanSpikes(bars, multiplier, n).value ==> s.volumeRatio > multiplier
  {
    if n > SpikeWindow {
      var i := n - 1;
      ScanSpikesAreTheSpikeDays(bars, multiplier, n - 1);
      if ExceedsTrailing(bars, multiplier, i) {
        RatioAboveMultiplier(bars[i].volume as real, TrailingAverage(bars, i), multiplier);
      }
    }
  }

  /** `_analyze_volume`: global volume figures and the trailing-window spikes, largest ratio first. */
  function VolumeAnalysisOf(bars: seq<Bar>, multiplier: real): Result<VolumeAnalysis, AnalysisError>
    requires |bars| > 0
  {
    if SumVolumes(bars) == 0 then Failure(ZeroAverageVolume)
    else
      match ScanSpikes(bars, multiplier, |bars|)
      case Failure(e) => Failure(e)
      case Success(spikes) =>
        Success(VolumeAnalysis(
          MeanVolume(bars),
          bars[|bars| - 1].volume,
          MaxVolume(bars),
          SortDesc(spikes, RatioKey)))
  }

  /** The volume analysis fails exactly on a division by zero. */
  lemma VolumeAnalysisFailsExactly(bars: seq<Bar>, multiplier: real)
    requires |bars| > 0
    ensures VolumeAnalysisOf(bars, multiplier).Failure? <==>
              SumVolumes(bars) == 0 || exists i :: 0 <= i < |bars| && DividesByZeroAt(bars, multiplier, i)
  {
    ScanSpikesFailsAtFirstZeroWindow(bars, multiplier, |bars|);
  }

  /** A successful volume analysis reports a mean volume that is positive and at most the maximum, which bounds every day. */
  lemma VolumeAnalysisMean(bars: seq<Bar>, multiplier: real, v: VolumeAnalysis)
    requires |bars| > 0
    requires VolumeAnalysisOf(bars, multiplier) == Success(v)
    ensures v.avgVolume == MeanVolume(bars) && v.maxVolume == MaxVolume(bars)
    ensures 0.0 < v.avgVolume <= v.maxVolume as real
    ensures forall i :: 0 <= i < |bars| ==> bars[i].volume <= v.maxVolume
  {
    MeanVolumeBounds(bars);
    MaxVolumeIsMax(bars);
  }

  /** The spikes of a successful volume analysis are the spike days ranked by ratio, each ratio above the multiplier. */
  lemma VolumeAnalysisSpikes(bars: seq<Bar>, multiplier: real)
    requires |bars| > 0
    requires VolumeAnalysisOf(bars, multiplier).Success?
    ensures var v := VolumeAnalysisOf(bars, multiplier).value;
              && SortedDesc(v.spikes, RatioKey)
              && multiset(v.spikes) == multiset(ScanSpikes(bars, multiplier, |bars|).value)
              && (forall s :: s in v.spikes ==> s.volumeRatio > multiplier)
              && (forall k :: WithKey(v.spikes, RatioKey, k) == WithKey(ScanSpikes(bars, multiplier, |bars|).value, RatioKey, k))
  {
    var v := VolumeAnalysisOf(bars, multiplier).value;
    ScanSpikesAreTheSpikeDays(bars, multiplier, |bars|);
    SortDescIsStableSort(ScanSpikes(bars, multiplier, |bars|).value, RatioKey);
    forall s | s in v.spikes ensures s.volumeRatio > multiplier {
      assert s in multiset(v.spikes);
    }
  }

  /** The loop of `_analyze_volume`: one pass over days `10 ..`, appending each spike in day order. */
  method ScanVolumeSpikes(bars: seq<Bar>, multiplier: real) returns (r: Result<seq<VolumeSpike>, AnalysisError>)
    ensures r == ScanSpikes(bars, multiplier, |bars|)
  {
    var spikes: seq<VolumeSpike> := [];
    var i := SpikeWindow;
    ghost var scanned: nat := if |bars| <= SpikeWindow then |bars| else SpikeWindow;
    while i < |bars|
      invariant SpikeWindow <= i && scanned <= |bars|
      invariant |bars| > SpikeWindow ==> scanned == i
      invariant ScanSpikes(bars, multiplier, scanned) == Success(spikes)
    {
      var avgVol := SumVolumes(bars[i - SpikeWindow .. i]) as real / SpikeWindow as real;
      assert avgVol == TrailingAverage(bars, i);
      ScanSpikesNext(bars, multiplier, i, spikes);
      if bars[i].volume as real > avgVol * multiplier {
        if avgVol == 0.0 {
          ScanSpikesFailureSticks(bars, multiplier, i + 1, |bars|);
          return Failure(ZeroTrailingAverage(i));
        }
        var dailyReturn := DailyReturn(bars[i - 1].close, bars[i].close);
        assert VolumeSpike(bars[i].date, bars[i].volume as real / avgVol, dailyReturn) == SpikeAt(bars, i);
        spikes := spikes + [VolumeSpike(bars[i].date, bars[i].volume as real / avgVol, dailyReturn)];
      }
      i := i + 1;
      scanned := i;
    }
    r := Success(spikes);
  }

  /** `_analyze_volume` as the source runs it: the mean, then the pass over days `10 ..`. */
  method AnalyzeVolume(bars: seq<Bar>, multiplier: real) returns (r: Result<VolumeAnalysis, AnalysisError>)
    requires |bars| > 0
    ensures r == VolumeAnalysisOf(bars, multiplier)
  {
    var avgVolume := MeanVolume(bars);
    MeanVolumeScalesBack(bars);
    if avgVolume == 0.0 {
      return Failure(ZeroAverageVolume);
    }
    var scan := ScanVolumeSpikes(bars, multiplier);
    if scan.Failure? {
      return Failure(scan.error);
    }
    r := Success(VolumeAnalysis(avgVolume, bars[|bars| - 1].volume, MaxVolume(bars), SortDesc(scan.value, RatioKey)));
  }

  // ---------------------------------------------------------------------------
  // Basic statistics and the whole analysis

  /**
   * `_perform_basic_analysis` without the volatility computation: the return
   * from the first close to the last, and the price range.
   */
  function BasicAnalysis(bars: seq<Bar>, volatility: real): BasicStats
    requires |bars| > 0
  {
    var first, last := bars[0].close, bars[|bars| - 1].close;
    BasicStats(last, first, DailyReturn(first, last), MaxClose(bars), MinClose(bars), volatility)
  }

  /**
   * The start and current prices are the first and last closes, the total
   * return takes the one to the other, and the price range is attained and
   * bounds every close.
   */
  lemma BasicAnalysisFacts(bars: seq<Bar>, volatility: real)
    requires |bars| > 0
    ensures var r := BasicAnalysis(bars, volatility);
      && r.startPrice == bars[0].close && r.currentPrice == bars[|bars| - 1].close
      && r.startPrice * (1.0 + r.totalReturn / 100.0) == r.currentPrice
      && (r.totalReturn > 0.0 <==> r.currentPrice > r.startPrice)
      && (forall i :: 0 <= i < |bars| ==> r.minPrice <= bars[i].close <= r.maxPrice)
      && (exists i :: 0 <= i < |bars| && bars[i].close == r.minPrice)
      && (exists i :: 0 <= i < |bars| && bars[i].close == r.maxPrice)
      && r.volatility == volatility
  {
    DailyReturnInverts(bars[0].close, bars[|bars| - 1].close);
    MinCloseIsMin(bars);
    MaxCloseIsMax(bars);
  }

  /**
   * `analyze_stock`: absent when the provider fails or has no bars, or when
   * the volume analysis divides by zero; otherwise the four parts.
   */
  function AnalysisOf(market: Market, symbol: string, surgeThreshold: real, volumeThreshold: real): Option<AnalysisResult> {
    if symbol !in market || |market[symbol].bars| == 0 then None
    else
      var quote := market[symbol];
      match VolumeAnalysisOf(quote.bars, volumeThreshold)
      case Failure(_) => None
      case Success(volume) =>
        Some(AnalysisResult(
          BasicAnalysis(quote.bars, quote.volatility),
          SortDesc(DetectedSurges(quote.bars, surgeThreshold, |quote.bars|), ReturnKey),
          volume,
          quote.company))
  }

  /** An analysis is absent exactly on a provider fault, an empty series or a zero division. */
  lemma AnalysisAbsentExactly(market: Market, symbol: string, surgeThreshold: real, volumeThreshold: real)
    ensures AnalysisOf(market, symbol, surgeThreshold, volumeThreshold).None? <==>
              || symbol !in market
              || |market[symbol].bars| == 0
              || SumVolumes(market[symbol].bars) == 0
              || exists i :: 0 <= i < |market[symbol].bars| && DividesByZeroAt(market[symbol].bars, volumeThreshold, i)
  {
    if symbol in market && |market[symbol].bars| > 0 {
      VolumeAnalysisFailsExactly(market[symbol].bars, volumeThreshold);
    }
  }

  /** `analyze_stock` with the provider's answer for `symbol` taken from `market`. */
  method AnalyzeStock(market: Market, symbol: string, surgeThreshold: real, volumeThreshold: real)
    returns (r: Option<AnalysisResult>)
    ensures r == AnalysisOf(market, symbol, surgeThreshold, volumeThreshold)
  {
    if symbol !in market || |market[symbol].bars| == 0 {
      return None;
    }
    var quote := market[symbol];
    var basic := BasicAnalysis(quote.bars, quote.volatility);
    var surges := AnalyzeSurges(quote.bars, surgeThreshold);
    var volume := AnalyzeVolume(quote.bars, volumeThreshold);
    if volume.Failure? {
      return None;
    }
    r := Some(AnalysisResult(basic, surges, volume.value, quote.company));
  }
}
