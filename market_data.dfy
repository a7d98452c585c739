/**
 * The daily bar series both analyzers work on, the market-data provider as
 * seen by the core, and the arithmetic shared by both analyzers.
 */
module MarketData {

  /** A closing price; the model takes prices to be positive. */
  type Price = r: real | r > 0.0 witness 1.0

  /**
   * A trading day as a day number. The source compares dates as
   * 'YYYY-MM-DD' strings, whose order is the order of the day numbers.
   */
  type Date = nat

  /** One daily bar: the provider's date, close and volume columns. */
  datatype Bar = Bar(date: Date, close: Price, volume: nat)

  /** What the provider yields for one security over the requested window. */
  datatype Quote = Quote(bars: seq<Bar>, company: map<string, string>, volatility: real)

  /** The provider: a symbol it cannot serve (a network or parsing fault) is absent. */
  type Market = map<string, Quote>

  /** A (symbol, display name) pair of an input stock list. */
  datatype StockId = StockId(symbol: string, name: string)

  /** A surge day: its date, its percentage return, its close and its volume. */
  datatype SurgeEvent = SurgeEvent(date: Date, returnPct: real, price: Price, volume: nat)

  /** Percentage change from `prev` to `today`. */
  function DailyReturn(prev: Price, today: Price): real {
    (today - prev) / prev * 100.0
  }

  /** Applying the return to `prev` gives `today` back, and it is positive exactly on a rise. */
  lemma DailyReturnInverts(prev: Price, today: Price)
    ensures prev * (1.0 + DailyReturn(prev, today) / 100.0) == today
    ensures DailyReturn(prev, today) > 0.0 <==> today > prev
  {
    var ratio := (today - prev) / prev;
    assert prev * ratio == today - prev;
    assert DailyReturn(prev, today) / 100.0 == ratio;
  }

  /** Python's `sum(volumes)`. */
  function SumVolumes(bars: seq<Bar>): nat {
    if bars == [] then 0 else SumVolumes(bars[..|bars| - 1]) + bars[|bars| - 1].volume
  }

  /** `volumes.mean()`. */
  function MeanVolume(bars: seq<Bar>): real
    requires |bars| > 0
  {
    SumVolumes(bars) as real / |bars| as real
  }

  /**
   * The mean volume times the number of days is the total volume traded; so
   * the mean is never negative, and zero exactly when nothing traded.
   */
  lemma MeanVolumeScalesBack(bars: seq<Bar>)
    requires |bars| > 0
    ensures MeanVolume(bars) * (|bars| as real) == SumVolumes(bars) as real
    ensures MeanVolume(bars) >= 0.0
    ensures MeanVolume(bars) == 0.0 <==> SumVolumes(bars) == 0
  {
  }

  /** Python's `max(volumes)`. */
  function MaxVolume(bars: seq<Bar>): nat
    requires |bars| > 0
  {
    if |bars| == 1 then bars[0].volume
    else
      var rest := MaxVolume(bars[1..]);
      if bars[0].volume >= rest then bars[0].volume else rest
  }

  /** The largest volume bounds every day's volume and is some day's volume. */
  lemma {:induction false} MaxVolumeIsMax(bars: seq<Bar>)
    requires |bars| > 0
    ensures forall i :: 0 <= i < |bars| ==> bars[i].volume <= MaxVolume(bars)
    ensures exists i :: 0 <= i < |bars| && bars[i].volume == MaxVolume(bars)
  {
    if |bars| > 1 {
      var rest := bars[1..];
      MaxVolumeIsMax(rest);
      assert forall i :: 1 <= i < |bars| ==> bars[i] == rest[i - 1];
      if bars[0].volume < MaxVolume(rest) {
        var j :| 0 <= j < |rest| && rest[j].volume == MaxVolume(rest);
        assert bars[j + 1] == rest[j];
      }
    } else {
      assert bars[0].volume == MaxVolume(bars);
    }
  }

  /** Python's `max(closes)`. */
  function MaxClose(bars: seq<Bar>): Price
    requires |bars| > 0
  {
    if |bars| == 1 then bars[0].close
    else
      var rest := MaxClose(bars[1..]);
      if bars[0].close >= rest then bars[0].close else rest
  }

  /** The largest close bounds every close and is some day's close. */
  lemma {:induction false} MaxCloseIsMax(bars: seq<Bar>)
    requires |bars| > 0
    ensures forall i :: 0 <= i < |bars| ==> bars[i].close <= MaxClose(bars)
    ensures exists i :: 0 <= i < |bars| && bars[i].close == MaxClose(bars)
  {
    if |bars| > 1 {
      var rest := bars[1..];
      MaxCloseIsMax(rest);
      assert forall i :: 1 <= i < |bars| ==> bars[i] == rest[i - 1];
      if bars[0].close < MaxClose(rest) {
        var j :| 0 <= j < |rest| && rest[j].close == MaxClose(rest);
        assert bars[j + 1] == rest[j];
      }
    } else {
      assert bars[0].close == MaxClose(bars);
    }
  }

  /** Python's `min(closes)`. */
  function MinClose(bars: seq<Bar>): Price
    requires |bars| > 0
  {
    if |bars| == 1 then bars[0].close
    else
      var rest := MinClose(bars[1..]);
      if bars[0].close <= rest then bars[0].close else rest
  }

  /** The smallest close is at most every close and is some day's close. */
  lemma {:induction false} MinCloseIsMin(bars: seq<Bar>)
    requires |bars| > 0
    ensures forall i :: 0 <= i < |bars| ==> MinClose(bars) <= bars[i].close
    ensures exists i :: 0 <= i < |bars| && bars[i].close == MinClose(bars)
  {
    if |bars| > 1 {
      var rest := bars[1..];
      MinCloseIsMin(rest);
      assert forall i :: 1 <= i < |bars| ==> bars[i] == rest[i - 1];
      if bars[0].close > MinClose(rest) {
        var j :| 0 <= j < |rest| && rest[j].close == MinClose(rest);
        assert bars[j + 1] == rest[j];
      }
    } else {
      assert bars[0].close == MinClose(bars);
    }
  }

  lemma MulLeftMono(a: nat, b: nat, c: nat)
    requires b <= c
    ensures a * b <= a * c
    ensures b * a <= c * a
  {
  }

  lemma MulSucc(a: nat, b: nat)
    ensures (a + 1) * b == a * b + b
    ensures b * (a + 1) == b * a + b
  {
  }

  /** The total volume is at most the number of days times the largest volume. */
  lemma {:induction false} SumAtMostCountTimesMax(bars: seq<Bar>)
    requires |bars| > 0
    ensures SumVolumes(bars) <= |bars| * MaxVolume(bars)
  {
    var n := |bars|;
    var front := bars[..n - 1];
    var m := MaxVolume(bars);
    MaxVolumeIsMax(bars);
    assert bars[n - 1].volume <= m;
    if n > 1 {
      SumAtMostCountTimesMax(front);
      MaxVolumeIsMax(front);
      var i :| 0 <= i < |front| && front[i].volume == MaxVolume(front);
      assert front[i] == bars[i];
      MulLeftMono(n - 1, MaxVolume(front), m);
      MulSucc(n - 1, m);
    }
  }

  /** Some day trades at most the average volume: `volume * len <= sum`. */
  lemma {:induction false} SomeDayAtMostAverage(bars: seq<Bar>)
    requires |bars| > 0
    ensures exists i :: 0 <= i < |bars| && bars[i].volume * |bars| <= SumVolumes(bars)
  {
    var n := |bars|;
    var front := bars[..n - 1];
    var last := bars[n - 1];
    if n == 1 {
      assert bars[0].volume * 1 <= SumVolumes(bars);
    } else {
      SomeDayAtMostAverage(front);
      var i :| 0 <= i < |front| && front[i].volume * (n - 1) <= SumVolumes(front);
      assert front[i] == bars[i];
      var v := front[i].volume;
      if last.volume <= v {
        // the last day is at or below the front's witness, hence at or below the average
        MulLeftMono(n - 1, last.volume, v);
        MulSucc(n - 1, last.volume);
        assert last.volume * n <= SumVolumes(bars);
      } else {
        // the witness gains only its own volume, the sum gains more
        MulSucc(n - 1, v);
        assert v * n <= SumVolumes(bars);
      }
    }
  }

  /** The largest surge return: Python's `max(s['return'] for s in surges)`. */
  function MaxSurgeReturn(surges: seq<SurgeEvent>): real
    requires |surges| > 0
  {
    if |surges| == 1 then surges[0].returnPct
    else
      var rest := MaxSurgeReturn(surges[1..]);
      if surges[0].returnPct >= rest then surges[0].returnPct else rest
  }

  /** The largest surge return is at least every surge's return and is one of them. */
  lemma {:induction false} MaxSurgeReturnIsMax(surges: seq<SurgeEvent>)
    requires |surges| > 0
    ensures forall e :: e in surges ==> e.returnPct <= MaxSurgeReturn(surges)
    ensures exists e :: e in surges && e.returnPct == MaxSurgeReturn(surges)
  {
    if |surges| > 1 {
      var rest := surges[1..];
      MaxSurgeReturnIsMax(rest);
      assert surges == [surges[0]] + rest;
      if surges[0].returnPct < MaxSurgeReturn(rest) {
        var e :| e in rest && e.returnPct == MaxSurgeReturn(rest);
        assert e in surges;
      }
    } else {
      assert surges[0] in surges;
    }
  }

  lemma MeanBounds(sum: real, n: real, max: real, mean: real)
    requires n >= 1.0 && 0.0 < sum <= n * max && mean == sum / n
    ensures 0.0 < mean <= max
  {
  }

  lemma CastMul(a: nat, b: nat)
    ensures (a * b) as real == (a as real) * (b as real)
  {
  }

  /** The mean of `n` counts summing to a positive `sum`, none above `max`, lies in `(0, max]`. */
  lemma MeanAtMostMax(sum: nat, n: nat, max: nat, mean: real)
    requires n >= 1 && 0 < sum <= n * max
    requires mean == sum as real / n as real
    ensures 0.0 < mean <= max as real
  {
    CastMul(n, max);
    MeanBounds(sum as real, n as real, max as real, mean);
  }

  /** The mean volume of a series that trades at all is positive and at most its largest volume. */
  lemma MeanVolumeBounds(bars: seq<Bar>)
    requires |bars| > 0 && SumVolumes(bars) > 0
    ensures 0.0 < MeanVolume(bars) <= MaxVolume(bars) as real
  {
    SumAtMostCountTimesMax(bars);
    MeanAtMostMax(SumVolumes(bars), |bars|, MaxVolume(bars), MeanVolume(bars));
  }

  /** The mean volume lies between zero and the largest volume. */
  lemma MeanVolumeAtMostMax(bars: seq<Bar>)
    requires |bars| > 0
    ensures 0.0 <= MeanVolume(bars) <= MaxVolume(bars) as real
  {
    if SumVolumes(bars) > 0 {
      MeanVolumeBounds(bars);
    }
  }

  /** Dividing by a positive count and multiplying back gives the total. */
  lemma DivThenMul(a: real, c: real)
    requires c > 0.0
    ensures (a / c) * c == a
  {
  }
}
