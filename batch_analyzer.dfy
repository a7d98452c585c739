/**
 * The batch analyzer: it runs the single-security analysis over a stock list,
 * keeps one summary per analysable stock in a list that is never cleared, and
 * derives the summary report (three rankings, the industry table and three
 * advice tiers) from that list.
 */
module BatchAnalyzer {
  import opened Wrappers
  import opened Ranking
  import opened MarketData
  import opened UniversalAnalyzer

  /** The placeholder for a missing company field. */
  const Unknown: string := "未知"
  /** The company-information key of the industry. */
  const IndustryField: string := "行业"
  /** The company-information key of the total market value. */
  const MarketCapField: string := "总市值"
  /** The rankings of the report show their first ten entries. */
  const RankingLength: nat := 10
  /** The advice tiers show their first five entries. */
  const TierLength: nat := 5

  /** The per-stock record the batch analyzer keeps (the analysis time is left out). */
  datatype StockSummary = StockSummary(
    symbol: string, name: string, currentPrice: Price, totalReturn: real, volatility: real,
    surgeCount: nat, volumeSpikeCount: nat, maxSurge: real, industry: string, marketCap: string)

  /** `company.get(field, '未知')`. */
  function CompanyField(company: map<string, string>, field: string): string {
    if field in company then company[field] else Unknown
  }

  /** `_create_summary`: the figures of one analysis, the largest surge (0 without surges) and the company fields. */
  function CreateSummary(stock: StockId, result: AnalysisResult): (s: StockSummary)
    ensures s.symbol == stock.symbol && s.name == stock.name
    ensures s.currentPrice == result.basic.currentPrice && s.totalReturn == result.basic.totalReturn
    ensures s.volatility == result.basic.volatility
    ensures s.surgeCount == |result.surges| && s.volumeSpikeCount == |result.volume.spikes|
    ensures |result.surges| == 0 ==> s.maxSurge == 0.0
    ensures IndustryField in result.company ==> s.industry == result.company[IndustryField]
    ensures IndustryField !in result.company ==> s.industry == Unknown
    ensures MarketCapField in result.company ==> s.marketCap == result.company[MarketCapField]
    ensures MarketCapField !in result.company ==> s.marketCap == Unknown
  {
    StockSummary(
      stock.symbol, stock.name, result.basic.currentPrice, result.basic.totalReturn, result.basic.volatility,
      |result.surges|, |result.volume.spikes|,
      if |result.surges| > 0 then MaxSurgeReturn(result.surges) else 0.0,
      CompanyField(result.company, IndustryField), CompanyField(result.company, MarketCapField))
  }

  /** With surges, the summary's largest surge is at least every surge's return and is one of them. */
  lemma SummaryMaxSurge(stock: StockId, result: AnalysisResult)
    requires |result.surges| > 0
    ensures var s := CreateSummary(stock, result);
      && (forall e :: e in result.surges ==> e.returnPct <= s.maxSurge)
      && (exists e :: e in result.surges && e.returnPct == s.maxSurge)
  {
    MaxSurgeReturnIsMax(result.surges);
  }

  // ---------------------------------------------------------------------------
  // The list of summaries a batch adds

  /** The summary one stock of the list contributes, absent when its analysis is. */
  function SummaryOf(stock: StockId, market: Market): Option<StockSummary> {
    match AnalysisOf(market, stock.symbol, DefaultSurgeThreshold, DefaultVolumeThreshold)
    case None => None
    case Some(result) => Some(CreateSummary(stock, result))
  }

  /** The outcome for each stock of `stocks`, in list order. */
  function SummaryResults(stocks: seq<StockId>, market: Market): (r: seq<Option<StockSummary>>)
    ensures |r| == |stocks|
  {
    if stocks == [] then []
    else SummaryResults(stocks[..|stocks| - 1], market) + [SummaryOf(stocks[|stocks| - 1], market)]
  }

  /** Position `i` of the outcomes is the outcome for the `i`-th stock. */
  lemma {:induction false} SummaryResultsAt(stocks: seq<StockId>, market: Market, i: nat)
    requires i < |stocks|
    ensures SummaryResults(stocks, market)[i] == SummaryOf(stocks[i], market)
  {
    var front := stocks[..|stocks| - 1];
    if i < |front| {
      SummaryResultsAt(front, market, i);
      assert SummaryResults(stocks, market)[i] == SummaryResults(front, market)[i];
      assert front[i] == stocks[i];
    }
  }

  lemma SummaryResultsAre(stocks: seq<StockId>, market: Market)
    ensures forall i :: 0 <= i < |stocks| ==> SummaryResults(stocks, market)[i] == SummaryOf(stocks[i], market)
  {
    forall i | 0 <= i < |stocks| ensures SummaryResults(stocks, market)[i] == SummaryOf(stocks[i], market) {
      SummaryResultsAt(stocks, market, i);
    }
  }


  /** The summaries of the analysable stocks of `stocks`, in list order. */
  function Summaries(stocks: seq<StockId>, market: Market): seq<StockSummary> {
    Present(SummaryResults(stocks, market))
  }

  /** Analysing one more stock appends its summary when its analysis is present. */
  lemma SummariesStep(stocks: seq<StockId>, i: nat, market: Market)
    requires i < |stocks|
    ensures Summaries(stocks[..i + 1], market)
         == Summaries(stocks[..i], market) + match SummaryOf(stocks[i], market) case None => [] case Some(s) => [s]
  {
    assert stocks[..i + 1][..i] == stocks[..i];
    PresentStep(SummaryResults(stocks[..i], market), SummaryOf(stocks[i], market));
  }

  /**
   * A batch keeps exactly the summaries of the stocks whose analysis is
   * present, and keeps them all exactly when no analysis is absent.
   */
  lemma SummariesAreTheAnalysableStocks(stocks: seq<StockId>, market: Market)
    ensures |Summaries(stocks, market)| <= |stocks|
    ensures forall j :: 0 <= j < |Summaries(stocks, market)| ==>
              exists i :: 0 <= i < |stocks| && SummaryOf(stocks[i], market) == Some(Summaries(stocks, market)[j])
    ensures forall i :: 0 <= i < |stocks| && SummaryOf(stocks[i], market).Some? ==>
              SummaryOf(stocks[i], market).value in Summaries(stocks, market)
    ensures |Summaries(stocks, market)| == |stocks| <==>
              forall i :: 0 <= i < |stocks| ==> SummaryOf(stocks[i], market).Some?
  {
    var results := SummaryResults(stocks, market);
    SummaryResultsAre(stocks, market);
    PresentAreResults(results);
    PresentResultsKept(results);
    PresentDropsNothing(results);
  }

  /** Analysing two lists one after the other adds the summaries of their concatenation. */
  lemma SummariesOfConcatenation(a: seq<StockId>, b: seq<StockId>, market: Market)
    ensures Summaries(a + b, market) == Summaries(a, market) + Summaries(b, market)
  {
    SummaryResultsAre(a + b, market);
    SummaryResultsAre(a, market);
    SummaryResultsAre(b, market);
    assert SummaryResults(a + b, market) == SummaryResults(a, market) + SummaryResults(b, market);
    PresentOfConcatenation(SummaryResults(a, market), SummaryResults(b, market));
  }

  // ---------------------------------------------------------------------------
  // Ranking keys and the advice tiers

  function SurgeCountKey(s: StockSummary): real { s.surgeCount as real }

  function TotalReturnKey(s: StockSummary): real { s.totalReturn }

  function VolatilityKey(s: StockSummary): real { s.volatility }

  /** At least five surges and a total return above 10%. */
  predicate IsHighPotential(s: StockSummary) { s.surgeCount >= 5 && s.totalReturn > 10.0 }

  /** A volatility below 3% and a total return above 5%. */
  predicate IsStable(s: StockSummary) { s.volatility < 3.0 && s.totalReturn > 5.0 }

  /** A volatility above 8% or a total return below -20%. */
  predicate IsHighRisk(s: StockSummary) { s.volatility > 8.0 || s.totalReturn < -20.0 }

  /**
   * `r` is the tier of `results` selected by `p`, ranked by `key`: the top
   * five of the qualifying stocks (each taken at most as often as it
   * qualifies, largest key first, equal keys in list order), every one of
   * them qualifying, and all of them when at most five qualify.
   */
  ghost predicate IsTier(r: seq<StockSummary>, results: seq<StockSummary>, p: StockSummary -> bool, key: StockSummary -> real) {
    && IsTopOf(r, Filter(results, p), key, TierLength)
    && (forall j :: 0 <= j < |r| ==> p(r[j]) && r[j] in results)
    && (|Filter(results, p)| <= TierLength ==> multiset(r) == multiset(Filter(results, p)))
  }

  lemma SameSizeSubMultiset<T>(a: multiset<T>, b: multiset<T>)
    requires a <= b && |a| == |b|
    ensures a == b
  {
    assert |b - a| == |b| - |a|;
  }

  lemma TopOfFilterQualifies(results: seq<StockSummary>, p: StockSummary -> bool, key: StockSummary -> real)
    ensures var r := Top(Filter(results, p), key, TierLength);
              forall j :: 0 <= j < |r| ==> p(r[j]) && r[j] in results
  {
    var candidates := Filter(results, p);
    var r := Top(candidates, key, TierLength);
    forall j | 0 <= j < |r| ensures p(r[j]) && r[j] in results {
      assert r[j] in multiset(candidates);
      var k :| 0 <= k < |candidates| && candidates[k] == r[j];
      assert candidates[k] in multiset(results);
    }
  }

  lemma TopOfFilterComplete(results: seq<StockSummary>, p: StockSummary -> bool, key: StockSummary -> real)
    requires |Filter(results, p)| <= TierLength
    ensures multiset(Top(Filter(results, p), key, TierLength)) == multiset(Filter(results, p))
  {
    var candidates := Filter(results, p);
    SameSizeSubMultiset(multiset(Top(candidates, key, TierLength)), multiset(candidates));
  }

  lemma TopOfFilterIsTier(results: seq<StockSummary>, p: StockSummary -> bool, key: StockSummary -> real)
    ensures IsTier(Top(Filter(results, p), key, TierLength), results, p, key)
  {
    TopOfFilterQualifies(results, p, key);
    if |Filter(results, p)| <= TierLength {
      TopOfFilterComplete(results, p, key);
    }
  }

  /** `sorted([s for s in results if p(s)], key=key, reverse=True)[:5]`. */
  function Tier(results: seq<StockSummary>, p: StockSummary -> bool, key: StockSummary -> real): (r: seq<StockSummary>)
    ensures IsTier(r, results, p, key)
  {
    TopOfFilterIsTier(results, p, key);
    Top(Filter(results, p), key, TierLength)
  }

  // ---------------------------------------------------------------------------
  // The industry table

  /** One row of the industry table: the stock count, the average return, the average surge count and the member names. */
  datatype IndustryStats = IndustryStats(industry: string, count: nat, avgReturn: real, avgSurgeCount: real, stocks: seq<string>)

  function AvgReturnKey(t: IndustryStats): real { t.avgReturn }

  /** The stocks of `results` in `industry`, in list order. */
  function InIndustry(results: seq<StockSummary>, industry: string): seq<StockSummary> {
    if results == [] then []
    else
      var last := results[|results| - 1];
      InIndustry(results[..|results| - 1], industry) + if last.industry == industry then [last] else []
  }

  /** The members of an industry are stocks of the list in that industry. */
  lemma {:induction false} InIndustryMembers(results: seq<StockSummary>, industry: string)
    ensures |InIndustry(results, industry)| <= |results|
    ensures forall j :: 0 <= j < |InIndustry(results, industry)| ==>
              InIndustry(results, industry)[j].industry == industry && InIndustry(results, industry)[j] in results
  {
    if results != [] {
      var prefix := results[..|results| - 1];
      InIndustryMembers(prefix, industry);
      var m := InIndustry(prefix, industry);
      assert forall j :: 0 <= j < |m| ==> m[j] in prefix;
    }
  }

  /**
   * An industry's group holds every summary of that industry, as often as
   * the list holds it, no other summary, and keeps the list order.
   */
  lemma InIndustryIsTheIndustrysSummaries(results: seq<StockSummary>, industry: string)
    ensures forall x :: multiset(InIndustry(results, industry))[x] == if x.industry == industry then multiset(results)[x] else 0
    ensures IsSubsequence(InIndustry(results, industry), results)
  {
    InIndustryCounts(results, industry);
    InIndustryKeepsOrder(results, industry);
  }

  lemma {:induction false} InIndustryCounts(results: seq<StockSummary>, industry: string)
    ensures forall x :: multiset(InIndustry(results, industry))[x] == if x.industry == industry then multiset(results)[x] else 0
  {
    if results != [] {
      var prefix, last := results[..|results| - 1], results[|results| - 1];
      InIndustryCounts(prefix, industry);
      assert results == prefix + [last];
      assert multiset(results) == multiset(prefix) + multiset{last};
      var kept := if last.industry == industry then [last] else [];
      assert InIndustry(results, industry) == InIndustry(prefix, industry) + kept;
      assert multiset(InIndustry(results, industry)) == multiset(InIndustry(prefix, industry)) + multiset(kept);
    }
  }

  lemma {:induction false} InIndustryKeepsOrder(results: seq<StockSummary>, industry: string)
    ensures IsSubsequence(InIndustry(results, industry), results)
  {
    if results != [] {
      var prefix, last := results[..|results| - 1], results[|results| - 1];
      InIndustryKeepsOrder(prefix, industry);
      var m := InIndustry(results, industry);
      if last.industry == industry {
        assert m[..|m| - 1] == InIndustry(prefix, industry);
      } else {
        assert m == InIndustry(prefix, industry);
      }
    }
  }

  function SumReturns(s: seq<StockSummary>): real {
    if s == [] then 0.0 else SumReturns(s[..|s| - 1]) + s[|s| - 1].totalReturn
  }

  function SumSurges(s: seq<StockSummary>): nat {
    if s == [] then 0 else SumSurges(s[..|s| - 1]) + s[|s| - 1].surgeCount
  }

  function Names(s: seq<StockSummary>): seq<string> {
    seq(|s|, j requires 0 <= j < |s| => s[j].name)
  }

  /** The industries of `results` in order of first appearance (the key order of the source's dict). */
  function IndustryOrder(results: seq<StockSummary>): seq<string> {
    if results == [] then []
    else
      var last := results[|results| - 1];
      var order := IndustryOrder(results[..|results| - 1]);
      if last.industry in order then order else order + [last.industry]
  }

  /** Some summary before position `j` has `industry`. */
  ghost predicate SeenBefore(results: seq<StockSummary>, j: nat, industry: string)
    requires j <= |results|
  {
    exists i :: 0 <= i < j && results[i].industry == industry
  }

  /**
   * The industry order lists each industry of the list once, nothing else,
   * and in order of first appearance: wherever an industry appears, every
   * industry listed before it has already appeared earlier in the list.
   */
  lemma IndustryOrderFacts(results: seq<StockSummary>)
    ensures var order := IndustryOrder(results);
              && (forall i, j :: 0 <= i < j < |order| ==> order[i] != order[j])
              && (forall i :: 0 <= i < |results| ==> results[i].industry in order)
              && (forall k :: 0 <= k < |order| ==> exists i :: 0 <= i < |results| && results[i].industry == order[k])
              && (forall k1, k2, j :: 0 <= k1 < k2 < |order| && 0 <= j < |results| && results[j].industry == order[k2] ==>
                    SeenBefore(results, j, order[k1]))
  {
    IndustryOrderDistinct(results);
    IndustryOrderCovers(results);
    IndustryOrderOnlyListed(results);
    IndustryOrderFirstSeen(results);
  }

  lemma {:induction false} IndustryOrderFirstSeen(results: seq<StockSummary>)
    ensures forall k1, k2, j ::
              0 <= k1 < k2 < |IndustryOrder(results)| && 0 <= j < |results| && results[j].industry == IndustryOrder(results)[k2]
              ==> SeenBefore(results, j, IndustryOrder(results)[k1])
  {
    if results != [] {
      var prefix, last := results[..|results| - 1], |results| - 1;
      var order, whole := IndustryOrder(prefix), IndustryOrder(results);
      forall k1, k2, j | 0 <= k1 < k2 < |whole| && 0 <= j < |results| && results[j].industry == whole[k2]
        ensures SeenBefore(results, j, whole[k1])
      {
        assert whole[k1] == order[k1];
        if j < last {
          IndustryOrderCovers(prefix);
          assert results[j] == prefix[j];
          assert k2 < |order|;
          IndustryOrderFirstSeen(prefix);
          assert SeenBefore(prefix, j, order[k1]);
          var i :| 0 <= i < j && prefix[i].industry == order[k1];
          assert results[i] == prefix[i];
        } else {
          IndustryOrderOnlyListed(prefix);
          var i :| 0 <= i < |prefix| && prefix[i].industry == order[k1];
          assert results[i] == prefix[i];
        }
      }
    }
  }

  lemma {:induction false} IndustryOrderDistinct(results: seq<StockSummary>)
    ensures forall i, j :: 0 <= i < j < |IndustryOrder(results)| ==> IndustryOrder(results)[i] != IndustryOrder(results)[j]
  {
    if results != [] {
      var prefix, last := results[..|results| - 1], results[|results| - 1];
      IndustryOrderDistinct(prefix);
      var order := IndustryOrder(prefix);
      if last.industry !in order {
        var grown := order + [last.industry];
        assert IndustryOrder(results) == grown;
        forall i, j | 0 <= i < j < |grown| ensures grown[i] != grown[j] {
          if j < |order| {
            assert grown[i] == order[i] && grown[j] == order[j];
          } else {
            assert grown[i] == order[i] && order[i] in order;
          }
        }
      }
    }
  }

  lemma {:induction false} IndustryOrderCovers(results: seq<StockSummary>)
    ensures forall i :: 0 <= i < |results| ==> results[i].industry in IndustryOrder(results)
  {
    if results != [] {
      var prefix := results[..|results| - 1];
      IndustryOrderCovers(prefix);
      assert forall i :: 0 <= i < |prefix| ==> prefix[i] == results[i];
    }
  }

  lemma {:induction false} IndustryOrderOnlyListed(results: seq<StockSummary>)
    ensures forall k :: 0 <= k < |IndustryOrder(results)| ==>
              exists i :: 0 <= i < |results| && results[i].industry == IndustryOrder(results)[k]
  {
    if results != [] {
      var prefix, last := results[..|results| - 1], |results| - 1;
      IndustryOrderOnlyListed(prefix);
      var order := IndustryOrder(prefix);
      forall k | 0 <= k < |IndustryOrder(results)|
        ensures exists i :: 0 <= i < |results| && results[i].industry == IndustryOrder(results)[k]
      {
        if k < |order| {
          assert IndustryOrder(results)[k] == order[k];
          var i :| 0 <= i < |prefix| && prefix[i].industry == order[k];
          assert results[i] == prefix[i];
        } else {
          assert results[last].industry == IndustryOrder(results)[k];
        }
      }
    } else {
      assert IndustryOrder(results) == [];
    }
  }

  /** The row for `industry` while the source is still accumulating: sums in the average fields. */
  function Totals(results: seq<StockSummary>, industry: string): IndustryStats {
    var m := InIndustry(results, industry);
    IndustryStats(industry, |m|, SumReturns(m), SumSurges(m) as real, Names(m))
  }

  /** The second pass of the source: each sum divided by the row's count. */
  function Averaged(t: IndustryStats): IndustryStats
    requires t.count > 0
  {
    t.(avgReturn := t.avgReturn / t.count as real, avgSurgeCount := t.avgSurgeCount / t.count as real)
  }

  /** A listed industry has at least one stock. */
  lemma {:induction false} ListedIndustryHasMembers(results: seq<StockSummary>, industry: string)
    requires industry in IndustryOrder(results)
    ensures |InIndustry(results, industry)| > 0
  {
    IndustryOrderFacts(results);
    var k :| 0 <= k < |IndustryOrder(results)| && IndustryOrder(results)[k] == industry;
    var i :| 0 <= i < |results| && results[i].industry == industry;
    StockInItsIndustry(results, i);
  }

  /** Every stock appears among the members of its own industry. */
  lemma {:induction false} StockInItsIndustry(results: seq<StockSummary>, i: nat)
    requires i < |results|
    ensures results[i] in InIndustry(results, results[i].industry)
  {
    var n := |results|;
    if i < n - 1 {
      var prefix := results[..n - 1];
      assert prefix[i] == results[i];
      StockInItsIndustry(prefix, i);
    }
  }

  /** The finished row of an industry: the count of its stocks and their average return and surge count. */
  function GroupStats(results: seq<StockSummary>, industry: string): (t: IndustryStats)
    requires |InIndustry(results, industry)| > 0
    ensures t.industry == industry && t.count == |InIndustry(results, industry)|
    ensures t.stocks == Names(InIndustry(results, industry))
  {
    Averaged(Totals(results, industry))
  }

  /** The averages of an industry row, times its count, give back the totals of its stocks. */
  lemma GroupAverages(results: seq<StockSummary>, industry: string)
    requires |InIndustry(results, industry)| > 0
    ensures var t := GroupStats(results, industry);
              && t.avgReturn * t.count as real == SumReturns(InIndustry(results, industry))
              && t.avgSurgeCount * t.count as real == SumSurges(InIndustry(results, industry)) as real
  {
    var m := InIndustry(results, industry);
    var c := |m| as real;
    DivThenMul(SumReturns(m), c);
    DivThenMul(SumSurges(m) as real, c);
  }

  /** The industry dict after both passes, in key order. */
  function IndustryTable(results: seq<StockSummary>): (table: seq<IndustryStats>)
    ensures |table| == |IndustryOrder(results)|
    ensures forall k :: 0 <= k < |table| ==>
              |InIndustry(results, IndustryOrder(results)[k])| > 0
              && table[k] == GroupStats(results, IndustryOrder(results)[k])
  {
    var order := IndustryOrder(results);
    forall k | 0 <= k < |order| ensures |InIndustry(results, order[k])| > 0 {
      ListedIndustryHasMembers(results, order[k]);
    }
    seq(|order|, k requires 0 <= k < |order| => GroupStats(results, order[k]))
  }

  /** The total of the stock counts of `table`. */
  function SumCounts(table: seq<IndustryStats>): nat {
    if table == [] then 0 else table[0].count + SumCounts(table[1..])
  }

  /** The total of the member counts of the industries `ks`. */
  function GroupSizes(results: seq<StockSummary>, ks: seq<string>): nat {
    if ks == [] then 0 else |InIndustry(results, ks[0])| + GroupSizes(results, ks[1..])
  }

  /** How often `v` occurs in `ks`. */
  function Occurrences(ks: seq<string>, v: string): nat {
    if ks == [] then 0 else (if ks[0] == v then 1 else 0) + Occurrences(ks[1..], v)
  }

  lemma {:induction false} OccursOnce(ks: seq<string>, v: string)
    requires forall i, j :: 0 <= i < j < |ks| ==> ks[i] != ks[j]
    requires v in ks
    ensures Occurrences(ks, v) == 1
  {
    if ks[0] == v {
      NotOccurring(ks[1..], v);
    } else {
      OccursOnce(ks[1..], v);
    }
  }

  lemma {:induction false} NotOccurring(ks: seq<string>, v: string)
    requires v !in ks
    ensures Occurrences(ks, v) == 0
  {
    if ks != [] {
      NotOccurring(ks[1..], v);
    }
  }

  lemma {:induction false} GroupSizesOfEmpty(ks: seq<string>)
    ensures GroupSizes([], ks) == 0
  {
    if ks != [] {
      GroupSizesOfEmpty(ks[1..]);
    }
  }

  lemma {:induction false} GroupSizesGrow(results: seq<StockSummary>, x: StockSummary, ks: seq<string>)
    ensures GroupSizes(results + [x], ks) == GroupSizes(results, ks) + Occurrences(ks, x.industry)
  {
    assert (results + [x])[..|results|] == results;
    if ks != [] {
      GroupSizesGrow(results, x, ks[1..]);
    }
  }

  /** Over distinct industries that cover every stock, the group sizes add up to the number of stocks. */
  lemma {:induction false} GroupSizesCoverAll(results: seq<StockSummary>, ks: seq<string>)
    requires forall i, j :: 0 <= i < j < |ks| ==> ks[i] != ks[j]
    requires forall i :: 0 <= i < |results| ==> results[i].industry in ks
    ensures GroupSizes(results, ks) == |results|
  {
    if results == [] {
      GroupSizesOfEmpty(ks);
    } else {
      var n := |results|;
      var prefix, x := results[..n - 1], results[n - 1];
      assert results == prefix + [x];
      assert forall i :: 0 <= i < |prefix| ==> prefix[i] == results[i];
      GroupSizesCoverAll(prefix, ks);
      GroupSizesGrow(prefix, x, ks);
      OccursOnce(ks, x.industry);
    }
  }

  lemma {:induction false} SumCountsIsGroupSizes(results: seq<StockSummary>, table: seq<IndustryStats>, ks: seq<string>)
    requires |table| == |ks|
    requires forall k :: 0 <= k < |table| ==> table[k].count == |InIndustry(results, ks[k])|
    ensures SumCounts(table) == GroupSizes(results, ks)
  {
    if table != [] {
      SumCountsIsGroupSizes(results, table[1..], ks[1..]);
    }
  }

  /**
   * Every stock falls in exactly one row of the industry table: the rows
   * name distinct industries, every stock's industry has a row, and every
   * row has a stock.
   */
  lemma IndustryTableCoversResults(results: seq<StockSummary>)
    ensures forall i, j :: 0 <= i < j < |IndustryTable(results)| ==>
              IndustryTable(results)[i].industry != IndustryTable(results)[j].industry
    ensures forall i :: 0 <= i < |results| ==>
              exists k :: 0 <= k < |IndustryTable(results)| && IndustryTable(results)[k].industry == results[i].industry
    ensures forall k :: 0 <= k < |IndustryTable(results)| ==> IndustryTable(results)[k].count >= 1
  {
    var table, order := IndustryTable(results), IndustryOrder(results);
    IndustryOrderFacts(results);
    forall i | 0 <= i < |results|
      ensures exists k :: 0 <= k < |table| && table[k].industry == results[i].industry
    {
      var k :| 0 <= k < |order| && order[k] == results[i].industry;
      assert table[k].industry == order[k];
    }
  }

  /** Some row of the industry table has summary `i`'s industry and lists its name. */
  ghost predicate RowListsSummary(results: seq<StockSummary>, i: nat)
    requires i < |results|
  {
    exists k :: 0 <= k < |IndustryTable(results)|
      && IndustryTable(results)[k].industry == results[i].industry
      && results[i].name in IndustryTable(results)[k].stocks
  }

  /** The `j`-th name of row `k` is the name of a summary of that row's industry. */
  ghost predicate RowNameIsSummary(results: seq<StockSummary>, k: nat, j: nat)
    requires k < |IndustryTable(results)| && j < |IndustryTable(results)[k].stocks|
  {
    exists i :: 0 <= i < |results| && results[i].industry == IndustryTable(results)[k].industry
      && results[i].name == IndustryTable(results)[k].stocks[j]
  }

  /**
   * Every summary's name is listed by its industry's row, the one row with
   * that industry; a row lists only names of summaries of its industry, one
   * per stock it counts.
   */
  lemma IndustryRowsListTheirStocks(results: seq<StockSummary>)
    ensures forall i :: 0 <= i < |results| ==> RowListsSummary(results, i)
    ensures forall k, q :: 0 <= k < q < |IndustryTable(results)| ==>
              IndustryTable(results)[k].industry != IndustryTable(results)[q].industry
    ensures forall k, j :: 0 <= k < |IndustryTable(results)| && 0 <= j < |IndustryTable(results)[k].stocks| ==>
              RowNameIsSummary(results, k, j)
    ensures forall k :: 0 <= k < |IndustryTable(results)| ==>
              |IndustryTable(results)[k].stocks| == IndustryTable(results)[k].count
  {
    IndustryTableCoversResults(results);
    forall i | 0 <= i < |results| ensures RowListsSummary(results, i) {
      var k := RowListingSummary(results, i);
    }
    forall k, j | 0 <= k < |IndustryTable(results)| && 0 <= j < |IndustryTable(results)[k].stocks|
      ensures RowNameIsSummary(results, k, j)
    {
      var i := SummaryListedAt(results, k, j);
    }
  }

  /** The row of summary `i`'s industry lists its name. */
  lemma RowListingSummary(results: seq<StockSummary>, i: nat) returns (k: nat)
    requires i < |results|
    ensures k < |IndustryTable(results)| && IndustryTable(results)[k].industry == results[i].industry
    ensures results[i].name in IndustryTable(results)[k].stocks
  {
    var order := IndustryOrder(results);
    IndustryOrderCovers(results);
    k :| 0 <= k < |order| && order[k] == results[i].industry;
    var m := InIndustry(results, order[k]);
    StockInItsIndustry(results, i);
    var j :| 0 <= j < |m| && m[j] == results[i];
    assert IndustryTable(results)[k] == GroupStats(results, order[k]);
    assert Names(m)[j] == results[i].name;
  }

  /** The `j`-th name of row `k` is the name of a summary of that row's industry. */
  lemma SummaryListedAt(results: seq<StockSummary>, k: nat, j: nat) returns (i: nat)
    requires k < |IndustryTable(results)| && j < |IndustryTable(results)[k].stocks|
    ensures i < |results| && results[i].industry == IndustryTable(results)[k].industry
    ensures results[i].name == IndustryTable(results)[k].stocks[j]
  {
    var order := IndustryOrder(results);
    var m := InIndustry(results, order[k]);
    assert IndustryTable(results)[k] == GroupStats(results, order[k]);
    InIndustryMembers(results, order[k]);
    assert Names(m)[j] == m[j].name;
    i :| 0 <= i < |results| && results[i] == m[j];
  }

  /** The stock counts of the industry table add up to the number of stocks. */
  lemma IndustryCountsAddUp(results: seq<StockSummary>)
    ensures SumCounts(IndustryTable(results)) == |results|
  {
    var table, order := IndustryTable(results), IndustryOrder(results);
    IndustryOrderFacts(results);
    GroupSizesCoverAll(results, order);
    SumCountsIsGroupSizes(results, table, order);
  }

  /** The table sorted by average return, largest first, ties in first-appearance order. */
  function IndustryRanking(results: seq<StockSummary>): (r: seq<IndustryStats>)
    ensures IsStableSortOf(r, IndustryTable(results), AvgReturnKey)
  {
    SortDescIsStableSort(IndustryTable(results), AvgReturnKey);
    SortDesc(IndustryTable(results), AvgReturnKey)
  }

  lemma InIndustryGrows(results: seq<StockSummary>, x: StockSummary, industry: string)
    ensures InIndustry(results + [x], industry) == InIndustry(results, industry) + if x.industry == industry then [x] else []
  {
    assert (results + [x])[..|results|] == results;
  }

  lemma IndustryOrderGrows(results: seq<StockSummary>, x: StockSummary)
    ensures IndustryOrder(results + [x]) == IndustryOrder(results) + if x.industry in IndustryOrder(results) then [] else [x.industry]
  {
    assert (results + [x])[..|results|] == results;
  }

  lemma MembersAreListed(results: seq<StockSummary>, industry: string)
    ensures |InIndustry(results, industry)| > 0 ==> industry in IndustryOrder(results)
  {
    var m := InIndustry(results, industry);
    InIndustryMembers(results, industry);
    if |m| > 0 {
      var i :| 0 <= i < |results| && results[i] == m[0];
    }
  }

  lemma UnlistedIndustryIsEmpty(results: seq<StockSummary>, industry: string)
    requires industry !in IndustryOrder(results)
    ensures InIndustry(results, industry) == []
  {
    MembersAreListed(results, industry);
  }

  /** The row of `industry` after one more stock has been added to the running sums. */
  lemma TotalsGrow(results: seq<StockSummary>, x: StockSummary)
    ensures Totals(results + [x], x.industry) ==
              var t := Totals(results, x.industry);
              t.(count := t.count + 1, avgReturn := t.avgReturn + x.totalReturn,
                 avgSurgeCount := t.avgSurgeCount + x.surgeCount as real, stocks := t.stocks + [x.name])
  {
    InIndustryGrows(results, x, x.industry);
    var m := InIndustry(results, x.industry);
    assert (m + [x])[..|m|] == m;
  }

  lemma TotalsUnchanged(results: seq<StockSummary>, x: StockSummary, industry: string)
    requires x.industry != industry
    ensures Totals(results + [x], industry) == Totals(results, industry)
  {
    InIndustryGrows(results, x, industry);
    var m := InIndustry(results, industry);
    assert m + [] == m;
  }

  /** The index of the row for `industry` in `table`, or `|table|` when there is none. */
  function RowOf(table: seq<IndustryStats>, industry: string): (j: nat)
    ensures j <= |table|
    ensures j < |table| ==> table[j].industry == industry
    ensures j == |table| ==> forall k :: 0 <= k < |table| ==> table[k].industry != industry
  {
    if table == [] then 0
    else if table[|table| - 1].industry == industry then |table| - 1
    else
      var j := RowOf(table[..|table| - 1], industry);
      if j == |table| - 1 then |table| else j
  }

  /** `table` holds the running sums of every industry of `prefix`, in first-appearance order. */
  ghost predicate Accumulated(table: seq<IndustryStats>, prefix: seq<StockSummary>) {
    && |table| == |IndustryOrder(prefix)|
    && forall k :: 0 <= k < |table| ==> table[k] == Totals(prefix, IndustryOrder(prefix)[k])
  }

  /** The row the source creates on first sight of an industry. */
  function NewRow(industry: string): IndustryStats {
    IndustryStats(industry, 0, 0.0, 0.0, [])
  }

  /** One stock added to the running sums of its row: the four increments of the first pass. */
  function AddToRow(t: IndustryStats, x: StockSummary): IndustryStats {
    t.(count := t.count + 1, avgReturn := t.avgReturn + x.totalReturn,
       avgSurgeCount := t.avgSurgeCount + x.surgeCount as real, stocks := t.stocks + [x.name])
  }

  /** The row the next stock lands in, and the running sums of that row afterwards. */
  lemma AccumulatedRow(prefix: seq<StockSummary>, x: StockSummary, table: seq<IndustryStats>)
    requires Accumulated(table, prefix)
    ensures var j, order' := RowOf(table, x.industry), IndustryOrder(prefix + [x]);
              && |order'| == (if j == |table| then |table| + 1 else |table|)
              && order'[..|table|] == IndustryOrder(prefix)
              && order'[j] == x.industry
              && Totals(prefix + [x], x.industry) == AddToRow(if j == |table| then NewRow(x.industry) else table[j], x)
  {
    var order := IndustryOrder(prefix);
    IndustryOrderGrows(prefix, x);
    TotalsGrow(prefix, x);
    var j := RowOf(table, x.industry);
    if j == |table| {
      assert x.industry !in order by {
        forall k | 0 <= k < |order| ensures order[k] != x.industry {
          assert table[k].industry == order[k];
        }
      }
      UnlistedIndustryIsEmpty(prefix, x.industry);
      assert Names([]) == [];
    } else {
      assert order[j] == x.industry;
    }
  }

  /** The rows of the other industries keep their running sums. */
  lemma AccumulatedOthers(prefix: seq<StockSummary>, x: StockSummary, table: seq<IndustryStats>)
    requires Accumulated(table, prefix)
    ensures forall k :: 0 <= k < |table| && k != RowOf(table, x.industry) ==>
              table[k].industry != x.industry && table[k] == Totals(prefix + [x], IndustryOrder(prefix)[k])
  {
    var order := IndustryOrder(prefix);
    var j := RowOf(table, x.industry);
    IndustryOrderFacts(prefix);
    forall k | 0 <= k < |table| && k != j
      ensures table[k].industry != x.industry && table[k] == Totals(prefix + [x], order[k])
    {
      assert table[k].industry == order[k];
      if j < |table| {
        assert order[j] == x.industry;
      }
      TotalsUnchanged(prefix, x, order[k]);
    }
  }

  /** Adding the next stock to its row (a new row on first sight) keeps the running sums exact. */
  lemma AccumulateStep(prefix: seq<StockSummary>, x: StockSummary, table: seq<IndustryStats>, grown: seq<IndustryStats>)
    requires Accumulated(table, prefix)
    requires var j := RowOf(table, x.industry);
             && |grown| == (if j == |table| then |table| + 1 else |table|)
             && grown[j] == AddToRow(if j == |table| then NewRow(x.industry) else table[j], x)
             && forall k :: 0 <= k < |table| && k != j ==> grown[k] == table[k]
    ensures Accumulated(grown, prefix + [x])
  {
    var j, order' := RowOf(table, x.industry), IndustryOrder(prefix + [x]);
    AccumulatedRow(prefix, x, table);
    AccumulatedOthers(prefix, x, table);
    forall k | 0 <= k < |grown| ensures grown[k] == Totals(prefix + [x], order'[k]) {
      if k != j {
        assert order'[k] == order'[..|table|][k];
      }
    }
  }

  /**
   * The first pass of `_generate_summary_report` over the industry dict:
   * each stock goes into its industry's row (a new row on first sight),
   * adding to the row's count, sums and member names.
   */
  method AccumulateIndustries(results: seq<StockSummary>) returns (table: seq<IndustryStats>)
    ensures Accumulated(table, results)
  {
    table := [];
    var i := 0;
    ghost var seen: seq<StockSummary> := [];
    while i < |results|
      invariant i <= |results|
      invariant seen == results[..i]
      invariant Accumulated(table, seen)
    {
      var stock := results[i];
      ghost var before := table;
      var j := RowOf(table, stock.industry);
      if j == |table| {
        table := table + [NewRow(stock.industry)];
      }
      table := table[j := AddToRow(table[j], stock)];
      AccumulateStep(seen, stock, before, table);
      PrefixGrows(results, i);
      seen := seen + [stock];
      i := i + 1;
    }
    assert seen == results;
  }

  /** The second pass: each row's sums divided by its count, in place. */
  method AverageIndustries(ghost results: seq<StockSummary>, sums: seq<IndustryStats>) returns (table: seq<IndustryStats>)
    requires Accumulated(sums, results)
    ensures table == IndustryTable(results)
  {
    table := sums;
    ghost var order := IndustryOrder(results);
    var k := 0;
    while k < |table|
      invariant k <= |table| == |IndustryTable(results)|
      invariant forall q :: 0 <= q < k ==> table[q] == IndustryTable(results)[q]
      invariant forall q :: k <= q < |table| ==> table[q] == Totals(results, order[q])
    {
      assert IndustryTable(results)[k] == GroupStats(results, order[k]);
      table := table[k := table[k].(
        avgReturn := table[k].avgReturn / table[k].count as real,
        avgSurgeCount := table[k].avgSurgeCount / table[k].count as real)];
      k := k + 1;
    }
  }

  /** The industry table of `_generate_summary_report`: accumulate, then average. */
  method AggregateIndustries(results: seq<StockSummary>) returns (table: seq<IndustryStats>)
    ensures table == IndustryTable(results)
  {
    var sums := AccumulateIndustries(results);
    table := AverageIndustries(results, sums);
  }

  // ---------------------------------------------------------------------------
  // The report

  /** What `_generate_summary_report` prints, as data. */
  datatype SummaryReport = SummaryReport(
    surgeRanking: seq<StockSummary>,
    returnRanking: seq<StockSummary>,
    volatilityRanking: seq<StockSummary>,
    industries: seq<IndustryStats>,
    highPotential: seq<StockSummary>,
    stable: seq<StockSummary>,
    highRisk: seq<StockSummary>)

  /** The report of a list of summaries; none for an empty list. */
  function ReportOf(results: seq<StockSummary>): (r: Option<SummaryReport>)
    ensures r.None? <==> results == []
    ensures r.Some? ==>
              var rep := r.value;
              && IsTopOf(rep.surgeRanking, results, SurgeCountKey, RankingLength)
              && IsTopOf(rep.returnRanking, results, TotalReturnKey, RankingLength)
              && IsTopOf(rep.volatilityRanking, results, VolatilityKey, RankingLength)
              && IsStableSortOf(rep.industries, IndustryTable(results), AvgReturnKey)
              && IsTier(rep.highPotential, results, IsHighPotential, SurgeCountKey)
              && IsTier(rep.stable, results, IsStable, TotalReturnKey)
              && IsTier(rep.highRisk, results, IsHighRisk, VolatilityKey)
  {
    if results == [] then None
    else
      Some(SummaryReport(
        Top(results, SurgeCountKey, RankingLength),
        Top(results, TotalReturnKey, RankingLength),
        Top(results, VolatilityKey, RankingLength),
        IndustryRanking(results),
        Tier(results, IsHighPotential, SurgeCountKey),
        Tier(results, IsStable, TotalReturnKey),
        Tier(results, IsHighRisk, VolatilityKey)))
  }

  // ---------------------------------------------------------------------------
  // The analyzer object

  /** `BatchSurgeAnalyzer`: the summaries of every stock analysed so far. */
  class BatchSurgeAnalyzer {
    var results: seq<StockSummary>

    constructor()
      ensures results == []
    {
      results := [];
    }

    /**
     * `analyze_stock_list`: appends the summary of each analysable stock, in
     * list order, to the summaries already held, then reports on all of them.
     */
    method AnalyzeStockList(stocks: seq<StockId>, market: Market) returns (all: seq<StockSummary>, report: Option<SummaryReport>)
      modifies this
      ensures results == old(results) + Summaries(stocks, market)
      ensures all == results
      ensures report == ReportOf(results)
    {
      var i := 0;
      while i < |stocks|
        invariant i <= |stocks|
        invariant results == old(results) + Summaries(stocks[..i], market)
      {
        var stock := stocks[i];
        var analysis := AnalyzeStock(market, stock.symbol, DefaultSurgeThreshold, DefaultVolumeThreshold);
        if analysis.Some? {
          results := results + [CreateSummary(stock, analysis.value)];
        }
        SummariesStep(stocks, i, market);
        i := i + 1;
      }
      assert stocks[..i] == stocks;
      report := GenerateSummaryReport();
      all := results;
    }

    /** `_generate_summary_report` over the summaries held. */
    method GenerateSummaryReport() returns (report: Option<SummaryReport>)
      ensures report == ReportOf(results)
    {
      if results == [] {
        return None;
      }
      var table := AggregateIndustries(results);
      report := Some(SummaryReport(
        Top(results, SurgeCountKey, RankingLength),
        Top(results, TotalReturnKey, RankingLength),
        Top(results, VolatilityKey, RankingLength),
        SortDesc(table, AvgReturnKey),
        Tier(results, IsHighPotential, SurgeCountKey),
        Tier(results, IsStable, TotalReturnKey),
        Tier(results, IsHighRisk, VolatilityKey)));
    }
  }
}
