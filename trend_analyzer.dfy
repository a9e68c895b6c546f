/**
 * The trend analyzer: a per-user store of readings kept for one year, the
 * guards in front of the trend analysis, the classifiers applied to the
 * statistics of the readings, and the status, outlook and action list built
 * from a trend report. The statistics themselves (means, changes,
 * coefficients of variation, month-by-month spread, correlations) are
 * computed by pandas and are inputs here.
 */
module Trends {
  import opened Common
  import opened Text
  import opened Ranking
  import opened Retention
  import KnowledgeBase

  /** A relative change beyond this fraction is a trend. */
  const SIGNIFICANT_CHANGE: real := 0.2
  /** The number of readings below which no analysis is attempted. */
  const MINIMUM_DATA_POINTS: nat := 5
  /** Readings are kept for this long. */
  const RETENTION_DAYS: nat := 365

  const NO_DATA: string := "No data available for analysis"
  const INSUFFICIENT_DATA: string := "Insufficient data for trend analysis"

  /** One reading: the metrics reported (bee count, honey yield, ...) and the instant it was stored. */
  type Reading = map<string, real>
  datatype DataPoint = DataPoint(data: Reading, timestamp: int)

  function Stamp(p: DataPoint): int { p.timestamp }

  class BeeTrendAnalyzer {
    /** `dataPoints[user]`: the user's readings of the last year, oldest first. */
    var dataPoints: map<string, seq<DataPoint>>

    constructor ()
      ensures dataPoints == map[]
    {
      dataPoints := map[];
    }

    function Points(userId: string): seq<DataPoint>
      reads this
    {
      if userId in dataPoints then dataPoints[userId] else []
    }

    /**
     * Stamps the reading with `now`, appends it, and drops every reading of
     * that user that is a year old or older. The new reading is always kept,
     * last; other users' readings are untouched.
     */
    method AddDataPoint(userId: string, data: Reading, now: int)
      modifies this
      ensures dataPoints == old(dataPoints)[userId := Newer(old(Points(userId)) + [DataPoint(data, now)], Stamp, now - RETENTION_DAYS * DAY)]
      ensures |dataPoints[userId]| >= 1 && dataPoints[userId][|dataPoints[userId]| - 1] == DataPoint(data, now)
      ensures forall k :: 0 <= k < |dataPoints[userId]| ==> dataPoints[userId][k].timestamp > now - RETENTION_DAYS * DAY
    {
      var points := Points(userId) + [DataPoint(data, now)];
      var kept := KeepNewer(points, Stamp, now - RETENTION_DAYS * DAY);
      NewerSnoc(Points(userId), DataPoint(data, now), Stamp, now - RETENTION_DAYS * DAY);
      dataPoints := dataPoints[userId := kept];
    }

    /** The guards of the analysis: the user's readings, or why there are too few to analyse. */
    function AnalysisInput(userId: string): (r: Result<seq<DataPoint>, string>)
      reads this
      ensures r.Err? <==> userId !in dataPoints || |dataPoints[userId]| < MINIMUM_DATA_POINTS
      ensures r.Err? ==> r.error == if userId !in dataPoints then NO_DATA else INSUFFICIENT_DATA
      ensures r.Ok? ==> r.value == dataPoints[userId] && |r.value| >= MINIMUM_DATA_POINTS
    {
      if userId !in dataPoints then Err(NO_DATA)
      else if |dataPoints[userId]| < MINIMUM_DATA_POINTS then Err(INSUFFICIENT_DATA)
      else Ok(dataPoints[userId])
    }

    /**
     * The trend report of a user, given the statistics pandas derives from
     * the user's readings: the guard's error, or the three partial analyses
     * built from those statistics, with the recommendations drawn from them.
     * A part whose statistics are absent is that part's error.
     */
    method AnalyzeTrends(userId: string, countStats: Option<CountStats>, yieldStats: Option<YieldStats>)
      returns (r: TrendReport)
      ensures r.TrendError? <==> AnalysisInput(userId).Err?
      ensures r.TrendError? ==> r.message == AnalysisInput(userId).error
      ensures r.Trends? ==>
                && r.activity == (if countStats.Some? then ActivityTrendOf(countStats.value.average, countStats.value.change, countStats.value.cv)
                                  else NoActivityData)
                && r.productivity == (if yieldStats.Some? then ProductivityTrendOf(yieldStats.value.average, yieldStats.value.change)
                                      else NoProductivityData)
                && r.seasonal == (if countStats.Some? then SeasonalPattern(countStats.value.peakMonth, countStats.value.lowMonth, countStats.value.seasonalVariation)
                                  else NoSeasonalData)
                && r.recommendations == ActivityAdvice(r.activity) + ProductivityAdvice(r.productivity) + SeasonalAdvice(r.seasonal)
    {
      var input := AnalysisInput(userId);
      if input.Err? {
        return TrendError(input.error);
      }
      var activity, seasonal := NoActivityData, NoSeasonalData;
      if countStats.Some? {
        var c := countStats.value;
        activity := ActivityTrendOf(c.average, c.change, c.cv);
        seasonal := SeasonalPattern(c.peakMonth, c.lowMonth, c.seasonalVariation);
      }
      var productivity := NoProductivityData;
      if yieldStats.Some? {
        productivity := ProductivityTrendOf(yieldStats.value.average, yieldStats.value.change);
      }
      var recommendations := GenerateTrendRecommendations(activity, productivity, seasonal);
      return Trends(activity, productivity, seasonal, recommendations);
    }
  }

  // ---------------------------------------------------------------------
  // Classifiers

  datatype Direction = Increasing | Decreasing | Stable

  /** A relative change above +0.2 is increasing, below -0.2 decreasing; exactly ±0.2 is stable. */
  function TrendDirection(change: real): (r: Direction)
    ensures r == Increasing <==> change > SIGNIFICANT_CHANGE
    ensures r == Decreasing <==> change < -SIGNIFICANT_CHANGE
    ensures r == Stable <==> -SIGNIFICANT_CHANGE <= change <= SIGNIFICANT_CHANGE
  {
    if change > SIGNIFICANT_CHANGE then Increasing
    else if change < -SIGNIFICANT_CHANGE then Decreasing
    else Stable
  }

  datatype Consistency = VeryConsistent | Consistent | ModeratelyVariable | HighlyVariable

  /** Buckets a coefficient of variation with strict cuts at 0.1, 0.2 and 0.3. */
  function ConsistencyOf(cv: real): (r: Consistency)
    ensures r == VeryConsistent <==> cv < 0.1
    ensures r == Consistent <==> 0.1 <= cv < 0.2
    ensures r == ModeratelyVariable <==> 0.2 <= cv < 0.3
    ensures r == HighlyVariable <==> cv >= 0.3
  {
    if cv < 0.1 then VeryConsistent
    else if cv < 0.2 then Consistent
    else if cv < 0.3 then ModeratelyVariable
    else HighlyVariable
  }

  datatype Comparison = AboveOptimal | Optimal | BelowOptimal

  /** Compares a mean yield with the modern hive's optimal range [15, 25]: the upper bound already counts as above. */
  function CompareToOptimal(value: real): (r: Comparison)
    ensures r == AboveOptimal <==> value >= 25.0
    ensures r == Optimal <==> 15.0 <= value < 25.0
    ensures r == BelowOptimal <==> value < 15.0
  {
    var range := KnowledgeBase.OptimalYield(KnowledgeBase.MODERN_HIVE).value;
    if value >= range.high then AboveOptimal
    else if value >= range.low then Optimal
    else BelowOptimal
  }

  // ---------------------------------------------------------------------
  // The trend report

  /** The activity part of a report, or the error when the readings carry no bee counts. */
  datatype ActivityTrend =
    | ActivityTrend(averageActivity: real, activityChange: real, direction: Direction, consistency: Consistency)
    | NoActivityData

  /** The productivity part of a report, or the error when fewer than two yields are known. */
  datatype ProductivityTrend =
    | ProductivityTrend(averageYield: real, yieldChange: real, direction: Direction, comparison: Comparison)
    | NoProductivityData

  /** The seasonal part of a report, or the error when the readings carry no bee counts. */
  datatype SeasonalPattern =
    | SeasonalPattern(peakMonth: int, lowMonth: int, seasonalVariation: real)
    | NoSeasonalData

  /**
   * What pandas derives from the bee counts of the readings, present only
   * when they carry counts: the mean count, the relative change from the
   * first to the last count and their coefficient of variation (within the
   * last 30 days), and the months of highest and lowest mean count with the
   * coefficient of variation of the monthly means.
   */
  datatype CountStats = CountStats(average: real, change: real, cv: real, peakMonth: int, lowMonth: int, seasonalVariation: real)

  /** The mean and the relative first-to-last change of the known yields, present only when at least two are known. */
  datatype YieldStats = YieldStats(average: real, change: real)

  datatype TrendReport =
    | TrendError(message: string)
    | Trends(activity: ActivityTrend, productivity: ProductivityTrend, seasonal: SeasonalPattern, recommendations: seq<string>)

  /** The activity part built from its statistics: the change and the coefficient of variation are classified. */
  function ActivityTrendOf(average: real, change: real, cv: real): (r: ActivityTrend)
    ensures r.ActivityTrend? && r.averageActivity == average && r.activityChange == change
    ensures r.direction == TrendDirection(change) && r.consistency == ConsistencyOf(cv)
  {
    ActivityTrend(average, change, TrendDirection(change), ConsistencyOf(cv))
  }

  /** The productivity part built from its statistics: the change and the mean yield are classified. */
  function ProductivityTrendOf(average: real, change: real): (r: ProductivityTrend)
    ensures r.ProductivityTrend? && r.averageYield == average && r.yieldChange == change
    ensures r.direction == TrendDirection(change) && r.comparison == CompareToOptimal(average)
  {
    ProductivityTrend(average, change, TrendDirection(change), CompareToOptimal(average))
  }

  // ---------------------------------------------------------------------
  // Recommendations

  const ACTIVITY_DECLINE_ADVICE: seq<string> := [
    "Review recent changes in environment or management",
    "Check for potential stressors affecting foraging",
    "Consider supplementary feeding if needed"]
  const VARIABLE_ACTIVITY_ADVICE: string := "Investigate causes of variable activity levels"
  const LOW_YIELD_ADVICE: seq<string> := [
    "Review hive management practices",
    "Assess food source availability",
    "Consider colony strength assessment"]
  const SEASONAL_ADVICE: seq<string> := [
    "Plan for seasonal variations in foraging conditions",
    "Prepare supplementary feeding for low activity periods",
    "Consider seasonal hive management adjustments"]

  /** Declining activity draws three items; otherwise highly variable activity draws one. */
  function ActivityAdvice(a: ActivityTrend): (r: seq<string>)
    ensures r == ACTIVITY_DECLINE_ADVICE <==> a.ActivityTrend? && a.direction == Decreasing
    ensures r == [VARIABLE_ACTIVITY_ADVICE] <==> a.ActivityTrend? && a.direction != Decreasing && a.consistency == HighlyVariable
    ensures r == [] <==> a.NoActivityData? || (a.direction != Decreasing && a.consistency != HighlyVariable)
    ensures |r| <= 3
  {
    if a.NoActivityData? then []
    else if a.direction == Decreasing then ACTIVITY_DECLINE_ADVICE
    else if a.consistency == HighlyVariable then [VARIABLE_ACTIVITY_ADVICE]
    else []
  }

  /** A yield below the optimal range draws three items. */
  function ProductivityAdvice(p: ProductivityTrend): (r: seq<string>)
    ensures r == LOW_YIELD_ADVICE <==> p.ProductivityTrend? && p.comparison == BelowOptimal
    ensures r == [] <==> !(p.ProductivityTrend? && p.comparison == BelowOptimal)
  {
    if p.ProductivityTrend? && p.comparison == BelowOptimal then LOW_YIELD_ADVICE else []
  }

  /** A seasonal variation above 0.5 draws three items. */
  function SeasonalAdvice(s: SeasonalPattern): (r: seq<string>)
    ensures r == SEASONAL_ADVICE <==> s.SeasonalPattern? && s.seasonalVariation > 0.5
    ensures r == [] <==> !(s.SeasonalPattern? && s.seasonalVariation > 0.5)
  {
    if s.SeasonalPattern? && s.seasonalVariation > 0.5 then SEASONAL_ADVICE else []
  }

  /** The activity, productivity and seasonal items, extended in that order; at most nine. */
  method GenerateTrendRecommendations(a: ActivityTrend, p: ProductivityTrend, s: SeasonalPattern) returns (recommendations: seq<string>)
    ensures recommendations == ActivityAdvice(a) + ProductivityAdvice(p) + SeasonalAdvice(s)
    ensures |recommendations| <= 9
  {
    recommendations := [];
    if a.ActivityTrend? {
      if a.direction == Decreasing {
        recommendations := recommendations + ACTIVITY_DECLINE_ADVICE;
      } else if a.consistency == HighlyVariable {
        recommendations := recommendations + [VARIABLE_ACTIVITY_ADVICE];
      }
    }
    assert recommendations == ActivityAdvice(a);
    if p.ProductivityTrend? {
      if p.comparison == BelowOptimal {
        recommendations := recommendations + LOW_YIELD_ADVICE;
      }
    }
    if s.SeasonalPattern? {
      if s.seasonalVariation > 0.5 {
        recommendations := recommendations + SEASONAL_ADVICE;
      }
    }
  }

  // ---------------------------------------------------------------------
  // Overall status

  datatype HiveStatus = Excellent | Good | Fair | NeedsAttention | Unknown

  /**
   * One indicator per part of the report: activity +1 when increasing, -1
   * when decreasing; productivity +1 above the optimal range, -1 below it;
   * 0 otherwise, including a part that is itself an error.
   */
  function StatusIndicators(t: TrendReport): (r: seq<int>)
    requires t.Trends?
    ensures |r| == 2
    ensures forall i :: 0 <= i < 2 ==> -1 <= r[i] <= 1
    ensures r[0] == 1 <==> t.activity.ActivityTrend? && t.activity.direction == Increasing
    ensures r[0] == -1 <==> t.activity.ActivityTrend? && t.activity.direction == Decreasing
    ensures r[1] == 1 <==> t.productivity.ProductivityTrend? && t.productivity.comparison == AboveOptimal
    ensures r[1] == -1 <==> t.productivity.ProductivityTrend? && t.productivity.comparison == BelowOptimal
  {
    var a := if t.activity.ActivityTrend? && t.activity.direction == Increasing then 1
             else if t.activity.ActivityTrend? && t.activity.direction == Decreasing then -1
             else 0;
    var p := if t.productivity.ProductivityTrend? && t.productivity.comparison == AboveOptimal then 1
             else if t.productivity.ProductivityTrend? && t.productivity.comparison == BelowOptimal then -1
             else 0;
    [a, p]
  }

  /** Buckets a mean indicator: above 0.3, above 0, above -0.3, or lower. */
  function StatusOfMean(average: real): (r: HiveStatus)
    ensures r == Excellent <==> average > 0.3
    ensures r == Good <==> 0.0 < average <= 0.3
    ensures r == Fair <==> -0.3 < average <= 0.0
    ensures r == NeedsAttention <==> average <= -0.3
  {
    if average > 0.3 then Excellent
    else if average > 0.0 then Good
    else if average > -0.3 then Fair
    else NeedsAttention
  }

  /** The mean of the indicators, bucketed; unknown for a report that is itself an error. */
  function DetermineOverallStatus(t: TrendReport): (r: HiveStatus)
    ensures r == Unknown <==> t.TrendError?
    ensures r != Good
  {
    if t.TrendError? then Unknown
    else
      var xs := StatusIndicators(t);
      assert xs[..1] == [xs[0]] && [xs[0]][..0] == [];
      assert Sum(xs[..1]) == xs[0];
      assert Sum(xs) == xs[0] + xs[1];
      StatusOfMean(Mean(xs))
  }

  /**
   * With its two indicators always present the mean is a multiple of 1/2,
   * so the status is decided by the sign of their sum alone, and 'good' is
   * never reported: one improving part and one neutral part already count
   * as excellent.
   */
  lemma OverallStatusBySign(t: TrendReport)
    requires t.Trends?
    ensures var s := Sum(StatusIndicators(t));
            && (DetermineOverallStatus(t) == Excellent <==> s > 0)
            && (DetermineOverallStatus(t) == Fair <==> s == 0)
            && (DetermineOverallStatus(t) == NeedsAttention <==> s < 0)
            && DetermineOverallStatus(t) != Good
  {
    var xs := StatusIndicators(t);
    assert xs[..1] == [xs[0]] && [xs[0]][..0] == [];
    assert Sum(xs[..1]) == xs[0];
    assert Sum(xs) == xs[0] + xs[1];
    assert Mean(xs) == (xs[0] + xs[1]) as real / 2.0;
  }

  // ---------------------------------------------------------------------
  // Short-term outlook

  datatype Outlook = PositiveOutlook | StableOutlook | CautiousOutlook | InsufficientDataOutlook

  /**
   * Activity is a positive sign when increasing; productivity is one unless
   * its direction is decreasing, so a productivity part that is an error
   * counts as positive.
   */
  function PositiveSigns(t: TrendReport): (n: nat)
    requires t.Trends?
    ensures n <= 2
    ensures n == 2 <==> (t.activity.ActivityTrend? && t.activity.direction == Increasing)
                        && !(t.productivity.ProductivityTrend? && t.productivity.direction == Decreasing)
    ensures n == 0 <==> !(t.activity.ActivityTrend? && t.activity.direction == Increasing)
                        && t.productivity.ProductivityTrend? && t.productivity.direction == Decreasing
  {
    (if t.activity.ActivityTrend? && t.activity.direction == Increasing then 1 else 0)
    + (if !(t.productivity.ProductivityTrend? && t.productivity.direction == Decreasing) then 1 else 0)
  }

  /** The share of positive signs among the two: above 0.7 positive, above 0.3 stable, else cautious. */
  function GenerateOutlook(t: TrendReport): (r: Outlook)
    ensures r == InsufficientDataOutlook <==> t.TrendError?
    ensures t.Trends? ==> (r == PositiveOutlook <==> PositiveSigns(t) == 2)
    ensures t.Trends? ==> (r == StableOutlook <==> PositiveSigns(t) == 1)
    ensures t.Trends? ==> (r == CautiousOutlook <==> PositiveSigns(t) == 0)
  {
    if t.TrendError? then InsufficientDataOutlook
    else
      var score := PositiveSigns(t) as real / 2.0;
      if score > 0.7 then PositiveOutlook
      else if score > 0.3 then StableOutlook
      else CautiousOutlook
  }

  /** Missing productivity data does not weigh on the outlook: with rising activity it is positive. */
  lemma MissingYieldCountsAsPositive(a: ActivityTrend, s: SeasonalPattern, recs: seq<string>)
    requires a.ActivityTrend? && a.direction == Increasing
    ensures GenerateOutlook(Trends(a, NoProductivityData, s, recs)) == PositiveOutlook
  {
  }

  // ---------------------------------------------------------------------
  // Immediate actions

  const URGENT_KEYWORDS: seq<string> := ["immediate", "critical", "urgent", "required"]
  const IMPORTANT_KEYWORDS: seq<string> := ["review", "consider", "assess", "monitor"]

  datatype Urgency = Urgent | Important | Normal

  /** The first matching tag: urgent, then important, then normal. */
  function UrgencyOf(rec: string): (u: Urgency)
    ensures u == Urgent <==> MentionsAny(rec, URGENT_KEYWORDS)
    ensures u == Important <==> !MentionsAny(rec, URGENT_KEYWORDS) && MentionsAny(rec, IMPORTANT_KEYWORDS)
  {
    if MentionsAny(rec, URGENT_KEYWORDS) then Urgent
    else if MentionsAny(rec, IMPORTANT_KEYWORDS) then Important
    else Normal
  }

  /** The sort key of a tag: urgent 0, important 1, normal 2. */
  function UrgencyRank(u: Urgency): nat {
    match u
    case Urgent => 0
    case Important => 1
    case Normal => 2
  }

  function RecommendationRank(rec: string): nat { UrgencyRank(UrgencyOf(rec)) }

  function Tag(rec: string): (Urgency, string) { (UrgencyOf(rec), rec) }

  function TagRank(p: (Urgency, string)): nat { UrgencyRank(p.0) }

  function Untag(p: (Urgency, string)): string { p.1 }

  /**
   * The five most pressing recommendations of a report: tagged, stably
   * sorted by tag, cut to five. A report that is an error has none.
   */
  method PrioritizeRecommendations(t: TrendReport) returns (actions: seq<string>)
    ensures t.TrendError? ==> actions == []
    ensures t.Trends? ==> actions == Take(SortByRank(t.recommendations, RecommendationRank), 5)
    ensures t.Trends? ==> |actions| == Min(5, |t.recommendations|)
    ensures t.Trends? ==> multiset(actions) <= multiset(t.recommendations)
  {
    if t.TrendError? {
      return [];
    }
    var recs := t.recommendations;
    var prioritized: seq<(Urgency, string)> := [];
    var i := 0;
    while i < |recs|
      invariant 0 <= i <= |recs|
      invariant prioritized == MapSeq(recs[..i], Tag)
    {
      prioritized := prioritized + [Tag(recs[i])];
      i := i + 1;
    }
    assert recs[..i] == recs;
    var sorted := SortByRank(prioritized, TagRank);
    actions := MapSeq(Take(sorted, 5), Untag);
    SortByRankMap(recs, Tag, TagRank, RecommendationRank);
    var ordered := SortByRank(recs, RecommendationRank);
    MapTake(sorted, 5, Untag);
    assert MapSeq(sorted, Untag) == ordered;
    assert ThreeRanks(recs, RecommendationRank);
    SortByRankPermutation(recs, RecommendationRank);
    TakeSubset(ordered, 5);
  }

  /**
   * The actions are the most pressing ones: an urgent recommendation is
   * either among them or crowded out by five other urgent ones.
   */
  lemma ActionsMostPressing(recs: seq<string>, rec: string)
    requires rec in recs && UrgencyOf(rec) == Urgent
    ensures var actions := Take(SortByRank(recs, RecommendationRank), 5);
            rec in actions || forall i :: 0 <= i < |actions| ==> UrgencyOf(actions[i]) == Urgent
  {
    var urgent := WithRank(recs, RecommendationRank, 0);
    var sorted := SortByRank(recs, RecommendationRank);
    WithRankContains(recs, RecommendationRank, rec);
    assert sorted[..|urgent|] == urgent;
    if |urgent| <= 5 {
      assert urgent <= Take(sorted, 5);
    } else {
      assert Take(sorted, 5) == urgent[..5];
    }
  }

  // ---------------------------------------------------------------------
  // Environmental correlations

  function Abs(x: real): real { if x < 0.0 then -x else x }

  /** One metric's correlations with the environmental factors, in the factors' order. */
  type Correlations = seq<(string, real)>

  /** The factors correlating strongly (|c| > 0.7) with a metric, in order. */
  function StrongFactors(corrs: Correlations): (r: seq<string>)
    ensures |r| <= |corrs|
    ensures r == [] <==> forall i :: 0 <= i < |corrs| ==> Abs(corrs[i].1) <= 0.7
    ensures forall f :: f in r <==> exists i :: 0 <= i < |corrs| && corrs[i].0 == f && Abs(corrs[i].1) > 0.7
  {
    if corrs == [] then []
    else
      assert forall i :: 1 <= i < |corrs| ==> corrs[i] == corrs[1..][i - 1];
      (if Abs(corrs[0].1) > 0.7 then [corrs[0].0] else []) + StrongFactors(corrs[1..])
  }

  /** The factors correlating moderately (0.4 <= |c| <= 0.7) with a metric, in order. */
  function ModerateFactors(corrs: Correlations): (r: seq<string>)
    ensures |r| <= |corrs|
    ensures r == [] <==> forall i :: 0 <= i < |corrs| ==> !(0.4 <= Abs(corrs[i].1) <= 0.7)
    ensures forall f :: f in r <==> exists i :: 0 <= i < |corrs| && corrs[i].0 == f && 0.4 <= Abs(corrs[i].1) <= 0.7
  {
    if corrs == [] then []
    else
      assert forall i :: 1 <= i < |corrs| ==> corrs[i] == corrs[1..][i - 1];
      (if 0.4 <= Abs(corrs[0].1) <= 0.7 then [corrs[0].0] else []) + ModerateFactors(corrs[1..])
  }

  function StrongInsight(metric: string, factors: seq<string>): string {
    "Strong " + metric + " correlations found with: " + Join(factors, ", ")
  }

  function ModerateInsight(metric: string, factors: seq<string>): string {
    "Moderate " + metric + " correlations found with: " + Join(factors, ", ")
  }

  /**
   * One metric's sentences: one naming its strong factors if it has any,
   * then one naming its moderate factors if it has any.
   */
  function MetricInsights(metric: string, corrs: Correlations): (r: seq<string>)
    ensures |r| <= 2
    ensures r == [] <==> forall i :: 0 <= i < |corrs| ==> Abs(corrs[i].1) < 0.4
    ensures StrongFactors(corrs) != [] ==> r[0] == StrongInsight(metric, StrongFactors(corrs))
    ensures forall s :: s in r <==>
              || (StrongFactors(corrs) != [] && s == StrongInsight(metric, StrongFactors(corrs)))
              || (ModerateFactors(corrs) != [] && s == ModerateInsight(metric, ModerateFactors(corrs)))
  {
    var strong := StrongFactors(corrs);
    var moderate := ModerateFactors(corrs);
    (if strong != [] then [StrongInsight(metric, strong)] else [])
    + (if moderate != [] then [ModerateInsight(metric, moderate)] else [])
  }

  /**
   * Every metric's sentences, metric by metric. There is no sentence at all
   * exactly when no correlation reaches 0.4.
   */
  function CorrelationInsights(correlations: seq<(string, Correlations)>): (r: seq<string>)
    ensures |r| <= 2 * |correlations|
    ensures r == [] <==> forall m :: 0 <= m < |correlations| ==>
              forall i :: 0 <= i < |correlations[m].1| ==> Abs(correlations[m].1[i].1) < 0.4
  {
    if correlations == [] then []
    else
      assert forall m :: 1 <= m < |correlations| ==> correlations[m] == correlations[1..][m - 1];
      MetricInsights(correlations[0].0, correlations[0].1) + CorrelationInsights(correlations[1..])
  }

  /** A sentence is an insight exactly when it is one of some metric's own sentences. */
  lemma {:induction false} CorrelationInsightsMembers(correlations: seq<(string, Correlations)>, s: string)
    ensures s in CorrelationInsights(correlations) <==>
              exists m :: 0 <= m < |correlations| && s in MetricInsights(correlations[m].0, correlations[m].1)
    decreases |correlations|
  {
    if correlations != [] {
      var tail := correlations[1..];
      CorrelationInsightsMembers(tail, s);
      if s in CorrelationInsights(correlations) && s !in MetricInsights(correlations[0].0, correlations[0].1) {
        var m :| 0 <= m < |tail| && s in MetricInsights(tail[m].0, tail[m].1);
        assert correlations[m + 1] == tail[m];
      }
      if exists m :: 0 <= m < |correlations| && s in MetricInsights(correlations[m].0, correlations[m].1) {
        var m :| 0 <= m < |correlations| && s in MetricInsights(correlations[m].0, correlations[m].1);
        if m > 0 {
          assert tail[m - 1] == correlations[m];
        }
      }
    }
  }

  /** Keep a factor that helps the metric, mitigate one that hurts it. */
  function FactorAdvice(metric: string, factor: string, c: real): string {
    if c > 0.0 then "Maintain favorable " + factor + " conditions to optimize " + metric
    else "Consider mitigation strategies for negative " + factor + " impact on " + metric
  }

  /** One recommendation per strong correlation of one metric, in the factors' order. */
  function MetricRecommendations(metric: string, corrs: Correlations): (r: seq<string>)
    ensures |r| == |StrongFactors(corrs)|
    ensures forall i :: 0 <= i < |corrs| && Abs(corrs[i].1) > 0.7 ==> FactorAdvice(metric, corrs[i].0, corrs[i].1) in r
    ensures forall s :: s in r ==>
              exists i :: 0 <= i < |corrs| && Abs(corrs[i].1) > 0.7 && s == FactorAdvice(metric, corrs[i].0, corrs[i].1)
  {
    if corrs == [] then []
    else
      assert forall i :: 1 <= i < |corrs| ==> corrs[i] == corrs[1..][i - 1];
      var (factor, c) := corrs[0];
      (if Abs(c) > 0.7 then [FactorAdvice(metric, factor, c)] else [])
      + MetricRecommendations(metric, corrs[1..])
  }

  /** The recommendations of every metric, metric by metric. */
  function EnvironmentalRecommendations(correlations: seq<(string, Correlations)>): (r: seq<string>)
    ensures r == [] <==> forall m :: 0 <= m < |correlations| ==> StrongFactors(correlations[m].1) == []
  {
    if correlations == [] then []
    else
      assert forall m :: 1 <= m < |correlations| ==> correlations[m] == correlations[1..][m - 1];
      MetricRecommendations(correlations[0].0, correlations[0].1) + EnvironmentalRecommendations(correlations[1..])
  }

  /** A recommendation is environmental exactly when it is one of some metric's own recommendations. */
  lemma {:induction false} EnvironmentalRecommendationsMembers(correlations: seq<(string, Correlations)>, s: string)
    ensures s in EnvironmentalRecommendations(correlations) <==>
              exists m :: 0 <= m < |correlations| && s in MetricRecommendations(correlations[m].0, correlations[m].1)
    decreases |correlations|
  {
    if correlations != [] {
      var tail := correlations[1..];
      EnvironmentalRecommendationsMembers(tail, s);
      if s in EnvironmentalRecommendations(correlations) && s !in MetricRecommendations(correlations[0].0, correlations[0].1) {
        var m :| 0 <= m < |tail| && s in MetricRecommendations(tail[m].0, tail[m].1);
        assert correlations[m + 1] == tail[m];
      }
      if exists m :: 0 <= m < |correlations| && s in MetricRecommendations(correlations[m].0, correlations[m].1) {
        var m :| 0 <= m < |correlations| && s in MetricRecommendations(correlations[m].0, correlations[m].1);
        if m > 0 {
          assert tail[m - 1] == correlations[m];
        }
      }
    }
  }

  /** There is a recommendation exactly when some insight names a strong correlation. */
  lemma {:induction false} RecommendationsFollowStrongInsights(correlations: seq<(string, Correlations)>)
    ensures EnvironmentalRecommendations(correlations) != [] <==>
              exists m :: 0 <= m < |correlations| && StrongFactors(correlations[m].1) != []
  {
  }

  /** Metric by metric: the recommendations of two runs of metrics are those of the first, then those of the second. */
  lemma {:induction false} EnvironmentalRecommendationsAppend(a: seq<(string, Correlations)>, b: seq<(string, Correlations)>)
    ensures EnvironmentalRecommendations(a + b) == EnvironmentalRecommendations(a) + EnvironmentalRecommendations(b)
    decreases |a|
  {
    if a == [] {
      assert a + b == b;
    } else {
      assert (a + b)[0] == a[0] && (a + b)[1..] == a[1..] + b;
      var head := MetricRecommendations(a[0].0, a[0].1);
      calc {
        EnvironmentalRecommendations(a + b);
        head + EnvironmentalRecommendations(a[1..] + b);
        { EnvironmentalRecommendationsAppend(a[1..], b); }
        head + (EnvironmentalRecommendations(a[1..]) + EnvironmentalRecommendations(b));
        (head + EnvironmentalRecommendations(a[1..])) + EnvironmentalRecommendations(b);
        EnvironmentalRecommendations(a) + EnvironmentalRecommendations(b);
      }
    }
  }

  /** Metric by metric: the sentences of two runs of metrics are those of the first, then those of the second. */
  lemma {:induction false} CorrelationInsightsAppend(a: seq<(string, Correlations)>, b: seq<(string, Correlations)>)
    ensures CorrelationInsights(a + b) == CorrelationInsights(a) + CorrelationInsights(b)
    decreases |a|
  {
    if a == [] {
      assert a + b == b;
    } else {
      assert (a + b)[0] == a[0] && (a + b)[1..] == a[1..] + b;
      CorrelationInsightsAppend(a[1..], b);
    }
  }
}
