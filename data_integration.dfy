/**
 * The integration service's own rules: the environmental impact of one set
 * of readings, the thirty-day per-user data cache, date-range queries over
 * it, and the insights and recommendations drawn from a historical trend
 * analysis. Clocks are integer seconds passed in as `now`; the statistics
 * a historical analysis would hold are inputs.
 */
module Integration {
  import opened Common
  import opened Retention

  // ---------------------------------------------------------------------
  // Environmental impact of one set of readings

  /** The readings the impact rule looks at; each key may be absent. */
  datatype Readings = Readings(temperature: Option<real>, humidity: Option<real>, rainfall: Option<real>)

  datatype ForagingConditions = Optimal | Suboptimal | Limited

  datatype ImpactAnalysis = ImpactAnalysis(foragingConditions: ForagingConditions, risks: seq<string>, opportunities: seq<string>)

  const COLD_RISK: string := "Temperature too low for optimal foraging"
  const HEAT_RISK: string := "Temperature too high for optimal foraging"
  const TEMPERATURE_OPPORTUNITY: string := "Temperature within optimal range"
  const HUMID_RISK: string := "High humidity may affect nectar concentration"
  const DRY_RISK: string := "Low humidity may affect nectar availability"
  const RAIN_RISK: string := "Active rainfall may limit foraging activity"

  predicate TemperatureOutOfRange(d: Readings) {
    d.temperature.Some? && (d.temperature.value < 15.0 || d.temperature.value > 35.0)
  }

  predicate Raining(d: Readings) {
    d.rainfall.Some? && d.rainfall.value > 0.0
  }

  predicate HumidityOutOfRange(d: Readings) {
    d.humidity.Some? && (d.humidity.value > 80.0 || d.humidity.value < 30.0)
  }

  /**
   * Temperature, humidity and rainfall are checked in that order, each adding
   * at most one risk. Rain limits foraging whatever the temperature did;
   * otherwise an out-of-range temperature makes it sub-optimal. An in-range
   * temperature is the only opportunity.
   */
  function AnalyzeEnvironmentalImpact(d: Readings): (r: ImpactAnalysis)
    ensures r.foragingConditions == Limited <==> Raining(d)
    ensures r.foragingConditions == Suboptimal <==> !Raining(d) && TemperatureOutOfRange(d)
    ensures r.foragingConditions == Optimal <==> !Raining(d) && !TemperatureOutOfRange(d)
    ensures r.opportunities == [TEMPERATURE_OPPORTUNITY] <==> d.temperature.Some? && !TemperatureOutOfRange(d)
    ensures r.opportunities == [] <==> d.temperature.None? || TemperatureOutOfRange(d)
    ensures |r.risks| == (if TemperatureOutOfRange(d) then 1 else 0) + (if HumidityOutOfRange(d) then 1 else 0)
                         + (if Raining(d) then 1 else 0)
    ensures (COLD_RISK in r.risks <==> d.temperature.Some? && d.temperature.value < 15.0)
         && (HEAT_RISK in r.risks <==> d.temperature.Some? && d.temperature.value > 35.0)
         && (HUMID_RISK in r.risks <==> d.humidity.Some? && d.humidity.value > 80.0)
         && (DRY_RISK in r.risks <==> d.humidity.Some? && d.humidity.value < 30.0)
         && (RAIN_RISK in r.risks <==> Raining(d))
    ensures Raining(d) ==> r.risks[|r.risks| - 1] == RAIN_RISK
    ensures TemperatureOutOfRange(d) ==> r.risks[0] == (if d.temperature.value < 15.0 then COLD_RISK else HEAT_RISK)
    ensures HumidityOutOfRange(d) ==>
              r.risks[if TemperatureOutOfRange(d) then 1 else 0] == (if d.humidity.value > 80.0 then HUMID_RISK else DRY_RISK)
  {
    var (temperatureRisks, opportunities, afterTemperature) :=
      match d.temperature
      case None => ([], [], Optimal)
      case Some(t) =>
        if t < 15.0 then ([COLD_RISK], [], Suboptimal)
        else if t > 35.0 then ([HEAT_RISK], [], Suboptimal)
        else ([], [TEMPERATURE_OPPORTUNITY], Optimal);
    var humidityRisks :=
      match d.humidity
      case None => []
      case Some(h) =>
        if h > 80.0 then [HUMID_RISK]
        else if h < 30.0 then [DRY_RISK]
        else [];
    var (rainRisks, conditions) :=
      if d.rainfall.Some? && d.rainfall.value > 0.0 then ([RAIN_RISK], Limited) else ([], afterTemperature);
    ImpactAnalysis(conditions, temperatureRisks + humidityRisks + rainRisks, opportunities)
  }

  /** Readings with none of the three keys leave foraging optimal with nothing to report. */
  lemma NoReadingsIsOptimal()
    ensures AnalyzeEnvironmentalImpact(Readings(None, None, None)) == ImpactAnalysis(Optimal, [], [])
  {
  }

  /** A hot, humid, rainy day: rain overrides the heat, and all three risks are listed in check order. */
  lemma HotHumidRainyDay()
    ensures AnalyzeEnvironmentalImpact(Readings(Some(38.0), Some(90.0), Some(2.0)))
            == ImpactAnalysis(Limited, [HEAT_RISK, HUMID_RISK, RAIN_RISK], [])
  {
  }

  // ---------------------------------------------------------------------
  // The per-user cache

  const CACHE_DAYS: nat := 30

  /** A payload as submitted; the timestamp key may be missing. */
  datatype Submission = Submission(data: map<string, string>, timestamp: Option<int>)

  /** A cached payload, always stamped. */
  datatype Entry = Entry(data: map<string, string>, timestamp: int)

  function Timestamp(e: Entry): int { e.timestamp }

  /** A submission without a timestamp is stamped with the current instant. */
  function StampEntry(s: Submission, now: int): (e: Entry)
    ensures e.data == s.data
    ensures s.timestamp.Some? ==> e.timestamp == s.timestamp.value
    ensures s.timestamp.None? ==> e.timestamp == now
  {
    Entry(s.data, if s.timestamp.Some? then s.timestamp.value else now)
  }

  /** The instant before which entries are dropped: thirty days back. */
  function CacheCutoff(now: int): int { now - CACHE_DAYS * DAY }

  function Cached(cache: map<string, seq<Entry>>, userId: string): seq<Entry> {
    if userId in cache then cache[userId] else []
  }

  /** The user's entries after appending `e` and dropping what is thirty days old or more. */
  function AfterInsert(entries: seq<Entry>, e: Entry, now: int): seq<Entry> {
    Newer(entries + [e], Timestamp, CacheCutoff(now))
  }

  /**
   * A submission stamped on arrival is always kept, and it is the newest
   * entry: everything after the user's earlier recent entries is just it.
   */
  lemma {:induction false} FreshEntryKept(entries: seq<Entry>, s: Submission, now: int)
    requires s.timestamp.None?
    ensures AfterInsert(entries, StampEntry(s, now), now) == Newer(entries, Timestamp, CacheCutoff(now)) + [StampEntry(s, now)]
  {
    NewerSnoc(entries, StampEntry(s, now), Timestamp, CacheCutoff(now));
  }

  /** A submission dated thirty days back or earlier never enters the cache. */
  lemma {:induction false} StaleSubmissionDropped(entries: seq<Entry>, s: Submission, now: int)
    requires s.timestamp.Some? && s.timestamp.value <= CacheCutoff(now)
    ensures AfterInsert(entries, StampEntry(s, now), now) == Newer(entries, Timestamp, CacheCutoff(now))
  {
    NewerSnoc(entries, StampEntry(s, now), Timestamp, CacheCutoff(now));
  }

  /** Inclusive, optional date bounds. */
  predicate InRange(e: Entry, start: Option<int>, end: Option<int>) {
    (start.None? || e.timestamp >= start.value) && (end.None? || e.timestamp <= end.value)
  }

  /** Every forecast needs cached data first. */
  const INSUFFICIENT_FORECAST_DATA: string := "Insufficient data for forecasting"
  const NO_DATA_IN_RANGE: string := "No data available for specified date range"

  class DataIntegrationService {
    var dataCache: map<string, seq<Entry>>

    constructor()
      ensures dataCache == map[]
    {
      dataCache := map[];
    }

    /**
     * Stamps the submission if it has no timestamp, appends it to the user's
     * entries and then prunes that user's entries to the last thirty days,
     * in order; other users are untouched.
     */
    method UpdateCache(userId: string, s: Submission, now: int)
      modifies this
      ensures dataCache == old(dataCache)[userId := AfterInsert(Cached(old(dataCache), userId), StampEntry(s, now), now)]
      ensures forall k :: 0 <= k < |dataCache[userId]| ==> dataCache[userId][k].timestamp > CacheCutoff(now)
    {
      if userId !in dataCache {
        dataCache := dataCache[userId := []];
      }
      var entry := StampEntry(s, now);
      dataCache := dataCache[userId := dataCache[userId] + [entry]];
      CleanupCache(userId, now);
    }

    /** Keeps only the user's entries stamped after thirty days back, in order. */
    method CleanupCache(userId: string, now: int)
      modifies this
      ensures userId in old(dataCache) ==> dataCache == old(dataCache)[userId := Newer(old(dataCache)[userId], Timestamp, CacheCutoff(now))]
      ensures userId !in old(dataCache) ==> dataCache == old(dataCache)
    {
      if userId in dataCache {
        var kept := KeepNewer(dataCache[userId], Timestamp, CacheCutoff(now));
        dataCache := dataCache[userId := kept];
      }
    }

    /** The user's entries within the optional inclusive bounds, in cache order; nothing for a user with no cache. */
    function GetFilteredData(userId: string, start: Option<int>, end: Option<int>): (r: seq<Entry>)
      reads this
      ensures r == Keep(Cached(dataCache, userId), (e: Entry) => InRange(e, start, end))
      ensures forall e :: e in r <==> e in Cached(dataCache, userId) && InRange(e, start, end)
    {
      SelectRange(Cached(dataCache, userId), start, end)
    }

    /** The historical analysis's first guard: an empty selection is an error. */
    function HistoricalDataGuard(userId: string, start: Option<int>, end: Option<int>): (r: Result<seq<Entry>, string>)
      reads this
      ensures r.Err? <==> forall e :: e in Cached(dataCache, userId) ==> !InRange(e, start, end)
      ensures r.Err? ==> r.error == NO_DATA_IN_RANGE
      ensures r.Ok? ==> r.value == GetFilteredData(userId, start, end)
    {
      var selected := GetFilteredData(userId, start, end);
      if selected == [] then Err(NO_DATA_IN_RANGE)
      else
        assert selected[0] in selected;
        Ok(selected)
    }

    /** The forecast's guard: a user without cached entries has insufficient data. */
    function ForecastGuard(userId: string): (r: Result<seq<Entry>, string>)
      reads this
      ensures r.Err? <==> userId !in dataCache || dataCache[userId] == []
      ensures r.Err? ==> r.error == INSUFFICIENT_FORECAST_DATA
      ensures r.Ok? ==> r.value == dataCache[userId]
    {
      var history := Cached(dataCache, userId);
      if history == [] then Err(INSUFFICIENT_FORECAST_DATA) else Ok(history)
    }
  }

  /** The start bound is applied first, then the end bound, each only when given. */
  function SelectRange(entries: seq<Entry>, start: Option<int>, end: Option<int>): (r: seq<Entry>)
    ensures r == Keep(entries, (e: Entry) => InRange(e, start, end))
    ensures forall e :: e in r <==> e in entries && InRange(e, start, end)
  {
    var afterStart := if start.Some? then Keep(entries, (e: Entry) => e.timestamp >= start.value) else entries;
    var r := if end.Some? then Keep(afterStart, (e: Entry) => e.timestamp <= end.value) else afterStart;
    TwoPassIsOnePass(entries, start, end);
    r
  }

  lemma TwoPassIsOnePass(entries: seq<Entry>, start: Option<int>, end: Option<int>)
    ensures var afterStart := if start.Some? then Keep(entries, (e: Entry) => e.timestamp >= start.value) else entries;
            var r := if end.Some? then Keep(afterStart, (e: Entry) => e.timestamp <= end.value) else afterStart;
            && r == Keep(entries, (e: Entry) => InRange(e, start, end))
            && forall e :: e in r <==> e in entries && InRange(e, start, end)
  {
    var inRange := (e: Entry) => InRange(e, start, end);
    if start.Some? && end.Some? {
      KeepKeep(entries, (e: Entry) => e.timestamp >= start.value, (e: Entry) => e.timestamp <= end.value, inRange);
    } else if start.Some? {
      KeepSame(entries, (e: Entry) => e.timestamp >= start.value, inRange);
    } else if end.Some? {
      KeepSame(entries, (e: Entry) => e.timestamp <= end.value, inRange);
    } else {
      KeepAll(entries, inRange);
    }
    forall e ensures e in Keep(entries, inRange) <==> e in entries && InRange(e, start, end) {
      KeepMember(entries, inRange, e);
    }
  }

  /** Two lambdas that agree everywhere select the same elements. */
  lemma {:induction false} KeepSame<T>(xs: seq<T>, p: T -> bool, q: T -> bool)
    requires forall x :: p(x) == q(x)
    ensures Keep(xs, p) == Keep(xs, q)
  {
    if xs != [] {
      KeepSame(xs[..|xs| - 1], p, q);
    }
  }

  /** A test every element passes selects everything. */
  lemma {:induction false} KeepAll<T>(xs: seq<T>, p: T -> bool)
    requires forall x :: p(x)
    ensures Keep(xs, p) == xs
  {
    if xs != [] {
      KeepAll(xs[..|xs| - 1], p);
      assert xs[..|xs| - 1] + [xs[|xs| - 1]] == xs;
    }
  }

  /**
   * A user's first submission is kept; one submitted thirty-one days later
   * pushes it out of the cache, and a query bounded at the second instant
   * returns just the second.
   */
  method MonthOldEntryEvicted() returns (firstKept: bool, sizeAfter: nat, selected: seq<Entry>)
    ensures firstKept && sizeAfter == 1
    ensures selected == [Entry(map[], 31 * DAY)]
  {
    var service := new DataIntegrationService();
    var unstamped := Submission(map[], None);
    var first := Entry(map[], 0);
    var second := Entry(map[], 31 * DAY);
    service.UpdateCache("u", unstamped, 0);
    FreshEntryKept([], unstamped, 0);
    firstKept := |service.dataCache["u"]| == 1;
    service.UpdateCache("u", unstamped, 31 * DAY);
    FreshEntryKept([first], unstamped, 31 * DAY);
    NewerSnoc([], first, Timestamp, CacheCutoff(31 * DAY));
    assert [] + [first] == [first];
    assert service.dataCache["u"] == [second];
    sizeAfter := |service.dataCache["u"]|;
    selected := service.GetFilteredData("u", Some(31 * DAY), Some(31 * DAY));
    assert second in selected;
  }

  // ---------------------------------------------------------------------
  // Insights and recommendations from a historical trend analysis

  /** A correlation between two of the tracked metrics, keyed by the pair of metric names. */
  datatype Correlation = Correlation(metric1: string, metric2: string, value: real)

  /**
   * What the historical rules read from a trend analysis: the activity and
   * the productivity trend when their sections carry one, the correlations
   * when there are any, and the average temperature when the environmental
   * section has a temperature range.
   */
  datatype HistoricalTrends = HistoricalTrends(
    activityTrend: Option<string>,
    productivityTrend: Option<string>,
    correlations: Option<seq<Correlation>>,
    averageTemperature: Option<real>)

  function Abs(x: real): real { if x < 0.0 then -x else x }

  function CorrelationInsight(c: Correlation): string {
    "Strong correlation found between " + c.metric1 + " and " + c.metric2
  }

  /** One insight per correlation whose magnitude exceeds 0.7, in order. */
  function StrongCorrelationInsights(cs: seq<Correlation>): (r: seq<string>)
    ensures |r| <= |cs|
    ensures r == [] <==> forall i :: 0 <= i < |cs| ==> Abs(cs[i].value) <= 0.7
    ensures forall i :: 0 <= i < |cs| && Abs(cs[i].value) > 0.7 ==> CorrelationInsight(cs[i]) in r
    ensures forall s :: s in r ==> exists i :: 0 <= i < |cs| && Abs(cs[i].value) > 0.7 && s == CorrelationInsight(cs[i])
  {
    if cs == [] then []
    else
      var rest := StrongCorrelationInsights(cs[1..]);
      assert forall i :: 1 <= i < |cs| ==> cs[i] == cs[1..][i - 1];
      (if Abs(cs[0].value) > 0.7 then [CorrelationInsight(cs[0])] else []) + rest
  }

  function ActivityInsight(t: string): string { "Bee activity shows " + t + " trend" }
  function YieldInsight(t: string): string { "Honey yield shows " + t + " trend" }

  /** The activity trend, then the productivity trend, then each strong correlation. */
  function GenerateHistoricalInsights(h: HistoricalTrends): (r: seq<string>)
    ensures |r| == (if h.activityTrend.Some? then 1 else 0) + (if h.productivityTrend.Some? then 1 else 0)
                   + (if h.correlations.Some? then |StrongCorrelationInsights(h.correlations.value)| else 0)
    ensures h.activityTrend.Some? ==> r[0] == ActivityInsight(h.activityTrend.value)
    ensures h.productivityTrend.Some? ==> r[if h.activityTrend.Some? then 1 else 0] == YieldInsight(h.productivityTrend.value)
    ensures h.correlations.None? || (forall i :: 0 <= i < |h.correlations.value| ==> Abs(h.correlations.value[i].value) <= 0.7)
            ==> |r| <= 2
    ensures var k := (if h.activityTrend.Some? then 1 else 0) + (if h.productivityTrend.Some? then 1 else 0);
            r[k..] == (if h.correlations.Some? then StrongCorrelationInsights(h.correlations.value) else [])
  {
    (if h.activityTrend.Some? then [ActivityInsight(h.activityTrend.value)] else [])
    + (if h.productivityTrend.Some? then [YieldInsight(h.productivityTrend.value)] else [])
    + (if h.correlations.Some? then StrongCorrelationInsights(h.correlations.value) else [])
  }

  const DECREASING: string := "decreasing"

  const ACTIVITY_DECLINE_STEPS: seq<string> := [
    "Review and optimize hive placement",
    "Check for environmental stressors",
    "Consider supplementary feeding"]

  const PRODUCTIVITY_DECLINE_STEPS: seq<string> := [
    "Evaluate queen performance",
    "Review disease prevention measures",
    "Assess nectar source availability"]

  const COOLING: string := "Consider additional cooling measures"
  const WINTER_PREPARATION: string := "Implement winter preparation measures"

  /**
   * Three steps for declining activity, then three for declining yield, then
   * at most one for an average temperature above 35 or below 15.
   */
  function GenerateHistoricalRecommendations(h: HistoricalTrends): (r: seq<string>)
    ensures |r| == (if h.activityTrend == Some(DECREASING) then 3 else 0)
                   + (if h.productivityTrend == Some(DECREASING) then 3 else 0)
                   + (if h.averageTemperature.Some? && (h.averageTemperature.value > 35.0 || h.averageTemperature.value < 15.0) then 1 else 0)
    ensures h.activityTrend == Some(DECREASING) ==> r[..3] == ACTIVITY_DECLINE_STEPS
    ensures h.productivityTrend == Some(DECREASING) ==>
              var at := if h.activityTrend == Some(DECREASING) then 3 else 0;
              r[at..at + 3] == PRODUCTIVITY_DECLINE_STEPS
  {
    ActivitySteps(h) + ProductivitySteps(h) + TemperatureStep(h)
  }

  function ActivitySteps(h: HistoricalTrends): seq<string> {
    if h.activityTrend == Some(DECREASING) then ACTIVITY_DECLINE_STEPS else []
  }

  function ProductivitySteps(h: HistoricalTrends): seq<string> {
    if h.productivityTrend == Some(DECREASING) then PRODUCTIVITY_DECLINE_STEPS else []
  }

  function TemperatureStep(h: HistoricalTrends): seq<string> {
    if h.averageTemperature.None? then []
    else if h.averageTemperature.value > 35.0 then [COOLING]
    else if h.averageTemperature.value < 15.0 then [WINTER_PREPARATION]
    else []
  }

  /** The activity steps appear exactly when activity is decreasing. */
  lemma ActivityStepsTrigger(h: HistoricalTrends)
    ensures ACTIVITY_DECLINE_STEPS[0] in GenerateHistoricalRecommendations(h) <==> h.activityTrend == Some(DECREASING)
  {
    var x := ACTIVITY_DECLINE_STEPS[0];
    assert x[7] != PRODUCTIVITY_DECLINE_STEPS[1][7];
    assert x !in ProductivitySteps(h) + TemperatureStep(h);
    assert GenerateHistoricalRecommendations(h) == ActivitySteps(h) + (ProductivitySteps(h) + TemperatureStep(h));
  }

  /** The yield steps appear exactly when productivity is decreasing. */
  lemma ProductivityStepsTrigger(h: HistoricalTrends)
    ensures PRODUCTIVITY_DECLINE_STEPS[0] in GenerateHistoricalRecommendations(h) <==> h.productivityTrend == Some(DECREASING)
  {
    assert |PRODUCTIVITY_DECLINE_STEPS[0]| == 26;
    assert PRODUCTIVITY_DECLINE_STEPS[0] !in ActivitySteps(h) + TemperatureStep(h);
  }

  /** Cooling advice appears exactly for an average above 35. */
  lemma CoolingTrigger(h: HistoricalTrends)
    ensures COOLING in GenerateHistoricalRecommendations(h) <==> h.averageTemperature.Some? && h.averageTemperature.value > 35.0
  {
    assert |COOLING| == 36;
    assert COOLING !in ActivitySteps(h) + ProductivitySteps(h);
  }

  /** Winter preparation appears exactly for an average below 15. */
  lemma WinterTrigger(h: HistoricalTrends)
    ensures WINTER_PREPARATION in GenerateHistoricalRecommendations(h) <==> h.averageTemperature.Some? && h.averageTemperature.value < 15.0
  {
    assert |WINTER_PREPARATION| == 37;
    assert WINTER_PREPARATION !in ActivitySteps(h) + ProductivitySteps(h);
  }
}
