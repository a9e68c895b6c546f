/**
 * The analysis controller's own rules: how severe an alert is, which media
 * payloads are accepted, which alerts the latest analysis raises, and how
 * the latest report's recommendations are bucketed into immediate, short-
 * and long-term actions together with seasonal and weather advice.
 */
module Controller {
  import opened Common
  import opened Text
  import opened Ranking
  import Integration

  // ---------------------------------------------------------------------
  // Alert severity

  const CRITICAL_KEYWORDS: seq<string> := ["critical", "severe", "immediate", "dangerous"]
  const WARNING_KEYWORDS: seq<string> := ["warning", "attention", "monitor", "check"]

  datatype Severity = Critical | Warning | Info

  /** Critical keywords win over warning keywords; an alert mentioning neither is informational. */
  function AlertSeverity(alert: string): (s: Severity)
    ensures s == Critical <==> MentionsAny(alert, CRITICAL_KEYWORDS)
    ensures s == Warning <==> !MentionsAny(alert, CRITICAL_KEYWORDS) && MentionsAny(alert, WARNING_KEYWORDS)
    ensures s == Info <==> !MentionsAny(alert, CRITICAL_KEYWORDS) && !MentionsAny(alert, WARNING_KEYWORDS)
  {
    if MentionsAny(alert, CRITICAL_KEYWORDS) then Critical
    else if MentionsAny(alert, WARNING_KEYWORDS) then Warning
    else Info
  }

  // ---------------------------------------------------------------------
  // Media payload validation

  /** A media payload: field name to value. */
  type MediaData = map<string, string>

  const MEDIA_TYPES: seq<string> := ["image", "video"]

  /** Both `type` and `content` must be present, and the type must be an image or a video. */
  function ValidateMediaData(media: MediaData): (ok: bool)
    ensures ok <==> "type" in media && "content" in media && (media["type"] == "image" || media["type"] == "video")
  {
    if !("type" in media && "content" in media) then false
    else media["type"] in MEDIA_TYPES
  }

  // ---------------------------------------------------------------------
  // Active alerts of the latest analysis

  datatype AlertKind = MediaAlert | EnvironmentalAlert | MetricsAlert

  datatype Alert = Alert(kind: AlertKind, message: string, severity: Severity)

  /** The media component; its `alerts` key may be missing. */
  datatype MediaComponent = MediaComponent(alerts: Option<seq<string>>)

  /**
   * The environmental component: `risks` at its top level, and the nested
   * impact analysis the integration service puts there.
   */
  datatype EnvironmentalComponent = EnvironmentalComponent(risks: Option<seq<string>>, impactAnalysis: Option<Integration.ImpactAnalysis>)

  /** The metrics component's status summary, reduced to its `current_status` when it has one. */
  datatype MetricsComponent = MetricsComponent(status: Option<Option<string>>)

  /** The analysis components of the latest history entry; each may be absent. */
  datatype Components = Components(
    media: Option<MediaComponent>,
    environmental: Option<EnvironmentalComponent>,
    metrics: Option<MetricsComponent>)

  const NEEDS_ATTENTION: string := "needs_attention"
  const METRICS_ALERT: string := "Hive needs attention based on current metrics"

  function MediaAlertOf(a: string): Alert { Alert(MediaAlert, a, AlertSeverity(a)) }
  function RiskAlertOf(r: string): Alert { Alert(EnvironmentalAlert, r, Warning) }

  predicate NeedsAttention(c: Components) {
    c.metrics.Some? && c.metrics.value.status == Some(Some(NEEDS_ATTENTION))
  }

  function MediaAlerts(c: Components): seq<string> {
    if c.media.Some? && c.media.value.alerts.Some? then c.media.value.alerts.value else []
  }

  /** The component as the integration service builds it for a set of readings: risks only inside the impact analysis. */
  function ProcessedEnvironment(d: Integration.Readings): EnvironmentalComponent {
    EnvironmentalComponent(None, Some(Integration.AnalyzeEnvironmentalImpact(d)))
  }

  /**
   * The alerts of one analysis, as written: media alerts with their keyword
   * severity, then a warning per top-level environmental risk, then one
   * metrics warning when the status needs attention. No alert at all when
   * the entry has no results.
   */
  function GetActiveAlerts(components: Option<Components>): (r: seq<Alert>)
    ensures components.None? ==> r == []
    ensures components.Some? ==>
              var c := components.value;
              var risks := if c.environmental.Some? && c.environmental.value.risks.Some? then c.environmental.value.risks.value else [];
              && |r| == |MediaAlerts(c)| + |risks| + (if NeedsAttention(c) then 1 else 0)
              && (forall i :: 0 <= i < |MediaAlerts(c)| ==> r[i] == MediaAlertOf(MediaAlerts(c)[i]))
              && (forall i :: 0 <= i < |risks| ==> r[|MediaAlerts(c)| + i] == RiskAlertOf(risks[i]))
              && (NeedsAttention(c) ==> r[|r| - 1] == Alert(MetricsAlert, METRICS_ALERT, Warning))
    ensures forall i :: 0 <= i < |r| ==> r[i].kind == MetricsAlert ==> components.Some? && NeedsAttention(components.value)
  {
    if components.None? then []
    else
      var c := components.value;
      var risks := if c.environmental.Some? && c.environmental.value.risks.Some? then c.environmental.value.risks.value else [];
      MapSeq(MediaAlerts(c), MediaAlertOf)
      + MapSeq(risks, RiskAlertOf)
      + (if NeedsAttention(c) then [Alert(MetricsAlert, METRICS_ALERT, Warning)] else [])
  }

  /**
   * Rain yields a risk in the impact analysis, yet an analysis whose only
   * component is that environmental one raises no alert: the risks sit one
   * level deeper than the alert rule looks.
   */
  lemma RainRiskRaisesNoAlert()
    ensures Integration.RAIN_RISK in ProcessedEnvironment(Integration.Readings(None, None, Some(5.0))).impactAnalysis.value.risks
    ensures GetActiveAlerts(Some(Components(None, Some(ProcessedEnvironment(Integration.Readings(None, None, Some(5.0)))), None))) == []
  {
  }

  /** The risks of the nested impact analysis, where the integration service puts them. */
  function EnvironmentalRisks(e: EnvironmentalComponent): seq<string> {
    if e.impactAnalysis.Some? then e.impactAnalysis.value.risks else []
  }

  /** The alerts with the environmental risks read from the nested impact analysis. */
  function GetActiveAlertsCorrected(components: Option<Components>): (r: seq<Alert>)
    ensures components.None? ==> r == []
    ensures components.Some? ==>
              var c := components.value;
              var risks := if c.environmental.Some? then EnvironmentalRisks(c.environmental.value) else [];
              && |r| == |MediaAlerts(c)| + |risks| + (if NeedsAttention(c) then 1 else 0)
              && (forall i :: 0 <= i < |MediaAlerts(c)| ==> r[i] == MediaAlertOf(MediaAlerts(c)[i]))
              && (forall i :: 0 <= i < |risks| ==> r[|MediaAlerts(c)| + i] == RiskAlertOf(risks[i]))
              && (NeedsAttention(c) ==> r[|r| - 1] == Alert(MetricsAlert, METRICS_ALERT, Warning))
  {
    if components.None? then []
    else
      var c := components.value;
      var risks := if c.environmental.Some? then EnvironmentalRisks(c.environmental.value) else [];
      MapSeq(MediaAlerts(c), MediaAlertOf)
      + MapSeq(risks, RiskAlertOf)
      + (if NeedsAttention(c) then [Alert(MetricsAlert, METRICS_ALERT, Warning)] else [])
  }

  /** With the risks read where they are put, every risk of the processed readings becomes a warning. */
  lemma {:induction false} CorrectedAlertsCarryEveryRisk(d: Integration.Readings)
    ensures var risks := Integration.AnalyzeEnvironmentalImpact(d).risks;
            GetActiveAlertsCorrected(Some(Components(None, Some(ProcessedEnvironment(d)), None))) == MapSeq(risks, RiskAlertOf)
  {
    var risks := Integration.AnalyzeEnvironmentalImpact(d).risks;
    assert [] + MapSeq(risks, RiskAlertOf) + [] == MapSeq(risks, RiskAlertOf);
  }

  // ---------------------------------------------------------------------
  // Recommendations by time horizon

  /** A recommendation record as the report and the advice tables hold it. */
  datatype Rec = Rec(recommendation: string, priority: string, category: string)

  const HIGH: string := "high"
  const MEDIUM: string := "medium"
  const MANAGEMENT: string := "management"
  const ENVIRONMENTAL: string := "environmental"

  /** The horizon bucket of a report recommendation: high 0, medium 1, anything else 2. */
  function Horizon(r: Rec): nat {
    if r.priority == HIGH then 0 else if r.priority == MEDIUM then 1 else 2
  }

  const SEASONS: seq<string> := ["spring", "summer", "fall", "winter"]

  function SeasonTable(season: string): seq<Rec> {
    if season == "spring" then [Rec("Prepare for increased foraging activity", MEDIUM, MANAGEMENT), Rec("Monitor for swarm indicators", MEDIUM, MANAGEMENT)]
    else if season == "summer" then [Rec("Ensure adequate ventilation", MEDIUM, MANAGEMENT), Rec("Monitor water availability", MEDIUM, MANAGEMENT)]
    else if season == "fall" then [Rec("Prepare for reduced foraging", MEDIUM, MANAGEMENT), Rec("Consider supplementary feeding", MEDIUM, MANAGEMENT)]
    else if season == "winter" then [Rec("Monitor food stores", HIGH, MANAGEMENT), Rec("Ensure adequate insulation", HIGH, MANAGEMENT)]
    else []
  }

  /**
   * Two management items for a known season, looked up case-insensitively:
   * high priority in winter, medium otherwise; nothing for a missing, empty
   * or unknown season.
   */
  function SeasonalRecommendations(season: Option<string>): (r: seq<Rec>)
    ensures r != [] <==> season.Some? && season.value != "" && ToLower(season.value) in SEASONS
    ensures r != [] ==> |r| == 2
    ensures forall i :: 0 <= i < |r| ==> r[i].category == MANAGEMENT
    ensures forall i :: 0 <= i < |r| ==> (r[i].priority == HIGH <==> ToLower(season.value) == "winter")
    ensures forall i :: 0 <= i < |r| ==> r[i].priority == HIGH || r[i].priority == MEDIUM
  {
    if season.None? || season.value == "" then []
    else SeasonTable(ToLower(season.value))
  }

  /** The season's name is case-insensitive. */
  lemma WinterAnyCase()
    ensures SeasonalRecommendations(Some("Winter")) == SeasonalRecommendations(Some("winter"))
    ensures SeasonalRecommendations(Some("WINTER")) == SeasonalRecommendations(Some("winter"))
  {
    assert ToLower("Winter") == "winter";
    assert ToLower("WINTER") == "winter";
    assert ToLower("winter") == "winter";
  }

  /** The weather keys the advice looks at. */
  datatype Weather = Weather(temperature: Option<real>, rainfall: Option<real>)

  const COOLING_NOW: Rec := Rec("Implement cooling measures immediately", HIGH, ENVIRONMENTAL)
  const HIVE_INSULATION: Rec := Rec("Ensure adequate hive insulation", HIGH, ENVIRONMENTAL)
  const DRAINAGE: Rec := Rec("Check hive entrance for proper drainage", HIGH, ENVIRONMENTAL)

  /**
   * Cooling above 35 degrees or insulation below 10, then drainage when it
   * rains; every item is high-priority environmental advice.
   */
  function WeatherRecommendations(weather: Option<Weather>): (r: seq<Rec>)
    ensures |r| <= 2
    ensures COOLING_NOW in r <==> weather.Some? && weather.value.temperature.Some? && weather.value.temperature.value > 35.0
    ensures HIVE_INSULATION in r <==> weather.Some? && weather.value.temperature.Some? && weather.value.temperature.value < 10.0
    ensures DRAINAGE in r <==> weather.Some? && weather.value.rainfall.Some? && weather.value.rainfall.value > 0.0
    ensures forall i :: 0 <= i < |r| ==> r[i].priority == HIGH && r[i].category == ENVIRONMENTAL
  {
    if weather.None? then []
    else
      var w := weather.value;
      var temperature :=
        if w.temperature.None? then []
        else if w.temperature.value > 35.0 then [COOLING_NOW]
        else if w.temperature.value < 10.0 then [HIVE_INSULATION]
        else [];
      temperature + (if w.rainfall.Some? && w.rainfall.value > 0.0 then [DRAINAGE] else [])
  }

  /** What the caller adds to a recommendations request. */
  datatype Context = Context(season: Option<string>, weather: Option<Weather>)

  /**
   * The latest report's recommendations split by priority, keeping their
   * order: high into the immediate actions, medium into the short term, any
   * other into the long term. With a context, weather advice follows the
   * immediate actions and seasonal advice the short-term ones.
   */
  method GenerateRecommendations(report: Option<seq<Rec>>, context: Option<Context>)
    returns (immediate: seq<Rec>, shortTerm: seq<Rec>, longTerm: seq<Rec>)
    ensures var recs := if report.Some? then report.value else [];
            && immediate == WithRank(recs, Horizon, 0)
                            + (if context.Some? then WeatherRecommendations(context.value.weather) else [])
            && shortTerm == WithRank(recs, Horizon, 1)
                            + (if context.Some? then SeasonalRecommendations(context.value.season) else [])
            && longTerm == WithRank(recs, Horizon, 2)
  {
    immediate, shortTerm, longTerm := [], [], [];
    var recs := if report.Some? then report.value else [];
    for i := 0 to |recs|
      invariant immediate == WithRank(recs[..i], Horizon, 0)
      invariant shortTerm == WithRank(recs[..i], Horizon, 1)
      invariant longTerm == WithRank(recs[..i], Horizon, 2)
    {
      var rec := recs[i];
      assert recs[..i + 1] == recs[..i] + [rec];
      WithRankAppend(recs[..i], [rec], Horizon, 0);
      WithRankAppend(recs[..i], [rec], Horizon, 1);
      WithRankAppend(recs[..i], [rec], Horizon, 2);
      if rec.priority == HIGH {
        immediate := immediate + [rec];
      } else if rec.priority == MEDIUM {
        shortTerm := shortTerm + [rec];
      } else {
        longTerm := longTerm + [rec];
      }
    }
    assert recs[..|recs|] == recs;
    if context.Some? {
      var seasonal := SeasonalRecommendations(context.value.season);
      var weatherAdvice := WeatherRecommendations(context.value.weather);
      shortTerm := shortTerm + seasonal;
      immediate := immediate + weatherAdvice;
    }
  }

  /**
   * Bucketing loses and invents nothing: the three report buckets together
   * hold exactly the report's recommendations.
   */
  lemma HorizonsPartitionReport(recs: seq<Rec>)
    ensures multiset(WithRank(recs, Horizon, 0) + WithRank(recs, Horizon, 1) + WithRank(recs, Horizon, 2)) == multiset(recs)
  {
    assert ThreeRanks(recs, Horizon);
    SortByRankPermutation(recs, Horizon);
  }

  /** Every item of the immediate actions is high priority, whether from the report or from the weather. */
  lemma ImmediateActionsAreHigh(recs: seq<Rec>, context: Option<Context>)
    ensures var immediate := WithRank(recs, Horizon, 0) + (if context.Some? then WeatherRecommendations(context.value.weather) else []);
            forall i :: 0 <= i < |immediate| ==> immediate[i].priority == HIGH
  {
  }
}
