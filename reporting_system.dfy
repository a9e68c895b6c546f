/**
 * The report generator's rules: how recommendations from several sources
 * are tagged with a priority and a category and ordered, which of them the
 * summary calls priority actions, how a report is named, and how media and
 * environmental inputs are condensed into the report.
 */
module Reporting {
  import opened Common
  import opened Text
  import opened Ranking
  import KnowledgeBase

  // ---------------------------------------------------------------------
  // Priority and category of one recommendation

  const HIGH_KEYWORDS: seq<string> := ["immediate", "critical", "urgent"]
  const MEDIUM_KEYWORDS: seq<string> := ["important", "necessary", "should"]
  const LOW_KEYWORDS: seq<string> := ["consider", "may", "could"]

  datatype Priority = High | Medium | Low

  /**
   * The first tier whose keywords the recommendation mentions: high, then
   * medium, then low; a recommendation mentioning none is low as well.
   */
  function PriorityOf(rec: string): (p: Priority)
    ensures p == High <==> MentionsAny(rec, HIGH_KEYWORDS)
    ensures p == Medium <==> !MentionsAny(rec, HIGH_KEYWORDS) && MentionsAny(rec, MEDIUM_KEYWORDS)
    ensures p == Low <==> !MentionsAny(rec, HIGH_KEYWORDS) && !MentionsAny(rec, MEDIUM_KEYWORDS)
  {
    if MentionsAny(rec, HIGH_KEYWORDS) then High
    else if MentionsAny(rec, MEDIUM_KEYWORDS) then Medium
    else if MentionsAny(rec, LOW_KEYWORDS) then Low
    else Low
  }

  /** The sort key of a priority: high 0, medium 1, low 2. */
  function PriorityRank(p: Priority): nat {
    match p
    case High => 0
    case Medium => 1
    case Low => 2
  }

  const FORAGING_KEYWORDS: seq<string> := ["forage", "food", "nectar", "pollen"]
  const HEALTH_KEYWORDS: seq<string> := ["disease", "pest", "health", "infection"]
  const MANAGEMENT_KEYWORDS: seq<string> := ["hive", "maintenance", "clean", "inspect"]
  const ENVIRONMENT_KEYWORDS: seq<string> := ["weather", "temperature", "rain", "shade"]

  datatype Category = Foraging | Health | Management | Environment | General

  /** The first category whose keywords the recommendation mentions, in the order foraging, health, management, environment; otherwise general. */
  function Categorize(rec: string): (c: Category)
    ensures c == Foraging <==> MentionsAny(rec, FORAGING_KEYWORDS)
    ensures c == Health <==> !MentionsAny(rec, FORAGING_KEYWORDS) && MentionsAny(rec, HEALTH_KEYWORDS)
    ensures c == Management <==> !MentionsAny(rec, FORAGING_KEYWORDS) && !MentionsAny(rec, HEALTH_KEYWORDS)
                                 && MentionsAny(rec, MANAGEMENT_KEYWORDS)
    ensures c == Environment <==> !MentionsAny(rec, FORAGING_KEYWORDS) && !MentionsAny(rec, HEALTH_KEYWORDS)
                                  && !MentionsAny(rec, MANAGEMENT_KEYWORDS) && MentionsAny(rec, ENVIRONMENT_KEYWORDS)
  {
    if MentionsAny(rec, FORAGING_KEYWORDS) then Foraging
    else if MentionsAny(rec, HEALTH_KEYWORDS) then Health
    else if MentionsAny(rec, MANAGEMENT_KEYWORDS) then Management
    else if MentionsAny(rec, ENVIRONMENT_KEYWORDS) then Environment
    else General
  }

  datatype CompiledRecommendation = CompiledRecommendation(recommendation: string, priority: Priority, category: Category)

  function Compile(rec: string): CompiledRecommendation {
    CompiledRecommendation(rec, PriorityOf(rec), Categorize(rec))
  }

  function RecordRank(r: CompiledRecommendation): nat { PriorityRank(r.priority) }

  function TextRank(rec: string): nat { PriorityRank(PriorityOf(rec)) }

  function TextOf(r: CompiledRecommendation): string { r.recommendation }

  // ---------------------------------------------------------------------
  // Compiling the recommendation lists

  /** The lists concatenated in order. */
  function Flatten(lists: seq<seq<string>>): seq<string> {
    if lists == [] then [] else Flatten(lists[..|lists| - 1]) + lists[|lists| - 1]
  }

  function TotalLength(lists: seq<seq<string>>): nat {
    if lists == [] then 0 else TotalLength(lists[..|lists| - 1]) + |lists[|lists| - 1]|
  }

  /** Nothing is dropped or merged: there are as many recommendations as the lists hold together. */
  lemma {:induction false} FlattenLength(lists: seq<seq<string>>)
    ensures |Flatten(lists)| == TotalLength(lists)
  {
    if lists != [] {
      FlattenLength(lists[..|lists| - 1]);
    }
  }

  lemma FlattenSnoc(lists: seq<seq<string>>, i: nat)
    requires i < |lists|
    ensures Flatten(lists[..i + 1]) == Flatten(lists[..i]) + lists[i]
  {
    assert lists[..i + 1][..i] == lists[..i];
  }

  /** One record per recommendation of every list, in list order. */
  method CompileAll(lists: seq<seq<string>>) returns (records: seq<CompiledRecommendation>)
    ensures records == MapSeq(Flatten(lists), Compile)
  {
    records := [];
    var i := 0;
    while i < |lists|
      invariant 0 <= i <= |lists|
      invariant records == MapSeq(Flatten(lists[..i]), Compile)
    {
      records := CompileList(records, lists[i]);
      MapAppend(Flatten(lists[..i]), lists[i], Compile);
      FlattenSnoc(lists, i);
      i := i + 1;
    }
    assert lists[..i] == lists;
  }

  /** The records of one list, appended to those compiled so far. */
  method CompileList(done: seq<CompiledRecommendation>, source: seq<string>) returns (records: seq<CompiledRecommendation>)
    ensures records == done + MapSeq(source, Compile)
  {
    records := done;
    var j := 0;
    while j < |source|
      invariant 0 <= j <= |source|
      invariant records == done + MapSeq(source[..j], Compile)
    {
      var rec := source[j];
      assert source[..j + 1] == source[..j] + [rec];
      MapAppend(source[..j], [rec], Compile);
      records := records + [Compile(rec)];
      j := j + 1;
    }
    assert source[..j] == source;
  }

  /**
   * The records of all the lists, stably sorted by priority: the result is
   * a permutation of the records, ordered high, medium, low, and within one
   * priority in input order.
   */
  method CompileRecommendations(lists: seq<seq<string>>) returns (all: seq<CompiledRecommendation>)
    ensures all == SortByRank(MapSeq(Flatten(lists), Compile), RecordRank)
    ensures |all| == TotalLength(lists)
    ensures multiset(all) == multiset(MapSeq(Flatten(lists), Compile))
    ensures SortedByRank(all, RecordRank)
    ensures forall k :: WithRank(all, RecordRank, k) == WithRank(MapSeq(Flatten(lists), Compile), RecordRank, k)
  {
    var records := CompileAll(lists);
    all := SortByRank(records, RecordRank);
    FlattenLength(lists);
    SortByRankSorted(records, RecordRank);
    assert ThreeRanks(records, RecordRank);
    SortByRankPermutation(records, RecordRank);
    assert |all| == |multiset(all)| == |multiset(records)| == |records|;
    forall k ensures WithRank(all, RecordRank, k) == WithRank(records, RecordRank, k) {
      SortByRankStable(records, RecordRank, k);
    }
  }

  // ---------------------------------------------------------------------
  // Report summary

  /** `[r.recommendation for r in recs if r.priority == 'high'][:3]`. */
  function PriorityActions(recs: seq<CompiledRecommendation>): (r: seq<string>)
    ensures |r| <= 3
    ensures forall i :: 0 <= i < |r| ==> exists j :: 0 <= j < |recs| && recs[j].priority == High && recs[j].recommendation == r[i]
  {
    var high := WithRank(recs, RecordRank, 0);
    var texts := MapSeq(high, TextOf);
    forall i | 0 <= i < |Take(texts, 3)|
      ensures exists j :: 0 <= j < |recs| && recs[j].priority == High && recs[j].recommendation == Take(texts, 3)[i]
    {
      WithRankMember(recs, RecordRank, 0, i);
    }
    Take(texts, 3)
  }

  /** Every element of a rank filter is an element of the filtered sequence. */
  lemma {:induction false} WithRankMember<T>(xs: seq<T>, rank: T -> nat, k: nat, i: nat)
    requires i < |WithRank(xs, rank, k)|
    ensures exists j :: 0 <= j < |xs| && xs[j] == WithRank(xs, rank, k)[i]
  {
    var head := if rank(xs[0]) == k then [xs[0]] else [];
    if i < |head| {
      assert xs[0] == WithRank(xs, rank, k)[i];
    } else {
      WithRankMember(xs[1..], rank, k, i - |head|);
      var j :| 0 <= j < |xs[1..]| && xs[1..][j] == WithRank(xs[1..], rank, k)[i - |head|];
      assert xs[j + 1] == WithRank(xs, rank, k)[i];
    }
  }

  /**
   * The summary's priority actions are the first three high-priority
   * recommendations in the order the lists supplied them.
   */
  lemma PriorityActionsOfCompiled(lists: seq<seq<string>>)
    ensures PriorityActions(SortByRank(MapSeq(Flatten(lists), Compile), RecordRank)) == Take(WithRank(Flatten(lists), TextRank, 0), 3)
  {
    var recs := Flatten(lists);
    var records := MapSeq(recs, Compile);
    assert ThreeRanks(records, RecordRank);
    SortByRankStable(records, RecordRank, 0);
    WithRankMap(recs, Compile, RecordRank, TextRank, 0);
    var high := WithRank(recs, TextRank, 0);
    assert MapSeq(MapSeq(high, Compile), TextOf) == high;
  }

  function StatusFinding(status: string): string { "Hive status is " + status }

  /**
   * The key findings: the status always; the activity direction when the
   * activity trend has one; the environmental assessment when there was
   * environmental data.
   */
  function KeyFindings(status: string, activityDirection: Option<string>, impactAssessment: Option<string>): (r: seq<string>)
    ensures 1 <= |r| <= 3 && r[0] == StatusFinding(status)
    ensures activityDirection.Some? && activityDirection.value != "" ==> |r| >= 2 && r[1] == "Activity is " + activityDirection.value
    ensures impactAssessment.Some? ==> r[|r| - 1] == impactAssessment.value
    ensures |r| == 1 + (if activityDirection.Some? && activityDirection.value != "" then 1 else 0) + (if impactAssessment.Some? then 1 else 0)
  {
    [StatusFinding(status)]
    + (if activityDirection.Some? && activityDirection.value != "" then ["Activity is " + activityDirection.value] else [])
    + (if impactAssessment.Some? then [impactAssessment.value] else [])
  }

  // ---------------------------------------------------------------------
  // Report identifier

  /** A calendar instant to the minute, as `datetime.now()` supplies it. */
  datatype DateTime = DateTime(year: nat, month: nat, day: nat, hour: nat, minute: nat)

  predicate ValidDateTime(t: DateTime) {
    1000 <= t.year <= 9999 && 1 <= t.month <= 12 && 1 <= t.day <= 31 && t.hour < 24 && t.minute < 60
  }

  /** `%Y%m%d%H%M`: twelve digits. */
  function Stamp(t: DateTime): (s: string)
    ensures |s| == 12 && AllDigits(s)
  {
    PadDigits(t.year, 4) + PadDigits(t.month, 2) + PadDigits(t.day, 2) + PadDigits(t.hour, 2) + PadDigits(t.minute, 2)
  }

  /** `BEE-{user}-{stamp}`. */
  function ReportId(userId: string, t: DateTime): (id: string)
    ensures |id| == |userId| + 17
    ensures id[..4] == "BEE-" && id[4..4 + |userId|] == userId && id[4 + |userId|] == '-'
    ensures AllDigits(id[|id| - 12..])
  {
    var id := "BEE-" + userId + "-" + Stamp(t);
    assert id[|id| - 12..] == Stamp(t);
    id
  }

  /** The instant can be read back from the identifier's last twelve digits. */
  lemma ReportIdRoundTrip(userId: string, t: DateTime)
    requires ValidDateTime(t)
    ensures var s := ReportId(userId, t)[|userId| + 5..];
            && DigitsValue(s[..4]) == t.year && DigitsValue(s[4..6]) == t.month && DigitsValue(s[6..8]) == t.day
            && DigitsValue(s[8..10]) == t.hour && DigitsValue(s[10..]) == t.minute
  {
    var id := ReportId(userId, t);
    var s := id[|userId| + 5..];
    assert s == Stamp(t);
    assert s[..4] == PadDigits(t.year, 4);
    assert s[4..6] == PadDigits(t.month, 2);
    assert s[6..8] == PadDigits(t.day, 2);
    assert s[8..10] == PadDigits(t.hour, 2);
    assert s[10..] == PadDigits(t.minute, 2);
    assert Pow10(2) == 100 && Pow10(4) == 10000;
    PadDigitsRoundTrip(t.year, 4);
    PadDigitsRoundTrip(t.month, 2);
    PadDigitsRoundTrip(t.day, 2);
    PadDigitsRoundTrip(t.hour, 2);
    PadDigitsRoundTrip(t.minute, 2);
  }

  /** Two reports of the same user get the same identifier only within the same minute. */
  lemma ReportIdInjective(userId: string, t1: DateTime, t2: DateTime)
    requires ValidDateTime(t1) && ValidDateTime(t2)
    requires ReportId(userId, t1) == ReportId(userId, t2)
    ensures t1 == t2
  {
    ReportIdRoundTrip(userId, t1);
    ReportIdRoundTrip(userId, t2);
  }

  // ---------------------------------------------------------------------
  // Media and environmental inputs

  /** A loosely-typed record: field name to rendered value. */
  type Record = map<string, string>

  datatype ImageFindings = ImageFindings(beeCount: Option<int>)
  datatype VideoFindings = VideoFindings(activitySummary: Option<Record>)

  /** The `findings` of a media analysis; each part may be absent. */
  datatype Findings = Findings(
    imageAnalysis: Option<ImageFindings>,
    videoAnalysis: Option<VideoFindings>,
    issues: Option<seq<string>>,
    alerts: Option<seq<string>>)

  datatype MediaAnalysis = MediaAnalysis(findings: Option<Findings>)

  /**
   * The activity metrics of a media analysis: `instantActivity` is present
   * when there was an image analysis (holding its bee count, which may itself
   * be missing), `activityPattern` when there was a video analysis (its
   * summary, empty when missing).
   */
  datatype ActivityMetricsView = ActivityMetricsView(instantActivity: Option<Option<int>>, activityPattern: Option<Record>)

  function ExtractActivityMetrics(analysis: MediaAnalysis): (r: ActivityMetricsView)
    ensures analysis.findings.None? ==> r == ActivityMetricsView(None, None)
    ensures analysis.findings.Some? ==>
              && (r.instantActivity.Some? <==> analysis.findings.value.imageAnalysis.Some?)
              && (r.instantActivity.Some? ==> r.instantActivity.value == analysis.findings.value.imageAnalysis.value.beeCount)
              && (r.activityPattern.Some? <==> analysis.findings.value.videoAnalysis.Some?)
              && (r.activityPattern.Some? && analysis.findings.value.videoAnalysis.value.activitySummary.None? ==> r.activityPattern.value == map[])
              && (r.activityPattern.Some? && analysis.findings.value.videoAnalysis.value.activitySummary.Some? ==>
                    r.activityPattern.value == analysis.findings.value.videoAnalysis.value.activitySummary.value)
  {
    if analysis.findings.None? then ActivityMetricsView(None, None)
    else
      var f := analysis.findings.value;
      var instant := if f.imageAnalysis.Some? then Some(f.imageAnalysis.value.beeCount) else None;
      var pattern := match f.videoAnalysis
        case None => None
        case Some(v) => Some(if v.activitySummary.Some? then v.activitySummary.value else map[]);
      ActivityMetricsView(instant, pattern)
  }

  /** The media analysis's issues followed by its alerts, each in order; nothing when there are no findings. */
  method ExtractIssues(analysis: MediaAnalysis) returns (issues: seq<string>)
    ensures analysis.findings.None? ==> issues == []
    ensures analysis.findings.Some? ==>
              var f := analysis.findings.value;
              issues == (if f.issues.Some? then f.issues.value else []) + (if f.alerts.Some? then f.alerts.value else [])
  {
    issues := [];
    if analysis.findings.Some? {
      var f := analysis.findings.value;
      if f.issues.Some? {
        issues := issues + f.issues.value;
      }
      if f.alerts.Some? {
        issues := issues + f.alerts.value;
      }
    }
  }

  /** The environmental readings a report is given. */
  datatype EnvironmentalData = EnvironmentalData(temperature: Option<real>, weatherCondition: Option<string>, waterDistance: Option<real>)

  const TEMP_BELOW_RANGE: string := "Temperature below optimal foraging range"
  const TEMP_ABOVE_RANGE: string := "Temperature above optimal foraging range"
  const SUBOPTIMAL_WEATHER: string := "Sub-optimal weather conditions for foraging"
  const ACCEPTABLE_CONDITIONS: string := "Environmental conditions within acceptable range"

  /**
   * A temperature outside the optimal range [20, 35] is reported first;
   * otherwise a weather condition outside the four favourable ones;
   * otherwise the conditions are acceptable.
   */
  function AssessEnvironmentalImpact(env: EnvironmentalData): (r: string)
    ensures r == TEMP_BELOW_RANGE <==> env.temperature.Some? && env.temperature.value < 20.0
    ensures r == TEMP_ABOVE_RANGE <==> env.temperature.Some? && env.temperature.value > 35.0
    ensures r == SUBOPTIMAL_WEATHER <==> (env.temperature.None? || 20.0 <= env.temperature.value <= 35.0)
                                         && env.weatherCondition.Some? && env.weatherCondition.value !in KnowledgeBase.WEATHER_CONDITIONS
    ensures r == ACCEPTABLE_CONDITIONS <==> (env.temperature.None? || 20.0 <= env.temperature.value <= 35.0)
                                            && (env.weatherCondition.None? || env.weatherCondition.value in KnowledgeBase.WEATHER_CONDITIONS)
  {
    if env.temperature.Some? && env.temperature.value < KnowledgeBase.OPTIMAL_TEMP_MIN then TEMP_BELOW_RANGE
    else if env.temperature.Some? && env.temperature.value > KnowledgeBase.OPTIMAL_TEMP_MAX then TEMP_ABOVE_RANGE
    else if env.weatherCondition.Some? && env.weatherCondition.value !in KnowledgeBase.WEATHER_CONDITIONS then SUBOPTIMAL_WEATHER
    else ACCEPTABLE_CONDITIONS
  }

  datatype EnvironmentalInsights = EnvironmentalInsights(conditions: EnvironmentalData, impactAssessment: string, recommendations: seq<string>)

  function ForagingConditions(env: EnvironmentalData): KnowledgeBase.Conditions {
    KnowledgeBase.Conditions(env.temperature, env.waterDistance)
  }

  /**
   * The environmental part of a report as written: the knowledge base's
   * advice is looked up under a 'recommendations' key, which the advice
   * (timing, management, alerts) never has, so no recommendation ever
   * reaches the report and the advice itself plays no part.
   */
  function AnalyzeEnvironmentalData(env: EnvironmentalData): (r: EnvironmentalInsights)
    ensures r.conditions == env && r.impactAssessment == AssessEnvironmentalImpact(env)
    ensures r.recommendations == []
  {
    EnvironmentalInsights(env, AssessEnvironmentalImpact(env), [])
  }

  /** Water 4 km away draws advice from the knowledge base, yet the report carries none. */
  lemma DistantWaterAdviceLost()
    ensures KnowledgeBase.GetForagingRecommendations(KnowledgeBase.Conditions(None, Some(4000.0))).management == [KnowledgeBase.CLOSER_WATER]
    ensures AnalyzeEnvironmentalData(EnvironmentalData(None, None, Some(4000.0))).recommendations == []
  {
  }

  /** The environmental part reading the knowledge base's management advice, as the activity analyzer does. */
  function AnalyzeEnvironmentalDataCorrected(env: EnvironmentalData): (r: EnvironmentalInsights)
    ensures r.conditions == env && r.impactAssessment == AssessEnvironmentalImpact(env)
    ensures r.recommendations == [KnowledgeBase.CLOSER_WATER] <==>
              KnowledgeBase.Truthy(env.waterDistance) && env.waterDistance.value > KnowledgeBase.WATER_DISTANCE_MAX
    ensures r.recommendations == [] <==>
              !(KnowledgeBase.Truthy(env.waterDistance) && env.waterDistance.value > KnowledgeBase.WATER_DISTANCE_MAX)
  {
    var advice := KnowledgeBase.GetForagingRecommendations(ForagingConditions(env));
    EnvironmentalInsights(env, AssessEnvironmentalImpact(env), advice.management)
  }
}
