/**
 * The beekeeping knowledge base: the constant threshold table the analyzers
 * consult, and the three rules it evaluates itself (foraging alerts,
 * productivity issues, seasonal guidance). Temperatures are in degrees
 * Celsius, distances to water in metres, honey yields in kg per harvest.
 */
module KnowledgeBase {
  import opened Common
  import opened Text

  // ---------------------------------------------------------------------
  // The threshold table

  /** The temperature range in which foraging is optimal. */
  const OPTIMAL_TEMP_MIN: real := 20.0
  const OPTIMAL_TEMP_MAX: real := 35.0
  /** The critical temperature points. */
  const TOO_COLD: real := 10.0
  const TOO_HOT: real := 40.0

  /** The weather conditions under which foraging is unimpeded. */
  const WEATHER_CONDITIONS: seq<string> := ["clear_sky", "partial_clouds", "light_wind", "no_rain"]

  /** How far a hive may stand from water. */
  const WATER_DISTANCE_MIN: real := 100.0
  const WATER_DISTANCE_MAX: real := 3000.0

  const TRADITIONAL_HIVE: string := "traditional_hive"
  const MODERN_HIVE: string := "modern_hive"

  /** The optimal honey yield of one hive type, `[low, high]` kg per harvest, and harvests per year. */
  datatype YieldRange = YieldRange(low: real, high: real, frequency: nat)

  /** The optimal yield of each known hive type; the lookup fails for any other type. */
  function OptimalYield(hiveType: string): (r: Option<YieldRange>)
    ensures r.Some? <==> hiveType == TRADITIONAL_HIVE || hiveType == MODERN_HIVE
    ensures r.Some? ==> 0.0 < r.value.low < r.value.high
  {
    if hiveType == TRADITIONAL_HIVE then Some(YieldRange(8.0, 15.0, 2))
    else if hiveType == MODERN_HIVE then Some(YieldRange(15.0, 25.0, 3))
    else None
  }

  /** Forager activity bands, as the descriptive strings the table holds. */
  const FORAGER_ACTIVITY_HIGH: string := "> 40 bees/minute"
  const FORAGER_ACTIVITY_MEDIUM: string := "20-40 bees/minute"
  const FORAGER_ACTIVITY_LOW: string := "< 20 bees/minute"

  const DRY_SEASON: string := "dry_season"
  const WET_SEASON: string := "wet_season"

  datatype SeasonGuide = SeasonGuide(challenges: seq<string>, recommendations: seq<string>)

  /** The seasonal management table: entries for the dry and the wet season only. */
  function SeasonalManagement(season: string): (r: Option<SeasonGuide>)
    ensures r.Some? <==> season == DRY_SEASON || season == WET_SEASON
    ensures r.Some? ==> |r.value.challenges| == 3 && |r.value.recommendations| == 4
  {
    if season == DRY_SEASON then
      Some(SeasonGuide(
        ["reduced_forage", "water_scarcity", "overheating"],
        ["provide_water_sources", "supplementary_feeding", "ventilation_management", "shade_provision"]))
    else if season == WET_SEASON then
      Some(SeasonGuide(
        ["excess_moisture", "reduced_foraging_time", "fungal_growth"],
        ["improve_drainage", "maintain_dry_conditions", "regular_inspections", "entrance_reduction"]))
    else None
  }

  // ---------------------------------------------------------------------
  // Seasonal guidance

  const INVALID_SEASON: string := "Invalid season specified"

  /** The table entry for a known season, the invalid-season error for any other name. */
  function GetSeasonalGuidance(season: string): (r: Result<SeasonGuide, string>)
    ensures r.Ok? <==> season in [DRY_SEASON, WET_SEASON]
    ensures r.Ok? ==> Some(r.value) == SeasonalManagement(season)
    ensures r.Err? ==> r.error == INVALID_SEASON
  {
    match SeasonalManagement(season)
    case Some(guide) => Ok(guide)
    case None => Err(INVALID_SEASON)
  }

  // ---------------------------------------------------------------------
  // Foraging recommendations

  const TEMP_TOO_LOW: string := "Temperature too low for optimal foraging"
  const TEMP_TOO_HIGH: string := "Temperature too high for optimal foraging"
  const CLOSER_WATER: string := "Consider providing closer water sources"

  /** The optional readings a caller supplies. */
  datatype Conditions = Conditions(temperature: Option<real>, waterDistance: Option<real>)

  datatype ForagingAdvice = ForagingAdvice(timing: seq<string>, management: seq<string>, alerts: seq<string>)

  /** Python truthiness of an optional number: present and non-zero. */
  predicate Truthy(v: Option<real>) {
    v.Some? && v.value != 0.0
  }

  /**
   * The foraging rule as written: a reading is consulted only when it is
   * truthy, so a temperature of exactly 0 raises no alert. Timing advice is
   * never produced.
   */
  function GetForagingRecommendations(c: Conditions): (r: ForagingAdvice)
    ensures r.timing == []
    ensures r.alerts == [TEMP_TOO_LOW] <==> Truthy(c.temperature) && c.temperature.value < OPTIMAL_TEMP_MIN
    ensures r.alerts == [TEMP_TOO_HIGH] <==> Truthy(c.temperature) && c.temperature.value > OPTIMAL_TEMP_MAX
    ensures r.alerts == [] <==> !Truthy(c.temperature) || OPTIMAL_TEMP_MIN <= c.temperature.value <= OPTIMAL_TEMP_MAX
    ensures r.management == [CLOSER_WATER] <==> Truthy(c.waterDistance) && c.waterDistance.value > WATER_DISTANCE_MAX
    ensures r.management == [] <==> !(Truthy(c.waterDistance) && c.waterDistance.value > WATER_DISTANCE_MAX)
  {
    var alerts :=
      if !Truthy(c.temperature) then []
      else if c.temperature.value < OPTIMAL_TEMP_MIN then [TEMP_TOO_LOW]
      else if c.temperature.value > OPTIMAL_TEMP_MAX then [TEMP_TOO_HIGH]
      else [];
    var management := if Truthy(c.waterDistance) && c.waterDistance.value > WATER_DISTANCE_MAX then [CLOSER_WATER] else [];
    ForagingAdvice([], management, alerts)
  }

  /** A freezing reading of exactly 0 degrees is treated like a missing one and raises no alert. */
  lemma ZeroTemperatureRaisesNoAlert()
    ensures GetForagingRecommendations(Conditions(Some(0.0), None)).alerts == []
    ensures GetForagingRecommendations(Conditions(Some(-1.0), None)).alerts == [TEMP_TOO_LOW]
  {
  }

  /** The foraging rule with the temperature consulted whenever it is present. */
  function GetForagingRecommendationsCorrected(c: Conditions): (r: ForagingAdvice)
    ensures r.timing == []
    ensures r.alerts == [TEMP_TOO_LOW] <==> c.temperature.Some? && c.temperature.value < OPTIMAL_TEMP_MIN
    ensures r.alerts == [TEMP_TOO_HIGH] <==> c.temperature.Some? && c.temperature.value > OPTIMAL_TEMP_MAX
    ensures r.alerts == [] <==> c.temperature.None? || OPTIMAL_TEMP_MIN <= c.temperature.value <= OPTIMAL_TEMP_MAX
    ensures r.management == [CLOSER_WATER] <==> c.waterDistance.Some? && c.waterDistance.value > WATER_DISTANCE_MAX
    ensures r.management == [] <==> !(c.waterDistance.Some? && c.waterDistance.value > WATER_DISTANCE_MAX)
  {
    var alerts :=
      if c.temperature.None? then []
      else if c.temperature.value < OPTIMAL_TEMP_MIN then [TEMP_TOO_LOW]
      else if c.temperature.value > OPTIMAL_TEMP_MAX then [TEMP_TOO_HIGH]
      else [];
    var management := if c.waterDistance.Some? && c.waterDistance.value > WATER_DISTANCE_MAX then [CLOSER_WATER] else [];
    ForagingAdvice([], management, alerts)
  }

  /** The two rules differ only on a temperature of exactly 0, where the corrected one alerts. */
  lemma ForagingRulesAgreeOffZero(c: Conditions)
    ensures c.temperature != Some(0.0) ==> GetForagingRecommendationsCorrected(c) == GetForagingRecommendations(c)
    ensures c.temperature == Some(0.0) ==> GetForagingRecommendationsCorrected(c).alerts == [TEMP_TOO_LOW]
  {
  }

  // ---------------------------------------------------------------------
  // Productivity analysis

  const BELOW_OPTIMAL_YIELD: string := "Below optimal honey yield"
  const REVIEW_FORAGING: string := "Review foraging conditions and hive management"
  const LOW_FORAGER_ACTIVITY: string := "Low forager activity"
  const CHECK_HEALTH: string := "Check for health issues and forage availability"

  /** The optional metrics a caller supplies. */
  datatype Metrics = Metrics(honeyYield: Option<real>, hiveType: Option<string>, foragerActivity: Option<real>)

  datatype ProductivityAnalysis = ProductivityAnalysis(status: string, issues: seq<string>, recommendations: seq<string>)

  /** The exceptions the analysis raises: an unknown hive type, or a threshold that is not a number. */
  datatype LookupError = KeyError(key: string) | ValueError(text: string)

  /** `int(s.split()[0])`: the number a descriptive band starts with, if its first word is one. */
  function LeadingInt(s: string): Option<nat> {
    match FirstWord(s)
    case None => None
    case Some(w) => ParseNat(w)
  }

  /** The low forager band's first word is the `<` sign, not a number. */
  lemma LowBandHasNoLeadingInt()
    ensures FirstWord(FORAGER_ACTIVITY_LOW) == Some("<")
    ensures LeadingInt(FORAGER_ACTIVITY_LOW) == None
  {
    FirstWordOf("", "<", "20 bees/minute");
    assert FORAGER_ACTIVITY_LOW == "" + "<" + [' '] + "20 bees/minute";
    assert !IsDigit('<');
  }

  /** `int(s.split()[1])`: the number after the sign of a `< n ...` band. */
  function SecondInt(s: string): Option<nat> {
    var parts := SplitOn(s, ' ');
    if |parts| < 2 then None else ParseNat(parts[1])
  }

  lemma LowBandSecondIntIs20()
    ensures SecondInt(FORAGER_ACTIVITY_LOW) == Some(20)
  {
    LowBandWords();
    TwentyParses();
  }

  /** The low band splits on blanks into its sign, its number and its unit. */
  lemma LowBandWords()
    ensures SplitOn(FORAGER_ACTIVITY_LOW, ' ') == ["<", "20", "bees/minute"]
  {
    assert FORAGER_ACTIVITY_LOW == "<" + [' '] + "20" + [' '] + "bees/minute";
    SplitThree("<", "20", "bees/minute", ' ');
  }

  lemma TwentyParses()
    ensures ParseNat("20") == Some(20)
  {
    var twenty: string := "20";
    assert twenty[..1] == "2";
    assert DigitsValue(twenty) == 20;
  }

  /**
   * The shared body of the productivity rule, given how the low-activity
   * threshold was read: a yield below the lower bound of the hive type's
   * range (traditional by default) adds one issue and one recommendation; a
   * forager rate below the threshold adds another pair. The yield is looked
   * at first, so an unknown hive type fails before the rate is read.
   */
  function AnalyzeWith(m: Metrics, lowThreshold: Option<nat>): (r: Result<ProductivityAnalysis, LookupError>)
    ensures var hive := if m.hiveType.Some? then m.hiveType.value else TRADITIONAL_HIVE;
            && (m.honeyYield.Some? && OptimalYield(hive).None? ==> r == Err(KeyError(hive)))
            && ((m.honeyYield.None? || OptimalYield(hive).Some?) && m.foragerActivity.Some? && lowThreshold.None? ==> r.Err? && r.error.ValueError?)
            && (r.Ok? ==> r.value.status == "" && |r.value.issues| == |r.value.recommendations| <= 2)
            && (r.Ok? ==> (BELOW_OPTIMAL_YIELD in r.value.issues <==> m.honeyYield.Some? && m.honeyYield.value < OptimalYield(hive).value.low))
            && (r.Ok? ==> (LOW_FORAGER_ACTIVITY in r.value.issues <==> m.foragerActivity.Some? && m.foragerActivity.value < lowThreshold.value as real))
  {
    var hive := if m.hiveType.Some? then m.hiveType.value else TRADITIONAL_HIVE;
    if m.honeyYield.Some? && OptimalYield(hive).None? then Err(KeyError(hive))
    else
      var lowYield := m.honeyYield.Some? && m.honeyYield.value < OptimalYield(hive).value.low;
      var issues := if lowYield then [BELOW_OPTIMAL_YIELD] else [];
      var recommendations := if lowYield then [REVIEW_FORAGING] else [];
      if m.foragerActivity.None? then Ok(ProductivityAnalysis("", issues, recommendations))
      else if lowThreshold.None? then Err(ValueError(FORAGER_ACTIVITY_LOW))
      else if m.foragerActivity.value < lowThreshold.value as real then
        Ok(ProductivityAnalysis("", issues + [LOW_FORAGER_ACTIVITY], recommendations + [CHECK_HEALTH]))
      else Ok(ProductivityAnalysis("", issues, recommendations))
  }

  /** The productivity rule as written: the low-activity threshold is read as the band's first word. */
  function AnalyzeProductivity(m: Metrics): (r: Result<ProductivityAnalysis, LookupError>)
    ensures var hive := if m.hiveType.Some? then m.hiveType.value else TRADITIONAL_HIVE;
            && (m.honeyYield.Some? && OptimalYield(hive).None? ==> r == Err(KeyError(hive)))
            && (r.Ok? <==> (m.honeyYield.None? || OptimalYield(hive).Some?) && m.foragerActivity.None?)
    ensures m.foragerActivity.None? ==> r == AnalyzeProductivityCorrected(m)
  {
    LowBandHasNoLeadingInt();
    AnalyzeWith(m, LeadingInt(FORAGER_ACTIVITY_LOW))
  }

  /** As written, any call that reaches the forager rate fails: `int("<")` raises. */
  lemma ForagerActivityAlwaysFails(m: Metrics)
    requires m.foragerActivity.Some?
    requires m.honeyYield.None? || OptimalYield(if m.hiveType.Some? then m.hiveType.value else TRADITIONAL_HIVE).Some?
    ensures AnalyzeProductivity(m).Err? && AnalyzeProductivity(m).error.ValueError?
  {
    LowBandHasNoLeadingInt();
  }

  /** The productivity rule reading the number the low band names, 20 bees per minute. */
  function AnalyzeProductivityCorrected(m: Metrics): (r: Result<ProductivityAnalysis, LookupError>)
    ensures var hive := if m.hiveType.Some? then m.hiveType.value else TRADITIONAL_HIVE;
            && (r.Err? <==> m.honeyYield.Some? && OptimalYield(hive).None?)
            && (r.Err? ==> r == Err(KeyError(hive)))
            && (r.Ok? ==> (BELOW_OPTIMAL_YIELD in r.value.issues <==> m.honeyYield.Some? && m.honeyYield.value < OptimalYield(hive).value.low))
  {
    LowBandSecondIntIs20();
    AnalyzeWith(m, SecondInt(FORAGER_ACTIVITY_LOW))
  }

  /** Corrected, a known hive type never fails, and low activity means fewer than 20 bees per minute. */
  lemma CorrectedFlagsLowActivity(m: Metrics)
    requires m.honeyYield.None? || OptimalYield(if m.hiveType.Some? then m.hiveType.value else TRADITIONAL_HIVE).Some?
    ensures AnalyzeProductivityCorrected(m).Ok?
    ensures LOW_FORAGER_ACTIVITY in AnalyzeProductivityCorrected(m).value.issues <==>
              m.foragerActivity.Some? && m.foragerActivity.value < 20.0
  {
    LowBandSecondIntIs20();
  }
}
