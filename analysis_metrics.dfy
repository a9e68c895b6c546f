/**
 * The decision rules of the bee activity analyzer: the activity level of a
 * frame's bee count, the consistency of motion magnitudes, the trend of a
 * series of counts, and the summary and advice built from them. The counts
 * come from image processing, and the spread and the fitted slope from
 * numpy; all three are inputs here.
 */
module ActivityMetrics {
  import opened Common
  import opened Text
  import opened KnowledgeBase

  // ---------------------------------------------------------------------
  // Thresholds read from the knowledge base's forager activity bands

  /** `int(s.split(c)[1].split()[0])`: the first word after the first `c`, as a number. */
  function NumberAfter(s: string, c: char): Option<nat> {
    var parts := SplitOn(s, c);
    if |parts| < 2 then None else LeadingInt(parts[1])
  }

  /** `int(s.split(c)[0])`: everything before the first `c`, as a number. */
  function NumberBefore(s: string, c: char): Option<nat> {
    ParseNat(SplitOn(s, c)[0])
  }

  lemma FortyParses()
    ensures ParseNat("40") == Some(40)
  {
    var forty: string := "40";
    assert forty[..1] == "4";
    assert DigitsValue(forty) == 40;
  }

  /** A sign, blanks, a word and more: the number after the sign is the word read as a number. */
  lemma NumberAfterSign(c: char, lead: string, w: string, rest: string)
    requires c !in lead + w + [' '] + rest
    requires forall i :: 0 <= i < |lead| ==> lead[i] == ' '
    requires w != [] && forall i :: 0 <= i < |w| ==> !IsSpace(w[i])
    ensures NumberAfter([c] + lead + w + [' '] + rest, c) == ParseNat(w)
  {
    var after := lead + w + [' '] + rest;
    SplitOnAbsent(after, c);
    assert [c] + lead + w + [' '] + rest == [] + [c] + after;
    SplitOnFirst([], after, c);
    FirstWordOf(lead, w, rest);
  }

  /** The high band `> 40 ...` names 40 after its sign. */
  lemma HighBandIs40()
    ensures NumberAfter(FORAGER_ACTIVITY_HIGH, '>') == Some(40)
  {
    assert FORAGER_ACTIVITY_HIGH == ['>'] + " " + "40" + [' '] + "bees/minute";
    NumberAfterSign('>', " ", "40", "bees/minute");
    FortyParses();
  }

  /** The medium band `20-40 ...` names 20 before its dash. */
  lemma MediumBandIs20()
    ensures NumberBefore(FORAGER_ACTIVITY_MEDIUM, '-') == Some(20)
  {
    var after: string := "40 bees/minute";
    assert FORAGER_ACTIVITY_MEDIUM == "20" + ['-'] + after;
    SplitOnFirst("20", after, '-');
    TwentyParses();
  }

  /** The low band `< 20 ...` names 20 after its sign. */
  lemma LowBandIs20()
    ensures NumberAfter(FORAGER_ACTIVITY_LOW, '<') == Some(20)
  {
    assert FORAGER_ACTIVITY_LOW == ['<'] + " " + "20" + [' '] + "bees/minute";
    NumberAfterSign('<', " ", "20", "bees/minute");
    TwentyParses();
  }

  // ---------------------------------------------------------------------
  // Activity level of one frame

  datatype Level = High | Medium | Low

  /**
   * A count above the high band's 40 is high, above the medium band's 20 is
   * medium, anything else low; both cuts are strict.
   */
  function ActivityLevel(beeCount: int): (r: Level)
    ensures r == High <==> beeCount > 40
    ensures r == Medium <==> 20 < beeCount <= 40
    ensures r == Low <==> beeCount <= 20
  {
    HighBandIs40();
    MediumBandIs20();
    if beeCount > NumberAfter(FORAGER_ACTIVITY_HIGH, '>').value then High
    else if beeCount > NumberBefore(FORAGER_ACTIVITY_MEDIUM, '-').value then Medium
    else Low
  }

  // ---------------------------------------------------------------------
  // Consistency and trend

  datatype Consistency = VeryConsistent | Consistent | Variable

  /** Buckets the standard deviation of the motion magnitudes: below 0.2, below 0.5, or more. */
  function ConsistencyOf(stdDev: real): (r: Consistency)
    ensures r == VeryConsistent <==> stdDev < 0.2
    ensures r == Consistent <==> 0.2 <= stdDev < 0.5
    ensures r == Variable <==> stdDev >= 0.5
  {
    if stdDev < 0.2 then VeryConsistent
    else if stdDev < 0.5 then Consistent
    else Variable
  }

  datatype Trend = InsufficientData | Increasing | Decreasing | Stable

  /**
   * The trend of `count` values whose least-squares slope is `slope`: fewer
   * than two values give no trend, and a slope within 0.1 of flat is stable.
   */
  function TrendOf(count: nat, slope: real): (r: Trend)
    ensures r == InsufficientData <==> count < 2
    ensures r == Increasing <==> count >= 2 && slope > 0.1
    ensures r == Decreasing <==> count >= 2 && slope < -0.1
    ensures r == Stable <==> count >= 2 && -0.1 <= slope <= 0.1
  {
    if count < 2 then InsufficientData
    else if slope > 0.1 then Increasing
    else if slope < -0.1 then Decreasing
    else Stable
  }

  // ---------------------------------------------------------------------
  // Recommendations

  const LOW_ACTIVITY_ADVICE: seq<string> := [
    "Colony shows low foraging activity",
    "Check for potential health issues",
    "Verify adequate food sources within foraging range",
    "Consider supplementary feeding"]

  const STRONG_ACTIVITY_ADVICE: seq<string> := [
    "Strong foraging activity observed",
    "Ensure adequate water sources",
    "Monitor for signs of swarming",
    "Consider adding supers if needed"]

  const DECLINE_ADVICE: seq<string> := [
    "Declining foraging activity detected",
    "Check for environmental stressors",
    "Evaluate nectar source availability",
    "Inspect for disease or pest issues"]

  const GROWTH_ADVICE: string := "Positive trend in foraging activity - maintain current conditions"

  /**
   * The advice for an average count: below the low band's 20 the four
   * low-activity items, above the high band's 40 the four strong-activity
   * items, nothing in between (both ends included).
   */
  function LevelAdvice(average: real): (r: seq<string>)
    ensures r == LOW_ACTIVITY_ADVICE <==> average < 20.0
    ensures r == STRONG_ACTIVITY_ADVICE <==> average > 40.0
    ensures r == [] <==> 20.0 <= average <= 40.0
  {
    HighBandIs40();
    LowBandIs20();
    if average < NumberAfter(FORAGER_ACTIVITY_LOW, '<').value as real then LOW_ACTIVITY_ADVICE
    else if average > NumberAfter(FORAGER_ACTIVITY_HIGH, '>').value as real then STRONG_ACTIVITY_ADVICE
    else []
  }

  /** The advice for a trend: four items when declining, one when growing, none otherwise. */
  function TrendAdvice(t: Trend): (r: seq<string>)
    ensures r == DECLINE_ADVICE <==> t == Decreasing
    ensures r == [GROWTH_ADVICE] <==> t == Increasing
    ensures r == [] <==> t != Decreasing && t != Increasing
  {
    if t == Decreasing then DECLINE_ADVICE
    else if t == Increasing then [GROWTH_ADVICE]
    else []
  }

  /**
   * The level advice for the mean count, then the trend advice. The list is
   * extended in two stages, so the level items always come first.
   */
  method GenerateRecommendations(beeCounts: seq<int>, slope: real) returns (recommendations: seq<string>)
    requires beeCounts != []
    ensures recommendations == LevelAdvice(Mean(beeCounts)) + TrendAdvice(TrendOf(|beeCounts|, slope))
    ensures |recommendations| <= 8
  {
    recommendations := [];
    var average := Mean(beeCounts);
    var trend := TrendOf(|beeCounts|, slope);
    HighBandIs40();
    LowBandIs20();
    var highThreshold := NumberAfter(FORAGER_ACTIVITY_HIGH, '>').value as real;
    var lowThreshold := NumberAfter(FORAGER_ACTIVITY_LOW, '<').value as real;
    if average < lowThreshold {
      recommendations := recommendations + LOW_ACTIVITY_ADVICE;
    } else if average > highThreshold {
      recommendations := recommendations + STRONG_ACTIVITY_ADVICE;
    }
    assert recommendations == LevelAdvice(average);
    if trend == Decreasing {
      recommendations := recommendations + DECLINE_ADVICE;
    } else if trend == Increasing {
      recommendations := recommendations + [GROWTH_ADVICE];
    }
  }

  /** A single frame never yields trend advice: one value has no trend. */
  lemma SingleFrameAdviceIsLevelOnly(count: int, slope: real)
    ensures LevelAdvice(count as real) + TrendAdvice(TrendOf(1, slope)) == LevelAdvice(count as real)
  {
  }

  /**
   * The level of a frame and the advice for it disagree at the band edges:
   * exactly 20 bees is a low level yet draws no low-activity advice.
   */
  lemma LevelAndAdviceAtTwenty()
    ensures ActivityLevel(20) == Low && LevelAdvice(20.0) == []
    ensures ActivityLevel(19) == Low && LevelAdvice(19.0) == LOW_ACTIVITY_ADVICE
  {
  }

  // ---------------------------------------------------------------------
  // Activity summary

  /** One frame's result: the bee count if detection produced one. */
  datatype FrameResult = FrameResult(beeCount: Option<int>)

  datatype ActivitySummary = ActivitySummary(averageBeeCount: real, peakActivity: int, activityTrend: Trend, recommendations: seq<string>)

  const NO_BEE_COUNTS: string := "No valid bee counts found"

  /** The bee counts of the frames that have one, in frame order. */
  function BeeCounts(frames: seq<FrameResult>): (counts: seq<int>)
    ensures |counts| <= |frames|
    ensures forall i :: 0 <= i < |frames| && frames[i].beeCount.Some? ==> frames[i].beeCount.value in counts
    ensures forall c :: c in counts ==> exists i :: 0 <= i < |frames| && frames[i].beeCount == Some(c)
  {
    if frames == [] then []
    else
      var rest := BeeCounts(frames[1..]);
      assert forall i :: 1 <= i < |frames| ==> frames[i] == frames[1..][i - 1];
      (if frames[0].beeCount.Some? then [frames[0].beeCount.value] else []) + rest
  }

  /** Counting frame by frame: the counts of two runs of frames, one after the other, keep frame order. */
  lemma {:induction false} BeeCountsAppend(a: seq<FrameResult>, b: seq<FrameResult>)
    ensures BeeCounts(a + b) == BeeCounts(a) + BeeCounts(b)
    decreases |a|
  {
    if a == [] {
      assert a + b == b;
    } else {
      assert (a + b)[0] == a[0] && (a + b)[1..] == a[1..] + b;
      BeeCountsAppend(a[1..], b);
    }
  }

  /**
   * The summary of the frames with a count: their mean, their maximum, their
   * trend and the advice; an error when no frame has a count.
   */
  method GenerateActivitySummary(frames: seq<FrameResult>, slope: real) returns (r: Result<ActivitySummary, string>)
    ensures r.Err? <==> BeeCounts(frames) == []
    ensures r.Err? ==> r.error == NO_BEE_COUNTS
    ensures r.Ok? ==> var counts := BeeCounts(frames);
              && r.value.averageBeeCount == Mean(counts)
              && r.value.peakActivity in counts
              && (forall i :: 0 <= i < |frames| && frames[i].beeCount.Some? ==> frames[i].beeCount.value <= r.value.peakActivity)
              && r.value.activityTrend == TrendOf(|counts|, slope)
              && r.value.recommendations == LevelAdvice(Mean(counts)) + TrendAdvice(TrendOf(|counts|, slope))
  {
    var counts := BeeCounts(frames);
    if counts == [] {
      return Err(NO_BEE_COUNTS);
    }
    var recommendations := GenerateRecommendations(counts, slope);
    var peak := Max(counts);
    forall i | 0 <= i < |frames| && frames[i].beeCount.Some?
      ensures frames[i].beeCount.value <= peak
    {
      var j :| 0 <= j < |counts| && counts[j] == frames[i].beeCount.value;
    }
    return Ok(ActivitySummary(Mean(counts), peak, TrendOf(|counts|, slope), recommendations));
  }
}
