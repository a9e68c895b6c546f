# Bee productivity analyzer: bookkeeping and decision rules

This project is a Dafny model of the deterministic core of the bee productivity analyzer, a Flask and Socket.IO service. Beekeepers send the service images, videos, readings and questions, and it answers with analyses, trends, reports and recommendations. The model covers three parts of that service.

- **Time-windowed per-key stores.** Each one is a class whose map field its methods reassign. The clock is always an explicit `now` argument in seconds.
  - the sliding-window rate limiter (`RateLimiting.RateLimiter`);
  - the token deny-list with unit-based expiry and lazy deletion (`TokenDenylist.TokenBlacklist`);
  - the idle-timeout session table (`Sessions.SessionManager`);
  - the 365-day retention of trend data points (`Trends.BeeTrendAnalyzer`);
  - the 30-day data cache and its inclusive date-range filter (`Integration.DataIntegrationService`).
- **The per-job progress tracker** (`Progress.AnalysisProgressTracker`): start, step updates, completion or failure, with an append-only message log per job.
- **The classification and ranking rules that the reports are built from**, as functions:
  - trend direction, consistency and optimal-range buckets;
  - the overall-status and outlook scores;
  - urgency tagging, with a stable sort and a top-5 cut;
  - recommendation compilation, with first-match priority and category keywords, a stable priority sort and a top-3 summary;
  - the environmental-impact classifiers;
  - alert severity;
  - the bucketing of recommendations by time horizon;
  - the activity-level thresholds;
  - the knowledge-base lookups;
  - the keyword routing to image analysis;
  - the specialised prompt text.

Statistics that the service computes with pandas or numpy enter the classifiers as `real` arguments: means, standard deviations, coefficients of variation, correlations and fitted slopes. Dictionaries become datatypes with `Option` fields, or maps. The shared rule "the lower-cased text contains one of these keywords" is `Text.MentionsAny`.

The stable three-level sort used by the reporting system and the trend analyzer is defined once, as `Ranking.SortByRank`. It concatenates the items of rank 0, 1 and 2, each group in input order. Lemmas prove that it is sorted, is a permutation of its input, keeps each rank's order, and is the only sequence with those properties.

Files and modules:
- `common.dfy` (`Common`): Option and Result, time constants, sums and means.
- `text.dfy` (`Text`): ASCII lower-casing, substring search, stripping, splitting, joining and digit parsing.
- `ranking.dfy` (`Ranking`): the stable rank sort and `Take`.
- `retention.dfy` (`Retention`): order-preserving filters.
- One module per source file: `rate_limiter.dfy`, `token_blacklist.dfy`, `session_manager.dfy`, `progress_tracker.dfy`, `trend_analyzer.dfy`, `reporting_system.dfy`, `data_integration.dfy`, `knowledge_base.dfy`, `analysis_metrics.dfy`, `analysis_controller.dfy` and `classifier.dfy`.

Two behaviours of the code are easy to miss:
- The progress tracker has no terminal state. `FailAnalysis` after `CompleteAnalysis` marks the job failed, and `UpdateProgress` never changes the status.
- Session expiry is "at least one hour since the last access". An access at exactly 3600 seconds already finds the session expired.

## Model

| member | source | states |
|---|---|---|
| RateLimiting.RateLimiter.constructor | app/utils/rate_limiter.py:6-10 | The limiter starts with no windows. It keeps the given limits, which default to 60 requests per 60 seconds. |
| RateLimiting.PruneWindow | app/utils/rate_limiter.py:16-19 | The prune loop returns exactly `Pruned`: the timestamps younger than the window, in order. |
| RateLimiting.PrunedRecent | app/utils/rate_limiter.py:16-19 | Every kept timestamp is less than one window old. |
| RateLimiting.PrunedSubset | app/utils/rate_limiter.py:16-19 | Pruning only removes entries; the result is a sub-multiset of the input. |
| RateLimiting.PrunedSnoc | app/utils/rate_limiter.py:16-19 | Pruning a list with an appended timestamp equals pruning the list, then keeping the new timestamp iff it is recent. |
| RateLimiting.PrunedKeepsRecent | app/utils/rate_limiter.py:16-19 | A timestamp less than one window old is never dropped. |
| RateLimiting.PrunedDropsAtWindowAge | app/utils/rate_limiter.py:16-19 | Entries exactly one window old are dropped. |
| RateLimiting.PrunedAllRecent | app/utils/rate_limiter.py:16-19 | When every entry is recent, pruning changes nothing. |
| RateLimiting.PrunedAllStale | app/utils/rate_limiter.py:16-19 | When every entry is at least one window old, pruning empties the list. |
| RateLimiting.RateLimiter.IsAllowed | app/utils/rate_limiter.py:12-27 | Admits iff the pruned window holds fewer than `maxRequests` entries. The pruned window is always stored back; `now` is appended only when the request is admitted. Other users' windows are untouched. The window stays within `maxRequests` and holds only timestamps younger than the window. |
| RateLimiting.ThreeThenDeniedThenAllowed | app/utils/rate_limiter.py:12-27 | With 3 requests per 60 seconds: three calls at `t` are admitted, a fourth at `t` is denied, and a call at `t + 61` is admitted. |
| TokenDenylist.UnitSeconds | app/utils/token_blacklist.py:9-20 | A unit has a duration iff it is minutes, hours, days, months or years. Every duration is at least a minute. |
| TokenDenylist.ExpiryDurations | app/utils/token_blacklist.py:8-18 | Expiry is `now + n` times 60, 3600, 86400, 30 days or 365 days. The default, 30 days, is `now + 30 * 86400`. An unknown unit has no expiry. |
| TokenDenylist.TokenBlacklist.constructor | app/utils/token_blacklist.py:5-6 | The deny-list starts empty. |
| TokenDenylist.TokenBlacklist.AddToken | app/utils/token_blacklist.py:8-22 | Fails iff the unit is unknown, and the map is then unchanged. Otherwise the token's expiry is set, overwriting any earlier one. |
| TokenDenylist.TokenBlacklist.IsTokenBlacklisted | app/utils/token_blacklist.py:24-30 | Denied iff the token is present and `now` is before its expiry. A present but expired token is deleted, and only that entry. Otherwise the map is unchanged. |
| TokenDenylist.OneMinuteRevocation | app/utils/token_blacklist.py:8-30 | A token revoked for one minute is denied at 59 seconds, is not denied at 60, is then forgotten, and is denied again once re-added. |
| Sessions.Accessed | app/utils/session_manager.py:25-34 | An access finds a session iff one exists and its last activity is less than an hour old. The session found has `lastActivity = now` and is otherwise unchanged. |
| Sessions.IsSessionValid | app/utils/session_manager.py:70-73 | A session touched at or after `now` is valid. One idle for the whole timeout or longer is not. |
| Sessions.ValidityOnlyLost | app/utils/session_manager.py:70-73 | Validity is only lost as time passes: valid later means valid earlier. |
| Sessions.AfterAccess | app/utils/session_manager.py:25-34 | After an access, the user's session is present iff it was valid, refreshed if so. Every other user's session is untouched. |
| Sessions.ExpiredStaysGone | app/utils/session_manager.py:32-34 | An expired session that was accessed is gone: any later access finds nothing. |
| Sessions.AccessIdempotent | app/utils/session_manager.py:25-34 | A second access at the same instant changes nothing and returns the same result. |
| Sessions.SessionManager.constructor | app/utils/session_manager.py:6-8 | The session table starts empty. |
| Sessions.SessionManager.CreateSession | app/utils/session_manager.py:10-23 | Creates or replaces the user's session, with empty history, context, uploads and results, and `createdAt = lastActivity = now`. |
| Sessions.SessionManager.GetSession | app/utils/session_manager.py:25-34 | Returns `Accessed` and leaves the table as `AfterAccess`: refreshed if valid, removed if expired. |
| Sessions.SessionManager.UpdateSession | app/utils/session_manager.py:36-40 | For a valid session, merges the data into its fields, after the refresh. Otherwise the table is as after the access. |
| Sessions.SessionManager.AddToHistory | app/utils/session_manager.py:42-46 | For a valid session, appends exactly one interaction stamped with `now`. Otherwise the table is as after the access. |
| Sessions.SessionManager.AddMediaResult | app/utils/session_manager.py:48-52 | For a valid session, appends exactly one result stamped with `now`. Otherwise the table is as after the access. |
| Sessions.SessionManager.GetSessionContext | app/utils/session_manager.py:54-58 | Returns the valid session's context, or an empty one. |
| Sessions.SessionManager.UpdateContext | app/utils/session_manager.py:60-63 | Merges the given keys into the context. Every other key keeps its value. |
| Sessions.SessionManager.EndSession | app/utils/session_manager.py:65-68 | Removes exactly that user. It is a no-op when the user is absent. |
| Sessions.SessionManager.CleanupExpiredSessions | app/utils/session_manager.py:70-82 | Leaves exactly the valid sessions, each unchanged, including its `lastActivity`. |
| Sessions.SessionManager.GetSessionSummary | app/utils/session_manager.py:84-93 | Returns a summary iff the session is valid. Its interaction count is the history length, its media count is the number of results, and its duration is measured from creation. |
| Sessions.RefreshThenExpire | app/utils/session_manager.py:25-34 | Accesses at 50 and 100 minutes succeed, because each one refreshes the session. An access at 161 minutes, 61 minutes after the last one, fails, and the session is then gone. |
| Progress.Percent | app/utils/progress_tracker.py:37 | The percentage `p` satisfies `p * total = step * 100`. |
| Progress.PercentBounds | app/utils/progress_tracker.py:37 | For `0 <= step <= total`, the percentage is between 0 and 100. It is 0 at the first step and 100 at the last. |
| Progress.AnalysisProgressTracker.constructor | app/utils/progress_tracker.py:8-10 | No jobs are tracked. |
| Progress.AnalysisProgressTracker.StartTracking | app/utils/progress_tracker.py:12-22 | Creates or overwrites the job: step 0, in progress, no messages, no completion time, no results, no error. |
| Progress.AnalysisProgressTracker.UpdateProgress | app/utils/progress_tracker.py:24-46 | For an unknown id, reports it and changes nothing. Otherwise it sets the step without any ordering check, appends exactly one message carrying that step, and leaves the status alone. It then reports the percentage, or the division by zero when there are no steps. |
| Progress.AnalysisProgressTracker.CompleteAnalysis | app/utils/progress_tracker.py:48-62 | For a known id, sets completed, the completion time and the results. For an unknown id, changes nothing. |
| Progress.AnalysisProgressTracker.FailAnalysis | app/utils/progress_tracker.py:64-77 | For a known id, sets failed, the time and the error, even after completion. For an unknown id, changes nothing. |
| Progress.AnalysisProgressTracker.GetProgress | app/utils/progress_tracker.py:79-82 | Returns None iff the id is unknown, and the stored job otherwise. |
| Progress.CompleteThenFail | app/utils/progress_tracker.py:24-77 | With 3 steps, two updates log two messages and report 200/3 %. Completion followed by failure leaves the job failed, with its results kept. |
| Progress.ZeroStepsStillRecorded | app/utils/progress_tracker.py:28-37 | With zero total steps, the update is recorded (step 5) before the percentage division fails. |
| Retention.Newer | app/models/trend_analyzer.py:26-31 | Retention keeps only items stamped after the cutoff and never grows the list. |
| Retention.NewerSnoc | app/models/trend_analyzer.py:26-31 | Filtering a list with one appended item equals filtering the list, then keeping the new item iff it is recent. |
| Retention.NewerSubset | app/models/trend_analyzer.py:26-31 | Retention only removes items. |
| Retention.NewerKeeps | app/models/trend_analyzer.py:26-31 | Every recent item survives. |
| Retention.NewerAllRecent | app/models/trend_analyzer.py:26-31 | When all items are recent, retention is the identity. |
| Retention.KeepNewer | app/models/trend_analyzer.py:26-31 | The filtering loop returns exactly `Newer`. |
| Retention.Keep | app/services/data_intergration_service.py:227-237 | The comprehension filter keeps only items that satisfy the predicate. |
| Retention.KeepMember | app/services/data_intergration_service.py:227-237 | An item is kept iff it was present and satisfies the predicate. |
| Retention.KeepKeep | app/services/data_intergration_service.py:227-237 | Two successive filters equal one filter by the conjunction. |
| Trends.BeeTrendAnalyzer.constructor | app/models/trend_analyzer.py:11-18 | No data points are stored. |
| Trends.BeeTrendAnalyzer.AddDataPoint | app/models/trend_analyzer.py:20-33 | Appends the point stamped `now`, then keeps the points younger than 365 days. The new point is last, every kept point is recent, and other users are untouched. |
| Trends.BeeTrendAnalyzer.AnalysisInput | app/models/trend_analyzer.py:35-42 | An unknown user gives the no-data error; fewer than 5 points gives the insufficient-data error. Otherwise the result is the stored points, at least 5 of them. |
| Trends.BeeTrendAnalyzer.AnalyzeTrends | app/models/trend_analyzer.py:35-116 | Returns an error iff `AnalysisInput` fails, with the same message. Otherwise each part is built from its statistics: the activity trend by `ActivityTrendOf` (direction from the change, consistency from the coefficient of variation), the productivity trend by `ProductivityTrendOf` (direction from the change, comparison from the mean yield), the seasonal pattern from the monthly figures. A part without statistics is that part's error. The recommendations are those of the three parts, in order. |
| Trends.TrendDirection | app/models/trend_analyzer.py:118-124 | Increasing iff the change is above 0.2, decreasing iff it is below -0.2, and stable otherwise, including exactly ±0.2. |
| Trends.ConsistencyOf | app/models/trend_analyzer.py:126-136 | Buckets the coefficient of variation with strict cuts at 0.1, 0.2 and 0.3. |
| Trends.CompareToOptimal | app/models/trend_analyzer.py:138-146 | A yield of at least 25 is above optimal, at least 15 is optimal, and anything lower is below optimal. |
| Trends.ActivityTrendOf | app/models/trend_analyzer.py:64-82 | The activity trend carries the average, the change, its direction and its consistency. |
| Trends.ProductivityTrendOf | app/models/trend_analyzer.py:84-100 | The productivity trend carries the average, the change, its direction and its comparison with the optimum. |
| Trends.ActivityAdvice | app/models/trend_analyzer.py:155-164 | Three items iff activity is decreasing. One item iff it is not decreasing but highly variable. No items otherwise, including when there is no activity data. |
| Trends.ProductivityAdvice | app/models/trend_analyzer.py:166-173 | Three items iff yield is below optimal, and none otherwise. |
| Trends.SeasonalAdvice | app/models/trend_analyzer.py:175-182 | Three items iff the seasonal variation exceeds 0.5, and none otherwise. |
| Trends.GenerateTrendRecommendations | app/models/trend_analyzer.py:148-184 | The list built step by step equals activity, then productivity, then seasonal advice, and holds at most 9 items. |
| Trends.StatusIndicators | app/models/trend_analyzer.py:203-219 | Exactly two indicators, each in {-1, 0, 1}. The first is +1 iff activity is increasing and -1 iff it is decreasing. The second is +1 iff yield is above optimal and -1 iff it is below. |
| Trends.StatusOfMean | app/models/trend_analyzer.py:221-229 | The mean is excellent above 0.3, good in (0, 0.3], fair in (-0.3, 0] and needs attention otherwise. |
| Trends.DetermineOverallStatus | app/models/trend_analyzer.py:198-229 | Unknown iff the report is an error. 'Good' is never returned. |
| Trends.OverallStatusBySign | app/models/trend_analyzer.py:198-229 | Classifies the overall status by the sum of the two indicators. A sum of 1 is already excellent, so 'good' is never returned. |
| Trends.PositiveSigns | app/models/trend_analyzer.py:254-265 | Two signs iff activity is increasing and productivity is not decreasing; a productivity error counts as not decreasing. None iff activity is not increasing and productivity is decreasing. At most two. |
| Trends.GenerateOutlook | app/models/trend_analyzer.py:249-276 | An error gives insufficient data, and only an error does. Otherwise two positive signs give a positive outlook, one gives stable and none gives cautious. |
| Trends.MissingYieldCountsAsPositive | app/models/trend_analyzer.py:262-265 | With increasing activity and no productivity data, the outlook is positive. |
| Trends.UrgencyOf | app/models/trend_analyzer.py:284-294 | Urgent iff an urgent keyword occurs. Important iff no urgent keyword occurs and an important one does. |
| Trends.PrioritizeRecommendations | app/models/trend_analyzer.py:278-298 | An error gives nothing. Otherwise the result is the first `min(5, n)` items of the stable urgency sort, and a sub-multiset of the input. |
| Trends.ActionsMostPressing | app/models/trend_analyzer.py:278-298 | An urgent recommendation is among the actions, or every action is urgent. |
| Trends.StrongFactors | app/models/trend_analyzer.py:342-345 | A factor is listed iff one of its correlations exceeds 0.7 in magnitude. Empty iff none does. At most one entry per correlation. |
| Trends.ModerateFactors | app/models/trend_analyzer.py:347-350 | A factor is listed iff one of its correlations has magnitude in [0.4, 0.7]. Empty iff none does. At most one entry per correlation. |
| Trends.MetricInsights | app/models/trend_analyzer.py:342-356 | A sentence is a metric's iff it is "Strong m correlations found with: " and its strong factors joined by ", ", when it has some, or the same "Moderate" sentence for its moderate factors. The strong sentence comes first. Empty iff no magnitude reaches 0.4. |
| Trends.CorrelationInsights | app/models/trend_analyzer.py:337-358 | At most two insights per metric. Empty iff no correlation magnitude reaches 0.4. |
| Trends.CorrelationInsightsMembers | app/models/trend_analyzer.py:337-358 | A sentence is an insight iff it is one of some metric's own sentences. |
| Trends.CorrelationInsightsAppend | app/models/trend_analyzer.py:341-358 | Insights are produced metric by metric, in order: those of two runs of metrics are concatenated. |
| Trends.MetricRecommendations | app/models/trend_analyzer.py:364-370 | One recommendation per strong correlation. Each strong correlation's advice is present, and every item is such advice: "Maintain favorable f conditions to optimize m" for a positive correlation, "Consider mitigation strategies for negative f impact on m" otherwise. |
| Trends.EnvironmentalRecommendations | app/models/trend_analyzer.py:360-372 | Empty iff no metric has a strong factor. |
| Trends.EnvironmentalRecommendationsMembers | app/models/trend_analyzer.py:360-372 | A recommendation is present iff it is one of some metric's own recommendations. |
| Trends.EnvironmentalRecommendationsAppend | app/models/trend_analyzer.py:364-372 | Recommendations are produced metric by metric, in order: those of two runs of metrics are concatenated. |
| Trends.RecommendationsFollowStrongInsights | app/models/trend_analyzer.py:337-372 | Environmental recommendations exist iff some metric has a correlation stronger than 0.7. |
| Reporting.PriorityOf | app/models/reporting_system.py:105-117 | First match: high if a high keyword occurs, then medium, and low otherwise. |
| Reporting.Categorize | app/models/reporting_system.py:131-143 | First match in the order foraging, health, management, environment, with general as the default. |
| Reporting.FlattenLength | app/models/reporting_system.py:111-123 | The concatenated lists have the total length. |
| Reporting.FlattenSnoc | app/models/reporting_system.py:111-123 | Concatenating one more list appends its items. |
| Reporting.CompileList | app/models/reporting_system.py:112-123 | The inner loop appends one compiled record per input string, in order. |
| Reporting.CompileAll | app/models/reporting_system.py:111-123 | The nested loops produce one record per input string across all lists, in order, with no de-duplication. |
| Reporting.CompileRecommendations | app/models/reporting_system.py:102-129 | The result is the stable priority sort of the compiled records. It has the total length and is a permutation, sorted high < medium < low, with each priority's order kept. |
| Reporting.PriorityActions | app/models/reporting_system.py:151-154 | At most 3 texts, each taken from a high-priority record. |
| Reporting.PriorityActionsOfCompiled | app/models/reporting_system.py:54-59 | On a compiled report, the priority actions are the first three high-priority inputs, in input order. |
| Reporting.KeyFindings | app/models/reporting_system.py:157-174 | The status finding comes first. Then comes "Activity is d" iff a non-empty direction is given, and the impact assessment last iff there is one. |
| Reporting.Stamp | app/models/reporting_system.py:40 | The timestamp is 12 digits. |
| Reporting.ReportId | app/models/reporting_system.py:40 | The id is "BEE-", the user id, "-" and 12 digits. |
| Reporting.ReportIdRoundTrip | app/models/reporting_system.py:40 | The trailing digits decode back to year, month, day, hour and minute. |
| Reporting.ReportIdInjective | app/models/reporting_system.py:40 | For one user, distinct minutes give distinct ids. |
| Reporting.ExtractActivityMetrics | app/models/reporting_system.py:176-187 | Instant activity and activity pattern are present iff the findings carry image or video analysis. The instant activity is the image's bee count. The pattern is the video's activity summary, or empty when the video has none. |
| Reporting.ExtractIssues | app/models/reporting_system.py:189-200 | The issues followed by the alerts, in order. Nothing when there are no findings. |
| Reporting.AssessEnvironmentalImpact | app/models/reporting_system.py:202-220 | A temperature below 20 or above 35 decides first. Otherwise a weather condition outside the four allowed ones is sub-optimal, and anything else is acceptable. |
| Reporting.AnalyzeEnvironmentalData | app/models/reporting_system.py:88-100 | As written, it keeps the conditions and the assessment, and its recommendations are always empty. |
| Reporting.DistantWaterAdviceLost | app/models/reporting_system.py:94-99 | The knowledge base advises closer water for a distance of 4000, yet the report's recommendations are empty. |
| Reporting.AnalyzeEnvironmentalDataCorrected | app/models/reporting_system.py:88-100 | The recommendations are the knowledge base's management advice: closer water iff the distance exceeds 3000. |
| Integration.AnalyzeEnvironmentalImpact | app/services/data_intergration_service.py:118-153 | Limited iff it is raining. Suboptimal iff it is not raining and the temperature is out of range. The opportunity appears iff the temperature is in range. There is one risk per out-of-range reading: the cold or heat risk first, then the humid or dry risk, and the rain risk last. |
| Integration.NoReadingsIsOptimal | app/services/data_intergration_service.py:120-124 | No readings gives optimal, with no risks and no opportunities. |
| Integration.HotHumidRainyDay | app/services/data_intergration_service.py:126-153 | Rain overrides suboptimal, and the hot, humid and rain risks appear in that order. |
| Integration.StampEntry | app/services/data_intergration_service.py:160-162 | A missing timestamp becomes `now`. A given one is kept. |
| Integration.FreshEntryKept | app/services/data_intergration_service.py:155-178 | Inserting an unstamped entry keeps the recent old entries and then the new one. |
| Integration.StaleSubmissionDropped | app/services/data_intergration_service.py:155-178 | An entry stamped 30 or more days ago is evicted at once. |
| Integration.DataIntegrationService.constructor | app/services/data_intergration_service.py:13-17 | The cache starts empty. |
| Integration.DataIntegrationService.UpdateCache | app/services/data_intergration_service.py:155-168 | Stamps and appends the entry, then keeps the entries younger than 30 days, in order. Every kept entry is recent. |
| Integration.DataIntegrationService.CleanupCache | app/services/data_intergration_service.py:170-178 | For a cached user, keeps the recent entries in order. Otherwise it changes nothing. |
| Integration.DataIntegrationService.GetFilteredData | app/services/data_intergration_service.py:218-239 | The order-preserving entries with `start <= t <= end`, both bounds optional. An unknown user gets nothing. |
| Integration.DataIntegrationService.HistoricalDataGuard | app/services/data_intergration_service.py:186-192 | Gives the no-data error iff no cached entry is in range. |
| Integration.DataIntegrationService.ForecastGuard | app/services/data_intergration_service.py:419-421 | Gives the insufficient-data error iff the cache is absent or empty. |
| Integration.SelectRange | app/services/data_intergration_service.py:227-237 | Selects exactly the in-range entries. |
| Integration.TwoPassIsOnePass | app/services/data_intergration_service.py:227-237 | The start pass followed by the end pass equals one range filter. |
| Integration.KeepSame | app/services/data_intergration_service.py:227-237 | Filters by equal predicates agree. |
| Integration.KeepAll | app/services/data_intergration_service.py:227-237 | A filter by an always-true predicate keeps everything. |
| Integration.MonthOldEntryEvicted | app/services/data_intergration_service.py:155-239 | An entry from day 0 is evicted when a day-31 entry is cached, and the range filter returns the day-31 entry. |
| Integration.StrongCorrelationInsights | app/services/data_intergration_service.py:373-376 | Each correlation whose magnitude exceeds 0.7 has its insight, and every insight is such a correlation's. At most one per correlation. Empty iff there is none. |
| Integration.GenerateHistoricalInsights | app/services/data_intergration_service.py:358-378 | The activity insight comes first, then the yield insight, each iff its trend is present. The remainder is exactly the strong-correlation insights. |
| Integration.GenerateHistoricalRecommendations | app/services/data_intergration_service.py:380-414 | The length is 3 per decreasing trend, plus 1 when the average temperature is outside [15, 35]. The step lists appear at their positions. |
| Integration.ActivityStepsTrigger | app/services/data_intergration_service.py:385-392 | The activity steps appear iff activity is decreasing. |
| Integration.ProductivityStepsTrigger | app/services/data_intergration_service.py:395-402 | The productivity steps appear iff productivity is decreasing. |
| Integration.CoolingTrigger | app/services/data_intergration_service.py:405-410 | Cooling appears iff the average temperature is above 35. |
| Integration.WinterTrigger | app/services/data_intergration_service.py:405-412 | Winter preparation appears iff the average temperature is below 15. |
| KnowledgeBase.OptimalYield | app/models/knowledge_base.py:84-95 | Only traditional and modern hives have a yield range, and each range is positive. |
| KnowledgeBase.SeasonalManagement | app/models/knowledge_base.py:148-175 | Only the dry and wet seasons have guidance: 3 challenges and 4 recommendations each. |
| KnowledgeBase.GetSeasonalGuidance | app/models/knowledge_base.py:230-235 | The table entry iff the season is dry or wet, and the invalid-season error otherwise. |
| KnowledgeBase.GetForagingRecommendations | app/models/knowledge_base.py:178-202 | As written: timing is always empty. The too-low or too-high alert appears iff the temperature is truthy and out of [20, 35]. Closer water is advised iff the distance is truthy and above 3000. |
| KnowledgeBase.ZeroTemperatureRaisesNoAlert | app/models/knowledge_base.py:187-191 | 0 °C raises no alert, while -1 °C does. |
| KnowledgeBase.GetForagingRecommendationsCorrected | app/models/knowledge_base.py:178-202 | Any present temperature out of [20, 35] raises its alert. Any present distance above 3000 gives the water advice. |
| KnowledgeBase.ForagingRulesAgreeOffZero | app/models/knowledge_base.py:187-188 | The corrected rules agree with the code except at a temperature of 0, where they raise the too-low alert. |
| KnowledgeBase.LowBandHasNoLeadingInt | app/models/knowledge_base.py:224 | The first word of "< 20 bees/minute" is "<", which is not an integer. |
| KnowledgeBase.LowBandSecondIntIs20 | app/models/knowledge_base.py:109 | The number in the low band is 20. |
| KnowledgeBase.LowBandWords | app/models/knowledge_base.py:109 | The low band splits into "<", "20" and "bees/minute". |
| KnowledgeBase.TwentyParses | app/models/knowledge_base.py:109 | "20" parses as 20. |
| KnowledgeBase.AnalyzeWith | app/models/knowledge_base.py:204-228 | Given the threshold parse, a yield for an unknown hive type is a KeyError, and forager activity with a failed parse is a ValueError. On success there are at most two issues, each with its recommendation: the yield issue iff the yield is below the hive type's lower bound, and the forager issue iff the rate is below the threshold. |
| KnowledgeBase.AnalyzeProductivity | app/models/knowledge_base.py:204-228 | A yield for an unknown hive type is a KeyError. Succeeds iff that does not happen and no forager activity is given; it then agrees with the corrected rule. |
| KnowledgeBase.AnalyzeProductivityCorrected | app/models/knowledge_base.py:204-228 | Fails iff a yield is given for an unknown hive type, with KeyError. On success, the yield issue appears iff the yield is below the hive type's lower bound. |
| KnowledgeBase.ForagerActivityAlwaysFails | app/models/knowledge_base.py:222-224 | Any metrics with forager activity fail with ValueError. |
| KnowledgeBase.CorrectedFlagsLowActivity | app/models/knowledge_base.py:222-226 | With the intended threshold of 20, the analysis succeeds and flags low activity iff it is below 20. |
| ActivityMetrics.FortyParses | app/models/knowledge_base.py:107 | "40" parses as 40. |
| ActivityMetrics.NumberAfterSign | app/models/analysis_metrics.py:85 | The number after a sign is the first word after it. |
| ActivityMetrics.HighBandIs40 | app/models/analysis_metrics.py:85 | The high threshold parsed from "> 40 bees/minute" is 40. |
| ActivityMetrics.MediumBandIs20 | app/models/analysis_metrics.py:87 | The medium threshold parsed from "20-40 bees/minute" is 20. |
| ActivityMetrics.LowBandIs20 | app/models/analysis_metrics.py:172 | The low threshold parsed from "< 20 bees/minute" is 20. |
| ActivityMetrics.ActivityLevel | app/models/analysis_metrics.py:81-90 | High iff above 40, medium iff in (20, 40], low iff at most 20. |
| ActivityMetrics.ConsistencyOf | app/models/analysis_metrics.py:123-131 | The standard deviation is very consistent below 0.2, consistent below 0.5, and variable otherwise. |
| ActivityMetrics.TrendOf | app/models/analysis_metrics.py:147-159 | Insufficient data iff there are fewer than 2 values. Otherwise increasing above 0.1, decreasing below -0.1, and stable otherwise. |
| ActivityMetrics.LevelAdvice | app/models/analysis_metrics.py:174-188 | The low-activity items iff the average is below 20, the strong-activity items iff it is above 40, and none in [20, 40]. |
| ActivityMetrics.TrendAdvice | app/models/analysis_metrics.py:190-199 | The decline items iff the trend is decreasing, one growth item iff it is increasing, and none otherwise. |
| ActivityMetrics.GenerateRecommendations | app/models/analysis_metrics.py:161-201 | The level items followed by the trend items, at most 8. |
| ActivityMetrics.SingleFrameAdviceIsLevelOnly | app/models/analysis_metrics.py:149-150 | A single count gives level advice only. |
| ActivityMetrics.LevelAndAdviceAtTwenty | app/models/analysis_metrics.py:81-90 | A count of 20 is low but gets no low advice, while 19 gets it. |
| ActivityMetrics.BeeCounts | app/models/analysis_metrics.py:135 | A count is listed iff some frame has it. At most one per frame. |
| ActivityMetrics.BeeCountsAppend | app/models/analysis_metrics.py:135 | Counts are taken frame by frame, in order: those of two runs of frames are concatenated. |
| ActivityMetrics.GenerateActivitySummary | app/models/analysis_metrics.py:133-145 | An error iff no frame has a count. Otherwise the mean, the maximum count as peak, the trend and the recommendations. |
| Controller.AlertSeverity | app/controllers/analysis_controller.py:157-166 | Critical iff a critical keyword occurs. Otherwise warning iff a warning keyword occurs. Otherwise info. |
| Controller.ValidateMediaData | app/controllers/analysis_controller.py:196-206 | True iff the type and the content are present and the type is image or video. |
| Controller.GetActiveAlerts | app/controllers/analysis_controller.py:114-155 | As written: media alerts with their severity, one metrics alert iff the status needs attention, and the environmental risks read from the component's top level. |
| Controller.RainRiskRaisesNoAlert | app/controllers/analysis_controller.py:133-141 | Processed rain data carries a rain risk, yet no alert is raised. |
| Controller.GetActiveAlertsCorrected | app/controllers/analysis_controller.py:114-155 | The environmental risks are read from the impact analysis. |
| Controller.CorrectedAlertsCarryEveryRisk | app/services/data_intergration_service.py:82-98 | Every risk of processed readings becomes one warning alert, in order. |
| Controller.SeasonalRecommendations | app/controllers/analysis_controller.py:269-325 | Non-empty iff the lower-cased season is known; then there are 2 management items. They are high priority iff the season is winter, and medium otherwise. |
| Controller.WinterAnyCase | app/controllers/analysis_controller.py:269-325 | "Winter" and "WINTER" match "winter". |
| Controller.WeatherRecommendations | app/controllers/analysis_controller.py:327-357 | At most 2 items, all high priority and environmental. Cooling iff above 35, insulation iff below 10, drainage iff it rains. |
| Controller.GenerateRecommendations | app/controllers/analysis_controller.py:234-267 | The report's items are partitioned by priority, in order. Seasonal items go after short-term and weather items after immediate. |
| Controller.HorizonsPartitionReport | app/controllers/analysis_controller.py:246-257 | The three buckets together are a permutation of the report. |
| Controller.ImmediateActionsAreHigh | app/controllers/analysis_controller.py:246-265 | Every immediate action is high priority. |
| Classifier.IsImageAnalysisRequired | app/models/classifier.py:113-121 | True iff one of the keywords is a substring of the lower-cased query. |
| Classifier.SeedsMentionSee | app/models/classifier.py:121 | "seeds" matches through 'see'. |
| Classifier.UpperCaseLookCounts | app/models/classifier.py:121 | "LOOK" matches after lower-casing. |
| Classifier.CategoriesHaveNoBreaks | app/models/classifier.py:19-44 | No category line contains a line break. |
| Classifier.FormatCategories | app/models/classifier.py:106-111 | The text splits into exactly one line per category, in declaration order. |
| Classifier.PromptFor | app/models/classifier.py:129-170 | A category without an entry gets the generic prompt. Every prompt's first line is non-empty and unpadded. |
| Classifier.UnpromptedCategoriesAreGeneric | app/models/classifier.py:129-170 | 'environmental' and 'analysis' get the generic prompt. |
| Classifier.GetSpecializedPrompt | app/models/classifier.py:123-177 | The stripped template, plus "Additional Context:" and one "k: v" line per entry iff the context is non-empty. The result starts with the prompt's first line. |
| Classifier.PromptStrip | app/models/classifier.py:173-177 | Stripping keeps the first line at the front, and the context block stays at the end. |
| Ranking.SortByRankPermutation | app/models/reporting_system.py:126-127 | The stable sort is a permutation of its input. |
| Ranking.SortByRankSorted | app/models/reporting_system.py:126-127 | The stable sort is ordered by rank. |
| Ranking.SortByRankStable | app/models/reporting_system.py:126-127 | Items of equal rank keep their input order. |
| Ranking.SortByRankUnique | app/models/reporting_system.py:126-127 | Any sorted permutation that keeps each rank's order is this sort. |
| Ranking.TakeSubset | app/models/trend_analyzer.py:298 | The first `n` items are a sub-multiset of at most `n` items. |
| Text.ContainsAny | app/models/reporting_system.py:115 | True iff some keyword is a substring of the text. |

## Left out

- Transport, I/O and bootstrap are not modelled: Socket.IO `emit`, HTTP request handling, `jsonify`, blueprints, the handlers, routes and `app/main.py`.
- Persistence and logging are not modelled: the SQLAlchemy token model, the feedback file, logging configuration and the error middleware.
- Foreign and LLM calls are not modelled: the Gemini model, the media analyzer, and `classify_query`/`get_query_action_plan` in `app/models/classifier.py`. JWT handling in `app/utils/auth.py` is not modelled either; its time-unit switch repeats the deny-list's, which is modelled.
- OpenCV image and video processing is not modelled; bee counts enter as integers.
- pandas and numpy statistics enter as `real` arguments: the 30-day frame, monthly grouping, std, the coefficient of variation, `corr`, `corrcoef` and the `polyfit` slope.
- Locks are not modelled; every operation is sequential. Clocks are `now` arguments in whole seconds.
- Text is ASCII: lower-casing covers A-Z only, with no Unicode case mapping, and stripping and splitting treat only the ASCII whitespace (blank, 0x09-0x0D, 0x1C-0x1F) as whitespace, not Unicode spaces such as U+00A0.
- `int()`/`float()` of a threshold word is modelled by a digits-only parse (`Text.ParseNat`), which is enough for the knowledge-base strings.
- Stored timestamps are integers. The cache's `datetime.fromisoformat` parse of client-supplied timestamps is not modelled, and neither are its failures: a malformed or non-string timestamp (ValueError or TypeError), or an offset-aware one compared with the naive clock (TypeError). Such a failure leaves the appended entry unpruned in the cache, so every later update for that user raises too, which `process_new_data` reports as its error result.
- Dictionaries are datatypes with optional fields, or maps from string to string. Aliasing of caller dictionaries is not modelled; for example, the cache stamps a timestamp into the caller's own dict. Dictionaries modelled as sequences of pairs (`Trends.Correlations`, `Classifier.Context`) could repeat a key, which a dict cannot; such sequences are outside the code's domain.
- The orchestration bodies of `generate_comprehensive_report`, `process_new_data`, `get_historical_analysis`, `generate_forecast`, `get_status_summary`, `export_trend_report`, `correlate_with_environment`, `_extract_key_metrics` and `_analyze_media` are not modelled. Several of them call methods that are never defined. Only their guards and the rules they combine are modelled.
- Integration.DataIntegrationService.HistoricalDataGuard: models only the empty-range guard of `get_historical_analysis`, whose remainder calls undefined methods.
- Integration.DataIntegrationService.ForecastGuard: models only the empty-cache guard of `generate_forecast`, whose remainder calls undefined methods.
- Integration.DataIntegrationService.CleanupCache: uses the same `now` for stamping and for the cutoff, where the code reads the clock twice.
- Trends.BeeTrendAnalyzer.AddDataPoint: uses the same `now` for the stamp and for the 365-day cutoff, where the code reads the clock twice (app/models/trend_analyzer.py:25 and :29).
- Reporting.ReportId: takes a calendar date with a four-digit year instead of converting a clock reading.
- Trends.CorrelationInsights: models the correlation table as a list of metric and factor pairs, in dict insertion order: the two metric keys as written (`activity_correlations`, then `productivity_correlations`), and each metric's factors in the order of the environmental data given. The correlations are inputs, so the dropping of NaN correlations (app/models/trend_analyzer.py:332) happens before the model sees them.
- Sessions.SessionManager.UpdateSession: merges into a separate field map, so a key that collides with a fixed session field does not overwrite that field.
- NaN and infinity are not modelled: statistics are `real`. pandas gives NaN for the standard deviation of a one-point window and for a change from 0 to 0, and an infinite change from a first value of 0 to anything else. Every comparison with NaN is false, so a NaN falls to each classifier's last branch: stable, highly variable, below optimal. An infinite change is classified like any large one.
- ActivityMetrics.GenerateRecommendations: requires at least one count, because the mean of an empty list is NaN in numpy. Neither caller passes an empty list: the activity summary returns its error first, and the combined recommendations pass a one-element list. On `[]` the code returns `[]`: the NaN mean fails both level comparisons and the trend is insufficient data.
- Knowledge-base entries that no rule reads are not modelled: peak times, distance metrics, shade and orientation criteria, supplementary feeding, the factors affecting yield (such as `flora_availability`), the brood pattern bands, the visual health cues and the common threats (such as the `pests` list). The critical temperature points (`TOO_COLD`, `TOO_HOT`) and the minimum distance to water (`WATER_DISTANCE_MIN`) are declared in `knowledge_base.dfy`, but no rule reads them.
- The redundant low-priority keyword list of the report compiler is not modelled; low is the default either way.

## Findings

| source | as written | input that shows it | evidently intended | confidence | as-written member | corrected member |
|---|---|---|---|---|---|---|
| app/models/knowledge_base.py:187-188 | `if temp:` treats a temperature of 0 as absent | `{'temperature': 0}` gives no alert | 0 °C is below the 20 °C minimum and raises "too low" | not executed | KnowledgeBase.ZeroTemperatureRaisesNoAlert | KnowledgeBase.GetForagingRecommendationsCorrected |
| app/models/knowledge_base.py:222-224 | the threshold is `int(...split()[0])`, i.e. `int("<")` | `{'forager_activity': 10}` raises ValueError | compare with 20, the number in "< 20 bees/minute" | not executed | KnowledgeBase.ForagerActivityAlwaysFails | KnowledgeBase.CorrectedFlagsLowActivity |
| app/models/reporting_system.py:94-99 | reads a 'recommendations' key that the knowledge base never returns | `water_distance` 4000 yields no report recommendation | take the knowledge base's 'management' advice | not executed | Reporting.DistantWaterAdviceLost | Reporting.AnalyzeEnvironmentalDataCorrected |
| app/controllers/analysis_controller.py:133-141 | reads 'risks' at the top level of the environmental component, which nests them under 'impact_analysis' | rainfall 5 produces a rain risk but no alert | read `impact_analysis['risks']` | not executed | Controller.RainRiskRaisesNoAlert | Controller.GetActiveAlertsCorrected |
