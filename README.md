# Copilot usage metrics aggregation, modelled in Dafny

This project models the metrics aggregation layer of the Copilot user-level statistics
viewer. The input is a list of per-user, per-day usage records, and the layer turns it into report
structures:

- per-user summaries;
- daily engagement;
- chat-mode users and requests per day;
- per-language statistics;
- the feature-adoption funnel;
- premium-request (PRU) cost per day;
- lines-of-code impact series;
- headline statistics (unique users, top language, top IDE, top model).

The layer comes in two shapes, and both are modelled.

- **Single-pass accumulators** (`src/domain/metricsAggregator.ts` and `src/domain/calculators/*`).
  - Each accumulator is a Dafny `class` whose fields are the source's maps and sets. Its update
    function is a method that `modifies` the accumulator and ensures
    `Value() == Step(old(Value()), ...)` for a pure step function. Its finalizer is a function
    that produces sorted rows.
  - The driver `AggregateMetrics` is a loop that carries the accumulators. It is proved equal to
    `AggregateOf(Kept(metrics, window), remove)`, a fold over the records that survive the date
    window. The lemmas about that fold state the driver's promises.
- **Whole-array calculators** (`src/utils/metricCalculators.ts` and the older
  `src/utils/metricsParser.ts`). Each calculator is a method with loop invariants. Each method is
  proved equal to a specification fold, and lemmas state what the fold's rows mean in terms of the
  input records.

Small utilities round this out: the string interning pool (a class), first-max/first-min
selection and sums, string truncation and model-name formatting, and the branded-type validators.

Shared modules:

- `InsertionMap.IMap` is a JavaScript `Map`: the keys in insertion order plus a Dafny `map`.
- `Sorting.StableSort` is `Array.prototype.sort`, which is stable. It is proved to be a sorted
  permutation that keeps the input order inside every tie class, so a "top" entry is the
  first-inserted key with the maximal value.
- `Text` holds string order, ASCII lower-casing and JavaScript `trim`.
- `UsageStats` holds the statistics shared by both calculators.
- `UserRecords` holds the per-user record selections.

Dates are `YYYY-MM-DD` strings compared lexicographically. On well-formed dates that is the
chronological order that `new Date(..).getTime()` gives. A percentage is an integer number of
hundredths of a percent: `Math.round(x * 100 * 100) / 100` becomes `round(10000 * part / whole)` on
exact rationals, with ties rounded up.

## Model

| member | source | states |
|---|---|---|
| MetricsAggregator.UnfilteredKeepsAll | src/domain/metricsAggregator.ts:154-158 | with no date filter, the filter `all`, or no report end day, every record is processed |
| MetricsAggregator.KeptRecords | src/domain/metricsAggregator.ts:171-176 | a record is processed iff it is in the input and start ≤ day ≤ end (inclusive window) |
| MetricsAggregator.KeptSnoc | src/domain/metricsAggregator.ts:171-176 | appending a record extends the surviving records by it exactly when its day is in the window |
| MetricsAggregator.SkippedRecordInvisible | src/domain/metricsAggregator.ts:173-176 | a record outside the window changes neither the surviving records nor any part of the aggregate |
| MetricsAggregator.ReportDaysFromFirstKept | src/domain/metricsAggregator.ts:178-184 | the report start and end days come from the first surviving record, and the count is then positive |
| MetricsAggregator.NothingKept | src/domain/metricsAggregator.ts:178-184 | when no record survives, the count is 0, the report days stay empty and no accumulator call is made |
| MetricsAggregator.AggregateMetrics | src/domain/metricsAggregator.ts:141-306 | the driver's result equals the fold `AggregateOf` over exactly the records that survive the window |
| MetricsAggregator.NewAccumulators | src/domain/metricsAggregator.ts:160-168 | fresh accumulators summarise the empty record list |
| MetricsAggregator.VisitMetric | src/domain/metricsAggregator.ts:171-184 | one loop iteration: a skipped record leaves every accumulator as it was; a kept one is counted, sets the report days if it is the first, and is processed |
| MetricsAggregator.ProcessMetric | src/domain/metricsAggregator.ts:186-283 | after processing a record, every accumulator and call log equals its fold over the kept records extended by it |
| MetricsAggregator.AccumulateStates | src/domain/metricsAggregator.ts:189-196 | the user-summary and engagement accumulators each take one fold step for the record |
| MetricsAggregator.ProcessFragments | src/domain/metricsAggregator.ts:201-283 | the chat, language and adoption accumulators take one fold step per fragment, and the call logs grow by the record's calls in source order |
| MetricsAggregator.ProcessIdeTotals | src/domain/metricsAggregator.ts:201-204 | one IDE-user call per `totals_by_ide` entry, in order |
| MetricsAggregator.ProcessLanguageFeatures | src/domain/metricsAggregator.ts:206-226 | language fragments that are not filtered feed the language accumulator and the language-engagement calls, in order |
| MetricsAggregator.ProcessLanguageFeature | src/domain/metricsAggregator.ts:207-225 | one language fragment: skipped when filtered, otherwise engagements = generations + acceptances and one language-stats step |
| MetricsAggregator.LanguageEventStep | src/domain/metricsAggregator.ts:207-225 | a filtered fragment leaves the language statistics unchanged; any other fragment adds exactly one language-stats step with its six counts |
| MetricsAggregator.ProcessModelFeatures | src/domain/metricsAggregator.ts:228-241 | one model-engagement call and one model-feature call per `totals_by_model_feature` entry |
| MetricsAggregator.ProcessFeatures | src/domain/metricsAggregator.ts:243-280 | each feature fragment feeds adoption, chat and the heatmap, and the collected impacts are one per fragment |
| MetricsAggregator.FeatureEventsStep | src/domain/metricsAggregator.ts:246-262 | after fragment j, the adoption and chat accumulators hold the fold over the fragments up to and including j |
| MetricsAggregator.FeatureCallsStep | src/domain/metricsAggregator.ts:264-278 | after fragment j, the heatmap calls and the collected impacts cover the fragments up to and including j, in order, with absent line counts read as 0 |
| MetricsAggregator.AccumulateAdoptionStep | src/domain/metricsAggregator.ts:247-253 | the adoption accumulator takes one fold step for the fragment |
| MetricsAggregator.AccumulateChatStep | src/domain/metricsAggregator.ts:256-262 | the chat accumulator takes one fold step for the fragment |
| MetricsAggregator.Results | src/domain/metricsAggregator.ts:286-305 | the finalizers applied to the accumulators give `AggregateOf` of the kept records |
| MetricsAggregator.StatesSnoc | src/domain/metricsAggregator.ts:189-196 | the user-summary and engagement folds over `ks + [m]` are one step after the folds over `ks` |
| MetricsAggregator.EventsSnoc | src/domain/metricsAggregator.ts:206-280 | the chat, language and adoption event streams of `ks + [m]` extend those of `ks` by the record's fragments |
| MetricsAggregator.StatsLogSnoc | src/domain/metricsAggregator.ts:192-241 | the stats calls of a record are: user usage, then IDE users, then language engagements, then model engagements |
| MetricsAggregator.OtherLogsSnoc | src/domain/metricsAggregator.ts:198-283 | the model-usage calls and the two impact calls that a record adds |
| MetricsAggregator.NoFilteredLanguageEvent | src/domain/metricsAggregator.ts:207-210 | no language-stats event carries a language that `shouldFilterLanguage` rejects |
| MetricsAggregator.NoFilteredLanguageCall | src/domain/metricsAggregator.ts:207-213 | no language-engagement call carries a rejected language |
| MetricsAggregator.FilteredLanguageIgnored | src/domain/metricsAggregator.ts:206-226 | a rejected language appears in neither the language stats rows nor the language-engagement calls |
| MetricsAggregator.ImpactsOfFeatures | src/domain/metricsAggregator.ts:274-278 | one impact entry per feature fragment, with missing LOC sums counted as 0 |
| MetricsAggregator.ImpactOncePerRecord | src/domain/metricsAggregator.ts:197-283 | the impact accumulator gets exactly two calls per kept record (date seeding, then the batch of feature impacts) |
| MetricsAggregator.FlatMapStep | src/domain/metricsAggregator.ts:201-204 | (loop step: the log after fragment `j` is the log before it plus fragment `j`'s calls) |
| MetricsAggregator.FlatMapOnes | src/domain/metricsAggregator.ts:243-280 | a one-entry-per-fragment flat map is an element-wise map |
| MetricsAggregator.KeptStep | src/domain/metricsAggregator.ts:171-176 | (loop step for the surviving-record prefix) |
| UserSummaries.AddUserSummary | src/domain/metricsAggregator.ts:94-130 | a new user starts from the first record's login; the totals add, the flags OR, and the day joins the user's day set; other users are untouched |
| UserSummaries.UserSummaryAccumulator.constructor | src/domain/metricsAggregator.ts:87-92 | a new accumulator holds no users |
| UserSummaries.AccumulateUserSummary | src/domain/metricsAggregator.ts:94-130 | the in-place update equals one `AddUserSummary` step |
| UserSummaries.AddUserSummaryInTwoSteps | src/domain/metricsAggregator.ts:101-129 | creating the entry first and then adding the record equals the one-step update |
| UserSummaries.ComputeUserSummaries | src/domain/metricsAggregator.ts:132-139 | a permutation of the rows, sorted by interactions descending, with ties in first-seen order |
| UserSummaries.SummaryStateOfUser | src/domain/metricsAggregator.ts:94-130 | after all records, each user's entry holds the sums, ORs, first login and distinct days of that user's records |
| UserSummaries.UserSummariesOf | src/domain/metricsAggregator.ts:132-139 | every output row is the expected summary of that user's records, and its `days_active` counts distinct days |
| UserSummaries.UserSummariesComplete | src/domain/metricsAggregator.ts:132-139 | every user with a record has a summary row |
| UserSummaries.AddUserSummaryHolds | src/domain/metricsAggregator.ts:101-129 | one step preserves "the entry summarises the user's records so far" |
| UserSummaries.FirstRecordHolds | src/domain/metricsAggregator.ts:101-117 | the first record of a user creates the summary from that record |
| UserSummaries.NextRecordHolds | src/domain/metricsAggregator.ts:119-129 | a later record adds to the sums and ORs the flags |
| EngagementCalculator.EmptyEngagement | src/domain/calculators/engagementCalculator.ts:13-18 | the empty state satisfies the invariant (every daily set ⊆ all users) |
| EngagementCalculator.AddEngagement | src/domain/calculators/engagementCalculator.ts:20-31 | the user joins the global set and that day's set, and other days are unchanged; the invariant is kept |
| EngagementCalculator.AddEngagementIdempotent | src/domain/calculators/engagementCalculator.ts:20-31 | repeating the same (date, user) changes nothing |
| EngagementCalculator.EngagementAccumulator.constructor | src/domain/calculators/engagementCalculator.ts:13-18 | a new accumulator is the empty state |
| EngagementCalculator.AccumulateEngagement | src/domain/calculators/engagementCalculator.ts:20-31 | the in-place update equals one `AddEngagement` step |
| EngagementCalculator.EngagementRowIsRow | src/domain/calculators/engagementCalculator.ts:36-45 | a row has active ≤ total users, total = size of the global set, and a percentage of 0 when there are no users, otherwise in [0, 100] |
| EngagementCalculator.ComputeEngagementData | src/domain/calculators/engagementCalculator.ts:33-48 | one row per date, ascending by date, each row satisfying the row property |
| EngagementCalculator.EngagementOfUsers | src/domain/calculators/engagementCalculator.ts:25 | the global set is exactly the users of the records |
| EngagementCalculator.EngagementOfDays | src/domain/calculators/engagementCalculator.ts:27-30 | there is a daily entry exactly for each day that occurs in the records |
| EngagementCalculator.EngagementOfDayUsers | src/domain/calculators/engagementCalculator.ts:27-30 | each day's set is exactly the users with a record on that day |
| EngagementCalculator.UsersOnSnoc | src/domain/calculators/engagementCalculator.ts:27-30 | (step: a record adds its user to its own day only) |
| EngagementCalculator.UsersOnNone | src/domain/calculators/engagementCalculator.ts:27-30 | (a day with no records has no users) |
| Common.SubsetCard | src/domain/calculators/engagementCalculator.ts:41 | a subset is no larger; this gives active ≤ total users here and user count ≤ total unique users in the feature impact rows (src/utils/metricCalculators.ts:381) |
| ChatCalculator.ModeOf | src/domain/calculators/chatCalculator.ts:71-88 | exactly the four chat feature ids select a mode |
| ChatCalculator.ModeUsers.Add | src/domain/calculators/chatCalculator.ts:71-88 | adds the user to the chosen mode's set only |
| ChatCalculator.ModeRequests.Add | src/domain/calculators/chatCalculator.ts:71-88 | adds the count to the chosen mode's counter only |
| ChatCalculator.EmptyChat | src/domain/calculators/chatCalculator.ts:32-37 | the empty state satisfies the invariant (both maps share one key set) |
| ChatCalculator.EnsureDate | src/domain/calculators/chatCalculator.ts:39-56 | an existing date is left as it is; a new date gets empty sets and zero counters in both maps; other dates are unchanged |
| ChatCalculator.AddChat | src/domain/calculators/chatCalculator.ts:58-89 | a count ≤ 0 changes nothing; an unknown feature only ensures the date; a chat feature adds the user and count to its mode, leaving other modes and dates unchanged |
| ChatCalculator.ChatAccumulator.constructor | src/domain/calculators/chatCalculator.ts:32-37 | a new accumulator is the empty state |
| ChatCalculator.EnsureChatDate | src/domain/calculators/chatCalculator.ts:39-56 | the in-place update equals `EnsureDate` |
| ChatCalculator.AccumulateChatFeature | src/domain/calculators/chatCalculator.ts:58-89 | the in-place update equals `AddChat` |
| ChatCalculator.ComputeChatUsersData | src/domain/calculators/chatCalculator.ts:91-101 | one row per date, ascending; each row holds the four set sizes of that date |
| ChatCalculator.ComputeChatRequestsData | src/domain/calculators/chatCalculator.ts:103-110 | one row per date, ascending; each row holds the four counters of that date |
| ChatCalculator.UsersRowIsRow | src/domain/calculators/chatCalculator.ts:93-99 | the row built for a date reports that date's set sizes |
| ChatCalculator.RequestsRowIsRow | src/domain/calculators/chatCalculator.ts:105-108 | the row built for a date reports that date's counters |
| ChatCalculator.EnsureDateTotal | src/domain/calculators/chatCalculator.ts:39-56 | ensuring a date leaves every mode's request total unchanged |
| ChatCalculator.AddChatTotal | src/domain/calculators/chatCalculator.ts:65-88 | one event raises a mode's total by its count exactly when it is a positive count for that mode's feature |
| ChatCalculator.ChatOfTotals | src/domain/calculators/chatCalculator.ts:72-87 | summed over all days, each mode's requests equal the sum of the positive counts fed for its feature id |
| ChatCalculator.SumRequestsUpdate | src/domain/calculators/chatCalculator.ts:72-87 | (sum over dates after overwriting one date) |
| ChatCalculator.SumRequestsOther | src/domain/calculators/chatCalculator.ts:39-56 | (a new date leaves the sum over existing dates unchanged) |
| LanguageCalculator.AddLanguage | src/domain/calculators/languageCalculator.ts:31-62 | a first fragment creates a zero cell; the six amounts are added and the user joins the cell's set; other languages are unchanged |
| LanguageCalculator.LanguageAccumulator.constructor | src/domain/calculators/languageCalculator.ts:25-29 | a new accumulator holds no languages |
| LanguageCalculator.AccumulateLanguageStats | src/domain/calculators/languageCalculator.ts:31-62 | the in-place update equals `AddLanguage` |
| LanguageCalculator.StatsRows | src/domain/calculators/languageCalculator.ts:64-76 | one row per language in first-seen order |
| LanguageCalculator.ComputeLanguageStats | src/domain/calculators/languageCalculator.ts:64-78 | a permutation of the rows with `totalEngagements` = generations + acceptances and `uniqueUsers` = size of the user set, sorted by engagements descending with ties in first-seen order |
| LanguageCalculator.LanguagesOfContents | src/domain/calculators/languageCalculator.ts:42-61 | a language has a cell iff some fragment names it; the cell holds the sums of its fragments and the set of their users |
| LanguageCalculator.CellStep | src/domain/calculators/languageCalculator.ts:42-61 | one accumulation step keeps every language's cell equal to the sums and users of the fragments so far |
| LanguageCalculator.UsersForSnoc | src/domain/calculators/languageCalculator.ts:61 | (step: a fragment adds its user to its own language only) |
| LanguageCalculator.AmountsForNone | src/domain/calculators/languageCalculator.ts:42-52 | (a language with no fragments has zero sums and no users) |
| LanguageCalculator.ShouldFilterLanguage | src/domain/calculators/languageCalculator.ts:80-87 | never filters when the flag is off; with it on, filters iff the lower-cased name is `unknown` or the name is only whitespace |
| LanguageCalculator.ShouldFilterLanguageExamples | src/domain/calculators/languageCalculator.ts:84-86 | `" Unknown "` is kept, `"UnKnown"` and `""` are filtered, nothing is filtered with the flag off |
| FeatureAdoptionCalculator.AddFeature | src/domain/calculators/featureAdoptionCalculator.ts:22-35 | nothing changes unless interactions > 0 or generations > 0; then the feature joins the user's set |
| FeatureAdoptionCalculator.AddFeatureIdempotent | src/domain/calculators/featureAdoptionCalculator.ts:29-34 | recording the same feature twice equals recording it once |
| FeatureAdoptionCalculator.FeatureAdoptionAccumulator.constructor | src/domain/calculators/featureAdoptionCalculator.ts:16-20 | a new accumulator holds no users |
| FeatureAdoptionCalculator.AccumulateFeatureAdoption | src/domain/calculators/featureAdoptionCalculator.ts:22-35 | the in-place update equals `AddFeature` |
| FeatureAdoptionCalculator.ComputeFeatureAdoptionData | src/domain/calculators/featureAdoptionCalculator.ts:37-75 | the counting loop yields the funnel: each counter is the number of users whose feature set matches its test |
| FeatureAdoptionCalculator.FunnelBounds | src/domain/calculators/featureAdoptionCalculator.ts:48-66 | total = users with a recorded feature; every count ≤ total; agent, ask and edit counts ≤ chat users |
| FeatureAdoptionCalculator.InlineOutsideChat | src/domain/calculators/featureAdoptionCalculator.ts:50-61 | `chat_inline` does not count as chat, so inline users can exceed chat users |
| FeatureAdoptionCalculator.EmptyFunnel | src/domain/calculators/featureAdoptionCalculator.ts:37-75 | an empty accumulator yields all-zero counts |
| FeatureAdoptionCalculator.CountUsers | src/domain/calculators/featureAdoptionCalculator.ts:48-63 | a count never exceeds the number of users |
| FeatureAdoptionCalculator.CountUsersMono | src/domain/calculators/featureAdoptionCalculator.ts:48-63 | a weaker test counts at least as many users |
| FeatureAdoptionCalculator.CountUsersAll | src/domain/calculators/featureAdoptionCalculator.ts:66 | a test every user passes counts all users |
| FeatureAdoptionCalculator.AdoptionOfContents | src/domain/calculators/featureAdoptionCalculator.ts:22-35 | a user has an entry iff some fragment of theirs was recorded, and the entry is the set of those features |
| FeatureAdoptionCalculator.FeaturesOfSnoc | src/domain/calculators/featureAdoptionCalculator.ts:29-34 | (step for the recorded features of a user) |
| UsageStats.AddUsage | src/utils/metricCalculators.ts:148-160 | the user's chat and agent flags are ORed with the record's; other users are unchanged |
| UsageStats.UsageOfContents | src/utils/metricCalculators.ts:148-160 | the map's users are exactly the record users, and a flag is set iff some record of the user sets it |
| UsageStats.BuildUsage | src/utils/metricCalculators.ts:148-160 | the loop builds the usage fold |
| UsageStats.CountUsage | src/utils/metricCalculators.ts:162-167 | a count never exceeds the number of users |
| UsageStats.CountUserKinds | src/utils/metricCalculators.ts:162-167 | the counting loop yields the chat, agent and completion-only counts |
| UsageStats.CountUsageIsCard | src/utils/metricCalculators.ts:162-167 | counting over distinct keys is the size of the matching set |
| UsageStats.CountUsageComplement | src/utils/metricCalculators.ts:162-167 | complementary tests partition the users |
| UsageStats.UserCounts | src/utils/metricCalculators.ts:147-167 | unique users = distinct ids; chat and agent counts are the sizes of those user sets; completion-only + \|chat ∪ agent\| = unique users |
| UsageStats.KeysAreUsers | src/utils/metricCalculators.ts:148-160 | the map's keys are exactly the users of the records |
| UsageStats.CountIsUsers | src/utils/metricCalculators.ts:162-167 | a count equals the size of the user set its test characterises |
| UsageStats.StatsUsers | src/utils/metricCalculators.ts:225-239 | the result's user counts and total records state the counts above |
| UsageStats.AddRecordWeights | src/utils/metricCalculators.ts:170-180 | the fragment loop adds each fragment's weight under its key |
| UsageStats.AddEntry | src/utils/metricCalculators.ts:172-177 | one fragment adds its weight to its key's total, starting from 0 for a new key |
| UsageStats.AddWeightsStep | src/utils/metricCalculators.ts:170-180 | one more fragment is one more `AddWeight` step on the totals so far |
| UsageStats.BuildWeights | src/utils/metricCalculators.ts:170-180 | the record loop builds the weights fold |
| UsageStats.AddWeightsContents | src/utils/metricCalculators.ts:170-180 | after a record, each key's total is its old total plus the weights of that key |
| UsageStats.WeightsOfContents | src/utils/metricCalculators.ts:170-180 | each key's total is the sum of its weights over all records (for languages and models, generations + acceptances) |
| UsageStats.AddRecordIdeUsers | src/utils/metricCalculators.ts:190-198 | the IDE loop adds the user to each IDE's set |
| UsageStats.BuildIdeUsers | src/utils/metricCalculators.ts:190-198 | the record loop builds the IDE-users fold |
| UsageStats.AddIdeUsersContents | src/utils/metricCalculators.ts:190-198 | after a record, each IDE's set gains the user exactly when the record uses that IDE |
| UsageStats.IdeUsersOfContents | src/utils/metricCalculators.ts:190-198 | each IDE's set is exactly the users of records that use it |
| UsageStats.TopOf | src/utils/metricCalculators.ts:181-187 | `N/A`/0 on no entries; otherwise the first entry with the maximal value |
| UsageStats.TopOfIsFirstMax | src/utils/metricCalculators.ts:202 | the head of the stable descending sort is the first maximal entry |
| UsageStats.FirstMaxUnique | src/utils/metricCalculators.ts:202 | the first maximal position is unique |
| UsageStats.TopOfMap | src/utils/metricCalculators.ts:170-187 | the top key has a value no other key exceeds, and every earlier key has a smaller value |
| UsageStats.IdsSnoc | src/utils/metricCalculators.ts:148-160 | (step for the user sets) |
| MetricCalculators.CalculateStats | src/utils/metricCalculators.ts:131-240 | empty input gives the zero/`N/A` result; otherwise the stats fold with the top IDE taken by distinct users |
| MetricCalculators.TopIdeByUsers | src/utils/metricCalculators.ts:189-205 | the top IDE is the first-inserted IDE with the most distinct users |
| PruAnalysis.AddModelUse | src/utils/metricCalculators.ts:263-285 | PRUs grow by count × multiplier of the lower-cased model; the count goes to premium or standard requests by multiplier ≠ 0; the model's cell is created or updated and other models are unchanged |
| PruAnalysis.AccumulateModelUse | src/utils/metricCalculators.ts:263-285 | the in-loop update equals `AddModelUse` |
| PruAnalysis.AccumulateModelUses | src/utils/metricCalculators.ts:263-285 | the fragment loop folds `AddModelUse` |
| PruAnalysis.AccumulatePruRecord | src/utils/metricCalculators.ts:250-286 | one record creates its day if needed and folds its model fragments into it |
| PruAnalysis.BuildPruDaily | src/utils/metricCalculators.ts:242-286 | the record loop builds the daily fold |
| PruAnalysis.AddModelUsesTotals | src/utils/metricCalculators.ts:263-285 | after the fragments: premium + standard grow by their counts, premium by the counts with multiplier ≠ 0, PRUs by Σ count × multiplier |
| PruAnalysis.AddModelUsesRequests | src/utils/metricCalculators.ts:263-285 | premium + standard grow by the fragments' counts, premium by the counts with multiplier ≠ 0 |
| PruAnalysis.AddModelUsesPrus | src/utils/metricCalculators.ts:263-285 | the day's PRUs grow by Σ count × multiplier |
| PruAnalysis.PruDailyTotals | src/utils/metricCalculators.ts:250-286 | each day's totals are those sums over all records of that day |
| PruAnalysis.PruDailyDays | src/utils/metricCalculators.ts:250-260 | a day has an entry iff it occurs in the records |
| PruAnalysis.DayHolds | src/utils/metricCalculators.ts:288-308 | the row of a day holds that day's request split and rounded PRU total |
| PruAnalysis.SortModels | src/utils/metricCalculators.ts:300 | the model rows are permuted and sorted by PRUs descending, then requests descending |
| PruAnalysis.DayRowFacts | src/utils/metricCalculators.ts:288-315 | the percentage is 0 with no requests and in [0, 100] otherwise; the model list is sorted; the top model is `unknown` with no models, otherwise a model with the highest rounded PRUs |
| PruAnalysis.TopModel | src/utils/metricCalculators.ts:290-312 | on a day with models, the first-ranked model is one of the day's models with the most rounded PRUs |
| PruAnalysis.CalculateDailyPruAnalysis | src/utils/metricCalculators.ts:242-317 | the method equals the specification `PruAnalysisOf` |
| PruAnalysis.PruAnalysisRows | src/utils/metricCalculators.ts:288-316 | one row per distinct day, ascending; each row's requests, premium requests and rounded PRUs are the day's sums |
| PruAnalysis.ByPrusThenRequestsIsStrictWeakOrder | src/utils/metricCalculators.ts:300 | the model comparator is a strict weak order |
| FeatureImpact.DistinctDays | src/utils/metricCalculators.ts:330 | the distinct days of the records, each once |
| FeatureImpact.SeededDays | src/utils/metricCalculators.ts:330-339 | seeding gives every day exactly one zero entry, in first-seen order |
| FeatureImpact.SeededKeys | src/utils/metricCalculators.ts:330-339 | seeding distinct dates gives exactly those dates as keys, in their order |
| FeatureImpact.SeededEmpty | src/utils/metricCalculators.ts:330-339 | every seeded day starts with no lines and no users |
| FeatureImpact.SeedDays | src/utils/metricCalculators.ts:330-339 | the seeding loop equals `Seeded` |
| FeatureImpact.RecordImpact | src/utils/metricCalculators.ts:346-363 | the loop sums the added and deleted LOC of the selected features and sets the activity flag iff one of them has nonzero LOC |
| FeatureImpact.AddImpact | src/utils/metricCalculators.ts:343-374 | one record keeps the day set unchanged |
| FeatureImpact.AccumulateImpact | src/utils/metricCalculators.ts:343-374 | the record loop equals the impact fold |
| FeatureImpact.ImpactRecord | src/utils/metricCalculators.ts:343-374 | one record is skipped when its day is not seeded or when it has no selected activity; otherwise its day gets its selected lines and its user, and so does the global user set |
| FeatureImpact.ImpactFoldDay | src/utils/metricCalculators.ts:343-374 | each day's entry holds the LOC sums and the active users of that day's records |
| FeatureImpact.ImpactFoldUsers | src/utils/metricCalculators.ts:341-373 | the global user set is the users of active records on any day |
| FeatureImpact.CalculateFeatureImpactData | src/utils/metricCalculators.ts:319-386 | the method equals the specification `FeatureImpactOf` |
| FeatureImpact.FeatureImpactRows | src/utils/metricCalculators.ts:320-385 | empty input or no features gives []; otherwise one row per distinct day, ascending by date |
| FeatureImpact.ImpactRowIsRow | src/utils/metricCalculators.ts:376-384 | each day's row has net change = added − deleted, the day's active users, and user count ≤ total unique users |
| FeatureImpact.FeatureImpactRowContents | src/utils/metricCalculators.ts:376-385 | every output row satisfies the row property |
| FeatureImpact.CalculateJoinedImpactData | src/utils/metricCalculators.ts:388-397 | the joined series is the impact over the joined feature list |
| FeatureImpact.CalculateEditModeImpactData | src/utils/metricCalculators.ts:399-401 | the edit series is the impact over the edit feature |
| FeatureImpact.CalculateInlineModeImpactData | src/utils/metricCalculators.ts:403-405 | the inline series is the impact over the inline feature |
| FeatureImpact.CalculateAskModeImpactData | src/utils/metricCalculators.ts:407-409 | the ask series is the impact over the ask feature |
| FeatureImpact.HasActivityMono | src/utils/metricCalculators.ts:353-363 | a record active for some features is active for any superset |
| FeatureImpact.ModeUsersWithinJoined | src/utils/metricCalculators.ts:388-409 | the edit, inline and ask users of a day are within the joined users of that day |
| FeatureImpact.SnocMembers | src/utils/metricCalculators.ts:343 | (membership in an extended record list) |
| MetricsParser.CalculateStats | src/utils/metricsParser.ts:19-123 | empty input gives the zero/`N/A` result; otherwise the stats fold with the top IDE taken by entry count |
| MetricsParser.TopIdeByEntries | src/utils/metricsParser.ts:75-88 | the top IDE is the first-inserted IDE with the most `totals_by_ide` entries |
| MetricsParser.AddUserSummary | src/utils/metricsParser.ts:126-155 | one record step keeps the map well formed |
| MetricsParser.SortSummaries | src/utils/metricsParser.ts:157-160 | a permutation sorted by interactions descending, with ties in first-seen order |
| MetricsParser.AddUserSummaryInTwoSteps | src/utils/metricsParser.ts:128-154 | creating the entry and then adding the record equals the one-step update |
| MetricsParser.CalculateUserSummaries | src/utils/metricsParser.ts:125-161 | the loop and sort equal `SortSummaries(SummariesOf(metrics))` |
| MetricsParser.SummariesOfUser | src/utils/metricsParser.ts:128-154 | after all records, each user's entry holds the per-field sums, ORs, first login and `days_active` = the number of the user's records |
| MetricsParser.UserSummariesOf | src/utils/metricsParser.ts:125-161 | every output row is the expected summary of that user's records |
| MetricsParser.UserSummariesComplete | src/utils/metricsParser.ts:125-161 | every user with a record has a row |
| MetricsParser.AddUserSummaryHolds | src/utils/metricsParser.ts:128-154 | one step preserves "the entry summarises the user's records so far" |
| MetricsParser.FirstRecordHolds | src/utils/metricsParser.ts:128-142 | the first record of a user creates the summary with `days_active` 1 |
| MetricsParser.NextRecordHolds | src/utils/metricsParser.ts:144-154 | a later record adds to the sums and increments `days_active` |
| MetricsParser.DaysActiveDiffer | src/utils/metricsParser.ts:152 | the two summary functions agree on every field except `days_active`; the aggregator's is never larger, and strictly smaller when a user has two records on one day |
| MetricsParser.CalculateDailyEngagement | src/utils/metricsParser.ts:170-206 | empty input gives []; otherwise the same rows as the engagement accumulator over the records |
| MetricsParser.DailyEngagementRows | src/utils/metricsParser.ts:174-203 | ascending by date, one row per day occurring in the input, each with the same total-user count and active ≤ total |
| MetricsParser.EngagementRowIsDailyRow | src/utils/metricsParser.ts:191-201 | an engagement row over the records states that day's active users and the global user count |
| UserRecords.RecordsOfSnoc | src/domain/metricsAggregator.ts:101-128 | (a record extends only its own user's record list) |
| UserRecords.Snoc | src/domain/metricsAggregator.ts:119-129 | (sums, flags and day sets over one more record) |
| UserRecords.DaysAtMostRecords | src/utils/metricsParser.ts:152 | distinct days ≤ records, and strictly fewer when two records share a day |
| StatsCalculators.CalculateTotal | src/utils/statsCalculators.ts:29-34 | 0 on empty input and the single value on a singleton |
| StatsCalculators.TotalAppend | src/utils/statsCalculators.ts:29-34 | the total of a concatenation is the sum of the totals |
| StatsCalculators.TotalBounds | src/utils/statsCalculators.ts:29-34 | n · lo ≤ total ≤ n · hi when each value lies in [lo, hi] |
| StatsCalculators.FindMaxValue | src/utils/statsCalculators.ts:42-48 | 0 on empty input; otherwise a value of the input that bounds all values from above |
| StatsCalculators.FindMinValue | src/utils/statsCalculators.ts:56-62 | 0 on empty input; otherwise a value of the input that bounds all values from below |
| StatsCalculators.FindMaxItem | src/utils/statsCalculators.ts:70-79 | none on empty input; otherwise the first element attaining the maximum |
| StatsCalculators.FirstMinIndex | src/utils/statsCalculators.ts:87-96 | the first index attaining the minimum |
| StatsCalculators.FindMinItem | src/utils/statsCalculators.ts:87-96 | none on empty input; otherwise the first element attaining the minimum |
| StatsCalculators.ItemsMatchValues | src/utils/statsCalculators.ts:42-96 | the value of the max (min) item is the max (min) value |
| StatsCalculators.Pow10 | src/utils/statsCalculators.ts:19 | the rounding factor is at least 1 |
| StatsCalculators.AverageBounds | src/utils/statsCalculators.ts:13-22 | a rounded mean lies between the scaled minimum and maximum |
| StatsCalculators.CalculateAverage | src/utils/statsCalculators.ts:13-22 | 0 on empty input; otherwise the mean rounded to the given decimals, between min and max |
| StatsCalculators.CalculateStats | src/utils/statsCalculators.ts:103-124 | all zeros on empty input; otherwise count = length, total = sum, max/min values with min ≤ max, average to two decimals between them |
| StringInterning.StringPool.constructor | src/utils/stringPool.ts:10-16 | a new pool is empty |
| StringInterning.StringPool.Intern | src/utils/stringPool.ts:18-25 | returns a string equal to its argument and adds it to the pool; interning an equal string again leaves the pool as it was |
| StringInterning.StringPool.Size | src/utils/stringPool.ts:30-32 | the number of distinct interned strings |
| StringInterning.StringPool.Clear | src/utils/stringPool.ts:38-40 | the pool becomes empty |
| StringInterning.InternRoot | src/utils/stringPool.ts:60-74 | a root field is interned only when non-empty, and is value-equal afterwards |
| StringInterning.InternMetricStrings | src/utils/stringPool.ts:47-119 | the record is returned value-equal, and the pool gains exactly its non-empty root strings and all nested strings |
| StringInterning.InternIdes | src/utils/stringPool.ts:77-85 | the IDE and plugin strings of every IDE entry join the pool |
| StringInterning.InternFeatures | src/utils/stringPool.ts:88-92 | every feature name joins the pool |
| StringInterning.InternLanguageFeatures | src/utils/stringPool.ts:95-100 | every language and feature name of the language-feature entries joins the pool |
| StringInterning.InternLanguageModels | src/utils/stringPool.ts:103-108 | every language and model name of the language-model entries joins the pool |
| StringInterning.InternModelFeatures | src/utils/stringPool.ts:111-116 | every model and feature name of the model-feature entries joins the pool |
| StringInterning.StringsOfMembers | src/utils/stringPool.ts:77-116 | a string is among the nested strings iff some entry holds it |
| StringInterning.RootStringsSkipEmpty | src/utils/stringPool.ts:60-74 | empty root strings are skipped and non-empty ones are interned |
| Formatters.TruncateString | src/utils/formatters.ts:149-152 | unchanged when empty or short enough; otherwise `max(maxLength, 3)` characters ending in `...` and starting with the input's prefix (lengths counted in characters, see "Left out") |
| Formatters.TruncateStringIdempotent | src/utils/formatters.ts:149-152 | truncating twice equals truncating once when `maxLength` ≥ 3 |
| Formatters.TruncateStringShortLimit | src/utils/formatters.ts:151 | a limit below 3 clamps the prefix to empty, leaving `...` |
| Formatters.FormatModelDisplayName | src/utils/formatters.ts:159-162 | `''` and `unknown` become `Unknown Model`; otherwise the first character is upper-cased (ASCII letters only, so the length is kept, see "Left out") and every later `-` becomes a space while every other character stays |
| Branded.CreatorsAreIdentities | src/types/branded.ts:47-61 | every `create*` helper is the identity |
| Branded.IsUserId | src/types/branded.ts:64-65 | only numbers can be user ids |
| Branded.IsUserIdAcceptsIntegers | src/types/branded.ts:64-65 | every integer is accepted |
| Branded.IsUserIdRejectsFractions | src/types/branded.ts:64-65 | every non-integer number is rejected |
| Branded.IsUserLoginAcceptsNonEmpty | src/types/branded.ts:67-68 | every non-empty string is a user login |
| Branded.IsUserLoginRejects | src/types/branded.ts:67-68 | the empty string and every value that is not a string are refused |
| Branded.MatchAll | src/types/branded.ts:70-71 | a fixed-length pattern matches iff the lengths agree and each atom matches its character |
| Branded.IsMetricDate | src/types/branded.ts:70-71 | true iff a 10-character string with `-` at 4 and 7 and ASCII digits elsewhere |
| Branded.IsMetricDateExamples | src/types/branded.ts:70-71 | month and day ranges are not checked: `2025-13-99` passes |
| Branded.IsMetricDateRefusals | src/types/branded.ts:70-71 | a part without its leading zero fails, and so does a number |
| Sorting.SortPermutes | src/domain/metricsAggregator.ts:138 | a sort is a permutation |
| Sorting.SortSorted | src/domain/metricsAggregator.ts:138 | a sort by a strict order is sorted |
| Sorting.SortStable | src/domain/metricsAggregator.ts:138 | a sort keeps the input order inside every tie class |
| Sorting.SortDesc | src/domain/metricsAggregator.ts:138 | sorting by a numeric key descending: a permutation, descending, stable per key value |
| Sorting.SortDescHead | src/utils/metricCalculators.ts:202 | the head of a descending sort is the first maximal element |
| Sorting.FirstMaxIndex | src/utils/statsCalculators.ts:70-79 | the first index attaining the maximum |
| Sorting.InsertStable | src/domain/metricsAggregator.ts:138 | (one insertion keeps every tie class in order) |
| Sorting.SortDistinct | src/domain/calculators/engagementCalculator.ts:47 | sorting keeps keys distinct |
| Sorting.FilterMembers | src/domain/metricsAggregator.ts:171-176 | an element survives a filter iff it is in the input and passes the test |
| Sorting.FilterAll | src/domain/metricsAggregator.ts:171-176 | a filter that every element passes keeps the input |
| DateRows.SortByDate | src/domain/calculators/engagementCalculator.ts:47 | rows with distinct dates sort into strictly ascending date order, keeping the same rows |
| DateRows.SortKeyedRows | src/domain/calculators/chatCalculator.ts:91-110 | one row per map key, sorted ascending by date, each key present |
| DateRows.ByDateIsStrictWeakOrder | src/domain/calculators/engagementCalculator.ts:47 | comparing dates is a strict weak order |
| Text.StrLtTransitive | src/domain/calculators/engagementCalculator.ts:47 | date-string order is transitive |
| Text.StrLtTotal | src/domain/calculators/engagementCalculator.ts:47 | distinct date strings are ordered one way or the other |
| Text.ToLower | src/utils/metricCalculators.ts:264 | lower-casing keeps the length and maps each character |
| Text.Trim | src/domain/calculators/languageCalculator.ts:86 | trimming gives empty iff the string is all whitespace, and otherwise starts and ends with non-whitespace |
| Text.TrimIsMiddle | src/domain/calculators/languageCalculator.ts:86 | the trimmed string is a contiguous part of the input with only whitespace before and after it |
| Text.TrimStartDropsWhitespace | src/domain/calculators/languageCalculator.ts:86 | every character removed from the front is whitespace |
| Text.TrimEndDropsWhitespace | src/domain/calculators/languageCalculator.ts:86 | every character removed from the back is whitespace |
| InsertionMap.IMap.Put | src/domain/calculators/languageCalculator.ts:42-52 | setting a key updates the value; a new key goes last in insertion order and an existing key keeps its place |
| InsertionMap.SizeIsKeyCount | src/utils/stringPool.ts:30-32 | a map's size is its number of keys |
| Common.Percentage | src/domain/calculators/engagementCalculator.ts:43-45 | 0 when the whole is ≤ 0; in [0, 100] % for 0 ≤ part ≤ whole; exactly 100 % when part = whole > 0 |
| Common.RoundRatio | src/utils/statsCalculators.ts:21 | the ratio rounded half up |
| Common.Hundredths | src/utils/metricCalculators.ts:295 | a real rounded half up to hundredths |

## Left out

- Record parsing (`parseMetricsFile`), the UI, charts and hooks are not part of this model. The input is an already-parsed sequence of records.
- `isISODateString` is not modelled: it depends on `Date.parse`.
- MetricsAggregator.AggregateMetrics: `getFilteredDateRange` (`src/utils/dateFilters`) is not part of this model. It is the `dateRange` parameter, taken as a given inclusive [start, end] window.
- MetricsAggregator.InWindow: days are compared as strings. An unparsable day, which makes `new Date` return an invalid date and every comparison false, is not modelled.
- MetricsAggregator.AggregateOf: the stats, model-usage and impact accumulators (`./calculators`) are not part of this model. The driver records the calls it makes to them as ordered call logs, and their whole-array counterparts in `src/utils/metricCalculators.ts` are modelled instead. The outputs `stats`, `modelUsageData`, `pruAnalysisData`, the agent heatmap, the model-feature distribution and the five impact series are therefore those logs, not computed rows.
- MetricsAggregator.Summarizes: the stats accumulator's report days before the first kept record are taken as the empty string.
- MetricsAggregator.ProcessMetric: the call logs and the accumulators are independent, so the model groups the call-log bookkeeping apart from the accumulator updates. The order of calls within each log and within each accumulator is the source's.
- MetricsAggregator.Options: an absent `removeUnknownLanguages` is `false`, as in the source's `?? false`.
- PruAnalysis: `getModelMultiplier`, `isPremiumModel`, `SERVICE_VALUE_RATE` and `KNOWN_MODELS` (`src/domain/modelConfig`) are not part of this model. The first three are the fields of the `ModelConfig` parameter; the service value column is computed from that rate.
- PruAnalysis.DayRowFacts: the bound on `pruPercentage` holds only for non-negative request counts, which the record format implies but nothing checks.
- Common.Percentage, Common.Hundredths, StatsCalculators.CalculateAverage: floating point is not modelled. Percentages and PRU amounts are exact rationals, and `Math.round` is floor(x + 1/2), which rounds half toward +∞ as JavaScript does. The results are not claimed to be IEEE-exact.
- StatsCalculators: the accessors passed to `calculateTotal`, `calculateAverage`, `findMaxValue` and the other helpers are integer-valued in the model, while the source accepts any `number`; fractional values are not modelled there.
- Text.ToLower: `toLowerCase` is modelled for the ASCII letters only; other letters are left unchanged. (`Text.Trim` removes exactly the ECMAScript WhiteSpace and LineTerminator characters, which is the full set `trim` uses.)
- Formatters.FormatModelDisplayName: `toUpperCase` is modelled for the ASCII letters only. JavaScript maps every Unicode letter (`"éclair-x"` gives `"Éclair x"`) and can lengthen the string (`"ßeta"` gives `"SSeta"`), so the proved "length is kept" holds for the model, not for such names.
- Formatters.TruncateString: lengths and cuts are counted in characters (code points), while JavaScript `length` and `substring` count UTF-16 code units; a string with characters outside the Basic Multilingual Plane (`"😀😀"` with limit 3) is truncated in JavaScript but not in the model.
- StringInterning.InternMetricStrings: the record's fields are overwritten in place with value-equal strings. The model returns the record as a value, so reference identity (the point of interning) is not captured.
- InsertionMap: `Map.size` is the number of keys.
- The two "top IDE" definitions (distinct users in `src/utils/metricCalculators.ts`, entry count in `src/utils/metricsParser.ts`) and the two `days_active` definitions are kept separate, as the source has them. Their differences are stated by MetricCalculators.TopIdeByUsers, MetricsParser.TopIdeByEntries and MetricsParser.DaysActiveDiffer. They are not claimed as defects.
