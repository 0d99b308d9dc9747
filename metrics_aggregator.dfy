/** `aggregateMetrics`: one pass over the records that keeps those inside the date window
    and feeds each kept record to every accumulator. The stats, model-usage and impact
    accumulators are not part of this model; the pass records, as a log per accumulator,
    the calls it makes to them. */
module MetricsAggregator {
  import opened Common
  import opened Text
  import opened InsertionMap
  import opened Sorting
  import opened MetricTypes
  import opened UserSummaries
  import opened EngagementCalculator
  import opened ChatCalculator
  import opened LanguageCalculator
  import opened FeatureAdoptionCalculator

  // ---------------------------------------------------------------- options and the window

  /** The driver's options; `dateFilter` and `reportEndDay` may be absent. An absent
      `removeUnknownLanguages` is `false`. */
  datatype Options = Options(removeUnknownLanguages: bool, dateFilter: Option<string>, reportEndDay: Option<string>)

  /** The inclusive day range `getFilteredDateRange` returns. */
  datatype DateRange = DateRange(startDay: string, endDay: string)

  /** The window, present only when a date filter other than "all" and a report end day are
      both given (absent and empty strings count as not given); `dateRange` stands for
      `getFilteredDateRange`. */
  function WindowOf(options: Options, dateRange: (string, string) -> DateRange): Option<DateRange>
  {
    match (options.dateFilter, options.reportEndDay)
    case (Some(filter), Some(endDay)) =>
      if filter != "" && filter != "all" && endDay != "" then Some(dateRange(filter, endDay)) else None
    case _ => None
  }

  /** A day is inside the window when there is none, or when it is neither before the start
      nor after the end. */
  predicate InWindow(window: Option<DateRange>, day: string)
  {
    window.None? || !(StrLt(day, window.value.startDay) || StrLt(window.value.endDay, day))
  }

  function InWindowOf(window: Option<DateRange>): Metric -> bool
  {
    (m: Metric) => InWindow(window, m.day)
  }

  /** The records that survive the date filter, in input order. */
  function Kept(ms: seq<Metric>, window: Option<DateRange>): seq<Metric>
  {
    Filter(ms, InWindowOf(window))
  }

  lemma KeptSnoc(p: seq<Metric>, m: Metric, window: Option<DateRange>)
    ensures Kept(p + [m], window) == Kept(p, window) + (if InWindow(window, m.day) then [m] else [])
  {
    FilterAppend(p, [m], InWindowOf(window));
    assert Filter([m], InWindowOf(window)) == (if InWindow(window, m.day) then [m] else []) + Filter([m][1..], InWindowOf(window));
  }

  // ---------------------------------------------------------------- the abstract accumulators

  /** The calls made to the stats accumulator. */
  datatype StatsCall =
    | UserUsage(userId: int, usedChat: bool, usedAgent: bool)
    | IdeUser(ide: string, userId: int)
    | LanguageEngagement(language: string, engagements: int)
    | ModelEngagement(model: string, engagements: int)

  /** The calls made to the model-usage accumulator. */
  datatype ModelUsageCall =
    | ModelFeatureCall(date: string, userId: int, model: string, feature: string, count: int)
    | AgentHeatmapCall(date: string, userId: int, feature: string, count: int)

  /** The line counts one feature fragment hands to the impact accumulator. */
  datatype FeatureImpact = FeatureImpact(feature: string, locAdded: int, locDeleted: int)

  /** The calls made to the impact accumulator. */
  datatype ImpactCall =
    | EnsureImpactDates(date: string)
    | FeatureImpacts(date: string, userId: int, impacts: seq<FeatureImpact>)

  /** The three accumulators the model leaves abstract, each as the list of calls it got. */
  datatype CallLogs = CallLogs(stats: seq<StatsCall>, modelUsage: seq<ModelUsageCall>, impact: seq<ImpactCall>)

  /** The items each element contributes, concatenated in order. */
  function FlatMap<X, T>(xs: seq<X>, f: X -> seq<T>): seq<T>
  {
    if xs == [] then [] else FlatMap(xs[..|xs| - 1], f) + f(xs[|xs| - 1])
  }

  /** Whatever `FlatMap` lists comes from one of the elements. */
  lemma {:induction false} FlatMapMember<X, T>(xs: seq<X>, f: X -> seq<T>, y: T)
    requires y in FlatMap(xs, f)
    ensures exists i :: 0 <= i < |xs| && y in f(xs[i])
  {
    var n := |xs| - 1;
    if y !in f(xs[n]) {
      FlatMapMember(xs[..n], f, y);
      var i :| 0 <= i < n && y in f(xs[..n][i]);
      assert xs[..n][i] == xs[i];
    }
  }

  lemma FlatMapSnoc<X, T>(xs: seq<X>, x: X, f: X -> seq<T>)
    ensures FlatMap(xs + [x], f) == FlatMap(xs, f) + f(x)
  {
    assert (xs + [x])[..|xs|] == xs;
  }

  lemma FlatMapPrefix<X, T>(xs: seq<X>, j: int, f: X -> seq<T>)
    requires 0 <= j < |xs|
    ensures FlatMap(xs[..j + 1], f) == FlatMap(xs[..j], f) + f(xs[j])
  {
    assert xs[..j + 1][..j] == xs[..j];
  }

  /** One more element appended to a running `FlatMap`. */
  lemma FlatMapStep<X, T>(xs: seq<X>, j: int, f: X -> seq<T>, s0: seq<T>, s: seq<T>)
    requires 0 <= j < |xs| && s == s0 + FlatMap(xs[..j], f)
    ensures s + f(xs[j]) == s0 + FlatMap(xs[..j + 1], f)
  {
    FlatMapPrefix(xs, j, f);
  }

  // One element's calls, fragment by fragment.

  function IdeCall(userId: int): IdeTotal -> seq<StatsCall>
  {
    (x: IdeTotal) => [IdeUser(x.ide, userId)]
  }

  /** A language fragment reaches the stats only when it is not filtered out. */
  function LanguageCall(remove: bool): LanguageFeatureTotal -> seq<StatsCall>
  {
    (x: LanguageFeatureTotal) =>
      if ShouldFilterLanguage(x.language, remove) then [] else [LanguageEngagement(x.language, x.generations + x.acceptances)]
  }

  /** A language fragment reaches the language statistics only when it is not filtered out. */
  function LanguageEventOf(userId: int, remove: bool): LanguageFeatureTotal -> seq<LanguageEvent>
  {
    (x: LanguageFeatureTotal) =>
      if ShouldFilterLanguage(x.language, remove) then []
      else [LanguageEvent(userId, x.language,
        LanguageTotals(x.generations, x.acceptances, x.locAdded, x.locDeleted, x.locSuggestedToAdd, x.locSuggestedToDelete))]
  }

  function ModelStatsCall(): ModelFeatureTotal -> seq<StatsCall>
  {
    (x: ModelFeatureTotal) => [ModelEngagement(x.model, x.generations + x.acceptances)]
  }

  function ModelFeatureCallOf(date: string, userId: int): ModelFeatureTotal -> seq<ModelUsageCall>
  {
    (x: ModelFeatureTotal) => [ModelFeatureCall(date, userId, x.model, x.feature, x.interactions)]
  }

  function AdoptionEventOf(userId: int): FeatureTotal -> seq<AdoptionEvent>
  {
    (x: FeatureTotal) => [AdoptionEvent(userId, x.feature, x.interactions, x.generations)]
  }

  function ChatEventOf(date: string, userId: int): FeatureTotal -> seq<ChatEvent>
  {
    (x: FeatureTotal) => [ChatEvent(date, userId, x.feature, x.interactions)]
  }

  function HeatmapCallOf(date: string, userId: int): FeatureTotal -> seq<ModelUsageCall>
  {
    (x: FeatureTotal) => [AgentHeatmapCall(date, userId, x.feature, x.interactions)]
  }

  /** A feature fragment's line counts, an absent count taken as 0. */
  function ImpactOf(): FeatureTotal -> seq<FeatureImpact>
  {
    (x: FeatureTotal) => [FeatureImpact(x.feature, OrZero(x.locAdded), OrZero(x.locDeleted))]
  }

  // One kept record's calls.

  function RecordStatsCalls(remove: bool): Metric -> seq<StatsCall>
  {
    (m: Metric) =>
      [UserUsage(m.userId, m.usedChat, m.usedAgent)]
      + FlatMap(m.byIde, IdeCall(m.userId))
      + FlatMap(m.byLanguageFeature, LanguageCall(remove))
      + FlatMap(m.byModelFeature, ModelStatsCall())
  }

  function RecordModelUsageCalls(): Metric -> seq<ModelUsageCall>
  {
    (m: Metric) =>
      FlatMap(m.byModelFeature, ModelFeatureCallOf(m.day, m.userId)) + FlatMap(m.byFeature, HeatmapCallOf(m.day, m.userId))
  }

  function RecordImpactCalls(): Metric -> seq<ImpactCall>
  {
    (m: Metric) => [EnsureImpactDates(m.day), FeatureImpacts(m.day, m.userId, FlatMap(m.byFeature, ImpactOf()))]
  }

  function RecordLanguageEvents(remove: bool): Metric -> seq<LanguageEvent>
  {
    (m: Metric) => FlatMap(m.byLanguageFeature, LanguageEventOf(m.userId, remove))
  }

  function RecordChatEvents(): Metric -> seq<ChatEvent>
  {
    (m: Metric) => FlatMap(m.byFeature, ChatEventOf(m.day, m.userId))
  }

  function RecordAdoptionEvents(): Metric -> seq<AdoptionEvent>
  {
    (m: Metric) => FlatMap(m.byFeature, AdoptionEventOf(m.userId))
  }

  // The calls over all kept records.

  function LogsOf(ks: seq<Metric>, remove: bool): CallLogs
  {
    CallLogs(FlatMap(ks, RecordStatsCalls(remove)), FlatMap(ks, RecordModelUsageCalls()), FlatMap(ks, RecordImpactCalls()))
  }

  function LanguageEventsOf(ks: seq<Metric>, remove: bool): seq<LanguageEvent>
  {
    FlatMap(ks, RecordLanguageEvents(remove))
  }

  function ChatEventsOf(ks: seq<Metric>): seq<ChatEvent>
  {
    FlatMap(ks, RecordChatEvents())
  }

  function AdoptionEventsOf(ks: seq<Metric>): seq<AdoptionEvent>
  {
    FlatMap(ks, RecordAdoptionEvents())
  }

  // ---------------------------------------------------------------- the result

  /** `AggregatedMetrics`. The stats are the count of kept records, the report days of the
      first kept record and the calls to the stats accumulator; the model-usage and impact
      reports are the calls to their accumulators. */
  datatype Aggregated = Aggregated(
    filteredMetricsCount: int,
    reportStartDay: string,
    reportEndDay: string,
    statsCalls: seq<StatsCall>,
    userSummaries: seq<UserSummary>,
    engagementData: seq<DailyEngagementData>,
    chatUsersData: seq<DailyChatUsersData>,
    chatRequestsData: seq<DailyChatRequestsData>,
    languageStats: seq<LanguageStats>,
    featureAdoptionData: FeatureAdoptionData,
    modelUsageCalls: seq<ModelUsageCall>,
    impactCalls: seq<ImpactCall>)

  /** The result over the kept records `ks`. */
  function AggregateOf(ks: seq<Metric>, remove: bool): Aggregated
  {
    var logs := LogsOf(ks, remove);
    var chat := ChatOf(ChatEventsOf(ks));
    Aggregated(
      |ks|,
      if ks == [] then "" else ks[0].reportStartDay,
      if ks == [] then "" else ks[0].reportEndDay,
      logs.stats,
      ComputeUserSummaries(SummaryStateOf(ks)),
      ComputeEngagementData(EngagementOf(ks)),
      ComputeChatUsersData(chat),
      ComputeChatRequestsData(chat),
      ComputeLanguageStats(LanguagesOf(LanguageEventsOf(ks, remove))),
      Funnel(AdoptionOf(AdoptionEventsOf(ks))),
      logs.modelUsage,
      logs.impact)
  }

  // ---------------------------------------------------------------- the pass

  /** The accumulators hold what the kept records `ks` fed them. */
  ghost predicate Tracks(
    userAcc: UserSummaryAccumulator, engagementAcc: EngagementAccumulator, chatAcc: ChatAccumulator,
    languageAcc: LanguageAccumulator, adoptionAcc: FeatureAdoptionAccumulator, ks: seq<Metric>, remove: bool)
    reads userAcc, engagementAcc, chatAcc, languageAcc, adoptionAcc
  {
    && userAcc.Value() == SummaryStateOf(ks)
    && engagementAcc.Value() == EngagementOf(ks)
    && chatAcc.Value() == ChatOf(ChatEventsOf(ks))
    && languageAcc.languageStatsMap == LanguagesOf(LanguageEventsOf(ks, remove))
    && adoptionAcc.userFeatures == AdoptionOf(AdoptionEventsOf(ks))
  }

  /** The loop over `totals_by_ide`. */
  method ProcessIdeTotals(ideTotals: seq<IdeTotal>, userId: int, calls0: seq<StatsCall>) returns (calls: seq<StatsCall>)
    ensures calls == calls0 + FlatMap(ideTotals, IdeCall(userId))
  {
    calls := calls0;
    var j := 0;
    while j < |ideTotals|
      invariant 0 <= j <= |ideTotals| && calls == calls0 + FlatMap(ideTotals[..j], IdeCall(userId))
    {
      assert ideTotals[..j + 1][..j] == ideTotals[..j];
      calls := calls + [IdeUser(ideTotals[j].ide, userId)];
      j := j + 1;
    }
    assert ideTotals[..|ideTotals|] == ideTotals;
  }

  /** The loop over `totals_by_language_feature`. */
  method ProcessLanguageFeatures(languageAcc: LanguageAccumulator, metric: Metric, remove: bool,
      calls0: seq<StatsCall>, ghost es0: seq<LanguageEvent>)
    returns (calls: seq<StatsCall>)
    requires languageAcc.languageStatsMap == LanguagesOf(es0)
    modifies languageAcc
    ensures calls == calls0 + FlatMap(metric.byLanguageFeature, LanguageCall(remove))
    ensures languageAcc.languageStatsMap == LanguagesOf(es0 + FlatMap(metric.byLanguageFeature, LanguageEventOf(metric.userId, remove)))
  {
    var xs := metric.byLanguageFeature;
    calls := calls0;
    var j := 0;
    ghost var es := es0;
    assert xs[..0] == [] && es0 + [] == es0 && calls0 + [] == calls0;
    while j < |xs|
      invariant 0 <= j <= |xs|
      invariant calls == calls0 + FlatMap(xs[..j], LanguageCall(remove))
      invariant es == es0 + FlatMap(xs[..j], LanguageEventOf(metric.userId, remove))
      invariant languageAcc.languageStatsMap == LanguagesOf(es)
    {
      FlatMapStep(xs, j, LanguageCall(remove), calls0, calls);
      FlatMapStep(xs, j, LanguageEventOf(metric.userId, remove), es0, es);
      calls := ProcessLanguageFeature(languageAcc, metric.userId, xs[j], remove, calls, es);
      es := es + LanguageEventOf(metric.userId, remove)(xs[j]);
      j := j + 1;
    }
    assert xs[..|xs|] == xs;
  }

  /** One language fragment: a filtered language is skipped; otherwise it feeds the stats
      and the language statistics. */
  method ProcessLanguageFeature(languageAcc: LanguageAccumulator, userId: int, langFeature: LanguageFeatureTotal, remove: bool,
      calls0: seq<StatsCall>, ghost es: seq<LanguageEvent>)
    returns (calls: seq<StatsCall>)
    requires languageAcc.languageStatsMap == LanguagesOf(es)
    modifies languageAcc
    ensures calls == calls0 + LanguageCall(remove)(langFeature)
    ensures languageAcc.languageStatsMap == LanguagesOf(es + LanguageEventOf(userId, remove)(langFeature))
  {
    calls := calls0;
    LanguageEventStep(es, userId, remove, langFeature);
    if ShouldFilterLanguage(langFeature.language, remove) {
      assert LanguageCall(remove)(langFeature) == [];
      return;
    }
    var engagements := langFeature.generations + langFeature.acceptances;
    calls := calls + [LanguageEngagement(langFeature.language, engagements)];
    AccumulateLanguageStats(languageAcc, userId, langFeature.language,
      langFeature.generations, langFeature.acceptances, langFeature.locAdded,
      langFeature.locDeleted, langFeature.locSuggestedToAdd, langFeature.locSuggestedToDelete);
  }

  /** The language statistics after one fragment: unchanged when the fragment is filtered
      out, one accumulation step otherwise. */
  lemma LanguageEventStep(es: seq<LanguageEvent>, userId: int, remove: bool, x: LanguageFeatureTotal)
    ensures ShouldFilterLanguage(x.language, remove) ==>
      LanguagesOf(es + LanguageEventOf(userId, remove)(x)) == LanguagesOf(es)
    ensures !ShouldFilterLanguage(x.language, remove) ==>
      LanguagesOf(es + LanguageEventOf(userId, remove)(x)) == AddLanguage(LanguagesOf(es), LanguageEvent(userId, x.language,
        LanguageTotals(x.generations, x.acceptances, x.locAdded, x.locDeleted, x.locSuggestedToAdd, x.locSuggestedToDelete)))
  {
    if ShouldFilterLanguage(x.language, remove) {
      assert es + [] == es;
    } else {
      LanguagesOfSnoc(es, LanguageEvent(userId, x.language,
        LanguageTotals(x.generations, x.acceptances, x.locAdded, x.locDeleted, x.locSuggestedToAdd, x.locSuggestedToDelete)));
    }
  }

  /** The loop over `totals_by_model_feature`. */
  method ProcessModelFeatures(metric: Metric, stats0: seq<StatsCall>, modelUsage0: seq<ModelUsageCall>)
    returns (stats: seq<StatsCall>, modelUsage: seq<ModelUsageCall>)
    ensures stats == stats0 + FlatMap(metric.byModelFeature, ModelStatsCall())
    ensures modelUsage == modelUsage0 + FlatMap(metric.byModelFeature, ModelFeatureCallOf(metric.day, metric.userId))
  {
    var xs := metric.byModelFeature;
    stats, modelUsage := stats0, modelUsage0;
    var j := 0;
    while j < |xs|
      invariant 0 <= j <= |xs|
      invariant stats == stats0 + FlatMap(xs[..j], ModelStatsCall())
      invariant modelUsage == modelUsage0 + FlatMap(xs[..j], ModelFeatureCallOf(metric.day, metric.userId))
    {
      assert xs[..j + 1][..j] == xs[..j];
      var modelFeature := xs[j];
      var engagements := modelFeature.generations + modelFeature.acceptances;
      stats := stats + [ModelEngagement(modelFeature.model, engagements)];
      modelUsage := modelUsage + [ModelFeatureCall(metric.day, metric.userId, modelFeature.model, modelFeature.feature, modelFeature.interactions)];
      j := j + 1;
    }
    assert xs[..|xs|] == xs;
  }

  /** The loop over `totals_by_feature`: adoption, chat and heatmap calls per fragment, and
      the fragment's line counts collected for the impact accumulator. */
  method ProcessFeatures(adoptionAcc: FeatureAdoptionAccumulator, chatAcc: ChatAccumulator, metric: Metric,
      modelUsage0: seq<ModelUsageCall>, ghost as0: seq<AdoptionEvent>, ghost cs0: seq<ChatEvent>)
    returns (modelUsage: seq<ModelUsageCall>, featureImpacts: seq<FeatureImpact>)
    requires adoptionAcc.userFeatures == AdoptionOf(as0)
    requires chatAcc.Value() == ChatOf(cs0)
    modifies adoptionAcc, chatAcc
    ensures adoptionAcc.userFeatures == AdoptionOf(as0 + FlatMap(metric.byFeature, AdoptionEventOf(metric.userId)))
    ensures chatAcc.Value() == ChatOf(cs0 + FlatMap(metric.byFeature, ChatEventOf(metric.day, metric.userId)))
    ensures modelUsage == modelUsage0 + FlatMap(metric.byFeature, HeatmapCallOf(metric.day, metric.userId))
    ensures featureImpacts == FlatMap(metric.byFeature, ImpactOf())
  {
    var xs := metric.byFeature;
    modelUsage, featureImpacts := modelUsage0, [];
    var j := 0;
    ghost var aes, ces := as0, cs0;
    assert xs[..0] == [] && as0 + [] == as0 && cs0 + [] == cs0 && modelUsage0 + [] == modelUsage0;
    while j < |xs|
      invariant 0 <= j <= |xs|
      invariant aes == as0 + FlatMap(xs[..j], AdoptionEventOf(metric.userId))
      invariant ces == cs0 + FlatMap(xs[..j], ChatEventOf(metric.day, metric.userId))
      invariant adoptionAcc.userFeatures == AdoptionOf(aes)
      invariant chatAcc.Value() == ChatOf(ces)
      invariant modelUsage == modelUsage0 + FlatMap(xs[..j], HeatmapCallOf(metric.day, metric.userId))
      invariant featureImpacts == [] + FlatMap(xs[..j], ImpactOf())
    {
      aes, ces := FeatureEventsStep(adoptionAcc, chatAcc, metric, j, as0, cs0, aes, ces);
      modelUsage, featureImpacts := FeatureCallsStep(metric, j, modelUsage0, modelUsage, featureImpacts);
      j := j + 1;
    }
    assert xs[..|xs|] == xs;
  }

  /** The adoption and chat steps for fragment `j`, after those of the fragments before it. */
  method FeatureEventsStep(adoptionAcc: FeatureAdoptionAccumulator, chatAcc: ChatAccumulator, metric: Metric, j: int,
      ghost as0: seq<AdoptionEvent>, ghost cs0: seq<ChatEvent>, ghost aes: seq<AdoptionEvent>, ghost ces: seq<ChatEvent>)
    returns (ghost aes': seq<AdoptionEvent>, ghost ces': seq<ChatEvent>)
    requires 0 <= j < |metric.byFeature|
    requires aes == as0 + FlatMap(metric.byFeature[..j], AdoptionEventOf(metric.userId))
    requires ces == cs0 + FlatMap(metric.byFeature[..j], ChatEventOf(metric.day, metric.userId))
    requires adoptionAcc.userFeatures == AdoptionOf(aes)
    requires chatAcc.Value() == ChatOf(ces)
    modifies adoptionAcc, chatAcc
    ensures aes' == as0 + FlatMap(metric.byFeature[..j + 1], AdoptionEventOf(metric.userId))
    ensures ces' == cs0 + FlatMap(metric.byFeature[..j + 1], ChatEventOf(metric.day, metric.userId))
    ensures adoptionAcc.userFeatures == AdoptionOf(aes')
    ensures chatAcc.Value() == ChatOf(ces')
  {
    var xs := metric.byFeature;
    FlatMapStep(xs, j, AdoptionEventOf(metric.userId), as0, aes);
    FlatMapStep(xs, j, ChatEventOf(metric.day, metric.userId), cs0, ces);
    var feature := xs[j];
    aes', ces' := aes + AdoptionEventOf(metric.userId)(feature), ces + ChatEventOf(metric.day, metric.userId)(feature);
    AccumulateAdoptionStep(adoptionAcc, metric.userId, feature, aes, aes');
    AccumulateChatStep(chatAcc, metric.day, metric.userId, feature, ces, ces');
  }

  /** The heatmap call and the line counts of fragment `j`, appended to those of the
      fragments before it. */
  method FeatureCallsStep(metric: Metric, j: int, modelUsage0: seq<ModelUsageCall>,
      modelUsage1: seq<ModelUsageCall>, featureImpacts1: seq<FeatureImpact>)
    returns (modelUsage: seq<ModelUsageCall>, featureImpacts: seq<FeatureImpact>)
    requires 0 <= j < |metric.byFeature|
    requires modelUsage1 == modelUsage0 + FlatMap(metric.byFeature[..j], HeatmapCallOf(metric.day, metric.userId))
    requires featureImpacts1 == [] + FlatMap(metric.byFeature[..j], ImpactOf())
    ensures modelUsage == modelUsage0 + FlatMap(metric.byFeature[..j + 1], HeatmapCallOf(metric.day, metric.userId))
    ensures featureImpacts == [] + FlatMap(metric.byFeature[..j + 1], ImpactOf())
  {
    var xs := metric.byFeature;
    FlatMapStep(xs, j, HeatmapCallOf(metric.day, metric.userId), modelUsage0, modelUsage1);
    FlatMapStep(xs, j, ImpactOf(), [], featureImpacts1);
    var feature := xs[j];
    modelUsage := modelUsage1 + [AgentHeatmapCall(metric.day, metric.userId, feature.feature, feature.interactions)];
    featureImpacts := featureImpacts1 + [FeatureImpact(feature.feature, OrZero(feature.locAdded), OrZero(feature.locDeleted))];
  }

  /** `accumulateFeatureAdoption` for one fragment, as one more adoption event. */
  method AccumulateAdoptionStep(adoptionAcc: FeatureAdoptionAccumulator, userId: int, feature: FeatureTotal,
      ghost es: seq<AdoptionEvent>, ghost es': seq<AdoptionEvent>)
    requires adoptionAcc.userFeatures == AdoptionOf(es)
    requires es' == es + AdoptionEventOf(userId)(feature)
    modifies adoptionAcc
    ensures adoptionAcc.userFeatures == AdoptionOf(es')
  {
    ghost var e := AdoptionEvent(userId, feature.feature, feature.interactions, feature.generations);
    assert (es + [e])[..|es|] == es;
    AccumulateFeatureAdoption(adoptionAcc, userId, feature.feature, feature.interactions, feature.generations);
  }

  /** `accumulateChatFeature` for one fragment, as one more chat event. */
  method AccumulateChatStep(chatAcc: ChatAccumulator, date: string, userId: int, feature: FeatureTotal,
      ghost es: seq<ChatEvent>, ghost es': seq<ChatEvent>)
    requires chatAcc.Value() == ChatOf(es)
    requires es' == es + ChatEventOf(date, userId)(feature)
    modifies chatAcc
    ensures chatAcc.Value() == ChatOf(es')
  {
    ghost var e := ChatEvent(date, userId, feature.feature, feature.interactions);
    assert (es + [e])[..|es|] == es;
    AccumulateChatFeature(chatAcc, date, userId, feature.feature, feature.interactions);
  }

  /** The user summaries and the engagement over `ks + [m]`: those over `ks`, then `m`. */
  lemma StatesSnoc(ks: seq<Metric>, m: Metric)
    ensures SummaryStateOf(ks + [m]) == AddUserSummary(SummaryStateOf(ks), m)
    ensures EngagementOf(ks + [m]) == AddEngagement(EngagementOf(ks), m.day, m.userId)
  {
    assert (ks + [m])[..|ks|] == ks;
  }

  /** The events over `ks + [m]`: those over `ks`, then `m`'s. */
  lemma EventsSnoc(ks: seq<Metric>, m: Metric, remove: bool)
    ensures ChatEventsOf(ks + [m]) == ChatEventsOf(ks) + FlatMap(m.byFeature, ChatEventOf(m.day, m.userId))
    ensures LanguageEventsOf(ks + [m], remove) == LanguageEventsOf(ks, remove) + FlatMap(m.byLanguageFeature, LanguageEventOf(m.userId, remove))
    ensures AdoptionEventsOf(ks + [m]) == AdoptionEventsOf(ks) + FlatMap(m.byFeature, AdoptionEventOf(m.userId))
  {
    FlatMapSnoc(ks, m, RecordLanguageEvents(remove));
    FlatMapSnoc(ks, m, RecordChatEvents());
    FlatMapSnoc(ks, m, RecordAdoptionEvents());
  }

  /** The stats calls over `ks + [m]`: those over `ks`, then `m`'s, in the pass's order. */
  lemma StatsLogSnoc(ks: seq<Metric>, m: Metric, remove: bool)
    ensures LogsOf(ks + [m], remove).stats
      == LogsOf(ks, remove).stats + [UserUsage(m.userId, m.usedChat, m.usedAgent)] + FlatMap(m.byIde, IdeCall(m.userId))
         + FlatMap(m.byLanguageFeature, LanguageCall(remove)) + FlatMap(m.byModelFeature, ModelStatsCall())
  {
    FlatMapSnoc(ks, m, RecordStatsCalls(remove));
    var u, i, l, d := [UserUsage(m.userId, m.usedChat, m.usedAgent)], FlatMap(m.byIde, IdeCall(m.userId)),
      FlatMap(m.byLanguageFeature, LanguageCall(remove)), FlatMap(m.byModelFeature, ModelStatsCall());
    assert RecordStatsCalls(remove)(m) == u + i + l + d;
    AppendAssoc4(FlatMap(ks, RecordStatsCalls(remove)), u, i, l, d);
  }

  lemma AppendAssoc4<T>(s: seq<T>, a: seq<T>, b: seq<T>, c: seq<T>, d: seq<T>)
    ensures s + (a + b + c + d) == s + a + b + c + d
  {
  }

  /** The model-usage and impact calls over `ks + [m]`: those over `ks`, then `m`'s. */
  lemma OtherLogsSnoc(ks: seq<Metric>, m: Metric, remove: bool)
    ensures LogsOf(ks + [m], remove).modelUsage
      == LogsOf(ks, remove).modelUsage + FlatMap(m.byModelFeature, ModelFeatureCallOf(m.day, m.userId))
         + FlatMap(m.byFeature, HeatmapCallOf(m.day, m.userId))
    ensures LogsOf(ks + [m], remove).impact
      == LogsOf(ks, remove).impact + [EnsureImpactDates(m.day)] + [FeatureImpacts(m.day, m.userId, FlatMap(m.byFeature, ImpactOf()))]
  {
    FlatMapSnoc(ks, m, RecordModelUsageCalls());
    FlatMapSnoc(ks, m, RecordImpactCalls());
  }

  /** The body of the pass for a kept record. */
  method ProcessMetric(
      userAcc: UserSummaryAccumulator, engagementAcc: EngagementAccumulator, chatAcc: ChatAccumulator,
      languageAcc: LanguageAccumulator, adoptionAcc: FeatureAdoptionAccumulator,
      metric: Metric, remove: bool, ghost ks: seq<Metric>, logs0: CallLogs)
    returns (logs: CallLogs)
    requires Tracks(userAcc, engagementAcc, chatAcc, languageAcc, adoptionAcc, ks, remove)
    requires logs0 == LogsOf(ks, remove)
    modifies userAcc, engagementAcc, chatAcc, languageAcc, adoptionAcc
    ensures Tracks(userAcc, engagementAcc, chatAcc, languageAcc, adoptionAcc, ks + [metric], remove)
    ensures logs == LogsOf(ks + [metric], remove)
  {
    AccumulateStates(userAcc, engagementAcc, metric, ks);
    var stats := logs0.stats + [UserUsage(metric.userId, metric.usedChat, metric.usedAgent)];
    var impact := logs0.impact + [EnsureImpactDates(metric.day)];
    logs := ProcessFragments(chatAcc, languageAcc, adoptionAcc, metric, remove, CallLogs(stats, logs0.modelUsage, impact),
      LanguageEventsOf(ks, remove), ChatEventsOf(ks), AdoptionEventsOf(ks));
    EventsSnoc(ks, metric, remove);
    StatsLogSnoc(ks, metric, remove);
    OtherLogsSnoc(ks, metric, remove);
  }

  /** `accumulateUserSummary` and `accumulateEngagement` for a kept record. */
  method AccumulateStates(userAcc: UserSummaryAccumulator, engagementAcc: EngagementAccumulator, metric: Metric, ghost ks: seq<Metric>)
    requires userAcc.Value() == SummaryStateOf(ks) && engagementAcc.Value() == EngagementOf(ks)
    modifies userAcc, engagementAcc
    ensures userAcc.Value() == SummaryStateOf(ks + [metric]) && engagementAcc.Value() == EngagementOf(ks + [metric])
  {
    StatesSnoc(ks, metric);
    AccumulateUserSummary(userAcc, metric);
    AccumulateEngagement(engagementAcc, metric.day, metric.userId);
  }

  /** The record's fragments, after its user summary and engagement: the IDE, language,
      model and feature loops, then the record's impact call. */
  method ProcessFragments(
      chatAcc: ChatAccumulator, languageAcc: LanguageAccumulator, adoptionAcc: FeatureAdoptionAccumulator,
      metric: Metric, remove: bool, logs0: CallLogs,
      ghost les: seq<LanguageEvent>, ghost ces: seq<ChatEvent>, ghost aes: seq<AdoptionEvent>)
    returns (logs: CallLogs)
    requires chatAcc.Value() == ChatOf(ces)
    requires languageAcc.languageStatsMap == LanguagesOf(les)
    requires adoptionAcc.userFeatures == AdoptionOf(aes)
    modifies chatAcc, languageAcc, adoptionAcc
    ensures chatAcc.Value() == ChatOf(ces + FlatMap(metric.byFeature, ChatEventOf(metric.day, metric.userId)))
    ensures languageAcc.languageStatsMap == LanguagesOf(les + FlatMap(metric.byLanguageFeature, LanguageEventOf(metric.userId, remove)))
    ensures adoptionAcc.userFeatures == AdoptionOf(aes + FlatMap(metric.byFeature, AdoptionEventOf(metric.userId)))
    ensures logs.stats == logs0.stats + FlatMap(metric.byIde, IdeCall(metric.userId))
      + FlatMap(metric.byLanguageFeature, LanguageCall(remove)) + FlatMap(metric.byModelFeature, ModelStatsCall())
    ensures logs.modelUsage == logs0.modelUsage + FlatMap(metric.byModelFeature, ModelFeatureCallOf(metric.day, metric.userId))
      + FlatMap(metric.byFeature, HeatmapCallOf(metric.day, metric.userId))
    ensures logs.impact == logs0.impact + [FeatureImpacts(metric.day, metric.userId, FlatMap(metric.byFeature, ImpactOf()))]
  {
    var stats := ProcessIdeTotals(metric.byIde, metric.userId, logs0.stats);
    stats := ProcessLanguageFeatures(languageAcc, metric, remove, stats, les);
    var modelUsage;
    stats, modelUsage := ProcessModelFeatures(metric, stats, logs0.modelUsage);
    var featureImpacts;
    modelUsage, featureImpacts := ProcessFeatures(adoptionAcc, chatAcc, metric, modelUsage, aes, ces);
    logs := CallLogs(stats, modelUsage, logs0.impact + [FeatureImpacts(metric.day, metric.userId, featureImpacts)]);
  }

  /** The pass's running values hold what the kept records `ks` give: their count, the
      report days of the first of them, the calls to the abstract accumulators and the
      contents of the others. */
  ghost predicate Summarizes(
      filteredMetricsCount: int, reportStartDay: string, reportEndDay: string, logs: CallLogs,
      userAcc: UserSummaryAccumulator, engagementAcc: EngagementAccumulator, chatAcc: ChatAccumulator,
      languageAcc: LanguageAccumulator, adoptionAcc: FeatureAdoptionAccumulator, ks: seq<Metric>, remove: bool)
    reads userAcc, engagementAcc, chatAcc, languageAcc, adoptionAcc
  {
    && filteredMetricsCount == |ks|
    && reportStartDay == (if ks == [] then "" else ks[0].reportStartDay)
    && reportEndDay == (if ks == [] then "" else ks[0].reportEndDay)
    && logs == LogsOf(ks, remove)
    && Tracks(userAcc, engagementAcc, chatAcc, languageAcc, adoptionAcc, ks, remove)
  }

  /** One turn of the pass: a record outside the window is skipped; a kept one is counted,
      gives the report days when it is the first, and is processed. */
  method VisitMetric(
      userAcc: UserSummaryAccumulator, engagementAcc: EngagementAccumulator, chatAcc: ChatAccumulator,
      languageAcc: LanguageAccumulator, adoptionAcc: FeatureAdoptionAccumulator,
      metric: Metric, window: Option<DateRange>, remove: bool,
      count0: int, start0: string, end0: string, logs0: CallLogs, ghost ks: seq<Metric>, ghost ks': seq<Metric>)
    returns (filteredMetricsCount: int, reportStartDay: string, reportEndDay: string, logs: CallLogs)
    requires Summarizes(count0, start0, end0, logs0, userAcc, engagementAcc, chatAcc, languageAcc, adoptionAcc, ks, remove)
    requires ks' == ks + (if InWindow(window, metric.day) then [metric] else [])
    modifies userAcc, engagementAcc, chatAcc, languageAcc, adoptionAcc
    ensures Summarizes(filteredMetricsCount, reportStartDay, reportEndDay, logs, userAcc, engagementAcc, chatAcc,
      languageAcc, adoptionAcc, ks', remove)
  {
    filteredMetricsCount, reportStartDay, reportEndDay, logs := count0, start0, end0, logs0;
    if window.Some? {
      var range := window.value;
      if StrLt(metric.day, range.startDay) || StrLt(range.endDay, metric.day) {
        assert ks + [] == ks;
        return;
      }
    }
    filteredMetricsCount := filteredMetricsCount + 1;
    if filteredMetricsCount == 1 {
      reportStartDay := metric.reportStartDay;
      reportEndDay := metric.reportEndDay;
    }
    logs := ProcessMetric(userAcc, engagementAcc, chatAcc, languageAcc, adoptionAcc, metric, remove, ks, logs);
  }

  /** `aggregateMetrics`: the reports over the records inside the date window. */
  method AggregateMetrics(metrics: seq<Metric>, options: Options, dateRange: (string, string) -> DateRange)
    returns (r: Aggregated)
    ensures r == AggregateOf(Kept(metrics, WindowOf(options, dateRange)), options.removeUnknownLanguages)
  {
    var remove := options.removeUnknownLanguages;
    var filteredMetricsCount := 0;
    var window := WindowOf(options, dateRange);
    var reportStartDay, reportEndDay := "", "";
    var userAcc, engagementAcc, chatAcc, languageAcc, adoptionAcc := NewAccumulators(remove);
    var logs := CallLogs([], [], []);
    var i := 0;
    assert metrics[..0] == [];
    while i < |metrics|
      invariant 0 <= i <= |metrics|
      invariant Summarizes(filteredMetricsCount, reportStartDay, reportEndDay, logs,
        userAcc, engagementAcc, chatAcc, languageAcc, adoptionAcc, Kept(metrics[..i], window), remove)
    {
      KeptStep(metrics, i, window);
      filteredMetricsCount, reportStartDay, reportEndDay, logs := VisitMetric(userAcc, engagementAcc, chatAcc, languageAcc, adoptionAcc,
        metrics[i], window, remove, filteredMetricsCount, reportStartDay, reportEndDay, logs,
        Kept(metrics[..i], window), Kept(metrics[..i + 1], window));
      i := i + 1;
    }
    assert metrics[..|metrics|] == metrics;
    r := Results(userAcc, engagementAcc, chatAcc, languageAcc, adoptionAcc,
      filteredMetricsCount, reportStartDay, reportEndDay, logs, Kept(metrics, window), remove);
  }

  lemma KeptStep(metrics: seq<Metric>, i: int, window: Option<DateRange>)
    requires 0 <= i < |metrics|
    ensures Kept(metrics[..i + 1], window)
      == Kept(metrics[..i], window) + (if InWindow(window, metrics[i].day) then [metrics[i]] else [])
  {
    assert metrics[..i + 1] == metrics[..i] + [metrics[i]];
    KeptSnoc(metrics[..i], metrics[i], window);
  }

  /** The empty accumulators, holding what no records give. */
  method NewAccumulators(remove: bool)
    returns (userAcc: UserSummaryAccumulator, engagementAcc: EngagementAccumulator, chatAcc: ChatAccumulator,
      languageAcc: LanguageAccumulator, adoptionAcc: FeatureAdoptionAccumulator)
    ensures fresh(userAcc) && fresh(engagementAcc) && fresh(chatAcc) && fresh(languageAcc) && fresh(adoptionAcc)
    ensures Summarizes(0, "", "", CallLogs([], [], []), userAcc, engagementAcc, chatAcc, languageAcc, adoptionAcc, [], remove)
  {
    userAcc := new UserSummaryAccumulator();
    engagementAcc := new EngagementAccumulator();
    chatAcc := new ChatAccumulator();
    languageAcc := new LanguageAccumulator();
    adoptionAcc := new FeatureAdoptionAccumulator();
  }

  /** The reports the accumulators give once every kept record has been fed to them. */
  method Results(
      userAcc: UserSummaryAccumulator, engagementAcc: EngagementAccumulator, chatAcc: ChatAccumulator,
      languageAcc: LanguageAccumulator, adoptionAcc: FeatureAdoptionAccumulator,
      filteredMetricsCount: int, reportStartDay: string, reportEndDay: string, logs: CallLogs, ghost ks: seq<Metric>, remove: bool)
    returns (r: Aggregated)
    requires Summarizes(filteredMetricsCount, reportStartDay, reportEndDay, logs,
      userAcc, engagementAcc, chatAcc, languageAcc, adoptionAcc, ks, remove)
    ensures r == AggregateOf(ks, remove)
  {
    var featureAdoptionData := ComputeFeatureAdoptionData(adoptionAcc);
    r := Aggregated(
      filteredMetricsCount, reportStartDay, reportEndDay, logs.stats,
      ComputeUserSummaries(userAcc.Value()),
      ComputeEngagementData(engagementAcc.Value()),
      ComputeChatUsersData(chatAcc.Value()),
      ComputeChatRequestsData(chatAcc.Value()),
      ComputeLanguageStats(languageAcc.languageStatsMap),
      featureAdoptionData,
      logs.modelUsage,
      logs.impact);
  }

  // ---------------------------------------------------------------- properties of the pass

  /** A record is kept exactly when it is one of the input records and inside the window. */
  lemma KeptRecords(ms: seq<Metric>, window: Option<DateRange>, m: Metric)
    ensures m in Kept(ms, window) <==> m in ms && InWindow(window, m.day)
  {
    FilterMembers(ms, InWindowOf(window), m);
  }

  /** Without a date filter other than "all", or without a report end day, every record is
      kept. */
  lemma UnfilteredKeepsAll(ms: seq<Metric>, options: Options, dateRange: (string, string) -> DateRange)
    requires || options.dateFilter.None? || options.dateFilter == Some("") || options.dateFilter == Some("all")
             || options.reportEndDay.None? || options.reportEndDay == Some("")
    ensures Kept(ms, WindowOf(options, dateRange)) == ms
  {
    FilterAll(ms, InWindowOf(WindowOf(options, dateRange)));
  }

  /** A record outside the window changes nothing in the result, wherever it stands. */
  lemma SkippedRecordInvisible(p: seq<Metric>, m: Metric, q: seq<Metric>, window: Option<DateRange>, remove: bool)
    requires !InWindow(window, m.day)
    ensures Kept(p + [m] + q, window) == Kept(p + q, window)
    ensures AggregateOf(Kept(p + [m] + q, window), remove) == AggregateOf(Kept(p + q, window), remove)
  {
    var f := InWindowOf(window);
    FilterAppend(p + [m], q, f);
    FilterAppend(p, [m], f);
    FilterAppend(p, q, f);
    assert Filter([m], f) == [] + Filter([m][1..], f);
  }

  /** The report days are those of the first record inside the window. */
  lemma ReportDaysFromFirstKept(ms: seq<Metric>, window: Option<DateRange>, remove: bool, i: int)
    requires 0 <= i < |ms| && InWindow(window, ms[i].day)
    requires forall k :: 0 <= k < i ==> !InWindow(window, ms[k].day)
    ensures var r := AggregateOf(Kept(ms, window), remove);
      r.reportStartDay == ms[i].reportStartDay && r.reportEndDay == ms[i].reportEndDay && r.filteredMetricsCount > 0
  {
    FilterHead(ms, InWindowOf(window), i);
  }

  /** With no record inside the window, nothing is counted and nothing is fed to the
      accumulators; the report days are empty. */
  lemma NothingKept(ms: seq<Metric>, window: Option<DateRange>, remove: bool)
    requires forall k :: 0 <= k < |ms| ==> !InWindow(window, ms[k].day)
    ensures var r := AggregateOf(Kept(ms, window), remove);
      && r.filteredMetricsCount == 0 && r.reportStartDay == "" && r.reportEndDay == ""
      && r.statsCalls == [] && r.modelUsageCalls == [] && r.impactCalls == []
  {
    FilterNone(ms, InWindowOf(window));
  }

  /** No language event of the pass is for a filtered language. */
  lemma NoFilteredLanguageEvent(ks: seq<Metric>, remove: bool, l: string, e: LanguageEvent)
    requires ShouldFilterLanguage(l, remove) && e in LanguageEventsOf(ks, remove)
    ensures e.language != l
  {
    FlatMapMember(ks, RecordLanguageEvents(remove), e);
    var i :| 0 <= i < |ks| && e in RecordLanguageEvents(remove)(ks[i]);
    var m := ks[i];
    assert e in FlatMap(m.byLanguageFeature, LanguageEventOf(m.userId, remove));
    FlatMapMember(m.byLanguageFeature, LanguageEventOf(m.userId, remove), e);
    var j :| 0 <= j < |m.byLanguageFeature| && e in LanguageEventOf(m.userId, remove)(m.byLanguageFeature[j]);
    var x := m.byLanguageFeature[j];
    assert !ShouldFilterLanguage(x.language, remove) && e.language == x.language;
  }

  /** No stats call of the pass reports engagement for a filtered language. */
  lemma NoFilteredLanguageCall(ks: seq<Metric>, remove: bool, l: string, n: int)
    requires ShouldFilterLanguage(l, remove)
    ensures LanguageEngagement(l, n) !in LogsOf(ks, remove).stats
  {
    var c := LanguageEngagement(l, n);
    if c in LogsOf(ks, remove).stats {
      FlatMapMember(ks, RecordStatsCalls(remove), c);
      var i :| 0 <= i < |ks| && c in RecordStatsCalls(remove)(ks[i]);
      var m := ks[i];
      if c in FlatMap(m.byIde, IdeCall(m.userId)) {
        FlatMapMember(m.byIde, IdeCall(m.userId), c);
      } else if c in FlatMap(m.byModelFeature, ModelStatsCall()) {
        FlatMapMember(m.byModelFeature, ModelStatsCall(), c);
      } else {
        assert c in FlatMap(m.byLanguageFeature, LanguageCall(remove));
        FlatMapMember(m.byLanguageFeature, LanguageCall(remove), c);
      }
    }
  }

  /** A filtered language gets no language statistics row and no engagement in the stats. */
  lemma FilteredLanguageIgnored(ks: seq<Metric>, remove: bool, l: string)
    requires ShouldFilterLanguage(l, remove)
    ensures var r := AggregateOf(ks, remove);
      && (forall j :: 0 <= j < |r.languageStats| ==> r.languageStats[j].language != l)
      && (forall n :: LanguageEngagement(l, n) !in r.statsCalls)
  {
    var es := LanguageEventsOf(ks, remove);
    LanguagesOfContents(es);
    forall e | e in es ensures e.language != l {
      NoFilteredLanguageEvent(ks, remove, l, e);
    }
    assert l !in LanguagesOf(es).values.Keys;
    forall n ensures LanguageEngagement(l, n) !in AggregateOf(ks, remove).statsCalls {
      NoFilteredLanguageCall(ks, remove, l, n);
    }
  }

  /** A `FlatMap` of one item per element lists those items in order. */
  lemma {:induction false} FlatMapOnes<X, T>(xs: seq<X>, f: X -> seq<T>)
    requires forall x :: |f(x)| == 1
    ensures |FlatMap(xs, f)| == |xs|
    ensures forall i :: 0 <= i < |xs| ==> FlatMap(xs, f)[i] == f(xs[i])[0]
  {
    if xs != [] {
      var n := |xs| - 1;
      FlatMapOnes(xs[..n], f);
    }
  }

  /** The impact accumulator gets one feature-impact entry per feature fragment, in order,
      an absent line count taken as 0. */
  lemma ImpactsOfFeatures(fs: seq<FeatureTotal>)
    ensures |FlatMap(fs, ImpactOf())| == |fs|
    ensures forall i :: 0 <= i < |fs| ==>
      FlatMap(fs, ImpactOf())[i] == FeatureImpact(fs[i].feature, OrZero(fs[i].locAdded), OrZero(fs[i].locDeleted))
  {
    FlatMapOnes(fs, ImpactOf());
  }

  /** Every kept record makes exactly two impact calls, in order: one for its date, then one
      with its user and its fragments' line counts. */
  lemma ImpactOncePerRecord(ks: seq<Metric>, remove: bool)
    ensures var calls := LogsOf(ks, remove).impact;
      && |calls| == 2 * |ks|
      && forall k :: 0 <= k < |ks| ==>
        calls[2 * k] == EnsureImpactDates(ks[k].day)
        && calls[2 * k + 1] == FeatureImpacts(ks[k].day, ks[k].userId, FlatMap(ks[k].byFeature, ImpactOf()))
  {
    ImpactCallPairs(ks);
  }

  lemma {:induction false} ImpactCallPairs(ks: seq<Metric>)
    ensures var calls := FlatMap(ks, RecordImpactCalls());
      && |calls| == 2 * |ks|
      && forall k :: 0 <= k < |ks| ==>
        calls[2 * k] == EnsureImpactDates(ks[k].day)
        && calls[2 * k + 1] == FeatureImpacts(ks[k].day, ks[k].userId, FlatMap(ks[k].byFeature, ImpactOf()))
  {
    if ks != [] {
      var n := |ks| - 1;
      var p, m := ks[..n], ks[n];
      ImpactCallPairs(p);
      assert ks == p + [m];
      FlatMapSnoc(p, m, RecordImpactCalls());
      var calls0, calls := FlatMap(p, RecordImpactCalls()), FlatMap(ks, RecordImpactCalls());
      assert calls == calls0 + [EnsureImpactDates(m.day), FeatureImpacts(m.day, m.userId, FlatMap(m.byFeature, ImpactOf()))];
      forall k | 0 <= k < n
        ensures calls[2 * k] == EnsureImpactDates(ks[k].day)
        ensures calls[2 * k + 1] == FeatureImpacts(ks[k].day, ks[k].userId, FlatMap(ks[k].byFeature, ImpactOf()))
      {
        assert calls[2 * k] == calls0[2 * k] && calls[2 * k + 1] == calls0[2 * k + 1];
        assert ks[k] == p[k];
      }
    }
  }
}
