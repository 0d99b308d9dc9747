/** One usage record per user per day, as the aggregation layer reads it. Counts are
    JavaScript numbers holding integers, so they are modelled as `int`. */
module MetricTypes {
  import opened Common

  datatype PluginInfo = PluginInfo(sampledAt: string, plugin: string, pluginVersion: string)

  /** An entry of `totals_by_ide`; the core reads only the IDE name and the plugin strings. */
  datatype IdeTotal = IdeTotal(ide: string, lastKnownPlugin: Option<PluginInfo>)

  /** An entry of `totals_by_feature`. Its line counts may be absent; the readers then use
      `|| 0`. */
  datatype FeatureTotal = FeatureTotal(
    feature: string,
    interactions: int,
    generations: int,
    acceptances: int,
    locAdded: Option<int>,
    locDeleted: Option<int>)

  /** An entry of `totals_by_language_feature`. */
  datatype LanguageFeatureTotal = LanguageFeatureTotal(
    language: string,
    feature: string,
    generations: int,
    acceptances: int,
    locAdded: int,
    locDeleted: int,
    locSuggestedToAdd: int,
    locSuggestedToDelete: int)

  /** An entry of `totals_by_language_model`; only its strings are read. */
  datatype LanguageModelTotal = LanguageModelTotal(language: string, model: string)

  /** An entry of `totals_by_model_feature`. */
  datatype ModelFeatureTotal = ModelFeatureTotal(
    model: string,
    feature: string,
    interactions: int,
    generations: int,
    acceptances: int)

  /** `CopilotMetrics`: the per-user-per-day record. The aggregator reads the `loc_*_sum`
      totals, the older parser reads `generated_loc_sum` and `accepted_loc_sum`. */
  datatype Metric = Metric(
    reportStartDay: string,
    reportEndDay: string,
    day: string,
    enterpriseId: string,
    userId: int,
    userLogin: string,
    interactions: int,
    generations: int,
    acceptances: int,
    locAdded: int,
    locDeleted: int,
    locSuggestedToAdd: int,
    locSuggestedToDelete: int,
    generatedLoc: int,
    acceptedLoc: int,
    byIde: seq<IdeTotal>,
    byFeature: seq<FeatureTotal>,
    byLanguageFeature: seq<LanguageFeatureTotal>,
    byLanguageModel: seq<LanguageModelTotal>,
    byModelFeature: seq<ModelFeatureTotal>,
    usedAgent: bool,
    usedChat: bool)

  /** `value || 0` on an optional count. */
  function OrZero(v: Option<int>): int
  {
    if v.Some? then v.value else 0
  }

  /** `{ name, engagements }` / `{ name, entries }`: the winner of a ranking. */
  datatype TopEntry = TopEntry(name: string, value: int)

  /** `MetricsStats` with the three rankings the calculators add to it. */
  datatype MetricsStats = MetricsStats(
    uniqueUsers: int,
    chatUsers: int,
    agentUsers: int,
    completionOnlyUsers: int,
    reportStartDay: string,
    reportEndDay: string,
    totalRecords: int,
    topLanguage: TopEntry,
    topIde: TopEntry,
    topModel: TopEntry)

  /** Feature identifiers the calculators single out. */
  const CodeCompletion := "code_completion"
  const ChatPanelUnknownMode := "chat_panel_unknown_mode"
  const ChatPanelAskMode := "chat_panel_ask_mode"
  const ChatPanelAgentMode := "chat_panel_agent_mode"
  const ChatPanelEditMode := "chat_panel_edit_mode"
  const ChatInline := "chat_inline"
  const CodeReview := "code_review"
  const AgentEdit := "agent_edit"
}
