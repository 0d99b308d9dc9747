/** `calculateStats` of the current calculators: the top IDE is the one with the most
    distinct users. */
module MetricCalculators {
  import opened Common
  import opened InsertionMap
  import opened Sorting
  import opened MetricTypes
  import opened UsageStats

  /** Zero counts and "N/A" winners on no records; otherwise the statistics of the records,
      with the IDE ranking by distinct users. */
  method CalculateStats(metrics: seq<Metric>) returns (r: MetricsStats)
    ensures metrics == [] ==> r == EmptyStats
    ensures metrics != [] ==> r == StatsOf(metrics, TopOf(SizeEntriesOf(IdeUsersOf(metrics))))
  {
    if |metrics| == 0 {
      return EmptyStats;
    }
    var userUsageMap := BuildUsage(metrics);
    var chatUsers, agentUsers, completionOnlyUsers := CountUserKinds(userUsageMap);
    var languageEngagements := BuildWeights(metrics, LanguageItems, LanguageKey, LanguageWeight);
    var topLanguage := TopOf(EntriesOf(languageEngagements));
    var ideUsers := BuildIdeUsers(metrics);
    var topIde := TopOf(SizeEntriesOf(ideUsers));
    var modelEngagements := BuildWeights(metrics, ModelItems, ModelKey, ModelWeight);
    var topModel := TopOf(EntriesOf(modelEngagements));
    var firstRecord := metrics[0];
    r := MetricsStats(
      |userUsageMap.keys|, chatUsers, agentUsers, completionOnlyUsers,
      firstRecord.reportStartDay, firstRecord.reportEndDay, |metrics|,
      topLanguage, topIde, topModel);
  }

  /** The distinct users with a record listing `ide`. */
  function IdeUserIds(ms: seq<Metric>, ide: string): set<int>
  {
    set m | m in ms && UsesIde(m, ide) :: m.userId
  }

  /** The top IDE is the first-seen IDE with the most distinct users, reported with that
      number of users. */
  lemma TopIdeByUsers(ms: seq<Metric>)
    requires IdeUsersOf(ms).keys != []
    ensures var e := IdeUsersOf(ms);
      exists i :: (
        && 0 <= i < |e.keys|
        && TopOf(SizeEntriesOf(e)) == TopEntry(e.keys[i], |IdeUserIds(ms, e.keys[i])|)
        && (forall j :: 0 <= j < |e.keys| ==> |IdeUserIds(ms, e.keys[j])| <= |IdeUserIds(ms, e.keys[i])|)
        && (forall j :: 0 <= j < i ==> |IdeUserIds(ms, e.keys[j])| < |IdeUserIds(ms, e.keys[i])|))
  {
    var e := IdeUsersOf(ms);
    forall j | 0 <= j < |e.keys|
      ensures |e.values[e.keys[j]]| == |IdeUserIds(ms, e.keys[j])|
    {
      IdeUsersOfContents(ms, e.keys[j]);
    }
    TopBySize(e, ide => |IdeUserIds(ms, ide)|);
  }

  /** Ranking the entries by the size of their sets ranks them by any measure that agrees
      with those sizes. */
  lemma TopBySize(e: IMap<string, set<int>>, size: string -> int)
    requires e.Valid() && e.keys != []
    requires forall j :: 0 <= j < |e.keys| ==> |e.values[e.keys[j]]| == size(e.keys[j])
    ensures exists i :: (
      && 0 <= i < |e.keys|
      && TopOf(SizeEntriesOf(e)) == TopEntry(e.keys[i], size(e.keys[i]))
      && (forall j :: 0 <= j < |e.keys| ==> size(e.keys[j]) <= size(e.keys[i]))
      && (forall j :: 0 <= j < i ==> size(e.keys[j]) < size(e.keys[i])))
  {
    var entries := SizeEntriesOf(e);
    var i := FirstMaxIndex(entries, TopValue);
    forall j | 0 <= j < |e.keys|
      ensures size(e.keys[j]) <= size(e.keys[i])
      ensures j < i ==> size(e.keys[j]) < size(e.keys[i])
    {
      assert TopValue(entries[j]) == size(e.keys[j]);
    }
  }
}
