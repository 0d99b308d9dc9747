/** The older whole-array reports: statistics with the IDE ranking by entry count, user
    summaries whose `days_active` counts records, and daily engagement. */
module MetricsParser {
  import opened Common
  import opened Text
  import opened InsertionMap
  import opened Sorting
  import opened MetricTypes
  import opened UsageStats
  import opened UserRecords
  import opened EngagementCalculator
  import UserSummaries

  // ---------------------------------------------------------------- calculateStats

  /** Zero counts and "N/A" winners on no records; otherwise the statistics of the records,
      with the IDE ranking by the number of IDE entries. */
  method CalculateStats(metrics: seq<Metric>) returns (r: MetricsStats)
    ensures metrics == [] ==> r == EmptyStats
    ensures metrics != [] ==> r == StatsOf(metrics, TopOf(EntriesOf(IdeEntriesOf(metrics))))
  {
    if |metrics| == 0 {
      return EmptyStats;
    }
    var userUsageMap := BuildUsage(metrics);
    var chatUsers, agentUsers, completionOnlyUsers := CountUserKinds(userUsageMap);
    var languageEngagements := BuildWeights(metrics, LanguageItems, LanguageKey, LanguageWeight);
    var topLanguage := TopOf(EntriesOf(languageEngagements));
    var ideEntries := BuildWeights(metrics, IdeItems, IdeKey, One);
    var topIde := TopOf(EntriesOf(ideEntries));
    var modelEngagements := BuildWeights(metrics, ModelItems, ModelKey, ModelWeight);
    var topModel := TopOf(EntriesOf(modelEngagements));
    var firstRecord := metrics[0];
    r := MetricsStats(
      |userUsageMap.keys|, chatUsers, agentUsers, completionOnlyUsers,
      firstRecord.reportStartDay, firstRecord.reportEndDay, |metrics|,
      topLanguage, topIde, topModel);
  }

  /** The number of `totals_by_ide` entries naming `ide`, over all records. */
  function IdeEntryCount(ms: seq<Metric>, ide: string): int
  {
    TotalFor(ms, IdeItems, IdeKey, One, ide)
  }

  /** The top IDE is the first-seen IDE with the most entries, reported with its entry count. */
  lemma TopIdeByEntries(ms: seq<Metric>)
    requires IdeEntriesOf(ms).keys != []
    ensures var e := IdeEntriesOf(ms);
      exists i :: (
        && 0 <= i < |e.keys|
        && TopOf(EntriesOf(e)) == TopEntry(e.keys[i], IdeEntryCount(ms, e.keys[i]))
        && (forall j :: 0 <= j < |e.keys| ==> IdeEntryCount(ms, e.keys[j]) <= IdeEntryCount(ms, e.keys[i]))
        && (forall j :: 0 <= j < i ==> IdeEntryCount(ms, e.keys[j]) < IdeEntryCount(ms, e.keys[i])))
  {
    var e := IdeEntriesOf(ms);
    forall j | 0 <= j < |e.keys|
      ensures e.values[e.keys[j]] == IdeEntryCount(ms, e.keys[j])
    {
      WeightsOfContents(ms, IdeItems, IdeKey, One, e.keys[j]);
    }
    TopOfMap(e);
  }

  // ---------------------------------------------------------------- calculateUserSummaries

  /** The parser's `UserSummary`: generated and accepted line counts, and a day count that
      grows with every record. */
  datatype UserSummary = UserSummary(
    userLogin: string,
    userId: int,
    interactions: int,
    generations: int,
    acceptances: int,
    generatedLoc: int,
    acceptedLoc: int,
    daysActive: int,
    usedAgent: bool,
    usedChat: bool)

  /** The zeroed summary a user's first record creates. */
  function NewSummary(m: Metric): UserSummary
  {
    UserSummary(m.userLogin, m.userId, 0, 0, 0, 0, 0, 0, false, false)
  }

  /** A summary with one more record: the counts grow by the record's, the day count by one,
      and the flags are or-ed with the record's. */
  function AddRecord(u: UserSummary, m: Metric): UserSummary
  {
    u.(
      interactions := u.interactions + m.interactions,
      generations := u.generations + m.generations,
      acceptances := u.acceptances + m.acceptances,
      generatedLoc := u.generatedLoc + m.generatedLoc,
      acceptedLoc := u.acceptedLoc + m.acceptedLoc,
      daysActive := u.daysActive + 1,
      usedAgent := u.usedAgent || m.usedAgent,
      usedChat := u.usedChat || m.usedChat)
  }

  /** One iteration of the loop over the records. */
  function AddUserSummary(u: IMap<int, UserSummary>, m: Metric): (r: IMap<int, UserSummary>)
    requires u.Valid()
    ensures r.Valid()
  {
    u.Put(m.userId, AddRecord(u.GetOr(m.userId, NewSummary(m)), m))
  }

  /** `userMap` after the records `ms`. */
  function SummariesOf(ms: seq<Metric>): (r: IMap<int, UserSummary>)
    ensures r.Valid()
  {
    if ms == [] then Empty() else AddUserSummary(SummariesOf(ms[..|ms| - 1]), ms[|ms| - 1])
  }

  function SummaryInteractions(u: UserSummary): int { u.interactions }

  /** The summaries in first-seen order of their users. */
  function SummaryRows(u: IMap<int, UserSummary>): (r: seq<UserSummary>)
    requires u.Valid()
    ensures |r| == |u.keys|
    ensures forall i :: 0 <= i < |r| ==> r[i] == u.values[u.keys[i]]
  {
    seq(|u.keys|, i requires 0 <= i < |u.keys| => u.values[u.keys[i]])
  }

  /** The summaries sorted by interactions descending, users with equal interactions in
      first-seen order. */
  function SortSummaries(u: IMap<int, UserSummary>): (r: seq<UserSummary>)
    requires u.Valid()
    ensures multiset(r) == multiset(SummaryRows(u))
    ensures forall i, j :: 0 <= i < j < |r| ==> r[i].interactions >= r[j].interactions
    ensures forall v :: Filter(r, KeyIs(SummaryInteractions, v)) == Filter(SummaryRows(u), KeyIs(SummaryInteractions, v))
  {
    SortDesc(SummaryRows(u), SummaryInteractions);
    StableSort(SummaryRows(u), ByDesc(SummaryInteractions))
  }

  /** The source's two steps (create the user's summary if missing, then update it) give
      `AddUserSummary`. */
  lemma AddUserSummaryInTwoSteps(u: IMap<int, UserSummary>, m: Metric)
    requires u.Valid()
    ensures var u1 := if m.userId in u.values then u else u.Put(m.userId, NewSummary(m));
      && m.userId in u1.values
      && AddUserSummary(u, m) == u1.Put(m.userId, AddRecord(u1.values[m.userId], m))
  {
  }

  /** `calculateUserSummaries`. */
  method CalculateUserSummaries(metrics: seq<Metric>) returns (r: seq<UserSummary>)
    ensures r == SortSummaries(SummariesOf(metrics))
  {
    var userMap: IMap<int, UserSummary> := Empty();
    var i := 0;
    while i < |metrics|
      invariant 0 <= i <= |metrics| && userMap == SummariesOf(metrics[..i])
    {
      var metric := metrics[i];
      assert metrics[..i + 1][..i] == metrics[..i];
      AddUserSummaryInTwoSteps(userMap, metric);
      if metric.userId !in userMap.values {
        userMap := userMap.Put(metric.userId, NewSummary(metric));
      }
      var userSummary := userMap.values[metric.userId];
      userMap := userMap.Put(metric.userId, AddRecord(userSummary, metric));
      i := i + 1;
    }
    assert metrics[..|metrics|] == metrics;
    r := SortSummaries(userMap);
  }

  /** What a user's summary should be: the login of the first record, the sums and or-ed
      flags over the user's records, and one day per record. */
  function ExpectedSummary(rs: seq<Metric>, id: int): UserSummary
    requires rs != []
  {
    UserSummary(
      rs[0].userLogin, id,
      SumOf(rs, Interactions), SumOf(rs, Generations), SumOf(rs, Acceptances),
      SumOf(rs, GeneratedLoc), SumOf(rs, AcceptedLoc),
      |rs|, AnyAgent(rs), AnyChat(rs))
  }

  ghost predicate HoldsRecords(u: IMap<int, UserSummary>, id: int, rs: seq<Metric>)
  {
    && (id in u.values <==> rs != [])
    && (rs != [] ==> u.values[id] == ExpectedSummary(rs, id))
  }

  lemma AddUserSummaryHolds(u: IMap<int, UserSummary>, m: Metric, id: int, rs: seq<Metric>)
    requires u.Valid() && HoldsRecords(u, id, rs)
    ensures HoldsRecords(AddUserSummary(u, m), id, rs + (if m.userId == id then [m] else []))
  {
    if m.userId != id {
      assert rs + [] == rs;
    } else if rs == [] {
      FirstRecordHolds(u, m);
    } else {
      NextRecordHolds(u, m, rs);
    }
  }

  lemma FirstRecordHolds(u: IMap<int, UserSummary>, m: Metric)
    requires u.Valid() && HoldsRecords(u, m.userId, [])
    ensures HoldsRecords(AddUserSummary(u, m), m.userId, [m])
  {
    Snoc([], m);
    assert [] + [m] == [m];
    assert AddRecord(NewSummary(m), m) == ExpectedSummary([m], m.userId);
  }

  lemma NextRecordHolds(u: IMap<int, UserSummary>, m: Metric, rs: seq<Metric>)
    requires u.Valid() && rs != [] && HoldsRecords(u, m.userId, rs)
    ensures HoldsRecords(AddUserSummary(u, m), m.userId, rs + [m])
  {
    Snoc(rs, m);
    assert AddRecord(u.values[m.userId], m) == ExpectedSummary(rs + [m], m.userId);
  }

  /** After the records, a user has a summary exactly when the user has records, and it is
      the user's expected summary. */
  lemma {:induction false} SummariesOfUser(ms: seq<Metric>, id: int)
    ensures HoldsRecords(SummariesOf(ms), id, RecordsOf(ms, id))
  {
    if ms != [] {
      var n := |ms| - 1;
      var p, m := ms[..n], ms[n];
      SummariesOfUser(p, id);
      assert ms == p + [m];
      RecordsOfSnoc(p, m, id);
      AddUserSummaryHolds(SummariesOf(p), m, id, RecordsOf(p, id));
    }
  }

  /** Every summary belongs to a user with records and is that user's expected summary, so
      `days_active` is the user's number of records. */
  lemma UserSummariesOf(ms: seq<Metric>)
    ensures var r := SortSummaries(SummariesOf(ms));
      forall j :: 0 <= j < |r| ==>
        RecordsOf(ms, r[j].userId) != [] && r[j] == ExpectedSummary(RecordsOf(ms, r[j].userId), r[j].userId)
  {
    var u := SummariesOf(ms);
    var rows := SummaryRows(u);
    var sorted := SortSummaries(u);
    assert sorted == StableSort(rows, ByDesc(SummaryInteractions));
    forall j | 0 <= j < |sorted|
      ensures RecordsOf(ms, sorted[j].userId) != [] && sorted[j] == ExpectedSummary(RecordsOf(ms, sorted[j].userId), sorted[j].userId)
    {
      var i := SortedFrom(rows, ByDesc(SummaryInteractions), j);
      SummariesOfUser(ms, u.keys[i]);
    }
  }

  predicate HasSummary(r: seq<UserSummary>, id: int)
  {
    exists j :: 0 <= j < |r| && r[j].userId == id
  }

  /** Every user with records has a summary. */
  lemma UserSummariesComplete(ms: seq<Metric>, id: int)
    requires RecordsOf(ms, id) != []
    ensures HasSummary(SortSummaries(SummariesOf(ms)), id)
  {
    var u := SummariesOf(ms);
    var rows := SummaryRows(u);
    var sorted := SortSummaries(u);
    SummariesOfUser(ms, id);
    assert id in u.keys;
    var i :| 0 <= i < |u.keys| && u.keys[i] == id;
    assert rows[i].userId == id;
    assert rows[i] in multiset(sorted);
    var j :| 0 <= j < |sorted| && sorted[j] == rows[i];
    assert HasSummary(sorted, id);
  }

  /** The two user-summary builders agree on a user's login, interaction, generation and
      acceptance totals and flags; the single-pass aggregator's `days_active` (distinct days)
      is at most this one's (records), and smaller when two of the user's records share a day. */
  lemma DaysActiveDiffer(ms: seq<Metric>, a: UserSummaries.UserSummary, b: UserSummary)
    requires a in UserSummaries.ComputeUserSummaries(UserSummaries.SummaryStateOf(ms))
    requires b in SortSummaries(SummariesOf(ms))
    requires a.userId == b.userId
    ensures a.userLogin == b.userLogin
    ensures a.interactions == b.interactions && a.generations == b.generations && a.acceptances == b.acceptances
    ensures a.usedAgent == b.usedAgent && a.usedChat == b.usedChat
    ensures a.daysActive <= b.daysActive
    ensures (exists i, j :: (
      && 0 <= i < j < |RecordsOf(ms, a.userId)|
      && RecordsOf(ms, a.userId)[i].day == RecordsOf(ms, a.userId)[j].day)) ==> a.daysActive < b.daysActive
  {
    var ra := UserSummaries.ComputeUserSummaries(UserSummaries.SummaryStateOf(ms));
    var rb := SortSummaries(SummariesOf(ms));
    var ja :| 0 <= ja < |ra| && ra[ja] == a;
    var jb :| 0 <= jb < |rb| && rb[jb] == b;
    UserSummaries.UserSummariesOf(ms);
    UserSummariesOf(ms);
    var rs := RecordsOf(ms, a.userId);
    assert a == UserSummaries.ExpectedSummary(rs, a.userId);
    assert b == ExpectedSummary(rs, b.userId);
    DaysAtMostRecords(rs);
  }

  // ---------------------------------------------------------------- calculateDailyEngagement

  /** `calculateDailyEngagement`: nothing on no records; otherwise one row per day of the
      records, from the users seen that day and all users. */
  method CalculateDailyEngagement(metrics: seq<Metric>) returns (r: seq<DailyEngagementData>)
    ensures metrics == [] ==> r == []
    ensures metrics != [] ==> r == ComputeEngagementData(EngagementOf(metrics))
  {
    if |metrics| == 0 {
      return [];
    }
    var allUsers := set m | m in metrics :: m.userId;
    var dailyMetrics: IMap<string, set<int>> := Empty();
    var i := 0;
    while i < |metrics|
      invariant 0 <= i <= |metrics| && dailyMetrics == EngagementOf(metrics[..i]).dailyEngagement
    {
      assert metrics[..i + 1][..i] == metrics[..i];
      var date := metrics[i].day;
      if date !in dailyMetrics.values {
        dailyMetrics := dailyMetrics.Put(date, {});
      }
      dailyMetrics := dailyMetrics.Put(date, dailyMetrics.values[date] + {metrics[i].userId});
      i := i + 1;
    }
    assert metrics[..|metrics|] == metrics;
    EngagementOfUsers(metrics);
    assert EngagementState(dailyMetrics, allUsers) == EngagementOf(metrics);
    r := ComputeEngagementData(EngagementState(dailyMetrics, allUsers));
  }

  /** A row of the daily engagement of `ms`: a day of the records, its distinct users, all
      distinct users, and the rounded share of the first in the second. */
  ghost predicate IsDailyRow(ms: seq<Metric>, row: DailyEngagementData)
  {
    && (exists m :: m in ms && m.day == row.date)
    && row.activeUsers == |UsersOn(ms, row.date)|
    && row.totalUsers == |UserIds(ms)|
    && 0 <= row.activeUsers <= row.totalUsers
    && row.engagementPercentage == Percentage(row.activeUsers, row.totalUsers)
    && 0 <= row.engagementPercentage <= 10000
  }

  /** The daily engagement rows are in ascending date order, one for each day of the
      records, each with the same denominator. */
  lemma DailyEngagementRows(ms: seq<Metric>)
    ensures var rows := ComputeEngagementData(EngagementOf(ms));
      && (forall i, j :: 0 <= i < j < |rows| ==> StrLt(rows[i].date, rows[j].date))
      && (forall m :: m in ms ==> exists j :: 0 <= j < |rows| && rows[j].date == m.day)
      && (forall j :: 0 <= j < |rows| ==> IsDailyRow(ms, rows[j]))
  {
    var s := EngagementOf(ms);
    var rows := ComputeEngagementData(s);
    EngagementOfDays(ms);
    forall m | m in ms
      ensures exists j :: 0 <= j < |rows| && rows[j].date == m.day
    {
      assert m.day in s.dailyEngagement.values;
    }
    forall j | 0 <= j < |rows|
      ensures IsDailyRow(ms, rows[j])
    {
      EngagementRowIsDailyRow(ms, rows[j]);
    }
  }

  lemma EngagementRowIsDailyRow(ms: seq<Metric>, row: DailyEngagementData)
    requires IsEngagementRow(EngagementOf(ms), row)
    ensures IsDailyRow(ms, row)
  {
    EngagementOfUsers(ms);
    EngagementOfDays(ms);
    EngagementOfDayUsers(ms);
  }
}
