/** `calculateFeatureImpactData` and its wrappers: per day, the lines of code added and
    deleted through a chosen set of features, and the users with such activity. */
module FeatureImpact {
  import opened Common
  import opened InsertionMap
  import opened Sorting
  import opened Text
  import opened MetricTypes
  import opened DateRows

  /** A value of `dailyData`. */
  datatype ImpactDay = ImpactDay(locAdded: int, locDeleted: int, userIds: set<int>)

  const NoImpact := ImpactDay(0, 0, {})

  /** The two structures the loop updates. */
  datatype ImpactState = ImpactState(dailyData: IMap<string, ImpactDay>, allUniqueUsers: set<int>)
  {
    /** Every day's users are among all users. */
    ghost predicate Valid()
    {
      && dailyData.Valid()
      && forall d :: d in dailyData.values ==> dailyData.values[d].userIds <= allUniqueUsers
    }
  }

  function Days(ms: seq<Metric>): set<string>
  {
    set m | m in ms :: m.day
  }

  // ---------------------------------------------------------------- seeding the days

  /** `Array.from(new Set(metrics.map(metric => metric.day)))`: every day once, in order of
      first appearance. */
  function DistinctDays(ms: seq<Metric>): (r: seq<string>)
    ensures Distinct(r)
    ensures forall d :: d in r <==> d in Days(ms)
  {
    if ms == [] then []
    else
      var p := DistinctDays(ms[..|ms| - 1]);
      var last := ms[|ms| - 1];
      assert ms == ms[..|ms| - 1] + [last];
      assert forall m :: m in ms <==> m in ms[..|ms| - 1] || m == last;
      if last.day in p then p else p + [last.day]
  }

  /** `dailyData` after the seeding loop: each date not yet present gets an empty day. */
  function Seeded(dates: seq<string>): (r: IMap<string, ImpactDay>)
    ensures r.Valid()
  {
    if dates == [] then Empty()
    else
      var p := Seeded(dates[..|dates| - 1]);
      var date := dates[|dates| - 1];
      if date in p.values then p else p.Put(date, NoImpact)
  }

  /** Seeding distinct dates lists exactly those dates, each with an empty day. */
  lemma SeededDays(dates: seq<string>)
    requires Distinct(dates)
    ensures Seeded(dates).keys == dates
    ensures forall d :: d in Seeded(dates).values ==> Seeded(dates).values[d] == NoImpact
  {
    SeededKeys(dates);
    SeededEmpty(dates);
  }

  lemma {:induction false} SeededKeys(dates: seq<string>)
    requires Distinct(dates)
    ensures Seeded(dates).keys == dates
  {
    if dates != [] {
      var n := |dates| - 1;
      var q, date := dates[..n], dates[n];
      DistinctSnoc(dates);
      SeededKeys(q);
      assert date !in Seeded(q).values;
    }
  }

  lemma {:induction false} SeededEmpty(dates: seq<string>)
    ensures forall d :: d in Seeded(dates).values ==> Seeded(dates).values[d] == NoImpact
  {
    if dates != [] {
      SeededEmpty(dates[..|dates| - 1]);
    }
  }

  /** The seeding loop. */
  method SeedDays(allDates: seq<string>) returns (dailyData: IMap<string, ImpactDay>)
    ensures dailyData == Seeded(allDates)
  {
    dailyData := Empty();
    var i := 0;
    while i < |allDates|
      invariant 0 <= i <= |allDates| && dailyData == Seeded(allDates[..i])
    {
      assert allDates[..i + 1][..i] == allDates[..i];
      if allDates[i] !in dailyData.values {
        dailyData := dailyData.Put(allDates[i], NoImpact);
      }
      i := i + 1;
    }
    assert allDates[..|allDates|] == allDates;
  }

  // ---------------------------------------------------------------- one record

  /** The selected features' `loc_added_sum || 0`, summed. */
  function SelectedAdded(fs: seq<FeatureTotal>, names: seq<string>): int
  {
    if fs == [] then 0
    else
      var f := fs[|fs| - 1];
      SelectedAdded(fs[..|fs| - 1], names) + (if f.feature in names then OrZero(f.locAdded) else 0)
  }

  /** The selected features' `loc_deleted_sum || 0`, summed. */
  function SelectedDeleted(fs: seq<FeatureTotal>, names: seq<string>): int
  {
    if fs == [] then 0
    else
      var f := fs[|fs| - 1];
      SelectedDeleted(fs[..|fs| - 1], names) + (if f.feature in names then OrZero(f.locDeleted) else 0)
  }

  /** Some selected feature added or deleted a non-zero number of lines. */
  predicate HasActivity(fs: seq<FeatureTotal>, names: seq<string>)
  {
    exists i :: 0 <= i < |fs| && fs[i].feature in names && (OrZero(fs[i].locAdded) != 0 || OrZero(fs[i].locDeleted) != 0)
  }

  /** The inner loop over one record's features, skipping those not selected. */
  method RecordImpact(fs: seq<FeatureTotal>, featureNames: seq<string>)
    returns (totalLocAdded: int, totalLocDeleted: int, hasActivity: bool)
    ensures totalLocAdded == SelectedAdded(fs, featureNames)
    ensures totalLocDeleted == SelectedDeleted(fs, featureNames)
    ensures hasActivity == HasActivity(fs, featureNames)
  {
    totalLocAdded, totalLocDeleted, hasActivity := 0, 0, false;
    var j := 0;
    while j < |fs|
      invariant 0 <= j <= |fs|
      invariant totalLocAdded == SelectedAdded(fs[..j], featureNames)
      invariant totalLocDeleted == SelectedDeleted(fs[..j], featureNames)
      invariant hasActivity == HasActivity(fs[..j], featureNames)
    {
      assert fs[..j + 1][..j] == fs[..j];
      var feature := fs[j];
      if feature.feature in featureNames {
        var locAdded := OrZero(feature.locAdded);
        var locDeleted := OrZero(feature.locDeleted);
        totalLocAdded := totalLocAdded + locAdded;
        totalLocDeleted := totalLocDeleted + locDeleted;
        if locAdded != 0 || locDeleted != 0 {
          hasActivity := true;
        }
      }
      assert HasActivity(fs[..j + 1], featureNames) <==> (HasActivity(fs[..j], featureNames) ||
        (fs[j].feature in featureNames && (OrZero(fs[j].locAdded) != 0 || OrZero(fs[j].locDeleted) != 0)));
      j := j + 1;
    }
    assert fs[..|fs|] == fs;
  }

  /** One record: skipped when its day is not seeded or when it has no selected activity;
      otherwise its selected lines go to its day and its user to the day and to all users. */
  function AddImpact(s: ImpactState, m: Metric, names: seq<string>): (r: ImpactState)
    requires s.Valid()
    ensures r.Valid()
    ensures r.dailyData.keys == s.dailyData.keys
  {
    if m.day !in s.dailyData.values || !HasActivity(m.byFeature, names) then s
    else
      var d := s.dailyData.values[m.day];
      ImpactState(
        s.dailyData.Put(m.day, ImpactDay(
          d.locAdded + SelectedAdded(m.byFeature, names),
          d.locDeleted + SelectedDeleted(m.byFeature, names),
          d.userIds + {m.userId})),
        s.allUniqueUsers + {m.userId})
  }

  function ImpactFold(s: ImpactState, ms: seq<Metric>, names: seq<string>): (r: ImpactState)
    requires s.Valid()
    ensures r.Valid()
    ensures r.dailyData.keys == s.dailyData.keys
  {
    if ms == [] then s else AddImpact(ImpactFold(s, ms[..|ms| - 1], names), ms[|ms| - 1], names)
  }

  /** The body of the loop over the records: one record's selected lines and user. */
  method ImpactRecord(s0: ImpactState, m: Metric, featureNames: seq<string>) returns (s: ImpactState)
    requires s0.Valid()
    ensures s == AddImpact(s0, m, featureNames)
  {
    s := s0;
    var totalLocAdded, totalLocDeleted, hasActivity := RecordImpact(m.byFeature, featureNames);
    var date := m.day;
    if date in s.dailyData.values && hasActivity {
      var dayData := s.dailyData.values[date];
      s := ImpactState(
        s.dailyData.Put(date, ImpactDay(
          dayData.locAdded + totalLocAdded, dayData.locDeleted + totalLocDeleted, dayData.userIds + {m.userId})),
        s.allUniqueUsers + {m.userId});
    }
  }

  /** The loop over the records. */
  method AccumulateImpact(s0: ImpactState, metrics: seq<Metric>, featureNames: seq<string>) returns (s: ImpactState)
    requires s0.Valid()
    ensures s == ImpactFold(s0, metrics, featureNames)
  {
    s := s0;
    var i := 0;
    while i < |metrics|
      invariant 0 <= i <= |metrics| && s == ImpactFold(s0, metrics[..i], featureNames)
    {
      assert metrics[..i + 1][..i] == metrics[..i];
      s := ImpactRecord(s, metrics[i], featureNames);
      i := i + 1;
    }
    assert metrics[..|metrics|] == metrics;
  }

  // ---------------------------------------------------------------- what a day sums up

  function DayAdded(ms: seq<Metric>, day: string, names: seq<string>): int
  {
    if ms == [] then 0
    else
      var m := ms[|ms| - 1];
      DayAdded(ms[..|ms| - 1], day, names) + (if m.day == day && HasActivity(m.byFeature, names) then SelectedAdded(m.byFeature, names) else 0)
  }

  function DayDeleted(ms: seq<Metric>, day: string, names: seq<string>): int
  {
    if ms == [] then 0
    else
      var m := ms[|ms| - 1];
      DayDeleted(ms[..|ms| - 1], day, names) + (if m.day == day && HasActivity(m.byFeature, names) then SelectedDeleted(m.byFeature, names) else 0)
  }

  /** The users with selected activity on `day`. */
  function DayUsers(ms: seq<Metric>, day: string, names: seq<string>): set<int>
  {
    set m | m in ms && m.day == day && HasActivity(m.byFeature, names) :: m.userId
  }

  /** The users with selected activity on a seeded day. */
  function ActiveUsers(ms: seq<Metric>, days: set<string>, names: seq<string>): set<int>
  {
    set m | m in ms && m.day in days && HasActivity(m.byFeature, names) :: m.userId
  }

  lemma SnocMembers(p: seq<Metric>, m: Metric)
    ensures forall x :: x in p + [m] <==> x in p || x == m
  {
  }

  /** A seeded day that starts empty ends with the lines and users of that day's active
      records. */
  lemma {:induction false} ImpactFoldDay(s: ImpactState, ms: seq<Metric>, names: seq<string>, day: string)
    requires s.Valid() && day in s.dailyData.values && s.dailyData.values[day] == NoImpact
    ensures var r := ImpactFold(s, ms, names);
      && day in r.dailyData.values
      && r.dailyData.values[day] == ImpactDay(DayAdded(ms, day, names), DayDeleted(ms, day, names), DayUsers(ms, day, names))
  {
    if ms != [] {
      var n := |ms| - 1;
      ImpactFoldDay(s, ms[..n], names, day);
      assert ms == ms[..n] + [ms[n]];
      SnocMembers(ms[..n], ms[n]);
    }
  }

  /** All users are the users with activity on a seeded day. */
  lemma {:induction false} ImpactFoldUsers(s: ImpactState, ms: seq<Metric>, names: seq<string>)
    requires s.Valid() && s.allUniqueUsers == {}
    ensures ImpactFold(s, ms, names).allUniqueUsers == ActiveUsers(ms, s.dailyData.values.Keys, names)
  {
    if ms != [] {
      var n := |ms| - 1;
      ImpactFoldUsers(s, ms[..n], names);
      assert ms == ms[..n] + [ms[n]];
      SnocMembers(ms[..n], ms[n]);
    }
  }

  // ---------------------------------------------------------------- the rows

  /** A `ModeImpactData` row. */
  datatype ImpactRow = ImpactRow(date: string, locAdded: int, locDeleted: int, netChange: int, userCount: int, totalUniqueUsers: int)

  function RowDate(row: ImpactRow): string { row.date }

  function ImpactRowOf(date: string, d: ImpactDay, totalUsers: int): ImpactRow
  {
    ImpactRow(date, d.locAdded, d.locDeleted, d.locAdded - d.locDeleted, |d.userIds|, totalUsers)
  }

  function SeedState(ms: seq<Metric>): (r: ImpactState)
    ensures r.Valid()
  {
    SeededDays(DistinctDays(ms));
    ImpactState(Seeded(DistinctDays(ms)), {})
  }

  /** One row per day, in the order the days were seeded. */
  function RowsOf(s: ImpactState): (rows: seq<ImpactRow>)
    requires s.Valid()
    ensures |rows| == |s.dailyData.keys|
    ensures forall i :: 0 <= i < |rows| ==>
      rows[i] == ImpactRowOf(s.dailyData.keys[i], s.dailyData.values[s.dailyData.keys[i]], |s.allUniqueUsers|)
  {
    var keys := s.dailyData.keys;
    seq(|keys|, i requires 0 <= i < |keys| => ImpactRowOf(keys[i], s.dailyData.values[keys[i]], |s.allUniqueUsers|))
  }

  /** The rows of the final state, by date. */
  function ImpactRows(s: ImpactState): seq<ImpactRow>
    requires s.Valid()
  {
    StableSort(RowsOf(s), ByDate(RowDate))
  }

  /** The days of the final state are the distinct days of the records, as seeded. */
  lemma ImpactKeys(ms: seq<Metric>, names: seq<string>)
    ensures ImpactFold(SeedState(ms), ms, names).dailyData.keys == DistinctDays(ms)
  {
    SeededDays(DistinctDays(ms));
  }

  /** `calculateFeatureImpactData` as a value: nothing for no records or no features. */
  function FeatureImpactOf(ms: seq<Metric>, names: seq<string>): seq<ImpactRow>
  {
    if ms == [] || names == [] then [] else ImpactRows(ImpactFold(SeedState(ms), ms, names))
  }

  /** `calculateFeatureImpactData`. */
  method CalculateFeatureImpactData(metrics: seq<Metric>, featureNames: seq<string>) returns (r: seq<ImpactRow>)
    ensures r == FeatureImpactOf(metrics, featureNames)
  {
    if |metrics| == 0 || |featureNames| == 0 {
      return [];
    }
    var allDates := DistinctDays(metrics);
    var dailyData := SeedDays(allDates);
    SeededDays(allDates);
    var s := AccumulateImpact(ImpactState(dailyData, {}), metrics, featureNames);
    var rows := RowsOf(s);
    r := StableSort(rows, ByDate(RowDate));
  }

  /** The rows: for records and features, one per day of the records (active or not),
      strictly ascending by date; each holds that day's selected lines and active users, its
      net change is added minus deleted, and its user count is at most the total, which is
      the number of users active on any day. */
  lemma FeatureImpactRows(ms: seq<Metric>, names: seq<string>)
    ensures ms == [] || names == [] ==> FeatureImpactOf(ms, names) == []
    ensures var r := FeatureImpactOf(ms, names);
      ms != [] && names != [] ==>
        && |r| == |Days(ms)|
        && (forall i, j :: 0 <= i < j < |r| ==> StrLt(r[i].date, r[j].date))
        && (forall day :: day in Days(ms) ==> exists j :: 0 <= j < |r| && r[j].date == day)
  {
    if ms != [] && names != [] {
      var d := DistinctDays(ms);
      ImpactKeys(ms, names);
      SortedDays(d, RowsOf(ImpactFold(SeedState(ms), ms, names)), Days(ms));
    }
  }

  /** Rows keyed by distinct days sort into one row per day, ascending. */
  lemma SortedDays(d: seq<string>, rows: seq<ImpactRow>, days: set<string>)
    requires Distinct(d) && (forall x :: x in d <==> x in days)
    requires |rows| == |d| && forall i :: 0 <= i < |d| ==> rows[i].date == d[i]
    ensures var r := StableSort(rows, ByDate(RowDate));
      && |r| == |days|
      && (forall i, j :: 0 <= i < j < |r| ==> StrLt(r[i].date, r[j].date))
      && (forall day :: day in days ==> exists j :: 0 <= j < |r| && r[j].date == day)
  {
    DistinctCard(d);
    assert (set x | x in d) == days;
    SortKeyedRows(d, rows, RowDate);
  }

  /** A row holds its day's selected lines and active users; its net change is added minus
      deleted, and its user count is at most the total, the users active on any day. */
  ghost predicate IsImpactRow(ms: seq<Metric>, names: seq<string>, row: ImpactRow)
  {
    && row.date in Days(ms)
    && row.locAdded == DayAdded(ms, row.date, names)
    && row.locDeleted == DayDeleted(ms, row.date, names)
    && row.netChange == row.locAdded - row.locDeleted
    && row.userCount == |DayUsers(ms, row.date, names)|
    && row.totalUniqueUsers == |ActiveUsers(ms, Days(ms), names)|
    && row.userCount <= row.totalUniqueUsers
  }

  lemma ImpactRowIsRow(ms: seq<Metric>, names: seq<string>, day: string)
    requires ms != [] && day in Days(ms)
    ensures var s := ImpactFold(SeedState(ms), ms, names);
      && day in s.dailyData.values
      && IsImpactRow(ms, names, ImpactRowOf(day, s.dailyData.values[day], |s.allUniqueUsers|))
  {
    var s0 := SeedState(ms);
    var s := ImpactFold(s0, ms, names);
    SeededDays(DistinctDays(ms));
    ImpactFoldUsers(s0, ms, names);
    assert s0.dailyData.values.Keys == Days(ms);
    ImpactFoldDay(s0, ms, names, day);
    SubsetCard(s.dailyData.values[day].userIds, s.allUniqueUsers);
  }

  /** Every row's numbers are those of its day. */
  lemma FeatureImpactRowContents(ms: seq<Metric>, names: seq<string>)
    ensures var r := FeatureImpactOf(ms, names);
      forall j :: 0 <= j < |r| ==> IsImpactRow(ms, names, r[j])
  {
    if ms != [] && names != [] {
      var s0 := SeedState(ms);
      var s := ImpactFold(s0, ms, names);
      var keys := s.dailyData.keys;
      var rows := RowsOf(s);
      ImpactKeys(ms, names);
      forall i | 0 <= i < |rows| ensures IsImpactRow(ms, names, rows[i]) {
        assert keys[i] in DistinctDays(ms);
        ImpactRowIsRow(ms, names, keys[i]);
      }
      SortKeeps(rows, ByDate(RowDate), row => IsImpactRow(ms, names, row));
    }
  }

  // ---------------------------------------------------------------- the wrappers

  const JoinedFeatures := [CodeCompletion, ChatPanelAskMode, ChatPanelEditMode, ChatInline, ChatPanelAgentMode, AgentEdit]
  const EditModeFeatures := [ChatPanelEditMode]
  const InlineModeFeatures := [ChatInline]
  const AskModeFeatures := [ChatPanelAskMode]

  method CalculateJoinedImpactData(metrics: seq<Metric>) returns (r: seq<ImpactRow>)
    ensures r == FeatureImpactOf(metrics, JoinedFeatures)
  {
    r := CalculateFeatureImpactData(metrics, JoinedFeatures);
  }

  method CalculateEditModeImpactData(metrics: seq<Metric>) returns (r: seq<ImpactRow>)
    ensures r == FeatureImpactOf(metrics, EditModeFeatures)
  {
    r := CalculateFeatureImpactData(metrics, EditModeFeatures);
  }

  method CalculateInlineModeImpactData(metrics: seq<Metric>) returns (r: seq<ImpactRow>)
    ensures r == FeatureImpactOf(metrics, InlineModeFeatures)
  {
    r := CalculateFeatureImpactData(metrics, InlineModeFeatures);
  }

  method CalculateAskModeImpactData(metrics: seq<Metric>) returns (r: seq<ImpactRow>)
    ensures r == FeatureImpactOf(metrics, AskModeFeatures)
  {
    r := CalculateFeatureImpactData(metrics, AskModeFeatures);
  }

  /** Activity through fewer features implies activity through more. */
  lemma HasActivityMono(fs: seq<FeatureTotal>, small: seq<string>, large: seq<string>)
    requires forall f :: f in small ==> f in large
    requires HasActivity(fs, small)
    ensures HasActivity(fs, large)
  {
    var i :| 0 <= i < |fs| && fs[i].feature in small && (OrZero(fs[i].locAdded) != 0 || OrZero(fs[i].locDeleted) != 0);
  }

  /** The edit, inline and ask features are all among the joined ones, so on every day a user
      active in one mode's impact is active in the joined impact. */
  lemma ModeUsersWithinJoined(ms: seq<Metric>, day: string)
    ensures DayUsers(ms, day, EditModeFeatures) <= DayUsers(ms, day, JoinedFeatures)
    ensures DayUsers(ms, day, InlineModeFeatures) <= DayUsers(ms, day, JoinedFeatures)
    ensures DayUsers(ms, day, AskModeFeatures) <= DayUsers(ms, day, JoinedFeatures)
  {
    forall m | m in ms && HasActivity(m.byFeature, EditModeFeatures) ensures HasActivity(m.byFeature, JoinedFeatures) {
      HasActivityMono(m.byFeature, EditModeFeatures, JoinedFeatures);
    }
    forall m | m in ms && HasActivity(m.byFeature, InlineModeFeatures) ensures HasActivity(m.byFeature, JoinedFeatures) {
      HasActivityMono(m.byFeature, InlineModeFeatures, JoinedFeatures);
    }
    forall m | m in ms && HasActivity(m.byFeature, AskModeFeatures) ensures HasActivity(m.byFeature, JoinedFeatures) {
      HasActivityMono(m.byFeature, AskModeFeatures, JoinedFeatures);
    }
  }
}
