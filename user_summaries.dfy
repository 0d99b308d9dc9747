/** The user-summary accumulator of the single-pass aggregator: per user, the sums of the
    user's records, the or-ed usage flags, and the set of days the user was active. */
module UserSummaries {
  import opened Common
  import opened InsertionMap
  import opened Sorting
  import opened MetricTypes
  import opened UserRecords

  /** `UserSummary` with the line counts the aggregator fills in. */
  datatype UserSummary = UserSummary(
    userLogin: string,
    userId: int,
    interactions: int,
    generations: int,
    acceptances: int,
    locAdded: int,
    locDeleted: int,
    locSuggestedToAdd: int,
    locSuggestedToDelete: int,
    daysActive: int,
    usedAgent: bool,
    usedChat: bool)

  /** The two maps of `UserSummaryAccumulator`. */
  datatype SummaryState = SummaryState(userMap: IMap<int, UserSummary>, userActiveDays: map<int, set<string>>)
  {
    /** Both maps know the same users, and each summary sits under its own user id. */
    ghost predicate Valid()
    {
      && userMap.Valid()
      && userActiveDays.Keys == userMap.values.Keys
      && forall id :: id in userMap.values ==> userMap.values[id].userId == id
    }
  }

  function EmptySummaries(): (r: SummaryState)
    ensures r.Valid()
  {
    SummaryState(Empty(), map[])
  }

  /** The zeroed summary a user's first record creates. */
  function NewSummary(m: Metric): UserSummary
  {
    UserSummary(m.userLogin, m.userId, 0, 0, 0, 0, 0, 0, 0, 0, false, false)
  }

  /** A summary with one more record of its user: the counts grow by the record's counts and
      the flags are or-ed with the record's; the login, id and day count stay. */
  function AddRecord(u: UserSummary, m: Metric): UserSummary
  {
    u.(
      interactions := u.interactions + m.interactions,
      generations := u.generations + m.generations,
      acceptances := u.acceptances + m.acceptances,
      locAdded := u.locAdded + m.locAdded,
      locDeleted := u.locDeleted + m.locDeleted,
      locSuggestedToAdd := u.locSuggestedToAdd + m.locSuggestedToAdd,
      locSuggestedToDelete := u.locSuggestedToDelete + m.locSuggestedToDelete,
      usedAgent := u.usedAgent || m.usedAgent,
      usedChat := u.usedChat || m.usedChat)
  }

  /** One record: its user's summary (created zeroed, with the record's login, if new) takes
      the record, and the record's day joins the user's days; other users are unchanged. */
  function AddUserSummary(s: SummaryState, m: Metric): (r: SummaryState)
    requires s.Valid()
    ensures r.Valid()
    ensures m.userId in r.userMap.values
    ensures r.userMap.values[m.userId] == AddRecord(s.userMap.GetOr(m.userId, NewSummary(m)), m)
    ensures r.userActiveDays[m.userId] == (if m.userId in s.userActiveDays then s.userActiveDays[m.userId] else {}) + {m.day}
    ensures m.userId !in s.userMap.values ==> r.userMap.keys == s.userMap.keys + [m.userId]
    ensures m.userId in s.userMap.values ==> r.userMap.keys == s.userMap.keys
    ensures forall id :: id != m.userId && id in s.userMap.values ==>
      r.userMap.values[id] == s.userMap.values[id] && r.userActiveDays[id] == s.userActiveDays[id]
  {
    var days := if m.userId in s.userActiveDays then s.userActiveDays[m.userId] else {};
    SummaryState(
      s.userMap.Put(m.userId, AddRecord(s.userMap.GetOr(m.userId, NewSummary(m)), m)),
      s.userActiveDays[m.userId := days + {m.day}])
  }

  /** `UserSummaryAccumulator`. */
  class UserSummaryAccumulator {
    var userMap: IMap<int, UserSummary>
    var userActiveDays: map<int, set<string>>

    function Value(): SummaryState
      reads this
    {
      SummaryState(userMap, userActiveDays)
    }

    /** `createUserSummaryAccumulator`. */
    constructor ()
      ensures Value() == EmptySummaries()
    {
      userMap := Empty();
      userActiveDays := map[];
    }
  }

  /** `accumulateUserSummary`. */
  method AccumulateUserSummary(acc: UserSummaryAccumulator, metric: Metric)
    requires acc.Value().Valid()
    modifies acc
    ensures acc.Value() == AddUserSummary(old(acc.Value()), metric)
  {
    var userId := metric.userId;
    var date := metric.day;
    if userId !in acc.userMap.values {
      acc.userMap := acc.userMap.Put(userId, NewSummary(metric));
      acc.userActiveDays := acc.userActiveDays[userId := {}];
    }
    var userSummary := acc.userMap.values[userId];
    acc.userMap := acc.userMap.Put(userId, AddRecord(userSummary, metric));
    acc.userActiveDays := acc.userActiveDays[userId := acc.userActiveDays[userId] + {date}];
    AddUserSummaryInTwoSteps(old(acc.Value()), metric);
  }

  /** The source's two steps (create the user's entries if missing, then update them) give
      `AddUserSummary`. */
  lemma AddUserSummaryInTwoSteps(s: SummaryState, m: Metric)
    requires s.Valid()
    ensures var s1 := if m.userId in s.userMap.values then s
                      else SummaryState(s.userMap.Put(m.userId, NewSummary(m)), s.userActiveDays[m.userId := {}]);
      && m.userId in s1.userMap.values && m.userId in s1.userActiveDays
      && AddUserSummary(s, m) == SummaryState(
           s1.userMap.Put(m.userId, AddRecord(s1.userMap.values[m.userId], m)),
           s1.userActiveDays[m.userId := s1.userActiveDays[m.userId] + {m.day}])
  {
    if m.userId !in s.userMap.values {
      var p := s.userMap.Put(m.userId, NewSummary(m));
      assert p.Put(m.userId, AddRecord(NewSummary(m), m)) == s.userMap.Put(m.userId, AddRecord(NewSummary(m), m));
    }
  }

  // ---------------------------------------------------------------- the rows

  function SummaryInteractions(u: UserSummary): int { u.interactions }

  /** A summary with `days_active` set to the number of the user's distinct days. */
  function WithDays(s: SummaryState, id: int): UserSummary
    requires s.Valid() && id in s.userMap.values
  {
    var u := s.userMap.values[id];
    u.(daysActive := if u.userId in s.userActiveDays then |s.userActiveDays[u.userId]| else 0)
  }

  function SummaryRows(s: SummaryState): (r: seq<UserSummary>)
    requires s.Valid()
    ensures |r| == |s.userMap.keys|
    ensures forall i :: 0 <= i < |r| ==> r[i] == WithDays(s, s.userMap.keys[i])
  {
    seq(|s.userMap.keys|, i requires 0 <= i < |s.userMap.keys| => WithDays(s, s.userMap.keys[i]))
  }

  /** `computeUserSummaries`: the summaries with their day counts, by interactions
      descending, users with equal interactions in first-seen order. */
  function ComputeUserSummaries(s: SummaryState): (r: seq<UserSummary>)
    requires s.Valid()
    ensures multiset(r) == multiset(SummaryRows(s))
    ensures forall i, j :: 0 <= i < j < |r| ==> r[i].interactions >= r[j].interactions
    ensures forall v :: Filter(r, KeyIs(SummaryInteractions, v)) == Filter(SummaryRows(s), KeyIs(SummaryInteractions, v))
  {
    SortDesc(SummaryRows(s), SummaryInteractions);
    StableSort(SummaryRows(s), ByDesc(SummaryInteractions))
  }

  // ---------------------------------------------------------------- over a record stream

  function SummaryStateOf(ms: seq<Metric>): (r: SummaryState)
    ensures r.Valid()
  {
    if ms == [] then EmptySummaries() else AddUserSummary(SummaryStateOf(ms[..|ms| - 1]), ms[|ms| - 1])
  }

  /** What the summary of a user with records should be: the login of the first record, the
      sums and or-ed flags over all of them, and the number of distinct days. */
  function ExpectedSummary(rs: seq<Metric>, id: int): UserSummary
    requires rs != []
  {
    UserSummary(
      rs[0].userLogin, id,
      SumOf(rs, Interactions), SumOf(rs, Generations), SumOf(rs, Acceptances),
      SumOf(rs, LocAdded), SumOf(rs, LocDeleted), SumOf(rs, LocSuggestedToAdd), SumOf(rs, LocSuggestedToDelete),
      |DaysOf(rs)|, AnyAgent(rs), AnyChat(rs))
  }

  /** What a user's entries hold after the user's records `rs`. */
  ghost predicate HoldsRecords(s: SummaryState, id: int, rs: seq<Metric>)
    requires s.Valid()
  {
    && (id in s.userMap.values <==> rs != [])
    && (rs != [] ==>
          && s.userMap.values[id] == ExpectedSummary(rs, id).(daysActive := 0)
          && s.userActiveDays[id] == DaysOf(rs))
  }

  lemma AddUserSummaryHolds(s: SummaryState, m: Metric, id: int, rs: seq<Metric>)
    requires s.Valid() && HoldsRecords(s, id, rs)
    ensures HoldsRecords(AddUserSummary(s, m), id, rs + (if m.userId == id then [m] else []))
  {
    if m.userId != id {
      assert rs + [] == rs;
    } else if rs == [] {
      FirstRecordHolds(s, m);
    } else {
      NextRecordHolds(s, m, rs);
    }
  }

  lemma FirstRecordHolds(s: SummaryState, m: Metric)
    requires s.Valid() && HoldsRecords(s, m.userId, [])
    ensures HoldsRecords(AddUserSummary(s, m), m.userId, [m])
  {
    Snoc([], m);
    assert [] + [m] == [m];
    assert AddRecord(NewSummary(m), m) == ExpectedSummary([m], m.userId).(daysActive := 0);
  }

  lemma NextRecordHolds(s: SummaryState, m: Metric, rs: seq<Metric>)
    requires s.Valid() && rs != [] && HoldsRecords(s, m.userId, rs)
    ensures HoldsRecords(AddUserSummary(s, m), m.userId, rs + [m])
  {
    Snoc(rs, m);
    assert AddRecord(s.userMap.values[m.userId], m) == ExpectedSummary(rs + [m], m.userId).(daysActive := 0);
  }

  /** After the records, a user is known exactly when the user has records, and then holds
      the expected summary (its day count still 0) and the user's distinct days. */
  lemma {:induction false} SummaryStateOfUser(ms: seq<Metric>, id: int)
    ensures HoldsRecords(SummaryStateOf(ms), id, RecordsOf(ms, id))
  {
    if ms != [] {
      var n := |ms| - 1;
      var p, m := ms[..n], ms[n];
      SummaryStateOfUser(p, id);
      assert ms == p + [m];
      RecordsOfSnoc(p, m, id);
      AddUserSummaryHolds(SummaryStateOf(p), m, id, RecordsOf(p, id));
    }
  }

  /** Every summary built from records belongs to a user with records and is that user's
      expected summary, `days_active` being the number of distinct days. */
  lemma UserSummariesOf(ms: seq<Metric>)
    ensures var r := ComputeUserSummaries(SummaryStateOf(ms));
      forall j :: 0 <= j < |r| ==>
        RecordsOf(ms, r[j].userId) != [] && r[j] == ExpectedSummary(RecordsOf(ms, r[j].userId), r[j].userId)
  {
    var s := SummaryStateOf(ms);
    var rows := SummaryRows(s);
    var r := ComputeUserSummaries(s);
    assert r == StableSort(rows, ByDesc(SummaryInteractions));
    forall j | 0 <= j < |r|
      ensures RecordsOf(ms, r[j].userId) != [] && r[j] == ExpectedSummary(RecordsOf(ms, r[j].userId), r[j].userId)
    {
      var i := SortedFrom(rows, ByDesc(SummaryInteractions), j);
      SummaryStateOfUser(ms, s.userMap.keys[i]);
    }
  }

  predicate HasSummary(r: seq<UserSummary>, id: int)
  {
    exists j :: 0 <= j < |r| && r[j].userId == id
  }

  /** Every user with records has a summary. */
  lemma UserSummariesComplete(ms: seq<Metric>, id: int)
    requires RecordsOf(ms, id) != []
    ensures HasSummary(ComputeUserSummaries(SummaryStateOf(ms)), id)
  {
    var s := SummaryStateOf(ms);
    var rows := SummaryRows(s);
    var r := ComputeUserSummaries(s);
    SummaryStateOfUser(ms, id);
    assert id in s.userMap.keys;
    var i :| 0 <= i < |s.userMap.keys| && s.userMap.keys[i] == id;
    assert rows[i] in multiset(r);
    assert rows[i] == WithDays(s, id);
    assert rows[i].userId == id;
    var j :| 0 <= j < |r| && r[j] == rows[i];
    assert r[j].userId == id;
    assert HasSummary(r, id);
  }
}
