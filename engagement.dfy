/** Daily engagement: which users were active on each day, against all users seen. */
module EngagementCalculator {
  import opened Common
  import opened Text
  import opened InsertionMap
  import opened Sorting
  import opened DateRows
  import opened MetricTypes

  datatype DailyEngagementData = DailyEngagementData(
    date: string,
    activeUsers: int,
    totalUsers: int,
    engagementPercentage: int)  // hundredths of a percent

  /** The contents of an `EngagementAccumulator`. */
  datatype EngagementState = EngagementState(
    dailyEngagement: IMap<string, set<int>>,
    allUniqueUsers: set<int>)
  {
    /** Every day's users are among all users. */
    ghost predicate Valid()
    {
      && dailyEngagement.Valid()
      && forall d :: d in dailyEngagement.values ==> dailyEngagement.values[d] <= allUniqueUsers
    }
  }

  function EmptyEngagement(): (r: EngagementState)
    ensures r.Valid()
  {
    EngagementState(Empty(), {})
  }

  /** `accumulateEngagement` on the accumulator's contents: the user joins all users and
      the users of `date`; no other day changes. */
  function AddEngagement(s: EngagementState, date: string, userId: int): (r: EngagementState)
    requires s.Valid()
    ensures r.Valid()
    ensures r.allUniqueUsers == s.allUniqueUsers + {userId}
    ensures date in r.dailyEngagement.values
    ensures r.dailyEngagement.values[date] == s.dailyEngagement.GetOr(date, {}) + {userId}
    ensures forall d :: d != date ==>
      (d in r.dailyEngagement.values <==> d in s.dailyEngagement.values) &&
      (d in s.dailyEngagement.values ==> r.dailyEngagement.values[d] == s.dailyEngagement.values[d])
  {
    var daily := if date in s.dailyEngagement.values then s.dailyEngagement else s.dailyEngagement.Put(date, {});
    EngagementState(daily.Put(date, daily.values[date] + {userId}), s.allUniqueUsers + {userId})
  }

  /** Feeding the same (date, user) twice is the same as feeding it once. */
  lemma AddEngagementIdempotent(s: EngagementState, date: string, userId: int)
    requires s.Valid()
    ensures AddEngagement(AddEngagement(s, date, userId), date, userId) == AddEngagement(s, date, userId)
  {
    var t := AddEngagement(s, date, userId);
    var u := AddEngagement(t, date, userId);
    assert u.dailyEngagement.values == t.dailyEngagement.values;
  }

  class EngagementAccumulator {
    var dailyEngagement: IMap<string, set<int>>
    var allUniqueUsers: set<int>

    function Value(): EngagementState
      reads this
    {
      EngagementState(dailyEngagement, allUniqueUsers)
    }

    /** `createEngagementAccumulator`. */
    constructor ()
      ensures Value() == EmptyEngagement()
    {
      dailyEngagement := Empty();
      allUniqueUsers := {};
    }
  }

  /** `accumulateEngagement`. */
  method AccumulateEngagement(acc: EngagementAccumulator, date: string, userId: int)
    requires acc.Value().Valid()
    modifies acc
    ensures acc.Value() == AddEngagement(old(acc.Value()), date, userId)
  {
    acc.allUniqueUsers := acc.allUniqueUsers + {userId};
    if date !in acc.dailyEngagement.values {
      acc.dailyEngagement := acc.dailyEngagement.Put(date, {});
    }
    acc.dailyEngagement := acc.dailyEngagement.Put(date, acc.dailyEngagement.values[date] + {userId});
  }

  function RowDate(row: DailyEngagementData): string { row.date }

  function EngagementRow(s: EngagementState, date: string): DailyEngagementData
    requires date in s.dailyEngagement.values
  {
    var active := |s.dailyEngagement.values[date]|;
    var total := |s.allUniqueUsers|;
    DailyEngagementData(date, active, total, Percentage(active, total))
  }

  /** A report row for a day of the state: that day's users over all users. */
  ghost predicate IsEngagementRow(s: EngagementState, row: DailyEngagementData)
  {
    && row.date in s.dailyEngagement.values
    && row.activeUsers == |s.dailyEngagement.values[row.date]|
    && row.totalUsers == |s.allUniqueUsers|
    && 0 <= row.activeUsers <= row.totalUsers
    && row.engagementPercentage == Percentage(row.activeUsers, row.totalUsers)
    && 0 <= row.engagementPercentage <= 10000
  }

  lemma EngagementRowIsRow(s: EngagementState, date: string)
    requires s.Valid() && date in s.dailyEngagement.values
    ensures IsEngagementRow(s, EngagementRow(s, date))
  {
    SubsetCard(s.dailyEngagement.values[date], s.allUniqueUsers);
  }

  /** `computeEngagementData`: one row per day, in ascending date order; every row has the
      same denominator, all users seen, and its day's users never exceed it. */
  function ComputeEngagementData(s: EngagementState): (r: seq<DailyEngagementData>)
    requires s.Valid()
    ensures |r| == |s.dailyEngagement.keys|
    ensures forall i, j :: 0 <= i < j < |r| ==> StrLt(r[i].date, r[j].date)
    ensures forall d :: d in s.dailyEngagement.values ==> exists j :: 0 <= j < |r| && r[j].date == d
    ensures forall j :: 0 <= j < |r| ==> IsEngagementRow(s, r[j])
  {
    var rows := EngagementRows(s);
    SortKeyedGoodRows(s.dailyEngagement.keys, rows, RowDate, row => IsEngagementRow(s, row));
    StableSort(rows, ByDate(RowDate))
  }

  /** The rows in the map's insertion order, before sorting. */
  function EngagementRows(s: EngagementState): (rows: seq<DailyEngagementData>)
    requires s.Valid()
    ensures |rows| == |s.dailyEngagement.keys|
    ensures forall i :: 0 <= i < |rows| ==> RowDate(rows[i]) == s.dailyEngagement.keys[i] && IsEngagementRow(s, rows[i])
  {
    var keys := s.dailyEngagement.keys;
    var rows := seq(|keys|, i requires 0 <= i < |keys| => EngagementRow(s, keys[i]));
    forall i | 0 <= i < |keys| ensures RowDate(rows[i]) == keys[i] && IsEngagementRow(s, rows[i]) {
      EngagementRowIsRow(s, keys[i]);
    }
    rows
  }

  // ---------------------------------------------------------------- over a record stream

  /** The accumulator after feeding `ms` in order. */
  function EngagementOf(ms: seq<Metric>): (r: EngagementState)
    ensures r.Valid()
  {
    if ms == [] then EmptyEngagement()
    else AddEngagement(EngagementOf(ms[..|ms| - 1]), ms[|ms| - 1].day, ms[|ms| - 1].userId)
  }

  /** The users with a record on day `d`. */
  function UsersOn(ms: seq<Metric>, d: string): set<int>
  {
    set m | m in ms && m.day == d :: m.userId
  }

  lemma UsersOnSnoc(p: seq<Metric>, m: Metric, d: string)
    ensures UsersOn(p + [m], d) == UsersOn(p, d) + (if m.day == d then {m.userId} else {})
  {
    assert forall x :: x in p + [m] <==> x in p || x == m;
  }

  lemma UsersOnNone(p: seq<Metric>, d: string)
    requires !exists x :: x in p && x.day == d
    ensures UsersOn(p, d) == {}
  {
  }

  /** After a stream, all users are exactly the users of its records. */
  lemma {:induction false} EngagementOfUsers(ms: seq<Metric>)
    ensures EngagementOf(ms).allUniqueUsers == set m | m in ms :: m.userId
  {
    if ms != [] {
      var n := |ms| - 1;
      var p, m := ms[..n], ms[n];
      EngagementOfUsers(p);
      assert ms == p + [m];
      assert (set x | x in ms :: x.userId) == (set x | x in p :: x.userId) + {m.userId};
    }
  }

  /** After a stream, the days are exactly the days of its records. */
  lemma {:induction false} EngagementOfDays(ms: seq<Metric>)
    ensures forall d :: d in EngagementOf(ms).dailyEngagement.values <==> exists m :: m in ms && m.day == d
  {
    if ms != [] {
      var n := |ms| - 1;
      var p, m := ms[..n], ms[n];
      EngagementOfDays(p);
      assert ms == p + [m];
      var s := EngagementOf(ms);
      forall d ensures d in s.dailyEngagement.values <==> exists x :: x in ms && x.day == d {
        if d != m.day && d in s.dailyEngagement.values {
          var x :| x in p && x.day == d;
          assert x in ms;
        }
        if d == m.day {
          assert m in ms;
        }
      }
    }
  }

  /** After a stream, each day holds exactly the users with a record that day. */
  lemma {:induction false} EngagementOfDayUsers(ms: seq<Metric>)
    ensures forall d :: d in EngagementOf(ms).dailyEngagement.values ==>
      EngagementOf(ms).dailyEngagement.values[d] == UsersOn(ms, d)
  {
    if ms != [] {
      var n := |ms| - 1;
      var p, m := ms[..n], ms[n];
      EngagementOfDayUsers(p);
      EngagementOfDays(p);
      assert ms == p + [m];
      var s := EngagementOf(ms);
      forall d | d in s.dailyEngagement.values ensures s.dailyEngagement.values[d] == UsersOn(ms, d) {
        UsersOnSnoc(p, m, d);
        if d !in EngagementOf(p).dailyEngagement.values {
          UsersOnNone(p, d);
        }
      }
    }
  }
}
