/** A user's records and the per-field sums over them, which both user-summary builders
    compute. */
module UserRecords {
  import opened Sorting
  import opened MetricTypes

  function IsUser(id: int): Metric -> bool
  {
    (m: Metric) => m.userId == id
  }

  /** The records of user `id`, in input order. */
  function RecordsOf(ms: seq<Metric>, id: int): seq<Metric>
  {
    Filter(ms, IsUser(id))
  }

  /** The sum of one numeric field over some records. */
  function SumOf(rs: seq<Metric>, f: Metric -> int): int
  {
    if rs == [] then 0 else SumOf(rs[..|rs| - 1], f) + f(rs[|rs| - 1])
  }

  predicate AnyAgent(rs: seq<Metric>)
  {
    exists i :: 0 <= i < |rs| && rs[i].usedAgent
  }

  predicate AnyChat(rs: seq<Metric>)
  {
    exists i :: 0 <= i < |rs| && rs[i].usedChat
  }

  /** The distinct days of some records. */
  function DaysOf(rs: seq<Metric>): set<string>
  {
    set m | m in rs :: m.day
  }

  function Interactions(m: Metric): int { m.interactions }
  function Generations(m: Metric): int { m.generations }
  function Acceptances(m: Metric): int { m.acceptances }
  function LocAdded(m: Metric): int { m.locAdded }
  function LocDeleted(m: Metric): int { m.locDeleted }
  function LocSuggestedToAdd(m: Metric): int { m.locSuggestedToAdd }
  function LocSuggestedToDelete(m: Metric): int { m.locSuggestedToDelete }
  function GeneratedLoc(m: Metric): int { m.generatedLoc }
  function AcceptedLoc(m: Metric): int { m.acceptedLoc }

  /** One more record: it joins the user's records exactly when it is the user's. */
  lemma RecordsOfSnoc(p: seq<Metric>, m: Metric, id: int)
    ensures RecordsOf(p + [m], id) == RecordsOf(p, id) + (if m.userId == id then [m] else [])
  {
    FilterAppend(p, [m], IsUser(id));
    assert Filter([m], IsUser(id)) == (if m.userId == id then [m] else []) + Filter([m][1..], IsUser(id));
  }

  /** The sums, flags and days of a list grown by one record. */
  lemma Snoc(rs: seq<Metric>, m: Metric)
    ensures forall f :: SumOf(rs + [m], f) == SumOf(rs, f) + f(m)
    ensures AnyAgent(rs + [m]) == (AnyAgent(rs) || m.usedAgent)
    ensures AnyChat(rs + [m]) == (AnyChat(rs) || m.usedChat)
    ensures DaysOf(rs + [m]) == DaysOf(rs) + {m.day}
    ensures rs != [] ==> (rs + [m])[0] == rs[0]
  {
    assert (rs + [m])[..|rs|] == rs;
    assert forall x :: x in rs + [m] <==> x in rs || x == m;
    assert (rs + [m])[|rs|] == m;
    if AnyAgent(rs) {
      var i :| 0 <= i < |rs| && rs[i].usedAgent;
      assert (rs + [m])[i] == rs[i];
    }
    if AnyChat(rs) {
      var i :| 0 <= i < |rs| && rs[i].usedChat;
      assert (rs + [m])[i] == rs[i];
    }
    if AnyAgent(rs + [m]) && !m.usedAgent {
      var i :| 0 <= i < |rs| + 1 && (rs + [m])[i].usedAgent;
      assert rs[i].usedAgent;
    }
    if AnyChat(rs + [m]) && !m.usedChat {
      var i :| 0 <= i < |rs| + 1 && (rs + [m])[i].usedChat;
      assert rs[i].usedChat;
    }
  }

  /** A list has at least as many records as distinct days, and strictly more when two of
      its records share a day. */
  lemma {:induction false} DaysAtMostRecords(rs: seq<Metric>)
    ensures |DaysOf(rs)| <= |rs|
    ensures (exists i, j :: 0 <= i < j < |rs| && rs[i].day == rs[j].day) ==> |DaysOf(rs)| < |rs|
  {
    if rs != [] {
      var n := |rs| - 1;
      var p, m := rs[..n], rs[n];
      DaysAtMostRecords(p);
      assert rs == p + [m];
      Snoc(p, m);
      if exists i, j :: 0 <= i < j < |rs| && rs[i].day == rs[j].day {
        var i, j :| 0 <= i < j < |rs| && rs[i].day == rs[j].day;
        if j == n {
          assert p[i] in p;
          assert m.day in DaysOf(p);
        } else {
          assert p[i].day == p[j].day;
        }
      }
    }
  }
}
