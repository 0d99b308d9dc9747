/** Report rows keyed by a date and sorted with `(a, b) => new Date(a.date).getTime() -
    new Date(b.date).getTime()`, which on well-formed dates is the lexicographic order. */
module DateRows {
  import opened Common
  import opened Sorting
  import opened Text

  function ByDate<R>(date: R -> string): (R, R) -> bool
  {
    (a: R, b: R) => StrLt(date(a), date(b))
  }

  lemma ByDateIsStrictWeakOrder<R(!new)>(date: R -> string)
    ensures StrictWeakOrder(ByDate(date))
  {
    var before := ByDate(date);
    forall a ensures !before(a, a) {
      StrLtIrreflexive(date(a));
    }
    forall a, b, c | before(a, b) && before(b, c) ensures before(a, c) {
      StrLtTransitive(date(a), date(b), date(c));
    }
    forall a, b, c | before(a, c) ensures before(a, b) || before(b, c) {
      if date(a) != date(b) && !StrLt(date(a), date(b)) {
        StrLtTotal(date(a), date(b));
        StrLtTransitive(date(b), date(a), date(c));
      }
    }
  }

  /** Rows whose dates are pairwise different come out of the sort as the same rows in
      strictly ascending date order. */
  lemma SortByDate<R(!new)>(rows: seq<R>, date: R -> string)
    requires DistinctBy(rows, date)
    ensures var r := StableSort(rows, ByDate(date));
      && |r| == |rows|
      && (forall x :: x in r <==> x in rows)
      && (forall i, j :: 0 <= i < j < |r| ==> StrLt(date(r[i]), date(r[j])))
  {
    var r := StableSort(rows, ByDate(date));
    ByDateIsStrictWeakOrder(date);
    SortMembers(rows, ByDate(date));
    SortSorted(rows, ByDate(date));
    SortDistinct(rows, ByDate(date), date);
    forall i, j | 0 <= i < j < |r| ensures StrLt(date(r[i]), date(r[j])) {
      StrLtTotal(date(r[i]), date(r[j]));
    }
  }

  /** Rows built one per key of a list of distinct dates come out of the sort as exactly
      those rows, one per date, in strictly ascending date order. */
  lemma SortKeyedRows<R(!new)>(keys: seq<string>, rows: seq<R>, date: R -> string)
    requires Distinct(keys) && |rows| == |keys|
    requires forall i :: 0 <= i < |keys| ==> date(rows[i]) == keys[i]
    ensures var r := StableSort(rows, ByDate(date));
      && |r| == |keys|
      && (forall x :: x in r <==> x in rows)
      && (forall i, j :: 0 <= i < j < |r| ==> StrLt(date(r[i]), date(r[j])))
      && (forall k :: k in keys ==> exists j :: 0 <= j < |r| && date(r[j]) == k)
  {
    var r := StableSort(rows, ByDate(date));
    SortByDate(rows, date);
    forall k | k in keys ensures exists j :: 0 <= j < |r| && date(r[j]) == k {
      var i :| 0 <= i < |keys| && keys[i] == k;
      assert rows[i] in r;
      var j :| 0 <= j < |r| && r[j] == rows[i];
    }
  }

  /** Moreover, a property every built row has holds of every sorted row. */
  lemma SortKeyedGoodRows<R(!new)>(keys: seq<string>, rows: seq<R>, date: R -> string, good: R -> bool)
    requires Distinct(keys) && |rows| == |keys|
    requires forall i :: 0 <= i < |keys| ==> date(rows[i]) == keys[i] && good(rows[i])
    ensures var r := StableSort(rows, ByDate(date));
      && (forall i, j :: 0 <= i < j < |r| ==> StrLt(date(r[i]), date(r[j])))
      && (forall k :: k in keys ==> exists j :: 0 <= j < |r| && date(r[j]) == k)
      && (forall j :: 0 <= j < |r| ==> good(r[j]))
  {
    var r := StableSort(rows, ByDate(date));
    SortKeyedRows(keys, rows, date);
    forall j | 0 <= j < |r| ensures good(r[j]) {
      assert r[j] in rows;
    }
  }
}
