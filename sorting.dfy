/** `Array.prototype.sort`, which is stable: a comparator `cmp` is modelled by the relation
    `before(a, b)` = `cmp(a, b) < 0` ("a must come strictly before b"), and the sort is an
    insertion sort that places each later element after every element it does not precede. */
module Sorting {

  function Insert<T>(x: T, s: seq<T>, before: (T, T) -> bool): (r: seq<T>)
    ensures |r| == |s| + 1
  {
    if s == [] || before(x, s[0]) then [x] + s else [s[0]] + Insert(x, s[1..], before)
  }

  function StableSort<T>(s: seq<T>, before: (T, T) -> bool): (r: seq<T>)
    ensures |r| == |s|
  {
    if s == [] then [] else Insert(s[|s| - 1], StableSort(s[..|s| - 1], before), before)
  }

  /** No element is placed after one that it must precede. */
  ghost predicate Sorted<T>(s: seq<T>, before: (T, T) -> bool)
  {
    forall i, j :: 0 <= i < j < |s| ==> !before(s[j], s[i])
  }

  ghost predicate StrictOrder<T(!new)>(before: (T, T) -> bool)
  {
    && (forall a :: !before(a, a))
    && (forall a, b, c :: before(a, b) && before(b, c) ==> before(a, c))
  }

  /** Elements that do not precede each other are interchangeable: whatever precedes (or
      follows) one of them precedes (or follows) the other. */
  ghost predicate StrictWeakOrder<T(!new)>(before: (T, T) -> bool)
  {
    && StrictOrder(before)
    && (forall a, b, c :: before(a, c) ==> before(a, b) || before(b, c))
  }

  /** Every two elements satisfying `p` are tied: neither must precede the other. */
  ghost predicate TieClass<T(!new)>(p: T -> bool, before: (T, T) -> bool)
  {
    forall a, b :: p(a) && p(b) ==> !before(a, b)
  }

  /** The elements of `s` satisfying `p`, in their order in `s`. */
  function Filter<T>(s: seq<T>, p: T -> bool): (r: seq<T>)
    ensures |r| <= |s|
  {
    if s == [] then [] else (if p(s[0]) then [s[0]] else []) + Filter(s[1..], p)
  }

  /** Keys are pairwise different. */
  ghost predicate DistinctBy<T, K>(s: seq<T>, key: T -> K)
  {
    forall i, j :: 0 <= i < j < |s| ==> key(s[i]) != key(s[j])
  }

  /** The elements whose key is `v`. */
  function KeyIs<T>(key: T -> int, v: int): T -> bool
  {
    x => key(x) == v
  }

  /** Descending by an integer key: the comparator `(a, b) => key(b) - key(a)`. */
  function ByDesc<T>(key: T -> int): (T, T) -> bool
  {
    (a: T, b: T) => key(a) > key(b)
  }

  /** `s[i]` has the largest key, and every earlier element has a strictly smaller one. */
  ghost predicate IsFirstMax<T>(s: seq<T>, key: T -> int, i: int)
  {
    && 0 <= i < |s|
    && (forall j :: 0 <= j < |s| ==> key(s[j]) <= key(s[i]))
    && (forall j :: 0 <= j < i ==> key(s[j]) < key(s[i]))
  }

  // ---------------------------------------------------------------- Insert

  function InsertPos<T>(x: T, s: seq<T>, before: (T, T) -> bool): (k: nat)
    ensures k <= |s|
  {
    if s == [] || before(x, s[0]) then 0 else 1 + InsertPos(x, s[1..], before)
  }

  /** `Insert` puts `x` right after the longest prefix of elements it does not precede. */
  lemma {:induction false} InsertSplit<T>(x: T, s: seq<T>, before: (T, T) -> bool)
    ensures var k := InsertPos(x, s, before);
      && Insert(x, s, before) == s[..k] + [x] + s[k..]
      && (forall i :: 0 <= i < k ==> !before(x, s[i]))
      && (k < |s| ==> before(x, s[k]))
  {
    if s != [] && !before(x, s[0]) {
      InsertSplit(x, s[1..], before);
      var k := InsertPos(x, s[1..], before);
      assert s[..k + 1] == [s[0]] + s[1..][..k];
      assert s[k + 1..] == s[1..][k..];
    }
  }

  // ---------------------------------------------------------------- Filter

  lemma {:induction false} FilterAppend<T>(a: seq<T>, b: seq<T>, p: T -> bool)
    ensures Filter(a + b, p) == Filter(a, p) + Filter(b, p)
  {
    if a == [] {
      assert a + b == b;
    } else {
      var ab := a + b;
      assert ab[0] == a[0];
      assert ab[1..] == a[1..] + b;
      FilterAppend(a[1..], b, p);
      assert Filter(ab, p) == (if p(a[0]) then [a[0]] else []) + Filter(ab[1..], p);
    }
  }

  lemma {:induction false} FilterNone<T>(s: seq<T>, p: T -> bool)
    requires forall i :: 0 <= i < |s| ==> !p(s[i])
    ensures Filter(s, p) == []
  {
    if s != [] {
      FilterNone(s[1..], p);
    }
  }

  /** `Filter` keeps exactly the elements satisfying `p`. */
  lemma {:induction false} FilterMembers<T>(s: seq<T>, p: T -> bool, x: T)
    ensures x in Filter(s, p) <==> x in s && p(x)
  {
    if s != [] {
      FilterMembers(s[1..], p, x);
      assert s == [s[0]] + s[1..];
    }
  }

  /** When every element satisfies `p`, `Filter` keeps them all. */
  lemma {:induction false} FilterAll<T>(s: seq<T>, p: T -> bool)
    requires forall i :: 0 <= i < |s| ==> p(s[i])
    ensures Filter(s, p) == s
  {
    if s != [] {
      FilterAll(s[1..], p);
      assert s == [s[0]] + s[1..];
    }
  }

  /** The first element satisfying `p` heads the filtered sequence. */
  lemma {:induction false} FilterHead<T>(s: seq<T>, p: T -> bool, i: int)
    requires 0 <= i < |s| && p(s[i])
    requires forall j :: 0 <= j < i ==> !p(s[j])
    ensures Filter(s, p) != [] && Filter(s, p)[0] == s[i]
  {
    if i > 0 {
      FilterHead(s[1..], p, i - 1);
    }
  }

  // ---------------------------------------------------------------- StableSort

  lemma InsertPermutes<T>(x: T, t: seq<T>, before: (T, T) -> bool)
    ensures multiset(Insert(x, t, before)) == multiset(t) + multiset{x}
  {
    InsertSplit(x, t, before);
    SplitPermutes(x, t, InsertPos(x, t, before));
  }

  lemma SplitPermutes<T>(x: T, t: seq<T>, k: int)
    requires 0 <= k <= |t|
    ensures multiset(t[..k] + [x] + t[k..]) == multiset(t) + multiset{x}
  {
    assert t == t[..k] + t[k..];
  }

  lemma {:induction false} SortPermutes<T>(s: seq<T>, before: (T, T) -> bool)
    ensures multiset(StableSort(s, before)) == multiset(s)
  {
    if s != [] {
      var n := |s| - 1;
      SortPermutes(s[..n], before);
      InsertPermutes(s[n], StableSort(s[..n], before), before);
      assert s == s[..n] + [s[n]];
      assert multiset(s) == multiset(s[..n]) + multiset{s[n]};
    }
  }

  lemma SortMembers<T>(s: seq<T>, before: (T, T) -> bool)
    ensures forall x :: x in StableSort(s, before) <==> x in s
  {
    SortPermutes(s, before);
    forall x ensures x in StableSort(s, before) <==> x in s {
      assert x in StableSort(s, before) <==> x in multiset(StableSort(s, before));
      assert x in s <==> x in multiset(s);
    }
  }

  /** A property of every element holds of every sorted element. */
  lemma SortKeeps<T>(s: seq<T>, before: (T, T) -> bool, good: T -> bool)
    requires forall i :: 0 <= i < |s| ==> good(s[i])
    ensures forall j :: 0 <= j < |StableSort(s, before)| ==> good(StableSort(s, before)[j])
  {
    var r := StableSort(s, before);
    SortPermutes(s, before);
    forall j | 0 <= j < |r| ensures good(r[j]) {
      assert r[j] in multiset(r);
      var i :| 0 <= i < |s| && s[i] == r[j];
    }
  }

  /** Every sorted element comes from some position of the input. */
  lemma SortedFrom<T>(s: seq<T>, before: (T, T) -> bool, j: int) returns (i: int)
    requires 0 <= j < |StableSort(s, before)|
    ensures 0 <= i < |s| && s[i] == StableSort(s, before)[j]
  {
    var r := StableSort(s, before);
    SortPermutes(s, before);
    assert r[j] in multiset(r);
    i :| 0 <= i < |s| && s[i] == r[j];
  }

  lemma {:induction false} InsertSorted<T(!new)>(x: T, s: seq<T>, before: (T, T) -> bool)
    requires StrictOrder(before) && Sorted(s, before)
    ensures Sorted(Insert(x, s, before), before)
  {
    InsertSplit(x, s, before);
    var k := InsertPos(x, s, before);
    var r := Insert(x, s, before);
    forall i, j | 0 <= i < j < |r| ensures !before(r[j], r[i]) {
      if i < k && j == k {
        assert r[i] == s[i] && r[j] == x;
      } else if i == k {
        assert r[i] == x && r[j] == s[j - 1];
        assert before(x, s[k]);
      } else {
        var i' := if i < k then i else i - 1;
        var j' := if j < k then j else j - 1;
        assert r[i] == s[i'] && r[j] == s[j'];
      }
    }
  }

  /** The sort returns its input ordered by `before`. */
  lemma {:induction false} SortSorted<T(!new)>(s: seq<T>, before: (T, T) -> bool)
    requires StrictOrder(before)
    ensures Sorted(StableSort(s, before), before)
  {
    if s != [] {
      SortSorted(s[..|s| - 1], before);
      InsertSorted(s[|s| - 1], StableSort(s[..|s| - 1], before), before);
    }
  }

  lemma {:induction false} InsertStable<T(!new)>(x: T, s: seq<T>, before: (T, T) -> bool, p: T -> bool)
    requires StrictWeakOrder(before) && Sorted(s, before) && TieClass(p, before)
    ensures Filter(Insert(x, s, before), p) == Filter(s, p) + (if p(x) then [x] else [])
  {
    InsertSplit(x, s, before);
    var k := InsertPos(x, s, before);
    FilterAround(x, s, k, p);
    if p(x) && k < |s| {
      TiedAfter(x, s, before, p, k);
      FilterNone(s[k..], p);
    }
  }

  /** Filtering `s` with `x` placed at position `k`. */
  lemma FilterAround<T>(x: T, s: seq<T>, k: int, p: T -> bool)
    requires 0 <= k <= |s|
    ensures Filter(s[..k] + [x] + s[k..], p) == Filter(s[..k], p) + (if p(x) then [x] else []) + Filter(s[k..], p)
    ensures Filter(s, p) == Filter(s[..k], p) + Filter(s[k..], p)
  {
    var a, b := s[..k], s[k..];
    FilterAppend(a + [x], b, p);
    FilterAppend(a, [x], p);
    assert [x][1..] == [];
    assert Filter([x], p) == (if p(x) then [x] else []);
    FilterAppend(a, b, p);
    assert s == a + b;
  }

  /** Whatever `x` must precede, and everything sorted after it, is not tied with `x`. */
  lemma TiedAfter<T(!new)>(x: T, s: seq<T>, before: (T, T) -> bool, p: T -> bool, k: int)
    requires StrictWeakOrder(before) && Sorted(s, before) && TieClass(p, before)
    requires p(x) && 0 <= k < |s| && before(x, s[k])
    ensures forall m :: 0 <= m < |s[k..]| ==> !p(s[k..][m])
  {
    forall m | 0 <= m < |s[k..]| ensures !p(s[k..][m]) {
      var y := s[k + m];
      if m > 0 {
        assert !before(y, s[k]);
      }
      assert before(x, y);
    }
  }

  /** Stability: the elements of every tie class keep their relative order. */
  lemma {:induction false} SortStable<T(!new)>(s: seq<T>, before: (T, T) -> bool, p: T -> bool)
    requires StrictWeakOrder(before) && TieClass(p, before)
    ensures Filter(StableSort(s, before), p) == Filter(s, p)
  {
    if s != [] {
      var n := |s| - 1;
      var q, x := s[..n], s[n];
      var t := StableSort(q, before);
      SortStable(q, before, p);
      SortSorted(q, before);
      InsertStable(x, t, before, p);
      FilterSnoc(s, p);
      assert StableSort(s, before) == Insert(x, t, before);
    }
  }

  /** Filtering a list is filtering all but its last element, then its last element. */
  lemma FilterSnoc<T>(s: seq<T>, p: T -> bool)
    requires s != []
    ensures Filter(s, p) == Filter(s[..|s| - 1], p) + (if p(s[|s| - 1]) then [s[|s| - 1]] else [])
  {
    var n := |s| - 1;
    assert s == s[..n] + [s[n]];
    FilterAppend(s[..n], [s[n]], p);
    assert [s[n]][1..] == [];
  }

  /** Distinct keys stay distinct. */
  lemma {:induction false} SortDistinct<T, K>(s: seq<T>, before: (T, T) -> bool, key: T -> K)
    requires DistinctBy(s, key)
    ensures DistinctBy(StableSort(s, before), key)
  {
    if s != [] {
      var n := |s| - 1;
      var t := StableSort(s[..n], before);
      SortDistinct(s[..n], before, key);
      SortMembers(s[..n], before);
      InsertSplit(s[n], t, before);
      var k := InsertPos(s[n], t, before);
      var r := Insert(s[n], t, before);
      forall i, j | 0 <= i < j < |r| ensures key(r[i]) != key(r[j]) {
        if i == k || j == k {
          var o := if i == k then j else i;
          var o' := if o < k then o else o - 1;
          assert r[o] == t[o'];
          assert t[o'] in s[..n];
        } else {
          var i' := if i < k then i else i - 1;
          var j' := if j < k then j else j - 1;
          assert r[i] == t[i'] && r[j] == t[j'];
        }
      }
    }
  }

  // ---------------------------------------------------------------- descending by a key

  lemma ByDescIsStrictWeakOrder<T(!new)>(key: T -> int)
    ensures StrictWeakOrder(ByDesc(key))
  {
  }

  /** Sorting by a key, descending, yields non-increasing keys, equal keys in input order. */
  lemma SortDesc<T(!new)>(s: seq<T>, key: T -> int)
    ensures var r := StableSort(s, ByDesc(key));
      && multiset(r) == multiset(s)
      && (forall i, j :: 0 <= i < j < |r| ==> key(r[i]) >= key(r[j]))
      && (forall v :: Filter(r, KeyIs(key, v)) == Filter(s, KeyIs(key, v)))
  {
    ByDescIsStrictWeakOrder(key);
    SortPermutes(s, ByDesc(key));
    SortSorted(s, ByDesc(key));
    forall v ensures Filter(StableSort(s, ByDesc(key)), KeyIs(key, v)) == Filter(s, KeyIs(key, v)) {
      SortStable(s, ByDesc(key), KeyIs(key, v));
    }
  }

  /** The head of a descending sort is the first element with the largest key: taking
      `sorted[0]` picks the first-inserted maximum. */
  lemma SortDescHead<T(!new)>(s: seq<T>, key: T -> int)
    requires s != []
    ensures exists i :: IsFirstMax(s, key, i) && StableSort(s, ByDesc(key))[0] == s[i]
  {
    var r := StableSort(s, ByDesc(key));
    var i := FirstMaxIndex(s, key);
    var p := KeyIs(key, key(s[i]));
    SortDesc(s, key);
    assert r[0] in multiset(s);
    assert s[i] in multiset(r);
    FilterHead(s, p, i);
    FilterHead(r, p, 0);
    SortStable(s, ByDesc(key), p);
  }

  function FirstMaxIndex<T>(s: seq<T>, key: T -> int): (i: int)
    requires s != []
    ensures IsFirstMax(s, key, i)
  {
    if |s| == 1 then 0
    else
      var i := FirstMaxIndex(s[..|s| - 1], key);
      if key(s[|s| - 1]) > key(s[i]) then |s| - 1 else i
  }
}
