/** Sums, extremes and averages of a numeric accessor over a list, for the charts. */
module StatsCalculators {
  import opened Common
  import opened Sorting

  /** `calculateTotal`: the accessor values added up from left to right, 0 for no items. */
  function CalculateTotal<T>(data: seq<T>, f: T -> int): (r: int)
    ensures data == [] ==> r == 0
    ensures |data| == 1 ==> r == f(data[0])
  {
    if data == [] then 0 else CalculateTotal(data[..|data| - 1], f) + f(data[|data| - 1])
  }

  /** The total of a concatenation is the sum of the totals. */
  lemma {:induction false} TotalAppend<T>(a: seq<T>, b: seq<T>, f: T -> int)
    ensures CalculateTotal(a + b, f) == CalculateTotal(a, f) + CalculateTotal(b, f)
  {
    if b == [] {
      assert a + b == a;
    } else {
      var n := |b| - 1;
      assert (a + b)[..|a + b| - 1] == a + b[..n];
      TotalAppend(a, b[..n], f);
    }
  }

  /** Values between `lo` and `hi` add up to between `|data| * lo` and `|data| * hi`. */
  lemma {:induction false} TotalBounds<T>(data: seq<T>, f: T -> int, lo: int, hi: int)
    requires forall i :: 0 <= i < |data| ==> lo <= f(data[i]) <= hi
    ensures |data| * lo <= CalculateTotal(data, f) <= |data| * hi
  {
    if data != [] {
      var n := |data| - 1;
      TotalBounds(data[..n], f, lo, hi);
      assert |data| * lo == n * lo + lo;
      assert |data| * hi == n * hi + hi;
    }
  }

  /** `findMaxValue`: 0 for no items, otherwise the largest accessor value. */
  function FindMaxValue<T>(data: seq<T>, f: T -> int): (r: int)
    ensures data == [] ==> r == 0
    ensures data != [] ==> (exists i :: 0 <= i < |data| && r == f(data[i]))
    ensures forall i :: 0 <= i < |data| ==> f(data[i]) <= r
  {
    if data == [] then 0
    else if |data| == 1 then f(data[0])
    else Max(FindMaxValue(data[..|data| - 1], f), f(data[|data| - 1]))
  }

  /** `findMinValue`: 0 for no items, otherwise the smallest accessor value. */
  function FindMinValue<T>(data: seq<T>, f: T -> int): (r: int)
    ensures data == [] ==> r == 0
    ensures data != [] ==> (exists i :: 0 <= i < |data| && r == f(data[i]))
    ensures forall i :: 0 <= i < |data| ==> r <= f(data[i])
  {
    if data == [] then 0
    else if |data| == 1 then f(data[0])
    else
      var m := FindMinValue(data[..|data| - 1], f);
      if f(data[|data| - 1]) < m then f(data[|data| - 1]) else m
  }

  /** `findMaxItem`: none for no items, otherwise the first item with the largest value;
      a later item replaces the current one only when strictly larger. */
  function FindMaxItem<T>(data: seq<T>, f: T -> int): (r: Option<T>)
    ensures data == [] <==> r == None
    ensures data != [] ==> exists i :: IsFirstMax(data, f, i) && r == Some(data[i])
  {
    if data == [] then None
    else
      var i := FirstMaxIndex(data, f);
      Some(data[i])
  }

  /** `s[i]` has the smallest key, and every earlier element has a strictly larger one. */
  ghost predicate IsFirstMin<T>(s: seq<T>, key: T -> int, i: int)
  {
    && 0 <= i < |s|
    && (forall j :: 0 <= j < |s| ==> key(s[i]) <= key(s[j]))
    && (forall j :: 0 <= j < i ==> key(s[j]) > key(s[i]))
  }

  /** The index `data.reduce` settles on with the strict `<` comparison. */
  function FirstMinIndex<T>(s: seq<T>, key: T -> int): (i: int)
    requires s != []
    ensures IsFirstMin(s, key, i)
  {
    if |s| == 1 then 0
    else
      var i := FirstMinIndex(s[..|s| - 1], key);
      if key(s[|s| - 1]) < key(s[i]) then |s| - 1 else i
  }

  /** `findMinItem`: none for no items, otherwise the first item with the smallest value. */
  function FindMinItem<T>(data: seq<T>, f: T -> int): (r: Option<T>)
    ensures data == [] <==> r == None
    ensures data != [] ==> exists i :: IsFirstMin(data, f, i) && r == Some(data[i])
  {
    if data == [] then None
    else
      var i := FirstMinIndex(data, f);
      Some(data[i])
  }

  /** The item found agrees with the value found. */
  lemma ItemsMatchValues<T>(data: seq<T>, f: T -> int)
    requires data != []
    ensures f(FindMaxItem(data, f).value) == FindMaxValue(data, f)
    ensures f(FindMinItem(data, f).value) == FindMinValue(data, f)
  {
  }

  function Pow10(n: nat): (r: nat)
    ensures r >= 1
  {
    if n == 0 then 1 else 10 * Pow10(n - 1)
  }

  /** A rounded average of values between `lo` and `hi`, scaled by `k`, lies between
      `k * lo` and `k * hi`. */
  lemma AverageBounds(total: int, n: int, lo: int, hi: int, k: int, r: int)
    requires n > 0 && k >= 0
    requires n * lo <= total <= n * hi
    requires 2 * n * r <= 2 * (k * total) + n < 2 * n * (r + 1)
    ensures k * lo <= r <= k * hi
  {
    var a, b := k * lo, k * hi;
    MulLe(k, n * lo, total);
    MulLe(k, total, n * hi);
    assert k * (n * lo) == n * a;
    assert k * (n * hi) == n * b;
    assert n * (2 * a + 1) == 2 * (n * a) + n;
    assert n * (2 * r + 2) == 2 * n * (r + 1);
    MulLeCancel(n, 2 * a + 1, 2 * r + 2);
    assert n * (2 * r) == 2 * n * r;
    assert n * (2 * b + 1) == 2 * (n * b) + n;
    MulLeCancel(n, 2 * r, 2 * b + 1);
  }

  /** `calculateAverage`: 0 for no items, otherwise the mean rounded to `decimals` places,
      given in units of `10^-decimals`; it lies between the smallest and largest value. */
  function CalculateAverage<T>(data: seq<T>, f: T -> int, decimals: nat): (r: int)
    ensures data == [] ==> r == 0
    ensures data != [] ==>
      var k := Pow10(decimals);
      && 2 * |data| * r <= 2 * (k * CalculateTotal(data, f)) + |data| < 2 * |data| * (r + 1)
      && k * FindMinValue(data, f) <= r <= k * FindMaxValue(data, f)
  {
    if data == [] then 0
    else
      var k := Pow10(decimals);
      var total := CalculateTotal(data, f);
      var r := RoundRatio(k * total, |data|);
      TotalBounds(data, f, FindMinValue(data, f), FindMaxValue(data, f));
      AverageBounds(total, |data|, FindMinValue(data, f), FindMaxValue(data, f), k, r);
      r
  }

  /** The combined result; `average` is in hundredths. */
  datatype Stats = Stats(average: int, total: int, max: int, min: int, count: int)

  /** `calculateStats`: all zeros for no items; otherwise the count, the total, the extremes
      and the average rounded to hundredths, which lies between them. */
  function CalculateStats<T>(data: seq<T>, f: T -> int): (r: Stats)
    ensures data == [] ==> r == Stats(0, 0, 0, 0, 0)
    ensures data != [] ==>
      && r.count == |data|
      && r.total == CalculateTotal(data, f)
      && r.max == FindMaxValue(data, f) && r.min == FindMinValue(data, f)
      && r.min <= r.max
      && 100 * r.min <= r.average <= 100 * r.max
      && r.average == CalculateAverage(data, f, 2)
  {
    if data == [] then Stats(0, 0, 0, 0, 0)
    else
      var total := CalculateTotal(data, f);
      var average := RoundRatio(100 * total, |data|);
      var r := Stats(average, total, FindMaxValue(data, f), FindMinValue(data, f), |data|);
      assert Pow10(2) == 100;
      TotalBounds(data, f, r.min, r.max);
      AverageBounds(total, |data|, r.min, r.max, 100, average);
      r
  }
}
