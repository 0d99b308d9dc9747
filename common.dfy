/** Small shared vocabulary: optional values, distinctness, and the rounding that the
    reports apply with `Math.round`. */
module Common {

  datatype Option<T> = None | Some(value: T)

  /** No element occurs twice. */
  predicate Distinct<T(==)>(s: seq<T>)
  {
    forall i, j :: 0 <= i < j < |s| ==> s[i] != s[j]
  }

  /** A subset is no larger than its superset. */
  lemma SubsetCard<T>(a: set<T>, b: set<T>)
    requires a <= b
    ensures |a| <= |b|
  {
    assert b == a + (b - a);
  }

  /** Without its last element, a list without repetitions still has none, and does not
      hold that element. */
  lemma DistinctSnoc<T>(s: seq<T>)
    requires Distinct(s) && s != []
    ensures Distinct(s[..|s| - 1]) && s[|s| - 1] !in s[..|s| - 1]
  {
    var q := s[..|s| - 1];
    forall i, j | 0 <= i < j < |q| ensures q[i] != q[j] {
      assert q[i] == s[i] && q[j] == s[j];
    }
    forall i | 0 <= i < |q| ensures q[i] != s[|s| - 1] {
      assert q[i] == s[i];
    }
  }

  function Max(a: int, b: int): int { if a < b then b else a }

  /** `Math.round(num / den)` on the exact quotient: the nearest integer, a half rounded up. */
  function RoundRatio(num: int, den: int): (r: int)
    requires den > 0
    ensures 2 * den * r <= 2 * num + den < 2 * den * (r + 1)
  {
    var q := (2 * num + den) / (2 * den);
    assert 2 * num + den == q * (2 * den) + (2 * num + den) % (2 * den);
    q
  }

  /** `Math.round(x * 100)` for a real `x`: `x` in whole hundredths, a half rounded up. */
  function Hundredths(x: real): (r: int)
    ensures r as real <= x * 100.0 + 0.5 < r as real + 1.0
  {
    (x * 100.0 + 0.5).Floor
  }

  /** `Math.round((part / whole) * 100 * 100) / 100` when `whole > 0`, else `0`, expressed in
      hundredths of a percent (so 10000 stands for 100.00 %). */
  function Percentage(part: int, whole: int): (r: int)
    ensures whole <= 0 ==> r == 0
    ensures 0 <= part <= whole ==> 0 <= r <= 10000
    ensures 0 < part == whole ==> r == 10000
  {
    if whole > 0 then
      var r := RoundRatio(10000 * part, whole);
      PercentageBounds(part, whole, r);
      r
    else 0
  }

  lemma PercentageBounds(part: int, whole: int, r: int)
    requires whole > 0
    requires 2 * whole * r <= 2 * (10000 * part) + whole < 2 * whole * (r + 1)
    ensures 0 <= part ==> 0 <= r
    ensures part <= whole ==> r <= 10000
    ensures 0 < part == whole ==> r == 10000
  {
    var w := 2 * whole;
    if 0 <= part && r < 0 {
      MulLe(w, r + 1, 0);
    }
    if part <= whole && r > 10000 {
      MulLe(w, 10001, r);
      MulLe(20000, part, whole);
    }
    if 0 < part == whole && r < 10000 {
      MulLe(w, r + 1, 10000);
    }
  }

  lemma MulLe(a: int, b: int, c: int)
    requires a >= 0 && b <= c
    ensures a * b <= a * c
  {
  }

  /** A positive factor can be cancelled from both sides of `<=`. */
  lemma MulLeCancel(n: int, a: int, b: int)
    requires n > 0 && n * a <= n * b
    ensures a <= b
  {
    MulPositive(n, a - b);
    assert n * (a - b) == n * a - n * b;
  }

  lemma MulPositive(n: int, d: int)
    requires n > 0
    ensures d > 0 ==> n * d > 0
  {
  }
}
