/** Branded identifiers: plain values under another name, with the run-time guards that
    decide whether an unknown value may be treated as one. */
module Branded {

  /** A JavaScript value as the guards inspect it: a finite number, NaN or an infinity, a
      string, or anything else. */
  datatype JsValue = Num(x: real) | NonFinite | Str(s: string) | Other

  type UserId = int
  type UserLogin = string
  type EnterpriseId = string
  type EnterpriseName = string
  type MetricDate = string
  type IsoDateString = string
  type ModelId = string
  type ModelName = string
  type IdeId = string
  type IdeName = string
  type LanguageId = string
  type LanguageName = string
  type FeatureId = string
  type FeatureName = string
  type PluginVersion = string

  function CreateUserId(id: int): UserId { id }
  function CreateUserLogin(login: string): UserLogin { login }
  function CreateEnterpriseId(id: string): EnterpriseId { id }
  function CreateEnterpriseName(name: string): EnterpriseName { name }
  function CreateMetricDate(date: string): MetricDate { date }
  function CreateIsoDateString(date: string): IsoDateString { date }
  function CreateModelId(id: string): ModelId { id }
  function CreateModelName(name: string): ModelName { name }
  function CreateIdeId(id: string): IdeId { id }
  function CreateIdeName(name: string): IdeName { name }
  function CreateLanguageId(id: string): LanguageId { id }
  function CreateLanguageName(name: string): LanguageName { name }
  function CreateFeatureId(id: string): FeatureId { id }
  function CreateFeatureName(name: string): FeatureName { name }
  function CreatePluginVersion(version: string): PluginVersion { version }

  /** Every `create*` helper hands back its argument unchanged. */
  lemma CreatorsAreIdentities(n: int, s: string)
    ensures CreateUserId(n) == n
    ensures CreateUserLogin(s) == s && CreateEnterpriseId(s) == s && CreateEnterpriseName(s) == s
    ensures CreateMetricDate(s) == s && CreateIsoDateString(s) == s
    ensures CreateModelId(s) == s && CreateModelName(s) == s && CreateIdeId(s) == s && CreateIdeName(s) == s
    ensures CreateLanguageId(s) == s && CreateLanguageName(s) == s
    ensures CreateFeatureId(s) == s && CreateFeatureName(s) == s && CreatePluginVersion(s) == s
  {
  }

  /** `isUserId`: a number that `Number.isInteger` accepts. */
  function IsUserId(v: JsValue): (r: bool)
    ensures r ==> v.Num?
  {
    v.Num? && v.x.Floor as real == v.x
  }

  /** Every integer is accepted. */
  lemma IsUserIdAcceptsIntegers(k: int)
    ensures IsUserId(Num(k as real))
  {
  }

  /** A number strictly between two consecutive integers is rejected. */
  lemma IsUserIdRejectsFractions(k: int, x: real)
    requires k as real < x < (k + 1) as real
    ensures !IsUserId(Num(x))
  {
    var f := x.Floor;
    assert f as real <= x < f as real + 1.0;
    assert f == k;
  }

  /** `isUserLogin`: a string that is not empty. */
  predicate IsUserLogin(v: JsValue)
  {
    v.Str? && |v.s| > 0
  }

  /** Every non-empty string is accepted. */
  lemma IsUserLoginAcceptsNonEmpty(s: string)
    requires s != []
    ensures IsUserLogin(Str(s))
  {
  }

  /** The empty string and every value that is not a string are rejected. */
  lemma IsUserLoginRejects(v: JsValue)
    requires v == Str("") || !v.Str?
    ensures !IsUserLogin(v)
  {
  }

  // ---------------------------------------------------------------- the date pattern

  /** One position of an anchored pattern: `\d` (an ASCII digit) or a literal `-`. */
  datatype Atom = Digit | Dash

  predicate AtomMatches(a: Atom, c: char)
  {
    match a
    case Digit => '0' <= c <= '9'
    case Dash => c == '-'
  }

  /** `^\d{4}-\d{2}-\d{2}$`, one atom per character. */
  const DatePattern: seq<Atom> := [Digit, Digit, Digit, Digit, Dash, Digit, Digit, Dash, Digit, Digit]

  /** The anchored match of a pattern without repetition: the whole string, atom by atom. */
  function MatchAll(p: seq<Atom>, s: string): (r: bool)
    ensures r <==> |p| == |s| && forall i :: 0 <= i < |p| ==> AtomMatches(p[i], s[i])
  {
    if p == [] then s == []
    else s != [] && AtomMatches(p[0], s[0]) && MatchAll(p[1..], s[1..])
  }

  /** `isMetricDate`: ten characters, dashes at positions 4 and 7, ASCII digits elsewhere. */
  function IsMetricDate(v: JsValue): (r: bool)
    ensures r <==> (v.Str? && |v.s| == 10 && v.s[4] == '-' && v.s[7] == '-' &&
      forall i :: 0 <= i < 10 && i != 4 && i != 7 ==> '0' <= v.s[i] <= '9')
  {
    v.Str? && MatchAll(DatePattern, v.s)
  }

  /** Month and day ranges are not checked. */
  lemma IsMetricDateExamples()
    ensures IsMetricDate(Str("2025-13-99"))
  {
    var s := "2025-13-99";
    assert s == ['2', '0', '2', '5', '-', '1', '3', '-', '9', '9'];
    forall i | 0 <= i < 10 && i != 4 && i != 7 ensures '0' <= s[i] <= '9' {
      assert i in {0, 1, 2, 3, 5, 6, 8, 9};
    }
  }

  /** A missing leading zero is refused, and so is a number. */
  lemma IsMetricDateRefusals()
    ensures !IsMetricDate(Str("2025-1-01"))
    ensures !IsMetricDate(Num(20250101.0))
  {
    assert |"2025-1-01"| == 9;
  }
}
