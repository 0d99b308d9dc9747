/** Per-language generation, acceptance and lines-of-code totals with the users behind them. */
module LanguageCalculator {
  import opened Common
  import opened Text
  import opened InsertionMap
  import opened Sorting

  /** The six amounts a fragment carries and a language cell sums. */
  datatype LanguageTotals = LanguageTotals(
    totalGenerations: int,
    totalAcceptances: int,
    locAdded: int,
    locDeleted: int,
    locSuggestedToAdd: int,
    locSuggestedToDelete: int)
  {
    function Plus(o: LanguageTotals): LanguageTotals
    {
      LanguageTotals(
        totalGenerations + o.totalGenerations, totalAcceptances + o.totalAcceptances,
        locAdded + o.locAdded, locDeleted + o.locDeleted,
        locSuggestedToAdd + o.locSuggestedToAdd, locSuggestedToDelete + o.locSuggestedToDelete)
    }
  }

  const NoTotals := LanguageTotals(0, 0, 0, 0, 0, 0)

  /** One entry of `languageStatsMap`. */
  datatype LanguageCell = LanguageCell(totals: LanguageTotals, users: set<int>)

  const EmptyCell := LanguageCell(NoTotals, {})

  /** The arguments of one `accumulateLanguageStats` call. */
  datatype LanguageEvent = LanguageEvent(userId: int, language: string, amounts: LanguageTotals)

  /** `accumulateLanguageStats` on the map: the language's cell (zeroed and without users if
      new, appended last) gains exactly the six amounts and the user; others are unchanged. */
  function AddLanguage(m: IMap<string, LanguageCell>, e: LanguageEvent): (r: IMap<string, LanguageCell>)
    requires m.Valid()
    ensures r.Valid()
    ensures e.language in r.values
    ensures r.values[e.language].totals == m.GetOr(e.language, EmptyCell).totals.Plus(e.amounts)
    ensures r.values[e.language].users == m.GetOr(e.language, EmptyCell).users + {e.userId}
    ensures r.keys == if e.language in m.values then m.keys else m.keys + [e.language]
    ensures forall l :: l != e.language ==>
      (l in r.values <==> l in m.values) && (l in m.values ==> r.values[l] == m.values[l])
  {
    var m1 := if e.language in m.values then m else m.Put(e.language, EmptyCell);
    var cell := m1.values[e.language];
    m1.Put(e.language, LanguageCell(cell.totals.Plus(e.amounts), cell.users + {e.userId}))
  }

  class LanguageAccumulator {
    var languageStatsMap: IMap<string, LanguageCell>

    /** `createLanguageAccumulator`. */
    constructor ()
      ensures languageStatsMap == Empty()
    {
      languageStatsMap := Empty();
    }
  }

  /** `accumulateLanguageStats`. */
  method AccumulateLanguageStats(acc: LanguageAccumulator, userId: int, language: string,
      generations: int, acceptances: int, locAdded: int, locDeleted: int,
      locSuggestedToAdd: int, locSuggestedToDelete: int)
    requires acc.languageStatsMap.Valid()
    modifies acc
    ensures acc.languageStatsMap == AddLanguage(old(acc.languageStatsMap), LanguageEvent(userId, language,
      LanguageTotals(generations, acceptances, locAdded, locDeleted, locSuggestedToAdd, locSuggestedToDelete)))
  {
    if language !in acc.languageStatsMap.values {
      acc.languageStatsMap := acc.languageStatsMap.Put(language, EmptyCell);
    }
    var stats := acc.languageStatsMap.values[language];
    var t := stats.totals;
    t := t.(totalGenerations := t.totalGenerations + generations);
    t := t.(totalAcceptances := t.totalAcceptances + acceptances);
    t := t.(locAdded := t.locAdded + locAdded);
    t := t.(locDeleted := t.locDeleted + locDeleted);
    t := t.(locSuggestedToAdd := t.locSuggestedToAdd + locSuggestedToAdd);
    t := t.(locSuggestedToDelete := t.locSuggestedToDelete + locSuggestedToDelete);
    acc.languageStatsMap := acc.languageStatsMap.Put(language, LanguageCell(t, stats.users + {userId}));
  }

  // ---------------------------------------------------------------- report rows

  datatype LanguageStats = LanguageStats(
    language: string,
    totalGenerations: int,
    totalAcceptances: int,
    totalEngagements: int,
    uniqueUsers: int,
    locAdded: int,
    locDeleted: int,
    locSuggestedToAdd: int,
    locSuggestedToDelete: int)

  function Engagements(row: LanguageStats): int { row.totalEngagements }

  function StatsRow(language: string, c: LanguageCell): LanguageStats
  {
    var t := c.totals;
    LanguageStats(language, t.totalGenerations, t.totalAcceptances, t.totalGenerations + t.totalAcceptances,
      |c.users|, t.locAdded, t.locDeleted, t.locSuggestedToAdd, t.locSuggestedToDelete)
  }

  /** The rows in the map's insertion order, before sorting. */
  function StatsRows(m: IMap<string, LanguageCell>): (rows: seq<LanguageStats>)
    requires m.Valid()
    ensures |rows| == |m.keys|
    ensures forall i :: 0 <= i < |rows| ==> rows[i].language == m.keys[i]
  {
    seq(|m.keys|, i requires 0 <= i < |m.keys| => StatsRow(m.keys[i], m.values[m.keys[i]]))
  }

  /** A row reports its language's cell, with engagements = generations + acceptances and the
      number of distinct users. */
  ghost predicate IsStatsRow(m: IMap<string, LanguageCell>, row: LanguageStats)
  {
    && row.language in m.values
    && var c := m.values[row.language];
    && row.totalGenerations == c.totals.totalGenerations
    && row.totalAcceptances == c.totals.totalAcceptances
    && row.totalEngagements == row.totalGenerations + row.totalAcceptances
    && row.uniqueUsers == |c.users|
    && row.locAdded == c.totals.locAdded && row.locDeleted == c.totals.locDeleted
    && row.locSuggestedToAdd == c.totals.locSuggestedToAdd
    && row.locSuggestedToDelete == c.totals.locSuggestedToDelete
  }

  /** `computeLanguageStats`: one row per language, ordered by engagements descending, with
      languages of equal engagements in the map's insertion order. */
  function ComputeLanguageStats(m: IMap<string, LanguageCell>): (r: seq<LanguageStats>)
    requires m.Valid()
    ensures multiset(r) == multiset(StatsRows(m))
    ensures forall j :: 0 <= j < |r| ==> IsStatsRow(m, r[j])
    ensures forall i, j :: 0 <= i < j < |r| ==> r[i].totalEngagements >= r[j].totalEngagements
    ensures forall v :: Filter(r, KeyIs(Engagements, v)) == Filter(StatsRows(m), KeyIs(Engagements, v))
  {
    var rows := StatsRows(m);
    SortDesc(rows, Engagements);
    var r := StableSort(rows, ByDesc(Engagements));
    forall j | 0 <= j < |r| ensures IsStatsRow(m, r[j]) {
      var i := SortedFrom(rows, ByDesc(Engagements), j);
    }
    r
  }

  // ---------------------------------------------------------------- over a stream of calls

  function LanguagesOf(es: seq<LanguageEvent>): (r: IMap<string, LanguageCell>)
    ensures r.Valid()
  {
    if es == [] then Empty() else AddLanguage(LanguagesOf(es[..|es| - 1]), es[|es| - 1])
  }

  /** One more event is one more accumulation step. */
  lemma LanguagesOfSnoc(es: seq<LanguageEvent>, e: LanguageEvent)
    ensures LanguagesOf(es + [e]) == AddLanguage(LanguagesOf(es), e)
  {
    assert (es + [e])[..|es|] == es;
  }

  /** The amounts fed for `language`, summed. */
  function AmountsFor(es: seq<LanguageEvent>, language: string): LanguageTotals
  {
    if es == [] then NoTotals
    else
      var e := es[|es| - 1];
      var rest := AmountsFor(es[..|es| - 1], language);
      if e.language == language then rest.Plus(e.amounts) else rest
  }

  /** The users that fed `language`. */
  function UsersFor(es: seq<LanguageEvent>, language: string): set<int>
  {
    set e | e in es && e.language == language :: e.userId
  }

  /** After a stream, the languages are those fed, each cell holds the sums of that
      language's amounts and, as `uniqueUsers`, exactly the distinct users that fed it. */
  lemma {:induction false} LanguagesOfContents(es: seq<LanguageEvent>)
    ensures var m := LanguagesOf(es);
      forall l :: (l in m.values <==> exists e :: e in es && e.language == l)
        && (l in m.values ==> m.values[l].totals == AmountsFor(es, l) && m.values[l].users == UsersFor(es, l))
  {
    if es != [] {
      var n := |es| - 1;
      var p, e := es[..n], es[n];
      LanguagesOfContents(p);
      assert es == p + [e];
      LanguagesOfSnoc(p, e);
      var m := LanguagesOf(es);
      forall l ensures (l in m.values <==> exists x :: x in es && x.language == l)
        && (l in m.values ==> m.values[l].totals == AmountsFor(es, l) && m.values[l].users == UsersFor(es, l))
      {
        CellStep(LanguagesOf(p), p, e, l);
      }
    }
  }

  /** The cell of `l` in `m` is what the stream `es` feeds it, and exists exactly when fed. */
  ghost predicate CellMatches(m: IMap<string, LanguageCell>, es: seq<LanguageEvent>, l: string)
  {
    && (l in m.values <==> exists x :: x in es && x.language == l)
    && (l in m.values ==> m.values[l].totals == AmountsFor(es, l) && m.values[l].users == UsersFor(es, l))
  }

  /** One accumulation step keeps a cell matching its stream. */
  lemma CellStep(m: IMap<string, LanguageCell>, p: seq<LanguageEvent>, e: LanguageEvent, l: string)
    requires m.Valid() && CellMatches(m, p, l)
    ensures CellMatches(AddLanguage(m, e), p + [e], l)
  {
    var es := p + [e];
    assert es[..|p|] == p && es[|p|] == e;
    assert forall x :: x in es <==> x in p || x == e;
    UsersForSnoc(p, e, l);
    if l == e.language && l !in m.values {
      AmountsForNone(p, l);
    }
  }

  lemma UsersForSnoc(p: seq<LanguageEvent>, e: LanguageEvent, l: string)
    ensures UsersFor(p + [e], l) == UsersFor(p, l) + (if e.language == l then {e.userId} else {})
  {
    assert forall x :: x in p + [e] <==> x in p || x == e;
  }

  lemma {:induction false} AmountsForNone(p: seq<LanguageEvent>, l: string)
    requires !exists x :: x in p && x.language == l
    ensures AmountsFor(p, l) == NoTotals && UsersFor(p, l) == {}
  {
    if p != [] {
      assert p[|p| - 1] in p;
      assert forall x :: x in p[..|p| - 1] ==> x in p;
      AmountsForNone(p[..|p| - 1], l);
    }
  }

  // ---------------------------------------------------------------- filtering

  /** `shouldFilterLanguage`: never with the option off; with it on, exactly the languages
      that lower-case to "unknown" or consist of whitespace only. */
  function ShouldFilterLanguage(language: string, removeUnknownLanguages: bool): (r: bool)
    ensures !removeUnknownLanguages ==> !r
    ensures removeUnknownLanguages ==>
      (r <==> ToLower(language) == "unknown" || forall i :: 0 <= i < |language| ==> IsJsWhitespace(language[i]))
  {
    if !removeUnknownLanguages then false
    else ToLower(language) == "unknown" || Trim(language) == ""
  }

  /** Only a plain match is filtered: surrounding blanks make "Unknown" a language of its own,
      while any capitalisation of the bare word and the empty language are filtered. */
  lemma ShouldFilterLanguageExamples()
    ensures !ShouldFilterLanguage(" Unknown ", true)
    ensures ShouldFilterLanguage("UnKnown", true)
    ensures ShouldFilterLanguage("", true)
    ensures !ShouldFilterLanguage("unknown", false)
  {
    var s := " Unknown ";
    assert |ToLower(s)| == 9;
    assert !IsJsWhitespace(s[1]);
    var u := ToLower("UnKnown");
    assert u[0] == 'u' && u[1] == 'n' && u[2] == 'k' && u[3] == 'n' && u[4] == 'o' && u[5] == 'w' && u[6] == 'n';
    assert u == "unknown";
  }
}
