/** String interning. Strings are values here, so interning returns an equal string; what is
    observable is the pool's contents and size. */
module StringInterning {
  import opened Common
  import opened MetricTypes

  class StringPool {
    var pool: map<string, string>
    /** The strings interned since the pool was created or last cleared. */
    ghost var interned: set<string>

    /** Every string is stored under itself, and the pool holds exactly the interned strings. */
    ghost predicate Valid()
      reads this
    {
      && pool.Keys == interned
      && forall k :: k in pool ==> pool[k] == k
    }

    constructor ()
      ensures Valid() && interned == {}
    {
      pool := map[];
      interned := {};
    }

    /** `intern`: a string seen before comes back as the stored one, which is equal; a new
        string is stored and returned. */
    method Intern(value: string) returns (r: string)
      requires Valid()
      modifies this
      ensures Valid()
      ensures r == value
      ensures interned == old(interned) + {value}
      ensures value in old(pool) ==> pool == old(pool) && r == old(pool)[value]
    {
      if value in pool {
        return pool[value];
      }
      pool := pool[value := value];
      interned := interned + {value};
      return value;
    }

    /** `size`: the number of distinct strings interned since the last clear. */
    function Size(): (n: nat)
      requires Valid()
      reads this
      ensures n == |interned|
    {
      |pool|
    }

    /** `clear`. */
    method Clear()
      modifies this
      ensures Valid() && interned == {} && Size() == 0
    {
      pool := map[];
      interned := {};
    }
  }

  /** The strings of a list of entries, as `f` picks them from each entry. */
  function StringsOf<T>(xs: seq<T>, f: T -> set<string>): set<string>
  {
    if xs == [] then {} else StringsOf(xs[..|xs| - 1], f) + f(xs[|xs| - 1])
  }

  function IdeStrings(x: IdeTotal): set<string>
  {
    {x.ide} + if x.lastKnownPlugin.Some? then {x.lastKnownPlugin.value.plugin, x.lastKnownPlugin.value.pluginVersion} else {}
  }

  function FeatureStrings(x: FeatureTotal): set<string> { {x.feature} }
  function LanguageFeatureStrings(x: LanguageFeatureTotal): set<string> { {x.language, x.feature} }
  function LanguageModelStrings(x: LanguageModelTotal): set<string> { {x.language, x.model} }
  function ModelFeatureStrings(x: ModelFeatureTotal): set<string> { {x.model, x.feature} }

  /** The root strings that are interned: the non-empty ones. */
  function RootStrings(m: Metric): set<string>
  {
    IfNonEmpty(m.reportStartDay) + IfNonEmpty(m.reportEndDay) + IfNonEmpty(m.day)
      + IfNonEmpty(m.enterpriseId) + IfNonEmpty(m.userLogin)
  }

  function IfNonEmpty(s: string): set<string>
  {
    if s != "" then {s} else {}
  }

  /** Every string of a record that `internMetricStrings` passes to the pool. */
  function RecordStrings(m: Metric): set<string>
  {
    RootStrings(m) + StringsOf(m.byIde, IdeStrings) + StringsOf(m.byFeature, FeatureStrings)
      + StringsOf(m.byLanguageFeature, LanguageFeatureStrings)
      + StringsOf(m.byLanguageModel, LanguageModelStrings)
      + StringsOf(m.byModelFeature, ModelFeatureStrings)
  }

  /** Interning a root field: skipped when empty. */
  method InternRoot(pool: StringPool, s: string) returns (r: string)
    requires pool.Valid()
    modifies pool
    ensures pool.Valid() && r == s
    ensures pool.interned == old(pool.interned) + IfNonEmpty(s)
  {
    r := s;
    if s != "" {
      r := pool.Intern(s);
    }
  }

  /** `internMetricStrings`: the record comes back equal, and afterwards the pool holds every
      non-empty root string and every IDE, plugin, feature, language and model string of it. */
  method InternMetricStrings(metric: Metric, pool: StringPool) returns (r: Metric)
    requires pool.Valid()
    modifies pool
    ensures pool.Valid()
    ensures r == metric
    ensures pool.interned == old(pool.interned) + RecordStrings(metric)
  {
    ghost var before := pool.interned;
    var reportStartDay := InternRoot(pool, metric.reportStartDay);
    var reportEndDay := InternRoot(pool, metric.reportEndDay);
    var day := InternRoot(pool, metric.day);
    var enterpriseId := InternRoot(pool, metric.enterpriseId);
    var userLogin := InternRoot(pool, metric.userLogin);
    ghost var acc := before + RootStrings(metric);
    assert pool.interned == acc;
    var ides := InternIdes(pool, metric.byIde);
    acc := acc + StringsOf(metric.byIde, IdeStrings);
    var features := InternFeatures(pool, metric.byFeature);
    acc := acc + StringsOf(metric.byFeature, FeatureStrings);
    var languageFeatures := InternLanguageFeatures(pool, metric.byLanguageFeature);
    acc := acc + StringsOf(metric.byLanguageFeature, LanguageFeatureStrings);
    var languageModels := InternLanguageModels(pool, metric.byLanguageModel);
    acc := acc + StringsOf(metric.byLanguageModel, LanguageModelStrings);
    var modelFeatures := InternModelFeatures(pool, metric.byModelFeature);
    acc := acc + StringsOf(metric.byModelFeature, ModelFeatureStrings);
    assert pool.interned == acc;
    Regroup(before, RootStrings(metric), StringsOf(metric.byIde, IdeStrings),
      StringsOf(metric.byFeature, FeatureStrings), StringsOf(metric.byLanguageFeature, LanguageFeatureStrings),
      StringsOf(metric.byLanguageModel, LanguageModelStrings), StringsOf(metric.byModelFeature, ModelFeatureStrings));
    r := metric.(reportStartDay := reportStartDay, reportEndDay := reportEndDay, day := day,
      enterpriseId := enterpriseId, userLogin := userLogin, byIde := ides, byFeature := features,
      byLanguageFeature := languageFeatures, byLanguageModel := languageModels,
      byModelFeature := modelFeatures);
  }

  lemma Regroup(s0: set<string>, s1: set<string>, s2: set<string>, s3: set<string>, s4: set<string>, s5: set<string>, s6: set<string>)
    ensures s0 + s1 + s2 + s3 + s4 + s5 + s6 == s0 + (s1 + s2 + s3 + s4 + s5 + s6)
  {
  }

  /** The `totals_by_ide` loop: each IDE name, and the plugin name and version when known. */
  method InternIdes(pool: StringPool, xs: seq<IdeTotal>) returns (items: seq<IdeTotal>)
    requires pool.Valid()
    modifies pool
    ensures pool.Valid() && items == xs
    ensures pool.interned == old(pool.interned) + StringsOf(xs, IdeStrings)
  {
    items := xs;
    var i := 0;
    while i < |items|
      invariant 0 <= i <= |items| && items == xs && pool.Valid()
      invariant pool.interned == old(pool.interned) + StringsOf(xs[..i], IdeStrings)
    {
      StringsOfStep(xs, i, IdeStrings);
      var item := InternIde(pool, items[i]);
      items := items[i := item];
      i := i + 1;
    }
    assert xs[..|xs|] == xs;
  }

  /** One entry of the `totals_by_ide` loop. */
  method InternIde(pool: StringPool, item0: IdeTotal) returns (item: IdeTotal)
    requires pool.Valid()
    modifies pool
    ensures pool.Valid() && item == item0
    ensures pool.interned == old(pool.interned) + IdeStrings(item0)
  {
    var ide := pool.Intern(item0.ide);
    item := item0.(ide := ide);
    if item.lastKnownPlugin.Some? {
      var info := item.lastKnownPlugin.value;
      var plugin := pool.Intern(info.plugin);
      var version := pool.Intern(info.pluginVersion);
      item := item.(lastKnownPlugin := Some(info.(plugin := plugin, pluginVersion := version)));
    }
  }

  /** The strings of one more entry. */
  lemma StringsOfStep<T>(xs: seq<T>, i: int, f: T -> set<string>)
    requires 0 <= i < |xs|
    ensures StringsOf(xs[..i + 1], f) == StringsOf(xs[..i], f) + f(xs[i])
  {
    assert xs[..i + 1][..i] == xs[..i];
  }

  /** The loop interning the feature name of each entry. */
  method InternFeatures(pool: StringPool, xs: seq<FeatureTotal>) returns (items: seq<FeatureTotal>)
    requires pool.Valid()
    modifies pool
    ensures pool.Valid() && items == xs
    ensures pool.interned == old(pool.interned) + StringsOf(xs, FeatureStrings)
  {
    items := xs;
    var i := 0;
    while i < |items|
      invariant 0 <= i <= |items| && items == xs && pool.Valid()
      invariant pool.interned == old(pool.interned) + StringsOf(xs[..i], FeatureStrings)
    {
      assert xs[..i + 1][..i] == xs[..i];
      var feature := pool.Intern(items[i].feature);
      items := items[i := items[i].(feature := feature)];
      i := i + 1;
    }
    assert xs[..|xs|] == xs;
  }

  /** The loop interning the language and feature names of each entry. */
  method InternLanguageFeatures(pool: StringPool, xs: seq<LanguageFeatureTotal>) returns (items: seq<LanguageFeatureTotal>)
    requires pool.Valid()
    modifies pool
    ensures pool.Valid() && items == xs
    ensures pool.interned == old(pool.interned) + StringsOf(xs, LanguageFeatureStrings)
  {
    items := xs;
    var i := 0;
    while i < |items|
      invariant 0 <= i <= |items| && items == xs && pool.Valid()
      invariant pool.interned == old(pool.interned) + StringsOf(xs[..i], LanguageFeatureStrings)
    {
      assert xs[..i + 1][..i] == xs[..i];
      var language := pool.Intern(items[i].language);
      var feature := pool.Intern(items[i].feature);
      items := items[i := items[i].(language := language, feature := feature)];
      i := i + 1;
    }
    assert xs[..|xs|] == xs;
  }

  /** The loop interning the language and model names of each entry. */
  method InternLanguageModels(pool: StringPool, xs: seq<LanguageModelTotal>) returns (items: seq<LanguageModelTotal>)
    requires pool.Valid()
    modifies pool
    ensures pool.Valid() && items == xs
    ensures pool.interned == old(pool.interned) + StringsOf(xs, LanguageModelStrings)
  {
    items := xs;
    var i := 0;
    while i < |items|
      invariant 0 <= i <= |items| && items == xs && pool.Valid()
      invariant pool.interned == old(pool.interned) + StringsOf(xs[..i], LanguageModelStrings)
    {
      assert xs[..i + 1][..i] == xs[..i];
      var language := pool.Intern(items[i].language);
      var model := pool.Intern(items[i].model);
      items := items[i := items[i].(language := language, model := model)];
      i := i + 1;
    }
    assert xs[..|xs|] == xs;
  }

  /** The loop interning the model and feature names of each entry. */
  method InternModelFeatures(pool: StringPool, xs: seq<ModelFeatureTotal>) returns (items: seq<ModelFeatureTotal>)
    requires pool.Valid()
    modifies pool
    ensures pool.Valid() && items == xs
    ensures pool.interned == old(pool.interned) + StringsOf(xs, ModelFeatureStrings)
  {
    items := xs;
    var i := 0;
    while i < |items|
      invariant 0 <= i <= |items| && items == xs && pool.Valid()
      invariant pool.interned == old(pool.interned) + StringsOf(xs[..i], ModelFeatureStrings)
    {
      assert xs[..i + 1][..i] == xs[..i];
      var model := pool.Intern(items[i].model);
      var feature := pool.Intern(items[i].feature);
      items := items[i := items[i].(model := model, feature := feature)];
      i := i + 1;
    }
    assert xs[..|xs|] == xs;
  }

  /** A string belongs to the strings of a list exactly when some entry contributes it. */
  lemma {:induction false} StringsOfMembers<T>(xs: seq<T>, f: T -> set<string>, s: string)
    ensures s in StringsOf(xs, f) <==> exists i :: 0 <= i < |xs| && s in f(xs[i])
  {
    if xs != [] {
      var n := |xs| - 1;
      StringsOfMembers(xs[..n], f, s);
      if s in StringsOf(xs[..n], f) {
        var i :| 0 <= i < n && s in f(xs[..n][i]);
        assert xs[i] == xs[..n][i];
      }
      if exists i :: 0 <= i < |xs| && s in f(xs[i]) {
        var i :| 0 <= i < |xs| && s in f(xs[i]);
        if i < n {
          assert xs[..n][i] == xs[i];
        }
      }
    }
  }

  /** Empty root strings are skipped, and the record's empty-string roots are never interned
      through the root fields. */
  lemma RootStringsSkipEmpty(m: Metric)
    ensures "" !in RootStrings(m)
    ensures m.day != "" ==> m.day in RootStrings(m)
    ensures m.userLogin != "" ==> m.userLogin in RootStrings(m)
  {
  }
}
