/** `calculateDailyPRUAnalysis`: per day, the requests to premium and standard models, the
    premium request units (PRUs) they cost, and the models ranked by cost. */
module PruAnalysis {
  import opened Common
  import opened InsertionMap
  import opened Sorting
  import opened Text
  import opened MetricTypes
  import opened DateRows

  /** The model catalogue (`getModelMultiplier`, `isPremiumModel`, `SERVICE_VALUE_RATE`),
      which is not part of this model, given as a parameter. */
  datatype ModelConfig = ModelConfig(multiplier: string -> real, isPremium: string -> bool, serviceValueRate: real)

  /** An entry of a day's `modelStats`. */
  datatype ModelStat = ModelStat(requests: int, prus: real, multiplier: real, isPremium: bool)

  /** A value of `dailyMetrics`. */
  datatype DayData = DayData(pruRequests: int, standardRequests: int, totalPRUs: real, modelStats: IMap<string, ModelStat>)

  const NoDay: DayData := DayData(0, 0, 0.0, Empty())

  function StatOr(s: IMap<string, ModelStat>, model: string): ModelStat
  {
    s.GetOr(model, ModelStat(0, 0.0, 0.0, false))
  }

  // ---------------------------------------------------------------- accumulating

  /** One `totals_by_model_feature` entry added to its day: the lower-cased model's requests
      and PRUs grow by the entry's interactions and their cost, the day's PRU total grows by
      the same cost, and the requests count as premium exactly when the multiplier is not 0. */
  function AddModelUse(d: DayData, mf: ModelFeatureTotal, c: ModelConfig): (r: DayData)
    requires d.modelStats.Valid()
    ensures r.modelStats.Valid()
    ensures var m := c.multiplier(ToLower(mf.model));
      && r.pruRequests == d.pruRequests + (if m == 0.0 then 0 else mf.interactions)
      && r.standardRequests == d.standardRequests + (if m == 0.0 then mf.interactions else 0)
      && r.totalPRUs == d.totalPRUs + mf.interactions as real * m
    ensures var model := ToLower(mf.model);
      && model in r.modelStats.values
      && r.modelStats.values[model].requests == StatOr(d.modelStats, model).requests + mf.interactions
      && r.modelStats.values[model].prus == StatOr(d.modelStats, model).prus + mf.interactions as real * c.multiplier(model)
    ensures var model := ToLower(mf.model);
      model !in d.modelStats.values ==>
        && r.modelStats.keys == d.modelStats.keys + [model]
        && r.modelStats.values[model].multiplier == c.multiplier(model)
        && r.modelStats.values[model].isPremium == c.isPremium(model)
    ensures var model := ToLower(mf.model);
      model in d.modelStats.values ==>
        && r.modelStats.keys == d.modelStats.keys
        && r.modelStats.values[model].multiplier == d.modelStats.values[model].multiplier
        && r.modelStats.values[model].isPremium == d.modelStats.values[model].isPremium
    ensures forall x :: x != ToLower(mf.model) && x in d.modelStats.values ==>
      x in r.modelStats.values && r.modelStats.values[x] == d.modelStats.values[x]
  {
    var model := ToLower(mf.model);
    var count := mf.interactions;
    var multiplier := c.multiplier(model);
    var prus := count as real * multiplier;
    var stats :=
      if model in d.modelStats.values then
        var existing := d.modelStats.values[model];
        d.modelStats.Put(model, ModelStat(existing.requests + count, existing.prus + prus, existing.multiplier, existing.isPremium))
      else
        d.modelStats.Put(model, ModelStat(count, prus, multiplier, c.isPremium(model)));
    DayData(
      if multiplier == 0.0 then d.pruRequests else d.pruRequests + count,
      if multiplier == 0.0 then d.standardRequests + count else d.standardRequests,
      d.totalPRUs + prus,
      stats)
  }

  /** All model entries of one record added to its day, in order. */
  function AddModelUses(d: DayData, mfs: seq<ModelFeatureTotal>, c: ModelConfig): (r: DayData)
    requires d.modelStats.Valid()
    ensures r.modelStats.Valid()
  {
    if mfs == [] then d else AddModelUse(AddModelUses(d, mfs[..|mfs| - 1], c), mfs[|mfs| - 1], c)
  }

  /** Every day's model map is well formed. */
  ghost predicate DailyValid(daily: IMap<string, DayData>)
  {
    daily.Valid() && forall k :: k in daily.values ==> daily.values[k].modelStats.Valid()
  }

  /** One record: its day is created empty if new, then receives the record's model entries. */
  function AddPruRecord(daily: IMap<string, DayData>, m: Metric, c: ModelConfig): (r: IMap<string, DayData>)
    requires DailyValid(daily)
    ensures DailyValid(r)
  {
    var d := daily.GetOr(m.day, NoDay);
    daily.Put(m.day, AddModelUses(d, m.byModelFeature, c))
  }

  /** `dailyMetrics` after the records. */
  function PruDailyOf(ms: seq<Metric>, c: ModelConfig): (r: IMap<string, DayData>)
    ensures DailyValid(r)
  {
    if ms == [] then Empty() else AddPruRecord(PruDailyOf(ms[..|ms| - 1], c), ms[|ms| - 1], c)
  }

  /** One model entry added to its day in place. */
  method AccumulateModelUse(d0: DayData, mf: ModelFeatureTotal, c: ModelConfig) returns (d: DayData)
    requires d0.modelStats.Valid()
    ensures d == AddModelUse(d0, mf, c)
  {
    var model := ToLower(mf.model);
    var count := mf.interactions;
    var multiplier := c.multiplier(model);
    var prus := count as real * multiplier;
    assert AddModelUse(d0, mf, c).totalPRUs == d0.totalPRUs + prus;
    var modelStats := d0.modelStats;
    if model in modelStats.values {
      var existing := modelStats.values[model];
      modelStats := modelStats.Put(model, existing.(requests := existing.requests + count, prus := existing.prus + prus));
    } else {
      modelStats := modelStats.Put(model, ModelStat(count, prus, multiplier, c.isPremium(model)));
    }
    d := d0.(totalPRUs := d0.totalPRUs + prus, modelStats := modelStats);
    if multiplier == 0.0 {
      d := d.(standardRequests := d.standardRequests + count);
    } else {
      d := d.(pruRequests := d.pruRequests + count);
    }
  }

  /** The inner loop over one record's model entries, updating its day in place. */
  method AccumulateModelUses(d0: DayData, mfs: seq<ModelFeatureTotal>, c: ModelConfig) returns (d: DayData)
    requires d0.modelStats.Valid()
    ensures d == AddModelUses(d0, mfs, c)
  {
    d := d0;
    var j := 0;
    while j < |mfs|
      invariant 0 <= j <= |mfs| && d == AddModelUses(d0, mfs[..j], c)
    {
      assert mfs[..j + 1][..j] == mfs[..j];
      d := AccumulateModelUse(d, mfs[j], c);
      j := j + 1;
    }
    assert mfs[..|mfs|] == mfs;
  }

  /** One record: its day is created if missing, then updated in place. */
  method AccumulatePruRecord(daily0: IMap<string, DayData>, metric: Metric, c: ModelConfig)
    returns (daily: IMap<string, DayData>)
    requires DailyValid(daily0)
    ensures daily == AddPruRecord(daily0, metric, c)
  {
    daily := daily0;
    var date := metric.day;
    if date !in daily.values {
      daily := daily.Put(date, NoDay);
    }
    var dayData := daily.values[date];
    assert dayData == daily0.GetOr(date, NoDay);
    dayData := AccumulateModelUses(dayData, metric.byModelFeature, c);
    if date !in daily0.values {
      PutPut(daily0, date, NoDay, dayData);
    }
    daily := daily.Put(date, dayData);
  }

  /** The loop over the records that fills `dailyMetrics`. */
  method BuildPruDaily(metrics: seq<Metric>, c: ModelConfig) returns (daily: IMap<string, DayData>)
    ensures daily == PruDailyOf(metrics, c)
  {
    daily := Empty();
    var i := 0;
    while i < |metrics|
      invariant 0 <= i <= |metrics| && daily == PruDailyOf(metrics[..i], c)
    {
      assert metrics[..i + 1][..i] == metrics[..i];
      daily := AccumulatePruRecord(daily, metrics[i], c);
      i := i + 1;
    }
    assert metrics[..|metrics|] == metrics;
  }

  // ---------------------------------------------------------------- what a day sums up

  /** The interactions of a list of model entries. */
  function Requests(mfs: seq<ModelFeatureTotal>): int
  {
    if mfs == [] then 0 else Requests(mfs[..|mfs| - 1]) + mfs[|mfs| - 1].interactions
  }

  /** The interactions of the entries whose lower-cased model has a non-zero multiplier. */
  function PremiumRequests(mfs: seq<ModelFeatureTotal>, c: ModelConfig): int
  {
    if mfs == [] then 0
    else
      var mf := mfs[|mfs| - 1];
      PremiumRequests(mfs[..|mfs| - 1], c) + (if c.multiplier(ToLower(mf.model)) == 0.0 then 0 else mf.interactions)
  }

  /** Σ interactions × multiplier(lower-cased model). */
  function Prus(mfs: seq<ModelFeatureTotal>, c: ModelConfig): real
  {
    if mfs == [] then 0.0
    else
      var mf := mfs[|mfs| - 1];
      Prus(mfs[..|mfs| - 1], c) + mf.interactions as real * c.multiplier(ToLower(mf.model))
  }

  function DayRequests(ms: seq<Metric>, day: string): int
  {
    if ms == [] then 0
    else DayRequests(ms[..|ms| - 1], day) + (if ms[|ms| - 1].day == day then Requests(ms[|ms| - 1].byModelFeature) else 0)
  }

  function DayPremiumRequests(ms: seq<Metric>, day: string, c: ModelConfig): int
  {
    if ms == [] then 0
    else DayPremiumRequests(ms[..|ms| - 1], day, c) + (if ms[|ms| - 1].day == day then PremiumRequests(ms[|ms| - 1].byModelFeature, c) else 0)
  }

  function DayPrus(ms: seq<Metric>, day: string, c: ModelConfig): real
  {
    if ms == [] then 0.0
    else DayPrus(ms[..|ms| - 1], day, c) + (if ms[|ms| - 1].day == day then Prus(ms[|ms| - 1].byModelFeature, c) else 0.0)
  }

  function Days(ms: seq<Metric>): set<string>
  {
    set m | m in ms :: m.day
  }

  lemma {:induction false} AddModelUsesTotals(d: DayData, mfs: seq<ModelFeatureTotal>, c: ModelConfig)
    requires d.modelStats.Valid()
    ensures var r := AddModelUses(d, mfs, c);
      && r.pruRequests + r.standardRequests == d.pruRequests + d.standardRequests + Requests(mfs)
      && r.pruRequests == d.pruRequests + PremiumRequests(mfs, c)
      && r.totalPRUs == d.totalPRUs + Prus(mfs, c)
  {
    AddModelUsesRequests(d, mfs, c);
    AddModelUsesPrus(d, mfs, c);
  }

  lemma {:induction false} AddModelUsesRequests(d: DayData, mfs: seq<ModelFeatureTotal>, c: ModelConfig)
    requires d.modelStats.Valid()
    ensures var r := AddModelUses(d, mfs, c);
      && r.pruRequests + r.standardRequests == d.pruRequests + d.standardRequests + Requests(mfs)
      && r.pruRequests == d.pruRequests + PremiumRequests(mfs, c)
  {
    if mfs != [] {
      var p, mf := mfs[..|mfs| - 1], mfs[|mfs| - 1];
      AddModelUsesRequests(d, p, c);
      assert Requests(mfs) == Requests(p) + mf.interactions;
    }
  }

  lemma {:induction false} AddModelUsesPrus(d: DayData, mfs: seq<ModelFeatureTotal>, c: ModelConfig)
    requires d.modelStats.Valid()
    ensures AddModelUses(d, mfs, c).totalPRUs == d.totalPRUs + Prus(mfs, c)
  {
    if mfs != [] {
      AddModelUsesPrus(d, mfs[..|mfs| - 1], c);
    }
  }

  /** A day's requests are those of the records of that day, split into premium (non-zero
      multiplier) and standard, and its PRU total is their summed cost; days with no record
      hold nothing. */
  lemma {:induction false} PruDailyTotals(ms: seq<Metric>, c: ModelConfig, day: string)
    ensures var d := PruDailyOf(ms, c).GetOr(day, NoDay);
      && d.pruRequests + d.standardRequests == DayRequests(ms, day)
      && d.pruRequests == DayPremiumRequests(ms, day, c)
      && d.totalPRUs == DayPrus(ms, day, c)
  {
    if ms != [] {
      var n := |ms| - 1;
      PruDailyTotals(ms[..n], c, day);
      var daily := PruDailyOf(ms[..n], c);
      AddModelUsesTotals(daily.GetOr(ms[n].day, NoDay), ms[n].byModelFeature, c);
    }
  }

  /** The days of `dailyMetrics` are exactly the days of the records. */
  lemma {:induction false} PruDailyDays(ms: seq<Metric>, c: ModelConfig)
    ensures forall k :: k in PruDailyOf(ms, c).values <==> k in Days(ms)
  {
    if ms != [] {
      var n := |ms| - 1;
      PruDailyDays(ms[..n], c);
      DaysSnoc(ms);
    }
  }

  lemma DaysSnoc(ms: seq<Metric>)
    requires ms != []
    ensures Days(ms) == Days(ms[..|ms| - 1]) + {ms[|ms| - 1].day}
  {
    var n := |ms| - 1;
    assert ms == ms[..n] + [ms[n]];
    assert forall m :: m in ms <==> m in ms[..n] || m == ms[n];
  }

  // ---------------------------------------------------------------- the rows

  /** An element of a row's `models`, its PRUs rounded to hundredths. */
  datatype ModelRow = ModelRow(name: string, requests: int, prus: int, isPremium: bool, multiplier: real)

  /** A `DailyPRUAnalysisData` row; percentages and PRU amounts are in hundredths. */
  datatype PruRow = PruRow(
    date: string,
    pruRequests: int,
    standardRequests: int,
    pruPercentage: int,
    totalPRUs: int,
    serviceValue: int,
    topModel: string,
    topModelPRUs: int,
    topModelIsPremium: bool,
    models: seq<ModelRow>)

  function ModelRowsOf(s: IMap<string, ModelStat>): (r: seq<ModelRow>)
    requires s.Valid()
    ensures |r| == |s.keys|
    ensures forall i :: 0 <= i < |r| ==> r[i] == ModelRowOf(s.keys[i], s.values[s.keys[i]])
  {
    seq(|s.keys|, i requires 0 <= i < |s.keys| => ModelRowOf(s.keys[i], s.values[s.keys[i]]))
  }

  function ModelRowOf(name: string, st: ModelStat): ModelRow
  {
    ModelRow(name, st.requests, Hundredths(st.prus), st.isPremium, st.multiplier)
  }

  /** The comparator `(b.prus - a.prus) || (b.requests - a.requests)`. */
  function ByPrusThenRequests(): (ModelRow, ModelRow) -> bool
  {
    (a: ModelRow, b: ModelRow) => a.prus > b.prus || (a.prus == b.prus && a.requests > b.requests)
  }

  lemma ByPrusThenRequestsIsStrictWeakOrder()
    ensures StrictWeakOrder(ByPrusThenRequests())
  {
  }

  /** The models of a day: the same rows, by PRUs descending and then requests descending. */
  lemma SortModels(rows: seq<ModelRow>)
    ensures var r := StableSort(rows, ByPrusThenRequests());
      && multiset(r) == multiset(rows)
      && (forall i, j :: 0 <= i < j < |r| ==>
            r[i].prus > r[j].prus || (r[i].prus == r[j].prus && r[i].requests >= r[j].requests))
  {
    ByPrusThenRequestsIsStrictWeakOrder();
    SortPermutes(rows, ByPrusThenRequests());
    SortSorted(rows, ByPrusThenRequests());
  }

  /** The row of one day. */
  function DayRow(date: string, d: DayData, c: ModelConfig): PruRow
    requires d.modelStats.Valid()
  {
    var total := d.pruRequests + d.standardRequests;
    var models := StableSort(ModelRowsOf(d.modelStats), ByPrusThenRequests());
    PruRow(
      date,
      d.pruRequests,
      d.standardRequests,
      Percentage(d.pruRequests, total),
      Hundredths(d.totalPRUs),
      Hundredths(d.totalPRUs * c.serviceValueRate),
      if models == [] then "unknown" else models[0].name,
      if models == [] then 0 else models[0].prus,
      if models == [] then false else models[0].isPremium,
      models)
  }

  /** A day's row: the premium share is 0 on a day without requests and lies between 0 and
      100 % when the counts are not negative; the models are the day's models ranked by
      PRUs and then requests; the top model is the first of them, with its rounded PRUs and
      premium flag, or "unknown" when the day has no model. */
  lemma DayRowFacts(date: string, d: DayData, c: ModelConfig)
    requires d.modelStats.Valid()
    ensures var r := DayRow(date, d, c);
      && (d.pruRequests + d.standardRequests <= 0 ==> r.pruPercentage == 0)
      && (0 <= d.pruRequests && 0 <= d.standardRequests ==> 0 <= r.pruPercentage <= 10000)
      && multiset(r.models) == multiset(ModelRowsOf(d.modelStats))
      && (forall i, j :: 0 <= i < j < |r.models| ==>
            r.models[i].prus > r.models[j].prus
            || (r.models[i].prus == r.models[j].prus && r.models[i].requests >= r.models[j].requests))
      && (d.modelStats.keys == [] ==> r.topModel == "unknown" && r.topModelPRUs == 0 && !r.topModelIsPremium)
      && (d.modelStats.keys != [] ==>
            && r.topModel in d.modelStats.values
            && r.topModelPRUs == Hundredths(d.modelStats.values[r.topModel].prus)
            && r.topModelIsPremium == d.modelStats.values[r.topModel].isPremium
            && (forall x :: x in d.modelStats.values ==> Hundredths(d.modelStats.values[x].prus) <= r.topModelPRUs))
  {
    var rows := ModelRowsOf(d.modelStats);
    SortModels(rows);
    if d.modelStats.keys != [] {
      TopModel(d.modelStats, StableSort(rows, ByPrusThenRequests()));
    }
  }

  /** Ranked by PRUs, the first model of a non-empty day is one of its models and has the
      most PRUs of them all. */
  lemma TopModel(s: IMap<string, ModelStat>, models: seq<ModelRow>)
    requires s.Valid() && s.keys != []
    requires multiset(models) == multiset(ModelRowsOf(s))
    requires forall i, j :: 0 <= i < j < |models| ==> models[i].prus >= models[j].prus
    ensures models != [] && models[0].name in s.values
    ensures models[0] == ModelRowOf(models[0].name, s.values[models[0].name])
    ensures forall x :: x in s.values ==> Hundredths(s.values[x].prus) <= models[0].prus
  {
    var rows := ModelRowsOf(s);
    assert rows[0] in multiset(models);
    assert models[0] in multiset(rows);
    var i :| 0 <= i < |rows| && rows[i] == models[0];
    assert s.keys[i] in s.values;
    forall x | x in s.values ensures Hundredths(s.values[x].prus) <= models[0].prus {
      var k :| 0 <= k < |s.keys| && s.keys[k] == x;
      assert rows[k] in multiset(models);
      var j :| 0 <= j < |models| && models[j] == rows[k];
      if j != 0 {
        assert models[0].prus >= models[j].prus;
      }
    }
  }

  function RowDate(row: PruRow): string { row.date }

  /** One row per day, in the order the days were first seen. */
  function PruRowsOf(daily: IMap<string, DayData>, c: ModelConfig): (rows: seq<PruRow>)
    requires DailyValid(daily)
    ensures |rows| == |daily.keys|
    ensures forall i :: 0 <= i < |rows| ==> RowDate(rows[i]) == daily.keys[i]
  {
    var keys := daily.keys;
    seq(|keys|, i requires 0 <= i < |keys| => DayRow(keys[i], daily.values[keys[i]], c))
  }

  /** The result: one row per day, by date. */
  function PruAnalysisOf(ms: seq<Metric>, c: ModelConfig): seq<PruRow>
  {
    StableSort(PruRowsOf(PruDailyOf(ms, c), c), ByDate(RowDate))
  }

  /** `calculateDailyPRUAnalysis`. */
  method CalculateDailyPruAnalysis(metrics: seq<Metric>, c: ModelConfig) returns (r: seq<PruRow>)
    ensures r == PruAnalysisOf(metrics, c)
  {
    var dailyMetrics := BuildPruDaily(metrics, c);
    var rows := PruRowsOf(dailyMetrics, c);
    r := StableSort(rows, ByDate(RowDate));
  }

  /** A row holds the totals of its day of the records. */
  predicate HoldsDay(ms: seq<Metric>, c: ModelConfig, row: PruRow)
  {
    && row.date in Days(ms)
    && row.pruRequests + row.standardRequests == DayRequests(ms, row.date)
    && row.pruRequests == DayPremiumRequests(ms, row.date, c)
    && row.totalPRUs == Hundredths(DayPrus(ms, row.date, c))
  }

  /** The rows: one per day of the records, strictly ascending by date, each with that day's
      request split and PRU total. */
  lemma PruAnalysisRows(ms: seq<Metric>, c: ModelConfig)
    ensures var r := PruAnalysisOf(ms, c);
      && (forall i, j :: 0 <= i < j < |r| ==> StrLt(r[i].date, r[j].date))
      && (forall day :: day in Days(ms) ==> exists j :: 0 <= j < |r| && r[j].date == day)
      && (forall j :: 0 <= j < |r| ==> HoldsDay(ms, c, r[j]))
  {
    var daily := PruDailyOf(ms, c);
    var rows := PruRowsOf(daily, c);
    assert PruAnalysisOf(ms, c) == StableSort(rows, ByDate(RowDate));
    RowsHoldDays(ms, c, daily, rows);
    PruDailyDays(ms, c);
    forall day | day in Days(ms) ensures day in daily.keys {
      assert day in daily.values;
    }
    SortedDayRows(daily.keys, rows, Days(ms), ms, c);
  }

  /** Sorting rows built one per distinct day, each holding its day's totals. */
  lemma SortedDayRows(keys: seq<string>, rows: seq<PruRow>, days: set<string>, ms: seq<Metric>, c: ModelConfig)
    requires Distinct(keys) && |rows| == |keys|
    requires forall i :: 0 <= i < |rows| ==> RowDate(rows[i]) == keys[i] && HoldsDay(ms, c, rows[i])
    requires forall day :: day in days ==> day in keys
    ensures var r := StableSort(rows, ByDate(RowDate));
      && (forall i, j :: 0 <= i < j < |r| ==> StrLt(r[i].date, r[j].date))
      && (forall day :: day in days ==> exists j :: 0 <= j < |r| && r[j].date == day)
      && (forall j :: 0 <= j < |r| ==> HoldsDay(ms, c, r[j]))
  {
    SortKeyedGoodRows(keys, rows, RowDate, row => HoldsDay(ms, c, row));
  }

  /** Before sorting, the rows follow the days of `dailyMetrics` and hold their totals. */
  lemma RowsHoldDays(ms: seq<Metric>, c: ModelConfig, daily: IMap<string, DayData>, rows: seq<PruRow>)
    requires daily == PruDailyOf(ms, c) && rows == PruRowsOf(daily, c)
    ensures forall i :: 0 <= i < |rows| ==> RowDate(rows[i]) == daily.keys[i] && HoldsDay(ms, c, rows[i])
  {
    forall i | 0 <= i < |rows| ensures RowDate(rows[i]) == daily.keys[i] && HoldsDay(ms, c, rows[i]) {
      assert rows[i] == DayRow(daily.keys[i], daily.values[daily.keys[i]], c);
      DayHolds(ms, c, daily.keys[i]);
    }
  }

  /** The row of a day holds that day's totals. */
  lemma DayHolds(ms: seq<Metric>, c: ModelConfig, day: string)
    requires day in PruDailyOf(ms, c).values
    ensures HoldsDay(ms, c, DayRow(day, PruDailyOf(ms, c).values[day], c))
  {
    PruDailyDays(ms, c);
    PruDailyTotals(ms, c, day);
  }
}
