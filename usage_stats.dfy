/** The record-list statistics that both `calculateStats` versions compute: how many users
    used chat, agent mode or neither, and the top language, IDE and model. */
module UsageStats {
  import opened Common
  import opened InsertionMap
  import opened Sorting
  import opened MetricTypes
  import opened StatsCalculators

  // ---------------------------------------------------------------- users and their flags

  /** An entry of `userUsageMap`. */
  datatype Usage = Usage(usedChat: bool, usedAgent: bool)

  const NoUsage := Usage(false, false)

  /** One record folded into `userUsageMap`: the user's flags are or-ed with the record's. */
  function AddUsage(u: IMap<int, Usage>, m: Metric): (r: IMap<int, Usage>)
    requires u.Valid()
    ensures r.Valid()
    ensures m.userId in r.values
    ensures r.values[m.userId].usedChat == (u.GetOr(m.userId, NoUsage).usedChat || m.usedChat)
    ensures r.values[m.userId].usedAgent == (u.GetOr(m.userId, NoUsage).usedAgent || m.usedAgent)
    ensures forall id :: id != m.userId ==>
      (id in r.values <==> id in u.values) && (id in u.values ==> r.values[id] == u.values[id])
  {
    var existing := u.GetOr(m.userId, NoUsage);
    u.Put(m.userId, Usage(existing.usedChat || m.usedChat, existing.usedAgent || m.usedAgent))
  }

  function UsageOf(ms: seq<Metric>): (r: IMap<int, Usage>)
    ensures r.Valid()
  {
    if ms == [] then Empty() else AddUsage(UsageOf(ms[..|ms| - 1]), ms[|ms| - 1])
  }

  function UserIds(ms: seq<Metric>): set<int> { set m | m in ms :: m.userId }
  function ChatUserIds(ms: seq<Metric>): set<int> { set m | m in ms && m.usedChat :: m.userId }
  function AgentUserIds(ms: seq<Metric>): set<int> { set m | m in ms && m.usedAgent :: m.userId }

  lemma IdsSnoc(p: seq<Metric>, m: Metric)
    ensures UserIds(p + [m]) == UserIds(p) + {m.userId}
    ensures ChatUserIds(p + [m]) == ChatUserIds(p) + (if m.usedChat then {m.userId} else {})
    ensures AgentUserIds(p + [m]) == AgentUserIds(p) + (if m.usedAgent then {m.userId} else {})
  {
    assert forall x :: x in p + [m] <==> x in p || x == m;
  }

  /** After the records, the map holds exactly their users, and a user's flag is set exactly
      when one of the user's records set it. */
  lemma {:induction false} UsageOfContents(ms: seq<Metric>)
    ensures forall id :: id in UsageOf(ms).values <==> id in UserIds(ms)
    ensures forall id :: id in UsageOf(ms).values ==> (UsageOf(ms).values[id].usedChat <==> id in ChatUserIds(ms))
    ensures forall id :: id in UsageOf(ms).values ==> (UsageOf(ms).values[id].usedAgent <==> id in AgentUserIds(ms))
  {
    if ms != [] {
      var n := |ms| - 1;
      var p, m := ms[..n], ms[n];
      UsageOfContents(p);
      assert ms == p + [m];
      IdsSnoc(p, m);
      var u0, u := UsageOf(p), UsageOf(ms);
      assert u == AddUsage(u0, m);
      forall id | id in u.values
        ensures u.values[id].usedChat <==> id in ChatUserIds(ms)
        ensures u.values[id].usedAgent <==> id in AgentUserIds(ms)
      {
        if id != m.userId {
          assert u.values[id] == u0.values[id];
        }
      }
    }
  }

  /** The first loop of `calculateStats`. */
  method BuildUsage(metrics: seq<Metric>) returns (u: IMap<int, Usage>)
    ensures u == UsageOf(metrics)
  {
    u := Empty();
    var i := 0;
    while i < |metrics|
      invariant 0 <= i <= |metrics| && u == UsageOf(metrics[..i])
    {
      assert metrics[..i + 1][..i] == metrics[..i];
      var metric := metrics[i];
      var existingUsage := if metric.userId in u.values then u.values[metric.userId] else NoUsage;
      u := u.Put(metric.userId, Usage(existingUsage.usedChat || metric.usedChat, existingUsage.usedAgent || metric.usedAgent));
      i := i + 1;
    }
    assert metrics[..|metrics|] == metrics;
  }

  function UsedChat(): Usage -> bool { (u: Usage) => u.usedChat }
  function UsedAgent(): Usage -> bool { (u: Usage) => u.usedAgent }
  function UsedEither(): Usage -> bool { (u: Usage) => u.usedChat || u.usedAgent }
  function CompletionOnly(): Usage -> bool { (u: Usage) => !u.usedChat && !u.usedAgent }

  /** The number of listed users whose usage satisfies `p`. */
  function CountUsage(keys: seq<int>, values: map<int, Usage>, p: Usage -> bool): (n: nat)
    requires forall k :: k in keys ==> k in values
    ensures n <= |keys|
  {
    if keys == [] then 0
    else
      var k := keys[|keys| - 1];
      assert k in keys;
      CountUsage(keys[..|keys| - 1], values, p) + (if p(values[k]) then 1 else 0)
  }

  /** The second loop of `calculateStats`: three counters over the users. */
  method CountUserKinds(u: IMap<int, Usage>) returns (chatUsers: nat, agentUsers: nat, completionOnlyUsers: nat)
    requires u.Valid()
    ensures chatUsers == CountUsage(u.keys, u.values, UsedChat())
    ensures agentUsers == CountUsage(u.keys, u.values, UsedAgent())
    ensures completionOnlyUsers == CountUsage(u.keys, u.values, CompletionOnly())
  {
    chatUsers, agentUsers, completionOnlyUsers := 0, 0, 0;
    var i := 0;
    while i < |u.keys|
      invariant 0 <= i <= |u.keys|
      invariant chatUsers == CountUsage(u.keys[..i], u.values, UsedChat())
      invariant agentUsers == CountUsage(u.keys[..i], u.values, UsedAgent())
      invariant completionOnlyUsers == CountUsage(u.keys[..i], u.values, CompletionOnly())
    {
      assert u.keys[..i + 1][..i] == u.keys[..i];
      var usage := u.values[u.keys[i]];
      if usage.usedChat { chatUsers := chatUsers + 1; }
      if usage.usedAgent { agentUsers := agentUsers + 1; }
      if !usage.usedChat && !usage.usedAgent { completionOnlyUsers := completionOnlyUsers + 1; }
      i := i + 1;
    }
    assert u.keys[..|u.keys|] == u.keys;
  }

  /** Over distinct users, the count is the size of the set of users satisfying `p`. */
  lemma {:induction false} CountUsageIsCard(keys: seq<int>, values: map<int, Usage>, p: Usage -> bool)
    requires Distinct(keys) && forall k :: k in keys ==> k in values
    ensures CountUsage(keys, values, p) == |set k | k in keys && p(values[k])|
  {
    if keys != [] {
      var n := |keys| - 1;
      var k := keys[n];
      CountUsageIsCard(keys[..n], values, p);
      var before := set x | x in keys[..n] && p(values[x]);
      assert k !in keys[..n];
      if p(values[k]) {
        assert (set x | x in keys && p(values[x])) == before + {k};
      } else {
        assert (set x | x in keys && p(values[x])) == before;
      }
    }
  }

  // ---------------------------------------------------------------- weighted rankings

  /** One entry added to a ranking map: `map.set(key, (map.get(key) || 0) + weight)`. */
  function AddWeight(e: IMap<string, int>, k: string, w: int): (r: IMap<string, int>)
    requires e.Valid()
    ensures r.Valid()
  {
    e.Put(k, e.GetOr(k, 0) + w)
  }

  /** The entries of one record folded into a ranking map. */
  function AddWeights<T>(e: IMap<string, int>, xs: seq<T>, key: T -> string, weight: T -> int): (r: IMap<string, int>)
    requires e.Valid()
    ensures r.Valid()
  {
    if xs == [] then e
    else AddWeight(AddWeights(e, xs[..|xs| - 1], key, weight), key(xs[|xs| - 1]), weight(xs[|xs| - 1]))
  }

  /** A ranking map built over all records, from the entries `items` selects in each. */
  function WeightsOf<T>(ms: seq<Metric>, items: Metric -> seq<T>, key: T -> string, weight: T -> int): (r: IMap<string, int>)
    ensures r.Valid()
  {
    if ms == [] then Empty()
    else AddWeights(WeightsOf(ms[..|ms| - 1], items, key, weight), items(ms[|ms| - 1]), key, weight)
  }

  /** The inner loop over one record's entries. */
  method AddRecordWeights<T>(e0: IMap<string, int>, xs: seq<T>, key: T -> string, weight: T -> int)
    returns (e: IMap<string, int>)
    requires e0.Valid()
    ensures e == AddWeights(e0, xs, key, weight)
  {
    e := e0;
    var j := 0;
    while j < |xs|
      invariant 0 <= j <= |xs| && e == AddWeights(e0, xs[..j], key, weight)
    {
      AddWeightsStep(e0, xs, j, key, weight);
      e := AddEntry(e, key(xs[j]), weight(xs[j]));
      j := j + 1;
    }
    assert xs[..|xs|] == xs;
  }

  /** The body of the inner loop. */
  method AddEntry(e0: IMap<string, int>, k: string, w: int) returns (e: IMap<string, int>)
    requires e0.Valid()
    ensures e == AddWeight(e0, k, w)
  {
    var current := if k in e0.values then e0.values[k] else 0;
    e := e0.Put(k, current + w);
  }

  lemma AddWeightsStep<T>(e0: IMap<string, int>, xs: seq<T>, j: int, key: T -> string, weight: T -> int)
    requires e0.Valid() && 0 <= j < |xs|
    ensures AddWeights(e0, xs[..j + 1], key, weight) == AddWeight(AddWeights(e0, xs[..j], key, weight), key(xs[j]), weight(xs[j]))
  {
    assert xs[..j + 1][..j] == xs[..j];
  }

  /** The nested loops that build a ranking map. */
  method BuildWeights<T>(metrics: seq<Metric>, items: Metric -> seq<T>, key: T -> string, weight: T -> int)
    returns (e: IMap<string, int>)
    ensures e == WeightsOf(metrics, items, key, weight)
  {
    e := Empty();
    var i := 0;
    while i < |metrics|
      invariant 0 <= i <= |metrics| && e == WeightsOf(metrics[..i], items, key, weight)
    {
      assert metrics[..i + 1][..i] == metrics[..i];
      e := AddRecordWeights(e, items(metrics[i]), key, weight);
      i := i + 1;
    }
    assert metrics[..|metrics|] == metrics;
  }

  /** The weights of the entries with key `k`, summed. */
  function SumFor<T>(xs: seq<T>, key: T -> string, weight: T -> int, k: string): int
  {
    if xs == [] then 0
    else SumFor(xs[..|xs| - 1], key, weight, k) + (if key(xs[|xs| - 1]) == k then weight(xs[|xs| - 1]) else 0)
  }

  /** The weights of the entries with key `k` over all records, summed. */
  function TotalFor<T>(ms: seq<Metric>, items: Metric -> seq<T>, key: T -> string, weight: T -> int, k: string): int
  {
    if ms == [] then 0
    else TotalFor(ms[..|ms| - 1], items, key, weight, k) + SumFor(items(ms[|ms| - 1]), key, weight, k)
  }

  lemma {:induction false} AddWeightsContents<T>(e: IMap<string, int>, xs: seq<T>, key: T -> string, weight: T -> int, k: string)
    requires e.Valid()
    ensures AddWeights(e, xs, key, weight).GetOr(k, 0) == e.GetOr(k, 0) + SumFor(xs, key, weight, k)
  {
    if xs != [] {
      AddWeightsContents(e, xs[..|xs| - 1], key, weight, k);
    }
  }

  /** Each key of a ranking map holds the total weight of its entries over all records. */
  lemma {:induction false} WeightsOfContents<T>(ms: seq<Metric>, items: Metric -> seq<T>, key: T -> string, weight: T -> int, k: string)
    ensures WeightsOf(ms, items, key, weight).GetOr(k, 0) == TotalFor(ms, items, key, weight, k)
  {
    if ms != [] {
      var n := |ms| - 1;
      WeightsOfContents(ms[..n], items, key, weight, k);
      AddWeightsContents(WeightsOf(ms[..n], items, key, weight), items(ms[n]), key, weight, k);
    }
  }

  function LanguageItems(m: Metric): seq<LanguageFeatureTotal> { m.byLanguageFeature }
  function LanguageKey(x: LanguageFeatureTotal): string { x.language }
  function LanguageWeight(x: LanguageFeatureTotal): int { x.generations + x.acceptances }
  function ModelItems(m: Metric): seq<ModelFeatureTotal> { m.byModelFeature }
  function ModelKey(x: ModelFeatureTotal): string { x.model }
  function ModelWeight(x: ModelFeatureTotal): int { x.generations + x.acceptances }
  function IdeItems(m: Metric): seq<IdeTotal> { m.byIde }
  function IdeKey(x: IdeTotal): string { x.ide }
  function One(x: IdeTotal): int { 1 }

  /** `languageEngagements`: generations plus acceptances per language. */
  function LanguageEngagementsOf(ms: seq<Metric>): (r: IMap<string, int>)
    ensures r.Valid()
  {
    WeightsOf(ms, LanguageItems, LanguageKey, LanguageWeight)
  }

  /** `modelEngagements`: generations plus acceptances per model. */
  function ModelEngagementsOf(ms: seq<Metric>): (r: IMap<string, int>)
    ensures r.Valid()
  {
    WeightsOf(ms, ModelItems, ModelKey, ModelWeight)
  }

  /** `ideEntries`: the number of `totals_by_ide` entries per IDE. */
  function IdeEntriesOf(ms: seq<Metric>): (r: IMap<string, int>)
    ensures r.Valid()
  {
    WeightsOf(ms, IdeItems, IdeKey, One)
  }

  // ---------------------------------------------------------------- IDE users

  /** One record's IDE entries folded into `ideUsers`. */
  function AddIdeUsers(e: IMap<string, set<int>>, ides: seq<IdeTotal>, userId: int): (r: IMap<string, set<int>>)
    requires e.Valid()
    ensures r.Valid()
  {
    if ides == [] then e
    else
      var r0 := AddIdeUsers(e, ides[..|ides| - 1], userId);
      var ide := ides[|ides| - 1].ide;
      r0.Put(ide, r0.GetOr(ide, {}) + {userId})
  }

  function IdeUsersOf(ms: seq<Metric>): (r: IMap<string, set<int>>)
    ensures r.Valid()
  {
    if ms == [] then Empty() else AddIdeUsers(IdeUsersOf(ms[..|ms| - 1]), ms[|ms| - 1].byIde, ms[|ms| - 1].userId)
  }

  /** The inner loop over one record's IDE entries. */
  method AddRecordIdeUsers(e0: IMap<string, set<int>>, ides: seq<IdeTotal>, userId: int)
    returns (e: IMap<string, set<int>>)
    requires e0.Valid()
    ensures e == AddIdeUsers(e0, ides, userId)
  {
    e := e0;
    var j := 0;
    while j < |ides|
      invariant 0 <= j <= |ides| && e == AddIdeUsers(e0, ides[..j], userId)
    {
      assert ides[..j + 1][..j] == ides[..j];
      var ide := ides[j].ide;
      var users := if ide in e.values then e.values[ide] else {};
      e := e.Put(ide, users + {userId});
      j := j + 1;
    }
    assert ides[..|ides|] == ides;
  }

  /** The loops that fill `ideUsers`. */
  method BuildIdeUsers(metrics: seq<Metric>) returns (e: IMap<string, set<int>>)
    ensures e == IdeUsersOf(metrics)
  {
    e := Empty();
    var i := 0;
    while i < |metrics|
      invariant 0 <= i <= |metrics| && e == IdeUsersOf(metrics[..i])
    {
      assert metrics[..i + 1][..i] == metrics[..i];
      e := AddRecordIdeUsers(e, metrics[i].byIde, metrics[i].userId);
      i := i + 1;
    }
    assert metrics[..|metrics|] == metrics;
  }

  predicate UsesIde(m: Metric, ide: string)
  {
    exists t :: t in m.byIde && t.ide == ide
  }

  lemma {:induction false} AddIdeUsersContents(e: IMap<string, set<int>>, ides: seq<IdeTotal>, userId: int, ide: string)
    requires e.Valid()
    ensures var r := AddIdeUsers(e, ides, userId);
      r.GetOr(ide, {}) == e.GetOr(ide, {}) + (if exists t :: t in ides && t.ide == ide then {userId} else {})
  {
    if ides != [] {
      var n := |ides| - 1;
      AddIdeUsersContents(e, ides[..n], userId, ide);
      assert forall t :: t in ides <==> t in ides[..n] || t == ides[n];
    }
  }

  /** Each IDE holds exactly the users with a record listing that IDE. */
  lemma {:induction false} IdeUsersOfContents(ms: seq<Metric>, ide: string)
    ensures IdeUsersOf(ms).GetOr(ide, {}) == set m | m in ms && UsesIde(m, ide) :: m.userId
  {
    if ms != [] {
      var n := |ms| - 1;
      IdeUsersOfContents(ms[..n], ide);
      AddIdeUsersContents(IdeUsersOf(ms[..n]), ms[n].byIde, ms[n].userId, ide);
      assert ms == ms[..n] + [ms[n]];
      assert forall m :: m in ms <==> m in ms[..n] || m == ms[n];
    }
  }

  // ---------------------------------------------------------------- the winners

  function TopValue(t: TopEntry): int { t.value }

  /** `Array.from(map.entries())`. */
  function EntriesOf(e: IMap<string, int>): (r: seq<TopEntry>)
    requires e.Valid()
    ensures |r| == |e.keys|
    ensures forall i :: 0 <= i < |r| ==> r[i] == TopEntry(e.keys[i], e.values[e.keys[i]])
  {
    seq(|e.keys|, i requires 0 <= i < |e.keys| => TopEntry(e.keys[i], e.values[e.keys[i]]))
  }

  /** `Array.from(ideUsers.entries()).map(([ide, userSet]) => [ide, userSet.size])`. */
  function SizeEntriesOf(e: IMap<string, set<int>>): (r: seq<TopEntry>)
    requires e.Valid()
    ensures |r| == |e.keys|
    ensures forall i :: 0 <= i < |r| ==> r[i] == TopEntry(e.keys[i], |e.values[e.keys[i]]|)
  {
    seq(|e.keys|, i requires 0 <= i < |e.keys| => TopEntry(e.keys[i], |e.values[e.keys[i]]|))
  }

  const NoTop := TopEntry("N/A", 0)

  /** `entries.sort((a, b) => b[1] - a[1])[0]`, or "N/A" with 0 when there are none: the
      first entry, in insertion order, with the largest value, which is also the entry
      `findMaxItem` picks. */
  function TopOf(entries: seq<TopEntry>): (r: TopEntry)
    ensures entries == [] ==> r == NoTop
    ensures entries != [] ==> (IsFirstMax(entries, TopValue, FirstMaxIndex(entries, TopValue))
      && r == entries[FirstMaxIndex(entries, TopValue)])
    ensures entries != [] ==> FindMaxItem(entries, TopValue) == Some(r)
  {
    if entries == [] then NoTop
    else
      var r := StableSort(entries, ByDesc(TopValue))[0];
      TopOfIsFirstMax(entries, r);
      r
  }

  lemma TopOfIsFirstMax(entries: seq<TopEntry>, r: TopEntry)
    requires entries != [] && r == StableSort(entries, ByDesc(TopValue))[0]
    ensures r == entries[FirstMaxIndex(entries, TopValue)]
  {
    SortDescHead(entries, TopValue);
    var i :| IsFirstMax(entries, TopValue, i) && r == entries[i];
    FirstMaxUnique(entries, TopValue, i, FirstMaxIndex(entries, TopValue));
  }

  /** Only one index is the first maximum. */
  lemma FirstMaxUnique<T>(s: seq<T>, key: T -> int, i: int, j: int)
    requires IsFirstMax(s, key, i) && IsFirstMax(s, key, j)
    ensures i == j
  {
    assert key(s[j]) <= key(s[i]);
    assert key(s[i]) <= key(s[j]);
  }

  /** The top of a non-empty map: the first-inserted key holding the largest value. */
  lemma TopOfMap(e: IMap<string, int>)
    requires e.Valid() && e.keys != []
    ensures exists i :: (
      && 0 <= i < |e.keys|
      && TopOf(EntriesOf(e)) == TopEntry(e.keys[i], e.values[e.keys[i]])
      && (forall j :: 0 <= j < |e.keys| ==> e.values[e.keys[j]] <= e.values[e.keys[i]])
      && (forall j :: 0 <= j < i ==> e.values[e.keys[j]] < e.values[e.keys[i]]))
  {
    var entries := EntriesOf(e);
    var i := FirstMaxIndex(entries, TopValue);
    forall j | 0 <= j < |e.keys|
      ensures e.values[e.keys[j]] <= e.values[e.keys[i]]
      ensures j < i ==> e.values[e.keys[j]] < e.values[e.keys[i]]
    {
      assert TopValue(entries[j]) == e.values[e.keys[j]];
    }
  }

  // ---------------------------------------------------------------- the result

  const EmptyStats := MetricsStats(0, 0, 0, 0, "", "", 0, NoTop, NoTop, NoTop)

  /** The statistics of a non-empty record list, given its top IDE. */
  function StatsOf(ms: seq<Metric>, topIde: TopEntry): MetricsStats
    requires ms != []
  {
    var u := UsageOf(ms);
    MetricsStats(
      |u.keys|,
      CountUsage(u.keys, u.values, UsedChat()),
      CountUsage(u.keys, u.values, UsedAgent()),
      CountUsage(u.keys, u.values, CompletionOnly()),
      ms[0].reportStartDay,
      ms[0].reportEndDay,
      |ms|,
      TopOf(EntriesOf(LanguageEngagementsOf(ms))),
      topIde,
      TopOf(EntriesOf(ModelEngagementsOf(ms))))
  }

  /** The user counts of the statistics: distinct users, distinct users with a chat record,
      with an agent record, and the rest, who together with the chat-or-agent users make up
      all users. */
  lemma StatsUsers(ms: seq<Metric>, topIde: TopEntry)
    requires ms != []
    ensures var s := StatsOf(ms, topIde);
      && s.uniqueUsers == |UserIds(ms)|
      && s.chatUsers == |ChatUserIds(ms)|
      && s.agentUsers == |AgentUserIds(ms)|
      && s.completionOnlyUsers + |ChatUserIds(ms) + AgentUserIds(ms)| == s.uniqueUsers
      && s.totalRecords == |ms|
  {
    UserCounts(ms);
  }

  lemma UserCounts(ms: seq<Metric>)
    ensures var u := UsageOf(ms);
      && |u.keys| == |UserIds(ms)|
      && CountUsage(u.keys, u.values, UsedChat()) == |ChatUserIds(ms)|
      && CountUsage(u.keys, u.values, UsedAgent()) == |AgentUserIds(ms)|
      && CountUsage(u.keys, u.values, CompletionOnly()) + |ChatUserIds(ms) + AgentUserIds(ms)| == |u.keys|
  {
    var u := UsageOf(ms);
    UsageOfContents(ms);
    DistinctCard(u.keys);
    KeysAreUsers(ms);
    CountIsUsers(ms, UsedChat(), ChatUserIds(ms));
    CountIsUsers(ms, UsedAgent(), AgentUserIds(ms));
    CountIsUsers(ms, UsedEither(), ChatUserIds(ms) + AgentUserIds(ms));
    CountUsageComplement(u.keys, u.values, CompletionOnly(), UsedEither());
  }

  lemma KeysAreUsers(ms: seq<Metric>)
    ensures (set k | k in UsageOf(ms).keys) == UserIds(ms)
  {
    UsageOfContents(ms);
  }

  /** The count of users satisfying `p` is the size of `ids`, when `ids` holds exactly them. */
  lemma CountIsUsers(ms: seq<Metric>, p: Usage -> bool, ids: set<int>)
    requires forall id :: id in UsageOf(ms).values ==> (p(UsageOf(ms).values[id]) <==> id in ids)
    requires ids <= UserIds(ms)
    ensures CountUsage(UsageOf(ms).keys, UsageOf(ms).values, p) == |ids|
  {
    UsageOfContents(ms);
    CountIsSize(UsageOf(ms), p, ids);
  }

  /** Over a usage map, the count of users satisfying `p` is the size of the set they form. */
  lemma CountIsSize(u: IMap<int, Usage>, p: Usage -> bool, ids: set<int>)
    requires u.Valid()
    requires forall id :: id in u.values ==> (p(u.values[id]) <==> id in ids)
    requires forall id :: id in ids ==> id in u.values
    ensures CountUsage(u.keys, u.values, p) == |ids|
  {
    CountUsageIsCard(u.keys, u.values, p);
    var c := set k | k in u.keys && p(u.values[k]);
    forall k ensures k in c <==> k in ids {
      if k in ids {
        assert k in u.keys;
      }
    }
    assert c == ids;
  }

  /** Complementary properties split the users between them. */
  lemma {:induction false} CountUsageComplement(keys: seq<int>, values: map<int, Usage>, p: Usage -> bool, q: Usage -> bool)
    requires forall k :: k in keys ==> k in values && (p(values[k]) <==> !q(values[k]))
    ensures CountUsage(keys, values, p) + CountUsage(keys, values, q) == |keys|
  {
    if keys != [] {
      var n := |keys| - 1;
      assert keys[n] in keys;
      CountUsageComplement(keys[..n], values, p, q);
    }
  }
}
