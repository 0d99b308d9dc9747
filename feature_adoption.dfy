/** The feature-adoption funnel: which users used which features at least once. */
module FeatureAdoptionCalculator {
  import opened Common
  import opened InsertionMap
  import opened MetricTypes

  /** Every recorded user has at least one feature. */
  ghost predicate AdoptionValid(m: IMap<int, set<string>>)
  {
    m.Valid() && forall u :: u in m.values ==> m.values[u] != {}
  }

  /** `accumulateFeatureAdoption` on the map: only a fragment with some interaction or some
      generation is recorded, and then only its user's feature set grows, by that feature. */
  function AddFeature(m: IMap<int, set<string>>, userId: int, feature: string, interactionCount: int, generationCount: int): (r: IMap<int, set<string>>)
    requires AdoptionValid(m)
    ensures AdoptionValid(r)
    ensures interactionCount <= 0 && generationCount <= 0 ==> r == m
    ensures interactionCount > 0 || generationCount > 0 ==>
      userId in r.values && r.values[userId] == m.GetOr(userId, {}) + {feature}
    ensures forall u :: u != userId ==>
      (u in r.values <==> u in m.values) && (u in m.values ==> r.values[u] == m.values[u])
  {
    if interactionCount <= 0 && generationCount <= 0 then m
    else
      var m1 := if userId in m.values then m else m.Put(userId, {});
      m1.Put(userId, m1.values[userId] + {feature})
  }

  /** Recording the same feature for the same user again changes nothing. */
  lemma AddFeatureIdempotent(m: IMap<int, set<string>>, userId: int, feature: string, interactionCount: int, generationCount: int)
    requires AdoptionValid(m)
    ensures var once := AddFeature(m, userId, feature, interactionCount, generationCount);
      AddFeature(once, userId, feature, interactionCount, generationCount) == once
  {
    var once := AddFeature(m, userId, feature, interactionCount, generationCount);
    var twice := AddFeature(once, userId, feature, interactionCount, generationCount);
    assert twice.values == once.values;
  }

  class FeatureAdoptionAccumulator {
    var userFeatures: IMap<int, set<string>>

    /** `createFeatureAdoptionAccumulator`. */
    constructor ()
      ensures userFeatures == Empty()
    {
      userFeatures := Empty();
    }
  }

  /** `accumulateFeatureAdoption`. */
  method AccumulateFeatureAdoption(acc: FeatureAdoptionAccumulator, userId: int, feature: string, interactionCount: int, generationCount: int)
    requires AdoptionValid(acc.userFeatures)
    modifies acc
    ensures acc.userFeatures == AddFeature(old(acc.userFeatures), userId, feature, interactionCount, generationCount)
  {
    if interactionCount <= 0 && generationCount <= 0 {
      return;
    }
    if userId !in acc.userFeatures.values {
      acc.userFeatures := acc.userFeatures.Put(userId, {});
    }
    acc.userFeatures := acc.userFeatures.Put(userId, acc.userFeatures.values[userId] + {feature});
  }

  // ---------------------------------------------------------------- the funnel

  datatype FeatureAdoptionData = FeatureAdoptionData(
    totalUsers: int,
    completionUsers: int,
    chatUsers: int,
    agentModeUsers: int,
    askModeUsers: int,
    editModeUsers: int,
    inlineModeUsers: int,
    codeReviewUsers: int)

  function Has(feature: string): set<string> -> bool
  {
    fs => feature in fs
  }

  /** Any of the four chat-panel modes; inline chat is not one of them. */
  function HasChatPanel(): set<string> -> bool
  {
    fs => ChatPanelUnknownMode in fs || ChatPanelAskMode in fs || ChatPanelAgentMode in fs || ChatPanelEditMode in fs
  }

  /** The number of listed users whose feature set satisfies `p`. */
  function CountUsers(keys: seq<int>, values: map<int, set<string>>, p: set<string> -> bool): (n: nat)
    requires forall k :: k in keys ==> k in values
    ensures n <= |keys|
  {
    if keys == [] then 0
    else
      var k := keys[|keys| - 1];
      assert k in keys;
      CountUsers(keys[..|keys| - 1], values, p) + (if p(values[k]) then 1 else 0)
  }

  /** The funnel computed from the map. */
  function Funnel(m: IMap<int, set<string>>): FeatureAdoptionData
    requires m.Valid()
  {
    FeatureAdoptionData(
      |m.keys|,
      CountUsers(m.keys, m.values, Has(CodeCompletion)),
      CountUsers(m.keys, m.values, HasChatPanel()),
      CountUsers(m.keys, m.values, Has(ChatPanelAgentMode)),
      CountUsers(m.keys, m.values, Has(ChatPanelAskMode)),
      CountUsers(m.keys, m.values, Has(ChatPanelEditMode)),
      CountUsers(m.keys, m.values, Has(ChatInline)),
      CountUsers(m.keys, m.values, Has(CodeReview)))
  }

  /** `computeFeatureAdoptionData`: one pass over the users, bumping seven counters. */
  method ComputeFeatureAdoptionData(acc: FeatureAdoptionAccumulator) returns (r: FeatureAdoptionData)
    requires acc.userFeatures.Valid()
    ensures r == Funnel(acc.userFeatures)
  {
    var keys, values := acc.userFeatures.keys, acc.userFeatures.values;
    var completionUsers, chatUsers, agentModeUsers, askModeUsers := 0, 0, 0, 0;
    var editModeUsers, inlineModeUsers, codeReviewUsers := 0, 0, 0;
    var i := 0;
    while i < |keys|
      invariant 0 <= i <= |keys|
      invariant completionUsers == CountUsers(keys[..i], values, Has(CodeCompletion))
      invariant chatUsers == CountUsers(keys[..i], values, HasChatPanel())
      invariant agentModeUsers == CountUsers(keys[..i], values, Has(ChatPanelAgentMode))
      invariant askModeUsers == CountUsers(keys[..i], values, Has(ChatPanelAskMode))
      invariant editModeUsers == CountUsers(keys[..i], values, Has(ChatPanelEditMode))
      invariant inlineModeUsers == CountUsers(keys[..i], values, Has(ChatInline))
      invariant codeReviewUsers == CountUsers(keys[..i], values, Has(CodeReview))
    {
      assert keys[..i + 1][..i] == keys[..i];
      var features := values[keys[i]];
      if CodeCompletion in features { completionUsers := completionUsers + 1; }
      if ChatPanelUnknownMode in features || ChatPanelAskMode in features
        || ChatPanelAgentMode in features || ChatPanelEditMode in features {
        chatUsers := chatUsers + 1;
      }
      if ChatPanelAgentMode in features { agentModeUsers := agentModeUsers + 1; }
      if ChatPanelAskMode in features { askModeUsers := askModeUsers + 1; }
      if ChatPanelEditMode in features { editModeUsers := editModeUsers + 1; }
      if ChatInline in features { inlineModeUsers := inlineModeUsers + 1; }
      if CodeReview in features { codeReviewUsers := codeReviewUsers + 1; }
      i := i + 1;
    }
    assert keys[..|keys|] == keys;
    r := FeatureAdoptionData(|keys|, completionUsers, chatUsers, agentModeUsers, askModeUsers,
      editModeUsers, inlineModeUsers, codeReviewUsers);
  }

  /** A stronger property never counts more users than a weaker one. */
  lemma {:induction false} CountUsersMono(keys: seq<int>, values: map<int, set<string>>, p: set<string> -> bool, q: set<string> -> bool)
    requires forall k :: k in keys ==> k in values
    requires forall k :: k in keys ==> p(values[k]) ==> q(values[k])
    ensures CountUsers(keys, values, p) <= CountUsers(keys, values, q)
  {
    if keys != [] {
      var n := |keys| - 1;
      assert keys[n] in keys;
      CountUsersMono(keys[..n], values, p, q);
    }
  }

  /** Counting users all of whom satisfy `p` counts every one of them. */
  lemma {:induction false} CountUsersAll(keys: seq<int>, values: map<int, set<string>>, p: set<string> -> bool)
    requires forall k :: k in keys ==> k in values && p(values[k])
    ensures CountUsers(keys, values, p) == |keys|
  {
    if keys != [] {
      var n := |keys| - 1;
      assert keys[n] in keys;
      CountUsersAll(keys[..n], values, p);
    }
  }

  function NonEmpty(): set<string> -> bool
  {
    fs => fs != {}
  }

  /** The funnel narrows: every count is at most the users recorded, who are exactly the users
      with some feature, and each chat-panel mode is at most the chat users. */
  lemma FunnelBounds(m: IMap<int, set<string>>)
    requires AdoptionValid(m)
    ensures var f := Funnel(m);
      && f.totalUsers == CountUsers(m.keys, m.values, NonEmpty())
      && 0 <= f.completionUsers <= f.totalUsers && 0 <= f.chatUsers <= f.totalUsers
      && 0 <= f.inlineModeUsers <= f.totalUsers && 0 <= f.codeReviewUsers <= f.totalUsers
      && 0 <= f.agentModeUsers <= f.chatUsers
      && 0 <= f.askModeUsers <= f.chatUsers
      && 0 <= f.editModeUsers <= f.chatUsers
  {
    CountUsersAll(m.keys, m.values, NonEmpty());
    CountUsersMono(m.keys, m.values, Has(ChatPanelAgentMode), HasChatPanel());
    CountUsersMono(m.keys, m.values, Has(ChatPanelAskMode), HasChatPanel());
    CountUsersMono(m.keys, m.values, Has(ChatPanelEditMode), HasChatPanel());
  }

  /** Inline chat is not part of the chat users: one user with only inline chat is an inline
      user but no chat user. */
  lemma InlineOutsideChat()
    ensures var m := Empty<int, set<string>>().Put(1, {ChatInline});
      Funnel(m).inlineModeUsers == 1 && Funnel(m).chatUsers == 0
  {
    var m := Empty<int, set<string>>().Put(1, {ChatInline});
    assert m == IMap([1], map[1 := {ChatInline}]);
    CountOne(1, {ChatInline}, Has(ChatInline));
    CountOne(1, {ChatInline}, HasChatPanel());
    assert ChatInline[5] != ChatPanelUnknownMode[5];
    assert !HasChatPanel()({ChatInline});
  }

  /** A single user is counted iff their features satisfy `p`. */
  lemma CountOne(k: int, v: set<string>, p: set<string> -> bool)
    ensures CountUsers([k], map[k := v], p) == if p(v) then 1 else 0
  {
    assert [k][..0] == [];
  }

  /** No users, no adoption. */
  lemma EmptyFunnel()
    ensures Funnel(Empty()) == FeatureAdoptionData(0, 0, 0, 0, 0, 0, 0, 0)
  {
  }

  // ---------------------------------------------------------------- over a stream of calls

  /** The arguments of one `accumulateFeatureAdoption` call. */
  datatype AdoptionEvent = AdoptionEvent(userId: int, feature: string, interactionCount: int, generationCount: int)

  predicate Recorded(e: AdoptionEvent)
  {
    e.interactionCount > 0 || e.generationCount > 0
  }

  function AdoptionOf(es: seq<AdoptionEvent>): (r: IMap<int, set<string>>)
    ensures AdoptionValid(r)
  {
    if es == [] then Empty()
    else
      var e := es[|es| - 1];
      AddFeature(AdoptionOf(es[..|es| - 1]), e.userId, e.feature, e.interactionCount, e.generationCount)
  }

  function FeaturesOf(es: seq<AdoptionEvent>, u: int): set<string>
  {
    set e | e in es && e.userId == u && Recorded(e) :: e.feature
  }

  lemma FeaturesOfSnoc(p: seq<AdoptionEvent>, e: AdoptionEvent, u: int)
    ensures FeaturesOf(p + [e], u) == FeaturesOf(p, u) + (if e.userId == u && Recorded(e) then {e.feature} else {})
  {
    assert forall x :: x in p + [e] <==> x in p || x == e;
  }

  /** After a stream, the users are those with a recorded fragment, each holding exactly the
      features of their recorded fragments. */
  lemma {:induction false} AdoptionOfContents(es: seq<AdoptionEvent>)
    ensures var m := AdoptionOf(es);
      forall u :: (u in m.values <==> FeaturesOf(es, u) != {}) && (u in m.values ==> m.values[u] == FeaturesOf(es, u))
  {
    if es != [] {
      var n := |es| - 1;
      var p, e := es[..n], es[n];
      AdoptionOfContents(p);
      assert es == p + [e];
      forall u {
        FeaturesOfSnoc(p, e, u);
      }
    }
  }
}
