/** Chat usage per day and per chat mode: the users of each mode and the requests made in it. */
module ChatCalculator {
  import opened Common
  import opened Text
  import opened InsertionMap
  import opened Sorting
  import opened DateRows
  import opened MetricTypes

  /** The four chat modes that are counted; other feature ids are ignored. */
  datatype ChatMode = Ask | Agent | Edit | Inline

  function ModeFeature(mode: ChatMode): string
  {
    match mode
    case Ask => ChatPanelAskMode
    case Agent => ChatPanelAgentMode
    case Edit => ChatPanelEditMode
    case Inline => ChatInline
  }

  /** The mode a feature id stands for, as the `switch` of `accumulateChatFeature` selects it. */
  function ModeOf(feature: string): (r: Option<ChatMode>)
    ensures forall mode :: r == Some(mode) <==> feature == ModeFeature(mode)
  {
    if feature == ChatPanelAskMode then Some(Ask)
    else if feature == ChatPanelAgentMode then Some(Agent)
    else if feature == ChatPanelEditMode then Some(Edit)
    else if feature == ChatInline then Some(Inline)
    else None
  }

  datatype ModeUsers = ModeUsers(askModeUsers: set<int>, agentModeUsers: set<int>, editModeUsers: set<int>, inlineModeUsers: set<int>)
  {
    function Of(mode: ChatMode): set<int>
    {
      match mode
      case Ask => askModeUsers
      case Agent => agentModeUsers
      case Edit => editModeUsers
      case Inline => inlineModeUsers
    }

    /** `users.<mode>Users.add(userId)`. */
    function Add(mode: ChatMode, userId: int): (r: ModeUsers)
      ensures forall m :: r.Of(m) == Of(m) + (if m == mode then {userId} else {})
    {
      match mode
      case Ask => this.(askModeUsers := askModeUsers + {userId})
      case Agent => this.(agentModeUsers := agentModeUsers + {userId})
      case Edit => this.(editModeUsers := editModeUsers + {userId})
      case Inline => this.(inlineModeUsers := inlineModeUsers + {userId})
    }
  }

  datatype ModeRequests = ModeRequests(askModeRequests: int, agentModeRequests: int, editModeRequests: int, inlineModeRequests: int)
  {
    function Of(mode: ChatMode): int
    {
      match mode
      case Ask => askModeRequests
      case Agent => agentModeRequests
      case Edit => editModeRequests
      case Inline => inlineModeRequests
    }

    /** `requests.<mode>Requests += count`. */
    function Add(mode: ChatMode, count: int): (r: ModeRequests)
      ensures forall m :: r.Of(m) == Of(m) + (if m == mode then count else 0)
    {
      match mode
      case Ask => this.(askModeRequests := askModeRequests + count)
      case Agent => this.(agentModeRequests := agentModeRequests + count)
      case Edit => this.(editModeRequests := editModeRequests + count)
      case Inline => this.(inlineModeRequests := inlineModeRequests + count)
    }
  }

  const NoUsers := ModeUsers({}, {}, {}, {})
  const NoRequests := ModeRequests(0, 0, 0, 0)

  /** The contents of a `ChatAccumulator`. */
  datatype ChatState = ChatState(dailyChatUsers: IMap<string, ModeUsers>, dailyChatRequests: IMap<string, ModeRequests>)
  {
    /** Both maps gained their days together, so they list the same days in the same order. */
    ghost predicate Valid()
    {
      dailyChatUsers.Valid() && dailyChatRequests.Valid() && dailyChatUsers.keys == dailyChatRequests.keys
    }

    ghost predicate HasDay(date: string)
    {
      date in dailyChatUsers.values && date in dailyChatRequests.values
    }

    /** The entries of every day other than `date` are the same in `this` and `s`. */
    ghost predicate SameElsewhere(s: ChatState, date: string)
    {
      forall d :: d != date ==>
        && (d in dailyChatUsers.values <==> d in s.dailyChatUsers.values)
        && (d in dailyChatRequests.values <==> d in s.dailyChatRequests.values)
        && (d in dailyChatUsers.values && d in s.dailyChatUsers.values ==>
              dailyChatUsers.values[d] == s.dailyChatUsers.values[d])
        && (d in dailyChatRequests.values && d in s.dailyChatRequests.values ==>
              dailyChatRequests.values[d] == s.dailyChatRequests.values[d])
    }
  }

  function EmptyChat(): (r: ChatState)
    ensures r.Valid()
  {
    ChatState(Empty(), Empty())
  }

  /** `ensureChatDate` on the contents: a missing day gets empty sets and zero counters in
      both maps; an existing day is never overwritten. */
  function EnsureDate(s: ChatState, date: string): (r: ChatState)
    requires s.Valid()
    ensures r.Valid() && r.HasDay(date) && r.SameElsewhere(s, date)
    ensures s.HasDay(date) ==> r == s
    ensures !s.HasDay(date) ==>
      r.dailyChatUsers.values[date] == NoUsers && r.dailyChatRequests.values[date] == NoRequests
  {
    var users := if date in s.dailyChatUsers.values then s.dailyChatUsers else s.dailyChatUsers.Put(date, NoUsers);
    var requests := if date in s.dailyChatRequests.values then s.dailyChatRequests else s.dailyChatRequests.Put(date, NoRequests);
    ChatState(users, requests)
  }

  /** `accumulateChatFeature` on the contents. A count that is not positive changes nothing;
      otherwise the day is ensured and, for a chat mode, only that mode's user set and
      counter of that day grow. */
  function AddChat(s: ChatState, date: string, userId: int, feature: string, count: int): (r: ChatState)
    requires s.Valid()
    ensures r.Valid()
    ensures count <= 0 ==> r == s
    ensures count > 0 ==> r.HasDay(date) && r.SameElsewhere(s, date)
    ensures count > 0 && ModeOf(feature) == None ==> r == EnsureDate(s, date)
    ensures count > 0 ==> var t := EnsureDate(s, date);
      forall mode ::
        && r.dailyChatUsers.values[date].Of(mode) ==
             t.dailyChatUsers.values[date].Of(mode) + (if ModeOf(feature) == Some(mode) then {userId} else {})
        && r.dailyChatRequests.values[date].Of(mode) ==
             t.dailyChatRequests.values[date].Of(mode) + (if ModeOf(feature) == Some(mode) then count else 0)
  {
    if count <= 0 then s
    else
      var t := EnsureDate(s, date);
      match ModeOf(feature)
      case None => t
      case Some(mode) =>
        ChatState(
          t.dailyChatUsers.Put(date, t.dailyChatUsers.values[date].Add(mode, userId)),
          t.dailyChatRequests.Put(date, t.dailyChatRequests.values[date].Add(mode, count)))
  }

  class ChatAccumulator {
    var dailyChatUsers: IMap<string, ModeUsers>
    var dailyChatRequests: IMap<string, ModeRequests>

    function Value(): ChatState
      reads this
    {
      ChatState(dailyChatUsers, dailyChatRequests)
    }

    /** `createChatAccumulator`. */
    constructor ()
      ensures Value() == EmptyChat()
    {
      dailyChatUsers := Empty();
      dailyChatRequests := Empty();
    }
  }

  /** `ensureChatDate`. */
  method EnsureChatDate(acc: ChatAccumulator, date: string)
    requires acc.Value().Valid()
    modifies acc
    ensures acc.Value() == EnsureDate(old(acc.Value()), date)
  {
    if date !in acc.dailyChatUsers.values {
      acc.dailyChatUsers := acc.dailyChatUsers.Put(date, NoUsers);
    }
    if date !in acc.dailyChatRequests.values {
      acc.dailyChatRequests := acc.dailyChatRequests.Put(date, NoRequests);
    }
  }

  /** `accumulateChatFeature`. */
  method AccumulateChatFeature(acc: ChatAccumulator, date: string, userId: int, feature: string, interactionCount: int)
    requires acc.Value().Valid()
    modifies acc
    ensures acc.Value() == AddChat(old(acc.Value()), date, userId, feature, interactionCount)
  {
    if interactionCount <= 0 {
      return;
    }
    EnsureChatDate(acc, date);
    ghost var t := acc.Value();
    var users := acc.dailyChatUsers.values[date];
    var requests := acc.dailyChatRequests.values[date];
    if feature == ChatPanelAskMode {
      assert ModeOf(feature) == Some(Ask);
      assert users.(askModeUsers := users.askModeUsers + {userId}) == users.Add(Ask, userId);
      assert requests.(askModeRequests := requests.askModeRequests + interactionCount) == requests.Add(Ask, interactionCount);
      acc.dailyChatUsers := acc.dailyChatUsers.Put(date, users.(askModeUsers := users.askModeUsers + {userId}));
      acc.dailyChatRequests := acc.dailyChatRequests.Put(date, requests.(askModeRequests := requests.askModeRequests + interactionCount));
    } else if feature == ChatPanelAgentMode {
      assert ModeOf(feature) == Some(Agent);
      assert users.(agentModeUsers := users.agentModeUsers + {userId}) == users.Add(Agent, userId);
      assert requests.(agentModeRequests := requests.agentModeRequests + interactionCount) == requests.Add(Agent, interactionCount);
      acc.dailyChatUsers := acc.dailyChatUsers.Put(date, users.(agentModeUsers := users.agentModeUsers + {userId}));
      acc.dailyChatRequests := acc.dailyChatRequests.Put(date, requests.(agentModeRequests := requests.agentModeRequests + interactionCount));
    } else if feature == ChatPanelEditMode {
      assert ModeOf(feature) == Some(Edit);
      assert users.(editModeUsers := users.editModeUsers + {userId}) == users.Add(Edit, userId);
      assert requests.(editModeRequests := requests.editModeRequests + interactionCount) == requests.Add(Edit, interactionCount);
      acc.dailyChatUsers := acc.dailyChatUsers.Put(date, users.(editModeUsers := users.editModeUsers + {userId}));
      acc.dailyChatRequests := acc.dailyChatRequests.Put(date, requests.(editModeRequests := requests.editModeRequests + interactionCount));
    } else if feature == ChatInline {
      assert ModeOf(feature) == Some(Inline);
      assert users.(inlineModeUsers := users.inlineModeUsers + {userId}) == users.Add(Inline, userId);
      assert requests.(inlineModeRequests := requests.inlineModeRequests + interactionCount) == requests.Add(Inline, interactionCount);
      acc.dailyChatUsers := acc.dailyChatUsers.Put(date, users.(inlineModeUsers := users.inlineModeUsers + {userId}));
      acc.dailyChatRequests := acc.dailyChatRequests.Put(date, requests.(inlineModeRequests := requests.inlineModeRequests + interactionCount));
    } else {
      assert ModeOf(feature) == None;
    }
  }

  // ---------------------------------------------------------------- report rows

  datatype DailyChatUsersData = DailyChatUsersData(date: string, askModeUsers: int, agentModeUsers: int, editModeUsers: int, inlineModeUsers: int)
  datatype DailyChatRequestsData = DailyChatRequestsData(date: string, askModeRequests: int, agentModeRequests: int, editModeRequests: int, inlineModeRequests: int)

  function UsersRowDate(row: DailyChatUsersData): string { row.date }
  function RequestsRowDate(row: DailyChatRequestsData): string { row.date }

  function UsersRow(date: string, u: ModeUsers): DailyChatUsersData
  {
    DailyChatUsersData(date, |u.askModeUsers|, |u.agentModeUsers|, |u.editModeUsers|, |u.inlineModeUsers|)
  }

  function RequestsRow(date: string, q: ModeRequests): DailyChatRequestsData
  {
    DailyChatRequestsData(date, q.askModeRequests, q.agentModeRequests, q.editModeRequests, q.inlineModeRequests)
  }

  /** A users row reports the sizes of its day's four user sets. */
  ghost predicate IsUsersRow(s: ChatState, row: DailyChatUsersData)
  {
    && row.date in s.dailyChatUsers.values
    && var u := s.dailyChatUsers.values[row.date];
    && row.askModeUsers == |u.Of(Ask)| && row.agentModeUsers == |u.Of(Agent)|
    && row.editModeUsers == |u.Of(Edit)| && row.inlineModeUsers == |u.Of(Inline)|
  }

  /** A requests row reports its day's four counters. */
  ghost predicate IsRequestsRow(s: ChatState, row: DailyChatRequestsData)
  {
    && row.date in s.dailyChatRequests.values
    && var q := s.dailyChatRequests.values[row.date];
    && row.askModeRequests == q.Of(Ask) && row.agentModeRequests == q.Of(Agent)
    && row.editModeRequests == q.Of(Edit) && row.inlineModeRequests == q.Of(Inline)
  }

  /** `computeChatUsersData`: one row per day, ascending by date, with the set sizes. */
  function ComputeChatUsersData(s: ChatState): (r: seq<DailyChatUsersData>)
    requires s.Valid()
    ensures |r| == |s.dailyChatUsers.keys|
    ensures forall i, j :: 0 <= i < j < |r| ==> StrLt(r[i].date, r[j].date)
    ensures forall d :: d in s.dailyChatUsers.values ==> exists j :: 0 <= j < |r| && r[j].date == d
    ensures forall j :: 0 <= j < |r| ==> IsUsersRow(s, r[j])
  {
    var rows := UsersRows(s);
    SortKeyedGoodRows(s.dailyChatUsers.keys, rows, UsersRowDate, row => IsUsersRow(s, row));
    StableSort(rows, ByDate(UsersRowDate))
  }

  /** The users rows in the map's insertion order, before sorting. */
  function UsersRows(s: ChatState): (rows: seq<DailyChatUsersData>)
    requires s.Valid()
    ensures |rows| == |s.dailyChatUsers.keys|
    ensures forall i :: 0 <= i < |rows| ==> UsersRowDate(rows[i]) == s.dailyChatUsers.keys[i] && IsUsersRow(s, rows[i])
  {
    var keys := s.dailyChatUsers.keys;
    var rows := seq(|keys|, i requires 0 <= i < |keys| => UsersRow(keys[i], s.dailyChatUsers.values[keys[i]]));
    forall i | 0 <= i < |keys| ensures UsersRowDate(rows[i]) == keys[i] && IsUsersRow(s, rows[i]) {
      UsersRowIsRow(s, keys[i]);
    }
    rows
  }

  lemma UsersRowIsRow(s: ChatState, date: string)
    requires date in s.dailyChatUsers.values
    ensures IsUsersRow(s, UsersRow(date, s.dailyChatUsers.values[date]))
  {
  }

  lemma RequestsRowIsRow(s: ChatState, date: string)
    requires date in s.dailyChatRequests.values
    ensures IsRequestsRow(s, RequestsRow(date, s.dailyChatRequests.values[date]))
  {
  }

  /** `computeChatRequestsData`: one row per day, ascending by date, with the counters. */
  function ComputeChatRequestsData(s: ChatState): (r: seq<DailyChatRequestsData>)
    requires s.Valid()
    ensures |r| == |s.dailyChatRequests.keys|
    ensures forall i, j :: 0 <= i < j < |r| ==> StrLt(r[i].date, r[j].date)
    ensures forall d :: d in s.dailyChatRequests.values ==> exists j :: 0 <= j < |r| && r[j].date == d
    ensures forall j :: 0 <= j < |r| ==> IsRequestsRow(s, r[j])
  {
    var rows := RequestsRows(s);
    SortKeyedGoodRows(s.dailyChatRequests.keys, rows, RequestsRowDate, row => IsRequestsRow(s, row));
    StableSort(rows, ByDate(RequestsRowDate))
  }

  /** The requests rows in the map's insertion order, before sorting. */
  function RequestsRows(s: ChatState): (rows: seq<DailyChatRequestsData>)
    requires s.Valid()
    ensures |rows| == |s.dailyChatRequests.keys|
    ensures forall i :: 0 <= i < |rows| ==> RequestsRowDate(rows[i]) == s.dailyChatRequests.keys[i] && IsRequestsRow(s, rows[i])
  {
    var keys := s.dailyChatRequests.keys;
    var rows := seq(|keys|, i requires 0 <= i < |keys| => RequestsRow(keys[i], s.dailyChatRequests.values[keys[i]]));
    forall i | 0 <= i < |keys| ensures RequestsRowDate(rows[i]) == keys[i] && IsRequestsRow(s, rows[i]) {
      RequestsRowIsRow(s, keys[i]);
    }
    rows
  }

  // ---------------------------------------------------------------- over a stream of calls

  /** The arguments of one `accumulateChatFeature` call. */
  datatype ChatEvent = ChatEvent(date: string, userId: int, feature: string, count: int)

  function ChatOf(es: seq<ChatEvent>): (r: ChatState)
    ensures r.Valid()
  {
    if es == [] then EmptyChat()
    else
      var e := es[|es| - 1];
      AddChat(ChatOf(es[..|es| - 1]), e.date, e.userId, e.feature, e.count)
  }

  /** The positive counts fed for `feature`, summed. */
  function PositiveCounts(es: seq<ChatEvent>, feature: string): int
  {
    if es == [] then 0
    else
      var e := es[|es| - 1];
      PositiveCounts(es[..|es| - 1], feature) + (if e.feature == feature && e.count > 0 then e.count else 0)
  }

  /** A mode's requests summed over the listed days. */
  function SumRequests(keys: seq<string>, values: map<string, ModeRequests>, mode: ChatMode): int
    requires forall k :: k in keys ==> k in values
  {
    if keys == [] then 0
    else SumRequests(keys[..|keys| - 1], values, mode) + values[keys[|keys| - 1]].Of(mode)
  }

  /** Changing the entry of one listed day changes the sum by the difference. */
  lemma {:induction false} SumRequestsUpdate(keys: seq<string>, values: map<string, ModeRequests>, k: string, v: ModeRequests, mode: ChatMode)
    requires Distinct(keys) && k in keys
    requires forall x :: x in keys ==> x in values
    ensures SumRequests(keys, values[k := v], mode) == SumRequests(keys, values, mode) - values[k].Of(mode) + v.Of(mode)
  {
    var n := |keys| - 1;
    if keys[n] == k {
      assert k !in keys[..n];
      SumRequestsOther(keys[..n], values, k, v, mode);
    } else {
      assert k in keys[..n];
      SumRequestsUpdate(keys[..n], values, k, v, mode);
    }
  }

  /** Changing the entry of a day that is not listed leaves the sum alone. */
  lemma {:induction false} SumRequestsOther(keys: seq<string>, values: map<string, ModeRequests>, k: string, v: ModeRequests, mode: ChatMode)
    requires k !in keys
    requires forall x :: x in keys ==> x in values
    ensures SumRequests(keys, values[k := v], mode) == SumRequests(keys, values, mode)
  {
    if keys != [] {
      var n := |keys| - 1;
      assert keys[n] in keys;
      SumRequestsOther(keys[..n], values, k, v, mode);
    }
  }

  /** A mode's requests summed over all days of the state. */
  function TotalRequests(s: ChatState, mode: ChatMode): int
    requires s.Valid()
  {
    SumRequests(s.dailyChatRequests.keys, s.dailyChatRequests.values, mode)
  }

  /** Ensuring a day adds nothing to any mode's total. */
  lemma EnsureDateTotal(s: ChatState, date: string, mode: ChatMode)
    requires s.Valid()
    ensures TotalRequests(EnsureDate(s, date), mode) == TotalRequests(s, mode)
  {
    var t := EnsureDate(s, date);
    if !s.HasDay(date) {
      var keys := s.dailyChatRequests.keys;
      assert t.dailyChatRequests.keys[..|keys|] == keys;
      SumRequestsOther(keys, s.dailyChatRequests.values, date, NoRequests, mode);
    }
  }

  /** One call adds its count to the total of its mode, when positive, and nothing else. */
  lemma AddChatTotal(s: ChatState, e: ChatEvent, mode: ChatMode)
    requires s.Valid()
    ensures TotalRequests(AddChat(s, e.date, e.userId, e.feature, e.count), mode) ==
      TotalRequests(s, mode) + (if e.feature == ModeFeature(mode) && e.count > 0 then e.count else 0)
  {
    if e.count > 0 {
      var t := EnsureDate(s, e.date);
      EnsureDateTotal(s, e.date, mode);
      match ModeOf(e.feature)
      case None =>
      case Some(m) =>
        var q := t.dailyChatRequests;
        var v := q.values[e.date].Add(m, e.count);
        assert AddChat(s, e.date, e.userId, e.feature, e.count).dailyChatRequests == q.Put(e.date, v);
        SumRequestsUpdate(q.keys, q.values, e.date, v, mode);
    }
  }

  /** Summed over all days, each mode's requests are the positive counts fed for its feature id. */
  lemma {:induction false} ChatOfTotals(es: seq<ChatEvent>, mode: ChatMode)
    ensures TotalRequests(ChatOf(es), mode) == PositiveCounts(es, ModeFeature(mode))
  {
    if es != [] {
      var n := |es| - 1;
      ChatOfTotals(es[..n], mode);
      AddChatTotal(ChatOf(es[..n]), es[n], mode);
    }
  }
}
