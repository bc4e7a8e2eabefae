/** The session table of the model router (llmgateway/routing.go). Each call is one atomic step; the
    profile lookup is a parameter, since it reads configuration only. */
module Router {
  import opened Wrappers
  import opened Seqs

  /** RoutedModel; its other fields are carried by the provider and the mode text. */
  datatype RoutedModel = RoutedModel(provider: string, keyName: string, model: string, mode: string)

  datatype SessionEntry = SessionEntry(model: RoutedModel, lastUsed: int)

  datatype RouteError = ModelNotFound

  /** One call: the session, the time of the call, and what the profiles say about the model name.
      `rejected` stands for missing profiles or an empty model name. */
  datatype Call = Call(sessionID: string, now: int, rejected: bool, resolved: Option<RoutedModel>)

  /** The table and its recency list, oldest first. */
  datatype Table = Table(entries: map<string, SessionEntry>, order: seq<string>)

  datatype Limits = Limits(maxSessions: int, ttl: int)

  const EMPTY := Table(map[], [])

  // ---------------------------------------------------------------- one call

  /** The list without the first occurrence of `id`. */
  function Without(order: seq<string>, id: string): seq<string> {
    if order == [] then []
    else if order[0] == id then order[1..]
    else [order[0]] + Without(order[1..], id)
  }

  function Touched(t: Table, id: string, now: int): Table
    requires id in t.entries
  {
    Table(t.entries[id := t.entries[id].(lastUsed := now)], Without(t.order, id) + [id])
  }

  function Evicted(t: Table): Table {
    if t.order == [] then t else Table(t.entries - {t.order[0]}, t.order[1..])
  }

  predicate Expired(limits: Limits, entry: SessionEntry, now: int) {
    limits.ttl > 0 && now - entry.lastUsed > limits.ttl
  }

  predicate MustEvict(limits: Limits, t: Table, id: string) {
    id !in t.entries && limits.maxSessions > 0 && |t.entries| >= limits.maxSessions
  }

  /** The table after a call. */
  function Next(limits: Limits, t: Table, c: Call): Table {
    if c.rejected || c.sessionID == "" then t
    else if c.resolved.Some? then
      if c.sessionID in t.entries then Touched(t, c.sessionID, c.now)
      else
        var room := if MustEvict(limits, t, c.sessionID) then Evicted(t) else t;
        Table(room.entries[c.sessionID := SessionEntry(c.resolved.value, c.now)], room.order + [c.sessionID])
    else if c.sessionID in t.entries then
      if Expired(limits, t.entries[c.sessionID], c.now)
      then Table(t.entries - {c.sessionID}, Without(t.order, c.sessionID))
      else Touched(t, c.sessionID, c.now)
    else t
  }

  /** The answer to a call. */
  function Answer(limits: Limits, t: Table, c: Call): Result<RoutedModel, RouteError> {
    if c.rejected then Err(ModelNotFound)
    else if c.resolved.Some? then Ok(c.resolved.value)
    else if c.sessionID != "" && c.sessionID in t.entries && !Expired(limits, t.entries[c.sessionID], c.now)
    then Ok(t.entries[c.sessionID].model)
    else Err(ModelNotFound)
  }

  class ModelRouter {
    var sessionModels: map<string, SessionEntry>
    var accessOrder: seq<string>
    const limits: Limits

    function State(): Table
      reads this
    {
      Table(sessionModels, accessOrder)
    }

    constructor (limits: Limits)
      ensures State() == EMPTY && this.limits == limits
    {
      this.limits := limits;
      sessionModels, accessOrder := map[], [];
    }

    method RemoveFromAccessOrder(sessionID: string)
      modifies this`accessOrder
      ensures accessOrder == Without(old(accessOrder), sessionID)
    {
      for i := 0 to |accessOrder|
        invariant accessOrder == old(accessOrder)
        invariant forall k :: 0 <= k < i ==> accessOrder[k] != sessionID
      {
        if accessOrder[i] == sessionID {
          WithoutAt(accessOrder, sessionID, i);
          accessOrder := accessOrder[..i] + accessOrder[i + 1..];
          return;
        }
      }
      WithoutAbsent(accessOrder, sessionID);
    }

    method TouchAccessOrder(sessionID: string)
      modifies this`accessOrder
      ensures accessOrder == Without(old(accessOrder), sessionID) + [sessionID]
    {
      RemoveFromAccessOrder(sessionID);
      accessOrder := accessOrder + [sessionID];
    }

    method EvictOldest()
      modifies this
      ensures State() == Evicted(old(State()))
    {
      if |accessOrder| == 0 {
        return;
      }
      var oldest := accessOrder[0];
      accessOrder := accessOrder[1..];
      sessionModels := sessionModels - {oldest};
    }

    method ResolveModel(c: Call) returns (r: Result<RoutedModel, RouteError>)
      modifies this
      ensures State() == Next(limits, old(State()), c)
      ensures r == Answer(limits, old(State()), c)
    {
      if c.rejected {
        return Err(ModelNotFound);
      }
      if c.resolved.Some? {
        if c.sessionID != "" {
          if c.sessionID !in sessionModels {
            if limits.maxSessions > 0 && |sessionModels| >= limits.maxSessions {
              EvictOldest();
            }
            sessionModels := sessionModels[c.sessionID := SessionEntry(c.resolved.value, c.now)];
            accessOrder := accessOrder + [c.sessionID];
          } else {
            sessionModels := sessionModels[c.sessionID := sessionModels[c.sessionID].(lastUsed := c.now)];
            TouchAccessOrder(c.sessionID);
          }
        }
        return Ok(c.resolved.value);
      }
      if c.sessionID != "" && c.sessionID in sessionModels {
        var entry := sessionModels[c.sessionID];
        if limits.ttl > 0 && c.now - entry.lastUsed > limits.ttl {
          sessionModels := sessionModels - {c.sessionID};
          RemoveFromAccessOrder(c.sessionID);
        } else {
          sessionModels := sessionModels[c.sessionID := entry.(lastUsed := c.now)];
          TouchAccessOrder(c.sessionID);
          return Ok(entry.model);
        }
      }
      return Err(ModelNotFound);
    }
  }

  lemma {:induction false} WithoutAt(order: seq<string>, id: string, i: nat)
    requires i < |order| && order[i] == id && forall k :: 0 <= k < i ==> order[k] != id
    ensures Without(order, id) == order[..i] + order[i + 1..]
  {
    if i > 0 {
      WithoutAt(order[1..], id, i - 1);
      assert order[..i] == [order[0]] + order[1..][..i - 1];
    }
  }

  lemma {:induction false} WithoutAbsent(order: seq<string>, id: string)
    requires id !in order
    ensures Without(order, id) == order
  {
    if order != [] {
      WithoutAbsent(order[1..], id);
    }
  }

  // ---------------------------------------------------------------- what every call keeps

  predicate NoDuplicates(order: seq<string>) {
    forall i, j :: 0 <= i < j < |order| ==> order[i] != order[j]
  }

  ghost predicate Lists(order: seq<string>, entries: map<string, SessionEntry>) {
    forall id :: id in order <==> id in entries
  }

  ghost predicate SortedByUse(order: seq<string>, entries: map<string, SessionEntry>) {
    forall i, j :: 0 <= i < j < |order| && order[i] in entries && order[j] in entries ==>
      entries[order[i]].lastUsed <= entries[order[j]].lastUsed
  }

  /** The list holds the table's sessions, each once, from least to most recently used, none of them
      used after `now`; a positive limit bounds the table. */
  ghost predicate Valid(limits: Limits, t: Table, now: int) {
    && NoDuplicates(t.order)
    && Lists(t.order, t.entries)
    && SortedByUse(t.order, t.entries)
    && (forall id :: id in t.entries ==> t.entries[id].lastUsed <= now)
    && (limits.maxSessions > 0 ==> |t.entries| <= limits.maxSessions)
  }

  lemma {:induction false} CutOut(order: seq<string>, p: nat)
    requires NoDuplicates(order) && p < |order|
    ensures var w := order[..p] + order[p + 1..];
            NoDuplicates(w) && forall x :: x in w <==> x in order && x != order[p]
  {
    var w := order[..p] + order[p + 1..];
    forall x
      ensures x in w <==> x in order && x != order[p]
    {
      if x in order && x != order[p] {
        var k :| 0 <= k < |order| && order[k] == x;
        assert k < p ==> w[k] == x;
        assert k > p ==> w[k - 1] == x;
      }
    }
  }

  /** Taking a session out of the list keeps the others and their order. */
  lemma {:induction false} WithoutKeeps(order: seq<string>, id: string) returns (p: nat)
    requires NoDuplicates(order) && id in order
    ensures p < |order| && order[p] == id
    ensures Without(order, id) == order[..p] + order[p + 1..]
    ensures NoDuplicates(Without(order, id))
    ensures forall x :: x in Without(order, id) <==> x in order && x != id
  {
    p :| 0 <= p < |order| && order[p] == id;
    WithoutAt(order, id, p);
    CutOut(order, p);
  }

  lemma {:induction false} SizeOfList(t: Table)
    requires NoDuplicates(t.order) && Lists(t.order, t.entries)
    ensures |t.order| == |t.entries|
  {
    ListSize(t.order);
    assert (set id | id in t.order) == t.entries.Keys;
  }

  lemma {:induction false} ListSize(order: seq<string>)
    requires NoDuplicates(order)
    ensures |set id | id in order| == |order|
  {
    if order != [] {
      var front, last := order[..|order| - 1], order[|order| - 1];
      ListSize(front);
      assert (set id | id in order) == (set id | id in front) + {last};
    }
  }

  lemma {:induction false} SortedWithout(order: seq<string>, entries: map<string, SessionEntry>, id: string, p: nat)
    requires SortedByUse(order, entries) && p < |order|
    ensures SortedByUse(order[..p] + order[p + 1..], entries - {id})
  {
    var w, rest := order[..p] + order[p + 1..], entries - {id};
    forall i, j | 0 <= i < j < |w| && w[i] in rest && w[j] in rest
      ensures rest[w[i]].lastUsed <= rest[w[j]].lastUsed
    {
      var a, b := if i < p then i else i + 1, if j < p then j else j + 1;
      assert w[i] == order[a] && w[j] == order[b];
    }
  }

  lemma {:induction false} SortedWith(order: seq<string>, entries: map<string, SessionEntry>, id: string,
                                      e: SessionEntry)
    requires SortedByUse(order, entries) && id !in order
    requires forall x :: x in entries ==> entries[x].lastUsed <= e.lastUsed
    ensures SortedByUse(order + [id], entries[id := e])
  {
    var w, more := order + [id], entries[id := e];
    forall i, j | 0 <= i < j < |w| && w[i] in more && w[j] in more
      ensures more[w[i]].lastUsed <= more[w[j]].lastUsed
    {
      assert w[i] == order[i] && order[i] != id;
      if j < |order| {
        assert w[j] == order[j] && order[j] != id;
      }
    }
  }

  lemma {:induction false} RemoveKeepsValid(limits: Limits, t: Table, id: string, now: int)
    requires Valid(limits, t, now) && id in t.entries
    ensures Valid(limits, Table(t.entries - {id}, Without(t.order, id)), now)
    ensures |t.entries - {id}| == |t.entries| - 1
  {
    var p := WithoutKeeps(t.order, id);
    var u := Table(t.entries - {id}, Without(t.order, id));
    assert u.entries.Keys == t.entries.Keys - {id};
    assert |u.entries| == |u.entries.Keys| && |t.entries| == |t.entries.Keys|;
    SortedWithout(t.order, t.entries, id, p);
  }

  lemma {:induction false} InsertKeepsValid(limits: Limits, t: Table, id: string, model: RoutedModel, before: int,
                                            now: int)
    requires Valid(limits, t, before) && before <= now && id !in t.entries
    requires limits.maxSessions > 0 ==> |t.entries| < limits.maxSessions
    ensures Valid(limits, Table(t.entries[id := SessionEntry(model, now)], t.order + [id]), now)
  {
    var u := Table(t.entries[id := SessionEntry(model, now)], t.order + [id]);
    assert u.entries.Keys == t.entries.Keys + {id};
    assert |u.entries| == |u.entries.Keys| && |t.entries| == |t.entries.Keys|;
    SortedWith(t.order, t.entries, id, SessionEntry(model, now));
  }

  /** Touching is taking out and putting back at the end. */
  lemma {:induction false} TouchKeepsValid(limits: Limits, t: Table, id: string, before: int, now: int)
    requires Valid(limits, t, before) && before <= now && id in t.entries
    ensures Valid(limits, Touched(t, id, now), now)
  {
    TouchIsReinsert(t, id, now);
    RemoveKeepsValid(limits, t, id, before);
    InsertKeepsValid(limits, Table(t.entries - {id}, Without(t.order, id)), id, t.entries[id].model, before, now);
  }

  lemma {:induction false} TouchIsReinsert(t: Table, id: string, now: int)
    requires id in t.entries
    ensures Touched(t, id, now)
         == Table((t.entries - {id})[id := SessionEntry(t.entries[id].model, now)], Without(t.order, id) + [id])
  {
  }

  /** Eviction takes out a session that no other was used before. */
  lemma {:induction false} EvictionTakesLeastRecent(limits: Limits, t: Table, now: int)
    requires Valid(limits, t, now) && t.entries != map[]
    ensures t.order != []
    ensures Evicted(t).entries == t.entries - {t.order[0]} && |Evicted(t).entries| == |t.entries| - 1
    ensures Valid(limits, Evicted(t), now)
    ensures forall id :: id in t.entries ==> t.entries[t.order[0]].lastUsed <= t.entries[id].lastUsed
  {
    SizeOfList(t);
    assert t.order[0] in t.order;
    RemoveKeepsValid(limits, t, t.order[0], now);
    forall id | id in t.entries
      ensures t.entries[t.order[0]].lastUsed <= t.entries[id].lastUsed
    {
      var k :| 0 <= k < |t.order| && t.order[k] == id;
    }
  }

  lemma {:induction false} CallKeepsValid(limits: Limits, t: Table, before: int, c: Call)
    requires Valid(limits, t, before) && before <= c.now
    ensures Valid(limits, Next(limits, t, c), c.now)
  {
    if !c.rejected && c.sessionID != "" {
      if c.sessionID in t.entries {
        if c.resolved.Some? || !Expired(limits, t.entries[c.sessionID], c.now) {
          TouchKeepsValid(limits, t, c.sessionID, before, c.now);
        } else {
          RemoveKeepsValid(limits, t, c.sessionID, before);
        }
      } else if c.resolved.Some? {
        if MustEvict(limits, t, c.sessionID) {
          EvictionTakesLeastRecent(limits, t, before);
          InsertKeepsValid(limits, Evicted(t), c.sessionID, c.resolved.value, before, c.now);
        } else {
          InsertKeepsValid(limits, t, c.sessionID, c.resolved.value, before, c.now);
        }
      }
    }
  }

  // ---------------------------------------------------------------- histories

  predicate TimesAscend(history: seq<Call>) {
    forall i, j :: 0 <= i < j < |history| ==> history[i].now <= history[j].now
  }

  /** The table after a history of calls. */
  function After(limits: Limits, history: seq<Call>): Table {
    if history == [] then EMPTY
    else Next(limits, After(limits, history[..|history| - 1]), history[|history| - 1])
  }

  /** Over every run the list and the table agree. */
  lemma {:induction false} HistoryValid(limits: Limits, history: seq<Call>)
    requires TimesAscend(history) && history != []
    ensures Valid(limits, After(limits, history), history[|history| - 1].now)
  {
    var front, last := history[..|history| - 1], history[|history| - 1];
    if front != [] {
      HistoryValid(limits, front);
      CallKeepsValid(limits, After(limits, front), front[|front| - 1].now, last);
    } else {
      assert Valid(limits, EMPTY, last.now);
      CallKeepsValid(limits, EMPTY, last.now, last);
    }
  }

  /** Call `e` put the session into the table, where it has been ever since, with the model it was
      resolved to by that call. */
  predicate EnteredAt(limits: Limits, history: seq<Call>, id: string, e: nat) {
    && e < |history|
    && id !in After(limits, history[..e]).entries
    && history[e].sessionID == id && !history[e].rejected && history[e].resolved.Some?
    && forall n :: e < n <= |history| ==>
         && id in After(limits, history[..n]).entries
         && After(limits, history[..n]).entries[id].model == history[e].resolved.value
  }

  /** Sticky sessions: every session in the table has one entry call, and keeps the model of it. */
  lemma {:induction false} StickyModel(limits: Limits, history: seq<Call>, id: string)
    returns (e: nat)
    requires id in After(limits, history).entries
    ensures EnteredAt(limits, history, id, e)
  {
    var front, last := history[..|history| - 1], history[|history| - 1];
    var t := After(limits, front);
    if id in t.entries {
      e := StickyModel(limits, front, id);
      assert id in Next(limits, t, last).entries && Next(limits, t, last).entries[id].model == t.entries[id].model;
      forall n | e < n <= |history|
        ensures id in After(limits, history[..n]).entries
        ensures After(limits, history[..n]).entries[id].model == history[e].resolved.value
      {
        if n <= |front| {
          assert history[..n] == front[..n];
        } else {
          assert history[..n] == history && front[..|front|] == front;
        }
      }
      assert history[..e] == front[..e];
    } else {
      e := |front|;
      assert history[..e] == front;
      Whole(history);
    }
  }

  /** A call for an unknown model in a live session is answered with the model first resolved for that
      session since it last entered the table. */
  lemma {:induction false} FallbackIsFirstResolved(limits: Limits, history: seq<Call>, c: Call)
    returns (e: nat)
    requires !c.rejected && c.resolved == None
    requires Answer(limits, After(limits, history), c).Ok?
    ensures EnteredAt(limits, history, c.sessionID, e)
    ensures Answer(limits, After(limits, history), c) == Ok(history[e].resolved.value)
  {
    e := StickyModel(limits, history, c.sessionID);
    Whole(history);
  }

  // ---------------------------------------------------------------- answers, from the history

  /** The time of the last call that named the session and was not rejected. */
  function LastUse(history: seq<Call>, id: string): Option<int> {
    if history == [] then None
    else
      var last := history[|history| - 1];
      if !last.rejected && last.sessionID == id then Some(last.now) else LastUse(history[..|history| - 1], id)
  }

  /** A session in the table has a name, and was last used by the last call that named it. */
  lemma {:induction false} LastUsedIs(limits: Limits, history: seq<Call>, id: string)
    requires id in After(limits, history).entries
    ensures id != "" && LastUse(history, id) == Some(After(limits, history).entries[id].lastUsed)
  {
    var front, last := history[..|history| - 1], history[|history| - 1];
    if id in After(limits, front).entries {
      LastUsedIs(limits, front, id);
    }
  }

  /** How every call is answered, over every history: a rejected one with an error; one whose model resolves
      with that model, whatever the table holds; and any other if and only if its session is in the
      table and no more than a positive time to live has passed since the last call that named it. */
  lemma {:induction false} AnsweredExactly(limits: Limits, history: seq<Call>, c: Call)
    ensures var answer := Answer(limits, After(limits, history), c);
            && (c.rejected ==> answer == Err(ModelNotFound))
            && (!c.rejected && c.resolved.Some? ==> answer == Ok(c.resolved.value))
            && (!c.rejected && c.resolved == None ==>
                  && (answer.Ok? <==>
                        && c.sessionID in After(limits, history).entries
                        && LastUse(history, c.sessionID).Some?
                        && (limits.ttl <= 0 || c.now - LastUse(history, c.sessionID).value <= limits.ttl))
                  && (answer.Err? ==> answer == Err(ModelNotFound)))
  {
    if c.sessionID in After(limits, history).entries {
      LastUsedIs(limits, history, c.sessionID);
    }
  }

  /** When a session leaves the table: exactly by a call of its own that does not resolve and comes after a
      positive time to live, or as the first of the list when another session that resolves finds the
      table at a positive limit. */
  lemma {:induction false} LeavesExactly(limits: Limits, history: seq<Call>, c: Call, id: string)
    requires TimesAscend(history + [c]) && id in After(limits, history).entries
    ensures LastUse(history, id).Some?
    ensures var t := After(limits, history);
            id !in After(limits, history + [c]).entries <==>
              && !c.rejected
              && (|| (c.sessionID == id && c.resolved == None && limits.ttl > 0
                      && c.now - LastUse(history, id).value > limits.ttl)
                  || (c.sessionID != "" && c.sessionID !in t.entries && c.resolved.Some?
                      && 0 < limits.maxSessions <= |t.entries| && t.order != [] && t.order[0] == id))
  {
    Front(history, c);
    LastUsedIs(limits, history, id);
    if history != [] {
      assert TimesAscend(history) by {
        assert forall i :: 0 <= i < |history| ==> (history + [c])[i] == history[i];
      }
      HistoryValid(limits, history);
      SizeOfList(After(limits, history));
    }
  }
}
