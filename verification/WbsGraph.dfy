/** Dependency graphs of a plan: missing ids, cycles, and what a run's trace says about them. */
module WbsGraph {
  import opened WbsTree

  /** What the orchestrator emits. */
  datatype Event =
    | NodeStart(id: string)
    | NodeComplete(id: string)
    | NodeFailed(id: string)
    | NodeSuspended(id: string)
    | Progress(completed: nat, total: nat)

  predicate DependsOn(flat: seq<Info>, a: string, b: string) {
    exists k :: 0 <= k < |flat| && flat[k].id == a && b in flat[k].dependencies
  }

  /** Each id depends on the next. */
  predicate IsPath(flat: seq<Info>, path: seq<string>) {
    forall i :: 0 <= i < |path| - 1 ==> DependsOn(flat, path[i], path[i + 1])
  }

  predicate IsCycle(flat: seq<Info>, c: seq<string>) {
    2 <= |c| && c[0] == c[|c| - 1] && IsPath(flat, c)
  }

  ghost predicate HasCycle(flat: seq<Info>) {
    exists c :: IsCycle(flat, c)
  }

  predicate HasMissing(flat: seq<Info>) {
    exists k, d :: 0 <= k < |flat| && 0 <= d < |flat[k].dependencies| && !HasId(flat, flat[k].dependencies[d])
  }

  /** The same nodes, whatever their statuses and results. */
  predicate SamePlan(a: seq<Info>, b: seq<Info>) {
    && |a| == |b|
    && forall k :: 0 <= k < |a| ==> a[k].id == b[k].id && a[k].dependencies == b[k].dependencies
  }

  predicate AllPending(flat: seq<Info>) {
    forall k :: 0 <= k < |flat| ==> flat[k].status == Pending
  }

  // ---------------------------------------------------------------- traces

  /** Node `id` was completed at the start, or completes within the first `n` events. */
  predicate CompletedBy(flat: seq<Info>, events: seq<Event>, n: nat, id: string)
    requires n <= |events|
  {
    || (exists k :: 0 <= k < |flat| && flat[k].id == id && flat[k].status == Completed)
    || NodeComplete(id) in events[..n]
  }

  /** Event `i` of a trace is in order: a node starts at most once, from pending, and only after all
      its dependencies have completed; it completes, fails or suspends right after it started. */
  predicate InOrder(flat: seq<Info>, events: seq<Event>, i: nat)
    requires i < |events|
  {
    match events[i]
    case NodeStart(id) =>
      && NodeStart(id) !in events[..i]
      && exists k :: 0 <= k < |flat| && flat[k].id == id && flat[k].status == Pending
                     && forall d :: d in flat[k].dependencies ==> CompletedBy(flat, events, i, d)
    case NodeComplete(id) => 0 < i && events[i - 1] == NodeStart(id)
    case NodeFailed(id) => 0 < i && events[i - 1] == NodeStart(id)
    case NodeSuspended(id) => 0 < i && events[i - 1] == NodeStart(id)
    case Progress(_, _) => true
  }

  predicate SafeTrace(flat: seq<Info>, events: seq<Event>) {
    forall i :: 0 <= i < |events| ==> InOrder(flat, events, i)
  }

  lemma {:induction false} SafeTraceSnoc(flat: seq<Info>, events: seq<Event>, e: Event)
    requires SafeTrace(flat, events)
    requires InOrder(flat, events + [e], |events|)
    ensures SafeTrace(flat, events + [e])
  {
    forall i | 0 <= i < |events + [e]|
      ensures InOrder(flat, events + [e], i)
    {
      if i < |events| {
        assert InOrder(flat, events, i);
        assert (events + [e])[..i] == events[..i];
      }
    }
  }

  // ---------------------------------------------------------------- completed runs have no cycle

  function FirstComplete(events: seq<Event>, id: string): (i: nat)
    requires NodeComplete(id) in events
    ensures i < |events| && events[i] == NodeComplete(id) && NodeComplete(id) !in events[..i]
  {
    if events[0] == NodeComplete(id) then 0
    else
      assert events == [events[0]] + events[1..];
      assert forall i :: 0 <= i < |events[1..]| ==> events[..i + 1] == [events[0]] + events[1..][..i];
      1 + FirstComplete(events[1..], id)
  }

  /** In a safe trace of a fresh plan a dependency completes before its dependent. */
  lemma {:induction false} DependencyFirst(flat: seq<Info>, events: seq<Event>, a: string, b: string)
    requires UniqueIds(flat) && AllPending(flat) && SafeTrace(flat, events)
    requires NodeComplete(a) in events && DependsOn(flat, a, b)
    ensures NodeComplete(b) in events && FirstComplete(events, b) < FirstComplete(events, a)
  {
    var i := FirstComplete(events, a);
    assert InOrder(flat, events, i);
    var j := i - 1;
    assert InOrder(flat, events, j);
    var k :| 0 <= k < |flat| && flat[k].id == a && flat[k].status == Pending
             && forall d :: d in flat[k].dependencies ==> CompletedBy(flat, events, j, d);
    var k' :| 0 <= k' < |flat| && flat[k'].id == a && b in flat[k'].dependencies;
    assert k == k';
    assert CompletedBy(flat, events, j, b);
    var m :| 0 <= m < j && events[m] == NodeComplete(b);
  }

  lemma {:induction false} CompletedIsNode(flat: seq<Info>, events: seq<Event>, id: string)
    requires SafeTrace(flat, events) && NodeComplete(id) in events
    ensures HasId(flat, id)
  {
    assert InOrder(flat, events, FirstComplete(events, id));
    assert InOrder(flat, events, FirstComplete(events, id) - 1);
  }

  lemma {:induction false} PathCompletesBackwards(flat: seq<Info>, events: seq<Event>, path: seq<string>)
    requires UniqueIds(flat) && AllPending(flat) && SafeTrace(flat, events)
    requires 2 <= |path| && IsPath(flat, path) && NodeComplete(path[0]) in events
    ensures NodeComplete(path[|path| - 1]) in events
    ensures FirstComplete(events, path[|path| - 1]) < FirstComplete(events, path[0])
  {
    DependencyFirst(flat, events, path[0], path[1]);
    if 2 < |path| {
      var rest := path[1..];
      forall i | 0 <= i < |rest| - 1
        ensures DependsOn(flat, rest[i], rest[i + 1])
      {
        assert DependsOn(flat, path[i + 1], path[i + 2]);
      }
      PathCompletesBackwards(flat, events, rest);
    }
  }

  lemma {:induction false} CompletedRunIsAcyclic(flat: seq<Info>, events: seq<Event>)
    requires UniqueIds(flat) && AllPending(flat) && SafeTrace(flat, events)
    requires forall k :: 0 <= k < |flat| ==> NodeComplete(flat[k].id) in events
    ensures !HasCycle(flat) && !HasMissing(flat)
  {
    if HasCycle(flat) {
      var c :| IsCycle(flat, c);
      assert DependsOn(flat, c[0], c[1]);
      var k :| 0 <= k < |flat| && flat[k].id == c[0] && c[1] in flat[k].dependencies;
      PathCompletesBackwards(flat, events, c);
    }
    if HasMissing(flat) {
      var k, d :| 0 <= k < |flat| && 0 <= d < |flat[k].dependencies| && !HasId(flat, flat[k].dependencies[d]);
      var a, b := flat[k].id, flat[k].dependencies[d];
      DependencyFirst(flat, events, a, b);
      CompletedIsNode(flat, events, b);
    }
  }

  // ---------------------------------------------------------------- deadlocks have a cause

  predicate PendingId(flat: seq<Info>, id: string) {
    exists k :: 0 <= k < |flat| && flat[k].id == id && flat[k].status == Pending
  }

  /** In a deadlock every pending node waits for another pending node. */
  lemma {:induction false} BlockedByPending(flat: seq<Info>, a: string)
    returns (b: string)
    requires UniqueIds(flat) && NextExecutable(flat) == [] && !HasMissing(flat)
    requires forall k :: 0 <= k < |flat| ==> flat[k].status in {Pending, Completed}
    requires PendingId(flat, a)
    ensures DependsOn(flat, a, b) && PendingId(flat, b)
  {
    var k :| 0 <= k < |flat| && flat[k].id == a && flat[k].status == Pending;
    ExecutableMembers(flat, |flat|);
    assert flat[k] !in NextExecutable(flat);
    assert !DepsCompleted(StatusMap(flat), flat[k].dependencies);
    var d :| 0 <= d < |flat[k].dependencies|
             && !(flat[k].dependencies[d] in StatusMap(flat) && StatusMap(flat)[flat[k].dependencies[d]] == Completed);
    b := flat[k].dependencies[d];
    StatusMapLookup(flat, b);
    assert HasId(flat, b);
    var m :| 0 <= m < |flat| && flat[m].id == b;
  }

  /** A path of pending nodes as long as one likes. */
  lemma {:induction false} PendingPath(flat: seq<Info>, a: string, n: nat)
    returns (path: seq<string>)
    requires UniqueIds(flat) && NextExecutable(flat) == [] && !HasMissing(flat)
    requires forall k :: 0 <= k < |flat| ==> flat[k].status in {Pending, Completed}
    requires PendingId(flat, a)
    ensures |path| == n + 1 && IsPath(flat, path)
    ensures forall i :: 0 <= i < |path| ==> PendingId(flat, path[i])
  {
    if n == 0 {
      path := [a];
    } else {
      var front := PendingPath(flat, a, n - 1);
      var b := BlockedByPending(flat, front[n - 1]);
      path := front + [b];
    }
  }

  function Ids(flat: seq<Info>): (ids: set<string>)
    ensures |ids| <= |flat|
    ensures forall id :: id in ids <==> HasId(flat, id)
  {
    if flat == [] then {}
    else
      var rest := flat[1..];
      assert forall id :: HasId(flat, id) <==> flat[0].id == id || HasId(rest, id) by {
        forall id ensures HasId(flat, id) <==> flat[0].id == id || HasId(rest, id) {
          if HasId(flat, id) {
            var k :| 0 <= k < |flat| && flat[k].id == id;
            assert k == 0 || rest[k - 1].id == id;
          }
          if HasId(rest, id) {
            var k :| 0 <= k < |rest| && rest[k].id == id;
            assert flat[k + 1].id == id;
          }
        }
      }
      {flat[0].id} + Ids(rest)
  }

  /** A list longer than the set it draws from repeats an element. */
  lemma {:induction false} Pigeonhole(s: seq<string>, pool: set<string>)
    returns (i: nat, j: nat)
    requires |s| > |pool| && forall k :: 0 <= k < |s| ==> s[k] in pool
    ensures i < j < |s| && s[i] == s[j]
    decreases |s|
  {
    var last, front := s[|s| - 1], s[..|s| - 1];
    if last in front {
      i :| 0 <= i < |front| && front[i] == last;
      j := |s| - 1;
    } else {
      i, j := Pigeonhole(front, pool - {last});
    }
  }

  lemma {:induction false} PendingIdsAreIds(flat: seq<Info>, path: seq<string>)
    requires forall i :: 0 <= i < |path| ==> PendingId(flat, path[i])
    ensures forall i :: 0 <= i < |path| ==> path[i] in Ids(flat)
  {
    forall i | 0 <= i < |path|
      ensures path[i] in Ids(flat)
    {
      assert PendingId(flat, path[i]);
    }
  }

  lemma {:induction false} SubPath(flat: seq<Info>, path: seq<string>, i: nat, j: nat)
    requires IsPath(flat, path) && i < j < |path|
    ensures IsPath(flat, path[i..j + 1])
  {
    var c := path[i..j + 1];
    forall m | 0 <= m < |c| - 1
      ensures DependsOn(flat, c[m], c[m + 1])
    {
      assert DependsOn(flat, path[i + m], path[i + m + 1]);
    }
  }

  lemma {:induction false} PathCloses(flat: seq<Info>, path: seq<string>, i: nat, j: nat)
    requires IsPath(flat, path) && i < j < |path| && path[i] == path[j]
    ensures HasCycle(flat)
  {
    SubPath(flat, path, i, j);
    assert IsCycle(flat, path[i..j + 1]);
  }

  lemma {:induction false} DeadlockHasCause(flat: seq<Info>)
    requires UniqueIds(flat) && Deadlocked(flat)
    requires forall k :: 0 <= k < |flat| ==> flat[k].status in {Pending, Completed}
    ensures HasMissing(flat) || HasCycle(flat)
  {
    if !HasMissing(flat) {
      var k :| 0 <= k < |flat| && flat[k].status == Pending;
      var path := PendingPath(flat, flat[k].id, |flat|);
      PendingIdsAreIds(flat, path);
      var i, j := Pigeonhole(path, Ids(flat));
      PathCloses(flat, path, i, j);
    }
  }

  // ---------------------------------------------------------------- causes do not depend on statuses

  lemma {:induction false} SamePlanSameGraph(a: seq<Info>, b: seq<Info>)
    requires SamePlan(a, b)
    ensures UniqueIds(a) <==> UniqueIds(b)
    ensures HasMissing(b) ==> HasMissing(a)
    ensures HasCycle(b) ==> HasCycle(a)
  {
    assert forall id :: HasId(b, id) <==> HasId(a, id) by {
      assert forall k :: 0 <= k < |a| ==> a[k].id == b[k].id;
    }
    if HasMissing(b) {
      var k, d :| 0 <= k < |b| && 0 <= d < |b[k].dependencies| && !HasId(b, b[k].dependencies[d]);
      assert 0 <= d < |a[k].dependencies| && !HasId(a, a[k].dependencies[d]);
    }
    if HasCycle(b) {
      var c :| IsCycle(b, c);
      forall i | 0 <= i < |c| - 1
        ensures DependsOn(a, c[i], c[i + 1])
      {
        assert DependsOn(b, c[i], c[i + 1]);
        var k :| 0 <= k < |b| && b[k].id == c[i] && c[i + 1] in b[k].dependencies;
        assert a[k].id == c[i];
      }
      assert IsCycle(a, c);
    }
  }
}
