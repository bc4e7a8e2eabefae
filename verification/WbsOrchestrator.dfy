/** The execution loop over a plan (wayfinder/planning/wbs_orchestrator.go). */
module WbsOrchestrator {
  import opened Wrappers
  import opened Seqs
  import opened WbsTree
  import opened WbsGraph

  /** What the injected executor returns for a node. */
  datatype Outcome = Done(result: string) | Suspends(partialResult: string) | Fails(message: string)

  datatype ExecuteResult =
    | Finished
    | FailedNodes
    | DeadlockError
    | NoExecutableNodes
    | CancelledError
    | SuspendedError

  /** The status of a node after the events, given its status before them. */
  function StatusAfter(i: Info, events: seq<Event>): Status {
    if events == [] then i.status
    else
      match events[|events| - 1]
      case NodeStart(id) => if id == i.id then Running else StatusAfter(i, events[..|events| - 1])
      case NodeComplete(id) => if id == i.id then Completed else StatusAfter(i, events[..|events| - 1])
      case NodeFailed(id) => if id == i.id then Failed else StatusAfter(i, events[..|events| - 1])
      case NodeSuspended(id) => if id == i.id then Suspended else StatusAfter(i, events[..|events| - 1])
      case Progress(_, _) => StatusAfter(i, events[..|events| - 1])
  }

  /** The tree shows what the emitted events say. */
  ghost predicate Tracks(before: seq<Info>, events: seq<Event>, flat: seq<Info>) {
    && SamePlan(before, flat)
    && forall k :: 0 <= k < |flat| ==> flat[k].status == StatusAfter(before[k], events)
  }

  function StatusOf(e: Event): Option<(string, Status)> {
    match e
    case NodeStart(id) => Some((id, Running))
    case NodeComplete(id) => Some((id, Completed))
    case NodeFailed(id) => Some((id, Failed))
    case NodeSuspended(id) => Some((id, Suspended))
    case Progress(_, _) => None
  }

  /** Updating the tree and emitting the matching event stay in step. */
  lemma {:induction false} TracksUpdate(before: seq<Info>, events: seq<Event>, flat: seq<Info>, e: Event,
                                        result: string)
    requires Tracks(before, events, flat) && StatusOf(e).Some?
    ensures Tracks(before, events + [e], Updated(flat, StatusOf(e).value.0, StatusOf(e).value.1, result))
  {
    Front(events, e);
  }

  lemma {:induction false} TracksProgress(before: seq<Info>, events: seq<Event>, flat: seq<Info>, completed: nat,
                                          total: nat)
    requires Tracks(before, events, flat)
    ensures Tracks(before, events + [Progress(completed, total)], flat)
  {
    Front(events, Progress(completed, total));
  }

  lemma {:induction false} StatusSaysEvents(i: Info, events: seq<Event>)
    ensures StatusAfter(i, events) == Pending ==> i.status == Pending && NodeStart(i.id) !in events
    ensures StatusAfter(i, events) == Completed ==> i.status == Completed || NodeComplete(i.id) in events
  {
    if events != [] {
      StatusSaysEvents(i, events[..|events| - 1]);
      FrontAndLast(events);
    }
  }

  /** Completed nodes stay completed: no later event of a safe trace touches them. */
  lemma {:induction false} CompletedStaysCompleted(before: seq<Info>, events: seq<Event>, k: nat, m: nat, n: nat)
    requires UniqueIds(before) && SafeTrace(before, events)
    requires k < |before| && m <= n <= |events|
    requires StatusAfter(before[k], events[..m]) == Completed
    ensures StatusAfter(before[k], events[..n]) == Completed
    decreases n - m
  {
    if m < n {
      var id, last := before[k].id, n - 1;
      CompletedStaysCompleted(before, events, k, m, last);
      assert events[..n][..last] == events[..last];
      assert InOrder(before, events, last);
      StatusSaysEvents(before[k], events[..last]);
      if NodeComplete(id) in events[..last] {
        var c :| 0 <= c < last && events[c] == NodeComplete(id);
        assert InOrder(before, events, c);
        assert events[c - 1] in events[..last];
      }
    }
  }

  // ---------------------------------------------------------------- safety

  /** The node may start now: it never has, and its dependencies are completed. */
  predicate Ready(before: seq<Info>, events: seq<Event>, id: string) {
    && NodeStart(id) !in events
    && exists k :: 0 <= k < |before| && before[k].id == id && before[k].status == Pending
                   && forall d :: d in before[k].dependencies ==> CompletedBy(before, events, |events|, d)
  }

  lemma {:induction false} ReadyKept(before: seq<Info>, events: seq<Event>, e: Event, id: string)
    requires Ready(before, events, id) && e != NodeStart(id)
    ensures Ready(before, events + [e], id)
  {
    var k :| 0 <= k < |before| && before[k].id == id && before[k].status == Pending
             && forall d :: d in before[k].dependencies ==> CompletedBy(before, events, |events|, d);
    forall d | d in before[k].dependencies
      ensures CompletedBy(before, events + [e], |events + [e]|, d)
    {
      assert CompletedBy(before, events, |events|, d);
      Whole(events);
      assert (events + [e])[..|events + [e]|] == events + [e];
    }
  }

  lemma {:induction false} ReadyStarts(before: seq<Info>, events: seq<Event>, id: string)
    requires Ready(before, events, id) && SafeTrace(before, events)
    ensures SafeTrace(before, events + [NodeStart(id)])
  {
    var longer := events + [NodeStart(id)];
    assert longer[..|events|] == events && events[..|events|] == events;
    var k :| 0 <= k < |before| && before[k].id == id && before[k].status == Pending
             && forall d :: d in before[k].dependencies ==> CompletedBy(before, events, |events|, d);
    forall d | d in before[k].dependencies
      ensures CompletedBy(before, longer, |events|, d)
    {
      assert CompletedBy(before, events, |events|, d);
    }
    assert InOrder(before, longer, |events|);
    SafeTraceSnoc(before, events, NodeStart(id));
  }

  lemma {:induction false} ExecutableIsReady(before: seq<Info>, events: seq<Event>, flat: seq<Info>, i: Info)
    requires Tracks(before, events, flat) && UniqueIds(before)
    requires i in NextExecutable(flat)
    ensures Ready(before, events, i.id)
  {
    ExecutableMembers(flat, |flat|);
    var k :| 0 <= k < |flat| && flat[k] == i && Executable(flat, i);
    StatusSaysEvents(before[k], events);
    SamePlanSameGraph(before, flat);
    forall d | d in before[k].dependencies
      ensures CompletedBy(before, events, |events|, d)
    {
      var n :| 0 <= n < |i.dependencies| && i.dependencies[n] == d;
      StatusMapLookup(flat, d);
      var m :| 0 <= m < |flat| && flat[m].id == d;
      StatusSaysEvents(before[m], events);
      Whole(events);
    }
  }

  lemma {:induction false} ExecutableDistinct(flat: seq<Info>, n: nat)
    requires n <= |flat| && UniqueIds(flat)
    ensures UniqueIds(ExecutableUpTo(flat, n))
  {
    if n > 0 {
      ExecutableDistinct(flat, n - 1);
      ExecutableMembers(flat, n - 1);
      var front := ExecutableUpTo(flat, n - 1);
      forall i | 0 <= i < |front|
        ensures front[i].id != flat[n - 1].id
      {
        assert front[i] in front;
        var k :| 0 <= k < n - 1 && flat[k] == front[i] && Executable(flat, front[i]);
      }
    }
  }

  // ---------------------------------------------------------------- termination

  function PendingCount(flat: seq<Info>): nat {
    if flat == [] then 0 else (if flat[0].status == Pending then 1 else 0) + PendingCount(flat[1..])
  }

  /** Writing a status other than pending never adds a pending node, and removes one if it hits one. */
  lemma {:induction false} UpdateLowersPending(flat: seq<Info>, id: string, status: Status, result: string)
    requires status != Pending
    ensures PendingCount(Updated(flat, id, status, result)) <= PendingCount(flat)
    ensures PendingId(flat, id) ==> PendingCount(Updated(flat, id, status, result)) < PendingCount(flat)
  {
    if flat != [] {
      UpdateLowersPending(flat[1..], id, status, result);
      if PendingId(flat, id) && !(flat[0].id == id && flat[0].status == Pending) {
        var k :| 0 <= k < |flat| && flat[k].id == id && flat[k].status == Pending;
        assert flat[1..][k - 1] == flat[k];
      }
    }
  }

  // ---------------------------------------------------------------- the loop

  /** Every executor call succeeds and the context stays live. */
  ghost predicate AllGoesWell(execute: (nat, Info) -> Outcome, cancelled: nat -> bool) {
    (forall n, i :: execute(n, i).Done?) && forall n :: !cancelled(n)
  }

  /** What the caller learns. With unique ids the trace is safe, and for a fresh plan, whatever the
      executor does, finishing means that all dependencies exist and have no cycle and a deadlock
      means the contrary; if moreover all goes well one of the two is the result, so that the plan
      finishes exactly when its dependencies exist and have no cycle. */
  ghost predicate Delivers(before: seq<Info>, flat: seq<Info>, events: seq<Event>, r: ExecuteResult, wellDone: bool) {
    && Tracks(before, events, flat)
    && (UniqueIds(before) ==> SafeTrace(before, events))
    && (r == Finished ==> AllCompleted(flat))
    && (r == DeadlockError ==> Deadlocked(flat))
    && (UniqueIds(before) && AllPending(before) ==>
          && (r == Finished ==> !HasMissing(before) && !HasCycle(before))
          && (r == DeadlockError ==> HasMissing(before) || HasCycle(before))
          && (wellDone ==> r == Finished || r == DeadlockError))
  }

  /** A fresh plan at the head of the outer loop. */
  predicate Settled(flat: seq<Info>) {
    forall k :: 0 <= k < |flat| ==> flat[k].status in {Pending, Completed}
  }

  lemma {:induction false} FinishDelivers(before: seq<Info>, flat: seq<Info>, events: seq<Event>, wellDone: bool)
    requires Tracks(before, events, flat) && (UniqueIds(before) ==> SafeTrace(before, events))
    requires AllCompleted(flat)
    ensures Delivers(before, flat, events, Finished, wellDone)
  {
    if UniqueIds(before) && AllPending(before) {
      forall k | 0 <= k < |before|
        ensures NodeComplete(before[k].id) in events
      {
        StatusSaysEvents(before[k], events);
        assert flat[k].status == Completed;
      }
      CompletedRunIsAcyclic(before, events);
    }
  }

  lemma {:induction false} DeadlockDelivers(before: seq<Info>, flat: seq<Info>, events: seq<Event>, wellDone: bool)
    requires Tracks(before, events, flat) && (UniqueIds(before) ==> SafeTrace(before, events))
    requires Deadlocked(flat)
    requires AllPending(before) ==> Settled(flat)
    ensures Delivers(before, flat, events, DeadlockError, wellDone)
  {
    if UniqueIds(before) && AllPending(before) {
      SamePlanSameGraph(before, flat);
      DeadlockHasCause(flat);
    }
  }

  /** The event that closes a node's execution. */
  function Closing(id: string, outcome: Outcome): Event {
    match outcome
    case Done(_) => NodeComplete(id)
    case Suspends(_) => NodeSuspended(id)
    case Fails(_) => NodeFailed(id)
  }

  /** The walk once a node has been executed. */
  function AfterNode(flat: seq<Info>, id: string, outcome: Outcome): seq<Info> {
    var started := Updated(flat, id, Running, "");
    match outcome
    case Done(result) => Updated(started, id, Completed, result)
    case Suspends(part) => Updated(started, id, Suspended, part)
    case Fails(message) => Updated(started, id, Failed, "Error: " + message)
  }

  lemma {:induction false} NodeTracks(before: seq<Info>, events: seq<Event>, flat: seq<Info>, id: string,
                                      outcome: Outcome)
    requires Tracks(before, events, flat)
    ensures Tracks(before, events + [NodeStart(id)] + [Closing(id, outcome)], AfterNode(flat, id, outcome))
  {
    var started, running := events + [NodeStart(id)], Updated(flat, id, Running, "");
    TracksUpdate(before, events, flat, NodeStart(id), "");
    match outcome
    case Done(r) => TracksUpdate(before, started, running, NodeComplete(id), r);
    case Suspends(p) => TracksUpdate(before, started, running, NodeSuspended(id), p);
    case Fails(m) => TracksUpdate(before, started, running, NodeFailed(id), "Error: " + m);
  }

  /** A closing event right after the start keeps a trace safe. */
  lemma {:induction false} ClosingIsSafe(before: seq<Info>, started: seq<Event>, id: string, e: Event)
    requires SafeTrace(before, started) && started != [] && started[|started| - 1] == NodeStart(id)
    requires e in {NodeComplete(id), NodeFailed(id), NodeSuspended(id)}
    ensures SafeTrace(before, started + [e])
  {
    assert InOrder(before, started + [e], |started|);
    SafeTraceSnoc(before, started, e);
  }

  /** Running one node keeps the tree and the events in step, the trace safe, and every other ready
      node ready. */
  lemma {:induction false} NodeRuns(before: seq<Info>, events: seq<Event>, flat: seq<Info>, id: string,
                                    outcome: Outcome)
    requires Tracks(before, events, flat)
    requires UniqueIds(before) ==> SafeTrace(before, events) && Ready(before, events, id)
    ensures var after := events + [NodeStart(id)] + [Closing(id, outcome)];
            && Tracks(before, after, AfterNode(flat, id, outcome))
            && (UniqueIds(before) ==> SafeTrace(before, after))
            && forall x :: x != id && Ready(before, events, x) ==> Ready(before, after, x)
  {
    var e := Closing(id, outcome);
    var started := events + [NodeStart(id)];
    NodeTracks(before, events, flat, id, outcome);
    if UniqueIds(before) {
      ReadyStarts(before, events, id);
      ClosingIsSafe(before, started, id, e);
    }
    forall x | x != id && Ready(before, events, x)
      ensures Ready(before, started + [e], x)
    {
      ReadyKept(before, events, NodeStart(id), x);
      ReadyKept(before, started, e, x);
    }
  }

  lemma {:induction false} ProgressKeeps(before: seq<Info>, events: seq<Event>, flat: seq<Info>, completed: nat,
                                         total: nat)
    requires Tracks(before, events, flat)
    requires UniqueIds(before) ==> SafeTrace(before, events)
    ensures var after := events + [Progress(completed, total)];
            && Tracks(before, after, flat)
            && (UniqueIds(before) ==> SafeTrace(before, after))
            && forall x :: Ready(before, events, x) ==> Ready(before, after, x)
  {
    var e := Progress(completed, total);
    TracksProgress(before, events, flat, completed, total);
    if UniqueIds(before) {
      assert InOrder(before, events + [e], |events|);
      SafeTraceSnoc(before, events, e);
    }
    forall x | Ready(before, events, x)
      ensures Ready(before, events + [e], x)
    {
      ReadyKept(before, events, e, x);
    }
  }

  lemma {:induction false} TwoUpdatesLowerPending(flat: seq<Info>, id: string, status: Status, result: string)
    requires status != Pending
    ensures var after := Updated(Updated(flat, id, Running, ""), id, status, result);
            && PendingCount(after) <= PendingCount(flat)
            && (PendingId(flat, id) ==> PendingCount(after) < PendingCount(flat))
  {
    UpdateLowersPending(flat, id, Running, "");
    UpdateLowersPending(Updated(flat, id, Running, ""), id, status, result);
  }

  /** The tree matches the events, and with unique ids the events are in order. */
  ghost predicate Holds(before: seq<Info>, events: seq<Event>, flat: seq<Info>) {
    Tracks(before, events, flat) && (UniqueIds(before) ==> SafeTrace(before, events))
  }

  /** Inside a round: what is left of it is still ready, and the pending count has dropped. */
  ghost predicate RoundInv(before: seq<Info>, events: seq<Event>, flat: seq<Info>, ready: seq<Info>, k: nat,
                           round: seq<Info>) {
    && Holds(before, events, flat)
    && (UniqueIds(before) ==>
          && UniqueIds(ready)
          && forall m :: k <= m < |ready| ==> Ready(before, events, ready[m].id))
    && (Settled(round) ==> Settled(flat))
    && (if k == 0 then flat == round && forall m :: 0 <= m < |ready| ==> PendingId(flat, ready[m].id)
        else PendingCount(flat) < PendingCount(round))
  }

  /** A node that completes keeps the round going. */
  lemma {:induction false} NodeCompletes(before: seq<Info>, events: seq<Event>, flat: seq<Info>, ready: seq<Info>,
                                         k: nat, round: seq<Info>,
                                         outcome: Outcome, c: nat, t: nat)
    requires k < |ready| && RoundInv(before, events, flat, ready, k, round) && outcome.Done?
    ensures var id := ready[k].id;
            RoundInv(before, events + [NodeStart(id)] + [Closing(id, outcome)] + [Progress(c, t)],
                     AfterNode(flat, id, outcome), ready, k + 1, round)
  {
    var id := ready[k].id;
    var after := AfterNode(flat, id, outcome);
    var done := events + [NodeStart(id)] + [Closing(id, outcome)];
    NodeRuns(before, events, flat, id, outcome);
    ProgressKeeps(before, done, after, c, t);
    TwoUpdatesLowerPending(flat, id, Completed, outcome.result);
    if Settled(flat) {
      CompletingSettles(flat, id, outcome.result);
    }
    if UniqueIds(before) {
      forall m | k + 1 <= m < |ready|
        ensures Ready(before, done + [Progress(c, t)], ready[m].id)
      {
        assert Ready(before, events, ready[m].id) && ready[k].id != ready[m].id;
      }
    }
  }

  /** Whatever came of it, the trace so far is safe. */
  lemma {:induction false} NodeStops(before: seq<Info>, events: seq<Event>, flat: seq<Info>, ready: seq<Info>, k: nat,
                                     round: seq<Info>,
                                     outcome: Outcome)
    requires k < |ready| && RoundInv(before, events, flat, ready, k, round)
    ensures var id := ready[k].id;
            Holds(before, events + [NodeStart(id)] + [Closing(id, outcome)], AfterNode(flat, id, outcome))
  {
    assert UniqueIds(before) ==> Ready(before, events, ready[k].id);
    NodeRuns(before, events, flat, ready[k].id, outcome);
  }

  // ---------------------------------------------------------------- what the executor's answers come to

  /** The events that close an execution, in order. */
  function Closings(events: seq<Event>): seq<Event> {
    if events == [] then []
    else
      var front, last := Closings(events[..|events| - 1]), events[|events| - 1];
      if last.NodeComplete? || last.NodeFailed? || last.NodeSuspended? then front + [last] else front
  }

  /** The closing event says what the executor answered. */
  predicate Says(e: Event, id: string, outcome: Outcome) {
    && (outcome.Done? <==> e == NodeComplete(id))
    && (outcome.Fails? <==> e == NodeFailed(id))
    && (outcome.Suspends? <==> e == NodeSuspended(id))
  }

  /** The executor was called for these nodes in turn, and each answer closed one execution. */
  ghost predicate Obeys(execute: (nat, Info) -> Outcome, ran: seq<Info>, events: seq<Event>) {
    && |Closings(events)| == |ran|
    && forall c :: 0 <= c < |ran| ==> Says(Closings(events)[c], ran[c].id, execute(c, ran[c]))
  }

  ghost predicate AllDone(execute: (nat, Info) -> Outcome, ran: seq<Info>) {
    forall c :: 0 <= c < |ran| ==> execute(c, ran[c]).Done?
  }

  /** All calls but the last were done. */
  ghost predicate DoneBefore(execute: (nat, Info) -> Outcome, ran: seq<Info>) {
    ran != [] && forall c :: 0 <= c < |ran| - 1 ==> execute(c, ran[c]).Done?
  }

  /** How many of the root nodes are completed after the events. */
  function CompletedRoots(roots: seq<Info>, events: seq<Event>): nat {
    if roots == [] then 0
    else
      CompletedRoots(roots[..|roots| - 1], events)
      + if StatusAfter(roots[|roots| - 1], events) == Completed then 1 else 0
  }

  lemma {:induction false} CountTracks(roots: seq<Info>, events: seq<Event>, now: seq<Info>)
    requires Tracks(roots, events, now)
    ensures CompletedRoots(roots, events) == CompletedCount(now)
  {
    if roots != [] {
      CountTracks(roots[..|roots| - 1], events, now[..|now| - 1]);
    }
  }

  /** Progress is told right after each completion and at no other time, with the counts of that moment. */
  predicate ReportedAt(roots: seq<Info>, events: seq<Event>, j: nat)
    requires j < |events|
  {
    match events[j]
    case NodeComplete(_) => j + 1 < |events| && events[j + 1].Progress?
    case Progress(completed, total) =>
      && 0 < j && events[j - 1].NodeComplete?
      && total == |roots| && completed == CompletedRoots(roots, events[..j])
    case _ => true
  }

  ghost predicate Reported(roots: seq<Info>, events: seq<Event>) {
    forall j :: 0 <= j < |events| ==> ReportedAt(roots, events, j)
  }

  function ResultText(outcome: Outcome): string {
    match outcome
    case Done(result) => result
    case Suspends(part) => part
    case Fails(message) => "Error: " + message
  }

  /** A node that was never started is as it was, and one that was run holds the text of its answer. */
  ghost predicate Recorded(before: seq<Info>, events: seq<Event>, flat: seq<Info>, ran: seq<Info>,
                           execute: (nat, Info) -> Outcome) {
    && |flat| == |before|
    && (forall k :: 0 <= k < |before| ==>
          && flat[k].id == before[k].id && flat[k].name == before[k].name
          && (NodeStart(before[k].id) !in events ==> flat[k] == before[k]))
    && (forall c :: 0 <= c < |ran| ==> NodeStart(ran[c].id) in events)
    && (UniqueIds(before) ==>
          && (forall c :: 0 <= c < |ran| ==> ran[c] in before)
          && forall c, k :: 0 <= c < |ran| && 0 <= k < |flat| && flat[k].id == ran[c].id ==>
               flat[k].resultSummary == ResultText(execute(c, ran[c])))
  }

  /** Events, tree and executor agree. */
  ghost predicate Accounts(before: seq<Info>, roots: seq<Info>, events: seq<Event>, flat: seq<Info>, now: seq<Info>,
                           ran: seq<Info>, execute: (nat, Info) -> Outcome) {
    && Tracks(roots, events, now) && Reported(roots, events)
    && Obeys(execute, ran, events) && Recorded(before, events, flat, ran, execute)
  }

  lemma {:induction false} ReportedMore(roots: seq<Info>, events: seq<Event>, e: Event)
    requires Reported(roots, events) && (e.NodeStart? || e.NodeFailed? || e.NodeSuspended?)
    ensures Reported(roots, events + [e])
  {
    forall j | 0 <= j < |events + [e]|
      ensures ReportedAt(roots, events + [e], j)
    {
      if j < |events| {
        assert ReportedAt(roots, events, j);
        assert (events + [e])[..j] == events[..j];
      }
    }
  }

  lemma {:induction false} ReportedCompletion(roots: seq<Info>, events: seq<Event>, id: string, c: nat, t: nat)
    requires Reported(roots, events)
    requires t == |roots| && c == CompletedRoots(roots, events + [NodeComplete(id)])
    ensures Reported(roots, events + [NodeComplete(id)] + [Progress(c, t)])
  {
    var longer := events + [NodeComplete(id)] + [Progress(c, t)];
    forall j | 0 <= j < |longer|
      ensures ReportedAt(roots, longer, j)
    {
      if j < |events| {
        assert ReportedAt(roots, events, j);
        assert longer[..j] == events[..j];
      } else if j > |events| {
        assert longer[..j] == events + [NodeComplete(id)];
      }
    }
  }

  lemma {:induction false} ClosingsMore(events: seq<Event>, e: Event)
    ensures Closings(events + [e]) ==
            if e.NodeComplete? || e.NodeFailed? || e.NodeSuspended? then Closings(events) + [e] else Closings(events)
  {
    Front(events, e);
  }

  lemma {:induction false} ObeysMore(execute: (nat, Info) -> Outcome, ran: seq<Info>, events: seq<Event>, node: Info)
    requires Obeys(execute, ran, events)
    ensures Obeys(execute, ran + [node],
                  events + [NodeStart(node.id)] + [Closing(node.id, execute(|ran|, node))])
  {
    ClosingsMore(events, NodeStart(node.id));
    ClosingsMore(events + [NodeStart(node.id)], Closing(node.id, execute(|ran|, node)));
  }

  lemma {:induction false} RecordedMore(before: seq<Info>, events: seq<Event>, flat: seq<Info>, ran: seq<Info>,
                                        execute: (nat, Info) -> Outcome, node: Info)
    requires Recorded(before, events, flat, ran, execute)
    requires UniqueIds(before) ==> node in before && NodeStart(node.id) !in events
    ensures var outcome := execute(|ran|, node);
            Recorded(before, events + [NodeStart(node.id)] + [Closing(node.id, outcome)],
                     AfterNode(flat, node.id, outcome), ran + [node], execute)
  {
    var outcome := execute(|ran|, node);
    var after := events + [NodeStart(node.id)] + [Closing(node.id, outcome)];
    StartsMore(events, node.id, Closing(node.id, outcome));
    AfterNodeWrites(flat, node.id, outcome);
    if UniqueIds(before) {
      AnswersMore(flat, AfterNode(flat, node.id, outcome), ran, execute, node);
    }
  }

  /** The starts are those before and the new one. */
  lemma {:induction false} StartsMore(events: seq<Event>, id: string, e: Event)
    requires !e.NodeStart?
    ensures forall x :: NodeStart(x) in events + [NodeStart(id)] + [e] <==> NodeStart(x) in events || x == id
  {
    var after := events + [NodeStart(id)] + [e];
    assert after[|events|] == NodeStart(id);
    forall x | NodeStart(x) in events
      ensures NodeStart(x) in after
    {
      var i :| 0 <= i < |events| && events[i] == NodeStart(x);
      assert after[i] == NodeStart(x);
    }
  }

  lemma {:induction false} AnswersMore(flat: seq<Info>, after: seq<Info>, ran: seq<Info>,
                                       execute: (nat, Info) -> Outcome, node: Info)
    requires |after| == |flat| && forall c :: 0 <= c < |ran| ==> ran[c].id != node.id
    requires forall k :: 0 <= k < |flat| ==>
               && after[k].id == flat[k].id
               && (if flat[k].id != node.id then after[k] == flat[k]
                   else after[k].resultSummary == ResultText(execute(|ran|, node)))
    requires forall c, k :: 0 <= c < |ran| && 0 <= k < |flat| && flat[k].id == ran[c].id ==>
               flat[k].resultSummary == ResultText(execute(c, ran[c]))
    ensures var longer := ran + [node];
            forall c, k :: 0 <= c < |longer| && 0 <= k < |after| && after[k].id == longer[c].id ==>
              after[k].resultSummary == ResultText(execute(c, longer[c]))
  {
  }

  /** What running a node writes. */
  lemma {:induction false} AfterNodeWrites(flat: seq<Info>, id: string, outcome: Outcome)
    ensures |AfterNode(flat, id, outcome)| == |flat|
    ensures forall k :: 0 <= k < |flat| ==>
              var i := AfterNode(flat, id, outcome)[k];
              && i.id == flat[k].id && i.name == flat[k].name && i.dependencies == flat[k].dependencies
              && (if flat[k].id != id then i == flat[k]
                  else i.resultSummary == ResultText(outcome)
                       && i.status == (if outcome.Done? then Completed
                                       else if outcome.Fails? then Failed else Suspended))
  {
  }

  lemma {:induction false} ProgressRecorded(before: seq<Info>, events: seq<Event>, flat: seq<Info>, ran: seq<Info>,
                                            execute: (nat, Info) -> Outcome, c: nat, t: nat)
    requires Recorded(before, events, flat, ran, execute)
    ensures Recorded(before, events + [Progress(c, t)], flat, ran, execute)
  {
  }

  /** A node that fails or suspends keeps the accounts. */
  lemma {:induction false} StopAccounts(before: seq<Info>, roots: seq<Info>, events: seq<Event>, flat: seq<Info>,
                                        now: seq<Info>, ran: seq<Info>, execute: (nat, Info) -> Outcome, node: Info)
    requires Accounts(before, roots, events, flat, now, ran, execute) && !execute(|ran|, node).Done?
    requires UniqueIds(before) ==> node in before && NodeStart(node.id) !in events
    ensures var outcome := execute(|ran|, node);
            Accounts(before, roots, events + [NodeStart(node.id)] + [Closing(node.id, outcome)],
                     AfterNode(flat, node.id, outcome), AfterNode(now, node.id, outcome), ran + [node], execute)
  {
    var outcome := execute(|ran|, node);
    NodeTracks(roots, events, now, node.id, outcome);
    ReportedMore(roots, events, NodeStart(node.id));
    ReportedMore(roots, events + [NodeStart(node.id)], Closing(node.id, outcome));
    ObeysMore(execute, ran, events, node);
    RecordedMore(before, events, flat, ran, execute, node);
  }

  /** So does one that completes, once progress has been told. */
  lemma {:induction false} CompletionAccounts(before: seq<Info>, roots: seq<Info>, events: seq<Event>,
                                              flat: seq<Info>, now: seq<Info>, ran: seq<Info>,
                                              execute: (nat, Info) -> Outcome, node: Info, c: nat, t: nat)
    requires Accounts(before, roots, events, flat, now, ran, execute) && execute(|ran|, node).Done?
    requires UniqueIds(before) ==> node in before && NodeStart(node.id) !in events
    requires var after := AfterNode(now, node.id, execute(|ran|, node));
             t == |after| && c == CompletedCount(after)
    ensures var outcome := execute(|ran|, node);
            Accounts(before, roots, events + [NodeStart(node.id)] + [Closing(node.id, outcome)] + [Progress(c, t)],
                     AfterNode(flat, node.id, outcome), AfterNode(now, node.id, outcome), ran + [node], execute)
  {
    var outcome, started := execute(|ran|, node), events + [NodeStart(node.id)];
    var after := AfterNode(now, node.id, outcome);
    NodeTracks(roots, events, now, node.id, outcome);
    TracksProgress(roots, started + [Closing(node.id, outcome)], after, c, t);
    ReportedMore(roots, events, NodeStart(node.id));
    CountTracks(roots, started + [NodeComplete(node.id)], after);
    ReportedCompletion(roots, started, node.id, c, t);
    ObeysMore(execute, ran, events, node);
    ClosingsMore(started + [Closing(node.id, outcome)], Progress(c, t));
    RecordedMore(before, events, flat, ran, execute, node);
    ProgressRecorded(before, started + [Closing(node.id, outcome)], AfterNode(flat, node.id, outcome), ran + [node],
                     execute, c, t);
  }

  /** The only status besides pending and completed, and some node has it. */
  predicate SettledBut(flat: seq<Info>, status: Status) {
    AnyStatus(flat, status) && forall k :: 0 <= k < |flat| ==> flat[k].status in {Pending, Completed, status}
  }

  /** The result that the statuses of a plan call for. */
  function ResultOf(flat: seq<Info>): ExecuteResult {
    if AnyStatus(flat, Suspended) then SuspendedError
    else if AnyStatus(flat, Failed) then FailedNodes
    else if AllCompleted(flat) then Finished
    else if Deadlocked(flat) then DeadlockError
    else CancelledError
  }

  /** What each result means for any plan, and that of a fresh plan with unique ids the statuses in the end
      determine the result. */
  ghost predicate Means(before: seq<Info>, flat: seq<Info>, r: ExecuteResult) {
    && (r == SuspendedError ==> AnyStatus(flat, Suspended))
    && (r == FailedNodes ==> AnyStatus(flat, Failed))
    && (r == NoExecutableNodes ==>
          !AnyStatus(flat, Pending) && !AnyStatus(flat, Failed) && !AllCompleted(flat))
    && (UniqueIds(before) && AllPending(before) ==> r == ResultOf(flat))
  }

  /** The context was live before each of the first `n` calls. */
  ghost predicate Live(cancelled: nat -> bool, n: nat) {
    forall c :: 0 <= c < n ==> !cancelled(c)
  }

  /** The executor's last answer, all earlier ones having been done. */
  ghost predicate EndsSuspended(execute: (nat, Info) -> Outcome, ran: seq<Info>) {
    DoneBefore(execute, ran) && execute(|ran| - 1, ran[|ran| - 1]).Suspends?
  }

  ghost predicate EndsFailed(execute: (nat, Info) -> Outcome, ran: seq<Info>) {
    DoneBefore(execute, ran) && execute(|ran| - 1, ran[|ran| - 1]).Fails?
  }

  /** How the executor's answers and the context decide the result. No call is made once the context is
      cancelled. For a fresh plan with unique ids each result but finishing and deadlock has its exact
      cause; which of those two it is the plan decides. */
  ghost predicate Decided(execute: (nat, Info) -> Outcome, cancelled: nat -> bool, before: seq<Info>, flat: seq<Info>,
                          ran: seq<Info>, r: ExecuteResult) {
    && Live(cancelled, |ran|)
    && (r == SuspendedError <==> EndsSuspended(execute, ran))
    && (r == CancelledError ==> AllDone(execute, ran) && cancelled(|ran|))
    && (r in {Finished, DeadlockError, NoExecutableNodes} ==> AllDone(execute, ran))
    && (r == FailedNodes ==> AllDone(execute, ran) || EndsFailed(execute, ran))
    && (UniqueIds(before) && AllPending(before) ==>
          && (r == FailedNodes <==> EndsFailed(execute, ran))
          && (r == CancelledError <==> AllDone(execute, ran) && cancelled(|ran|) && NextExecutable(flat) != [])
          && r != NoExecutableNodes)
  }

  /** A node that may start now is executable in the tree. */
  lemma {:induction false} ReadyIsExecutable(before: seq<Info>, events: seq<Event>, flat: seq<Info>, id: string)
    requires UniqueIds(before) && Holds(before, events, flat) && Ready(before, events, id)
    ensures NextExecutable(flat) != []
  {
    var k :| 0 <= k < |before| && before[k].id == id && before[k].status == Pending
             && forall d :: d in before[k].dependencies ==> CompletedBy(before, events, |events|, d);
    NeverStarted(before[k], events, before);
    SamePlanSameGraph(before, flat);
    forall n | 0 <= n < |flat[k].dependencies|
      ensures flat[k].dependencies[n] in StatusMap(flat) && StatusMap(flat)[flat[k].dependencies[n]] == Completed
    {
      var d := flat[k].dependencies[n];
      assert d in before[k].dependencies;
      var m := CompletedNow(before, events, d);
      assert flat[m].id == d && flat[m].status == Completed;
      StatusMapLookup(flat, d);
    }
    assert Executable(flat, flat[k]);
    ExecutableMembers(flat, |flat|);
  }

  /** In a safe trace a node that never started keeps its status. */
  lemma {:induction false} NeverStarted(i: Info, events: seq<Event>, before: seq<Info>)
    requires SafeTrace(before, events) && NodeStart(i.id) !in events
    ensures StatusAfter(i, events) == i.status
  {
    if events != [] {
      var n := |events| - 1;
      SafeFront(before, events);
      NeverStarted(i, events[..n], before);
      assert InOrder(before, events, n);
    }
  }

  lemma {:induction false} SafeFront(before: seq<Info>, events: seq<Event>)
    requires SafeTrace(before, events) && events != []
    ensures SafeTrace(before, events[..|events| - 1])
  {
    var front := events[..|events| - 1];
    forall i | 0 <= i < |front|
      ensures InOrder(before, front, i)
    {
      assert InOrder(before, events, i);
      assert front[..i] == events[..i];
    }
  }

  /** A node that was completed at the start or has completed since is completed now. */
  lemma {:induction false} CompletedNow(before: seq<Info>, events: seq<Event>, id: string)
    returns (m: nat)
    requires UniqueIds(before) && SafeTrace(before, events) && CompletedBy(before, events, |events|, id)
    ensures m < |before| && before[m].id == id && StatusAfter(before[m], events) == Completed
  {
    Whole(events);
    if NodeComplete(id) in events {
      var c := FirstComplete(events, id);
      CompletedIsNode(before, events, id);
      m :| 0 <= m < |before| && before[m].id == id;
      OneMore(events, c);
      CompletedStaysCompleted(before, events, m, c + 1, |events|);
    } else {
      m :| 0 <= m < |before| && before[m].id == id && before[m].status == Completed;
      assert events[..0] == [];
      CompletedStaysCompleted(before, events, m, 0, |events|);
    }
  }

  /** A node that stopped the loop is the only one that is neither pending nor completed. */
  lemma {:induction false} StoppedStatus(flat: seq<Info>, id: string, outcome: Outcome)
    requires HasId(flat, id) && !outcome.Done?
    ensures var after, status := AfterNode(flat, id, outcome), if outcome.Fails? then Failed else Suspended;
            AnyStatus(after, status) && (Settled(flat) ==> SettledBut(after, status))
  {
    AfterNodeWrites(flat, id, outcome);
    var after, status := AfterNode(flat, id, outcome), if outcome.Fails? then Failed else Suspended;
    var k :| 0 <= k < |flat| && flat[k].id == id;
    assert after[k].status == status;
    StatusesAfter(flat, after, status);
  }

  lemma {:induction false} StatusesAfter(flat: seq<Info>, after: seq<Info>, status: Status)
    requires |after| == |flat|
    requires forall k :: 0 <= k < |flat| ==> after[k].status == flat[k].status || after[k].status == status
    ensures Settled(flat) ==> forall k :: 0 <= k < |after| ==> after[k].status in {Pending, Completed, status}
  {
  }

  /** The nodes of a round are as the plan had them. */
  lemma {:induction false} RoundIsOfThePlan(before: seq<Info>, events: seq<Event>, flat: seq<Info>, ran: seq<Info>,
                                            execute: (nat, Info) -> Outcome)
    requires Tracks(before, events, flat) && Recorded(before, events, flat, ran, execute)
    ensures forall m :: 0 <= m < |NextExecutable(flat)| ==>
              HasId(flat, NextExecutable(flat)[m].id) && NextExecutable(flat)[m] in before
  {
    var ready := NextExecutable(flat);
    ExecutableMembers(flat, |flat|);
    forall m | 0 <= m < |ready|
      ensures HasId(flat, ready[m].id) && ready[m] in before
    {
      assert ready[m] in ready;
      var k :| 0 <= k < |flat| && flat[k] == ready[m] && Executable(flat, ready[m]);
      StatusSaysEvents(before[k], events);
    }
  }

  /** The ids of a plan stay. */
  lemma {:induction false} StillThere(before: seq<Info>, flat: seq<Info>, round: seq<Info>, id: string)
    requires SamePlan(before, flat) && SamePlan(before, round) && HasId(round, id)
    ensures HasId(flat, id)
  {
    var k :| 0 <= k < |round| && round[k].id == id;
    assert flat[k].id == id;
  }

  // ---------------------------------------------------------------- the loop, step by step

  /** The plan as it was, its root nodes, the executor and the context. */
  datatype Job = Job(before: seq<Info>, roots: seq<Info>, execute: (nat, Info) -> Outcome, cancelled: nat -> bool)

  /** Where the loop stands: the events, the plan and its root nodes, and the nodes run. */
  datatype Moment = Moment(events: seq<Event>, flat: seq<Info>, now: seq<Info>, ran: seq<Info>)

  ghost predicate Accounted(j: Job, m: Moment) {
    Accounts(j.before, j.roots, m.events, m.flat, m.now, m.ran, j.execute)
  }

  /** Everything so far was done, and the context was live each time. */
  ghost predicate Going(j: Job, m: Moment) {
    && Holds(j.before, m.events, m.flat) && Accounted(j, m)
    && AllDone(j.execute, m.ran) && Live(j.cancelled, |m.ran|)
  }

  /** Why a round stopped; `settled` tells whether it began with pending and completed nodes alone. */
  ghost predicate Stopped(j: Job, m: Moment, stop: ExecuteResult, settled: bool) {
    && Holds(j.before, m.events, m.flat) && Accounted(j, m)
    && Live(j.cancelled, |m.ran|)
    && stop in {CancelledError, SuspendedError, FailedNodes}
    && (stop == CancelledError ==>
          && AllDone(j.execute, m.ran) && j.cancelled(|m.ran|)
          && (UniqueIds(j.before) ==> NextExecutable(m.flat) != []) && (settled ==> Settled(m.flat)))
    && (stop != CancelledError ==>
          var status := if stop == SuspendedError then Suspended else Failed;
          && (if stop == SuspendedError then EndsSuspended(j.execute, m.ran) else EndsFailed(j.execute, m.ran))
          && AnyStatus(m.flat, status) && (settled ==> SettledBut(m.flat, status)))
  }

  /** The nodes of a round that is under way. */
  ghost predicate OfThePlan(before: seq<Info>, round: seq<Info>, ready: seq<Info>) {
    && SamePlan(before, round)
    && forall m :: 0 <= m < |ready| ==> HasId(round, ready[m].id) && ready[m] in before
  }

  /** The next moment, when a node has been run, and when progress has been told as well. */
  function NodeRun(m: Moment, node: Info, outcome: Outcome): Moment {
    Moment(m.events + [NodeStart(node.id)] + [Closing(node.id, outcome)], AfterNode(m.flat, node.id, outcome),
           AfterNode(m.now, node.id, outcome), m.ran + [node])
  }

  function ProgressTold(m: Moment, c: nat, t: nat): Moment {
    m.(events := m.events + [Progress(c, t)])
  }

  lemma {:induction false} CompletionAccounted(j: Job, m: Moment, node: Info, c: nat, t: nat)
    requires Accounted(j, m) && j.execute(|m.ran|, node).Done?
    requires UniqueIds(j.before) ==> node in j.before && NodeStart(node.id) !in m.events
    requires var after := NodeRun(m, node, j.execute(|m.ran|, node)).now;
             t == |after| && c == CompletedCount(after)
    ensures Accounted(j, ProgressTold(NodeRun(m, node, j.execute(|m.ran|, node)), c, t))
  {
    CompletionAccounts(j.before, j.roots, m.events, m.flat, m.now, m.ran, j.execute, node, c, t);
  }

  lemma {:induction false} StopAccounted(j: Job, m: Moment, node: Info)
    requires Accounted(j, m) && !j.execute(|m.ran|, node).Done?
    requires UniqueIds(j.before) ==> node in j.before && NodeStart(node.id) !in m.events
    ensures Accounted(j, NodeRun(m, node, j.execute(|m.ran|, node)))
  {
    StopAccounts(j.before, j.roots, m.events, m.flat, m.now, m.ran, j.execute, node);
  }

  lemma {:induction false} NotStarted(before: seq<Info>, events: seq<Event>, flat: seq<Info>, ready: seq<Info>, k: nat,
                                      round: seq<Info>)
    requires k < |ready| && RoundInv(before, events, flat, ready, k, round) && OfThePlan(before, round, ready)
    ensures UniqueIds(before) ==> ready[k] in before && NodeStart(ready[k].id) !in events
  {
    assert UniqueIds(before) ==> Ready(before, events, ready[k].id);
  }

  /** Before node `k` of a round. */
  ghost predicate InRound(j: Job, m: Moment, ready: seq<Info>, k: nat, round: seq<Info>) {
    && k <= |ready| && Going(j, m) && RoundInv(j.before, m.events, m.flat, ready, k, round)
    && OfThePlan(j.before, round, ready)
  }

  lemma {:induction false} RoundBegins(j: Job, m: Moment)
    requires Going(j, m)
    ensures InRound(j, m, NextExecutable(m.flat), 0, m.flat)
  {
    RoundStart(j.before, m.events, m.flat);
    RoundIsOfThePlan(j.before, m.events, m.flat, m.ran, j.execute);
  }

  lemma {:induction false} RoundEnds(j: Job, m: Moment, ready: seq<Info>, round: seq<Info>)
    requires ready != [] && InRound(j, m, ready, |ready|, round)
    ensures Going(j, m) && PendingCount(m.flat) < PendingCount(round) && (Settled(round) ==> Settled(m.flat))
  {
  }

  lemma {:induction false} RoundGoesOn(j: Job, m: Moment, ready: seq<Info>, k: nat, round: seq<Info>, c: nat, t: nat,
                                       next: Moment)
    requires k < |ready| && InRound(j, m, ready, k, round) && !j.cancelled(|m.ran|)
    requires j.execute(|m.ran|, ready[k]).Done?
    requires var after := NodeRun(m, ready[k], j.execute(|m.ran|, ready[k])).now;
             t == |after| && c == CompletedCount(after)
    requires next == ProgressTold(NodeRun(m, ready[k], j.execute(|m.ran|, ready[k])), c, t)
    ensures InRound(j, next, ready, k + 1, round)
  {
    NotStarted(j.before, m.events, m.flat, ready, k, round);
    CompletionAccounted(j, m, ready[k], c, t);
    InvGoesOn(j, m, ready, k, round, c, t, next);
    GoingFrom(j, m, ready[k], next);
  }

  lemma {:induction false} InvGoesOn(j: Job, m: Moment, ready: seq<Info>, k: nat, round: seq<Info>, c: nat, t: nat,
                                     next: Moment)
    requires k < |ready| && RoundInv(j.before, m.events, m.flat, ready, k, round)
    requires j.execute(|m.ran|, ready[k]).Done?
    requires next == ProgressTold(NodeRun(m, ready[k], j.execute(|m.ran|, ready[k])), c, t)
    ensures RoundInv(j.before, next.events, next.flat, ready, k + 1, round)
  {
    NodeCompletes(j.before, m.events, m.flat, ready, k, round, j.execute(|m.ran|, ready[k]), c, t);
  }

  lemma {:induction false} GoingFrom(j: Job, m: Moment, node: Info, next: Moment)
    requires AllDone(j.execute, m.ran) && j.execute(|m.ran|, node).Done?
    requires Live(j.cancelled, |m.ran|) && !j.cancelled(|m.ran|)
    requires next.ran == m.ran + [node] && Holds(j.before, next.events, next.flat) && Accounted(j, next)
    ensures Going(j, next)
  {
  }

  lemma {:induction false} RoundStops(j: Job, m: Moment, ready: seq<Info>, k: nat, round: seq<Info>, next: Moment)
    requires k < |ready| && InRound(j, m, ready, k, round) && !j.cancelled(|m.ran|)
    requires !j.execute(|m.ran|, ready[k]).Done? && next == NodeRun(m, ready[k], j.execute(|m.ran|, ready[k]))
    ensures Stopped(j, next, if j.execute(|m.ran|, ready[k]).Suspends? then SuspendedError else FailedNodes,
                    Settled(round))
  {
    NotStarted(j.before, m.events, m.flat, ready, k, round);
    StopAccounted(j, m, ready[k]);
    InvStops(j, m, ready, k, round, next);
    StoppedFrom(j, m, ready[k], next, Settled(round));
  }

  lemma {:induction false} InvStops(j: Job, m: Moment, ready: seq<Info>, k: nat, round: seq<Info>, next: Moment)
    requires k < |ready| && RoundInv(j.before, m.events, m.flat, ready, k, round) && OfThePlan(j.before, round, ready)
    requires !j.execute(|m.ran|, ready[k]).Done? && next == NodeRun(m, ready[k], j.execute(|m.ran|, ready[k]))
    ensures Holds(j.before, next.events, next.flat)
    ensures var status := if j.execute(|m.ran|, ready[k]).Suspends? then Suspended else Failed;
            AnyStatus(next.flat, status) && (Settled(round) ==> SettledBut(next.flat, status))
  {
    NodeStops(j.before, m.events, m.flat, ready, k, round, j.execute(|m.ran|, ready[k]));
    StillThere(j.before, m.flat, round, ready[k].id);
    StoppedStatus(m.flat, ready[k].id, j.execute(|m.ran|, ready[k]));
  }

  lemma {:induction false} StoppedFrom(j: Job, m: Moment, node: Info, next: Moment, settled: bool)
    requires AllDone(j.execute, m.ran) && !j.execute(|m.ran|, node).Done?
    requires Live(j.cancelled, |m.ran|) && !j.cancelled(|m.ran|)
    requires next.ran == m.ran + [node] && Holds(j.before, next.events, next.flat) && Accounted(j, next)
    requires var status := if j.execute(|m.ran|, node).Suspends? then Suspended else Failed;
             AnyStatus(next.flat, status) && (settled ==> SettledBut(next.flat, status))
    ensures Stopped(j, next, if j.execute(|m.ran|, node).Suspends? then SuspendedError else FailedNodes, settled)
  {
  }

  lemma {:induction false} RoundCancelled(j: Job, m: Moment, ready: seq<Info>, k: nat, round: seq<Info>)
    requires k < |ready| && InRound(j, m, ready, k, round) && j.cancelled(|m.ran|)
    ensures Stopped(j, m, CancelledError, Settled(round))
  {
    if UniqueIds(j.before) {
      ReadyIsExecutable(j.before, m.events, m.flat, ready[k].id);
    }
  }

  /** One pass over a node: why the round stops, if it does, and the next moment. */
  function Pass(execute: (nat, Info) -> Outcome, cancelled: nat -> bool, m: Moment, node: Info)
    : (Option<ExecuteResult>, Moment)
  {
    if cancelled(|m.ran|) then (Some(CancelledError), m)
    else
      var outcome := execute(|m.ran|, node);
      var run := NodeRun(m, node, outcome);
      match outcome
      case Done(_) => (None, ProgressTold(run, CompletedCount(run.now), |run.now|))
      case Suspends(_) => (Some(SuspendedError), run)
      case Fails(_) => (Some(FailedNodes), run)
  }

  lemma {:induction false} PassKeeps(j: Job, m: Moment, ready: seq<Info>, k: nat, round: seq<Info>)
    requires k < |ready| && InRound(j, m, ready, k, round)
    ensures var (stop, next) := Pass(j.execute, j.cancelled, m, ready[k]);
            if stop == None then InRound(j, next, ready, k + 1, round) else Stopped(j, next, stop.value, Settled(round))
  {
    var (_, next) := Pass(j.execute, j.cancelled, m, ready[k]);
    if j.cancelled(|m.ran|) {
      RoundCancelled(j, m, ready, k, round);
    } else if j.execute(|m.ran|, ready[k]).Done? {
      RoundGoesOn(j, m, ready, k, round, CompletedCount(NodeRun(m, ready[k], j.execute(|m.ran|, ready[k])).now),
                  |NodeRun(m, ready[k], j.execute(|m.ran|, ready[k])).now|, next);
    } else {
      RoundStops(j, m, ready, k, round, next);
    }
  }

  /** What Execute returns, and when. */
  ghost predicate Returns(j: Job, m: Moment, r: ExecuteResult) {
    && Delivers(j.before, m.flat, m.events, r, AllGoesWell(j.execute, j.cancelled))
    && Means(j.before, m.flat, r)
    && Accounted(j, m)
    && Decided(j.execute, j.cancelled, j.before, m.flat, m.ran, r)
  }

  lemma {:induction false} StoppedReturns(j: Job, m: Moment, stop: ExecuteResult, settled: bool)
    requires Stopped(j, m, stop, settled) && (AllPending(j.before) ==> settled)
    ensures Returns(j, m, stop)
  {
    if UniqueIds(j.before) && AllPending(j.before) && stop == CancelledError {
      ExecutableIsPending(m.flat);
    }
  }

  lemma {:induction false} ExecutableIsPending(flat: seq<Info>)
    requires NextExecutable(flat) != []
    ensures AnyStatus(flat, Pending)
  {
    ExecutableMembers(flat, |flat|);
    assert NextExecutable(flat)[0] in NextExecutable(flat);
  }

  /** At the head of the outer loop, when it does not go into a round. */
  lemma {:induction false} HeadReturns(j: Job, m: Moment, r: ExecuteResult)
    requires Going(j, m) && (AllPending(j.before) ==> Settled(m.flat))
    requires || (AllCompleted(m.flat) && r == Finished)
             || (!AllCompleted(m.flat) && AnyStatus(m.flat, Failed) && r == FailedNodes)
             || (!AllCompleted(m.flat) && !AnyStatus(m.flat, Failed) && Deadlocked(m.flat) && r == DeadlockError)
             || (!AllCompleted(m.flat) && !AnyStatus(m.flat, Failed) && !Deadlocked(m.flat)
                 && NextExecutable(m.flat) == [] && r == NoExecutableNodes)
    ensures Returns(j, m, r)
  {
    var wellDone := AllGoesWell(j.execute, j.cancelled);
    if NextExecutable(m.flat) != [] {
      ExecutableIsPending(m.flat);
    }
    if r == Finished {
      FinishDelivers(j.before, m.flat, m.events, wellDone);
    } else if r == DeadlockError {
      DeadlockDelivers(j.before, m.flat, m.events, wellDone);
    }
  }

  class Orchestrator {
    var tree: WBSTree

    /** The emitted events, oldest first. */
    var emitted: seq<Event>

    /** Executor calls made so far, and the nodes they were made for. */
    var calls: nat
    ghost var ran: seq<Info>

    constructor (tree: WBSTree)
      ensures this.tree == tree && emitted == [] && calls == 0 && ran == []
    {
      this.tree := tree;
      emitted, calls, ran := [], 0, [];
    }

    /** One node: marked running, executed, and marked with what came of it. */
    method RunNode(node: Info, execute: (nat, Info) -> Outcome) returns (outcome: Outcome)
      modifies this`emitted, this`calls, this`ran, tree
      ensures calls == old(calls) + 1 && ran == old(ran) + [node] && outcome == execute(old(calls), node)
      ensures emitted == old(emitted) + [NodeStart(node.id)] + [Closing(node.id, outcome)]
      ensures tree.Flat() == AfterNode(old(tree.Flat()), node.id, outcome)
      ensures tree.Roots() == AfterNode(old(tree.Roots()), node.id, outcome)
    {
      var found := tree.UpdateNodeStatus(node.id, Running, "");
      emitted := emitted + [NodeStart(node.id)];
      outcome := execute(calls, node);
      calls, ran := calls + 1, ran + [node];
      match outcome
      case Suspends(part) =>
        found := tree.UpdateNodeStatus(node.id, Suspended, part);
        emitted := emitted + [NodeSuspended(node.id)];
      case Fails(message) =>
        found := tree.UpdateNodeStatus(node.id, Failed, "Error: " + message);
        emitted := emitted + [NodeFailed(node.id)];
      case Done(result) =>
        found := tree.UpdateNodeStatus(node.id, Completed, result);
        emitted := emitted + [NodeComplete(node.id)];
    }

    ghost function Now(): Moment
      reads this, tree
    {
      Moment(emitted, tree.Flat(), tree.Roots(), ran)
    }

    /** One pass of the loop over a round: None means that the node completed and the round goes on. */
    method RunNext(node: Info, execute: (nat, Info) -> Outcome, cancelled: nat -> bool)
      returns (stop: Option<ExecuteResult>)
      requires calls == |ran|
      modifies this`emitted, this`calls, this`ran, tree
      ensures calls == |ran| && (stop, Now()) == Pass(execute, cancelled, old(Now()), node)
    {
      if cancelled(calls) {
        return Some(CancelledError);
      }
      var outcome := RunNode(node, execute);
      if outcome.Suspends? {
        return Some(SuspendedError);
      }
      if outcome.Fails? {
        return Some(FailedNodes);
      }
      var completed, total := tree.Progress();
      emitted := emitted + [Progress(completed, total)];
      return None;
    }

    /** One round: the nodes that were executable when it began, in order. None means that all of them
        completed and the loop goes on; anything else says why it stopped. */
    method RunRound(ready: seq<Info>, execute: (nat, Info) -> Outcome, cancelled: nat -> bool, ghost job: Job)
      returns (stop: Option<ExecuteResult>)
      requires job.execute == execute && job.cancelled == cancelled
      requires calls == |ran| && Going(job, Now())
      requires ready != [] && ready == NextExecutable(tree.Flat())
      modifies this`emitted, this`calls, this`ran, tree
      ensures calls == |ran|
      ensures stop == None ==>
                && Going(job, Now())
                && PendingCount(tree.Flat()) < old(PendingCount(tree.Flat()))
                && (old(Settled(tree.Flat())) ==> Settled(tree.Flat()))
      ensures stop.Some? ==> Stopped(job, Now(), stop.value, old(Settled(tree.Flat())))
    {
      ghost var round := tree.Flat();
      RoundBegins(job, Now());
      var k := 0;
      while k < |ready|
        invariant 0 <= k <= |ready| && calls == |ran|
        invariant InRound(job, Now(), ready, k, round)
      {
        PassKeeps(job, Now(), ready, k, round);
        stop := RunNext(ready[k], execute, cancelled);
        if stop.Some? {
          return;
        }
        k := k + 1;
      }
      RoundEnds(job, Now(), ready, round);
      return None;
    }

    /** Execute: rounds over the executable nodes until the plan is complete or cannot go on. Each
        round lowers the number of pending nodes. */
    method Execute(execute: (nat, Info) -> Outcome, cancelled: nat -> bool) returns (r: ExecuteResult)
      requires emitted == [] && calls == 0 && ran == []
      modifies this`emitted, this`calls, this`ran, tree
      ensures calls == |ran|
      ensures Returns(Job(old(tree.Flat()), old(tree.Roots()), execute, cancelled), Now(), r)
    {
      ghost var job := Job(tree.Flat(), tree.Roots(), execute, cancelled);
      while true
        invariant calls == |ran| && Going(job, Now())
        invariant AllPending(job.before) ==> Settled(tree.Flat())
        decreases PendingCount(tree.Flat())
      {
        ghost var now := Now();
        var complete := tree.IsComplete();
        if complete {
          HeadReturns(job, now, Finished);
          return Finished;
        }
        var failed := tree.HasFailed();
        if failed {
          HeadReturns(job, now, FailedNodes);
          return FailedNodes;
        }
        var deadlocked := tree.IsDeadlocked();
        if deadlocked {
          HeadReturns(job, now, DeadlockError);
          return DeadlockError;
        }
        var ready := tree.NextExecutableNodes();
        if |ready| == 0 {
          HeadReturns(job, now, NoExecutableNodes);
          return NoExecutableNodes;
        }
        var stop := RunRound(ready, execute, cancelled, job);
        if stop.Some? {
          StoppedReturns(job, Now(), stop.value, Settled(now.flat));
          return stop.value;
        }
      }
    }
  }

  lemma {:induction false} CompletingSettles(flat: seq<Info>, id: string, result: string)
    requires Settled(flat)
    ensures Settled(Updated(Updated(flat, id, Running, ""), id, Completed, result))
  {
  }

  /** At the head of a round every executable node is ready, and their ids differ. */
  lemma {:induction false} RoundStart(before: seq<Info>, events: seq<Event>, flat: seq<Info>)
    requires Tracks(before, events, flat)
    ensures var ready := NextExecutable(flat);
            && (forall m :: 0 <= m < |ready| ==> PendingId(flat, ready[m].id))
            && (UniqueIds(before) ==>
                  && (forall m :: 0 <= m < |ready| ==> Ready(before, events, ready[m].id))
                  && UniqueIds(ready))
  {
    var ready := NextExecutable(flat);
    ExecutableMembers(flat, |flat|);
    forall m | 0 <= m < |ready|
      ensures PendingId(flat, ready[m].id)
      ensures UniqueIds(before) ==> Ready(before, events, ready[m].id)
    {
      assert ready[m] in ready;
      if UniqueIds(before) {
        ExecutableIsReady(before, events, flat, ready[m]);
      }
    }
    if UniqueIds(before) {
      SamePlanSameGraph(before, flat);
      ExecutableDistinct(flat, |flat|);
    }
  }
}
