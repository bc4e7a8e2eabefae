/** The work breakdown tree (wayfinder/planning/wbs_tree.go). */
module WbsTree {
  import opened Seqs

  /** Statuses are strings in the plan; `Unknown` is any string the constants do not name. */
  datatype Status = Pending | Running | Completed | Failed | Suspended | Unknown(text: string)

  datatype Node = Node(
    id: string,
    name: string,
    status: Status,
    dependencies: seq<string>,
    subSteps: seq<Node>,
    resultSummary: string)

  /** A node as a walk shows it, without the nodes below it. */
  datatype Info = Info(id: string, name: string, status: Status, dependencies: seq<string>, resultSummary: string)

  function InfoOf(n: Node): Info {
    Info(n.id, n.name, n.status, n.dependencies, n.resultSummary)
  }

  /** walkNodes: every node, its own steps right after it. */
  function Walk(nodes: seq<Node>): seq<Info>
    decreases nodes, 0
  {
    if nodes == [] then [] else WalkNode(nodes[0]) + Walk(nodes[1..])
  }

  function WalkNode(n: Node): seq<Info>
    decreases n, 1
  {
    [InfoOf(n)] + Walk(n.subSteps)
  }

  /** walkNodesMut with the closure of UpdateNodeStatus: every node with the id is written. */
  function Written(nodes: seq<Node>, id: string, status: Status, result: string): (r: seq<Node>)
    ensures |r| == |nodes|
    decreases nodes, 0
  {
    if nodes == [] then []
    else [WrittenNode(nodes[0], id, status, result)] + Written(nodes[1..], id, status, result)
  }

  function WrittenNode(n: Node, id: string, status: Status, result: string): Node
    decreases n, 1
  {
    var below := Written(n.subSteps, id, status, result);
    if n.id == id then n.(status := status, resultSummary := result, subSteps := below) else n.(subSteps := below)
  }

  // ---------------------------------------------------------------- statuses over a walk

  function SetStatus(i: Info, id: string, status: Status, result: string): Info {
    if i.id == id then i.(status := status, resultSummary := result) else i
  }

  /** The walk after one update. */
  function Updated(flat: seq<Info>, id: string, status: Status, result: string): (r: seq<Info>)
    ensures |r| == |flat|
    ensures forall k :: 0 <= k < |flat| ==> r[k] == SetStatus(flat[k], id, status, result)
  {
    if flat == [] then [] else [SetStatus(flat[0], id, status, result)] + Updated(flat[1..], id, status, result)
  }

  lemma {:induction false} UpdatedAppend(a: seq<Info>, b: seq<Info>, id: string, status: Status, result: string)
    ensures Updated(a + b, id, status, result) == Updated(a, id, status, result) + Updated(b, id, status, result)
  {
  }

  lemma {:induction false} WalkWritten(nodes: seq<Node>, id: string, status: Status, result: string)
    ensures Walk(Written(nodes, id, status, result)) == Updated(Walk(nodes), id, status, result)
    decreases nodes, 0
  {
    if nodes != [] {
      WalkWrittenNode(nodes[0], id, status, result);
      WalkWritten(nodes[1..], id, status, result);
      UpdatedAppend(WalkNode(nodes[0]), Walk(nodes[1..]), id, status, result);
    }
  }

  lemma {:induction false} WalkWrittenNode(n: Node, id: string, status: Status, result: string)
    ensures WalkNode(WrittenNode(n, id, status, result)) == Updated(WalkNode(n), id, status, result)
    decreases n, 1
  {
    WalkWritten(n.subSteps, id, status, result);
    UpdatedAppend([InfoOf(n)], Walk(n.subSteps), id, status, result);
  }

  /** Nodes as a walk shows them, without walking below. */
  function Infos(nodes: seq<Node>): (r: seq<Info>)
    ensures |r| == |nodes| && forall k :: 0 <= k < |nodes| ==> r[k] == InfoOf(nodes[k])
  {
    if nodes == [] then [] else [InfoOf(nodes[0])] + Infos(nodes[1..])
  }

  lemma {:induction false} InfosWritten(nodes: seq<Node>, id: string, status: Status, result: string)
    ensures Infos(Written(nodes, id, status, result)) == Updated(Infos(nodes), id, status, result)
  {
    if nodes != [] {
      InfosWritten(nodes[1..], id, status, result);
    }
  }

  /** buildStatusMap: the last node with an id decides. */
  function StatusMap(flat: seq<Info>): map<string, Status> {
    if flat == [] then map[] else StatusMap(flat[..|flat| - 1])[flat[|flat| - 1].id := flat[|flat| - 1].status]
  }

  predicate DepsCompleted(statuses: map<string, Status>, deps: seq<string>) {
    forall k :: 0 <= k < |deps| ==> deps[k] in statuses && statuses[deps[k]] == Completed
  }

  predicate Executable(flat: seq<Info>, i: Info) {
    i.status == Pending && DepsCompleted(StatusMap(flat), i.dependencies)
  }

  /** The executable nodes among the first `n`, in walk order. */
  function ExecutableUpTo(flat: seq<Info>, n: nat): seq<Info>
    requires n <= |flat|
  {
    if n == 0 then []
    else ExecutableUpTo(flat, n - 1) + (if Executable(flat, flat[n - 1]) then [flat[n - 1]] else [])
  }

  function NextExecutable(flat: seq<Info>): seq<Info> {
    ExecutableUpTo(flat, |flat|)
  }

  predicate AllCompleted(flat: seq<Info>) {
    forall k :: 0 <= k < |flat| ==> flat[k].status == Completed
  }

  predicate AnyStatus(flat: seq<Info>, status: Status) {
    exists k :: 0 <= k < |flat| && flat[k].status == status
  }

  predicate Deadlocked(flat: seq<Info>) {
    AnyStatus(flat, Pending) && NextExecutable(flat) == []
  }

  function CompletedCount(nodes: seq<Info>): nat {
    if nodes == [] then 0
    else CompletedCount(nodes[..|nodes| - 1]) + if nodes[|nodes| - 1].status == Completed then 1 else 0
  }

  predicate UniqueIds(flat: seq<Info>) {
    forall i, j :: 0 <= i < j < |flat| ==> flat[i].id != flat[j].id
  }

  predicate HasId(flat: seq<Info>, id: string) {
    exists k :: 0 <= k < |flat| && flat[k].id == id
  }

  /** With unique ids the status map is each node's own status. */
  lemma {:induction false} StatusMapLookup(flat: seq<Info>, id: string)
    requires UniqueIds(flat)
    ensures id in StatusMap(flat) <==> HasId(flat, id)
    ensures forall k :: 0 <= k < |flat| && flat[k].id == id ==> StatusMap(flat)[id] == flat[k].status
  {
    if flat != [] {
      StatusMapLookup(flat[..|flat| - 1], id);
      assert HasId(flat, id) <==> HasId(flat[..|flat| - 1], id) || flat[|flat| - 1].id == id;
    }
  }

  lemma {:induction false} ExecutableMembers(flat: seq<Info>, n: nat)
    requires n <= |flat|
    ensures forall i :: i in ExecutableUpTo(flat, n) <==> exists k :: 0 <= k < n && flat[k] == i && Executable(flat, i)
  {
    if n > 0 {
      ExecutableMembers(flat, n - 1);
    }
  }

  // ---------------------------------------------------------------- the class

  class WBSTree {
    var rootNodes: seq<Node>

    function Flat(): seq<Info>
      reads this
    {
      Walk(rootNodes)
    }

    function Roots(): seq<Info>
      reads this
    {
      Infos(rootNodes)
    }

    constructor (nodes: seq<Node>)
      ensures rootNodes == nodes
    {
      rootNodes := nodes;
    }

    method BuildStatusMap() returns (m: map<string, Status>)
      ensures m == StatusMap(Flat())
    {
      var nodes := Walk(rootNodes);
      m := map[];
      for i := 0 to |nodes|
        invariant m == StatusMap(nodes[..i])
      {
        OneMore(nodes, i);
        m := m[nodes[i].id := nodes[i].status];
      }
      Whole(nodes);
    }

    method NextExecutableNodes() returns (result: seq<Info>)
      ensures result == NextExecutable(Flat())
    {
      var statusMap := BuildStatusMap();
      var nodes := Walk(rootNodes);
      result := [];
      for i := 0 to |nodes|
        invariant result == ExecutableUpTo(nodes, i)
      {
        var node := nodes[i];
        if node.status == Pending {
          var allDepsCompleted := true;
          for k := 0 to |node.dependencies|
            invariant allDepsCompleted <==> DepsCompleted(statusMap, node.dependencies[..k])
          {
            var depID := node.dependencies[k];
            if depID !in statusMap || statusMap[depID] != Completed {
              allDepsCompleted := false;
              assert node.dependencies[..k + 1][k] == depID;
              assert !DepsCompleted(statusMap, node.dependencies);
              break;
            }
          }
          assert allDepsCompleted ==> node.dependencies[..|node.dependencies|] == node.dependencies;
          if allDepsCompleted {
            result := result + [node];
          }
        }
      }
    }

    method IsComplete() returns (complete: bool)
      ensures complete == AllCompleted(Flat())
    {
      var nodes := Walk(rootNodes);
      complete := true;
      for i := 0 to |nodes|
        invariant complete == AllCompleted(nodes[..i])
      {
        assert forall k :: 0 <= k < i ==> nodes[..i + 1][k] == nodes[..i][k];
        if nodes[i].status != Completed {
          complete := false;
          assert nodes[..i + 1][i].status != Completed;
        }
      }
      Whole(nodes);
    }

    method HasStatus(status: Status) returns (found: bool)
      ensures found == AnyStatus(Flat(), status)
    {
      var nodes := Walk(rootNodes);
      found := false;
      for i := 0 to |nodes|
        invariant found == AnyStatus(nodes[..i], status)
      {
        assert forall k :: 0 <= k < i ==> nodes[..i + 1][k] == nodes[..i][k];
        if nodes[i].status == status {
          found := true;
          assert nodes[..i + 1][i].status == status;
        } else if found {
          var k :| 0 <= k < i && nodes[..i][k].status == status;
          assert nodes[..i + 1][k].status == status;
        }
      }
      Whole(nodes);
    }

    method HasFailed() returns (failed: bool)
      ensures failed == AnyStatus(Flat(), Failed)
    {
      failed := HasStatus(Failed);
    }

    method IsDeadlocked() returns (deadlocked: bool)
      ensures deadlocked == Deadlocked(Flat())
    {
      var hasPending := HasStatus(Pending);
      var next := NextExecutableNodes();
      deadlocked := hasPending && |next| == 0;
    }

    method UpdateNodeStatus(nodeID: string, status: Status, resultSummary: string) returns (found: bool)
      modifies this
      ensures Flat() == Updated(old(Flat()), nodeID, status, resultSummary)
      ensures found == HasId(old(Flat()), nodeID)
      ensures Roots() == Updated(old(Roots()), nodeID, status, resultSummary)
    {
      var nodes := Walk(rootNodes);
      found := exists k :: 0 <= k < |nodes| && nodes[k].id == nodeID;
      WalkWritten(rootNodes, nodeID, status, resultSummary);
      InfosWritten(rootNodes, nodeID, status, resultSummary);
      rootNodes := Written(rootNodes, nodeID, status, resultSummary);
    }

    /** Progress counts root nodes only. */
    method Progress() returns (completed: nat, total: nat)
      ensures total == |Roots()| && completed == CompletedCount(Roots())
    {
      completed, total := 0, 0;
      ghost var roots := Roots();
      for i := 0 to |rootNodes|
        invariant total == i && completed == CompletedCount(roots[..i])
      {
        total := total + 1;
        OneMore(roots, i);
        if rootNodes[i].status == Completed {
          completed := completed + 1;
        }
      }
      Whole(roots);
    }
  }
}
