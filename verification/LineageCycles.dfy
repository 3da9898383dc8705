/**
 * The cycle check of an imported file (src/transfer-plan.ts, acyclic): Kahn's algorithm on scratch
 * tables, a page of ready nodes at a time, once for dependencies and once for supersession.
 */
module LineageCycles {
  import opened Graphs
  import opened Options

  type Node = string
  type Edge = (Node, Node)

  /** A `memory` row of the file: its origin, checkpoint parent and superseding memory. */
  datatype MemoryRow = MemoryRow(origin: Node, checkpointParent: Option<Node>, supersededBy: Option<Node>)

  /** A `source` row of the file: the memory it belongs to and the memory it was derived from. */
  datatype SourceRow = SourceRow(memory: Node, sourceMemory: Option<Node>)

  const PAGE := 1000

  function LineageEdges(memories: seq<MemoryRow>, sources: seq<SourceRow>): set<Edge> {
    (set s | s in sources && s.sourceMemory.Some? :: (s.memory, s.sourceMemory.value))
    + (set m | m in memories && m.checkpointParent.Some? :: (m.origin, m.checkpointParent.value))
  }

  function SupersessionEdges(memories: seq<MemoryRow>): set<Edge> {
    set m | m in memories && m.supersededBy.Some? :: (m.origin, m.supersededBy.value)
  }

  // ---------------------------------------------------------------- cycles

  ghost predicate ClosedWalk(edges: set<Edge>, w: seq<Node>) {
    |w| >= 2 && Walk(edges, w) && w[0] == w[|w| - 1]
  }

  ghost predicate HasCycle(edges: set<Edge>) {
    exists w :: ClosedWalk(edges, w)
  }

  // ---------------------------------------------------------------- the scratch tables

  function Into(edges: set<Edge>, n: Node): set<Edge> {
    set e | e in edges && e.1 == n
  }

  function From(edges: set<Edge>, n: Node): set<Edge> {
    set e | e in edges && e.0 == n
  }

  /** `degree` holds, for each node left, how many of the edges left point to it. */
  ghost predicate Counts(edges: set<Edge>, degree: map<Node, int>) {
    forall n :: n in degree ==> degree[n] == |Into(edges, n)|
  }

  /** The edges left are those leaving a node that is left; they point to nodes that are left. */
  ghost predicate Remaining(all: set<Edge>, edges: set<Edge>, degree: map<Node, int>) {
    && (forall e :: e in edges <==> e in all && e.0 in degree)
    && (forall e :: e in edges ==> e.1 in degree)
    && Counts(edges, degree)
  }

  /** No node of a cycle has been removed. */
  ghost predicate CyclesRemain(all: set<Edge>, degree: map<Node, int>) {
    forall w, i :: ClosedWalk(all, w) && 0 <= i < |w| ==> w[i] in degree
  }

  lemma RemoveEdge(edges: set<Edge>, e: Edge, n: Node)
    requires e in edges
    ensures |Into(edges - {e}, n)| == |Into(edges, n)| - if e.1 == n then 1 else 0
  {
    if e.1 == n {
      assert Into(edges - {e}, n) == Into(edges, n) - {e};
    } else {
      assert Into(edges - {e}, n) == Into(edges, n);
    }
  }

  /** A node of a cycle is never ready: the node before it on the cycle still points to it. */
  lemma CycleNodesWait(all: set<Edge>, edges: set<Edge>, degree: map<Node, int>, w: seq<Node>, i: nat)
    requires Remaining(all, edges, degree) && CyclesRemain(all, degree) && ClosedWalk(all, w) && i < |w|
    ensures w[i] in degree && degree[w[i]] >= 1
  {
    var k := if i == 0 then |w| - 2 else i - 1;
    assert w[k] in degree && (w[k], w[k + 1]) in all;
    assert (w[k], w[i]) in Into(edges, w[i]);
  }

  lemma RemovingReadyKeeps(all: set<Edge>, edges: set<Edge>, degree: map<Node, int>, n: Node, after: map<Node, int>)
    requires Remaining(all, edges, degree) && CyclesRemain(all, degree) && n in degree && degree[n] == 0
    requires after.Keys == degree.Keys && Counts(edges - From(edges, n), after)
    ensures Remaining(all, edges - From(edges, n), after - {n}) && CyclesRemain(all, after - {n})
  {
    assert Into(edges, n) == {};
    forall e | e in edges - From(edges, n) ensures e.1 in after - {n} {
      assert e.1 == n ==> e in Into(edges, n);
    }
    forall w, i | ClosedWalk(all, w) && 0 <= i < |w| ensures w[i] in after - {n} {
      CycleNodesWait(all, edges, degree, w, i);
    }
  }

  // ---------------------------------------------------------------- what is left has a cycle

  /** Backwards from a node that is left, through nodes that are left, as far as wanted. */
  lemma {:induction false} BackwardWalk(all: set<Edge>, edges: set<Edge>, degree: map<Node, int>, n: Node,
      length: nat) returns (w: seq<Node>)
    requires Remaining(all, edges, degree) && n in degree && length >= 1
    requires forall m :: m in degree ==> degree[m] != 0
    ensures |w| == length && Walk(all, w) && w[length - 1] == n && forall i :: 0 <= i < length ==> w[i] in degree
  {
    if length == 1 {
      w := [n];
    } else {
      var rest := BackwardWalk(all, edges, degree, n, length - 1);
      var into := Into(edges, rest[0]);
      assert into != {};
      var e :| e in into;
      w := [e.0] + rest;
    }
  }

  lemma {:induction false} Pigeonhole(w: seq<Node>, nodes: set<Node>) returns (i: nat, j: nat)
    requires |w| > |nodes| && forall k :: 0 <= k < |w| ==> w[k] in nodes
    ensures i < j < |w| && w[i] == w[j]
  {
    var last := |w| - 1;
    if k :| 0 <= k < last && w[k] == w[last] {
      return k, last;
    }
    i, j := Pigeonhole(w[..last], nodes - {w[last]});
  }

  lemma StuckMeansCycle(all: set<Edge>, edges: set<Edge>, degree: map<Node, int>)
    requires Remaining(all, edges, degree) && degree != map[]
    requires forall m :: m in degree ==> degree[m] != 0
    ensures HasCycle(all)
  {
    var n :| n in degree;
    var w := BackwardWalk(all, edges, degree, n, |degree.Keys| + 1);
    var i, j := Pigeonhole(w, degree.Keys);
    assert ClosedWalk(all, w[i..j + 1]);
  }

  lemma CycleLeavesNodes(all: set<Edge>, degree: map<Node, int>)
    requires CyclesRemain(all, degree) && HasCycle(all)
    ensures degree != map[]
  {
    var w :| ClosedWalk(all, w);
    assert w[0] in degree;
  }

  // ---------------------------------------------------------------- the loops

  lemma DecrementKeepsCounts(edges: set<Edge>, degree: map<Node, int>, e: Edge)
    requires Counts(edges, degree) && e in edges && e.1 in degree
    ensures Counts(edges - {e}, degree[e.1 := degree[e.1] - 1])
  {
    forall n | n in degree ensures degree[e.1 := degree[e.1] - 1][n] == |Into(edges - {e}, n)| {
      RemoveEdge(edges, e, n);
    }
  }

  /** Every edge leaving the node takes one off its target's count. */
  method DecrementTargets(edges: set<Edge>, degree: map<Node, int>, n: Node) returns (left: map<Node, int>)
    requires Counts(edges, degree) && forall e :: e in edges ==> e.1 in degree
    ensures left.Keys == degree.Keys && Counts(edges - From(edges, n), left)
  {
    left := degree;
    var todo := From(edges, n);
    ghost var counted := edges;
    while todo != {}
      invariant todo <= counted <= edges && counted - todo == edges - From(edges, n)
      invariant left.Keys == degree.Keys && Counts(counted, left)
      decreases todo
    {
      hide Counts;
      var e :| e in todo;
      DecrementKeepsCounts(counted, left, e);
      todo, counted := todo - {e}, counted - {e};
      left := left[e.1 := left[e.1] - 1];
    }
    assert counted == counted - todo;
  }

  /** One ready node: its targets lose an incoming edge, its edges and its row are deleted. */
  method RemoveNode(edges: set<Edge>, degree: map<Node, int>, n: Node, ghost all: set<Edge>)
      returns (edgesLeft: set<Edge>, degreeLeft: map<Node, int>)
    requires Remaining(all, edges, degree) && CyclesRemain(all, degree) && n in degree && degree[n] == 0
    ensures Remaining(all, edgesLeft, degreeLeft) && CyclesRemain(all, degreeLeft)
    ensures edgesLeft == edges - From(edges, n) && degreeLeft.Keys == degree.Keys - {n}
  {
    degreeLeft := DecrementTargets(edges, degree, n);
    RemovingReadyKeeps(all, edges, degree, n, degreeLeft);
    hide Remaining, CyclesRemain, Counts;
    edgesLeft := edges - From(edges, n);
    degreeLeft := degreeLeft - {n};
  }

  ghost predicate Ready(degree: map<Node, int>, page: set<Node>) {
    forall n :: n in page ==> n in degree && degree[n] == 0
  }

  /** Removing one ready node leaves the others ready: nothing points to them any more. */
  lemma OthersStayReady(all: set<Edge>, edges: set<Edge>, degree: map<Node, int>, page: set<Node>,
      edgesLeft: set<Edge>, degreeLeft: map<Node, int>, n: Node)
    requires Remaining(all, edges, degree) && Remaining(all, edgesLeft, degreeLeft) && Ready(degree, page)
    requires edgesLeft <= edges && degreeLeft.Keys == degree.Keys - {n}
    ensures Ready(degreeLeft, page - {n})
  {
    forall m | m in page - {n} ensures m in degreeLeft && degreeLeft[m] == 0 {
      assert Into(edges, m) == {};
      assert Into(edgesLeft, m) <= Into(edges, m);
    }
  }

  method RemovePage(edges: set<Edge>, degree: map<Node, int>, page: set<Node>, ghost all: set<Edge>)
      returns (edgesLeft: set<Edge>, degreeLeft: map<Node, int>)
    requires Remaining(all, edges, degree) && CyclesRemain(all, degree) && Ready(degree, page)
    ensures Remaining(all, edgesLeft, degreeLeft) && CyclesRemain(all, degreeLeft)
    ensures degreeLeft.Keys == degree.Keys - page
  {
    edgesLeft, degreeLeft := edges, degree;
    var todo := page;
    while todo != {}
      invariant todo <= page && degreeLeft.Keys == degree.Keys - (page - todo)
      invariant Remaining(all, edgesLeft, degreeLeft) && CyclesRemain(all, degreeLeft) && Ready(degreeLeft, todo)
      decreases todo
    {
      hide Remaining, CyclesRemain;
      var n :| n in todo;
      ghost var edgesBefore, degreeBefore := edgesLeft, degreeLeft;
      edgesLeft, degreeLeft := RemoveNode(edgesLeft, degreeLeft, n, all);
      OthersStayReady(all, edgesBefore, degreeBefore, todo, edgesLeft, degreeLeft, n);
      todo := todo - {n};
    }
  }

  function Degrees(edges: set<Edge>): map<Node, int> {
    map n | n in Endpoints(edges) :: |Into(edges, n)|
  }

  lemma AllRemainsAtStart(edges: set<Edge>)
    ensures Remaining(edges, edges, Degrees(edges)) && CyclesRemain(edges, Degrees(edges))
  {
    forall w, i | ClosedWalk(edges, w) && 0 <= i < |w| ensures w[i] in Degrees(edges) {
      var k := if i == |w| - 1 then i - 1 else i;
      assert (w[k], w[k + 1]) in edges;
    }
  }

  function ReadyNodes(degree: map<Node, int>): set<Node> {
    set n | n in degree && degree[n] == 0
  }

  /** Any page of ready nodes may be taken, as long as it is not empty when some node is ready. */
  lemma PageExists(ready: set<Node>)
    requires ready != {}
    ensures exists page :: page <= ready && page != {} && |page| <= PAGE
  {
    var n :| n in ready;
    assert {n} <= ready && |{n}| <= PAGE;
  }

  /** Accepts a relation exactly when it has no directed cycle, whatever pages the ready nodes come in. */
  method CheckRelation(relation: set<Edge>) returns (accepted: bool)
    ensures accepted <==> !HasCycle(relation)
  {
    var edges, degree := relation, Degrees(relation);
    AllRemainsAtStart(relation);
    while ReadyNodes(degree) != {}
      invariant Remaining(relation, edges, degree) && CyclesRemain(relation, degree)
      decreases degree.Keys
    {
      hide Remaining, CyclesRemain;
      PageExists(ReadyNodes(degree));
      var page :| page <= ReadyNodes(degree) && page != {} && |page| <= PAGE;
      edges, degree := RemovePage(edges, degree, page, relation);
    }
    hide Remaining, CyclesRemain, HasCycle;
    if HasCycle(relation) {
      CycleLeavesNodes(relation, degree);
    }
    accepted := degree == map[];
    if !accepted {
      assert forall m :: m in degree ==> m !in ReadyNodes(degree);
      StuckMeansCycle(relation, edges, degree);
    }
  }

  // ---------------------------------------------------------------- the file's rows

  /** A row of the file says that `child` depends on `parent`: as its checkpoint, or as a source. */
  ghost predicate DependsOn(memories: seq<MemoryRow>, sources: seq<SourceRow>, child: Node, parent: Node) {
    || (exists m :: m in memories && m.origin == child && m.checkpointParent == Some(parent))
    || (exists s :: s in sources && s.memory == child && s.sourceMemory == Some(parent))
  }

  /** A row of the file says that `newer` replaces `older`. */
  ghost predicate Supersedes(memories: seq<MemoryRow>, older: Node, newer: Node) {
    exists m :: m in memories && m.origin == older && m.supersededBy == Some(newer)
  }

  ghost predicate DependencyCycle(memories: seq<MemoryRow>, sources: seq<SourceRow>, w: seq<Node>) {
    |w| >= 2 && w[0] == w[|w| - 1] && forall i :: 0 <= i < |w| - 1 ==> DependsOn(memories, sources, w[i], w[i + 1])
  }

  ghost predicate SupersessionCycle(memories: seq<MemoryRow>, w: seq<Node>) {
    |w| >= 2 && w[0] == w[|w| - 1] && forall i :: 0 <= i < |w| - 1 ==> Supersedes(memories, w[i], w[i + 1])
  }

  lemma EdgesAreRows(memories: seq<MemoryRow>, sources: seq<SourceRow>)
    ensures forall a, b :: (a, b) in LineageEdges(memories, sources) <==> DependsOn(memories, sources, a, b)
    ensures forall a, b :: (a, b) in SupersessionEdges(memories) <==> Supersedes(memories, a, b)
  {
  }

  lemma CyclesAreRows(memories: seq<MemoryRow>, sources: seq<SourceRow>)
    ensures HasCycle(LineageEdges(memories, sources)) <==> exists w :: DependencyCycle(memories, sources, w)
    ensures HasCycle(SupersessionEdges(memories)) <==> exists w :: SupersessionCycle(memories, w)
  {
    EdgesAreRows(memories, sources);
    hide LineageEdges, SupersessionEdges, DependsOn, Supersedes;
    assert forall w :: ClosedWalk(LineageEdges(memories, sources), w) <==> DependencyCycle(memories, sources, w);
    assert forall w :: ClosedWalk(SupersessionEdges(memories), w) <==> SupersessionCycle(memories, w);
  }

  /** The file is refused exactly for a cycle of dependencies or a cycle of supersession among its rows. */
  method Acyclic(memories: seq<MemoryRow>, sources: seq<SourceRow>) returns (accepted: bool)
    ensures accepted <==> !(exists w :: DependencyCycle(memories, sources, w)) && !(exists w :: SupersessionCycle(memories, w))
  {
    CyclesAreRows(memories, sources);
    hide HasCycle, DependencyCycle, SupersessionCycle, LineageEdges, SupersessionEdges;
    accepted := CheckRelation(LineageEdges(memories, sources));
    if accepted {
      accepted := CheckRelation(SupersessionEdges(memories));
    }
  }

  const MIXED := [MemoryRow("a", Some("b"), None), MemoryRow("b", None, Some("a"))]

  /** The relations are checked one by one: a depends on b, which a supersedes, and the file is accepted. */
  lemma MixedCycleIsAccepted()
    ensures DependsOn(MIXED, [], "a", "b") && Supersedes(MIXED, "b", "a")
    ensures !(exists w :: DependencyCycle(MIXED, [], w)) && !(exists w :: SupersessionCycle(MIXED, w))
  {
    assert MIXED[0] in MIXED && MIXED[1] in MIXED;
    hide DependsOn, Supersedes;
    forall w: seq<Node> | |w| >= 2 ensures !DependencyCycle(MIXED, [], w) && !SupersessionCycle(MIXED, w) {
      if forall i :: 0 <= i < |w| - 1 ==> DependsOn(MIXED, [], w[i], w[i + 1]) {
        DependenciesRunFromAToB(w);
      }
      if forall i :: 0 <= i < |w| - 1 ==> Supersedes(MIXED, w[i], w[i + 1]) {
        SupersessionRunsFromBToA(w);
      }
    }
  }

  lemma DependenciesRunFromAToB(w: seq<Node>)
    requires |w| >= 2 && forall i :: 0 <= i < |w| - 1 ==> DependsOn(MIXED, [], w[i], w[i + 1])
    ensures w[0] == "a" && w[|w| - 1] == "b"
  {
    assert DependsOn(MIXED, [], w[0], w[1]) && DependsOn(MIXED, [], w[|w| - 2], w[|w| - 1]);
  }

  lemma SupersessionRunsFromBToA(w: seq<Node>)
    requires |w| >= 2 && forall i :: 0 <= i < |w| - 1 ==> Supersedes(MIXED, w[i], w[i + 1])
    ensures w[0] == "b" && w[|w| - 1] == "a"
  {
    assert Supersedes(MIXED, w[0], w[1]) && Supersedes(MIXED, w[|w| - 2], w[|w| - 1]);
  }
}
