/** The traversal engine's shortest path and cycle audit (core/traversal.py). */
module Traversal {
  import opened Graph
  import opened Walks

  // ----- how -----

  /** `how` returns a list of steps, returns None, or fails on a path node with no stored row. */
  datatype PathResult = Found(steps: seq<NodeId>) | NoPath | NodeMissing

  ghost predicate Shortest(es: set<Edge>, a: NodeId, b: NodeId, p: seq<NodeId>) {
    Walk(es, a, b, p) && forall w :: Walk(es, a, b, w) ==> |p| <= |w|
  }

  lemma WalkNodesAreEndpoints(es: set<Edge>, a: NodeId, b: NodeId, p: seq<NodeId>)
    requires Walk(es, a, b, p) && |p| > 1
    ensures forall n :: n in p ==> n in Endpoints(es)
  {
    forall n | n in p ensures n in Endpoints(es) {
      var i :| 0 <= i < |p| && p[i] == n;
      if i + 1 < |p| {
        assert Linked(es, p[i], p[i + 1]);
        LinkedAreEndpoints(es, p[i + 1], p[i]);
      } else {
        assert Linked(es, p[i - 1], p[i]);
        LinkedAreEndpoints(es, p[i - 1], p[i]);
      }
    }
  }

  method LoadSteps(stored: set<NodeId>, path: seq<NodeId>) returns (r: PathResult)
    ensures r == if forall n :: n in path ==> n in stored then Found(path) else NodeMissing
  {
    var steps: seq<NodeId> := [];
    for i := 0 to |path|
      invariant steps == path[..i]
      invariant forall n :: n in path[..i] ==> n in stored
    {
      if path[i] !in stored {
        return NodeMissing;
      }
      steps := steps + [path[i]];
    }
    assert path[..|path|] == path;
    r := Found(steps);
  }

  /** The inner loop: the popped node's neighbours, in an arbitrary order. */
  method MeetNeighbours(es: set<Edge>, ghost a: NodeId, b: NodeId, head: Visit, queue: seq<Visit>,
                        visited: set<NodeId>, ghost paths: map<NodeId, seq<NodeId>>)
    returns (met: bool, queue': seq<Visit>, visited': set<NodeId>, ghost paths': map<NodeId, seq<NodeId>>)
    requires Expanding(es, a, None, head, queue, paths, Neighbours(es, head.node))
    requires paths.Keys == visited && b !in visited
    ensures met ==> Linked(es, head.node, b)
    ensures !met ==> Frontier(es, a, None, queue', paths') && paths'.Keys == visited' && b !in visited'
    ensures visited <= visited' <= visited + Endpoints(es)
    ensures visited' == visited ==> queue' == queue
  {
    met, queue', visited', paths' := false, queue, visited, paths;
    var rest := Neighbours(es, head.node);
    while rest != {}
      invariant Expanding(es, a, None, head, queue', paths', rest)
      invariant paths'.Keys == visited' && b !in visited'
      invariant visited <= visited' <= visited + Endpoints(es)
      invariant visited' == visited ==> queue' == queue
      decreases rest
    {
      var next :| next in rest;
      if next == b {
        met := true;
        return;
      }
      if next !in visited' {
        ExpandingReaches(es, a, None, head, queue', paths', rest, next);
        LinkedAreEndpoints(es, head.node, next);
        visited' := visited' + {next};
        paths' := paths'[next := head.path + [next]];
        queue' := queue' + [Visit(next, head.path + [next])];
      } else {
        ExpandingSkips(es, a, None, head, queue', paths', rest, next);
      }
      rest := rest - {next};
    }
    ExpandingEnds(es, a, None, head, queue', paths');
  }

  /** Breadth-first search along edges in both directions. */
  method FindPath(es: set<Edge>, a: NodeId, b: NodeId) returns (r: Option<seq<NodeId>>)
    requires a != b
    ensures r.None? <==> !exists w :: Walk(es, a, b, w)
    ensures r.Some? ==> Shortest(es, a, b, r.value)
  {
    hide Frontier, Expanding;
    var queue := [Visit(a, [a])];
    var visited := {a};
    ghost var paths := map[a := [a]];
    FrontierStarts(es, a, None);
    while queue != []
      invariant Frontier(es, a, None, queue, paths)
      invariant paths.Keys == visited && b !in visited
      decreases Endpoints(es) - visited, |queue|
    {
      var head := queue[0];
      FrontierHead(es, a, None, queue, paths);
      FirstMeetingIsShortest(es, a, None, queue, paths, b);
      ExpandingBegins(es, a, None, queue, paths);
      var met;
      ghost var before := visited;
      met, queue, visited, paths := MeetNeighbours(es, a, b, head, queue[1..], visited, paths);
      if met {
        ExtendWalk(es, a, head.node, head.path, b);
        return Some(head.path + [b]);
      }
    }
    FrontierExhausted(es, a, None, paths);
    r := None;
  }

  /** Shortest path, then one stored row per step. */
  method How(stored: set<NodeId>, es: set<Edge>, a: NodeId, b: NodeId) returns (r: PathResult)
    ensures a == b ==> r == if a in stored then Found([a]) else NoPath
    ensures a != b ==> (r.NoPath? <==> !exists w :: Walk(es, a, b, w))
    ensures a != b && r.Found? ==> Shortest(es, a, b, r.steps) && forall n :: n in r.steps ==> n in stored
    ensures r.NodeMissing? ==> exists p :: Shortest(es, a, b, p) && exists n :: n in p && n !in stored
    ensures Endpoints(es) <= stored ==> !r.NodeMissing?
  {
    if a == b {
      return if a in stored then Found([a]) else NoPath;
    }
    var path := FindPath(es, a, b);
    if path.None? {
      return NoPath;
    }
    WalkNodesAreEndpoints(es, a, b, path.value);
    r := LoadSteps(stored, path.value);
  }

  // ----- audit: cycle detection -----

  type Adjacency = map<NodeId, seq<NodeId>>

  predicate Arc(adj: Adjacency, u: NodeId, v: NodeId) {
    u in adj && v in adj[u]
  }

  /** A directed walk. */
  ghost predicate Trail(adj: Adjacency, w: seq<NodeId>) {
    w != [] && forall i :: 0 <= i < |w| - 1 ==> Arc(adj, w[i], w[i + 1])
  }

  /** A closed walk along edges. */
  ghost predicate Cycle(adj: Adjacency, c: seq<NodeId>) {
    |c| >= 2 && c[0] == c[|c| - 1] && Trail(adj, c)
  }

  ghost predicate SimpleCycle(adj: Adjacency, c: seq<NodeId>) {
    Cycle(adj, c) && NoRepeats(c[..|c| - 1])
  }

  ghost predicate Reachable(adj: Adjacency, roots: seq<NodeId>, v: NodeId) {
    exists w :: Trail(adj, w) && w[0] in roots && w[|w| - 1] == v
  }

  /** The back edge that closed a reported list. */
  function Closing(c: seq<NodeId>): (e: Option<Edge>) {
    if |c| >= 2 then Some((c[|c| - 2], c[|c| - 1])) else None
  }

  predicate Closed(cycles: seq<seq<NodeId>>, e: Edge) {
    exists i :: 0 <= i < |cycles| && Closing(cycles[i]) == Some(e)
  }

  /** Every edge of a finished node leads to a node finished earlier, or closed a report. */
  ghost predicate Ordered(adj: Adjacency, finished: seq<NodeId>, cycles: seq<seq<NodeId>>) {
    forall i, v :: 0 <= i < |finished| && Arc(adj, finished[i], v) ==>
      v in finished[..i] || Closed(cycles, (finished[i], v))
  }

  /** The walk uses no edge that closed a report. */
  ghost predicate Clear(w: seq<NodeId>, cycles: seq<seq<NodeId>>) {
    forall i :: 0 <= i < |w| - 1 ==> !Closed(cycles, (w[i], w[i + 1]))
  }

  lemma {:induction false} OrderedTrail(adj: Adjacency, finished: seq<NodeId>, cycles: seq<seq<NodeId>>,
                                        i: nat, w: seq<NodeId>, k: nat)
    requires Ordered(adj, finished, cycles) && i < |finished|
    requires Trail(adj, w) && Clear(w, cycles) && w[0] == finished[i] && 0 < k < |w|
    ensures w[k] in finished[..i]
    decreases k
  {
    hide Closed;
    assert Arc(adj, w[k - 1], w[k]);
    if k > 1 {
      OrderedTrail(adj, finished, cycles, i, w, k - 1);
      var j :| 0 <= j < i && finished[j] == w[k - 1];
      assert w[k] in finished[..j];
    }
  }

  /** No cycle through a finished node avoids every edge that closed a report. */
  lemma {:induction false} OrderedHasNoCycle(adj: Adjacency, finished: seq<NodeId>, cycles: seq<seq<NodeId>>,
                                             i: nat, c: seq<NodeId>)
    requires Ordered(adj, finished, cycles) && i < |finished|
    requires Cycle(adj, c) && Clear(c, cycles) && c[0] == finished[i]
    ensures false
    decreases i
  {
    OrderedTrail(adj, finished, cycles, i, c, |c| - 1);
    var j :| 0 <= j < i && finished[j] == c[0];
    OrderedHasNoCycle(adj, finished, cycles, j, c);
  }

  /** Nothing leads out of the finished nodes. */
  ghost predicate LeadsInto(adj: Adjacency, finished: seq<NodeId>, visited: set<NodeId>) {
    forall u, v :: u in finished && Arc(adj, u, v) ==> v in visited
  }

  lemma {:induction false} FinishedIsClosed(adj: Adjacency, finished: seq<NodeId>, w: seq<NodeId>)
    requires LeadsInto(adj, finished, set n | n in finished) && Trail(adj, w) && w[0] in finished
    ensures w[|w| - 1] in finished
  {
    if |w| > 1 {
      FinishedIsClosed(adj, finished, w[..|w| - 1]);
      assert Arc(adj, w[|w| - 2], w[|w| - 1]);
    }
  }

  /** When everything is finished, every reachable cycle uses an edge that closed a report. */
  lemma ReachableCyclesAreCut(adj: Adjacency, finished: seq<NodeId>, cycles: seq<seq<NodeId>>, roots: seq<NodeId>)
    requires Ordered(adj, finished, cycles) && LeadsInto(adj, finished, set n | n in finished)
    requires forall k :: 0 <= k < |roots| ==> roots[k] in finished
    ensures forall c :: Cycle(adj, c) && Reachable(adj, roots, c[0]) ==> !Clear(c, cycles)
  {
    forall c | Cycle(adj, c) && Reachable(adj, roots, c[0]) ensures !Clear(c, cycles) {
      var w :| Trail(adj, w) && w[0] in roots && w[|w| - 1] == c[0];
      FinishedIsClosed(adj, finished, w);
      var i :| 0 <= i < |finished| && finished[i] == c[0];
      if Clear(c, cycles) {
        OrderedHasNoCycle(adj, finished, cycles, i, c);
      }
    }
  }

  lemma BackEdgeClosesCycle(adj: Adjacency, path: seq<NodeId>, start: nat, node: NodeId)
    requires Trail(adj, path) && NoRepeats(path) && start < |path| && path[start] == node
    requires Arc(adj, path[|path| - 1], node)
    ensures SimpleCycle(adj, path[start..] + [node])
  {
    var c := path[start..] + [node];
    forall i | 0 <= i < |c| - 1 ensures Arc(adj, c[i], c[i + 1]) {
      assert c[i] == path[start + i];
      if i < |c| - 2 {
        assert c[i + 1] == path[start + i + 1];
      }
    }
    assert c[..|c| - 1] == path[start..];
  }

  lemma FinishedLast(adj: Adjacency, finished: seq<NodeId>, cycles: seq<seq<NodeId>>, node: NodeId)
    requires Ordered(adj, finished, cycles)
    requires forall v :: Arc(adj, node, v) ==> v in finished || Closed(cycles, (node, v))
    ensures Ordered(adj, finished + [node], cycles)
  {
    hide Closed;
    var f := finished + [node];
    forall i, v | 0 <= i < |f| && Arc(adj, f[i], v) ensures v in f[..i] || Closed(cycles, (f[i], v)) {
      assert f[..i] == finished[..i];
      assert finished[..|finished|] == finished;
    }
  }

  lemma MoreReports(adj: Adjacency, finished: seq<NodeId>, cycles: seq<seq<NodeId>>, more: seq<seq<NodeId>>)
    requires cycles <= more
    ensures forall e :: Closed(cycles, e) ==> Closed(more, e)
    ensures Ordered(adj, finished, cycles) ==> Ordered(adj, finished, more)
  {
    forall e | Closed(cycles, e) ensures Closed(more, e) {
      var i :| 0 <= i < |cycles| && Closing(cycles[i]) == Some(e);
      assert more[i] == cycles[i];
    }
  }

  /** No two reports were closed by one edge. */
  ghost predicate Distinct(cycles: seq<seq<NodeId>>) {
    forall i, j :: 0 <= i < j < |cycles| ==> Closing(cycles[i]) != Closing(cycles[j])
  }

  /** Every report was closed by an edge out of a visited node. */
  ghost predicate ClosedWithin(cycles: seq<seq<NodeId>>, visited: set<NodeId>) {
    forall i :: 0 <= i < |cycles| ==> Closing(cycles[i]).Some? && Closing(cycles[i]).value.0 in visited
  }

  /** So no edge out of a node not yet visited has closed one. */
  lemma FreshIsOpen(adj: Adjacency, cycles: seq<seq<NodeId>>, visited: set<NodeId>, node: NodeId)
    requires ClosedWithin(cycles, visited) && node !in visited
    ensures OpenFrom(adj, cycles, node, 0)
  {
    assert forall v :: !Closed(cycles, (node, v));
  }

  lemma TrailGrows(adj: Adjacency, path: seq<NodeId>, node: NodeId)
    requires path != [] ==> Trail(adj, path) && Arc(adj, path[|path| - 1], node)
    ensures Trail(adj, path + [node])
  {
  }

  /** A node whose children are all done can be finished. */
  lemma FinishNode(adj: Adjacency, finished: seq<NodeId>, cycles: seq<seq<NodeId>>, visited: set<NodeId>, node: NodeId)
    requires Ordered(adj, finished, cycles) && LeadsInto(adj, finished, visited)
    requires node in adj ==> forall k :: 0 <= k < |adj[node]| ==>
      adj[node][k] in visited && (adj[node][k] in finished || Closed(cycles, (node, adj[node][k])))
    ensures Ordered(adj, finished + [node], cycles) && LeadsInto(adj, finished + [node], visited)
  {
    forall v | Arc(adj, node, v) ensures v in visited && (v in finished || Closed(cycles, (node, v))) {
      var k :| 0 <= k < |adj[node]| && adj[node][k] == v;
    }
    FinishedLast(adj, finished, cycles, node);
    FinishingLeads(adj, finished, visited, node);
  }

  /** `path` is a chain from a root, on the recursion stack; the other visited
      nodes are finished. */
  ghost predicate OnStack(adj: Adjacency, roots: seq<NodeId>, path: seq<NodeId>, recStack: set<NodeId>,
                          visited: set<NodeId>, finished: seq<NodeId>)
  {
    && recStack == (set n | n in path)
    && NoRepeats(path)
    && (path != [] ==> Trail(adj, path) && path[0] in roots)
    && visited == recStack + (set n | n in finished)
    && recStack !! (set n | n in finished)
  }

  lemma EnterNode(adj: Adjacency, roots: seq<NodeId>, path: seq<NodeId>, recStack: set<NodeId>,
                  visited: set<NodeId>, finished: seq<NodeId>, node: NodeId)
    requires OnStack(adj, roots, path, recStack, visited, finished) && node !in visited
    requires if path == [] then node in roots else Arc(adj, path[|path| - 1], node)
    ensures OnStack(adj, roots, path + [node], recStack + {node}, visited + {node}, finished)
  {
    TrailGrows(adj, path, node);
    hide Trail;
  }

  lemma LeaveNode(adj: Adjacency, roots: seq<NodeId>, path: seq<NodeId>, recStack: set<NodeId>,
                  visited: set<NodeId>, finished: seq<NodeId>, node: NodeId)
    requires OnStack(adj, roots, path + [node], recStack, visited, finished)
    requires path != [] ==> Trail(adj, path)
    ensures OnStack(adj, roots, path, recStack - {node}, visited, finished + [node])
    ensures recStack - {node} == set n | n in path
  {
    hide Trail;
    var long := path + [node];
    assert forall i :: 0 <= i < |path| ==> path[i] == long[i];
    assert long[|path|] == node && node !in path;
  }

  lemma StackMeans(adj: Adjacency, roots: seq<NodeId>, path: seq<NodeId>, recStack: set<NodeId>,
                   visited: set<NodeId>, finished: seq<NodeId>, node: NodeId)
    requires OnStack(adj, roots, path, recStack, visited, finished)
    ensures recStack == set n | n in path
    ensures node in recStack ==> node in path && node in visited
    ensures node in visited && node !in recStack ==> node in finished
    ensures path != [] ==> Trail(adj, path)
  {
  }

  lemma StillToClose(adj: Adjacency, cycles: seq<seq<NodeId>>, node: NodeId, i: nat)
    requires OpenFrom(adj, cycles, node, i) && node in adj && i < |adj[node]|
    ensures NoParallelArcs(adj) ==> !Closed(cycles, (node, adj[node][i]))
  {
  }

  lemma OneNewReport(cycles: seq<seq<NodeId>>, known: set<NodeId>, e: Edge)
    requires cycles != [] && Closing(cycles[|cycles| - 1]) == Some(e)
    ensures NewReports(cycles, |cycles| - 1, known, Some(e))
  {
  }

  lemma NewReportsMeans(cycles: seq<seq<NodeId>>, before: nat, known: set<NodeId>, last: Option<Edge>)
    requires NewReports(cycles, before, known, None)
    ensures NewReports(cycles, before, known, last)
  {
  }

  lemma VisitingMore(adj: Adjacency, finished: seq<NodeId>, cycles: seq<seq<NodeId>>, v: set<NodeId>, v': set<NodeId>)
    requires LeadsInto(adj, finished, v) && ClosedWithin(cycles, v) && v <= v'
    ensures LeadsInto(adj, finished, v') && ClosedWithin(cycles, v')
  {
  }

  lemma FinishingLeads(adj: Adjacency, finished: seq<NodeId>, visited: set<NodeId>, node: NodeId)
    requires LeadsInto(adj, finished, visited) && forall v :: Arc(adj, node, v) ==> v in visited
    ensures LeadsInto(adj, finished + [node], visited)
  {
  }

  /** The reports after the first `before` were closed by edges out of nodes not
      in `known`, or by the edge `last`, and that only once. */
  ghost predicate NewReports(cycles: seq<seq<NodeId>>, before: nat, known: set<NodeId>, last: Option<Edge>) {
    && before <= |cycles|
    && forall i :: before <= i < |cycles| ==>
         && Closing(cycles[i]).Some?
         && (Closing(cycles[i]).value.0 !in known || (i == before && last == Closing(cycles[i])))
  }

  lemma NothingNew(cycles: seq<seq<NodeId>>, known: set<NodeId>, last: Option<Edge>)
    ensures NewReports(cycles, |cycles|, known, last)
  {
  }

  /** One more child: its reports come after those of the children before it. */
  lemma ReportsAdd(first: nat, known: set<NodeId>, cycles: seq<seq<NodeId>>, known': set<NodeId>,
                   cycles': seq<seq<NodeId>>, node: NodeId, child: NodeId)
    requires NewReports(cycles, first, known, None) && cycles <= cycles' && known <= known' && node !in known
    requires NewReports(cycles', |cycles|, known', Some((node, child)))
    ensures NewReports(cycles', first, known, None)
  {
    forall i | first <= i < |cycles'|
      ensures Closing(cycles'[i]).Some? && Closing(cycles'[i]).value.0 !in known
    {
      if i < |cycles| {
        assert cycles'[i] == cycles[i];
      }
    }
  }

  /** A search under one child closes no report by the edge to another. */
  lemma StillOpen(cycles: seq<seq<NodeId>>, known: set<NodeId>, cycles': seq<seq<NodeId>>,
                  node: NodeId, child: NodeId, other: NodeId)
    requires cycles <= cycles' && NewReports(cycles', |cycles|, known, Some((node, child)))
    requires node in known && child != other && !Closed(cycles, (node, other))
    ensures !Closed(cycles', (node, other))
  {
    forall i | 0 <= i < |cycles'| ensures Closing(cycles'[i]) != Some((node, other)) {
      if i < |cycles| {
        assert cycles[i] == cycles'[i];
      }
    }
  }

  /** Before and after the children: which edges out of `node` may have closed a report. */
  ghost predicate OpenFrom(adj: Adjacency, cycles: seq<seq<NodeId>>, node: NodeId, i: nat) {
    NoParallelArcs(adj) && node in adj ==> forall k :: i <= k < |adj[node]| ==> !Closed(cycles, (node, adj[node][k]))
  }

  lemma OpenNext(adj: Adjacency, cycles: seq<seq<NodeId>>, known: set<NodeId>, cycles': seq<seq<NodeId>>,
                 node: NodeId, i: nat)
    requires node in adj && i < |adj[node]| && OpenFrom(adj, cycles, node, i) && node in known
    requires cycles <= cycles' && NewReports(cycles', |cycles|, known, Some((node, adj[node][i])))
    ensures OpenFrom(adj, cycles', node, i + 1)
  {
    if NoParallelArcs(adj) {
      forall k | i + 1 <= k < |adj[node]| ensures !Closed(cycles', (node, adj[node][k])) {
        StillOpen(cycles, known, cycles', node, adj[node][i], adj[node][k]);
      }
    }
  }

  ghost predicate NoParallelArcs(adj: Adjacency) {
    forall u :: u in adj ==> NoRepeats(adj[u])
  }

  method IndexOf(path: seq<NodeId>, node: NodeId) returns (k: nat)
    requires node in path
    ensures k < |path| && path[k] == node && node !in path[..k]
  {
    k := 0;
    while path[k] != node
      invariant k < |path| && node !in path[..k]
      decreases |path| - k
    {
      k := k + 1;
    }
  }

  function Heads(adj: Adjacency): (r: set<NodeId>) {
    set u, v | u in adj && v in adj[u] :: v
  }

  method BuildGraph(edges: seq<Edge>) returns (adj: Adjacency)
    ensures forall u, v :: Arc(adj, u, v) <==> (u, v) in edges
    ensures NoRepeats(edges) ==> NoParallelArcs(adj)
  {
    adj := map[];
    for i := 0 to |edges|
      invariant forall u, v :: Arc(adj, u, v) <==> (u, v) in edges[..i]
      invariant NoRepeats(edges) ==> NoParallelArcs(adj)
    {
      var (parent, child) := edges[i];
      var old_ := if parent in adj then adj[parent] else [];
      assert edges[..i + 1] == edges[..i] + [edges[i]];
      assert NoRepeats(edges) ==> edges[i] !in edges[..i];
      assert NoRepeats(edges) ==> child !in old_ by {
        assert Arc(adj, parent, child) ==> edges[i] in edges[..i];
      }
      adj := adj[parent := old_ + [child]];
    }
    assert edges[..|edges|] == edges;
  }

  /** The closure variables of `audit`: visited, rec_stack and cycles. */
  class CycleAudit {
    const adj: Adjacency
    ghost const roots: seq<NodeId>
    var visited: set<NodeId>
    var recStack: set<NodeId>
    var cycles: seq<seq<NodeId>>
    ghost var finished: seq<NodeId>

    constructor (adj: Adjacency, ghost roots: seq<NodeId>)
      ensures this.adj == adj && this.roots == roots
      ensures Valid([]) && cycles == [] && visited == {}
    {
      this.adj, this.roots := adj, roots;
      visited, recStack, cycles, finished := {}, {}, [], [];
    }

    /** `path` is the chain of nodes being explored. */
    ghost predicate Valid(path: seq<NodeId>)
      reads this
    {
      && OnStack(adj, roots, path, recStack, visited, finished)
      && Ordered(adj, finished, cycles) && LeadsInto(adj, finished, visited)
      && (forall i :: 0 <= i < |cycles| ==> SimpleCycle(adj, cycles[i]) && Reachable(adj, roots, cycles[i][0]))
      && ClosedWithin(cycles, visited)
      && (NoParallelArcs(adj) ==> Distinct(cycles))
    }

    ghost function Universe(): set<NodeId>
      reads this
    {
      Heads(adj) + (set r | r in roots)
    }

    method ReportCycle(node: NodeId, path: seq<NodeId>)
      requires Valid(path) && node in path && Arc(adj, path[|path| - 1], node)
      requires NoParallelArcs(adj) ==> !Closed(cycles, (path[|path| - 1], node))
      modifies `cycles
      ensures Valid(path) && |cycles| == |old(cycles)| + 1 && old(cycles) <= cycles
      ensures Closing(cycles[|cycles| - 1]) == Some((path[|path| - 1], node))
      ensures Closed(cycles, (path[|path| - 1], node))
    {
      var start := IndexOf(path, node);
      BackEdgeClosesCycle(adj, path, start, node);
      var stem := path[..start + 1];
      assert Trail(adj, stem) && stem[0] in roots && stem[|stem| - 1] == node;
      ghost var before := cycles;
      cycles := cycles + [path[start..] + [node]];
      MoreReports(adj, finished, before, cycles);
    }

    method DfsCycle(node: NodeId, path: seq<NodeId>)
      requires Valid(path)
      requires if path == [] then node in roots else Arc(adj, path[|path| - 1], node)
      requires NoParallelArcs(adj) && path != [] ==> !Closed(cycles, (path[|path| - 1], node))
      modifies `visited, `recStack, `cycles, `finished
      ensures Valid(path)
      ensures recStack == old(recStack) && old(visited) <= visited && node in visited
      ensures old(cycles) <= cycles && old(finished) <= finished
      ensures node in finished || (path != [] && Closed(cycles, (path[|path| - 1], node)))
      ensures NewReports(cycles, |old(cycles)|, old(visited),
                         if path == [] then None else Some((path[|path| - 1], node)))
      decreases Universe() - visited
    {
      hide SimpleCycle, Reachable, Ordered, LeadsInto, Distinct, ClosedWithin, Closed, NoParallelArcs, Closing;
      hide NewReports, OpenFrom, Trail, OnStack;
      StackMeans(adj, roots, path, recStack, visited, finished, node);
      if node in recStack {
        ReportCycle(node, path);
        OneNewReport(cycles, visited, (path[|path| - 1], node));
        return;
      }
      NothingNew(cycles, visited, if path == [] then None else Some((path[|path| - 1], node)));
      if node in visited {
        return;
      }
      FreshIsOpen(adj, cycles, visited, node);
      NothingNew(cycles, visited, None);
      VisitingMore(adj, finished, cycles, visited, visited + {node});
      EnterNode(adj, roots, path, recStack, visited, finished, node);
      visited := visited + {node};
      recStack := recStack + {node};
      var children := if node in adj then adj[node] else [];
      for i := 0 to |children|
        invariant Valid(path + [node])
        invariant old(visited) + {node} <= visited && old(cycles) <= cycles && old(finished) <= finished
        invariant forall k :: 0 <= k < i ==> children[k] in finished || Closed(cycles, (node, children[k]))
        invariant forall k :: 0 <= k < i ==> children[k] in visited
        invariant NewReports(cycles, |old(cycles)|, old(visited), None)
        invariant OpenFrom(adj, cycles, node, i)
      {
        assert Arc(adj, node, children[i]);
        assert node in Universe();
        ghost var before, known := cycles, visited;
        StillToClose(adj, cycles, node, i);
        DfsCycle(children[i], path + [node]);
        MoreReports(adj, [], before, cycles);
        ReportsAdd(|old(cycles)|, old(visited), before, known, cycles, node, children[i]);
        OpenNext(adj, before, known, cycles, node, i);
      }
      FinishNode(adj, finished, cycles, visited, node);
      NewReportsMeans(cycles, |old(cycles)|, old(visited), if path == [] then None else Some((path[|path| - 1], node)));
      LeaveNode(adj, roots, path, recStack, visited, finished, node);
      recStack := recStack - {node};
      finished := finished + [node];
    }

    /** The outer loop over all stored nodes. */
    method DetectCycles(nodes: seq<NodeId>)
      requires Valid([]) && cycles == [] && visited == {} && nodes == roots
      modifies `visited, `recStack, `cycles, `finished
      ensures forall i :: 0 <= i < |cycles| ==> SimpleCycle(adj, cycles[i]) && Reachable(adj, nodes, cycles[i][0])
      ensures forall c :: Cycle(adj, c) && Reachable(adj, nodes, c[0]) ==> !Clear(c, cycles)
      ensures cycles != [] <==> exists c :: Cycle(adj, c) && Reachable(adj, nodes, c[0])
      ensures NoParallelArcs(adj) ==> Distinct(cycles)
    {
      for i := 0 to |nodes|
        invariant Valid([])
        invariant forall k :: 0 <= k < i ==> nodes[k] in finished
      {
        if nodes[i] !in visited {
          DfsCycle(nodes[i], []);
        }
      }
      assert visited == set n | n in finished;
      ReachableCyclesAreCut(adj, finished, cycles, nodes);
      if cycles == [] {
        assert forall c :: Clear(c, cycles);
      } else {
        assert Cycle(adj, cycles[0]) && Reachable(adj, nodes, cycles[0][0]);
      }
    }
  }

  /** The cycle passes over the last edge of a reported list. */
  ghost predicate UsesReportedEdge(c: seq<NodeId>, cycles: seq<seq<NodeId>>) {
    exists k, i :: 0 <= k < |c| - 1 && 0 <= i < |cycles| && Closing(cycles[i]) == Some((c[k], c[k + 1]))
  }

  lemma UnclearUses(c: seq<NodeId>, cycles: seq<seq<NodeId>>)
    requires !Clear(c, cycles)
    ensures UsesReportedEdge(c, cycles)
  {
    var k :| 0 <= k < |c| - 1 && Closed(cycles, (c[k], c[k + 1]));
    var i :| 0 <= i < |cycles| && Closing(cycles[i]) == Some((c[k], c[k + 1]));
  }

  lemma AllCyclesAreReachable(adj: Adjacency, nodes: seq<NodeId>, edges: seq<Edge>, c: seq<NodeId>)
    requires forall u, v :: Arc(adj, u, v) <==> (u, v) in edges
    requires forall e :: e in edges ==> e.0 in nodes
    requires Cycle(adj, c)
    ensures Reachable(adj, nodes, c[0])
  {
    assert Arc(adj, c[0], c[1]);
    assert (c[0], c[1]) in edges;
    assert Trail(adj, [c[0]]);
  }

  /** The cycle part of `audit`, from the tables to the report. Each report is a
      simple cycle that can be reached; every reachable cycle passes over the last
      edge of some report, so none is left out; and no edge closes two reports. */
  method AuditCycles(nodes: seq<NodeId>, edges: seq<Edge>) returns (cycles: seq<seq<NodeId>>, adj: Adjacency)
    ensures forall u, v :: Arc(adj, u, v) <==> (u, v) in edges
    ensures forall i :: 0 <= i < |cycles| ==> SimpleCycle(adj, cycles[i]) && Reachable(adj, nodes, cycles[i][0])
    ensures forall c :: Cycle(adj, c) && Reachable(adj, nodes, c[0]) ==> UsesReportedEdge(c, cycles)
    ensures cycles != [] <==> exists c :: Cycle(adj, c) && Reachable(adj, nodes, c[0])
    ensures (forall e :: e in edges ==> e.0 in nodes) ==> (cycles != [] <==> exists c :: Cycle(adj, c))
    ensures NoRepeats(edges) ==> forall i, j :: 0 <= i < j < |cycles| ==> Closing(cycles[i]) != Closing(cycles[j])
  {
    hide SimpleCycle, Reachable, Clear, UsesReportedEdge, Closing;
    adj := BuildGraph(edges);
    var audit := new CycleAudit(adj, nodes);
    audit.DetectCycles(nodes);
    cycles := audit.cycles;
    forall c | Cycle(adj, c) && Reachable(adj, nodes, c[0]) ensures UsesReportedEdge(c, cycles) {
      UnclearUses(c, cycles);
    }
    if forall e :: e in edges ==> e.0 in nodes {
      forall c | Cycle(adj, c) ensures Reachable(adj, nodes, c[0]) {
        AllCyclesAreReachable(adj, nodes, edges, c);
      }
    }
  }
}
