/** Walks along derivation edges taken in both directions, and what a
    breadth-first queue knows about them. Shared by `how` and the graph walk. */
module Walks {
  import opened Graph

  predicate Linked(es: set<Edge>, x: NodeId, y: NodeId) {
    (x, y) in es || (y, x) in es
  }

  /** Both directions of the neighbour query. */
  function Neighbours(es: set<Edge>, n: NodeId): (r: set<NodeId>) {
    (set e | e in es && e.0 == n :: e.1) + (set e | e in es && e.1 == n :: e.0)
  }

  lemma NeighboursAreLinked(es: set<Edge>, n: NodeId)
    ensures forall m :: m in Neighbours(es, n) <==> Linked(es, n, m)
  {
    forall m ensures m in Neighbours(es, n) <==> Linked(es, n, m) {
      if (n, m) in es {
        var e := (n, m);
        assert e in es && e.0 == n;
      }
      if (m, n) in es {
        var e := (m, n);
        assert e in es && e.1 == n;
      }
    }
  }

  function Endpoints(es: set<Edge>): (r: set<NodeId>) {
    (set e | e in es :: e.0) + (set e | e in es :: e.1)
  }

  lemma LinkedAreEndpoints(es: set<Edge>, x: NodeId, y: NodeId)
    requires Linked(es, x, y)
    ensures y in Endpoints(es)
  {
    var e :| e in es && (e == (x, y) || e == (y, x));
    assert e.0 in Endpoints(es) && e.1 in Endpoints(es);
  }

  /** A walk from a to b, as the list of nodes it visits. */
  ghost predicate Walk(es: set<Edge>, a: NodeId, b: NodeId, w: seq<NodeId>) {
    && w != [] && w[0] == a && w[|w| - 1] == b
    && forall i :: 0 <= i < |w| - 1 ==> Linked(es, w[i], w[i + 1])
  }

  lemma ExtendWalk(es: set<Edge>, a: NodeId, b: NodeId, w: seq<NodeId>, c: NodeId)
    requires Walk(es, a, b, w) && Linked(es, b, c)
    ensures Walk(es, a, c, w + [c])
  {
    var v := w + [c];
    forall i | 0 <= i < |v| - 1 ensures Linked(es, v[i], v[i + 1]) {
      if i == |w| - 1 {
        assert v[i] == b && v[i + 1] == c;
      }
    }
  }

  /** A queue entry: a node and the path that reached it. */
  datatype Visit = Visit(node: NodeId, path: seq<NodeId>)

  /** A walk depth, or none. */
  predicate Expandable(bound: Option<int>, path: seq<NodeId>) {
    bound.None? || |path| - 1 < bound.value
  }

  predicate WithinBound(bound: Option<int>, w: seq<NodeId>) {
    bound.None? || |w| - 1 <= bound.value
  }

  ghost predicate Queued(queue: seq<Visit>, n: NodeId) {
    exists i :: 0 <= i < |queue| && queue[i].node == n
  }

  /** A node whose neighbours have all been reached from it. */
  ghost predicate Expanded(es: set<Edge>, paths: map<NodeId, seq<NodeId>>, u: NodeId)
    requires u in paths
  {
    forall v :: Linked(es, u, v) ==> v in paths && |paths[v]| <= |paths[u]| + 1
  }

  /** Recorded paths are real, and short ones are queued before long ones. */
  ghost predicate Layered(es: set<Edge>, a: NodeId, queue: seq<Visit>, paths: map<NodeId, seq<NodeId>>) {
    && a in paths && paths[a] == [a]
    && (forall v :: v in paths ==> Walk(es, a, v, paths[v]))
    && (forall i :: 0 <= i < |queue| ==> queue[i].node in paths && queue[i].path == paths[queue[i].node])
    && (forall i, j :: 0 <= i < j < |queue| ==> queue[i].node != queue[j].node)
    && (forall i, j :: 0 <= i < j < |queue| ==> |queue[i].path| <= |queue[j].path| <= |queue[i].path| + 1)
    && (forall v :: v in paths && queue != [] ==> |paths[v]| <= |queue[0].path| + 1)
  }

  /** The breadth-first invariant between two pops: only queued nodes, and
      nodes at the depth bound, are unexpanded. */
  ghost predicate Frontier(es: set<Edge>, a: NodeId, bound: Option<int>, queue: seq<Visit>,
                           paths: map<NodeId, seq<NodeId>>)
  {
    && Layered(es, a, queue, paths)
    && (forall u :: u in paths && !Queued(queue, u) && Expandable(bound, paths[u]) ==> Expanded(es, paths, u))
    && (forall v :: v in paths && v != a ==> WithinBound(bound, paths[v]))
  }

  lemma FrontierStarts(es: set<Edge>, a: NodeId, bound: Option<int>)
    ensures Frontier(es, a, bound, [Visit(a, [a])], map[a := [a]])
  {
    var queue := [Visit(a, [a])];
    assert queue[0].node == a;
    assert Queued(queue, a);
  }

  /** The head of the queue carries a real walk to its node. */
  lemma FrontierHead(es: set<Edge>, a: NodeId, bound: Option<int>, queue: seq<Visit>, paths: map<NodeId, seq<NodeId>>)
    requires Frontier(es, a, bound, queue, paths) && queue != []
    ensures Walk(es, a, queue[0].node, queue[0].path)
  {
  }

  /** A walk within the bound ends at a node recorded by a path as short, or
      some queued path is shorter than the walk. */
  lemma {:induction false} Escape(es: set<Edge>, a: NodeId, bound: Option<int>, queue: seq<Visit>,
                                  paths: map<NodeId, seq<NodeId>>, v: NodeId, w: seq<NodeId>)
    requires Frontier(es, a, bound, queue, paths)
    requires Walk(es, a, v, w) && WithinBound(bound, w)
    ensures (v in paths && |paths[v]| <= |w|) || (exists i :: 0 <= i < |queue| && |queue[i].path| < |w|)
    decreases |w|
  {
    if |w| > 1 {
      var u, w' := w[|w| - 2], w[..|w| - 1];
      Escape(es, a, bound, queue, paths, u, w');
      if u in paths && |paths[u]| <= |w'| {
        if Queued(queue, u) {
          var i :| 0 <= i < |queue| && queue[i].node == u;
          assert |queue[i].path| < |w|;
        } else {
          assert Expanded(es, paths, u) && Linked(es, u, v);
        }
      }
    }
  }

  /** With nothing left in the queue, the recorded paths are exactly the
      shortest walks within the bound. */
  lemma FrontierExhausted(es: set<Edge>, a: NodeId, bound: Option<int>, paths: map<NodeId, seq<NodeId>>)
    requires Frontier(es, a, bound, [], paths)
    ensures forall v, w :: Walk(es, a, v, w) && WithinBound(bound, w) ==> v in paths && |paths[v]| <= |w|
  {
    forall v, w | Walk(es, a, v, w) && WithinBound(bound, w) ensures v in paths && |paths[v]| <= |w| {
      Escape(es, a, bound, [], paths, v, w);
    }
  }

  /** A node met for the first time from the head of the queue is met by a shortest walk. */
  lemma FirstMeetingIsShortest(es: set<Edge>, a: NodeId, bound: Option<int>, queue: seq<Visit>,
                               paths: map<NodeId, seq<NodeId>>, b: NodeId)
    requires Frontier(es, a, bound, queue, paths) && queue != [] && b !in paths
    ensures forall w :: Walk(es, a, b, w) && WithinBound(bound, w) ==> |queue[0].path| < |w|
  {
    forall w | Walk(es, a, b, w) && WithinBound(bound, w) ensures |queue[0].path| < |w| {
      Escape(es, a, bound, queue, paths, b, w);
    }
  }

  // ----- Expanding one node -----

  /** In the middle of expanding `head`: its neighbours outside `rest` are done. */
  ghost predicate Expanding(es: set<Edge>, a: NodeId, bound: Option<int>, head: Visit, queue: seq<Visit>,
                            paths: map<NodeId, seq<NodeId>>, rest: set<NodeId>) {
    && Layered(es, a, [head] + queue, paths)
    && Expandable(bound, head.path)
    && (forall v :: v in paths && v != a ==> WithinBound(bound, paths[v]))
    && (forall u :: u in paths && u != head.node && !Queued(queue, u) && Expandable(bound, paths[u]) ==>
          Expanded(es, paths, u))
    && (forall v :: Linked(es, head.node, v) && v !in rest ==> v in paths && |paths[v]| <= |head.path| + 1)
    && (forall v :: v in rest ==> Linked(es, head.node, v))
  }

  lemma ExpandingBegins(es: set<Edge>, a: NodeId, bound: Option<int>, queue: seq<Visit>,
                        paths: map<NodeId, seq<NodeId>>)
    requires queue != [] && Frontier(es, a, bound, queue, paths) && Expandable(bound, queue[0].path)
    ensures Expanding(es, a, bound, queue[0], queue[1..], paths, Neighbours(es, queue[0].node))
  {
    NeighboursAreLinked(es, queue[0].node);
    assert [queue[0]] + queue[1..] == queue;
    forall u | Queued(queue, u) && u != queue[0].node ensures Queued(queue[1..], u) {
      var i :| 0 <= i < |queue| && queue[i].node == u;
      assert queue[1..][i - 1].node == u;
    }
  }

  /** Reaching a new neighbour: it goes to the back of the queue with a path one longer. */
  lemma ExpandingReaches(es: set<Edge>, a: NodeId, bound: Option<int>, head: Visit, queue: seq<Visit>,
                         paths: map<NodeId, seq<NodeId>>, rest: set<NodeId>, v: NodeId)
    requires Expanding(es, a, bound, head, queue, paths, rest) && v in rest && v !in paths
    ensures Expanding(es, a, bound, head, queue + [Visit(v, head.path + [v])],
                      paths[v := head.path + [v]], rest - {v})
    ensures Walk(es, a, v, head.path + [v])
  {
    assert ([head] + queue)[0] == head;
    ExtendWalk(es, a, head.node, head.path, v);
    var q, q' := [head] + queue, [head] + queue + [Visit(v, head.path + [v])];
    assert q' == [head] + (queue + [Visit(v, head.path + [v])]);
    LayeredReaches(es, a, q, paths, v);
    forall u | Queued(queue, u) ensures Queued(queue + [Visit(v, head.path + [v])], u) {
      var i :| 0 <= i < |queue| && queue[i].node == u;
      assert (queue + [Visit(v, head.path + [v])])[i].node == u;
    }
    assert (queue + [Visit(v, head.path + [v])])[|queue|].node == v;
  }

  lemma LayeredReaches(es: set<Edge>, a: NodeId, queue: seq<Visit>, paths: map<NodeId, seq<NodeId>>, v: NodeId)
    requires queue != [] && Layered(es, a, queue, paths) && v !in paths
    requires Walk(es, a, v, queue[0].path + [v])
    ensures Layered(es, a, queue + [Visit(v, queue[0].path + [v])], paths[v := queue[0].path + [v]])
  {
  }

  /** A neighbour already reached has a path short enough. */
  lemma ExpandingSkips(es: set<Edge>, a: NodeId, bound: Option<int>, head: Visit, queue: seq<Visit>,
                       paths: map<NodeId, seq<NodeId>>, rest: set<NodeId>, v: NodeId)
    requires Expanding(es, a, bound, head, queue, paths, rest) && v in paths
    ensures Expanding(es, a, bound, head, queue, paths, rest - {v})
  {
    assert ([head] + queue)[0] == head;
  }

  lemma ExpandingEnds(es: set<Edge>, a: NodeId, bound: Option<int>, head: Visit, queue: seq<Visit>,
                      paths: map<NodeId, seq<NodeId>>)
    requires Expanding(es, a, bound, head, queue, paths, {})
    ensures Frontier(es, a, bound, queue, paths)
  {
    assert ([head] + queue)[0] == head;
    assert Layered(es, a, queue, paths) by { LayeredTail(es, a, head, queue, paths); }
    hide Layered;
  }

  lemma LayeredTail(es: set<Edge>, a: NodeId, head: Visit, queue: seq<Visit>, paths: map<NodeId, seq<NodeId>>)
    requires Layered(es, a, [head] + queue, paths)
    ensures Layered(es, a, queue, paths)
  {
    hide Walk;
    var q := [head] + queue;
    assert q[0] == head;
    assert forall i :: 0 <= i < |queue| ==> queue[i] == q[i + 1];
  }

  /** A node at the depth bound is popped without being expanded. */
  lemma BoundReached(es: set<Edge>, a: NodeId, bound: Option<int>, queue: seq<Visit>, paths: map<NodeId, seq<NodeId>>)
    requires queue != [] && Frontier(es, a, bound, queue, paths) && !Expandable(bound, queue[0].path)
    ensures Frontier(es, a, bound, queue[1..], paths)
  {
    forall u | Queued(queue, u) && u != queue[0].node ensures Queued(queue[1..], u) {
      var i :| 0 <= i < |queue| && queue[i].node == u;
      assert queue[1..][i - 1].node == u;
    }
  }
}
