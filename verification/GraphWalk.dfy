/** The multi-source, depth-bounded walk of the hybrid retriever
    (core/retrieval.py, _graph_walk). */
module GraphWalk {
  import opened Graph
  import opened Walks

  type Record = map<NodeId, seq<NodeId>>

  /** Edges both of whose ends are live. */
  function LiveEdges(ns: Thoughts, es: set<Edge>): (r: set<Edge>) {
    set e | e in es && Live(ns, e.0) && Live(ns, e.1)
  }

  /** One step of the walk in the columns: along a stored edge in either
      direction, both of whose ends are stored and not decayed. */
  predicate LiveStep(ns: Thoughts, es: set<Edge>, x: NodeId, y: NodeId) {
    ((x, y) in es || (y, x) in es) && x in ns && !ns[x].decayed && y in ns && !ns[y].decayed
  }

  lemma LinkedIsLiveStep(ns: Thoughts, es: set<Edge>, x: NodeId, y: NodeId)
    ensures Linked(LiveEdges(ns, es), x, y) <==> LiveStep(ns, es, x, y)
  {
    assert (x, y) in LiveEdges(ns, es) <==> (x, y) in es && Live(ns, x) && Live(ns, y);
    assert (y, x) in LiveEdges(ns, es) <==> (y, x) in es && Live(ns, x) && Live(ns, y);
  }

  /** A walk over live edges takes such steps only, and every such list is one. */
  lemma LiveWalksInColumns(ns: Thoughts, es: set<Edge>, a: NodeId, b: NodeId, w: seq<NodeId>)
    ensures Walk(LiveEdges(ns, es), a, b, w) <==>
      && w != [] && w[0] == a && w[|w| - 1] == b
      && forall i :: 0 <= i < |w| - 1 ==> LiveStep(ns, es, w[i], w[i + 1])
  {
    forall i | 0 <= i < |w| - 1
      ensures Linked(LiveEdges(ns, es), w[i], w[i + 1]) <==> LiveStep(ns, es, w[i], w[i + 1])
    {
      LinkedIsLiveStep(ns, es, w[i], w[i + 1]);
    }
  }

  ghost predicate Reaches(le: set<Edge>, depth: int, e: NodeId, v: NodeId, w: seq<NodeId>) {
    Walk(le, e, v, w) && |w| - 1 <= depth
  }

  ghost predicate Within(le: set<Edge>, depth: int, e: NodeId, v: NodeId) {
    e == v || exists w :: Reaches(le, depth, e, v, w)
  }

  /** v is an entry point that no earlier entry point reached. */
  ghost predicate OwnEntry(le: set<Edge>, depth: int, entries: seq<NodeId>, v: NodeId) {
    exists f :: 0 <= f < |entries| && entries[f] == v && forall j :: 0 <= j < f ==> !Within(le, depth, entries[j], v)
  }

  /** p is a shortest walk to v from an entry point other than v. */
  ghost predicate Best(le: set<Edge>, depth: int, entries: seq<NodeId>, v: NodeId, p: seq<NodeId>) {
    && (exists j :: 0 <= j < |entries| && entries[j] != v && Reaches(le, depth, entries[j], v, p))
    && (forall j, w :: 0 <= j < |entries| && entries[j] != v && Reaches(le, depth, entries[j], v, w) ==> |p| <= |w|)
  }

  /** What the walk records, for every node. */
  ghost predicate Recorded(le: set<Edge>, depth: int, entries: seq<NodeId>, found: Record) {
    && (forall v :: v in found <==> exists j :: 0 <= j < |entries| && Within(le, depth, entries[j], v))
    && (forall v :: v in found && OwnEntry(le, depth, entries, v) ==> found[v] == [v])
    && (forall v :: v in found && !OwnEntry(le, depth, entries, v) ==> Best(le, depth, entries, v, found[v]))
  }

  /** For a node that is not an entry point: recorded exactly when some entry
      point is within the depth, by a shortest walk over all entry points. */
  lemma RecordedOtherNodes(le: set<Edge>, depth: int, entries: seq<NodeId>, found: Record, v: NodeId)
    requires Recorded(le, depth, entries, found) && v !in entries
    ensures v in found <==> exists j, w :: 0 <= j < |entries| && Reaches(le, depth, entries[j], v, w)
    ensures v in found ==> exists j :: 0 <= j < |entries| && Reaches(le, depth, entries[j], v, found[v])
    ensures v in found ==> forall j, w :: 0 <= j < |entries| && Reaches(le, depth, entries[j], v, w) ==>
      |found[v]| <= |w|
  {
    assert !OwnEntry(le, depth, entries, v);
    if v in found {
      assert Best(le, depth, entries, v, found[v]);
    }
    if j, w :| 0 <= j < |entries| && Reaches(le, depth, entries[j], v, w) {
      assert Within(le, depth, entries[j], v);
    }
  }

  /** The record after one entry point's search: a new path replaces only a longer one. */
  function Merge(found: Record, paths: Record, entry: NodeId): (r: Record)
    requires entry in found
    ensures r.Keys == found.Keys + paths.Keys
  {
    map n | n in found.Keys + paths.Keys ::
      if n == entry || n !in paths || (n in found && |found[n]| <= |paths[n]|) then found[n] else paths[n]
  }

  lemma MergeReaches(found: Record, paths: Record, entry: NodeId, v: NodeId, p: seq<NodeId>)
    requires entry in found && v !in paths && v != entry
    ensures var m := Merge(found, paths, entry);
            Merge(found, paths[v := p], entry) == if v !in m || |p| < |m[v]| then m[v := p] else m
  {
    var m, m' := Merge(found, paths, entry), Merge(found, paths[v := p], entry);
    assert m'.Keys == m.Keys + {v};
    assert forall n :: n in m && n != v ==> m'[n] == m[n];
    assert m'[v] == if v in found && |found[v]| <= |p| then found[v] else p;
    assert v in m ==> m[v] == found[v];
  }

  /** The inner loop over one node's neighbours, in an arbitrary order. */
  method VisitNeighbours(le: set<Edge>, depth: int, entry: NodeId, head: Visit, queue: seq<Visit>, visited: set<NodeId>,
                         found: Record, ghost found0: Record, ghost paths: Record)
    returns (queue': seq<Visit>, visited': set<NodeId>, found': Record, ghost paths': Record)
    requires Expanding(le, entry, Some(depth), head, queue, paths, Neighbours(le, head.node))
    requires paths.Keys == visited && entry in visited && entry in found0 && found == Merge(found0, paths, entry)
    ensures Frontier(le, entry, Some(depth), queue', paths')
    ensures paths'.Keys == visited' && found' == Merge(found0, paths', entry)
    ensures entry in visited' && visited <= visited' <= visited + Endpoints(le)
    ensures visited' == visited ==> queue' == queue
  {
    hide Expanding, Frontier;
    queue', visited', found', paths' := queue, visited, found, paths;
    var rest := Neighbours(le, head.node);
    while rest != {}
      invariant Expanding(le, entry, Some(depth), head, queue', paths', rest)
      invariant paths'.Keys == visited' && found' == Merge(found0, paths', entry)
      invariant entry in visited' && visited <= visited' <= visited + Endpoints(le)
      invariant visited' == visited ==> queue' == queue
      decreases rest
    {
      var next :| next in rest;
      if next !in visited' {
        var newPath := head.path + [next];
        ExpandingReaches(le, entry, Some(depth), head, queue', paths', rest, next);
        LinkedAreEndpoints(le, head.node, next);
        MergeReaches(found0, paths', entry, next, newPath);
        visited' := visited' + {next};
        if next !in found' || |newPath| < |found'[next]| {
          found' := found'[next := newPath];
        }
        paths' := paths'[next := newPath];
        queue' := queue' + [Visit(next, newPath)];
      } else {
        ExpandingSkips(le, entry, Some(depth), head, queue', paths', rest, next);
      }
      rest := rest - {next};
    }
    ExpandingEnds(le, entry, Some(depth), head, queue', paths');
  }

  /** One entry point's breadth-first search; a path's depth is its length less one. */
  method WalkFrom(le: set<Edge>, depth: int, entry: NodeId, found0: Record) returns (found: Record, ghost paths: Record)
    requires entry in found0
    ensures Frontier(le, entry, Some(depth), [], paths)
    ensures found == Merge(found0, paths, entry)
  {
    hide Expanding, Frontier;
    found := found0;
    var queue := [Visit(entry, [entry])];
    var visited := {entry};
    paths := map[entry := [entry]];
    FrontierStarts(le, entry, Some(depth));
    assert found0.Keys + paths.Keys == found0.Keys;
    while queue != []
      invariant Frontier(le, entry, Some(depth), queue, paths)
      invariant entry in visited && paths.Keys == visited && found == Merge(found0, paths, entry)
      decreases Endpoints(le) - visited, |queue|
    {
      var head := queue[0];
      if |head.path| - 1 >= depth {
        BoundReached(le, entry, Some(depth), queue, paths);
        queue := queue[1..];
        continue;
      }
      ExpandingBegins(le, entry, Some(depth), queue, paths);
      queue, visited, found, paths :=
        VisitNeighbours(le, depth, entry, head, queue[1..], visited, found, found0, paths);
    }
  }

  // ----- Adding one entry point -----

  lemma SearchFindsWithin(le: set<Edge>, depth: int, e: NodeId, paths: Record)
    requires Frontier(le, e, Some(depth), [], paths)
    ensures forall v :: v != e ==> (v in paths <==> Within(le, depth, e, v))
    ensures forall v :: v != e && v in paths ==> Reaches(le, depth, e, v, paths[v])
    ensures forall v, w :: Reaches(le, depth, e, v, w) ==> v in paths && |paths[v]| <= |w|
  {
    FrontierExhausted(le, e, Some(depth), paths);
    forall v | v != e && v in paths ensures Reaches(le, depth, e, v, paths[v]) {
    }
    forall v, w | Reaches(le, depth, e, v, w) ensures v in paths && |paths[v]| <= |w| {
      assert Walk(le, e, v, w) && WithinBound(Some(depth), w);
    }
  }

  lemma RecordedNothing(le: set<Edge>, depth: int)
    ensures Recorded(le, depth, [], map[])
  {
  }

  lemma OwnEntrySnoc(le: set<Edge>, depth: int, entries: seq<NodeId>, e: NodeId, v: NodeId)
    ensures OwnEntry(le, depth, entries + [e], v) <==>
            || OwnEntry(le, depth, entries, v)
            || (v == e && forall j :: 0 <= j < |entries| ==> !Within(le, depth, entries[j], v))
  {
    var more := entries + [e];
    if OwnEntry(le, depth, more, v) {
      var f :| 0 <= f < |more| && more[f] == v && forall j :: 0 <= j < f ==> !Within(le, depth, more[j], v);
      assert forall j :: 0 <= j < f ==> more[j] == entries[j];
    }
    if OwnEntry(le, depth, entries, v) {
      var f :| 0 <= f < |entries| && entries[f] == v && forall j :: 0 <= j < f ==> !Within(le, depth, entries[j], v);
      assert more[f] == v && forall j :: 0 <= j < f ==> more[j] == entries[j];
    }
    if v == e && forall j :: 0 <= j < |entries| ==> !Within(le, depth, entries[j], v) {
      assert more[|entries|] == v && forall j :: 0 <= j < |entries| ==> more[j] == entries[j];
    }
  }

  function Enter(found: Record, e: NodeId): (r: Record) {
    if e in found then found else found[e := [e]]
  }

  lemma BestAfterSearch(le: set<Edge>, depth: int, entries: seq<NodeId>, e: NodeId, v: NodeId,
                        old_: Option<seq<NodeId>>, new_: Option<seq<NodeId>>)
    requires old_.Some? || new_.Some?
    requires old_.Some? ==> Best(le, depth, entries, v, old_.value)
    requires old_.None? ==> forall j, w :: 0 <= j < |entries| && entries[j] != v ==>
      !Reaches(le, depth, entries[j], v, w)
    requires new_.Some? ==> e != v && Reaches(le, depth, e, v, new_.value)
    requires e != v ==> forall w :: Reaches(le, depth, e, v, w) ==> new_.Some? && |new_.value| <= |w|
    ensures Best(le, depth, entries + [e], v,
                 if old_.Some? && (new_.None? || |old_.value| <= |new_.value|) then old_.value else new_.value)
  {
    var more := entries + [e];
    assert more[|entries|] == e;
    var keep := old_.Some? && (new_.None? || |old_.value| <= |new_.value|);
    var p := if keep then old_.value else new_.value;
    if keep {
      var j :| 0 <= j < |entries| && entries[j] != v && Reaches(le, depth, entries[j], v, p);
      assert more[j] != v && Reaches(le, depth, more[j], v, p);
    }
    forall j, w | 0 <= j < |more| && more[j] != v && Reaches(le, depth, more[j], v, w) ensures |p| <= |w| {
      if j < |entries| {
        assert more[j] == entries[j];
      }
    }
  }

  lemma RecordedSnoc(le: set<Edge>, depth: int, entries: seq<NodeId>, found: Record, e: NodeId, paths: Record)
    requires Recorded(le, depth, entries, found)
    requires Frontier(le, e, Some(depth), [], paths)
    ensures Recorded(le, depth, entries + [e], Merge(Enter(found, e), paths, e))
  {
    var more, after := entries + [e], Merge(Enter(found, e), paths, e);
    SearchFindsWithin(le, depth, e, paths);
    assert more[|entries|] == e;
    forall v ensures v in after <==> exists j :: 0 <= j < |more| && Within(le, depth, more[j], v) {
      if v in found {
        var j :| 0 <= j < |entries| && Within(le, depth, entries[j], v);
        assert Within(le, depth, more[j], v);
      } else if v in paths || v == e {
        assert Within(le, depth, more[|entries|], v);
      }
      if j :| 0 <= j < |more| && Within(le, depth, more[j], v) {
        if j < |entries| {
          assert Within(le, depth, entries[j], v);
        }
      }
    }
    forall v | v in after
      ensures if OwnEntry(le, depth, more, v) then after[v] == [v] else Best(le, depth, more, v, after[v])
    {
      OwnEntrySnoc(le, depth, entries, e, v);
      RecordedNode(le, depth, entries, found, e, paths, v);
    }
  }

  lemma ReachesFar(le: set<Edge>, depth: int, e: NodeId, v: NodeId, w: seq<NodeId>)
    requires Reaches(le, depth, e, v, w) && v != e
    ensures |w| > 1
  {
  }

  /** An entry point nobody reached first keeps the path of itself alone. */
  lemma OwnEntryNode(le: set<Edge>, depth: int, entries: seq<NodeId>, found: Record, e: NodeId, paths: Record,
                     v: NodeId)
    requires Recorded(le, depth, entries, found) && Frontier(le, e, Some(depth), [], paths)
    requires v in Merge(Enter(found, e), paths, e)
    requires OwnEntry(le, depth, entries, v) ||
      (v == e && forall j :: 0 <= j < |entries| ==> !Within(le, depth, entries[j], v))
    ensures Merge(Enter(found, e), paths, e)[v] == [v]
  {
    hide Best, Frontier, Reaches;
    SearchFindsWithin(le, depth, e, paths);
    if v != e && v in paths {
      assert |paths[v]| > 1 by { ReachesFar(le, depth, e, v, paths[v]); }
    }
    if OwnEntry(le, depth, entries, v) {
      var f :| 0 <= f < |entries| && entries[f] == v && forall j :: 0 <= j < f ==> !Within(le, depth, entries[j], v);
      assert Within(le, depth, entries[f], v);
    }
  }

  lemma NotFoundNotReached(le: set<Edge>, depth: int, entries: seq<NodeId>, found: Record, v: NodeId)
    requires Recorded(le, depth, entries, found) && v !in found
    ensures forall j, w :: 0 <= j < |entries| && entries[j] != v ==> !Reaches(le, depth, entries[j], v, w)
  {
    forall j, w | 0 <= j < |entries| && entries[j] != v ensures !Reaches(le, depth, entries[j], v, w) {
      if Reaches(le, depth, entries[j], v, w) {
        assert Within(le, depth, entries[j], v);
      }
    }
  }

  lemma ReachedNode(le: set<Edge>, depth: int, entries: seq<NodeId>, found: Record, e: NodeId, paths: Record, v: NodeId)
    requires Recorded(le, depth, entries, found) && Frontier(le, e, Some(depth), [], paths)
    requires v in Merge(Enter(found, e), paths, e) && !OwnEntry(le, depth, entries, v)
    requires v == e ==> exists j :: 0 <= j < |entries| && Within(le, depth, entries[j], v)
    ensures Best(le, depth, entries + [e], v, Merge(Enter(found, e), paths, e)[v])
  {
    hide Best, OwnEntry, Frontier, Reaches;
    SearchFindsWithin(le, depth, e, paths);
    var old_ := if v in found then Some(found[v]) else None;
    var new_ := if v != e && v in paths then Some(paths[v]) else None;
    if old_.None? {
      NotFoundNotReached(le, depth, entries, found, v);
    }
    BestAfterSearch(le, depth, entries, e, v, old_, new_);
  }

  lemma RecordedNode(le: set<Edge>, depth: int, entries: seq<NodeId>, found: Record, e: NodeId, paths: Record,
                     v: NodeId)
    requires Recorded(le, depth, entries, found)
    requires Frontier(le, e, Some(depth), [], paths)
    requires v in Merge(Enter(found, e), paths, e)
    ensures var own := OwnEntry(le, depth, entries, v) ||
      (v == e && forall j :: 0 <= j < |entries| ==> !Within(le, depth, entries[j], v));
            var p := Merge(Enter(found, e), paths, e)[v];
            if own then p == [v] else Best(le, depth, entries + [e], v, p)
  {
    hide Recorded, Frontier, OwnEntry, Best, Merge, Enter, Within;
    if OwnEntry(le, depth, entries, v) ||
       (v == e && forall j :: 0 <= j < |entries| ==> !Within(le, depth, entries[j], v))
    {
      OwnEntryNode(le, depth, entries, found, e, paths, v);
    } else {
      ReachedNode(le, depth, entries, found, e, paths, v);
    }
  }

  /** The walk from every entry point in turn. */
  method GraphWalkFrom(ns: Thoughts, es: set<Edge>, entries: seq<NodeId>, depth: int) returns (found: Record)
    ensures Recorded(LiveEdges(ns, es), depth, entries, found)
  {
    hide Recorded, Frontier, Merge;
    var le := LiveEdges(ns, es);
    found := map[];
    RecordedNothing(le, depth);
    for i := 0 to |entries|
      invariant Recorded(le, depth, entries[..i], found)
    {
      ghost var before := found;
      if entries[i] !in found {
        found := found[entries[i] := [entries[i]]];
      }
      ghost var paths;
      found, paths := WalkFrom(le, depth, entries[i], found);
      RecordedSnoc(le, depth, entries[..i], before, entries[i], paths);
      assert entries[..i] + [entries[i]] == entries[..i + 1];
    }
    assert entries[..|entries|] == entries;
  }
}
