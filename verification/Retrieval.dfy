/** Bounded best-first retrieval (core/retrieval.py, retrieve_recursive_bfs and
    the filters of _load_node_details). Similarity is an arbitrary function of
    the node, fixed for one query. */
module Retrieval {
  import opened Graph
  import opened Ranking
  import opened Walks

  // ----- The row filters -----

  datatype Row = Row(live: bool, domain: Option<string>, metadataDomain: string, tags: Option<string>)

  /** The optional domain, tag and exclusion filters, and which columns the database has.
      `like` is SQL's pattern test of a tag against the tags column. */
  datatype Request = Request(
    domain: string,
    tags: seq<string>,
    exclude: seq<string>,
    hasDomainColumn: bool,
    hasTagsColumn: bool,
    like: (string, string) -> bool)

  predicate Tagged(q: Request, row: Row, tag: string) {
    row.tags.Some? && q.like(row.tags.value, tag)
  }

  /** Databases without a domain column skip the tag filter and compare the
      metadata's domain instead. */
  predicate Passes(q: Request, row: Row) {
    && row.live
    && (q.hasTagsColumn ==> forall t :: t in q.exclude ==> !Tagged(q, row, t))
    && (q.hasDomainColumn && q.hasTagsColumn && q.tags != [] ==> exists t :: t in q.tags && Tagged(q, row, t))
    && (q.domain != "" ==>
          if q.hasDomainColumn then row.domain == Some(q.domain) else row.metadataDomain == q.domain)
  }

  predicate Loads(q: Request, rows: map<NodeId, Row>, n: NodeId) {
    n in rows && Passes(q, rows[n])
  }

  /** The filters column by column: the thought is stored and not decayed, no
      excluded tag is on it, some wanted tag is on it if tags are asked for and the
      database can tell, and it has the wanted domain: the column's where there is
      one, else the metadata's. */
  ghost predicate MeetsFilters(q: Request, rows: map<NodeId, Row>, n: NodeId) {
    && n in rows && rows[n].live
    && (forall t :: t in q.exclude && q.hasTagsColumn && rows[n].tags.Some? ==> !q.like(rows[n].tags.value, t))
    && (q.tags == [] || !q.hasTagsColumn || !q.hasDomainColumn
        || (rows[n].tags.Some? && exists t :: t in q.tags && q.like(rows[n].tags.value, t)))
    && (q.domain == "" || (q.hasDomainColumn && rows[n].domain == Some(q.domain))
        || (!q.hasDomainColumn && rows[n].metadataDomain == q.domain))
  }

  lemma LoadsInColumns(q: Request, rows: map<NodeId, Row>)
    ensures forall n :: Loads(q, rows, n) <==> MeetsFilters(q, rows, n)
  {
  }

  function LoadTest(q: Request, rows: map<NodeId, Row>): (f: NodeId -> bool) {
    n => Loads(q, rows, n)
  }

  /** A tag filter keeps untagged rows out exactly when the database has both
      columns: without a domain column it is not applied at all. */
  lemma TagFilterHoldsIff(q: Request)
    requires q.tags != []
    ensures (forall row :: Passes(q, row) ==> exists t :: t in q.tags && Tagged(q, row, t)) <==>
      q.hasDomainColumn && q.hasTagsColumn
  {
    var untagged := Row(true, Some(q.domain), q.domain, None);
    assert forall t :: !Tagged(q, untagged, t);
    if !(q.hasDomainColumn && q.hasTagsColumn) {
      assert Passes(q, untagged);
    }
  }

  // ----- Exploration -----

  function Power(p: nat, d: nat): (r: nat) {
    if d == 0 then 1 else p * Power(p, d - 1)
  }

  /** 1 + p + ... + p^d */
  function Geometric(p: nat, d: nat): (r: nat) {
    if d == 0 then 1 else Geometric(p, d - 1) + Power(p, d)
  }

  ghost predicate Hops(es: set<Edge>, seeds: seq<NodeId>, d: int, n: NodeId, w: seq<NodeId>) {
    w != [] && w[0] in seeds && Walk(es, w[0], n, w) && |w| - 1 <= d
  }

  ghost predicate WithinHops(es: set<Edge>, seeds: seq<NodeId>, d: int, n: NodeId) {
    exists w :: Hops(es, seeds, d, n, w)
  }

  lemma OneHopFurther(es: set<Edge>, seeds: seq<NodeId>, d: int, n: NodeId, m: NodeId)
    requires WithinHops(es, seeds, d, n) && Linked(es, n, m)
    ensures WithinHops(es, seeds, d + 1, m)
  {
    var w :| Hops(es, seeds, d, n, w);
    ExtendWalk(es, w[0], n, w, m);
    assert Hops(es, seeds, d + 1, m, w + [m]);
  }

  lemma MoreHops(es: set<Edge>, seeds: seq<NodeId>, d: int, d': int, n: NodeId)
    requires WithinHops(es, seeds, d, n) && d <= d'
    ensures WithinHops(es, seeds, d', n)
  {
    var w :| Hops(es, seeds, d, n, w);
    assert Hops(es, seeds, d', n, w);
  }

  /** `best` is a choice of the `picks` most similar of the unseen nodes, best first. */
  ghost predicate Picked(best: seq<NodeId>, unseen: set<NodeId>, sim: NodeId -> real, picks: nat) {
    && NoRepeats(best) && |best| == (if |unseen| <= picks then |unseen| else picks)
    && (forall n :: n in best ==> n in unseen)
    && (forall n, m :: n in best && m in unseen && m !in best ==> sim(n) >= sim(m))
    && Descending(best, sim)
  }

  /** `next` is what one level picks: each frontier node in turn, its best
      neighbours among those no one has picked yet. */
  ghost predicate Level(es: set<Edge>, sim: NodeId -> real, picks: nat, frontier: seq<NodeId>, candidates: set<NodeId>,
                        next: seq<NodeId>)
  {
    if frontier == [] then next == []
    else exists k ::
      && 0 <= k <= |next| && LastPick(es, sim, picks, frontier, candidates, next, k)
      && Level(es, sim, picks, frontier[..|frontier| - 1], candidates, next[..k])
  }

  ghost predicate LastPick(es: set<Edge>, sim: NodeId -> real, picks: nat, frontier: seq<NodeId>,
                           candidates: set<NodeId>, next: seq<NodeId>, k: nat)
    requires frontier != [] && k <= |next|
  {
    Picked(next[k..], Neighbours(es, frontier[|frontier| - 1]) - (candidates + Elements(next[..k])), sim, picks)
  }

  /** The frontier and the candidates after d levels from the seeds. */
  ghost predicate Explored(es: set<Edge>, sim: NodeId -> real, picks: nat, seeds: seq<NodeId>, d: nat,
                           frontier: seq<NodeId>, candidates: set<NodeId>)
  {
    if d == 0 then frontier == seeds && candidates == Elements(seeds)
    else exists f, c ::
      && Explored(es, sim, picks, seeds, d - 1, f, c)
      && Level(es, sim, picks, f, c, frontier) && candidates == c + Elements(frontier)
  }

  lemma LevelSnoc(es: set<Edge>, sim: NodeId -> real, picks: nat, frontier: seq<NodeId>, candidates: set<NodeId>,
                  next: seq<NodeId>, i: nat, best: seq<NodeId>)
    requires i < |frontier| && Level(es, sim, picks, frontier[..i], candidates, next)
    requires Picked(best, Neighbours(es, frontier[i]) - (candidates + Elements(next)), sim, picks)
    ensures Level(es, sim, picks, frontier[..i + 1], candidates, next + best)
  {
    hide Picked, Neighbours;
    var f, n := frontier[..i + 1], next + best;
    assert f[..|f| - 1] == frontier[..i] && n[..|next|] == next && n[|next|..] == best;
    assert LastPick(es, sim, picks, f, candidates, n, |next|);
  }

  lemma ExploredStart(es: set<Edge>, sim: NodeId -> real, picks: nat, seeds: seq<NodeId>)
    ensures Explored(es, sim, picks, seeds, 0, seeds, Elements(seeds))
  {
  }

  lemma ExploredNext(es: set<Edge>, sim: NodeId -> real, picks: nat, seeds: seq<NodeId>, d: nat, f: seq<NodeId>,
                     c: set<NodeId>, next: seq<NodeId>)
    requires Explored(es, sim, picks, seeds, d, f, c) && Level(es, sim, picks, f, c, next)
    ensures Explored(es, sim, picks, seeds, d + 1, next, c + Elements(next))
  {
    hide Level;
  }

  /** Once a level picks nothing, later levels pick nothing. */
  lemma {:induction false} ExploredStays(es: set<Edge>, sim: NodeId -> real, picks: nat, seeds: seq<NodeId>, d: nat,
                                         d': nat, candidates: set<NodeId>)
    requires Explored(es, sim, picks, seeds, d, [], candidates) && d <= d'
    ensures Explored(es, sim, picks, seeds, d', [], candidates)
    decreases d' - d
  {
    if d < d' {
      assert Level(es, sim, picks, [], candidates, []) && candidates == candidates + Elements([]);
      assert Explored(es, sim, picks, seeds, d + 1, [], candidates);
      ExploredStays(es, sim, picks, seeds, d + 1, d', candidates);
    }
  }

  /** The neighbours picked from one frontier node: its best fresh ones. */
  method PickBest(unseen: set<NodeId>, sim: NodeId -> real, picks: nat) returns (best: seq<NodeId>)
    ensures Picked(best, unseen, sim, picks)
  {
    var scored := Rank(unseen, sim);
    best := Take(picks, scored);
    forall n, m | n in best && m in unseen && m !in best ensures sim(n) >= sim(m) {
      var i :| 0 <= i < |best| && best[i] == n;
      assert m in scored;
      var j :| 0 <= j < |scored| && scored[j] == m;
      assert j >= |best|;
    }
  }

  /** One level: every frontier node adds its best fresh neighbours. */
  method ExpandLevel(es: set<Edge>, sim: NodeId -> real, picks: nat, frontier: seq<NodeId>, candidates: set<NodeId>,
                     ghost seeds: seq<NodeId>, ghost d: nat)
    returns (next: seq<NodeId>, candidates': set<NodeId>)
    requires forall n :: n in frontier ==> WithinHops(es, seeds, d, n)
    requires forall n :: n in candidates ==> WithinHops(es, seeds, d, n)
    ensures Level(es, sim, picks, frontier, candidates, next) && candidates' == candidates + Elements(next)
    ensures forall n :: n in next ==> WithinHops(es, seeds, d + 1, n)
    ensures forall n :: n in candidates' ==> WithinHops(es, seeds, d + 1, n)
    ensures AtMost(|next|, |frontier|, picks) && |candidates'| == |candidates| + |next|
  {
    hide WithinHops, Neighbours, Linked, AtMost, Level;
    next, candidates' := [], candidates;
    AtMostNothing(picks);
    forall n | n in candidates ensures WithinHops(es, seeds, d + 1, n) {
      MoreHops(es, seeds, d, d + 1, n);
    }
    assert Level(es, sim, picks, frontier[..0], candidates, next) by {
      LevelOfNothing(es, sim, picks, frontier, candidates);
    }
    for i := 0 to |frontier|
      invariant Level(es, sim, picks, frontier[..i], candidates, next) && candidates' == candidates + Elements(next)
      invariant forall n :: n in next ==> WithinHops(es, seeds, d + 1, n)
      invariant AtMost(|next|, i, picks) && |candidates'| == |candidates| + |next|
    {
      var unseen := Neighbours(es, frontier[i]) - candidates';
      var best := PickBest(unseen, sim, picks);
      LevelSnoc(es, sim, picks, frontier, candidates, next, i, best);
      NeighboursAreLinked(es, frontier[i]);
      forall n | n in best ensures WithinHops(es, seeds, d + 1, n) {
        OneHopFurther(es, seeds, d, frontier[i], n);
      }
      AddAll(candidates', best);
      AtMostOneMore(|next|, i, picks, |best|);
      candidates' := candidates' + Elements(best);
      next := next + best;
    }
    assert frontier[..|frontier|] == frontier;
  }

  lemma LevelOfNothing(es: set<Edge>, sim: NodeId -> real, picks: nat, frontier: seq<NodeId>, candidates: set<NodeId>)
    ensures Level(es, sim, picks, frontier[..0], candidates, [])
  {
  }

  lemma AddAll(s: set<NodeId>, best: seq<NodeId>)
    requires NoRepeats(best) && forall n :: n in best ==> n !in s
    ensures |s + Elements(best)| == |s| + |best|
  {
    RankLength(best, Elements(best));
  }

  /** n <= a * b, named so that proofs about loops need no arithmetic. */
  ghost predicate AtMost(n: nat, a: nat, b: nat) {
    n <= a * b
  }

  lemma AtMostNothing(p: nat)
    ensures AtMost(0, 0, p)
  {
  }

  lemma AtMostMore(n: nat, a: nat, b: nat, b': nat)
    requires AtMost(n, a, b) && b <= b'
    ensures AtMost(n, a, b')
  {
    assert a * b' == a * b + a * (b' - b);
  }

  lemma AtMostOneMore(n: nat, i: nat, p: nat, more: nat)
    requires AtMost(n, i, p) && more <= p
    ensures AtMost(n + more, i + 1, p)
  {
    assert (i + 1) * p == i * p + p;
  }

  lemma AtMostProduct(next: nat, frontier: nat, p: nat, seeds: nat, q: nat)
    requires AtMost(next, frontier, p) && AtMost(frontier, seeds, q)
    ensures AtMost(next, seeds, p * q)
  {
    assert frontier * p <= (seeds * q) * p;
    assert (seeds * q) * p == seeds * (p * q);
  }

  lemma LevelBound(seeds: nat, p: nat, d: nat, frontier: nat, next: nat, candidates: nat)
    requires AtMost(frontier, seeds, Power(p, d)) && AtMost(next, frontier, p)
    requires AtMost(candidates, seeds, Geometric(p, d))
    ensures AtMost(next, seeds, Power(p, d + 1))
    ensures AtMost(candidates + next, seeds, Geometric(p, d + 1))
  {
    AtMostProduct(next, frontier, p, seeds, Power(p, d));
    assert seeds * (Geometric(p, d) + Power(p, d + 1)) == seeds * Geometric(p, d) + seeds * Power(p, d + 1);
  }

  lemma DepthBound(n: nat, seeds: nat, p: nat, d: nat, d': nat)
    requires AtMost(n, seeds, Geometric(p, d)) && d <= d'
    ensures AtMost(n, seeds, Geometric(p, d'))
  {
    GeometricGrows(p, d, d');
    AtMostMore(n, seeds, Geometric(p, d), Geometric(p, d'));
  }

  lemma GeometricGrows(p: nat, d: nat, d': nat)
    requires d <= d'
    ensures Geometric(p, d) <= Geometric(p, d')
    decreases d'
  {
    if d < d' {
      GeometricGrows(p, d, d' - 1);
    }
  }

  /** The exploration from the seeds. */
  method Explore(es: set<Edge>, sim: NodeId -> real, seeds: seq<NodeId>, picks: nat, maxDepth: nat)
    returns (candidates: set<NodeId>, ghost frontier: seq<NodeId>)
    ensures Explored(es, sim, picks, seeds, maxDepth, frontier, candidates)
    ensures forall n :: n in candidates ==> WithinHops(es, seeds, maxDepth, n)
    ensures AtMost(|candidates|, |seeds|, Geometric(picks, maxDepth))
  {
    hide AtMost, WithinHops, Level, Explored;
    candidates := Elements(seeds);
    var edge := seeds;
    SeedsAreNear(es, seeds);
    ExploredStart(es, sim, picks, seeds);
    var depth: nat := 0;
    while depth < maxDepth
      invariant depth <= maxDepth
      invariant Explored(es, sim, picks, seeds, depth, edge, candidates)
      invariant forall n :: n in edge ==> WithinHops(es, seeds, depth, n)
      invariant forall n :: n in candidates ==> WithinHops(es, seeds, depth, n)
      invariant AtMost(|edge|, |seeds|, Power(picks, depth))
      invariant AtMost(|candidates|, |seeds|, Geometric(picks, depth))
    {
      var next, more := ExpandLevel(es, sim, picks, edge, candidates, seeds, depth);
      LevelBound(|seeds|, picks, depth, |edge|, |next|, |candidates|);
      ExploredNext(es, sim, picks, seeds, depth, edge, candidates, next);
      edge, candidates, depth := next, more, depth + 1;
      if edge == [] {
        break;
      }
    }
    if edge == [] {
      ExploredStays(es, sim, picks, seeds, depth, maxDepth, candidates);
    }
    frontier := edge;
    forall n | n in candidates ensures WithinHops(es, seeds, maxDepth, n) {
      MoreHops(es, seeds, depth, maxDepth, n);
    }
    DepthBound(|candidates|, |seeds|, picks, depth, maxDepth);
  }

  lemma {:induction false} FewElements(s: seq<NodeId>)
    ensures |Elements(s)| <= |s|
  {
    if s == [] {
      assert Elements(s) == {};
    } else {
      FewElements(s[1..]);
      assert Elements(s) == {s[0]} + Elements(s[1..]);
    }
  }

  lemma SeedsAreNear(es: set<Edge>, seeds: seq<NodeId>)
    ensures forall n :: n in seeds ==> WithinHops(es, seeds, 0, n)
    ensures AtMost(|Elements(seeds)|, |seeds|, 1) && AtMost(|seeds|, |seeds|, 1)
  {
    forall n | n in seeds ensures WithinHops(es, seeds, 0, n) {
      assert Hops(es, seeds, 0, n, [n]);
    }
    FewElements(seeds);
  }

  /** Goes through the ids in order and stops at topK results. */
  method LoadInOrder(rows: map<NodeId, Row>, q: Request, ids: seq<NodeId>, topK: nat) returns (results: seq<NodeId>)
    requires topK == 0 ==> ids == []
    ensures results == Take(topK, Filter(LoadTest(q, rows), ids))
  {
    hide Passes, Loads, Filter;
    results := [];
    ghost var keep := LoadTest(q, rows);
    assert forall n :: keep(n) <==> Loads(q, rows, n);
    for i := 0 to |ids|
      invariant |results| < topK || i == 0
      invariant results == Filter(keep, ids[..i])
    {
      assert ids[..i + 1] == ids[..i] + [ids[i]];
      FilterSnoc(keep, ids[..i], ids[i]);
      if Loads(q, rows, ids[i]) {
        results := results + [ids[i]];
        if |results| >= topK {
          FilterPrefix(keep, ids, i + 1);
          return;
        }
      }
    }
    assert ids[..|ids|] == ids;
  }

  /** The whole query: explore, rank all candidates, keep the best 3 * topK,
      and return the first topK of those that pass the filters. */
  method RetrieveRecursiveBfs(es: set<Edge>, rows: map<NodeId, Row>, q: Request, sim: NodeId -> real,
                              seeds: seq<NodeId>, topK: nat, picks: nat, maxDepth: nat)
    returns (results: seq<NodeId>, ghost candidates: set<NodeId>, ghost ranked: seq<NodeId>)
    ensures |candidates| <= |seeds| * Geometric(picks, maxDepth)
    ensures forall n :: n in candidates ==> WithinHops(es, seeds, maxDepth, n)
    ensures exists frontier :: Explored(es, sim, picks, seeds, maxDepth, frontier, candidates)
    ensures Ranks(ranked, candidates, sim)
    ensures results == Take(topK, Filter(LoadTest(q, rows), Take(3 * topK, ranked)))
  {
    hide WithinHops, Passes, Ranks, Geometric, Explored;
    ghost var frontier;
    var found;
    found, frontier := Explore(es, sim, seeds, picks, maxDepth);
    candidates := found;
    var final := Rank(found, sim);
    ranked := final;
    results := LoadInOrder(rows, q, Take(3 * topK, final), topK);
  }

  /** Filtering a prefix gives a prefix. */
  lemma {:induction false} FilterPrefix(keep: NodeId -> bool, s: seq<NodeId>, k: nat)
    requires k <= |s|
    ensures Filter(keep, s[..k]) <= Filter(keep, s)
  {
    if k > 0 {
      FilterPrefix(keep, s[1..], k - 1);
      assert s[..k][1..] == s[1..][..k - 1];
    }
  }

  lemma ResultsPass(q: Request, rows: map<NodeId, Row>, topK: nat, ranked: seq<NodeId>, results: seq<NodeId>)
    requires results == Take(topK, Filter(LoadTest(q, rows), Take(3 * topK, ranked)))
    ensures forall n :: n in results ==> n in ranked && Loads(q, rows, n)
  {
    hide Loads;
    var best := Take(3 * topK, ranked);
    var all := Filter(LoadTest(q, rows), best);
    forall n | n in results ensures n in ranked && Loads(q, rows, n) {
      var i :| 0 <= i < |results| && results[i] == n;
      assert all[i] == n && n in all && n in best;
    }
  }

  /** What a caller sees: few, distinct, passing, explored, best first, and
      nothing better was passed over among the best 3 * topK. */
  lemma ResultsMeanBest(q: Request, rows: map<NodeId, Row>, sim: NodeId -> real, topK: nat,
                        candidates: set<NodeId>, ranked: seq<NodeId>, results: seq<NodeId>)
    requires Ranks(ranked, candidates, sim)
    requires results == Take(topK, Filter(LoadTest(q, rows), Take(3 * topK, ranked)))
    ensures |results| <= topK && NoRepeats(results) && Descending(results, sim)
    ensures forall n :: n in results ==> n in candidates && Loads(q, rows, n)
    ensures forall n, m :: n in results && m in Take(3 * topK, ranked) && Loads(q, rows, m) && m !in results ==>
              |results| == topK && sim(m) <= sim(n)
  {
    hide Loads;
    var keep, best := LoadTest(q, rows), Take(3 * topK, ranked);
    FilterKeepsOrder(keep, best, sim);
    var all := Filter(keep, best);
    ResultsPass(q, rows, topK, ranked, results);
    forall n, m | n in results && m in best && Loads(q, rows, m) && m !in results
      ensures |results| == topK && sim(m) <= sim(n)
    {
      assert keep(m) && m in all;
      var i :| 0 <= i < |results| && results[i] == n;
      var j :| 0 <= j < |all| && all[j] == m;
      assert j >= |results|;
    }
  }

  /** The same in the columns: every result meets the filters, and if there is
      room left, every one of the best 3 * topK that meets them is a result. */
  lemma ResultsInColumns(q: Request, rows: map<NodeId, Row>, topK: nat, ranked: seq<NodeId>, results: seq<NodeId>)
    requires results == Take(topK, Filter(LoadTest(q, rows), Take(3 * topK, ranked)))
    ensures forall n :: n in results ==> MeetsFilters(q, rows, n)
    ensures |results| < topK ==> forall n :: n in Take(3 * topK, ranked) && MeetsFilters(q, rows, n) ==> n in results
  {
    LoadsInColumns(q, rows);
    hide Loads, MeetsFilters;
    var all := Filter(LoadTest(q, rows), Take(3 * topK, ranked));
    ResultsPass(q, rows, topK, ranked, results);
    if |results| < topK {
      assert results == all;
      forall n | n in Take(3 * topK, ranked) && MeetsFilters(q, rows, n) ensures n in results {
        assert LoadTest(q, rows)(n);
      }
    }
  }
}
