/** Semantic search through the vec index and by scanning all embeddings
    (core/embeddings.py, search and compact_vec_index). */
module VecSearch {
  import opened Graph
  import opened Ranking

  /** Stored vectors; the query fixes how similar each one is, and which ones
      the scan can use at all (right dimension, non-zero norm). */
  type Vector(==, !new)

  datatype Query = Query(sim: Vector -> real, usable: Vector -> bool)

  type Hit = (NodeId, real)

  /** thought_nodes.decayed of every stored node, as SQLite holds it. */
  type Flags = map<NodeId, Option<int>>

  predicate LiveFlag(flags: Flags, n: NodeId) {
    n in flags && (flags[n].None? || flags[n].value == 0)
  }

  function LiveTest(flags: Flags): (f: NodeId -> bool) {
    n => LiveFlag(flags, n)
  }

  /** What compact_vec_index deletes: rows of missing nodes and of nodes with decayed = 1. */
  predicate Compactable(flags: Flags, n: NodeId) {
    n !in flags || flags[n] == Some(1)
  }

  function Score(table: map<NodeId, Vector>, q: Query): (f: NodeId -> real) {
    n => if n in table then q.sim(table[n]) else 0.0
  }

  function Hits(ids: seq<NodeId>, f: NodeId -> real): (r: seq<Hit>)
    ensures |r| == |ids|
    ensures forall i :: 0 <= i < |r| ==> r[i] == (ids[i], f(ids[i]))
  {
    seq(|ids|, i requires 0 <= i < |ids| => (ids[i], f(ids[i])))
  }

  function Scannable(flags: Flags, embeddings: map<NodeId, Vector>, q: Query): (r: set<NodeId>) {
    set n | n in embeddings && LiveFlag(flags, n) && q.usable(embeddings[n])
  }

  function StaleRows(flags: Flags, vec: map<NodeId, Vector>): (r: set<NodeId>) {
    set n | n in vec && !LiveFlag(flags, n)
  }

  /** The index rows of live nodes are exactly the usable live embeddings. */
  ghost predicate InSync(flags: Flags, embeddings: map<NodeId, Vector>, vec: map<NodeId, Vector>, q: Query) {
    forall n :: LiveFlag(flags, n) ==>
      && (n in vec <==> n in embeddings && q.usable(embeddings[n]))
      && (n in vec ==> vec[n] == embeddings[n])
  }

  function Overfetch(k: nat): (r: nat)
    ensures r >= 3 * k && r >= k + 20 && (r == 3 * k || r == k + 20)
  {
    if 3 * k >= k + 20 then 3 * k else k + 20
  }

  /** r answers the scan: the k best usable live embeddings. */
  ghost predicate ScanAnswer(flags: Flags, embeddings: map<NodeId, Vector>, q: Query, k: nat, r: seq<Hit>) {
    exists ranked ::
      Ranks(ranked, Scannable(flags, embeddings, q), Score(embeddings, q)) &&
      r == Hits(Take(k, ranked), Score(embeddings, q))
  }

  /** The live rows among the first `Overfetch(k)` of one ranking of the index. */
  function LiveHead(flags: Flags, ranked: seq<NodeId>, k: nat): (r: seq<NodeId>) {
    Filter(LiveTest(flags), Take(Overfetch(k), ranked))
  }

  ghost predicate IndexAnswer(flags: Flags, vec: map<NodeId, Vector>, q: Query, k: nat, ranked: seq<NodeId>,
                              r: seq<Hit>)
  {
    && Ranks(ranked, vec.Keys, Score(vec, q))
    && r == Hits(Take(k, LiveHead(flags, ranked, k)), Score(vec, q))
  }

  /** The tables of one graph file. */
  class EmbeddingTables {
    var flags: Flags
    var embeddings: map<NodeId, Vector>
    var vec: map<NodeId, Vector>

    constructor (flags: Flags, embeddings: map<NodeId, Vector>, vec: map<NodeId, Vector>)
      ensures this.flags == flags && this.embeddings == embeddings && this.vec == vec
    {
      this.flags, this.embeddings, this.vec := flags, embeddings, vec;
    }

    method IndexSearch(q: Query, k: nat) returns (r: seq<Hit>, ghost ranked: seq<NodeId>)
      ensures IndexAnswer(flags, vec, q, k, ranked, r)
    {
      var rows := Rank(vec.Keys, Score(vec, q));
      ranked := rows;
      var live := Filter(LiveTest(flags), Take(Overfetch(k), rows));
      r := Hits(Take(k, live), Score(vec, q));
    }

    method ScanSearch(q: Query, k: nat) returns (r: seq<Hit>)
      ensures ScanAnswer(flags, embeddings, q, k, r)
    {
      var results: set<NodeId> := {};
      var rest := embeddings.Keys;
      while rest != {}
        invariant rest <= embeddings.Keys
        invariant forall n :: n in results <==>
          n in embeddings && n !in rest && LiveFlag(flags, n) && q.usable(embeddings[n])
        decreases rest
      {
        var n :| n in rest;
        rest := rest - {n};
        if LiveFlag(flags, n) && q.usable(embeddings[n]) {
          results := results + {n};
        }
      }
      assert results == Scannable(flags, embeddings, q);
      var ranked := Rank(results, Score(embeddings, q));
      r := Hits(Take(k, ranked), Score(embeddings, q));
    }

    /** The index answers when it is there and does not fail; otherwise the scan
        does. Whichever answered: at most k distinct live thoughts, and if the
        index is in sync and the stale rows fit, the scan's similarities. */
    method Search(q: Query, k: nat, indexUsable: bool, indexFails: bool) returns (r: seq<Hit>)
      ensures |r| <= k && LiveOnce(flags, r)
      ensures !indexUsable || indexFails ==> ScanAnswer(flags, embeddings, q, k, r)
      ensures indexUsable && !indexFails ==> exists ranked :: IndexAnswer(flags, vec, q, k, ranked, r)
      ensures InSync(flags, embeddings, vec, q) && StaleFit(flags, embeddings, vec, q, k) ==>
        exists slow :: ScanAnswer(flags, embeddings, q, k, slow) && SameScores(r, slow)
      ensures InSync(flags, embeddings, vec, q) && StaleFit(flags, embeddings, vec, q, k) ==>
        DistinctScores(Scannable(flags, embeddings, q), Score(embeddings, q)) ==>
        ScanAnswer(flags, embeddings, q, k, r)
    {
      hide InSync, StaleFit, DistinctScores, IndexAnswer, ScanAnswer, LiveOnce;
      if indexUsable && !indexFails {
        ghost var ranked;
        r, ranked := IndexSearch(q, k);
        IndexAnswerIsLive(flags, vec, q, k, ranked, r);
        if InSync(flags, embeddings, vec, q) && StaleFit(flags, embeddings, vec, q, k) {
          ghost var slow := ScanFromIndex(flags, embeddings, vec, q, k, ranked, r);
          StaleFitAgrees(flags, embeddings, vec, q, k, ranked, r, slow);
        }
      } else {
        r := ScanSearch(q, k);
        ScanAnswerIsLive(flags, embeddings, q, k, r);
        assert SameScores(r, r);
      }
    }

    method CompactVecIndex() returns (deleted: nat)
      modifies `vec
      ensures forall n :: n in vec <==> n in old(vec) && n in flags && flags[n] != Some(1)
      ensures forall n :: n in vec ==> vec[n] == old(vec)[n]
      ensures vec == map n | n in old(vec) && !Compactable(flags, n) :: old(vec)[n]
      ensures deleted == |old(vec)| - |vec|
    {
      ghost var before := vec;
      var stale := set n | n in vec && Compactable(flags, n);
      var rest := stale;
      while rest != {}
        invariant rest <= stale && vec == before - (stale - rest)
        decreases rest
      {
        var n :| n in rest;
        rest := rest - {n};
        vec := vec - {n};
      }
      deleted := |stale|;
      assert vec.Keys == before.Keys - stale;
    }
  }

  // ----- The two sides in the columns themselves -----

  /** What the scan can return: stored thoughts with a usable embedding and a flag
      that is NULL or 0. */
  lemma ScannableInColumns(flags: Flags, embeddings: map<NodeId, Vector>, q: Query, n: NodeId)
    ensures n in Scannable(flags, embeddings, q) <==>
      n in embeddings && q.usable(embeddings[n]) && n in flags && (flags[n] == None || flags[n] == Some(0))
  {
  }

  /** What makes an index row stale: its thought is missing, or its flag is neither NULL nor 0. */
  lemma StaleInColumns(flags: Flags, vec: map<NodeId, Vector>, n: NodeId)
    ensures n in StaleRows(flags, vec) <==>
      n in vec && (n !in flags || (flags[n] != None && flags[n] != Some(0)))
  {
  }

  /** Each hit of an answer carries the similarity of the thought's own vector. */
  lemma HitsAreScored(flags: Flags, embeddings: map<NodeId, Vector>, vec: map<NodeId, Vector>, q: Query, k: nat,
                      r: seq<Hit>, i: nat)
    requires i < |r|
    ensures ScanAnswer(flags, embeddings, q, k, r) ==> r[i].0 in embeddings && r[i].1 == q.sim(embeddings[r[i].0])
    ensures (exists ranked :: IndexAnswer(flags, vec, q, k, ranked, r)) ==>
      r[i].0 in vec && r[i].1 == q.sim(vec[r[i].0])
  {
    if ScanAnswer(flags, embeddings, q, k, r) {
      var ranked :| Ranks(ranked, Scannable(flags, embeddings, q), Score(embeddings, q)) &&
        r == Hits(Take(k, ranked), Score(embeddings, q));
      assert ranked[i] in ranked;
    }
    if ranked :| IndexAnswer(flags, vec, q, k, ranked, r) {
      var head := LiveHead(flags, ranked, k);
      assert head[i] in head && head[i] in ranked;
    }
  }

  // ----- When the two paths agree -----

  function Least(a: nat, b: nat): (r: nat) {
    if a <= b then a else b
  }

  /** Dropping stale rows from the index's ranking ranks the scan's set. */
  lemma LiveRankingIsScan(flags: Flags, embeddings: map<NodeId, Vector>, vec: map<NodeId, Vector>, q: Query,
                          ranked: seq<NodeId>)
    requires InSync(flags, embeddings, vec, q) && Ranks(ranked, vec.Keys, Score(vec, q))
    ensures Ranks(Filter(LiveTest(flags), ranked), Scannable(flags, embeddings, q), Score(embeddings, q))
  {
    var live := Filter(LiveTest(flags), ranked);
    FilterKeepsOrder(LiveTest(flags), ranked, Score(vec, q));
    forall n | n in live ensures Score(vec, q)(n) == Score(embeddings, q)(n) {
      assert LiveFlag(flags, n);
    }
    forall i, j | 0 <= i < j < |live| ensures Score(embeddings, q)(live[i]) >= Score(embeddings, q)(live[j]) {
      assert live[i] in live && live[j] in live;
    }
  }

  /** The live head is a prefix of the whole live ranking. */
  lemma {:induction false} FilterTake(keep: NodeId -> bool, s: seq<NodeId>, k: nat)
    ensures Filter(keep, Take(k, s)) <= Filter(keep, s)
  {
    if s != [] && k > 0 {
      FilterTake(keep, s[1..], k - 1);
      assert Take(k, s)[1..] == Take(k - 1, s[1..]);
    }
  }

  ghost predicate SameScores(r1: seq<Hit>, r2: seq<Hit>) {
    |r1| == |r2| && forall i :: 0 <= i < |r1| ==> r1[i].1 == r2[i].1
  }

  /** However ties fall, both paths return the same similarities exactly when
      enough live rows survive the over-fetch; with distinct similarities they
      then return the same list. */
  lemma HeadLengthDecides(flags: Flags, embeddings: map<NodeId, Vector>, vec: map<NodeId, Vector>, q: Query, k: nat,
                          ranked: seq<NodeId>, fast: seq<Hit>, slow: seq<Hit>)
    requires InSync(flags, embeddings, vec, q)
    requires IndexAnswer(flags, vec, q, k, ranked, fast) && ScanAnswer(flags, embeddings, q, k, slow)
    ensures SameScores(fast, slow) <==>
            |LiveHead(flags, ranked, k)| >= Least(k, |Scannable(flags, embeddings, q)|)
    ensures SameScores(fast, slow) && DistinctScores(Scannable(flags, embeddings, q), Score(embeddings, q)) ==>
            fast == slow
  {
    hide InSync, IndexAnswer, LiveHead, SameScores;
    var L, f := Scannable(flags, embeddings, q), Score(embeddings, q);
    assert Ranks(ranked, vec.Keys, Score(vec, q)) by { IndexAnswerRanks(flags, vec, q, k, ranked, fast); }
    var scan :| Ranks(scan, L, f) && slow == Hits(Take(k, scan), f);
    var live := Filter(LiveTest(flags), ranked);
    LiveRankingIsScan(flags, embeddings, vec, q, ranked);
    IndexHitsAreLivePrefix(flags, embeddings, vec, q, k, ranked, fast);
    RankingScoresUnique(live, scan, L, f);
    PrefixesCompare(live, scan, f, k, |LiveHead(flags, ranked, k)|, fast, slow);
    if DistinctScores(L, f) {
      RankingUnique(live, scan, L, f);
    }
  }

  lemma IndexAnswerRanks(flags: Flags, vec: map<NodeId, Vector>, q: Query, k: nat, ranked: seq<NodeId>, r: seq<Hit>)
    requires IndexAnswer(flags, vec, q, k, ranked, r)
    ensures Ranks(ranked, vec.Keys, Score(vec, q))
  {
  }

  lemma PrefixesCompare(live: seq<NodeId>, scan: seq<NodeId>, f: NodeId -> real, k: nat, h: nat, fast: seq<Hit>,
                        slow: seq<Hit>)
    requires |live| == |scan| && forall i :: 0 <= i < |live| ==> f(live[i]) == f(scan[i])
    requires h <= |live| && |fast| == Least(k, h)
    requires forall i :: 0 <= i < |fast| ==> fast[i] == (live[i], f(live[i]))
    requires slow == Hits(Take(k, scan), f)
    ensures SameScores(fast, slow) <==> h >= Least(k, |live|)
    ensures SameScores(fast, slow) && live == scan ==> fast == slow
  {
    assert |slow| == Least(k, |scan|);
    assert forall i :: 0 <= i < |slow| ==> slow[i] == (scan[i], f(scan[i]));
  }

  /** The index path returns a prefix of the live ranking, with the scan's similarities. */
  lemma IndexHitsAreLivePrefix(flags: Flags, embeddings: map<NodeId, Vector>, vec: map<NodeId, Vector>, q: Query,
                               k: nat, ranked: seq<NodeId>, fast: seq<Hit>)
    requires InSync(flags, embeddings, vec, q) && IndexAnswer(flags, vec, q, k, ranked, fast)
    ensures var live := Filter(LiveTest(flags), ranked);
            && |fast| == Least(k, |LiveHead(flags, ranked, k)|) && |LiveHead(flags, ranked, k)| <= |live|
            && forall i :: 0 <= i < |fast| ==> fast[i] == (live[i], Score(embeddings, q)(live[i]))
  {
    var live, head := Filter(LiveTest(flags), ranked), LiveHead(flags, ranked, k);
    FilterTake(LiveTest(flags), ranked, Overfetch(k));
    forall i | 0 <= i < |fast| ensures fast[i] == (live[i], Score(embeddings, q)(live[i])) {
      assert fast[i].0 == head[i] == live[i];
      assert live[i] in live;
      assert LiveFlag(flags, live[i]);
    }
  }

  ghost predicate DistinctScores(s: set<NodeId>, f: NodeId -> real) {
    forall m, n :: m in s && n in s && f(m) == f(n) ==> m == n
  }

  lemma {:induction false} FewStale(flags: Flags, s: seq<NodeId>, stale: set<NodeId>)
    requires NoRepeats(s) && forall n :: n in s && !LiveFlag(flags, n) ==> n in stale
    ensures |Filter(LiveTest(flags), s)| >= |s| - |stale|
  {
    if s != [] {
      if LiveFlag(flags, s[0]) {
        FewStale(flags, s[1..], stale);
      } else {
        assert s[0] !in s[1..];
        FewStale(flags, s[1..], stale - {s[0]});
      }
    }
  }

  /** Even with every stale row ranked first, the over-fetch reaches all that
      the scan returns. */
  predicate StaleFit(flags: Flags, embeddings: map<NodeId, Vector>, vec: map<NodeId, Vector>, q: Query, k: nat) {
    var n := Least(k, |Scannable(flags, embeddings, q)|);
    n == 0 || |StaleRows(flags, vec)| + n <= Overfetch(k)
  }

  lemma StaleFitAgrees(flags: Flags, embeddings: map<NodeId, Vector>, vec: map<NodeId, Vector>, q: Query, k: nat,
                       ranked: seq<NodeId>, fast: seq<Hit>, slow: seq<Hit>)
    requires InSync(flags, embeddings, vec, q) && StaleFit(flags, embeddings, vec, q, k)
    requires IndexAnswer(flags, vec, q, k, ranked, fast) && ScanAnswer(flags, embeddings, q, k, slow)
    ensures SameScores(fast, slow)
    ensures DistinctScores(Scannable(flags, embeddings, q), Score(embeddings, q)) ==> fast == slow
  {
    var keep := LiveTest(flags);
    HeadLengthDecides(flags, embeddings, vec, q, k, ranked, fast, slow);
    LiveRankingIsScan(flags, embeddings, vec, q, ranked);
    RankLength(Filter(keep, ranked), Scannable(flags, embeddings, q));
    if |ranked| <= Overfetch(k) {
      assert Take(Overfetch(k), ranked) == ranked;
    } else {
      FewStale(flags, Take(Overfetch(k), ranked), StaleRows(flags, vec));
    }
  }

  lemma {:induction false} FilterAppend(keep: NodeId -> bool, s: seq<NodeId>, t: seq<NodeId>)
    ensures Filter(keep, s + t) == Filter(keep, s) + Filter(keep, t)
  {
    if s == [] {
      assert s + t == t;
    } else {
      assert (s + t)[1..] == s[1..] + t;
      FilterAppend(keep, s[1..], t);
    }
  }

  lemma {:induction false} FilterKeepsAll(keep: NodeId -> bool, s: seq<NodeId>)
    requires forall n :: n in s ==> keep(n)
    ensures Filter(keep, s) == s
  {
    if s != [] {
      FilterKeepsAll(keep, s[1..]);
    }
  }

  lemma {:induction false} FilterDropsAll(keep: NodeId -> bool, s: seq<NodeId>)
    requires forall n :: n in s ==> !keep(n)
    ensures Filter(keep, s) == []
  {
    if s != [] {
      FilterDropsAll(keep, s[1..]);
    }
  }

  /** The head of a list of stale rows followed by live ones. */
  lemma HeadOfStaleFirst(flags: Flags, stale: seq<NodeId>, live: seq<NodeId>, k: nat)
    requires forall n :: n in stale ==> !LiveFlag(flags, n)
    requires forall n :: n in live ==> LiveFlag(flags, n)
    requires Overfetch(k) <= |stale| + |live|
    ensures |LiveHead(flags, stale + live, k)| == if |stale| >= Overfetch(k) then 0 else Overfetch(k) - |stale|
  {
    var keep, o := LiveTest(flags), Overfetch(k);
    if |stale| >= o {
      assert Take(o, stale + live) == stale[..o];
      FilterDropsAll(keep, stale[..o]);
    } else {
      assert Take(o, stale + live) == stale + live[..o - |stale|];
      FilterAppend(keep, stale, live[..o - |stale|]);
      FilterDropsAll(keep, stale);
      FilterKeepsAll(keep, live[..o - |stale|]);
    }
  }

  lemma {:induction false} Listing(s: set<NodeId>) returns (r: seq<NodeId>)
    ensures NoRepeats(r) && (forall n :: n in r <==> n in s) && |r| == |s|
    decreases s
  {
    r := [];
    if s != {} {
      var n :| n in s;
      r := Listing(s - {n});
      r := r + [n];
    }
  }

  function Flat(q: Query): (q': Query) {
    Query(v => 0.0, q.usable)
  }

  /** A query as similar to every row, and an index ranking with the stale rows first. */
  lemma StaleFirst(flags: Flags, embeddings: map<NodeId, Vector>, vec: map<NodeId, Vector>, q: Query)
    returns (stale: seq<NodeId>, live: seq<NodeId>)
    requires InSync(flags, embeddings, vec, q)
    ensures Ranks(stale + live, vec.Keys, Score(vec, Flat(q))) && |stale| == |StaleRows(flags, vec)|
    ensures Ranks(live, Scannable(flags, embeddings, q), Score(embeddings, Flat(q)))
    ensures |live| == |Scannable(flags, embeddings, q)|
    ensures (forall n :: n in stale ==> !LiveFlag(flags, n)) && forall n :: n in live ==> LiveFlag(flags, n)
  {
    stale := Listing(StaleRows(flags, vec));
    live := Listing(Scannable(flags, embeddings, q));
    var all := stale + live;
    forall i, j | 0 <= i < j < |all| ensures all[i] != all[j] {
      if i < |stale| <= j {
        assert all[i] in stale && all[j] in live;
      }
    }
  }

  /** Where the stale rows do not fit, some similarity and some order of ties
      makes the index path return too little: this much. */
  lemma UnfitDisagrees(flags: Flags, embeddings: map<NodeId, Vector>, vec: map<NodeId, Vector>, q: Query, k: nat)
    returns (ranked: seq<NodeId>, fast: seq<Hit>, slow: seq<Hit>)
    requires InSync(flags, embeddings, vec, q) && !StaleFit(flags, embeddings, vec, q, k)
    ensures IndexAnswer(flags, vec, Flat(q), k, ranked, fast) && ScanAnswer(flags, embeddings, Flat(q), k, slow)
    ensures |fast| == var s := |StaleRows(flags, vec)|; if s >= Overfetch(k) then 0 else Overfetch(k) - s
    ensures |fast| < |slow| == Least(k, |Scannable(flags, embeddings, q)|)
  {
    hide InSync, LiveHead, Ranks;
    var stale, live := StaleFirst(flags, embeddings, vec, q);
    ranked := stale + live;
    HeadOfStaleFirst(flags, stale, live, k);
    fast := Hits(Take(k, LiveHead(flags, ranked, k)), Score(vec, Flat(q)));
    slow := Hits(Take(k, live), Score(embeddings, Flat(q)));
    assert Scannable(flags, embeddings, Flat(q)) == Scannable(flags, embeddings, q);
  }

  /** For every query that can use the same rows, however ties fall, the paths
      return the same similarities, and the same list if these are distinct. */
  ghost predicate AlwaysAgree(flags: Flags, embeddings: map<NodeId, Vector>, vec: map<NodeId, Vector>,
                              usable: Vector -> bool, k: nat)
  {
    forall sim, ranked, fast, slow ::
      && IndexAnswer(flags, vec, Query(sim, usable), k, ranked, fast)
      && ScanAnswer(flags, embeddings, Query(sim, usable), k, slow)
      ==>
      && SameScores(fast, slow)
      && (DistinctScores(Scannable(flags, embeddings, Query(sim, usable)), Score(embeddings, Query(sim, usable))) ==>
            fast == slow)
  }

  /** With the live rows of the index in sync, the two paths always agree if and
      only if the scan has nothing to return or the stale rows and the rows to
      return fit together into the over-fetch. */
  lemma PathsAgreeIff(flags: Flags, embeddings: map<NodeId, Vector>, vec: map<NodeId, Vector>, q: Query, k: nat)
    requires InSync(flags, embeddings, vec, q)
    ensures AlwaysAgree(flags, embeddings, vec, q.usable, k) <==>
      var n := Least(k, |Scannable(flags, embeddings, q)|);
      n == 0 || |StaleRows(flags, vec)| + n <= Overfetch(k)
  {
    hide IndexAnswer, ScanAnswer;
    if StaleFit(flags, embeddings, vec, q, k) {
      forall sim, ranked, fast, slow |
        && IndexAnswer(flags, vec, Query(sim, q.usable), k, ranked, fast)
        && ScanAnswer(flags, embeddings, Query(sim, q.usable), k, slow)
        ensures SameScores(fast, slow)
        ensures var q' := Query(sim, q.usable);
                DistinctScores(Scannable(flags, embeddings, q'), Score(embeddings, q')) ==> fast == slow
      {
        var q' := Query(sim, q.usable);
        assert Scannable(flags, embeddings, q') == Scannable(flags, embeddings, q);
        StaleFitAgrees(flags, embeddings, vec, q', k, ranked, fast, slow);
      }
    } else {
      var ranked, fast, slow := UnfitDisagrees(flags, embeddings, vec, q, k);
      assert !SameScores(fast, slow);
    }
  }

  /** At most overfetch - top_k stale rows fit, whatever the live ones are. */
  lemma FewStaleRowsSuffice(flags: Flags, embeddings: map<NodeId, Vector>, vec: map<NodeId, Vector>, q: Query, k: nat)
    requires InSync(flags, embeddings, vec, q) && |StaleRows(flags, vec)| <= Overfetch(k) - k
    ensures AlwaysAgree(flags, embeddings, vec, q.usable, k)
  {
    PathsAgreeIff(flags, embeddings, vec, q, k);
  }

  // ----- What the index path returns in any case -----

  /** Distinct stored thoughts, none flagged as decayed. */
  ghost predicate LiveOnce(flags: Flags, r: seq<Hit>) {
    && (forall i :: 0 <= i < |r| ==> r[i].0 in flags && (flags[r[i].0] == None || flags[r[i].0] == Some(0)))
    && (forall i, j :: 0 <= i < j < |r| ==> r[i].0 != r[j].0)
  }

  lemma IndexAnswerIsLive(flags: Flags, vec: map<NodeId, Vector>, q: Query, k: nat, ranked: seq<NodeId>, r: seq<Hit>)
    requires IndexAnswer(flags, vec, q, k, ranked, r)
    ensures |r| <= k && LiveOnce(flags, r)
  {
    var head := LiveHead(flags, ranked, k);
    FilterKeepsOrder(LiveTest(flags), Take(Overfetch(k), ranked), Score(vec, q));
    forall i | 0 <= i < |r| ensures r[i].0 in flags && (flags[r[i].0] == None || flags[r[i].0] == Some(0)) {
      assert head[i] in head;
    }
  }

  lemma ScanAnswerIsLive(flags: Flags, embeddings: map<NodeId, Vector>, q: Query, k: nat, r: seq<Hit>)
    requires ScanAnswer(flags, embeddings, q, k, r)
    ensures |r| <= k && LiveOnce(flags, r)
  {
    var ranked :| Ranks(ranked, Scannable(flags, embeddings, q), Score(embeddings, q)) &&
      r == Hits(Take(k, ranked), Score(embeddings, q));
    forall i | 0 <= i < |r| ensures r[i].0 in flags && (flags[r[i].0] == None || flags[r[i].0] == Some(0)) {
      assert ranked[i] in ranked;
    }
  }

  /** An index in sync holds a ranking of the scan's rows. */
  lemma ScanFromIndex(flags: Flags, embeddings: map<NodeId, Vector>, vec: map<NodeId, Vector>, q: Query, k: nat,
                      ranked: seq<NodeId>, fast: seq<Hit>) returns (slow: seq<Hit>)
    requires InSync(flags, embeddings, vec, q) && IndexAnswer(flags, vec, q, k, ranked, fast)
    ensures ScanAnswer(flags, embeddings, q, k, slow)
  {
    LiveRankingIsScan(flags, embeddings, vec, q, ranked);
    slow := Hits(Take(k, Filter(LiveTest(flags), ranked)), Score(embeddings, q));
  }

  // ----- Compaction -----

  /** Compaction leaves stale exactly the rows whose flag is neither NULL, 0 nor 1. */
  lemma CompactionRemovesStale(flags: Flags, vec: map<NodeId, Vector>)
    ensures var vec' := map n | n in vec && !Compactable(flags, n) :: vec[n];
            StaleRows(flags, vec') ==
              set n | n in vec && n in flags && flags[n] != None && flags[n] != Some(0) && flags[n] != Some(1)
  {
  }

  /** With flags as this code writes them, after compaction the paths agree for every top_k. */
  lemma AgreeAfterCompaction(flags: Flags, embeddings: map<NodeId, Vector>, vec: map<NodeId, Vector>, q: Query, k: nat)
    requires forall n :: n in flags ==> flags[n] == None || flags[n] == Some(0) || flags[n] == Some(1)
    requires InSync(flags, embeddings, vec, q)
    ensures var vec' := map n | n in vec && !Compactable(flags, n) :: vec[n];
            AlwaysAgree(flags, embeddings, vec', q.usable, k)
  {
    var vec' := map n | n in vec && !Compactable(flags, n) :: vec[n];
    CompactionRemovesStale(flags, vec);
    assert StaleRows(flags, vec') == {};
    FewStaleRowsSuffice(flags, embeddings, vec', q, k);
  }

  // ----- No share of live rows is enough -----

  function Named(id: nat -> NodeId, from: nat, to: nat): (r: set<NodeId>) {
    set i: nat | from <= i < to :: id(i)
  }

  lemma {:induction false} NamedCount(id: nat -> NodeId, from: nat, to: nat)
    requires from <= to && forall i: nat, j: nat :: id(i) == id(j) ==> i == j
    ensures |Named(id, from, to)| == to - from
  {
    if from < to {
      NamedCount(id, from, to - 1);
      assert Named(id, from, to) == Named(id, from, to - 1) + {id(to - 1)};
    }
  }

  /** Tables with the rows `gone` decayed and the rows `kept` live, one vector for all. */
  lemma HalfDecayed(gone: set<NodeId>, kept: set<NodeId>, v: Vector, q: Query)
    returns (flags: Flags, vec: map<NodeId, Vector>)
    requires gone !! kept && q.usable(v)
    ensures InSync(flags, vec, vec, q) && Scannable(flags, vec, q) == kept && StaleRows(flags, vec) == gone
  {
    flags := map n | n in gone + kept :: if n in gone then Some(1) else Some(0);
    vec := map n | n in gone + kept :: v;
  }

  /** Over-fetching a multiple of top_k guarantees nothing by share: with any
      number of live rows, `overfetch` stale ones can hide them all. */
  lemma StaleHeadHidesLive(id: nat -> NodeId, v: Vector, q: Query, k: nat, live: nat)
    returns (flags: Flags, vec: map<NodeId, Vector>, ranked: seq<NodeId>, fast: seq<Hit>, slow: seq<Hit>)
    requires forall i: nat, j: nat :: id(i) == id(j) ==> i == j
    requires k > 0 && live > 0 && q.usable(v)
    ensures InSync(flags, vec, vec, q)
    ensures |Scannable(flags, vec, q)| == live && |StaleRows(flags, vec)| == Overfetch(k)
    ensures IndexAnswer(flags, vec, Flat(q), k, ranked, fast) && ScanAnswer(flags, vec, Flat(q), k, slow)
    ensures fast == [] && |slow| == Least(k, live)
  {
    hide InSync, Scannable, StaleRows, IndexAnswer, ScanAnswer;
    var o := Overfetch(k);
    NamedCount(id, 0, o);
    NamedCount(id, o, o + live);
    flags, vec := HalfDecayed(Named(id, 0, o), Named(id, o, o + live), v, q);
    ranked, fast, slow := UnfitDisagrees(flags, vec, vec, q, k);
  }
}
