/** Sorting by similarity, highest first, as list.sort(reverse=True) does it.
    Ties may fall in any order. */
module Ranking {
  import opened Graph

  predicate Descending(r: seq<NodeId>, sim: NodeId -> real) {
    forall i, j :: 0 <= i < j < |r| ==> sim(r[i]) >= sim(r[j])
  }

  /** r lists exactly the members of s, once each, best first. */
  ghost predicate Ranks(r: seq<NodeId>, s: set<NodeId>, sim: NodeId -> real) {
    && NoRepeats(r)
    && (forall n :: n in r <==> n in s)
    && Descending(r, sim)
  }

  function Insert(r: seq<NodeId>, n: NodeId, sim: NodeId -> real): (r': seq<NodeId>)
    ensures |r'| == |r| + 1
    ensures forall m :: m in r' <==> m in r || m == n
  {
    if r == [] then [n]
    else if sim(n) >= sim(r[0]) then [n] + r
    else [r[0]] + Insert(r[1..], n, sim)
  }

  lemma {:induction false} InsertKeepsOrder(r: seq<NodeId>, n: NodeId, sim: NodeId -> real)
    requires Descending(r, sim) && NoRepeats(r) && n !in r
    ensures Descending(Insert(r, n, sim), sim) && NoRepeats(Insert(r, n, sim))
  {
    if r != [] && sim(n) < sim(r[0]) {
      InsertKeepsOrder(r[1..], n, sim);
      var t := Insert(r[1..], n, sim);
      assert r[0] !in t;
      forall m | m in t ensures sim(r[0]) >= sim(m) {
        if m != n {
          var k :| 0 <= k < |r[1..]| && r[1..][k] == m;
          assert r[k + 1] == m;
        }
      }
    }
  }

  method Rank(s: set<NodeId>, sim: NodeId -> real) returns (r: seq<NodeId>)
    ensures Ranks(r, s, sim) && |r| == |s|
  {
    r := [];
    var rest := s;
    while rest != {}
      invariant rest <= s && Ranks(r, s - rest, sim) && |r| == |s - rest|
      decreases rest
    {
      var n :| n in rest;
      InsertKeepsOrder(r, n, sim);
      assert s - (rest - {n}) == (s - rest) + {n};
      rest := rest - {n};
      r := Insert(r, n, sim);
    }
    assert s - rest == s;
  }

  function Take<T>(k: nat, s: seq<T>): (r: seq<T>)
    ensures |r| <= k && r <= s
  {
    if k <= |s| then s[..k] else s
  }

  function Filter(keep: NodeId -> bool, s: seq<NodeId>): (r: seq<NodeId>)
    ensures |r| <= |s|
    ensures forall n :: n in r <==> n in s && keep(n)
  {
    if s == [] then []
    else if keep(s[0]) then [s[0]] + Filter(keep, s[1..])
    else Filter(keep, s[1..])
  }

  lemma {:induction false} FilterSnoc(keep: NodeId -> bool, s: seq<NodeId>, n: NodeId)
    ensures Filter(keep, s + [n]) == Filter(keep, s) + if keep(n) then [n] else []
  {
    if s != [] {
      assert (s + [n])[1..] == s[1..] + [n];
      FilterSnoc(keep, s[1..], n);
    }
  }

  /** Filtering keeps order and introduces no repeats. */
  lemma {:induction false} FilterKeepsOrder(keep: NodeId -> bool, s: seq<NodeId>, sim: NodeId -> real)
    requires Descending(s, sim) && NoRepeats(s)
    ensures Descending(Filter(keep, s), sim) && NoRepeats(Filter(keep, s))
  {
    if s != [] {
      FilterKeepsOrder(keep, s[1..], sim);
      var t := Filter(keep, s[1..]);
      forall m | m in t ensures sim(s[0]) >= sim(m) && m != s[0] {
        var k :| 0 <= k < |s[1..]| && s[1..][k] == m;
        assert s[k + 1] == m;
      }
    }
  }

  /** Two rankings of the same set have the same similarities in the same places. */
  lemma {:induction false} RankingScoresUnique(r1: seq<NodeId>, r2: seq<NodeId>, s: set<NodeId>, sim: NodeId -> real)
    requires Ranks(r1, s, sim) && Ranks(r2, s, sim)
    ensures |r1| == |r2| == |s|
    ensures forall i :: 0 <= i < |r1| ==> sim(r1[i]) == sim(r2[i])
  {
    RankLength(r1, s);
    RankLength(r2, s);
    forall i | 0 <= i < |r1| ensures sim(r1[i]) == sim(r2[i]) {
      HeadsAgree(r1, r2, s, sim, i);
      HeadsAgree(r2, r1, s, sim, i);
    }
  }

  lemma {:induction false} RankLength(r: seq<NodeId>, s: set<NodeId>)
    requires NoRepeats(r) && forall n :: n in r <==> n in s
    ensures |r| == |s|
  {
    if r == [] {
      assert s == {};
    } else {
      assert r == r[..|r| - 1] + [r[|r| - 1]];
      RankLength(r[..|r| - 1], s - {r[|r| - 1]});
    }
  }

  function Elements(r: seq<NodeId>): (s: set<NodeId>) {
    set n | n in r
  }

  /** The (i+1) best of one ranking cannot all be among the i best of another. */
  lemma Pigeonhole(r1: seq<NodeId>, r2: seq<NodeId>, i: nat) returns (k: nat)
    requires NoRepeats(r1) && NoRepeats(r2) && i < |r1| == |r2|
    ensures k <= i && forall m :: 0 <= m < i ==> r2[m] != r1[k]
  {
    var top, low := Elements(r1[..i + 1]), Elements(r2[..i]);
    RankLength(r1[..i + 1], top);
    RankLength(r2[..i], low);
    if top <= low {
      SubsetNotLarger(top, low);
    }
    var n :| n in top && n !in low;
    k :| 0 <= k < i + 1 && r1[k] == n;
  }

  lemma HeadsAgree(r1: seq<NodeId>, r2: seq<NodeId>, s: set<NodeId>, sim: NodeId -> real, i: nat)
    requires Ranks(r1, s, sim) && Ranks(r2, s, sim) && i < |r1| == |r2|
    ensures sim(r1[i]) <= sim(r2[i])
  {
    var k := Pigeonhole(r1, r2, i);
    assert r1[k] in r1;
    var m :| 0 <= m < |r2| && r2[m] == r1[k];
    assert sim(r1[i]) <= sim(r1[k]) == sim(r2[m]) <= sim(r2[i]);
  }

  /** With distinct similarities there is only one ranking. */
  lemma RankingUnique(r1: seq<NodeId>, r2: seq<NodeId>, s: set<NodeId>, sim: NodeId -> real)
    requires Ranks(r1, s, sim) && Ranks(r2, s, sim)
    requires forall m, n :: m in s && n in s && sim(m) == sim(n) ==> m == n
    ensures r1 == r2
  {
    RankingScoresUnique(r1, r2, s, sim);
    forall i | 0 <= i < |r1| ensures r1[i] == r2[i] {
      assert r1[i] in r1 && r2[i] in r2;
    }
  }
}
