/** Cascading decay, its dry run, the direct decay gate and promotion
    (core/decay.py and core/permanence.py). */
module Decay {
  import opened Graph

  /** The part of the cascade gate that looks at the child's own row. */
  predicate Eligible(ns: Thoughts, c: NodeId) {
    && c in ns && !ns[c].decayed && !ns[c].permanent
    && (ns[c].access.None? || ns[c].access.value <= 0)
    && ns[c].older30
  }

  predicate Source(root: NodeId, S: set<NodeId>, p: NodeId) {
    p == root || p in S
  }

  /** One round of the cascade rule: c has a parent among the root and S, and
      every parent that was live before the run lies in S. */
  ghost predicate Joins(ns: Thoughts, es: set<Edge>, root: NodeId, S: set<NodeId>, c: NodeId) {
    && Eligible(ns, c)
    && (exists p :: (p, c) in es && Source(root, S, p))
    && (forall p :: (p, c) in es && Live(ns, p) ==> p in S)
  }

  ghost predicate Closed(ns: Thoughts, es: set<Edge>, root: NodeId, S: set<NodeId>) {
    forall c :: Joins(ns, es, root, S, c) ==> c in S
  }

  /** S is the least set closed under the cascade rule. */
  ghost predicate IsCascade(ns: Thoughts, es: set<Edge>, root: NodeId, S: set<NodeId>) {
    && Closed(ns, es, root, S)
    && (forall S' :: Closed(ns, es, root, S') ==> S <= S')
  }

  /** The dry run never marks anything, so a child joins only when its live
      parents are at most the node being processed. */
  ghost predicate PreviewJoins(ns: Thoughts, es: set<Edge>, root: NodeId, T: set<NodeId>, c: NodeId) {
    && Eligible(ns, c)
    && (exists p :: (p, c) in es && Source(root, T, p) && OnlyLiveParent(ns, es, p, c))
  }

  ghost predicate OnlyLiveParent(ns: Thoughts, es: set<Edge>, p: NodeId, c: NodeId) {
    forall q :: (q, c) in es && Live(ns, q) ==> q == p
  }

  ghost predicate PreviewClosed(ns: Thoughts, es: set<Edge>, root: NodeId, T: set<NodeId>) {
    forall c :: PreviewJoins(ns, es, root, T, c) ==> c in T
  }

  ghost predicate IsPreview(ns: Thoughts, es: set<Edge>, root: NodeId, T: set<NodeId>) {
    && PreviewClosed(ns, es, root, T)
    && (forall T' :: PreviewClosed(ns, es, root, T') ==> T <= T')
  }

  /** The least closed set is also a fixpoint: nothing decays without a reason. */
  lemma CascadeIsFixpoint(ns: Thoughts, es: set<Edge>, root: NodeId, S: set<NodeId>)
    requires IsCascade(ns, es, root, S)
    ensures forall c :: c in S <==> Joins(ns, es, root, S, c)
  {
    var T := set c | c in S && Joins(ns, es, root, S, c);
    forall c | Joins(ns, es, root, T, c) ensures c in T {
      var p :| (p, c) in es && Source(root, T, p);
      assert Source(root, S, p);
      assert Joins(ns, es, root, S, c);
    }
    assert Closed(ns, es, root, T);
  }

  /** Any two complete cascades agree, whatever order children were visited in. */
  lemma CascadeIsUnique(ns: Thoughts, es: set<Edge>, root: NodeId, S1: set<NodeId>, S2: set<NodeId>)
    requires IsCascade(ns, es, root, S1) && IsCascade(ns, es, root, S2)
    ensures S1 == S2
  {
    assert S1 <= S2 && S2 <= S1;
  }

  /** The dry run never promises more than the cascade does. */
  lemma PreviewWithinCascade(ns: Thoughts, es: set<Edge>, root: NodeId, T: set<NodeId>, S: set<NodeId>)
    requires !Live(ns, root)
    requires IsPreview(ns, es, root, T) && IsCascade(ns, es, root, S)
    ensures T <= S && |T| <= |S|
  {
    forall c | PreviewJoins(ns, es, root, S, c) ensures c in S {
      var p :| (p, c) in es && Source(root, S, p) && OnlyLiveParent(ns, es, p, c);
      assert Joins(ns, es, root, S, c);
    }
    assert PreviewClosed(ns, es, root, S);
    SubsetNotLarger(T, S);
  }

  /** The direct decay gate of auto_decay. */
  predicate Gate(ns: Thoughts, es: set<Edge>, n: NodeId) {
    && n in ns && !ns[n].decayed && !ns[n].permanent
    && ns[n].access == Some(0)
    && ns[n].olderMin
    && (forall e :: e in es && e.0 == n ==> !Live(ns, e.1))
    && (forall e :: e in es && e.1 == n ==> !Live(ns, e.0))
  }

  function Gated(ns: Thoughts, es: set<Edge>): (r: set<NodeId>) {
    set n | n in ns && Gate(ns, es, n)
  }

  lemma GatedHasNoLiveChild(ns: Thoughts, es: set<Edge>, n: NodeId, c: NodeId)
    requires Gate(ns, es, n) && (n, c) in es
    ensures !Live(ns, c)
  {
    var e := (n, c);
    assert e in es && e.0 == n;
  }

  /** A gated node has no live child, so nothing can cascade from it. */
  lemma GatedNodesDoNotCascade(ns: Thoughts, es: set<Edge>, gone: set<NodeId>, n: NodeId)
    requires Gate(ns, es, n)
    ensures IsCascade(Forget(ns, gone), es, n, {})
    ensures IsPreview(ns, es, n, {})
  {
    forall c ensures !Joins(Forget(ns, gone), es, n, {}, c) && !PreviewJoins(ns, es, n, {}, c) {
      if (n, c) in es {
        GatedHasNoLiveChild(ns, es, n, c);
      }
    }
  }

  // ----- The gates in the columns themselves -----

  /** What a complete cascade decays: exactly the stored thoughts that were live,
      not permanent, never accessed and over 30 days old, with a parent among the
      root and the decayed ones and no parent that stays live. */
  lemma CascadeInColumns(ns: Thoughts, es: set<Edge>, root: NodeId, S: set<NodeId>)
    requires IsCascade(ns, es, root, S)
    ensures forall c :: c in S <==>
      && c in ns && !ns[c].decayed && !ns[c].permanent && ns[c].older30
      && (ns[c].access == None || ns[c].access.value <= 0)
      && (exists p :: (p, c) in es && (p == root || p in S))
      && (forall p :: (p, c) in es && p in ns && !ns[p].decayed ==> p in S)
  {
    CascadeIsFixpoint(ns, es, root, S);
    forall c ensures c in S <==> Joins(ns, es, root, S, c) {
    }
  }

  /** What the dry run counts: the same gate, but the only live parent may be the
      one node it is counted from. */
  lemma PreviewInColumns(ns: Thoughts, es: set<Edge>, root: NodeId, T: set<NodeId>)
    requires IsPreview(ns, es, root, T)
    ensures forall c :: c in T <==>
      && c in ns && !ns[c].decayed && !ns[c].permanent && ns[c].older30
      && (ns[c].access == None || ns[c].access.value <= 0)
      && exists p :: (p, c) in es && (p == root || p in T) &&
           forall q :: (q, c) in es && q in ns && !ns[q].decayed ==> q == p
  {
    PreviewIsFixpoint(ns, es, root, T);
    forall c ensures c in T <==> PreviewJoins(ns, es, root, T, c) {
    }
  }

  lemma PreviewIsFixpoint(ns: Thoughts, es: set<Edge>, root: NodeId, T: set<NodeId>)
    requires IsPreview(ns, es, root, T)
    ensures forall c :: c in T <==> PreviewJoins(ns, es, root, T, c)
  {
    var U := set c | c in T && PreviewJoins(ns, es, root, T, c);
    forall c | PreviewJoins(ns, es, root, U, c) ensures c in U {
      var p :| (p, c) in es && Source(root, U, p) && OnlyLiveParent(ns, es, p, c);
      assert Source(root, T, p);
      assert PreviewJoins(ns, es, root, T, c);
    }
    assert PreviewClosed(ns, es, root, U);
  }

  /** What direct decay flips: live thoughts, not permanent, accessed exactly zero
      times, old enough, and with no edge to or from a live thought. */
  lemma GatedInColumns(ns: Thoughts, es: set<Edge>, n: NodeId)
    ensures n in Gated(ns, es) <==>
      && n in ns && !ns[n].decayed && !ns[n].permanent && ns[n].access == Some(0) && ns[n].olderMin
      && forall m :: (n, m) in es || (m, n) in es ==> m !in ns || ns[m].decayed
  {
    if forall m :: (n, m) in es || (m, n) in es ==> m !in ns || ns[m].decayed {
      forall e | e in es && (e.0 == n || e.1 == n) ensures !Live(ns, if e.0 == n then e.1 else e.0) {
        assert (e.0, e.1) in es;
      }
    }
    if n in Gated(ns, es) {
      forall m | (n, m) in es || (m, n) in es ensures m !in ns || ns[m].decayed {
        var e := if (n, m) in es then (n, m) else (m, n);
        assert e in es;
      }
    }
  }

  /** The promotion gate of promote_permanent_nodes. */
  predicate Promotable(ns: Thoughts, threshold: int, n: NodeId) {
    && n in ns && ns[n].access.Some? && ns[n].access.value >= threshold
    && !ns[n].permanent && !ns[n].decayed
  }

  function Promote(ns: Thoughts, chosen: set<NodeId>): (r: Thoughts)
    ensures r.Keys == ns.Keys
    ensures forall n :: n in ns && n !in chosen ==> r[n] == ns[n]
    ensures forall n :: n in ns && n in chosen ==> r[n] == ns[n].(permanent := true)
  {
    map n | n in ns :: if n in chosen then ns[n].(permanent := true) else ns[n]
  }

  lemma PromoteNothing(ns: Thoughts)
    ensures Promote(ns, {}) == ns
  {
  }

  lemma PromoteNext(ns: Thoughts, chosen: set<NodeId>, n: NodeId)
    requires n in ns && n !in chosen
    ensures Promote(ns, chosen + {n}) == Promote(ns, chosen)[n := Promote(ns, chosen)[n].(permanent := true)]
  {
  }

  // ----- The invariants of the cascade's worklist -----

  /** Whatever has been marked was eligible and belongs to every closed set. */
  ghost predicate Sound(ns: Thoughts, es: set<Edge>, root: NodeId, gone: set<NodeId>) {
    && (forall n :: n in gone ==> Eligible(ns, n))
    && (!Live(ns, root) ==> forall S' :: Closed(ns, es, root, S') ==> gone <= S')
  }

  /** Every marked node is waiting or processed, and only such nodes are. */
  ghost predicate Bookkeeping(ns: Thoughts, root: NodeId, gone: set<NodeId>, queue: seq<NodeId>, processed: set<NodeId>)
  {
    && gone <= ns.Keys
    && (forall q :: q in queue ==> Source(root, gone, q))
    && (forall q :: q in processed ==> Source(root, gone, q))
    && (forall n :: Source(root, gone, n) ==> n in queue || n in processed)
  }

  ghost predicate Awaited(es: set<Edge>, queue: seq<NodeId>, processed: set<NodeId>, c: NodeId) {
    exists p :: (p, c) in es && p in queue && p !in processed
  }

  /** A node that ought to join will still be looked at: by a waiting parent,
      or by the node being processed. */
  ghost predicate Covered(ns: Thoughts, es: set<Edge>, root: NodeId, gone: set<NodeId>,
                          queue: seq<NodeId>, processed: set<NodeId>, children: set<NodeId>) {
    !Live(ns, root) ==>
      forall c :: Joins(ns, es, root, gone, c) ==>
        c in gone || Awaited(es, queue, processed, c) || c in children
  }

  ghost predicate PreviewDone(ns: Thoughts, es: set<Edge>, gone: set<NodeId>, processed: set<NodeId>) {
    forall p, c :: p in processed && (p, c) in es && Eligible(ns, c) && OnlyLiveParent(ns, es, p, c) ==> c in gone
  }

  /** What holds between two pops of the worklist. */
  ghost predicate Visiting(ns: Thoughts, es: set<Edge>, root: NodeId, gone: set<NodeId>, queue: seq<NodeId>,
                           processed: set<NodeId>)
  {
    && Sound(ns, es, root, gone)
    && Bookkeeping(ns, root, gone, queue, processed)
    && Covered(ns, es, root, gone, queue, processed, {})
    && PreviewDone(ns, es, gone, processed)
  }

  lemma ClosedSetsTakeTheChild(ns: Thoughts, es: set<Edge>, root: NodeId, gone: set<NodeId>, current: NodeId,
                               child: NodeId)
    requires Sound(ns, es, root, gone)
    requires Source(root, gone, current) && (current, child) in es && Eligible(ns, child)
    requires forall p :: (p, child) in es && Live(ns, p) && p != current ==> p in gone
    ensures Sound(ns, es, root, gone + {child})
  {
    if !Live(ns, root) {
      forall S' | Closed(ns, es, root, S') ensures child in S' {
        assert gone <= S';
        assert Source(root, S', current);
        assert Joins(ns, es, root, S', child);
      }
    }
  }

  /** Taking the next unprocessed node out of the queue and turning to its children. */
  lemma CoveredByChildren(ns: Thoughts, es: set<Edge>, root: NodeId, gone: set<NodeId>,
                          queue: seq<NodeId>, processed: set<NodeId>, children: set<NodeId>)
    requires queue != []
    requires Covered(ns, es, root, gone, queue, processed, {})
    requires forall c :: (queue[0], c) in es ==> c in children
    ensures Covered(ns, es, root, gone, queue[1..], processed + {queue[0]}, children)
  {
    forall c | Awaited(es, queue, processed, c) && c !in children
      ensures Awaited(es, queue[1..], processed + {queue[0]}, c)
    {
      var p :| (p, c) in es && p in queue && p !in processed;
      assert p in queue[1..];
    }
  }

  /** A node already processed may be dropped from the queue. */
  lemma CoveredAfterSkip(ns: Thoughts, es: set<Edge>, root: NodeId, gone: set<NodeId>, queue: seq<NodeId>,
                         processed: set<NodeId>)
    requires queue != [] && queue[0] in processed
    requires Covered(ns, es, root, gone, queue, processed, {})
    ensures Covered(ns, es, root, gone, queue[1..], processed, {})
  {
    forall c | Awaited(es, queue, processed, c) ensures Awaited(es, queue[1..], processed, c) {
      var p :| (p, c) in es && p in queue && p !in processed;
      assert p in queue[1..];
    }
  }

  /** Marking a child: what it newly enables are its own children, and it waits in the queue. */
  lemma CoveredAfterMarking(ns: Thoughts, es: set<Edge>, root: NodeId, gone: set<NodeId>,
                            queue: seq<NodeId>, processed: set<NodeId>, children: set<NodeId>, child: NodeId)
    requires Covered(ns, es, root, gone, queue, processed, children)
    requires Bookkeeping(ns, root, gone, queue, processed)
    requires Live(ns, child) && child !in gone
    ensures Covered(ns, es, root, gone + {child}, queue + [child], processed, children - {child})
  {
    if !Live(ns, root) {
      forall c | Joins(ns, es, root, gone + {child}, c) && c !in gone + {child}
        ensures Awaited(es, queue + [child], processed, c) || c in children - {child}
      {
        if (child, c) in es {
          assert child in queue + [child] && child !in processed;
        } else {
          var p :| (p, c) in es && Source(root, gone + {child}, p);
          assert Source(root, gone, p);
          assert Joins(ns, es, root, gone, c);
          if Awaited(es, queue, processed, c) {
            var q :| (q, c) in es && q in queue && q !in processed;
            assert q in queue + [child];
          }
        }
      }
    }
  }

  // ----- The sweep over one node's children -----

  function Children(es: set<Edge>, p: NodeId): (r: set<NodeId>) {
    set e | e in es && e.0 == p :: e.1
  }

  lemma ChildrenAre(es: set<Edge>, p: NodeId, c: NodeId)
    ensures c in Children(es, p) <==> (p, c) in es
  {
    if (p, c) in es {
      var e := (p, c);
      assert e in es && e.0 == p;
    }
  }

  /** Another live parent keeps the child. */
  predicate Anchored(now: Thoughts, es: set<Edge>, current: NodeId, child: NodeId) {
    exists e :: e in es && e.1 == child && Live(now, e.0) && e.0 != current
  }

  lemma AnchoredMeans(ns: Thoughts, es: set<Edge>, gone: set<NodeId>, current: NodeId, child: NodeId)
    requires gone <= ns.Keys
    ensures Anchored(Forget(ns, gone), es, current, child) <==>
            exists p :: (p, child) in es && Live(ns, p) && p !in gone && p != current
  {
    if p :| (p, child) in es && Live(ns, p) && p !in gone && p != current {
      var e := (p, child);
      assert e in es && e.1 == child && Live(Forget(ns, gone), e.0) && e.0 != current;
    }
    if Anchored(Forget(ns, gone), es, current, child) {
      var e :| e in es && e.1 == child && Live(Forget(ns, gone), e.0) && e.0 != current;
      assert (e.0, child) in es;
    }
  }

  /** The children of `current` outside `children` have been dealt with. */
  ghost predicate Sweep(ns: Thoughts, es: set<Edge>, root: NodeId, gone: set<NodeId>, current: NodeId,
                        queue: seq<NodeId>, done: set<NodeId>, children: set<NodeId>) {
    && Sound(ns, es, root, gone)
    && Bookkeeping(ns, root, gone, queue, done + {current})
    && Covered(ns, es, root, gone, queue, done + {current}, children)
    && PreviewDone(ns, es, gone, done)
    && (forall c :: c in children ==> (current, c) in es)
    && (forall c :: (current, c) in es && c !in children && Eligible(ns, c) && OnlyLiveParent(ns, es, current, c) ==>
          c in gone)
  }

  lemma SweepBegins(ns: Thoughts, es: set<Edge>, root: NodeId, gone: set<NodeId>, current: NodeId,
                    queue: seq<NodeId>, done: set<NodeId>)
    requires Visiting(ns, es, root, gone, [current] + queue, done)
    ensures Sweep(ns, es, root, gone, current, queue, done, Children(es, current))
  {
    forall c ensures c in Children(es, current) <==> (current, c) in es {
      ChildrenAre(es, current, c);
    }
    CoveredByChildren(ns, es, root, gone, [current] + queue, done, Children(es, current));
    assert ([current] + queue)[1..] == queue;
  }

  lemma SweepRefuses(ns: Thoughts, es: set<Edge>, root: NodeId, gone: set<NodeId>, current: NodeId,
                     queue: seq<NodeId>, done: set<NodeId>, children: set<NodeId>, child: NodeId)
    requires Sweep(ns, es, root, gone, current, queue, done, children)
    requires Anchored(Forget(ns, gone), es, current, child) || !Eligible(Forget(ns, gone), child)
    ensures Sweep(ns, es, root, gone, current, queue, done, children - {child})
  {
    AnchoredMeans(ns, es, gone, current, child);
  }

  lemma SweepMarks(ns: Thoughts, es: set<Edge>, root: NodeId, gone: set<NodeId>, current: NodeId,
                   queue: seq<NodeId>, done: set<NodeId>, children: set<NodeId>, child: NodeId)
    requires Sweep(ns, es, root, gone, current, queue, done, children)
    requires child in children && Eligible(Forget(ns, gone), child)
    requires !Anchored(Forget(ns, gone), es, current, child)
    ensures child in ns && child !in gone
    ensures Sweep(ns, es, root, gone + {child}, current, queue + [child], done, children - {child})
  {
    AnchoredMeans(ns, es, gone, current, child);
    ClosedSetsTakeTheChild(ns, es, root, gone, current, child);
    CoveredAfterMarking(ns, es, root, gone, queue, done + {current}, children, child);
  }

  lemma SweepEnds(ns: Thoughts, es: set<Edge>, root: NodeId, gone: set<NodeId>, current: NodeId,
                  queue: seq<NodeId>, done: set<NodeId>)
    requires Sweep(ns, es, root, gone, current, queue, done, {})
    ensures Visiting(ns, es, root, gone, queue, done + {current})
  {
  }

  // ----- The invariants of the dry run -----

  ghost predicate Counted(ns: Thoughts, es: set<Edge>, p: NodeId, c: NodeId) {
    (p, c) in es && Eligible(ns, c) && OnlyLiveParent(ns, es, p, c)
  }

  /** T holds the children counted so far, each by one processed parent. */
  ghost predicate PreviewSound(ns: Thoughts, es: set<Edge>, root: NodeId, T: set<NodeId>, queue: seq<NodeId>,
                               processed: set<NodeId>)
  {
    && Bookkeeping(ns, root, T, queue, processed)
    && (forall c :: c in T ==> Eligible(ns, c) && exists p :: p in processed && Counted(ns, es, p, c))
    && (forall T' :: PreviewClosed(ns, es, root, T') ==> T <= T')
  }

  ghost predicate PreviewVisiting(ns: Thoughts, es: set<Edge>, root: NodeId, T: set<NodeId>, queue: seq<NodeId>,
                                  processed: set<NodeId>)
  {
    && PreviewSound(ns, es, root, T, queue, processed)
    && (forall p, c :: p in processed && Counted(ns, es, p, c) ==> c in T)
  }

  ghost predicate PreviewSweep(ns: Thoughts, es: set<Edge>, root: NodeId, T: set<NodeId>, current: NodeId,
                               queue: seq<NodeId>, done: set<NodeId>, children: set<NodeId>) {
    && current !in done
    && PreviewSound(ns, es, root, T, queue, done + {current})
    && (forall p, c :: p in done && Counted(ns, es, p, c) ==> c in T)
    && (forall c :: Counted(ns, es, current, c) ==> c in children || c in T)
    && (forall c :: c in children ==> (current, c) in es)
    && (forall c :: c in T && c in children ==> exists p :: p in done && Counted(ns, es, p, c))
  }

  lemma PreviewSweepBegins(ns: Thoughts, es: set<Edge>, root: NodeId, T: set<NodeId>, current: NodeId,
                           queue: seq<NodeId>, done: set<NodeId>)
    requires PreviewVisiting(ns, es, root, T, [current] + queue, done) && current !in done
    ensures PreviewSweep(ns, es, root, T, current, queue, done, Children(es, current))
  {
    forall c ensures c in Children(es, current) <==> (current, c) in es {
      ChildrenAre(es, current, c);
    }
    assert Bookkeeping(ns, root, T, queue, done + {current});
  }

  lemma PreviewCountable(ns: Thoughts, es: set<Edge>, current: NodeId, child: NodeId)
    requires (current, child) in es
    ensures Counted(ns, es, current, child) <==> !Anchored(ns, es, current, child) && Eligible(ns, child)
  {
    assert Forget(ns, {}) == ns;
    AnchoredMeans(ns, es, {}, current, child);
  }

  lemma PreviewRefuses(ns: Thoughts, es: set<Edge>, root: NodeId, T: set<NodeId>, current: NodeId,
                       queue: seq<NodeId>, done: set<NodeId>, children: set<NodeId>, child: NodeId)
    requires PreviewSweep(ns, es, root, T, current, queue, done, children)
    requires child in children && (Anchored(ns, es, current, child) || !Eligible(ns, child))
    ensures PreviewSweep(ns, es, root, T, current, queue, done, children - {child})
  {
    PreviewCountable(ns, es, current, child);
  }

  lemma PreviewSweepEnds(ns: Thoughts, es: set<Edge>, root: NodeId, T: set<NodeId>, current: NodeId,
                         queue: seq<NodeId>, done: set<NodeId>)
    requires PreviewSweep(ns, es, root, T, current, queue, done, {})
    ensures PreviewVisiting(ns, es, root, T, queue, done + {current})
  {
  }

  lemma PreviewComplete(ns: Thoughts, es: set<Edge>, root: NodeId, T: set<NodeId>, processed: set<NodeId>)
    requires PreviewVisiting(ns, es, root, T, [], processed)
    ensures IsPreview(ns, es, root, T)
  {
    forall c | PreviewJoins(ns, es, root, T, c) ensures c in T {
      var p :| (p, c) in es && Source(root, T, p) && OnlyLiveParent(ns, es, p, c);
      assert p in processed && Counted(ns, es, p, c);
    }
  }

  /** No child is counted twice: a second parent would be a second live one. */
  lemma PreviewCounts(ns: Thoughts, es: set<Edge>, root: NodeId, T: set<NodeId>, current: NodeId,
                           queue: seq<NodeId>, done: set<NodeId>, children: set<NodeId>, child: NodeId)
    requires PreviewSweep(ns, es, root, T, current, queue, done, children)
    requires child in children && !Anchored(ns, es, current, child) && Eligible(ns, child)
    ensures child !in T
    ensures PreviewSweep(ns, es, root, T + {child}, current, queue + [child], done, children - {child})
  {
    PreviewCountable(ns, es, current, child);
    assert child !in T;
    forall T' | PreviewClosed(ns, es, root, T') ensures child in T' {
      assert Source(root, T', current);
      assert PreviewJoins(ns, es, root, T', child);
    }
    var T1 := T + {child};
    assert Bookkeeping(ns, root, T1, queue + [child], done + {current});
    forall c | c in T1 ensures Eligible(ns, c) && exists p :: p in done + {current} && Counted(ns, es, p, c) {
      if c == child {
        assert current in done + {current} && Counted(ns, es, current, c);
      }
    }
  }

  /** The SQLite file as these functions use it. */
  class ThoughtStore {
    var nodes: Thoughts
    var edges: set<Edge>

    constructor (nodes: Thoughts, edges: set<Edge>)
      ensures this.nodes == nodes && this.edges == edges
    {
      this.nodes, this.edges := nodes, edges;
    }

    /** The sweep over one popped node's children, in an arbitrary order as the
        query leaves it open. `ns` is the table before the run, `gone` what the
        run has marked so far, `done` the nodes processed before `current`. */
    method VisitChildren(ghost ns: Thoughts, ghost root: NodeId, current: NodeId, queue: seq<NodeId>,
                         ghost gone: set<NodeId>, ghost done: set<NodeId>)
      returns (marked: nat, queue': seq<NodeId>, ghost gone': set<NodeId>)
      requires Visiting(ns, edges, root, gone, [current] + queue, done)
      requires current !in done && nodes == Forget(ns, gone)
      modifies `nodes
      ensures Visiting(ns, edges, root, gone', queue', done + {current})
      ensures nodes == Forget(ns, gone') && gone <= gone' && |gone'| == |gone| + marked
    {
      hide Sweep, Visiting, Forget, Anchored, Eligible;
      var children := Children(edges, current);
      marked, queue', gone' := 0, queue, gone;
      SweepBegins(ns, edges, root, gone, current, queue, done);
      while children != {}
        invariant nodes == Forget(ns, gone') && gone <= gone' && |gone'| == |gone| + marked
        invariant Sweep(ns, edges, root, gone', current, queue', done, children)
        decreases children
      {
        var child :| child in children;
        var rest := children - {child};
        if Anchored(nodes, edges, current, child) || !Eligible(nodes, child) {
          SweepRefuses(ns, edges, root, gone', current, queue', done, children, child);
        } else {
          SweepMarks(ns, edges, root, gone', current, queue', done, children, child);
          ForgetNext(ns, gone', child);
          nodes := nodes[child := nodes[child].(decayed := true)];
          marked, queue', gone' := marked + 1, queue' + [child], gone' + {child};
        }
        children := rest;
      }
      SweepEnds(ns, edges, root, gone', current, queue', done);
    }

    /** Worklist cascade from a node taken to be decayed. */
    method CascadeDecay(root: NodeId) returns (cascaded: nat, ghost gone: set<NodeId>)
      modifies `nodes
      ensures nodes == Forget(old(nodes), gone)
      ensures forall n :: n in gone ==> Eligible(old(nodes), n)
      ensures !Live(old(nodes), root) ==> IsCascade(old(nodes), edges, root, gone)
      ensures PreviewClosed(old(nodes), edges, root, gone)
      ensures gone == Flipped(old(nodes), nodes) && cascaded == |gone|
    {
      ghost var ns := nodes;
      cascaded, gone := 0, {};
      var queue := [root];
      var processed: set<NodeId> := {};
      assert nodes == Forget(ns, gone);
      while queue != []
        invariant nodes == Forget(ns, gone) && cascaded == |gone|
        invariant Visiting(ns, edges, root, gone, queue, processed)
        decreases ns.Keys + {root} - processed, |queue|
      {
        var current := queue[0];
        queue := queue[1..];
        if current in processed {
          CoveredAfterSkip(ns, edges, root, gone, [current] + queue, processed);
          continue;
        }
        var marked;
        marked, queue, gone := VisitChildren(ns, root, current, queue, gone, processed);
        processed, cascaded := processed + {current}, cascaded + marked;
      }
      FlippedByForget(ns, gone);
    }

    method PreviewChildren(ghost root: NodeId, current: NodeId, queue: seq<NodeId>,
                           ghost T: set<NodeId>, ghost done: set<NodeId>)
      returns (counted: nat, queue': seq<NodeId>, ghost T': set<NodeId>)
      requires PreviewVisiting(nodes, edges, root, T, [current] + queue, done) && current !in done
      ensures PreviewVisiting(nodes, edges, root, T', queue', done + {current})
      ensures |T'| == |T| + counted
    {
      hide PreviewSweep, PreviewVisiting, Anchored, Eligible;
      var children := Children(edges, current);
      counted, queue', T' := 0, queue, T;
      PreviewSweepBegins(nodes, edges, root, T, current, queue, done);
      while children != {}
        invariant PreviewSweep(nodes, edges, root, T', current, queue', done, children)
        invariant |T'| == |T| + counted
        decreases children
      {
        var child :| child in children;
        var rest := children - {child};
        if Anchored(nodes, edges, current, child) || !Eligible(nodes, child) {
          PreviewRefuses(nodes, edges, root, T', current, queue', done, children, child);
        } else {
          PreviewCounts(nodes, edges, root, T', current, queue', done, children, child);
          counted, queue', T' := counted + 1, queue' + [child], T' + {child};
        }
        children := rest;
      }
      PreviewSweepEnds(nodes, edges, root, T', current, queue', done);
    }

    /** The dry run: the same worklist, marking nothing. */
    method SimulateCascadeDecay(root: NodeId) returns (wouldCascade: nat, ghost T: set<NodeId>)
      ensures IsPreview(nodes, edges, root, T)
      ensures forall T' :: IsPreview(nodes, edges, root, T') ==> T' == T && wouldCascade == |T'|
    {
      wouldCascade, T := 0, {};
      var queue := [root];
      var processed: set<NodeId> := {};
      while queue != []
        invariant PreviewVisiting(nodes, edges, root, T, queue, processed) && wouldCascade == |T|
        decreases nodes.Keys + {root} - processed, |queue|
      {
        var current := queue[0];
        queue := queue[1..];
        if current !in processed {
          var counted;
          counted, queue, T := PreviewChildren(root, current, queue, T, processed);
          processed, wouldCascade := processed + {current}, wouldCascade + counted;
        }
      }
      PreviewComplete(nodes, edges, root, T, processed);
      forall T' | IsPreview(nodes, edges, root, T') ensures T' == T {
        assert T' <= T && T <= T';
      }
    }

    /** Flips every gated node in one statement, then cascades from each. */
    method AutoDecay(enableCascading: bool) returns (pruned: nat, cascaded: nat, total: nat)
      modifies `nodes
      ensures nodes == Forget(old(nodes), Gated(old(nodes), edges))
      ensures total == pruned + cascaded == |Flipped(old(nodes), nodes)| && cascaded == 0
    {
      ghost var ns := nodes;
      var toDecay := Gated(nodes, edges);
      nodes := Forget(nodes, toDecay);
      pruned, cascaded := |toDecay|, 0;
      FlippedByForget(ns, toDecay);
      if enableCascading {
        var rest := toDecay;
        while rest != {}
          invariant rest <= toDecay && nodes == Forget(ns, toDecay) && cascaded == 0
          decreases rest
        {
          var n :| n in rest;
          rest := rest - {n};
          GatedNodesDoNotCascade(ns, edges, toDecay, n);
          var more;
          ghost var gone;
          more, gone := CascadeDecay(n);
          CascadeIsUnique(Forget(ns, toDecay), edges, n, gone, {});
          cascaded := cascaded + more;
        }
      }
      total := pruned + cascaded;
    }

    /** The report that announces an AutoDecay, with its cascade preview. */
    method DecayCandidates() returns (candidates: nat, cascadePreview: nat, totalPreview: nat)
      ensures candidates == |Gated(nodes, edges)|
      ensures cascadePreview == 0 && totalPreview == |Gated(nodes, edges)|
    {
      var gated := Gated(nodes, edges);
      candidates, cascadePreview := |gated|, 0;
      var rest := gated;
      while rest != {}
        invariant rest <= gated && cascadePreview == 0
        decreases rest
      {
        var n :| n in rest;
        rest := rest - {n};
        GatedNodesDoNotCascade(nodes, edges, {}, n);
        var more;
        ghost var T;
        more, T := SimulateCascadeDecay(n);
        cascadePreview := cascadePreview + more;
      }
      totalPreview := candidates + cascadePreview;
    }

    method PromotePermanent(threshold: int) returns (promoted: nat)
      modifies `nodes
      ensures nodes == Promote(old(nodes), Promoted(old(nodes), threshold))
      ensures promoted == |Promoted(old(nodes), threshold)|
      ensures promoted == |set n | n in nodes && nodes[n].permanent && !old(nodes)[n].permanent|
      ensures nodes.Keys == old(nodes).Keys && forall n :: n in nodes ==>
        nodes[n] == var t := old(nodes)[n];
          t.(permanent := t.permanent || (t.access.Some? && t.access.value >= threshold && !t.decayed))
    {
      hide Promote;
      ghost var ns, done := nodes, {};
      var candidates := Promoted(nodes, threshold);
      var rest := candidates;
      promoted := 0;
      PromoteNothing(ns);
      while rest != {}
        invariant done + rest == candidates && done !! rest
        invariant nodes == Promote(ns, done) && promoted == |done|
        decreases rest
      {
        var n :| n in rest;
        rest := rest - {n};
        PromoteNext(ns, done, n);
        nodes := nodes[n := nodes[n].(permanent := true)];
        promoted, done := promoted + 1, done + {n};
      }
      PromotedAreNew(ns, threshold);
    }
  }

  lemma PromotedAreNew(ns: Thoughts, threshold: int)
    ensures var ns' := Promote(ns, Promoted(ns, threshold));
      Promoted(ns, threshold) == set n | n in ns' && ns'[n].permanent && !ns[n].permanent
  {
  }

  // ----- Runs that mix promotion, decay and everything else -----

  function Promoted(ns: Thoughts, threshold: int): (r: set<NodeId>) {
    set n | n in ns && Promotable(ns, threshold, n)
  }

  /** No thought is both permanent and decayed. */
  ghost predicate Consistent(ns: Thoughts) {
    forall n :: n in ns ==> !(ns[n].permanent && ns[n].decayed)
  }

  datatype Operation =
    | Promotion(threshold: int)
    | DirectDecay
    | Cascade(root: NodeId)
    | OtherWrites  // new thoughts, accesses, time passing: no stored flag changes

  /** What one operation does to the table, by the contracts above. */
  ghost predicate Performs(op: Operation, ns: Thoughts, es: set<Edge>, ns': Thoughts) {
    match op
    case Promotion(threshold) => ns' == Promote(ns, Promoted(ns, threshold))
    case DirectDecay => ns' == Forget(ns, Gated(ns, es))
    case Cascade(root) =>
      exists gone: set<NodeId> :: ns' == Forget(ns, gone) && forall n :: n in gone ==> Eligible(ns, n)
    case OtherWrites =>
      && (forall n :: n in ns ==> n in ns' && ns'[n].permanent == ns[n].permanent && ns'[n].decayed == ns[n].decayed)
      && (forall n :: n in ns' && n !in ns ==> !ns'[n].decayed)
  }

  ghost predicate Run(ops: seq<Operation>, tables: seq<Thoughts>, edges: seq<set<Edge>>) {
    && |tables| == |ops| + 1 && |edges| == |ops|
    && forall i :: 0 <= i < |ops| ==> Performs(ops[i], tables[i], edges[i], tables[i + 1])
  }

  /** One operation keeps the two flags apart and never touches a permanent thought's. */
  lemma OperationKeepsPermanence(op: Operation, ns: Thoughts, es: set<Edge>, ns': Thoughts)
    requires Performs(op, ns, es, ns') && Consistent(ns)
    ensures Consistent(ns')
    ensures forall n :: n in ns && ns[n].permanent ==> n in ns' && ns'[n].permanent && !ns'[n].decayed
  {
  }

  /** Once permanent, a thought stays permanent and live through every later operation. */
  lemma {:induction false} PermanenceIsForGood(ops: seq<Operation>, tables: seq<Thoughts>, edges: seq<set<Edge>>,
                                               i: nat, j: nat)
    requires Run(ops, tables, edges) && Consistent(tables[0])
    requires i <= j < |tables|
    ensures Consistent(tables[i]) && Consistent(tables[j])
    ensures forall n :: n in tables[i] && tables[i][n].permanent ==> Live(tables[j], n) && tables[j][n].permanent
    decreases j
  {
    if i < j {
      PermanenceIsForGood(ops, tables, edges, i, j - 1);
      OperationKeepsPermanence(ops[j - 1], tables[j - 1], edges[j - 1], tables[j]);
    } else if 0 < j {
      PermanenceIsForGood(ops, tables, edges, j - 1, j - 1);
      OperationKeepsPermanence(ops[j - 1], tables[j - 1], edges[j - 1], tables[j]);
    }
  }
}
