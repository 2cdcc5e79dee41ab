/** The thought graph's tables, as the vendored core reads and writes them. */
module Graph {

  /** Thought ids are compared only for equality. */
  type NodeId(==, !new)

  /** A row (parent_id, child_id) of derivation_edges; the pair is its primary key. */
  type Edge = (NodeId, NodeId)

  datatype Option<+T> = None | Some(value: T)

  /** The columns of thought_nodes that decay and permanence look at.
      `older30` and `olderMin` are the two age comparisons, fixed for one run of the clock. */
  datatype Thought = Thought(
    decayed: bool,
    permanent: bool,
    access: Option<int>,
    older30: bool,
    olderMin: bool)

  type Thoughts = map<NodeId, Thought>

  /** A node is live when it is stored and not decayed. */
  predicate Live(ns: Thoughts, n: NodeId) {
    n in ns && !ns[n].decayed
  }

  /** The table after setting decayed = 1 on the rows in `gone`. */
  function Forget(ns: Thoughts, gone: set<NodeId>): (r: Thoughts)
    ensures r.Keys == ns.Keys
    ensures forall n :: n in ns && n !in gone ==> r[n] == ns[n]
    ensures forall n :: n in ns && n in gone ==> r[n] == ns[n].(decayed := true)
  {
    map n | n in ns :: if n in gone then ns[n].(decayed := true) else ns[n]
  }

  lemma ForgetNext(ns: Thoughts, gone: set<NodeId>, n: NodeId)
    requires n in ns
    ensures Forget(ns, gone + {n}) == Forget(ns, gone)[n := Forget(ns, gone)[n].(decayed := true)]
  {
  }

  /** The nodes that were live in `before` and are not live in `after`. */
  function Flipped(before: Thoughts, after: Thoughts): (r: set<NodeId>) {
    set n | n in before && Live(before, n) && !Live(after, n)
  }

  lemma FlippedByForget(ns: Thoughts, gone: set<NodeId>)
    requires forall n :: n in gone ==> Live(ns, n)
    ensures Flipped(ns, Forget(ns, gone)) == gone
  {
  }

  // ----- Sequences and sets -----

  ghost predicate NoRepeats<T>(r: seq<T>) {
    forall i, j :: 0 <= i < j < |r| ==> r[i] != r[j]
  }

  lemma SubsetNotLarger<T>(A: set<T>, B: set<T>)
    requires A <= B
    ensures |A| <= |B|
  {
    assert B == A + (B - A);
  }
}
