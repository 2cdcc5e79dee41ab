/** Targeted repair of one database under savepoints (core/integrity.py,
    repair_integrity with any selection of its default actions, and
    inspect_integrity). Rows with NULL ids are not modelled. */
module Repair {
  import opened Graph

  /** Stored vector bytes and texts. */
  type Blob(==, !new)
  type Text(==, !new)

  datatype NodeRow = NodeRow(decayed: Option<int>, content: Option<Text>)

  datatype Embedding = Embedding(vector: Blob, model: string)

  datatype Db = Db(
    nodes: map<NodeId, NodeRow>,
    embeddings: map<NodeId, Embedding>,
    vec: map<NodeId, Blob>,
    edges: set<Edge>)

  datatype Act = RepairVec | RepairEmbeddings | RemoveOrphanEmbeddings | RemoveOrphanEdges

  /** The request and its surroundings: `defect` is _decode_vector finding a
      reason, `same` is _vectors_match, `encode` is the embedding function (None
      when it raises). */
  datatype Config = Config(
    actions: set<Act>,
    model: Option<string>,
    dim: Option<nat>,
    vecOperational: bool,
    vecDim: nat,
    requireVecParity: bool,
    batchSize: int,
    maxItems: int,
    inTransaction: bool,
    hasEncoder: bool,
    encode: Text -> Option<Blob>,
    blank: Text -> bool,
    defect: (Blob, Option<nat>) -> bool,
    same: (Blob, Blob, nat) -> bool)
  {
    predicate VecReady() {
      vecOperational && (dim.None? || dim.value == vecDim)
    }

    /** expected_dimension or vec_dimension */
    function CompareDim(): (d: Option<nat>) {
      if dim.Some? then dim else Some(vecDim)
    }

    function Limit(): (n: nat) {
      var least := if batchSize <= maxItems then batchSize else maxItems;
      if least > 0 then least else 0
    }

    /** Requests answered before anything is looked at. */
    predicate Rejected() {
      dim == Some(0) || batchSize <= 0 || maxItems <= 0 || !inTransaction
    }

    predicate ModelFits(m: string) {
      model.None? || m == model.value
    }
  }

  /** What happens to one item: it works, or the savepoint, the callback (in some
      torn state) or the release fails and is undone, or undoing it fails too. */
  datatype Fate = Works | NoSavepoint | BodyFails(torn: Db) | ReleaseFails | UndoFails(left: Db)

  datatype Status = Refused | Partial | Complete

  // ----- Anomalies, as inspection counts them -----

  predicate LiveNode(d: Db, n: NodeId) {
    n in d.nodes && (d.nodes[n].decayed.None? || d.nodes[n].decayed.value == 0)
  }

  function OrphanEmbeddings(d: Db): (r: set<NodeId>) {
    set n | n in d.embeddings && n !in d.nodes
  }

  predicate OrphanEdge(d: Db, e: Edge) {
    e.0 !in d.nodes || e.1 !in d.nodes
  }

  function OrphanEdges(d: Db): (r: set<Edge>) {
    set e | e in d.edges && OrphanEdge(d, e)
  }

  function MissingEmbeddings(d: Db): (r: set<NodeId>) {
    set n | n in d.nodes && LiveNode(d, n) && n !in d.embeddings
  }

  function InvalidEmbeddings(c: Config, d: Db): (r: set<NodeId>) {
    set n | n in d.embeddings && (c.defect(d.embeddings[n].vector, c.dim) || !c.ModelFits(d.embeddings[n].model))
  }

  predicate Active(d: Db, n: NodeId) {
    n in d.embeddings && LiveNode(d, n)
  }

  function MissingVec(d: Db): (r: set<NodeId>) {
    set n | n in d.embeddings && Active(d, n) && n !in d.vec
  }

  function StaleVec(d: Db): (r: set<NodeId>) {
    set n | n in d.vec && !Active(d, n)
  }

  function InvalidVec(c: Config, d: Db): (r: set<NodeId>) {
    set n | n in d.vec && n in d.embeddings && c.defect(d.vec[n], Some(c.vecDim))
  }

  predicate Mismatch(c: Config, v: Blob, ordinary: Blob) {
    !c.defect(v, Some(c.vecDim)) && !c.defect(ordinary, c.CompareDim()) && !c.same(v, ordinary, c.vecDim)
  }

  function MismatchedVec(c: Config, d: Db): (r: set<NodeId>) {
    set n | n in d.vec && n in d.embeddings && Mismatch(c, d.vec[n], d.embeddings[n].vector)
  }

  /** Some anomaly of a selected kind is left, as far as inspection can see: it
      looks at the index only when it can load it. */
  predicate Remains(c: Config, d: Db) {
    || (RemoveOrphanEmbeddings in c.actions && OrphanEmbeddings(d) != {})
    || (RemoveOrphanEdges in c.actions && OrphanEdges(d) != {})
    || (RepairEmbeddings in c.actions && (MissingEmbeddings(d) != {} || InvalidEmbeddings(c, d) != {}))
    || (RepairVec in c.actions && c.vecOperational &&
          (MissingVec(d) != {} || StaleVec(d) != {} || InvalidVec(c, d) != {} || MismatchedVec(c, d) != {}
           || (c.dim.Some? && c.dim.value != c.vecDim)))
  }

  /** Stored and not decayed, in the columns. */
  predicate Current(d: Db, n: NodeId) {
    n in d.nodes && (d.nodes[n].decayed == None || d.nodes[n].decayed == Some(0))
  }

  /** What an index row must be beside its embedding: decodable, and equal to it
      if that is decodable too. */
  predicate AgreesWith(c: Config, v: Blob, ordinary: Blob) {
    !c.defect(v, Some(c.vecDim)) &&
    (c.same(v, ordinary, c.vecDim) || c.defect(ordinary, Some(if c.dim.Some? then c.dim.value else c.vecDim)))
  }

  ghost predicate EmbeddingsInOrder(c: Config, d: Db) {
    && (forall n :: Current(d, n) ==> n in d.embeddings)
    && (forall n :: n in d.embeddings ==>
          && !c.defect(d.embeddings[n].vector, c.dim)
          && (c.model == None || c.model == Some(d.embeddings[n].model)))
  }

  ghost predicate IndexInOrder(c: Config, d: Db) {
    && (c.dim == None || c.dim == Some(c.vecDim))
    && (forall n :: n in d.vec <==> n in d.embeddings && Current(d, n))
    && (forall n :: n in d.vec && n in d.embeddings ==> AgreesWith(c, d.vec[n], d.embeddings[n].vector))
  }

  lemma EmbeddingsInOrderIff(c: Config, d: Db)
    ensures MissingEmbeddings(d) == {} && InvalidEmbeddings(c, d) == {} <==> EmbeddingsInOrder(c, d)
  {
    if MissingEmbeddings(d) == {} && InvalidEmbeddings(c, d) == {} {
      forall n | Current(d, n) ensures n in d.embeddings {
        assert n !in MissingEmbeddings(d);
      }
      forall n | n in d.embeddings
        ensures !c.defect(d.embeddings[n].vector, c.dim) && (c.model == None || c.model == Some(d.embeddings[n].model))
      {
        assert n !in InvalidEmbeddings(c, d);
      }
    }
  }

  lemma IndexInOrderIff(c: Config, d: Db)
    ensures IndexInOrder(c, d) <==>
      && MissingVec(d) == {} && StaleVec(d) == {} && InvalidVec(c, d) == {} && MismatchedVec(c, d) == {}
      && (c.dim.None? || c.dim.value == c.vecDim)
  {
    if MissingVec(d) == {} && StaleVec(d) == {} && InvalidVec(c, d) == {} && MismatchedVec(c, d) == {} {
      forall n ensures n in d.vec <==> n in d.embeddings && Current(d, n) {
        assert n !in MissingVec(d) && n !in StaleVec(d);
      }
      forall n | n in d.vec && n in d.embeddings ensures AgreesWith(c, d.vec[n], d.embeddings[n].vector) {
        assert n !in InvalidVec(c, d) && n !in MismatchedVec(c, d);
      }
    }
  }

  /** What inspection counts of the index, row by row. */
  lemma IndexAnomaliesInColumns(c: Config, d: Db, n: NodeId)
    ensures n in MissingVec(d) <==> n in d.embeddings && Current(d, n) && n !in d.vec
    ensures n in StaleVec(d) <==> n in d.vec && !(n in d.embeddings && Current(d, n))
    ensures n in InvalidVec(c, d) <==> n in d.vec && n in d.embeddings && c.defect(d.vec[n], Some(c.vecDim))
    ensures n in MismatchedVec(c, d) <==>
      && n in d.vec && n in d.embeddings && !c.defect(d.vec[n], Some(c.vecDim))
      && !AgreesWith(c, d.vec[n], d.embeddings[n].vector)
  {
  }

  lemma OrphansIff(d: Db)
    ensures OrphanEmbeddings(d) == {} <==> forall n :: n in d.embeddings ==> n in d.nodes
    ensures OrphanEdges(d) == {} <==> forall e :: e in d.edges ==> e.0 in d.nodes && e.1 in d.nodes
  {
    if OrphanEmbeddings(d) == {} {
      forall n | n in d.embeddings ensures n in d.nodes {
        assert n !in OrphanEmbeddings(d);
      }
    }
    if OrphanEdges(d) == {} {
      forall e | e in d.edges ensures e.0 in d.nodes && e.1 in d.nodes {
        assert e !in OrphanEdges(d);
      }
    }
  }

  /** What it means that nothing selected remains, column by column: exactly that
      every embedding and every edge belongs to stored thoughts, every current
      thought has an embedding of the expected kind, and the index holds exactly
      the current embeddings, equal to them. */
  lemma NothingRemainsIff(c: Config, d: Db)
    ensures !Remains(c, d) <==>
      && (RemoveOrphanEmbeddings in c.actions ==> forall n :: n in d.embeddings ==> n in d.nodes)
      && (RemoveOrphanEdges in c.actions ==> forall e :: e in d.edges ==> e.0 in d.nodes && e.1 in d.nodes)
      && (RepairEmbeddings in c.actions ==> EmbeddingsInOrder(c, d))
      && (RepairVec in c.actions && c.vecOperational ==> IndexInOrder(c, d))
  {
    OrphansIff(d);
    EmbeddingsInOrderIff(c, d);
    IndexInOrderIff(c, d);
    hide OrphanEmbeddings, OrphanEdges, MissingEmbeddings, InvalidEmbeddings, MissingVec, StaleVec, InvalidVec;
    hide MismatchedVec, EmbeddingsInOrder, IndexInOrder;
  }

  // ----- What a repair may do -----

  /** An embedding the expected model could have written. */
  predicate GoodEmbedding(c: Config, d: Db, n: NodeId) {
    n in d.embeddings && !c.defect(d.embeddings[n].vector, c.dim) && Some(d.embeddings[n].model) == c.model
  }

  predicate GoodVec(c: Config, d: Db, n: NodeId) {
    && n in d.vec && n in d.embeddings && LiveNode(d, n)
    && !c.defect(d.vec[n], Some(c.vecDim)) && !Mismatch(c, d.vec[n], d.embeddings[n].vector)
    && GoodEmbedding(c, d, n)
  }

  /** The request allows embedding: it has an encoder, a dimension and a model,
      and an index that can be loaded and fits, if parity is required. */
  predicate CanEmbed(c: Config) {
    && c.hasEncoder && c.dim.Some? && c.model.Some? && c.model != Some("")
    && (c.requireVecParity ==> c.vecOperational && c.dim == Some(c.vecDim))
  }

  /** Nothing the request asks for is missing: what embedding needs, and an index
      that can be loaded and fits, if parity is required. */
  predicate NothingMissing(c: Config) {
    && (RepairEmbeddings in c.actions ==> CanEmbed(c))
    && ((RepairVec in c.actions || RepairEmbeddings in c.actions) && c.requireVecParity ==>
          c.vecOperational && (c.dim == None || c.dim == Some(c.vecDim)))
  }

  /** The embedding was recomputed from the node's own text. */
  ghost predicate Recomputed(c: Config, d0: Db, n: NodeId, e: Embedding) {
    && CanEmbed(c) && LiveNode(d0, n) && !GoodEmbedding(c, d0, n)
    && d0.nodes[n].content.Some? && !c.blank(d0.nodes[n].content.value)
    && c.encode(d0.nodes[n].content.value) == Some(e.vector)
    && !c.defect(e.vector, c.dim) && Some(e.model) == c.model
  }

  ghost predicate EmbeddingsKept(c: Config, d0: Db, d: Db) {
    && (forall n :: n in d0.embeddings && n !in d.embeddings ==> n !in d0.nodes)
    && (forall n :: n in d.embeddings ==>
          (n in d0.embeddings && d.embeddings[n] == d0.embeddings[n]) || Recomputed(c, d0, n, d.embeddings[n]))
  }

  ghost predicate VecKept(c: Config, d0: Db, d: Db) {
    && (forall n :: n in d.vec ==>
          || (n in d0.vec && d.vec[n] == d0.vec[n])
          || (c.VecReady() && n in d.embeddings && d.vec[n] == d.embeddings[n].vector
              && !c.defect(d.vec[n], Some(c.vecDim)) && c.ModelFits(d.embeddings[n].model)))
    && (forall n :: GoodVec(c, d0, n) ==> n in d.vec && d.vec[n] == d0.vec[n])
  }

  /** What d keeps of d0 after any part of a repair. */
  ghost predicate Kept(c: Config, d0: Db, d: Db) {
    && d.nodes == d0.nodes
    && d.edges <= d0.edges && (forall e :: e in d0.edges && e !in d.edges ==> OrphanEdge(d0, e))
    && EmbeddingsKept(c, d0, d)
    && VecKept(c, d0, d)
  }

  lemma KeptAtStart(c: Config, d: Db)
    ensures Kept(c, d, d)
  {
  }

  // ----- The items -----

  function DropEmbedding(c: Config, d: Db, n: NodeId): (d': Db) {
    d.(embeddings := d.embeddings - {n}, vec := if c.VecReady() then d.vec - {n} else d.vec)
  }

  function DropEdge(d: Db, e: Edge): (d': Db) {
    d.(edges := d.edges - {e})
  }

  /** Deletes the index row; a replacement is inserted only beside its embedding row. */
  function ReplaceVec(d: Db, n: NodeId, replacement: Option<Blob>): (d': Db) {
    d.(vec := if replacement.Some? && n in d.embeddings then d.vec[n := replacement.value] else d.vec - {n})
  }

  function PutEmbedding(c: Config, d: Db, n: NodeId, e: Embedding): (d': Db) {
    d.(embeddings := d.embeddings[n := e], vec := if c.VecReady() then d.vec[n := e.vector] else d.vec)
  }

  lemma DropEmbeddingKeeps(c: Config, d0: Db, d: Db, n: NodeId)
    requires Kept(c, d0, d) && n !in d0.nodes
    ensures Kept(c, d0, DropEmbedding(c, d, n))
  {
  }

  lemma DropEdgeKeeps(c: Config, d0: Db, d: Db, e: Edge)
    requires Kept(c, d0, d) && OrphanEdge(d0, e)
    ensures Kept(c, d0, DropEdge(d, e))
  {
  }

  lemma ReplaceVecKeeps(c: Config, d0: Db, d: Db, n: NodeId, replacement: Option<Blob>)
    requires Kept(c, d0, d) && !GoodVec(c, d0, n)
    requires replacement.Some? && n in d.embeddings ==>
      && c.VecReady() && d.embeddings[n].vector == replacement.value && !c.defect(replacement.value, Some(c.vecDim))
      && c.ModelFits(d.embeddings[n].model)
    ensures Kept(c, d0, ReplaceVec(d, n, replacement))
  {
  }

  lemma PutEmbeddingKeeps(c: Config, d0: Db, d: Db, n: NodeId, e: Embedding)
    requires Kept(c, d0, d) && Recomputed(c, d0, n, e)
    ensures Kept(c, d0, PutEmbedding(c, d, n, e))
  {
  }

  // ----- One row of the index -----

  datatype Verdict = Fine | Skip | Replace(replacement: Option<Blob>)

  /** What to do with an index row, given its embedding row and its node's flag. */
  function JudgeVec(c: Config, v: Blob, ordinary: Option<Embedding>, decayed: Option<int>): (r: Verdict) {
    var bad := c.defect(v, Some(c.vecDim));
    var stale := ordinary.None? || (decayed.Some? && decayed.value != 0);
    var mismatched := !stale && Mismatch(c, v, ordinary.value.vector);
    var invalid := bad || mismatched;
    var fits := c.model.None? || (ordinary.Some? && ordinary.value.model == c.model.value);
    if !stale && !invalid then Fine
    else if invalid && !fits then Skip
    else if !stale && !c.defect(ordinary.value.vector, c.CompareDim()) && c.VecReady()
    then Replace(Some(ordinary.value.vector))
    else Replace(None)
  }

  function EmbeddingOf(d: Db, n: NodeId): (r: Option<Embedding>) {
    if n in d.embeddings then Some(d.embeddings[n]) else None
  }

  function DecayedOf(d: Db, n: NodeId): (r: Option<int>) {
    if n in d.nodes then d.nodes[n].decayed else None
  }

  /** A row is only ever rewritten with its own embedding. */
  lemma ReplacementIsOrdinary(c: Config, v: Blob, ordinary: Option<Embedding>, decayed: Option<int>)
    ensures var r := JudgeVec(c, v, ordinary, decayed);
      r.Replace? && r.replacement.Some? ==>
        && c.VecReady() && ordinary.Some? && ordinary.value.vector == r.replacement.value
        && !c.defect(r.replacement.value, Some(c.vecDim))
        && (c.model.None? || ordinary.value.model == c.model.value)
  {
  }

  /** A good index row is left alone. */
  lemma GoodVecIsFine(c: Config, d0: Db, d: Db, n: NodeId)
    requires Kept(c, d0, d) && GoodVec(c, d0, n)
    ensures n in d.vec && JudgeVec(c, d.vec[n], EmbeddingOf(d, n), DecayedOf(d, n)) == Fine
  {
    assert n in d.embeddings && d.embeddings[n] == d0.embeddings[n];
  }

  /** With no index anomaly every row is fine. */
  lemma CleanVecIsFine(c: Config, d: Db, n: NodeId)
    requires n in d.vec && StaleVec(d) == {} && InvalidVec(c, d) == {} && MismatchedVec(c, d) == {}
    ensures VerdictOf(c, d, n) == Fine
  {
    assert n !in StaleVec(d) && n !in InvalidVec(c, d) && n !in MismatchedVec(c, d);
  }

  /** A good embedding of a live node is still there, and still good. */
  lemma GoodEmbeddingStays(c: Config, d0: Db, d: Db, n: NodeId)
    requires Kept(c, d0, d) && LiveNode(d0, n) && GoodEmbedding(c, d0, n)
    ensures n in d.embeddings && d.embeddings[n] == d0.embeddings[n] && GoodEmbedding(c, d, n)
  {
  }

  // ----- What a phase makes of the database when every item works -----

  function Done<T>(rows: seq<T>, i: nat): (r: set<T>)
    requires i <= |rows|
  {
    set x | x in rows[..i]
  }

  lemma DoneNext<T>(rows: seq<T>, i: nat)
    requires i < |rows|
    ensures Done(rows, i + 1) == Done(rows, i) + {rows[i]}
  {
    assert rows[..i + 1] == rows[..i] + [rows[i]];
  }

  function DropEmbeddings(c: Config, d: Db, gone: set<NodeId>): (d': Db) {
    d.(embeddings := d.embeddings - gone, vec := if c.VecReady() then d.vec - gone else d.vec)
  }

  function VerdictOf(c: Config, d: Db, n: NodeId): (r: Verdict)
    requires n in d.vec
  {
    JudgeVec(c, d.vec[n], EmbeddingOf(d, n), DecayedOf(d, n))
  }

  function ReviseVec(c: Config, d: Db, seen: set<NodeId>): (d': Db) {
    d.(vec := map n | n in d.vec && !(n in seen && VerdictOf(c, d, n) == Replace(None)) ::
                if n in seen && VerdictOf(c, d, n).Replace? then VerdictOf(c, d, n).replacement.value else d.vec[n])
  }

  /** An embedding fit for the index as it is. */
  predicate Indexable(c: Config, e: Embedding) {
    !c.defect(e.vector, c.CompareDim()) && c.VecReady() && c.ModelFits(e.model)
  }

  function NewRows(c: Config, d: Db, seen: set<NodeId>): (m: map<NodeId, Blob>) {
    map n | n in seen && n in d.embeddings && Indexable(c, d.embeddings[n]) :: d.embeddings[n].vector
  }

  function FillVec(c: Config, d: Db, seen: set<NodeId>): (d': Db) {
    d.(vec := d.vec + NewRows(c, d, seen))
  }

  /** A live node with text that has no good embedding, and whose text can be embedded. */
  predicate Healable(c: Config, d: Db, n: NodeId) {
    && n in Embeddable(c, d) && !GoodEmbedding(c, d, n) && c.model.Some?
    && c.encode(d.nodes[n].content.value).Some? && !c.defect(c.encode(d.nodes[n].content.value).value, c.dim)
  }

  function Fresh(c: Config, d: Db, n: NodeId): (e: Embedding)
    requires Healable(c, d, n)
  {
    Embedding(c.encode(d.nodes[n].content.value).value, c.model.value)
  }

  function FreshRows(c: Config, d: Db, seen: set<NodeId>): (m: map<NodeId, Embedding>) {
    map n | n in seen && Healable(c, d, n) :: Fresh(c, d, n)
  }

  function Vectors(m: map<NodeId, Embedding>): (r: map<NodeId, Blob>) {
    map n | n in m :: m[n].vector
  }

  function Reembed(c: Config, d: Db, seen: set<NodeId>): (d': Db) {
    var m := FreshRows(c, d, seen);
    d.(embeddings := d.embeddings + m, vec := if c.VecReady() then d.vec + Vectors(m) else d.vec)
  }

  lemma DropNext(c: Config, d: Db, gone: set<NodeId>, n: NodeId)
    ensures DropEmbeddings(c, d, gone + {n}) == DropEmbedding(c, DropEmbeddings(c, d, gone), n)
  {
  }

  lemma ReviseNext(c: Config, d: Db, seen: set<NodeId>, n: NodeId)
    requires n in d.vec && n !in seen
    ensures var d1, v := ReviseVec(c, d, seen), VerdictOf(c, d, n);
      ReviseVec(c, d, seen + {n}) == if v.Replace? then ReplaceVec(d1, n, v.replacement) else d1
  {
    hide JudgeVec;
    ReplacementIsOrdinary(c, d.vec[n], EmbeddingOf(d, n), DecayedOf(d, n));
    var d1, d2 := ReviseVec(c, d, seen), ReviseVec(c, d, seen + {n});
    var v := VerdictOf(c, d, n);
    assert d2.vec == (if v.Replace? then ReplaceVec(d1, n, v.replacement) else d1).vec;
  }

  lemma FillNext(c: Config, d: Db, seen: set<NodeId>, n: NodeId)
    requires n in d.embeddings && n !in d.vec
    ensures var d1 := FillVec(c, d, seen);
      FillVec(c, d, seen + {n}) ==
        if Indexable(c, d.embeddings[n]) then ReplaceVec(d1, n, Some(d.embeddings[n].vector)) else d1
  {
    hide Indexable;
    var m, m' := NewRows(c, d, seen), NewRows(c, d, seen + {n});
    if Indexable(c, d.embeddings[n]) {
      assert m' == m[n := d.embeddings[n].vector];
      assert d.vec + m' == (d.vec + m)[n := d.embeddings[n].vector];
    } else {
      assert m' == m;
    }
  }

  lemma FreshNext(c: Config, d: Db, seen: set<NodeId>, n: NodeId)
    ensures FreshRows(c, d, seen + {n}) ==
      if Healable(c, d, n) then FreshRows(c, d, seen)[n := Fresh(c, d, n)] else FreshRows(c, d, seen)
  {
    hide Healable;
  }

  lemma ReembedNext(c: Config, d: Db, seen: set<NodeId>, n: NodeId)
    ensures var d1 := Reembed(c, d, seen);
      Reembed(c, d, seen + {n}) == if Healable(c, d, n) then PutEmbedding(c, d1, n, Fresh(c, d, n)) else d1
  {
    hide Healable, FreshRows;
    FreshNext(c, d, seen, n);
    if Healable(c, d, n) {
      var m, e := FreshRows(c, d, seen), Fresh(c, d, n);
      assert d.embeddings + m[n := e] == (d.embeddings + m)[n := e];
      assert Vectors(m[n := e]) == Vectors(m)[n := e.vector];
      assert d.vec + Vectors(m)[n := e.vector] == (d.vec + Vectors(m))[n := e.vector];
    }
  }

  predicate CannotEmbed(c: Config) {
    !c.hasEncoder || c.dim.None? || c.model.None? || c.model == Some("") || (c.requireVecParity && !c.VecReady())
  }

  // ----- The phases one after the other -----

  function StageEdges(c: Config, d: Db): (d': Db) {
    if RemoveOrphanEdges in c.actions then d.(edges := d.edges - OrphanEdges(d)) else d
  }

  function StageOrphans(c: Config, d: Db): (d': Db) {
    StageEdges(c, if RemoveOrphanEmbeddings in c.actions then DropEmbeddings(c, d, OrphanEmbeddings(d)) else d)
  }

  function StageIndex(c: Config, d: Db): (d': Db) {
    if c.vecOperational && RepairVec in c.actions
    then var d1 := ReviseVec(c, d, d.vec.Keys); FillVec(c, d1, MissingVec(d1))
    else d
  }

  function StageEmbeddings(c: Config, d: Db): (d': Db) {
    if RepairEmbeddings in c.actions && !CannotEmbed(c) then Reembed(c, d, Embeddable(c, d)) else d
  }

  /** What a repair makes of d when every item works and there is room. */
  function Repaired(c: Config, d: Db): (d': Db) {
    StageEmbeddings(c, StageIndex(c, StageOrphans(c, d)))
  }

  function CountOrphans(c: Config, d: Db): (n: nat) {
    (if RemoveOrphanEmbeddings in c.actions then |OrphanEmbeddings(d)| else 0)
    + (if RemoveOrphanEdges in c.actions then |OrphanEdges(d)| else 0)
  }

  function CountIndex(c: Config, d: Db): (n: nat) {
    if c.vecOperational && RepairVec in c.actions then |d.vec| + |MissingVec(ReviseVec(c, d, d.vec.Keys))| else 0
  }

  function CountEmbeddings(c: Config, d: Db): (n: nat) {
    if RepairEmbeddings in c.actions && !CannotEmbed(c) then |Embeddable(c, d)| else 0
  }

  /** No query is cut short and the item budget reaches to the end. */
  ghost predicate Room(c: Config, d: Db) {
    var d1 := StageOrphans(c, d);
    var d2 := StageIndex(c, d1);
    && CountOrphans(c, d) <= c.batchSize && CountIndex(c, d1) <= c.batchSize && CountEmbeddings(c, d2) <= c.batchSize
    && CountOrphans(c, d) + CountIndex(c, d1) + CountEmbeddings(c, d2) <= c.maxItems
  }

  lemma DropKeepsEdges(c: Config, d: Db)
    ensures OrphanEdges(DropEmbeddings(c, d, OrphanEmbeddings(d))) == OrphanEdges(d)
  {
  }

  lemma KeptNodes(c: Config, d0: Db, d: Db)
    requires Kept(c, d0, d)
    ensures d.nodes == d0.nodes
  {
  }

  lemma DropNothing(c: Config, d: Db)
    ensures DropEmbeddings(c, d, {}) == d
  {
  }

  lemma ReviseNothing(c: Config, d: Db)
    ensures ReviseVec(c, d, {}) == d
  {
    assert ReviseVec(c, d, {}).vec == d.vec;
  }

  lemma FillNothing(c: Config, d: Db)
    ensures FillVec(c, d, {}) == d
  {
    assert FillVec(c, d, {}).vec == d.vec;
  }

  lemma ReembedNothing(c: Config, d: Db)
    ensures Reembed(c, d, {}) == d
  {
    assert Reembed(c, d, {}).vec == d.vec && Reembed(c, d, {}).embeddings == d.embeddings;
  }

  lemma NotYetIndexed(c: Config, d0: Db, d: Db, n: NodeId)
    requires Kept(c, d0, d) && n !in d.vec
    ensures !GoodVec(c, d0, n)
  {
  }

  // ----- The repair -----

  /** Rows of a query with LIMIT: all of them, or as many as the limit allows. */
  method Fetch<T(==, !new)>(rows: set<T>, limit: nat) returns (r: seq<T>)
    ensures forall x :: x in r ==> x in rows
    ensures NoRepeats(r)
    ensures |r| == if |rows| <= limit then |rows| else limit
    ensures |rows| <= limit ==> forall x :: x in rows ==> x in r
  {
    r := [];
    var rest := rows;
    while rest != {} && |r| < limit
      invariant rest <= rows && |r| + |rest| == |rows| && |r| <= limit
      invariant forall x :: x in rows <==> x in rest || x in r
      invariant forall x :: x in r ==> x !in rest
      invariant NoRepeats(r)
      decreases rest
    {
      var x :| x in rest;
      rest := rest - {x};
      r := r + [x];
    }
  }

  /** repair_integrity's working state: the connection's database and the report. */
  class IntegrityRepair {
    const c: Config
    const fate: nat -> Fate  // what befalls the item with each number
    var db: Db
    var considered: nat      // limits.items_considered
    var applied: nat         // items that took effect
    var failures: nat
    var skipped: nat
    var mutated: bool
    var uncertain: bool      // mutation_uncertain

    constructor (c: Config, fate: nat -> Fate, db: Db)
      ensures this.c == c && this.fate == fate && this.db == db
      ensures considered == 0 && applied == 0 && failures == 0 && skipped == 0 && !mutated && !uncertain
    {
      this.c, this.fate, this.db := c, fate, db;
      considered, applied, failures, skipped, mutated, uncertain := 0, 0, 0, 0, false, false;
    }

    /** Everything the report and the database promise at every point. */
    ghost predicate Valid(d0: Db)
      reads this
    {
      && (!uncertain ==> Kept(c, d0, db))
      && (!uncertain && !mutated ==> db == d0)
      && applied <= considered && (applied == 0 || applied <= c.maxItems)
      && (mutated <==> applied > 0 || uncertain)
      && (uncertain ==> failures > 0)
    }

    method ItemBudget() returns (ok: bool)
      modifies `considered
      ensures considered == old(considered) + 1
      ensures ok == (considered <= c.maxItems)
    {
      considered := considered + 1;
      ok := considered <= c.maxItems;
    }

    /** What an item with fate f may have done. */
    twostate predicate ItemDone(f: Fate, goal: Db)
      reads this
    {
      && unchanged(`considered, `skipped)
      && (f.Works? ==>
            && db == goal && applied == old(applied) + 1 && mutated
            && failures == old(failures) && uncertain == old(uncertain))
      && (!f.Works? ==> applied == old(applied) && failures > old(failures))
      && (!f.Works? && !f.UndoFails? ==> db == old(db) && mutated == old(mutated) && uncertain == old(uncertain))
      && (f.UndoFails? ==> uncertain && mutated)
    }

    /** One item inside its savepoint; `goal` is what its callback makes of the
        database. Unless undoing fails, a failed item leaves no trace. */
    method RunItem(goal: Db)
      modifies this
      ensures ItemDone(fate(considered), goal)
    {
      var savepoint := db;
      match fate(considered) {
        case NoSavepoint =>
          failures := failures + 1;
        case BodyFails(torn) =>
          db := torn;
          db := savepoint;
          failures := failures + 1;
        case ReleaseFails =>
          db := goal;
          db := savepoint;
          failures := failures + 1;
        case UndoFails(left) =>
          db := left;
          mutated, uncertain := true, true;
          failures := failures + 1;
        case Works =>
          db := goal;
          mutated, applied := true, applied + 1;
      }
    }

    /** Counters only grow, and doubt is never withdrawn. */
    twostate predicate Onward()
      reads this
    {
      && old(considered) <= considered && old(failures) <= failures && old(skipped) <= skipped
      && (old(uncertain) ==> uncertain)
    }

    /** A phase looks at no more items than a batch has, or all phases may. */
    twostate predicate Bounded(phases: nat)
      reads this
    {
      var most := if c.batchSize <= c.maxItems then c.batchSize else c.maxItems;
      considered - old(considered) <= phases * if most > 0 then most else 0
    }

    /** Every item works and no limit cuts this many rows short. */
    ghost predicate Smooth(rows: nat)
      reads this
    {
      && (forall k: nat :: fate(k).Works?)
      && rows <= c.batchSize && rows <= c.maxItems && considered + rows <= c.maxItems
    }

    method RemoveOrphanEmbeddingRows(ghost d0: Db)
      requires Valid(d0)
      modifies this
      ensures Valid(d0) && Onward() && Bounded(1)
      ensures OrphanEmbeddings(old(db)) == {} ==> unchanged(this)
      ensures old(Smooth(|OrphanEmbeddings(db)|)) ==>
        && db == DropEmbeddings(c, old(db), OrphanEmbeddings(old(db)))
        && considered == old(considered) + |OrphanEmbeddings(old(db))|
    {
      OrphansAreUnstored(db);
      hide Kept, DropEmbeddings, DropEmbedding, OrphanEmbeddings;
      ghost var snapshot, smooth := db, Smooth(|OrphanEmbeddings(db)|);
      if !uncertain {
        KeptNodes(c, d0, db);
      }
      DropNothing(c, db);
      var rows := Fetch(OrphanEmbeddings(db), c.Limit());
      assert Done(rows, 0) == {};
      forall k | !uncertain && 0 <= k < |rows| ensures rows[k] !in d0.nodes {
        assert rows[k] in rows;
      }
      for i := 0 to |rows|
        invariant Valid(d0) && Onward()
        invariant i == 0 ==> unchanged(this)
        invariant !uncertain ==> forall k :: 0 <= k < |rows| ==> rows[k] !in d0.nodes
        invariant considered == old(considered) + i
        invariant smooth ==> db == DropEmbeddings(c, snapshot, Done(rows, i))
      {
        var ok := ItemBudget();
        if !ok {
          break;
        }
        if !uncertain {
          DropEmbeddingKeeps(c, d0, db, rows[i]);
        }
        DoneNext(rows, i);
        DropNext(c, snapshot, Done(rows, i), rows[i]);
        RunItem(DropEmbedding(c, db, rows[i]));
      }
      assert smooth ==> Done(rows, |rows|) == OrphanEmbeddings(snapshot);
    }

    method RemoveOrphanEdgeRows(ghost d0: Db)
      requires Valid(d0)
      modifies this
      ensures Valid(d0) && Onward() && Bounded(1)
      ensures OrphanEdges(old(db)) == {} ==> unchanged(this)
      ensures old(Smooth(|OrphanEdges(db)|)) ==>
        && db == old(db).(edges := old(db).edges - OrphanEdges(old(db)))
        && considered == old(considered) + |OrphanEdges(old(db))|
    {
      hide Kept;
      ghost var snapshot, smooth := db, Smooth(|OrphanEdges(db)|);
      if !uncertain {
        KeptNodes(c, d0, db);
      }
      var rows := Fetch(OrphanEdges(db), c.Limit());
      forall k | !uncertain && 0 <= k < |rows| ensures OrphanEdge(d0, rows[k]) {
        assert rows[k] in rows;
      }
      for i := 0 to |rows|
        invariant Valid(d0) && Onward()
        invariant i == 0 ==> unchanged(this)
        invariant !uncertain ==> forall k :: 0 <= k < |rows| ==> OrphanEdge(d0, rows[k])
        invariant considered == old(considered) + i
        invariant smooth ==> db == snapshot.(edges := snapshot.edges - Done(rows, i))
      {
        var ok := ItemBudget();
        if !ok {
          break;
        }
        if !uncertain {
          DropEdgeKeeps(c, d0, db, rows[i]);
        }
        DoneNext(rows, i);
        RunItem(DropEdge(db, rows[i]));
      }
      assert smooth ==> Done(rows, |rows|) == OrphanEdges(snapshot);
    }

    /** One index row, within the budget. */
    method ReviseRow(ghost d0: Db, snapshot: Db, n: NodeId, ghost seen: set<NodeId>)
      requires Valid(d0) && applied < considered <= c.maxItems && n in snapshot.vec && n !in seen
      requires !uncertain ==> Kept(c, d0, snapshot) && db.embeddings == snapshot.embeddings
      modifies this
      ensures Valid(d0) && Onward() && considered == old(considered)
      ensures !uncertain ==> Kept(c, d0, snapshot) && db.embeddings == snapshot.embeddings
      ensures VerdictOf(c, snapshot, n).Fine? ==> unchanged(this)
      ensures VerdictOf(c, snapshot, n).Skip? ==> db == old(db) && skipped == old(skipped) + 1
      ensures fate(considered).Works? && old(db) == ReviseVec(c, snapshot, seen) ==>
        db == ReviseVec(c, snapshot, seen + {n})
    {
      hide Kept, GoodVec, JudgeVec, ReviseVec;
      var verdict := VerdictOf(c, snapshot, n);
      ReplacementIsOrdinary(c, snapshot.vec[n], EmbeddingOf(snapshot, n), DecayedOf(snapshot, n));
      ReviseNext(c, snapshot, seen, n);
      if verdict.Skip? {
        skipped := skipped + 1;
      } else if verdict.Replace? {
        if !uncertain {
          if GoodVec(c, d0, n) {
            GoodVecIsFine(c, d0, snapshot, n);
          }
          ReplaceVecKeeps(c, d0, db, n, verdict.replacement);
        }
        RunItem(ReplaceVec(db, n, verdict.replacement));
      }
    }

    /** The first index loop: stale and invalid rows go, or are rewritten from
        their embedding. */
    method RepairVecRows(ghost d0: Db)
      requires Valid(d0)
      modifies this
      ensures Valid(d0) && Onward() && Bounded(1)
      ensures old(StaleVec(db) == {} && InvalidVec(c, db) == {} && MismatchedVec(c, db) == {}) ==> Untouched()
      ensures old(Smooth(|db.vec|)) ==>
        db == ReviseVec(c, old(db), old(db).vec.Keys) && considered == old(considered) + |old(db).vec|
    {
      hide Kept, VerdictOf, StaleVec, InvalidVec, MismatchedVec, ReviseVec;
      var snapshot := db;
      ghost var clean := StaleVec(db) == {} && InvalidVec(c, db) == {} && MismatchedVec(c, db) == {};
      ghost var smooth := Smooth(|db.vec|);
      assert ReviseVec(c, snapshot, {}) == snapshot by { ReviseNothing(c, snapshot); }
      var rows := Fetch(snapshot.vec.Keys, c.Limit());
      assert Done(rows, 0) == {};
      for i := 0 to |rows|
        invariant Valid(d0) && Onward() && forall k :: 0 <= k < |rows| ==> rows[k] in snapshot.vec
        invariant !uncertain ==> Kept(c, d0, snapshot) && db.embeddings == snapshot.embeddings
        invariant clean ==> Untouched()
        invariant considered == old(considered) + i
        invariant smooth ==> db == ReviseVec(c, snapshot, Done(rows, i))
      {
        var ok := ItemBudget();
        if !ok {
          break;
        }
        if clean {
          assert VerdictOf(c, snapshot, rows[i]).Fine? by { CleanVecIsFine(c, snapshot, rows[i]); }
        }
        DoneNext(rows, i);
        ReviseRow(d0, snapshot, rows[i], Done(rows, i));
      }
      assert smooth ==> Done(rows, |rows|) == snapshot.vec.Keys;
    }

    /** The second index loop: live embeddings without a row get one. */
    method InsertVecRows(ghost d0: Db)
      requires Valid(d0)
      modifies this
      ensures Valid(d0) && Onward() && Bounded(1)
      ensures old(MissingVec(db)) == {} ==> Untouched()
      ensures old(Smooth(|MissingVec(db)|)) ==>
        db == FillVec(c, old(db), MissingVec(old(db))) && considered == old(considered) + |MissingVec(old(db))|
      ensures old(Smooth(|MissingVec(db)|)) && skipped == old(skipped) ==>
        forall n :: n in MissingVec(old(db)) ==> Indexable(c, old(db).embeddings[n])
    {
      hide Kept, FillVec, LiveNode, Indexable;
      var snapshot := db;
      ghost var smooth := Smooth(|MissingVec(db)|);
      assert FillVec(c, snapshot, {}) == snapshot by { FillNothing(c, snapshot); }
      var rows := Fetch(MissingVec(snapshot), c.Limit());
      assert Done(rows, 0) == {};
      for i := 0 to |rows|
        invariant Valid(d0) && Onward() && forall k :: 0 <= k < |rows| ==> rows[k] in MissingVec(snapshot)
        invariant !uncertain ==> Kept(c, d0, snapshot) && db.embeddings == snapshot.embeddings
        invariant i == 0 ==> unchanged(this)
        invariant considered == old(considered) + i
        invariant skipped == old(skipped) ==>
          forall k :: 0 <= k < i ==> Indexable(c, snapshot.embeddings[rows[k]])
        invariant smooth ==> db == FillVec(c, snapshot, Done(rows, i))
      {
        var n := rows[i];
        assert n in MissingVec(snapshot);
        var ok := ItemBudget();
        if !ok {
          break;
        }
        DoneNext(rows, i);
        FillNext(c, snapshot, Done(rows, i), n);
        var e := snapshot.embeddings[n];
        if !Indexable(c, e) {
          skipped := skipped + 1;
        } else {
          if !uncertain {
            InsertKeeps(c, d0, snapshot, db, n);
          }
          RunItem(ReplaceVec(db, n, Some(e.vector)));
        }
      }
      assert smooth ==> Done(rows, |rows|) == MissingVec(snapshot);
    }

    /** One live text, within the budget. */
    method ReembedRow(ghost d0: Db, snapshot: Db, n: NodeId, ghost seen: set<NodeId>)
      requires Valid(d0) && !CannotEmbed(c) && applied < considered <= c.maxItems && n in Embeddable(c, snapshot)
      requires !uncertain ==> Kept(c, d0, snapshot)
      modifies this
      ensures Valid(d0) && Onward() && considered == old(considered)
      ensures !uncertain ==> Kept(c, d0, snapshot)
      ensures GoodEmbedding(c, snapshot, n) ==> unchanged(this)
      ensures skipped == old(skipped) ==> GoodEmbedding(c, snapshot, n) || Healable(c, snapshot, n)
      ensures fate(considered).Works? && old(db) == Reembed(c, snapshot, seen) ==>
        db == Reembed(c, snapshot, seen + {n})
    {
      hide Kept, CanEmbed, LiveNode, Fresh, PutEmbedding, Reembed, GoodEmbedding, Healable, CannotEmbed;
      EmbeddingNeeds(c);
      assert c.model.Some? by { EmbeddingModel(c); }
      HealableMeans(c, snapshot, n);
      ReembedNext(c, snapshot, seen, n);
      if !GoodEmbedding(c, snapshot, n) {
        var vector := c.encode(snapshot.nodes[n].content.value);
        if vector.None? || c.defect(vector.value, c.dim) {
          skipped := skipped + 1;
        } else {
          if !uncertain {
            HealingKeeps(c, d0, snapshot, db, n);
          }
          RunItem(PutEmbedding(c, db, n, Embedding(vector.value, c.model.value)));
        }
      }
    }

    /** Live nodes with text whose embedding is missing, defective or of another
        model are embedded again. */
    method ReembedRows(ghost d0: Db)
      requires Valid(d0) && !CannotEmbed(c)
      modifies this
      ensures Valid(d0) && Onward() && Bounded(1)
      ensures old(MissingEmbeddings(db) == {} && InvalidEmbeddings(c, db) == {}) ==> Untouched()
      ensures old(Smooth(|Embeddable(c, db)|)) ==>
        db == Reembed(c, old(db), Embeddable(c, old(db))) && considered == old(considered) + |Embeddable(c, old(db))|
      ensures old(Smooth(|Embeddable(c, db)|)) && skipped == old(skipped) ==>
        forall n :: n in Embeddable(c, old(db)) ==> GoodEmbedding(c, old(db), n) || Healable(c, old(db), n)
    {
      hide Kept, CanEmbed, LiveNode, Fresh, PutEmbedding, MissingEmbeddings, InvalidEmbeddings, Reembed;
      hide GoodEmbedding, Healable, CannotEmbed;
      assert c.model.Some? by { EmbeddingModel(c); }
      var snapshot := db;
      ghost var clean := MissingEmbeddings(db) == {} && InvalidEmbeddings(c, db) == {};
      ghost var smooth := Smooth(|Embeddable(c, db)|);
      assert Reembed(c, snapshot, {}) == snapshot by { ReembedNothing(c, snapshot); }
      var rows := Fetch(Embeddable(c, snapshot), c.Limit());
      assert Done(rows, 0) == {};
      for i := 0 to |rows|
        invariant Valid(d0) && Onward() && forall k :: 0 <= k < |rows| ==> rows[k] in Embeddable(c, snapshot)
        invariant !uncertain ==> Kept(c, d0, snapshot)
        invariant clean ==> Untouched()
        invariant considered == old(considered) + i
        invariant skipped == old(skipped) ==>
          forall k :: 0 <= k < i ==> GoodEmbedding(c, snapshot, rows[k]) || Healable(c, snapshot, rows[k])
        invariant smooth ==> db == Reembed(c, snapshot, Done(rows, i))
      {
        var n := rows[i];
        assert n in Embeddable(c, snapshot);
        var ok := ItemBudget();
        if !ok {
          break;
        }
        DoneNext(rows, i);
        if clean {
          CleanEmbeddingIsGood(c, snapshot, n);
        }
        ReembedRow(d0, snapshot, n, Done(rows, i));
      }
      assert smooth ==> Done(rows, |rows|) == Embeddable(c, snapshot);
    }

    predicate VecUnavailable() {
      (RepairVec in c.actions || RepairEmbeddings in c.actions) && c.requireVecParity && !c.VecReady()
    }

    method RemoveOrphans(ghost d0: Db)
      requires Valid(d0)
      modifies this
      ensures Valid(d0) && Onward() && Bounded(2)
      ensures old(!Remains(c, db)) ==> Untouched()
      ensures old(Smooth(CountOrphans(c, db)) && c.maxItems >= 0) ==>
        db == StageOrphans(c, old(db)) && considered == old(considered) + CountOrphans(c, old(db))
    {
      hide Kept, OrphanEmbeddings, OrphanEdges, DropEmbeddings;
      if RemoveOrphanEmbeddings in c.actions {
        RemoveOrphanEmbeddingRows(d0);
      }
      ghost var mid := db;
      if RemoveOrphanEdges in c.actions {
        RemoveOrphanEdgeRows(d0);
      }
      DropKeepsEdges(c, old(db));
    }

    method RepairIndex(ghost d0: Db)
      requires Valid(d0)
      modifies this
      ensures Valid(d0) && Onward() && Bounded(2)
      ensures old(!Remains(c, db)) ==> Untouched()
      ensures old(Smooth(CountIndex(c, db))) ==>
        db == StageIndex(c, old(db)) && considered == old(considered) + CountIndex(c, old(db))
    {
      hide Kept, MissingVec, StaleVec, InvalidVec, MismatchedVec, ReviseVec, FillVec;
      if c.vecOperational && RepairVec in c.actions {
        RepairVecRows(d0);
        InsertVecRows(d0);
      }
    }

    method RepairEmbeddingRows(ghost d0: Db)
      requires Valid(d0)
      modifies this
      ensures Valid(d0) && Onward() && Bounded(1)
      ensures old(!Remains(c, db)) ==> unchanged(`db, `applied, `failures, `mutated, `uncertain)
      ensures old(!Remains(c, db)) && (RepairEmbeddings in c.actions ==> CanEmbed(c)) ==> skipped == old(skipped)
      ensures old(Smooth(CountEmbeddings(c, db))) ==> db == StageEmbeddings(c, old(db))
      ensures RepairEmbeddings in c.actions && !CanEmbed(c) ==> skipped > old(skipped) && db == old(db)
    {
      hide Kept, MissingEmbeddings, InvalidEmbeddings, Reembed, Embeddable;
      if RepairEmbeddings in c.actions {
        if CannotEmbed(c) {
          skipped := skipped + 1;
        } else {
          ReembedRows(d0);
        }
      }
    }

    /** The whole repair of d0, ending with a fresh inspection. */
    method RepairIntegrity(ghost d0: Db) returns (status: Status)
      requires Valid(d0) && db == d0 && considered == 0 && applied == 0 && failures == 0 && skipped == 0 && !uncertain
      modifies this
      ensures Valid(d0)
      ensures status.Refused? <==> c.Rejected()
      ensures status.Refused? ==> db == d0 && !mutated
      ensures status.Complete? ==> failures == 0 && skipped == 0 && !Remains(c, db)
      ensures status.Partial? ==> failures > 0 || skipped > 0 || Remains(c, db)
      ensures uncertain ==> status.Partial?
      ensures RepairEmbeddings in c.actions && !CanEmbed(c) ==> !status.Complete?
      ensures !c.Rejected() && !Remains(c, d0) ==> (status.Complete? <==> NothingMissing(c))
      ensures !status.Refused? ==> applied <= 5 * c.batchSize
      ensures !Remains(c, d0) ==> db == d0 && !mutated && failures == 0
      ensures !c.Rejected() && (forall k: nat :: fate(k).Works?) && Room(c, d0) ==> db == Repaired(c, d0)
    {
      hide Kept, Remains, StageOrphans, StageIndex, StageEmbeddings, CountOrphans, CountIndex, CountEmbeddings;
      if c.Rejected() {
        return Refused;
      }
      if VecUnavailable() {
        skipped := skipped + 1;
      }
      RemoveOrphans(d0);
      RepairIndex(d0);
      RepairEmbeddingRows(d0);
      status := if skipped > 0 || failures > 0 || Remains(c, db) then Partial else Complete;
    }

    /** Everything but the count of items looked at is as it was. */
    twostate predicate Untouched()
      reads this
    {
      unchanged(`db, `applied, `failures, `skipped, `mutated, `uncertain)
    }
  }

  lemma OrphansAreUnstored(d: Db)
    ensures forall n :: n in OrphanEmbeddings(d) ==> n !in d.nodes
  {
  }

  lemma InsertKeeps(c: Config, d0: Db, snapshot: Db, d: Db, n: NodeId)
    requires Kept(c, d0, snapshot) && Kept(c, d0, d) && d.embeddings == snapshot.embeddings
    requires n in snapshot.embeddings && n !in snapshot.vec && Indexable(c, snapshot.embeddings[n])
    ensures Kept(c, d0, ReplaceVec(d, n, Some(snapshot.embeddings[n].vector)))
  {
    NotYetIndexed(c, d0, snapshot, n);
    hide Kept;
    ReplaceVecKeeps(c, d0, d, n, Some(snapshot.embeddings[n].vector));
  }

  lemma EmbeddingNeeds(c: Config)
    requires !CannotEmbed(c)
    ensures CanEmbed(c)
  {
  }

  lemma EmbeddingModel(c: Config)
    requires !CannotEmbed(c)
    ensures c.model.Some?
  {
  }

  lemma HealableMeans(c: Config, d: Db, n: NodeId)
    requires n in Embeddable(c, d) && c.model.Some?
    ensures n in d.nodes && LiveNode(d, n) && d.nodes[n].content.Some?
    ensures var v := c.encode(d.nodes[n].content.value);
      && (Healable(c, d, n) <==> !GoodEmbedding(c, d, n) && v.Some? && !c.defect(v.value, c.dim))
      && (Healable(c, d, n) ==> Fresh(c, d, n) == Embedding(v.value, c.model.value))
  {
  }

  lemma HealingKeeps(c: Config, d0: Db, snapshot: Db, d: Db, n: NodeId)
    requires Kept(c, d0, snapshot) && Kept(c, d0, d) && Healable(c, snapshot, n) && !CannotEmbed(c)
    ensures Kept(c, d0, PutEmbedding(c, d, n, Fresh(c, snapshot, n)))
  {
    KeptNodes(c, d0, snapshot);
    if GoodEmbedding(c, d0, n) {
      GoodEmbeddingStays(c, d0, snapshot, n);
    }
    assert Recomputed(c, d0, n, Fresh(c, snapshot, n));
    hide Kept;
    PutEmbeddingKeeps(c, d0, d, n, Fresh(c, snapshot, n));
  }

  /** Live nodes with some text. */
  function Embeddable(c: Config, d: Db): (r: set<NodeId>) {
    set n | n in d.nodes && LiveNode(d, n) && d.nodes[n].content.Some? && !c.blank(d.nodes[n].content.value)
  }

  lemma CleanEmbeddingIsGood(c: Config, d: Db, n: NodeId)
    requires LiveNode(d, n) && MissingEmbeddings(d) == {} && InvalidEmbeddings(c, d) == {} && c.model.Some?
    ensures GoodEmbedding(c, d, n)
  {
    assert n !in MissingEmbeddings(d) && n !in InvalidEmbeddings(c, d);
  }

  /** The outcome a caller sees. */
  datatype Report = Report(status: Status, db: Db, applied: nat, failures: nat, skipped: nat, mutated: bool,
                           uncertain: bool)

  /** One call of repair_integrity, for any database and any pattern of failing items. */
  method RepairDatabase(c: Config, fate: nat -> Fate, d0: Db) returns (r: Report)
    ensures !r.uncertain ==> Kept(c, d0, r.db)
    ensures !r.uncertain && !r.mutated ==> r.db == d0
    ensures r.applied == 0 || (r.applied <= c.maxItems && r.applied <= 5 * c.batchSize)
    ensures r.status.Refused? <==> c.Rejected()
    ensures c.Rejected() <==> c.dim == Some(0) || c.batchSize <= 0 || c.maxItems <= 0 || !c.inTransaction
    ensures r.status.Refused? ==> r.db == d0
    ensures !c.Rejected() ==> (r.status.Complete? <==> r.failures == 0 && r.skipped == 0 && !Remains(c, r.db))
    ensures r.uncertain ==> r.status.Partial?
    ensures RepairEmbeddings in c.actions && !CanEmbed(c) ==> !r.status.Complete?
    ensures !c.Rejected() && !Remains(c, d0) ==> (r.status.Complete? <==> NothingMissing(c))
    ensures !Remains(c, d0) ==> r.db == d0 && !r.mutated && r.failures == 0
    ensures !c.Rejected() && (forall k: nat :: fate(k).Works?) && Room(c, d0) ==> r.db == Repaired(c, d0)
  {
    hide Kept, Remains, Room, Repaired;
    var run := new IntegrityRepair(c, fate, d0);
    assert Kept(c, d0, d0) by { KeptAtStart(c, d0); }
    var status := run.RepairIntegrity(d0);
    r := Report(status, run.db, run.applied, run.failures, run.skipped, run.mutated, run.uncertain);
  }

  /** And a new embedding: only if the request allows it, only for a current
      thought whose text is not blank and which had no good one, and it is the
      encoding of that text, of the expected model and dimension. */
  lemma NewEmbeddingsMean(c: Config, d0: Db, d: Db, n: NodeId)
    requires Kept(c, d0, d) && n in d.embeddings && !(n in d0.embeddings && d.embeddings[n] == d0.embeddings[n])
    ensures CanEmbed(c) && Current(d0, n) && !c.defect(d.embeddings[n].vector, c.dim)
    ensures d0.nodes[n].content.Some? && !c.blank(d0.nodes[n].content.value)
    ensures c.encode(d0.nodes[n].content.value) == Some(d.embeddings[n].vector)
    ensures Some(d.embeddings[n].model) == c.model
    ensures n in d0.embeddings ==>
      c.defect(d0.embeddings[n].vector, c.dim) || Some(d0.embeddings[n].model) != c.model
  {
  }

  /** What being kept means to the owner of the memories. */
  lemma KeptMeans(c: Config, d0: Db, d: Db, n: NodeId)
    requires Kept(c, d0, d)
    ensures d.nodes == d0.nodes
    ensures Current(d0, n) && n in d0.embeddings && !c.defect(d0.embeddings[n].vector, c.dim) ==>
      Some(d0.embeddings[n].model) == c.model ==>
      n in d.embeddings && d.embeddings[n] == d0.embeddings[n]
    ensures n in d0.embeddings && n in d0.nodes ==> n in d.embeddings
    ensures forall e :: e in d0.edges - d.edges ==> e.0 !in d0.nodes || e.1 !in d0.nodes
    ensures d.edges <= d0.edges
    ensures n in d.vec && !(n in d0.vec && d.vec[n] == d0.vec[n]) ==>
      && n in d.embeddings && d.vec[n] == d.embeddings[n].vector && !c.defect(d.vec[n], Some(c.vecDim))
      && (c.model == None || c.model == Some(d.embeddings[n].model))
      && c.vecOperational && (c.dim.None? || c.dim.value == c.vecDim)
  {
    if LiveNode(d0, n) && GoodEmbedding(c, d0, n) {
      GoodEmbeddingStays(c, d0, d, n);
    }
  }

  // ----- What a full repair achieves -----

  /** All default actions, a loaded index of the right dimension, and an encoder
      that gives a usable vector for every text; equal vectors match. */
  ghost predicate Equipped(c: Config) {
    && c.actions == {RepairVec, RepairEmbeddings, RemoveOrphanEmbeddings, RemoveOrphanEdges}
    && c.vecOperational && c.dim == Some(c.vecDim) && c.hasEncoder && c.model.Some? && c.model != Some("")
    && (forall t :: !c.blank(t) ==> c.encode(t).Some? && !c.defect(c.encode(t).value, c.dim))
    && (forall b :: !c.defect(b, c.dim) ==> c.same(b, b, c.vecDim))
  }

  lemma OrphansGo(c: Config, d: Db)
    requires Equipped(c)
    ensures OrphanEmbeddings(StageOrphans(c, d)) == {} && OrphanEdges(StageOrphans(c, d)) == {}
    ensures StageOrphans(c, d).nodes == d.nodes
    ensures forall n :: n in d.nodes ==> EmbeddingOf(StageOrphans(c, d), n) == EmbeddingOf(d, n)
  {
  }

  /** The index phase leaves embeddings and nodes alone, and every live node with
      a good embedding ends up rightly indexed. */
  lemma IndexFollowsEmbeddings(c: Config, d: Db, n: NodeId)
    requires Equipped(c) && LiveNode(d, n) && GoodEmbedding(c, d, n)
    ensures GoodVec(c, StageIndex(c, d), n)
  {
    var d1 := ReviseVec(c, d, d.vec.Keys);
    assert d1.nodes == d.nodes && d1.embeddings == d.embeddings;
    if n in d.vec {
      var v := VerdictOf(c, d, n);
      assert v == Fine || v == Replace(Some(d.embeddings[n].vector));
      assert n in d1.vec && d1.vec[n] == if v.Fine? then d.vec[n] else d.embeddings[n].vector;
      assert n !in MissingVec(d1);
    } else {
      assert n in MissingVec(d1);
    }
  }

  /** An index row of a thought that is not decayed, decodable, and not contradicting its embedding. */
  predicate RightRow(c: Config, d: Db, n: NodeId) {
    && n in d.vec && n in d.embeddings && (DecayedOf(d, n).None? || DecayedOf(d, n).value == 0)
    && !c.defect(d.vec[n], Some(c.vecDim)) && !Mismatch(c, d.vec[n], d.embeddings[n].vector)
  }

  /** A row the index phase skips: undecodable or contradicting, without an
      embedding row of the expected model. */
  predicate LeftOver(c: Config, d: Db, n: NodeId) {
    && n in d.vec && (n !in d.embeddings || !c.ModelFits(d.embeddings[n].model))
    && (c.defect(d.vec[n], Some(c.vecDim)) ||
        (n in d.embeddings && (DecayedOf(d, n).None? || DecayedOf(d, n).value == 0) &&
          Mismatch(c, d.vec[n], d.embeddings[n].vector)))
  }

  /** The rows still wrong after the index phase are exactly the skipped ones. */
  lemma WrongRowsAreSkipped(c: Config, d: Db, n: NodeId)
    requires Equipped(c)
    ensures n in StageIndex(c, d).vec && !RightRow(c, StageIndex(c, d), n) <==> LeftOver(c, d, n)
  {
    var d1 := ReviseVec(c, d, d.vec.Keys);
    var d2 := StageIndex(c, d);
    assert d2.nodes == d.nodes && d2.embeddings == d.embeddings;
    if n in d.vec {
      var v := VerdictOf(c, d, n);
      ReplacementIsOrdinary(c, d.vec[n], EmbeddingOf(d, n), DecayedOf(d, n));
      assert n in d1.vec <==> v != Replace(None);
      assert LeftOver(c, d, n) <==> v == Skip;
      if n in d1.vec {
        assert n !in MissingVec(d1) && d2.vec[n] == d1.vec[n];
      } else if n in d2.vec {
        assert Indexable(c, d.embeddings[n]) && n in MissingVec(d1);
      }
    } else if n in d2.vec {
      assert Indexable(c, d.embeddings[n]) && n in MissingVec(d1);
    }
  }

  lemma EmbeddingsHeal(c: Config, d: Db, n: NodeId)
    requires Equipped(c) && n in Embeddable(c, d) && (GoodEmbedding(c, d, n) ==> GoodVec(c, d, n))
    ensures GoodVec(c, StageEmbeddings(c, d), n)
  {
    var seen := Embeddable(c, d);
    var d' := Reembed(c, d, seen);
    var m := FreshRows(c, d, seen);
    if GoodEmbedding(c, d, n) {
      assert n !in m;
    } else {
      assert Healable(c, d, n) && n in m && m[n] == Fresh(c, d, n);
      assert d'.embeddings[n] == m[n] && n in Vectors(m) && d'.vec[n] == m[n].vector;
    }
  }

  /** When every item works and there is room, each live thought with text ends
      with a valid embedding of the expected model and a matching index row, and
      no orphan row is left. */
  lemma FullRepairHeals(c: Config, d: Db, n: NodeId)
    requires Equipped(c) && n in Embeddable(c, d)
    ensures GoodVec(c, Repaired(c, d), n)
    ensures OrphanEmbeddings(Repaired(c, d)) == {} && OrphanEdges(Repaired(c, d)) == {}
  {
    hide Equipped, StageOrphans, GoodVec, GoodEmbedding;
    var d1 := StageOrphans(c, d);
    OrphansGo(c, d);
    var d2 := StageIndex(c, d1);
    IndexFrame(c, d1);
    if GoodEmbedding(c, d2, n) {
      assert GoodEmbedding(c, d1, n) by { SameEmbedding(c, d2, d1, n); }
      IndexFollowsEmbeddings(c, d1, n);
    }
    EmbeddingsHeal(c, d2, n);
    EmbeddingsFrame(c, d2);
  }

  lemma SameEmbedding(c: Config, d: Db, d': Db, n: NodeId)
    requires GoodEmbedding(c, d, n) && d'.embeddings == d.embeddings
    ensures GoodEmbedding(c, d', n)
  {
  }

  lemma IndexFrame(c: Config, d: Db)
    ensures var d' := StageIndex(c, d); d'.nodes == d.nodes && d'.embeddings == d.embeddings && d'.edges == d.edges
  {
  }

  /** Embedding phase: only embeddings of stored nodes are added. */
  lemma EmbeddingsFrame(c: Config, d: Db)
    ensures var d' := StageEmbeddings(c, d);
      && d'.nodes == d.nodes && d'.edges == d.edges
      && (OrphanEmbeddings(d) == {} ==> OrphanEmbeddings(d') == {})
      && (OrphanEdges(d) == {} ==> OrphanEdges(d') == {})
  {
    var d' := StageEmbeddings(c, d);
    if OrphanEmbeddings(d) == {} {
      forall n | n in d'.embeddings ensures n in d'.nodes {
        if n in d.embeddings {
          assert n !in OrphanEmbeddings(d);
        }
      }
    }
  }
}
