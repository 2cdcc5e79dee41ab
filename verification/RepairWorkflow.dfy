/** The operator's transaction (integrity.py) around the targeted repair
    (core/integrity.py): when a repair succeeds, and what its success says about
    the committed file. The caller names the model to repair to; the operator
    verifies by the model the file states. */
module RepairWorkflow {
  import opened Graph
  import R = Repair
  import O = OperatorRepair

  function NameOf(a: R.Act): (name: O.ActionName) {
    match a
    case RepairVec => O.RepairVec
    case RepairEmbeddings => O.RepairEmbeddings
    case RemoveOrphanEmbeddings => O.RemoveOrphanEmbeddings
    case RemoveOrphanEdges => O.RemoveOrphanEdges
  }

  function Names(acts: set<R.Act>): (r: set<O.ActionName>) {
    set a | a in acts :: NameOf(a)
  }

  function CountIf(looked: bool, n: nat): (r: nat) {
    if looked then n else 0
  }

  /** Embedding rows whose vector is no good, and rows of another model than the expected one. */
  function Defective(c: R.Config, d: R.Db): (r: set<NodeId>) {
    set n | n in d.embeddings && c.defect(d.embeddings[n].vector, c.dim)
  }

  function Foreign(c: R.Config, d: R.Db): (r: set<NodeId>) {
    set n | n in d.embeddings && !c.ModelFits(d.embeddings[n].model)
  }

  /** The counts inspect_integrity reports. A row that is both defective and
      foreign is counted twice, a wrong index dimension as one invalid row. */
  function Counts(c: R.Config, d: R.Db): (r: O.Counts) {
    map[
      O.MissingEmbeddings := |R.MissingEmbeddings(d)|,
      O.InvalidEmbeddings := |Defective(c, d)| + |Foreign(c, d)|,
      O.OrphanEmbeddings := |R.OrphanEmbeddings(d)|,
      O.OrphanEdges := |R.OrphanEdges(d)|,
      O.MissingVec := CountIf(c.vecOperational, |R.MissingVec(d)|),
      O.StaleVec := CountIf(c.vecOperational, |R.StaleVec(d)|),
      O.InvalidVec := CountIf(c.vecOperational,
                              |R.InvalidVec(c, d)| + CountIf(c.dim.Some? && c.dim.value != c.vecDim, 1)),
      O.VecMismatched := CountIf(c.vecOperational, |R.MismatchedVec(c, d)|)]
  }

  /** The keys a selection of default actions answers for, permanence being only reported. */
  ghost predicate AnswersFor(acts: set<R.Act>, keys: set<O.Key>) {
    forall k :: k in keys <==> exists a :: a in acts && k in O.KeysOf(NameOf(a))
  }

  ghost predicate AnyLeft(c: R.Config, d: R.Db, keys: set<O.Key>) {
    exists k :: k in keys && O.Get(Counts(c, d), k) > 0
  }

  /** What one action answers for is left, as the sets and as the counts say it. */
  predicate LeftBy(c: R.Config, d: R.Db, a: R.Act) {
    match a
    case RemoveOrphanEmbeddings => R.OrphanEmbeddings(d) != {}
    case RemoveOrphanEdges => R.OrphanEdges(d) != {}
    case RepairEmbeddings => R.MissingEmbeddings(d) != {} || R.InvalidEmbeddings(c, d) != {}
    case RepairVec =>
      c.vecOperational &&
      (R.MissingVec(d) != {} || R.StaleVec(d) != {} || R.InvalidVec(c, d) != {} || R.MismatchedVec(c, d) != {}
       || (c.dim.Some? && c.dim.value != c.vecDim))
  }

  lemma LeftIsCounted(c: R.Config, d: R.Db, a: R.Act)
    ensures LeftBy(c, d, a) <==> exists k :: k in O.KeysOf(NameOf(a)) && O.Get(Counts(c, d), k) > 0
  {
    if a.RepairVec? {
      VecLeftIsCounted(c, d);
    } else if a.RepairEmbeddings? {
      EmbeddingsLeftAreCounted(c, d);
    } else {
      OrphansLeftAreCounted(c, d, a);
    }
  }

  lemma VecLeftIsCounted(c: R.Config, d: R.Db)
    ensures LeftBy(c, d, R.RepairVec) <==> exists k :: k in O.KeysOf(O.RepairVec) && O.Get(Counts(c, d), k) > 0
  {
    hide R.MissingVec, R.StaleVec, R.InvalidVec, R.MismatchedVec, Defective, Foreign;
    hide R.MissingEmbeddings, R.OrphanEmbeddings, R.OrphanEdges;
    var keys := O.KeysOf(O.RepairVec);
    assert O.MissingVec in keys && O.StaleVec in keys && O.InvalidVec in keys && O.VecMismatched in keys;
  }

  lemma EmbeddingsLeftAreCounted(c: R.Config, d: R.Db)
    ensures LeftBy(c, d, R.RepairEmbeddings) <==>
      exists k :: k in O.KeysOf(O.RepairEmbeddings) && O.Get(Counts(c, d), k) > 0
  {
    InvalidIsEither(c, d);
    hide R.InvalidEmbeddings, R.MissingVec, R.StaleVec, R.InvalidVec, R.MismatchedVec, Defective, Foreign;
    hide R.MissingEmbeddings, R.OrphanEmbeddings, R.OrphanEdges;
    var keys := O.KeysOf(O.RepairEmbeddings);
    assert O.MissingEmbeddings in keys && O.InvalidEmbeddings in keys;
  }

  lemma OrphansLeftAreCounted(c: R.Config, d: R.Db, a: R.Act)
    requires a.RemoveOrphanEmbeddings? || a.RemoveOrphanEdges?
    ensures LeftBy(c, d, a) <==> exists k :: k in O.KeysOf(NameOf(a)) && O.Get(Counts(c, d), k) > 0
  {
    hide R.MissingVec, R.StaleVec, R.InvalidVec, R.MismatchedVec, Defective, Foreign;
    hide R.MissingEmbeddings, R.OrphanEmbeddings, R.OrphanEdges;
    var key := if a.RemoveOrphanEdges? then O.OrphanEdges else O.OrphanEmbeddings;
    assert key in O.KeysOf(NameOf(a));
  }

  lemma InvalidIsEither(c: R.Config, d: R.Db)
    ensures R.InvalidEmbeddings(c, d) == Defective(c, d) + Foreign(c, d)
  {
  }

  lemma RemainsBy(c: R.Config, d: R.Db)
    ensures R.Remains(c, d) <==> exists a :: a in c.actions && LeftBy(c, d, a)
  {
    hide R.MissingEmbeddings, R.InvalidEmbeddings, R.OrphanEmbeddings, R.OrphanEdges;
    hide R.MissingVec, R.StaleVec, R.InvalidVec, R.MismatchedVec;
    assert R.Remains(c, d) ==>
      || (R.RemoveOrphanEmbeddings in c.actions && LeftBy(c, d, R.RemoveOrphanEmbeddings))
      || (R.RemoveOrphanEdges in c.actions && LeftBy(c, d, R.RemoveOrphanEdges))
      || (R.RepairEmbeddings in c.actions && LeftBy(c, d, R.RepairEmbeddings))
      || (R.RepairVec in c.actions && LeftBy(c, d, R.RepairVec));
  }

  /** The repair's own judgement of what is left and the operator's agree: an
      anomaly of a selected kind remains exactly when an answerable count is
      not zero. */
  lemma RemainsIffCounted(c: R.Config, d: R.Db, keys: set<O.Key>)
    requires AnswersFor(c.actions, keys)
    ensures R.Remains(c, d) <==> AnyLeft(c, d, keys)
  {
    hide R.Remains, Counts, LeftBy, O.Get, O.KeysOf, NameOf;
    RemainsBy(c, d);
    if R.Remains(c, d) {
      var a :| a in c.actions && LeftBy(c, d, a);
      LeftIsCounted(c, d, a);
      var k :| k in O.KeysOf(NameOf(a)) && O.Get(Counts(c, d), k) > 0;
      assert k in keys;
    }
    if AnyLeft(c, d, keys) {
      var k :| k in keys && O.Get(Counts(c, d), k) > 0;
      var a :| a in c.actions && k in O.KeysOf(NameOf(a));
      LeftIsCounted(c, d, a);
    }
  }

  // ----- Two expected models -----

  /** What _profile_identity reads. */
  datatype Identity = Identity(model: string, dim: nat)

  /** The repair as the operator asks for it: the caller's model if there is one,
      the stored dimension, inside the operator's transaction. */
  function Asked(request: R.Config, stored: Identity): (c: R.Config) {
    request.(model := Some(if request.model.Some? then request.model.value else stored.model),
             dim := Some(stored.dim), inTransaction := true)
  }

  /** The same by the stored model, as both inspections count. */
  function Verified(request: R.Config, stored: Identity): (c: R.Config) {
    Asked(request, stored).(model := Some(stored.model))
  }

  function RowsOf(d: R.Db, model: string): (r: set<NodeId>) {
    set n | n in d.embeddings && d.embeddings[n].model == model
  }

  lemma ForeignAreOthers(c: R.Config, d: R.Db)
    requires c.model.Some?
    ensures |Foreign(c, d)| == |d.embeddings| - |RowsOf(d, c.model.value)|
  {
    assert Foreign(c, d) + RowsOf(d, c.model.value) == d.embeddings.Keys;
    assert Foreign(c, d) !! RowsOf(d, c.model.value);
  }

  /** The two counts differ in the invalid embeddings alone, and there exactly
      when the file has not as many rows of the one model as of the other. */
  lemma CountsAgreeIff(c: R.Config, other: string, d: R.Db, k: O.Key)
    requires c.model.Some?
    ensures O.Get(Counts(c, d), k) == O.Get(Counts(c.(model := Some(other)), d), k) <==>
      (k.InvalidEmbeddings? ==> |RowsOf(d, c.model.value)| == |RowsOf(d, other)|)
  {
    hide RowsOf, Foreign, Defective, R.InvalidVec, R.MismatchedVec;
    hide R.MissingEmbeddings, R.OrphanEmbeddings, R.OrphanEdges, R.MissingVec, R.StaleVec;
    ForeignAreOthers(c, d);
    ForeignAreOthers(c.(model := Some(other)), d);
    ModelMattersNotElse(c, other, d);
  }

  lemma ModelMattersNotElse(c: R.Config, other: string, d: R.Db)
    ensures var c' := c.(model := Some(other));
      && Defective(c, d) == Defective(c', d)
      && R.InvalidVec(c, d) == R.InvalidVec(c', d) && R.MismatchedVec(c, d) == R.MismatchedVec(c', d)
  {
  }

  /** What lets the operator's verification through. */
  predicate ModelsBalance(request: R.Config, stored: Identity, d: R.Db) {
    R.RepairEmbeddings in request.actions ==>
      |RowsOf(d, Asked(request, stored).model.value)| == |RowsOf(d, stored.model)|
  }

  /** An honest report matches an inspection exactly when both count the same. */
  lemma HonestMatchIff(mine: O.Counts, theirs: O.Counts, keys: set<O.Key>, skipped: bool, failures: bool, mutated: bool)
    ensures var d := O.HonestReport(mine, keys, skipped, failures, mutated);
      O.VerificationMatches(d, O.Inspection(true, Some(theirs)), keys) <==>
        forall k :: k in keys ==> O.Get(theirs, k) == O.Get(mine, k)
  {
    var d := O.HonestReport(mine, keys, skipped, failures, mutated);
    O.MatchMeans(d, O.Inspection(true, Some(theirs)), keys);
    assert forall k :: O.Get(d.remaining.value, k) == O.Get(mine, k);
  }

  lemma ReportMatchesIff(request: R.Config, stored: Identity, keys: set<O.Key>, d: R.Db,
                         skipped: bool, failures: bool, mutated: bool)
    requires AnswersFor(request.actions, keys)
    ensures var mine, theirs := Counts(Asked(request, stored), d), Counts(Verified(request, stored), d);
      O.VerificationMatches(O.HonestReport(mine, keys, skipped, failures, mutated),
                            O.Inspection(true, Some(theirs)), keys)
      <==> ModelsBalance(request, stored, d)
  {
    hide Counts, O.VerificationMatches, O.HonestReport, RowsOf, O.Get;
    var c := Asked(request, stored);
    HonestMatchIff(Counts(c, d), Counts(Verified(request, stored), d), keys, skipped, failures, mutated);
    forall k ensures O.Get(Counts(c, d), k) == O.Get(Counts(Verified(request, stored), d), k) <==>
      (k.InvalidEmbeddings? ==> |RowsOf(d, c.model.value)| == |RowsOf(d, stored.model)|)
    {
      CountsAgreeIff(c, stored.model, d, k);
    }
    assert O.InvalidEmbeddings in keys <==> R.RepairEmbeddings in request.actions by {
      InvalidIsAnswered(request.actions, keys);
    }
  }

  lemma InvalidIsAnswered(acts: set<R.Act>, keys: set<O.Key>)
    requires AnswersFor(acts, keys)
    ensures O.InvalidEmbeddings in keys <==> R.RepairEmbeddings in acts
  {
    assert O.InvalidEmbeddings in O.KeysOf(NameOf(R.RepairEmbeddings));
  }

  // ----- When a repair succeeds -----

  /** What can go wrong in the calls into the upstream code: the repair raises,
      leaving the transaction at `torn`, or an inspection is unusable. */
  datatype Upstream = Upstream(repairRaises: bool, torn: R.Db, inspectsOpen: bool, inspectsFile: bool)

  /** What repair_integrity returns, as the operator reads it. */
  function Declare(c: R.Config, keys: set<O.Key>, u: Upstream, rep: R.Report): (d: O.Declared) {
    if u.repairRaises then O.Declared(O.Other("upstream_integrity_repair_failed"), None, false, false, false)
    else if rep.status.Refused? then O.Declared(O.Other("rejected"), None, false, false, false)
    else O.HonestReport(Counts(c, rep.db), keys, rep.skipped > 0, rep.failures > 0, rep.mutated)
  }

  /** Nothing outside the repair stands in the way. */
  predicate Unhindered(w: O.World, u: Upstream) {
    && w.requestValid && w.profileFound && w.apiAvailable && w.admitted && w.connected && w.identityReadable
    && w.identityMatches && w.begun && w.backedUp && !w.raisesBeforeCommit
    && w.commit.CommitWorks? && !w.raisesAfterCommit && w.leaseReleased
    && !u.repairRaises && u.inspectsOpen && u.inspectsFile
  }

  /** The same surroundings with the targeted repair and its inspections in them. */
  function Around(w: O.World, u: Upstream, request: R.Config, stored: Identity, keys: set<O.Key>, rep: R.Report)
    : (w': O.World)
  {
    var d := Declare(Asked(request, stored), keys, u, rep);
    w.(repair := (_: R.Db) => (if u.repairRaises then u.torn else rep.db, d),
       inspectOpen := (d: R.Db) => O.Inspection(u.inspectsOpen, Some(Counts(Verified(request, stored), d))),
       inspectFile := (d: R.Db) => O.Inspection(u.inspectsFile, Some(Counts(Verified(request, stored), d))))
  }

  lemma UnusableNeverMatches(d: O.Declared, counts: O.Counts, keys: set<O.Key>)
    ensures !O.VerificationMatches(d, O.Inspection(false, Some(counts)), keys)
  {
  }

  lemma AllWellIff(w: O.World, u: Upstream, request: R.Config, stored: Identity, keys: set<O.Key>, start: R.Db,
                   rep: R.Report)
    requires AnswersFor(request.actions, keys)
    ensures O.AllWell(Around(w, u, request, stored, keys, rep), keys, start) <==>
      Unhindered(w, u) && !rep.status.Refused? && ModelsBalance(request, stored, rep.db)
  {
    hide O.VerificationMatches, O.HonestReport, Counts, ModelsBalance, AnswersFor;
    var mine, theirs := Counts(Asked(request, stored), rep.db), Counts(Verified(request, stored), rep.db);
    UnusableNeverMatches(Declare(Asked(request, stored), keys, u, rep), theirs, keys);
    ReportMatchesIff(request, stored, keys, rep.db, rep.skipped > 0, rep.failures > 0, rep.mutated);
    O.HonestStatus(mine, keys, rep.skipped > 0, rep.failures > 0, rep.mutated);
  }

  /** A completed repair is completed by the stored model too. */
  lemma NothingLeftByEither(request: R.Config, stored: Identity, keys: set<O.Key>, d: R.Db)
    requires AnswersFor(request.actions, keys) && ModelsBalance(request, stored, d)
    ensures R.Remains(Asked(request, stored), d) <==> R.Remains(Verified(request, stored), d)
  {
    hide R.Remains, Counts, O.Get, RowsOf;
    var c, c' := Asked(request, stored), Verified(request, stored);
    RemainsIffCounted(c, d, keys);
    RemainsIffCounted(c', d, keys);
    InvalidIsAnswered(request.actions, keys);
    forall k | k in keys ensures O.Get(Counts(c, d), k) == O.Get(Counts(c', d), k) {
      CountsAgreeIff(c, stored.model, d, k);
    }
  }

  /** One operator repair of one file, end to end. `rep` is what the targeted
      repair did in the transaction. */
  method RepairStoredProfile(request: R.Config, stored: Identity, fate: nat -> R.Fate, w: O.World, u: Upstream,
                             start: R.Db)
    returns (r: O.Report, file: R.Db, rep: R.Report)
    ensures var c := Asked(request, stored);
      && (r.Success? <==>
            && Unhindered(w, u) && stored.dim > 0 && request.batchSize > 0 && request.maxItems > 0
            && ModelsBalance(request, stored, rep.db))
      && (r.Success? && !rep.uncertain ==>
            forall n ::
              n in file.embeddings && !(n in start.embeddings && file.embeddings[n] == start.embeddings[n]) ==>
              !request.defect(file.embeddings[n].vector, Some(stored.dim)))
      && (r.Success? ==> file == rep.db && r.verified == start && (!rep.uncertain ==> R.Kept(c, start, file)))
      && (r.Success? && r.declared.status.Completed? ==>
            R.Kept(c, start, file) && !R.Remains(c, file) && !R.Remains(Verified(request, stored), file))
      && (r.Success? && !r.declared.status.Completed? ==> rep.failures > 0 || rep.skipped > 0 || R.Remains(c, file))
      && (!c.Rejected() && R.Room(c, start) && (forall k: nat :: fate(k).Works?) ==> rep.db == R.Repaired(c, start))
      && (!c.Rejected() && R.Room(c, start) && (forall k: nat :: fate(k).Works?) && R.Equipped(c) ==>
            forall n :: n in R.Embeddable(c, start) ==> R.GoodVec(c, rep.db, n))
      && (!R.Remains(c, start) ==> rep.db == start)
    ensures r.Failure? && r.committed == Some(false) ==> file == start
    ensures r.Raised? ==> file == start
    ensures file == start || file == rep.db
  {
    hide R.Kept, R.Remains, R.Room, R.Repaired, Counts, O.HonestReport, O.AllWell, O.VerificationMatches;
    hide ModelsBalance, AnswersFor, R.Equipped, R.Embeddable, R.GoodVec;
    var c := Asked(request, stored);
    var keys := O.ActionableCountKeys(Some(Names(c.actions)), true);
    assert AnswersFor(request.actions, keys) by { NamesAnswer(c.actions, keys); }
    rep := R.RepairDatabase(c, fate, start);
    AllWellIff(w, u, request, stored, keys, start, rep);
    RaisingReachesNoCommit(w, u, request, stored, keys, start, rep);
    RemainsIffCounted(c, rep.db, keys);
    O.HonestStatus(Counts(c, rep.db), keys, rep.skipped > 0, rep.failures > 0, rep.mutated);
    if ModelsBalance(request, stored, rep.db) {
      NothingLeftByEither(request, stored, keys, rep.db);
    }
    if R.Equipped(c) {
      forall n | n in R.Embeddable(c, start) ensures R.GoodVec(c, R.Repaired(c, start), n) {
        R.FullRepairHeals(c, start, n);
      }
    }
    if !rep.uncertain {
      forall n | n in rep.db.embeddings && !(n in start.embeddings && rep.db.embeddings[n] == start.embeddings[n])
        ensures !request.defect(rep.db.embeddings[n].vector, Some(stored.dim))
      {
        R.NewEmbeddingsMean(c, start, rep.db, n);
      }
    }
    r, file := O.RepairProfile(Around(w, u, request, stored, keys, rep), keys, start);
  }

  /** A repair that raises is never committed. */
  lemma RaisingReachesNoCommit(w: O.World, u: Upstream, request: R.Config, stored: Identity, keys: set<O.Key>,
                               start: R.Db, rep: R.Report)
    ensures u.repairRaises ==>
      O.CommitOutcome(Around(w, u, request, stored, keys, rep), keys, start) == Some(false)
  {
    hide O.VerificationMatches, Counts;
  }

  lemma NamesAnswer(acts: set<R.Act>, keys: set<O.Key>)
    requires forall k :: k in keys <==> exists a :: a in Names(acts) && k in O.KeysOf(a)
    ensures AnswersFor(acts, keys)
  {
    forall k ensures k in keys <==> exists a :: a in acts && k in O.KeysOf(NameOf(a)) {
      if a :| a in acts && k in O.KeysOf(NameOf(a)) {
        assert NameOf(a) in Names(acts);
      }
    }
  }

  // ----- What a caller can check -----

  /** A file with one live thought without text and one embedding of the stored model. */
  function OneRow(n: NodeId, v: R.Blob, model: string): (d: R.Db) {
    R.Db(map[n := R.NodeRow(None, None)], map[n := R.Embedding(v, model)], map[], {})
  }

  /** A repair to another model has nothing it can do there, and still declares
      the row invalid, which no inspection confirms. */
  lemma ForeignModelFails(request: R.Config, stored: Identity, n: NodeId, v: R.Blob)
    requires var c := Asked(request, stored);
      !c.Rejected() && R.RepairEmbeddings in c.actions && c.model != Some(stored.model)
    ensures var c, d := Asked(request, stored), OneRow(n, v, stored.model);
      && R.Room(c, d) && R.Repaired(c, d) == d && !ModelsBalance(request, stored, d)
      && R.MissingEmbeddings(d) == {} && Foreign(Verified(request, stored), d) == {}
      && (!c.defect(v, c.dim) ==> R.InvalidEmbeddings(Verified(request, stored), d) == {})
  {
    var c, d := Asked(request, stored), OneRow(n, v, stored.model);
    OneRowStays(c, n, v, stored.model);
    assert RowsOf(d, c.model.value) == {} && RowsOf(d, stored.model) == {n};
  }

  lemma OneRowStays(c: R.Config, n: NodeId, v: R.Blob, model: string)
    requires !c.Rejected() && c.model.Some? && c.model.value != model
    ensures R.Room(c, OneRow(n, v, model)) && R.Repaired(c, OneRow(n, v, model)) == OneRow(n, v, model)
  {
    hide R.FillVec, R.ReviseVec, R.Reembed;
    var d := OneRow(n, v, model);
    assert R.OrphanEmbeddings(d) == {} && R.OrphanEdges(d) == {} && R.Embeddable(c, d) == {};
    R.DropNothing(c, d);
    R.ReembedNothing(c, d);
    assert R.StageEdges(c, d) == d by { assert d.edges - {} == d.edges; }
    assert R.StageOrphans(c, d) == d;
    assert R.StageIndex(c, d) == d && R.CountIndex(c, d) <= 1 by { OneRowIsSkipped(c, n, v, model); }
    hide R.StageOrphans, R.StageIndex;
  }

  lemma OneRowIsSkipped(c: R.Config, n: NodeId, v: R.Blob, model: string)
    requires c.model.Some? && c.model.value != model
    ensures var d := OneRow(n, v, model); R.StageIndex(c, d) == d && R.CountIndex(c, d) <= 1
  {
    var d := OneRow(n, v, model);
    assert d.vec.Keys == {};
    R.ReviseNothing(c, d);
    assert R.ReviseVec(c, d, d.vec.Keys) == d;
    assert R.LiveNode(d, n) && R.Active(d, n);
    assert n in R.MissingVec(d) && forall m :: m in R.MissingVec(d) ==> m in d.embeddings;
    assert R.MissingVec(d) == {n};
    assert R.NewRows(c, d, {n}) == map[];
    assert R.FillVec(c, d, R.MissingVec(d)).vec == d.vec;
  }

  /** In surroundings where nothing fails, the operator's repair is sure to
      succeed, whatever the file, exactly when it leaves embeddings alone or
      repairs to the stored model. */
  lemma SureToSucceedIff(request: R.Config, stored: Identity, n: NodeId, v: R.Blob)
    requires !Asked(request, stored).Rejected()
    ensures (forall d :: R.Room(Asked(request, stored), d) ==>
               ModelsBalance(request, stored, R.Repaired(Asked(request, stored), d))) <==>
      R.RepairEmbeddings !in request.actions || request.model.None? || request.model.value == stored.model
  {
    hide R.Room, R.Repaired;
    if R.RepairEmbeddings in request.actions && request.model.Some? && request.model.value != stored.model {
      ForeignModelFails(request, stored, n, v);
    }
  }
}
