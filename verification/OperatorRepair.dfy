/** The backup-backed operator repair (integrity.py: _apply_profile_repairs,
    _repair_verification_matches and _actionable_count_keys), with a failure
    possible at every step. */
module OperatorRepair {
  import opened Graph
  import Tables = Repair

  /** The content of a database file. */
  type Image = Tables.Db

  datatype Key =
    | MissingEmbeddings | InvalidEmbeddings | OrphanEmbeddings
    | MissingVec | StaleVec | InvalidVec | VecMismatched
    | OrphanEdges | SelfEdges | PermanentAndDecayed | CoreMemoryNotPermanent

  datatype ActionName =
    | RepairVec | RepairEmbeddings | RemoveOrphanEmbeddings | RemoveOrphanEdges | RemoveSelfEdges | PromoteCoreMemories
    | Unknown(name: string)

  type Counts = map<Key, nat>

  datatype RepairStatus = Completed | Partial | Other(reason: string)

  /** What the upstream repair declares. */
  datatype Declared = Declared(status: RepairStatus, remaining: Option<Counts>, skipped: bool, failures: bool,
                               mutated: bool)

  /** `usable`: the inspection's status is ok or findings. */
  datatype Inspection = Inspection(usable: bool, counts: Option<Counts>)

  // ----- Verification -----

  const DEFAULT_ACTIONS: set<ActionName> := {RepairVec, RepairEmbeddings, RemoveOrphanEmbeddings, RemoveOrphanEdges}

  function KeysOf(a: ActionName): (r: set<Key>) {
    match a
    case RepairVec => {MissingVec, StaleVec, InvalidVec, VecMismatched}
    case RepairEmbeddings => {MissingEmbeddings, InvalidEmbeddings}
    case RemoveOrphanEmbeddings => {OrphanEmbeddings}
    case RemoveOrphanEdges => {OrphanEdges}
    case RemoveSelfEdges => {SelfEdges}
    case PromoteCoreMemories => {CoreMemoryNotPermanent}
    case Unknown(_) => {}
  }

  function Selected(actions: Option<set<ActionName>>): (r: set<ActionName>) {
    if actions.Some? then actions.value else DEFAULT_ACTIONS
  }

  /** The anomaly counts a request is answerable for. */
  method ActionableCountKeys(actions: Option<set<ActionName>>, reportOnly: bool) returns (keys: set<Key>)
    ensures forall k :: k in keys <==>
      (exists a :: a in Selected(actions) && k in KeysOf(a)) || (!reportOnly && k == PermanentAndDecayed)
    ensures var defaults := {RepairVec, RepairEmbeddings, RemoveOrphanEmbeddings, RemoveOrphanEdges};
      AnswersInColumns(if actions.Some? then actions.value else defaults, reportOnly, keys)
  {
    keys := {};
    var rest := Selected(actions);
    while rest != {}
      invariant rest <= Selected(actions)
      invariant forall k :: k in keys <==> exists a :: a in Selected(actions) - rest && k in KeysOf(a)
      decreases rest
    {
      var a :| a in rest;
      ghost var before := Selected(actions) - rest;
      rest := rest - {a};
      assert Selected(actions) - rest == before + {a};
      keys := keys + KeysOf(a);
    }
    assert Selected(actions) - rest == Selected(actions);
    if !reportOnly {
      keys := keys + {PermanentAndDecayed};
    }
    KeysInColumns(Selected(actions), reportOnly, keys);
  }

  /** Key by key: which action answers for which count. */
  predicate AnswersInColumns(acts: set<ActionName>, reportOnly: bool, keys: set<Key>) {
    && (MissingVec in keys <==> RepairVec in acts) && (StaleVec in keys <==> RepairVec in acts)
    && (InvalidVec in keys <==> RepairVec in acts) && (VecMismatched in keys <==> RepairVec in acts)
    && (MissingEmbeddings in keys <==> RepairEmbeddings in acts)
    && (InvalidEmbeddings in keys <==> RepairEmbeddings in acts)
    && (OrphanEmbeddings in keys <==> RemoveOrphanEmbeddings in acts)
    && (OrphanEdges in keys <==> RemoveOrphanEdges in acts)
    && (SelfEdges in keys <==> RemoveSelfEdges in acts)
    && (CoreMemoryNotPermanent in keys <==> PromoteCoreMemories in acts)
    && (PermanentAndDecayed in keys <==> !reportOnly)
  }

  lemma KeysInColumns(acts: set<ActionName>, reportOnly: bool, keys: set<Key>)
    requires forall k :: k in keys <==>
      (exists a :: a in acts && k in KeysOf(a)) || (!reportOnly && k == PermanentAndDecayed)
    ensures AnswersInColumns(acts, reportOnly, keys)
  {
    assert MissingVec in KeysOf(RepairVec) && StaleVec in KeysOf(RepairVec);
    assert InvalidVec in KeysOf(RepairVec) && VecMismatched in KeysOf(RepairVec);
    assert MissingEmbeddings in KeysOf(RepairEmbeddings) && InvalidEmbeddings in KeysOf(RepairEmbeddings);
    assert OrphanEmbeddings in KeysOf(RemoveOrphanEmbeddings) && OrphanEdges in KeysOf(RemoveOrphanEdges);
    assert SelfEdges in KeysOf(RemoveSelfEdges) && CoreMemoryNotPermanent in KeysOf(PromoteCoreMemories);
  }

  function Get(counts: Counts, k: Key): (n: nat) {
    if k in counts then counts[k] else 0
  }

  /** {key: counts[key] for key in keys if counts.get(key, 0)} */
  function NonZero(counts: Counts, keys: set<Key>): (r: Counts) {
    map k | k in keys && Get(counts, k) > 0 :: Get(counts, k)
  }

  /** _repair_verification_matches */
  predicate VerificationMatches(d: Declared, i: Inspection, keys: set<Key>) {
    && i.usable && i.counts.Some? && d.remaining.Some?
    && var actual, declared := NonZero(i.counts.value, keys), NonZero(d.remaining.value, keys);
    && actual == declared
    && (match d.status
        case Completed => actual == map[]
        case Partial => actual != map[] || d.skipped || d.failures
        case Other(_) => false)
  }

  /** It says: the declaration and the inspection agree on every answerable count,
      a completed repair left none of them, and a partial one says why it is partial. */
  lemma MatchMeans(d: Declared, i: Inspection, keys: set<Key>)
    ensures VerificationMatches(d, i, keys) <==>
      && i.usable && i.counts.Some? && d.remaining.Some? && !d.status.Other?
      && (forall k :: k in keys ==> Get(i.counts.value, k) == Get(d.remaining.value, k))
      && (d.status.Completed? ==> forall k :: k in keys ==> Get(i.counts.value, k) == 0)
      && (d.status.Partial? ==> d.skipped || d.failures || exists k :: k in keys && Get(i.counts.value, k) > 0)
  {
    if i.counts.Some? && d.remaining.Some? {
      var x, y := NonZero(i.counts.value, keys), NonZero(d.remaining.value, keys);
      if x == y {
        forall k | k in keys ensures Get(i.counts.value, k) == Get(d.remaining.value, k) {
          assert k in x <==> k in y;
        }
      }
      if forall k :: k in keys ==> Get(i.counts.value, k) == Get(d.remaining.value, k) {
        assert x == y;
      }
      if x == map[] {
        forall k | k in keys ensures Get(i.counts.value, k) == 0 {
          assert k !in x;
        }
      } else {
        var k :| k in x;
      }
    }
  }

  /** The same in the two tables: each answerable count is absent or zero in both,
      or the same in both. */
  lemma MatchInColumns(d: Declared, i: Inspection, keys: set<Key>)
    requires VerificationMatches(d, i, keys)
    ensures i.counts.Some? && d.remaining.Some?
    ensures var a, b := i.counts.value, d.remaining.value;
      forall k :: k in keys ==>
        && (k in a && a[k] > 0 <==> k in b && b[k] > 0)
        && (k in a && a[k] > 0 ==> a[k] == b[k] && !d.status.Completed?)
  {
    MatchMeans(d, i, keys);
    forall k | k in keys ensures Get(i.counts.value, k) == Get(d.remaining.value, k) {
    }
  }

  /** The report repair_integrity builds from its own final inspection. */
  function HonestReport(counts: Counts, keys: set<Key>, skipped: bool, failures: bool, mutated: bool): (d: Declared) {
    var partial := skipped || failures || exists k :: k in keys && Get(counts, k) > 0;
    Declared(if partial then Partial else Completed, Some(map k | k in counts && counts[k] > 0 :: counts[k]),
             skipped, failures, mutated)
  }

  /** It is completed exactly when nothing was skipped, nothing failed and no
      answerable count is left. */
  lemma HonestStatus(counts: Counts, keys: set<Key>, skipped: bool, failures: bool, mutated: bool)
    ensures var status := HonestReport(counts, keys, skipped, failures, mutated).status;
      && !status.Other?
      && (status.Completed? <==> !skipped && !failures && forall k :: k in keys && k in counts ==> counts[k] == 0)
  {
    if forall k :: k in keys && k in counts ==> counts[k] == 0 {
      assert !exists k :: k in keys && Get(counts, k) > 0;
    } else {
      var k :| k in keys && k in counts && counts[k] != 0;
      assert Get(counts, k) > 0;
    }
  }

  /** Verification raises no false alarm: an honest report matches the inspection
      it was made from, whatever was left. */
  lemma HonestReportMatches(counts: Counts, keys: set<Key>, skipped: bool, failures: bool, mutated: bool)
    ensures var d := HonestReport(counts, keys, skipped, failures, mutated);
      VerificationMatches(d, Inspection(true, Some(counts)), keys)
  {
    MatchMeans(HonestReport(counts, keys, skipped, failures, mutated), Inspection(true, Some(counts)), keys);
  }

  // ----- The operator's transaction -----

  /** What the statement COMMIT does: it works; it fails and the transaction stays
      open; it fails with the transaction gone, rolled back or in fact committed. */
  datatype CommitFate = CommitWorks | CommitFailsOpen | CommitFailsUndone | CommitFailsDone

  /** A rollback works, or raises with the transaction still open or gone. */
  datatype RollbackFate = RollbackWorks | RollbackFailsOpen | RollbackFailsGone

  /** Everything outside this code. */
  datatype World = World(
    requestValid: bool,
    profileFound: bool,
    apiAvailable: bool,
    admitted: bool,                    // exclusive lease taken before the deadline
    connected: bool,
    identityReadable: bool,            // reading it raises otherwise
    identityMatches: bool,             // present, and equal to what was asked for
    begun: bool,
    backedUp: bool,
    repair: Image -> (Image, Declared),  // what the upstream repair does in the transaction
    raisesBeforeCommit: bool,
    inspectOpen: Image -> Inspection,  // inspection inside the transaction
    inspectFile: Image -> Inspection,  // inspection after the commit
    commit: CommitFate,
    raisesAfterCommit: bool,
    rollbacks: nat -> RollbackFate,
    leaseReleased: bool)               // leaving the admission block raises otherwise

  datatype Report =
    | Success(declared: Declared, verified: Image, before: Inspection, after: Inspection)
    | Failure(reason: string, backup: Option<Image>, rolledBack: bool, committed: Option<bool>,
              mutated: bool, mutationUncertain: bool, recoveryRequired: bool)
    | Raised  // the handler's own rollback raised

  /** The steps up to the commit all work and the repair is verified. */
  ghost predicate ReachesCommit(w: World, keys: set<Key>, start: Image) {
    && w.requestValid && w.profileFound && w.apiAvailable && w.admitted && w.connected && w.identityReadable
    && w.identityMatches && w.begun && w.backedUp && !w.raisesBeforeCommit
    && !w.repair(start).1.status.Other?
    && VerificationMatches(w.repair(start).1, w.inspectOpen(w.repair(start).0), keys)
  }

  /** Nothing fails at all. */
  ghost predicate AllWell(w: World, keys: set<Key>, start: Image) {
    && ReachesCommit(w, keys, start) && w.commit.CommitWorks? && !w.raisesAfterCommit && w.leaseReleased
    && VerificationMatches(w.repair(start).1, w.inspectFile(w.repair(start).0), keys)
  }

  /** The transaction is open. */
  ghost predicate Begins(w: World) {
    && w.requestValid && w.profileFound && w.apiAvailable && w.admitted && w.connected && w.identityReadable
    && w.identityMatches && w.begun
  }

  /** The operator decides against the repair it tried. */
  ghost predicate Abandons(w: World, keys: set<Key>, start: Image) {
    && Begins(w) && w.backedUp
    && (w.repair(start).1.status.Other? ||
        (!w.raisesBeforeCommit && !VerificationMatches(w.repair(start).1, w.inspectOpen(w.repair(start).0), keys)))
  }

  /** Something raises while the transaction is open. */
  ghost predicate BreaksOff(w: World, keys: set<Key>, start: Image) {
    && Begins(w)
    && (!w.backedUp || (!w.repair(start).1.status.Other? && w.raisesBeforeCommit)
        || (ReachesCommit(w, keys, start) && w.commit.CommitFailsOpen?))
  }

  /** The rollback that the handler still has to do, if there is one. */
  ghost function LastRollback(w: World, keys: set<Key>, start: Image): (f: Option<RollbackFate>) {
    if BreaksOff(w, keys, start) then Some(w.rollbacks(0))
    else if Abandons(w, keys, start) && w.rollbacks(0).RollbackFailsOpen? then Some(w.rollbacks(1))
    else None
  }

  /** Which reason a failure report gives. */
  ghost function ReasonOf(w: World, keys: set<Key>, start: Image): (reason: string) {
    if !w.requestValid || !w.profileFound || !w.apiAvailable then "rejected"
    else if !w.leaseReleased then "operator_repair_failed"
    else if w.admitted && w.connected && w.identityReadable && !w.identityMatches then "provider_identity_unavailable"
    else if Abandons(w, keys, start) && w.rollbacks(0).RollbackWorks? then
      if w.repair(start).1.status.Other? then w.repair(start).1.status.reason else "precommit_verification_failed"
    else if ReachesCommit(w, keys, start) && w.commit.CommitWorks? && !w.raisesAfterCommit then
      "postcommit_verification_failed"
    else "operator_repair_failed"
  }

  /** How a part of the work ends: with a report, with an exception, or not yet. */
  datatype Ending = Returns(report: Report) | Raises | GoesOn

  class ProfileRepair {
    const w: World
    const keys: set<Key>
    var file: Image           // what the database file holds
    var work: Image           // what the open transaction sees
    var inTransaction: bool
    var connected: bool
    var backup: Option<Image>
    var rollbackCalls: nat
    var commitAttempted: bool
    var commitSucceeded: bool
    var declared: Option<Declared>

    constructor (w: World, keys: set<Key>, file: Image)
      ensures this.w == w && this.keys == keys && this.file == file
      ensures !inTransaction && !connected && backup.None? && !commitAttempted && !commitSucceeded && declared.None?
      ensures rollbackCalls == 0
    {
      this.w, this.keys, this.file, this.work := w, keys, file, file;
      inTransaction, connected, backup, rollbackCalls := false, false, None, 0;
      commitAttempted, commitSucceeded, declared := false, false, None;
    }

    /** Where the transaction stands, and what the flags say about it. */
    ghost predicate Valid(start: Image)
      reads this
    {
      && (inTransaction ==> connected && file == start && !commitSucceeded)
      && (!commitAttempted ==> file == start)
      && (commitSucceeded ==>
            && commitAttempted && declared.Some?
            && file == w.repair(start).0 && declared.value == w.repair(start).1)
      && (file == start || file == w.repair(start).0)
      && (backup.Some? ==> backup.value == start)
      && (commitAttempted ==> backup.Some?)
    }

    method Rollback(ghost start: Image) returns (ok: bool)
      requires Valid(start) && inTransaction
      modifies `inTransaction, `rollbackCalls
      ensures Valid(start) && rollbackCalls == old(rollbackCalls) + 1
      ensures ok <==> w.rollbacks(old(rollbackCalls)).RollbackWorks?
      ensures inTransaction <==> w.rollbacks(old(rollbackCalls)).RollbackFailsOpen?
    {
      var f := w.rollbacks(rollbackCalls);
      rollbackCalls := rollbackCalls + 1;
      inTransaction := f.RollbackFailsOpen?;
      ok := f.RollbackWorks?;
    }

    method Commit(ghost start: Image) returns (ok: bool)
      requires Valid(start) && inTransaction && !commitAttempted && backup.Some?
      requires declared == Some(w.repair(start).1) && work == w.repair(start).0
      modifies `file, `inTransaction, `commitAttempted, `commitSucceeded
      ensures Valid(start) && commitAttempted && (ok <==> commitSucceeded)
      ensures ok ==> file == work
      ensures (commitSucceeded <==> w.commit.CommitWorks?) && (inTransaction <==> w.commit.CommitFailsOpen?)
    {
      commitAttempted := true;
      match w.commit {
        case CommitWorks =>
          file, inTransaction, commitSucceeded, ok := work, false, true, true;
        case CommitFailsOpen =>
          ok := false;
        case CommitFailsUndone =>
          inTransaction, ok := false, false;
        case CommitFailsDone =>
          file, inTransaction, ok := work, false, false;
      }
    }

    /** The outer exception handler. */
    method Handle(ghost start: Image) returns (r: Report)
      requires Valid(start)
      modifies `inTransaction, `rollbackCalls
      ensures Valid(start) && Truthful(start, r) && !r.Success?
      ensures r.Raised? <==> old(connected && inTransaction) && !w.rollbacks(old(rollbackCalls)).RollbackWorks?
      ensures r.Failure? ==>
        && r.reason == "operator_repair_failed" && (r.rolledBack <==> old(connected && inTransaction))
        && (r.mutated <==> r.committed == Some(true) && declared.Some? && declared.value.mutated)
      ensures r.Failure? ==>
        r.committed ==
          if old(connected && inTransaction) || !commitAttempted then Some(false)
          else if commitSucceeded then Some(true) else None
    {
      var rolledBack, committed, uncertain := false, Some(false), false;
      if connected && inTransaction {
        var ok := Rollback(start);
        if !ok {
          return Raised;
        }
        rolledBack := true;
      } else {
        committed := if commitSucceeded then Some(true) else if commitAttempted then None else Some(false);
        uncertain := commitAttempted && !commitSucceeded;
      }
      r := Failure("operator_repair_failed", backup, rolledBack, committed,
                   committed == Some(true) && declared.Some? && declared.value.mutated,
                   uncertain, committed != Some(false));
    }

    /** What every report must be: true of the file. */
    ghost predicate Truthful(start: Image, r: Report)
      reads this
    {
      match r
      case Success(d, b, before, after) =>
        && (file, d) == w.repair(start) && b == start
        && before == w.inspectOpen(file) && after == w.inspectFile(file)
        && VerificationMatches(d, before, keys) && VerificationMatches(d, after, keys)
      case Failure(_, b, rolledBack, committed, mutated, uncertain, recovery) =>
        && (committed == Some(false) ==> file == start)
        && (committed == Some(true) ==> file == w.repair(start).0)
        && (committed == None ==> uncertain && (file == start || file == w.repair(start).0))
        && (b.Some? ==> b.value == start)
        && (rolledBack ==> file == start && committed == Some(false))
        && (recovery <==> committed != Some(false))
        && (mutated ==> committed == Some(true))
        && (committed != Some(false) ==> b.Some?)
      case Raised => file == start
    }

    /** A failure report made where a step decided against the repair. */
    function Refuse(reason: string, rolledBack: bool): (r: Report)
      reads this
    {
      Failure(reason, backup, rolledBack, Some(false), false, false, false)
    }

    /** Opening the transaction and taking the backup. */
    method Open(ghost start: Image) returns (e: Ending)
      requires Valid(start) && file == start && !connected && !inTransaction && backup.None? && !commitAttempted &&
        declared.None?
      modifies `connected, `inTransaction, `work, `backup
      ensures Valid(start) && file == start
      ensures e.Returns? ==>
        Truthful(start, e.report) && e.report.Failure? && e.report.committed == Some(false) && !inTransaction
      ensures e.GoesOn? ==> inTransaction && work == start && backup == Some(start) && declared.None?
      ensures e.GoesOn? <==> w.connected && w.identityReadable && w.identityMatches && w.begun && w.backedUp
      ensures e.Returns? <==> w.connected && w.identityReadable && !w.identityMatches
      ensures e.Returns? ==>
        e.report.reason == "provider_identity_unavailable" && !e.report.rolledBack && !e.report.mutated
      ensures e.Raises? ==> (inTransaction <==> w.connected && w.identityReadable && w.identityMatches && w.begun)
    {
      if !w.connected {
        return Raises;
      }
      connected := true;
      if !w.identityReadable {
        return Raises;
      }
      if !w.identityMatches {
        return Returns(Refuse("provider_identity_unavailable", false));
      }
      if !w.begun {
        return Raises;
      }
      inTransaction, work := true, file;
      if !w.backedUp {
        return Raises;
      }
      backup := Some(file);
      e := GoesOn;
    }

    /** Giving the open transaction up. */
    method Abandon(ghost start: Image, reason: string) returns (e: Ending)
      requires Valid(start) && inTransaction
      modifies `inTransaction, `rollbackCalls
      ensures Valid(start) && !e.GoesOn? && rollbackCalls == old(rollbackCalls) + 1
      ensures e.Returns? <==> w.rollbacks(old(rollbackCalls)).RollbackWorks?
      ensures inTransaction <==> w.rollbacks(old(rollbackCalls)).RollbackFailsOpen?
      ensures e.Returns? ==> e.report == Refuse(reason, true)
      ensures e.Returns? ==>
        Truthful(start, e.report) && e.report.Failure? && e.report.committed == Some(false) && !inTransaction
    {
      var ok := Rollback(start);
      e := if ok then Returns(Refuse(reason, true)) else Raises;
    }

    /** The repair, its verification, the commit, and its verification. */
    method RepairAndCommit(ghost start: Image) returns (e: Ending)
      requires Valid(start) && inTransaction && work == start && backup == Some(start) && !commitAttempted &&
        !commitSucceeded && declared.None?
      modifies `work, `file, `inTransaction, `rollbackCalls, `commitAttempted, `commitSucceeded, `declared
      ensures Valid(start) && !e.GoesOn?
      ensures e.Returns? ==> Truthful(start, e.report) && !inTransaction && Classified(e.report)
      ensures (commitAttempted <==> Verified(start)) && (e.Returns? && commitAttempted ==> commitSucceeded)
      ensures rollbackCalls == old(rollbackCalls) + if Declines(start) then 1 else 0
      ensures e.Returns? ==> !e.report.Raised?
      ensures Declines(start) ==>
        && (e.Returns? <==> w.rollbacks(old(rollbackCalls)).RollbackWorks?)
        && (inTransaction <==> w.rollbacks(old(rollbackCalls)).RollbackFailsOpen?)
        && (e.Returns? ==>
              e.report == Refuse(if w.repair(start).1.status.Other? then w.repair(start).1.status.reason
                                 else "precommit_verification_failed", true))
      ensures !Declines(start) && !commitAttempted ==> e.Raises? && inTransaction
      ensures commitSucceeded ==> (e.Raises? <==> w.raisesAfterCommit)
      ensures e.Returns? && commitSucceeded && e.report.Failure? ==>
        && e.report.reason == "postcommit_verification_failed" && !e.report.rolledBack
        && (e.report.mutated <==> w.repair(start).1.mutated)
      ensures declared == Some(w.repair(start).1)
      ensures commitAttempted ==>
        (commitSucceeded <==> w.commit.CommitWorks?) && (inTransaction <==> w.commit.CommitFailsOpen?)
      ensures (e.Returns? && e.report.Success?) <==>
        Verified(start) && w.commit.CommitWorks? && !w.raisesAfterCommit
        && VerificationMatches(w.repair(start).1, w.inspectFile(w.repair(start).0), keys)
    {
      var (image, d) := w.repair(work);
      work, declared := image, Some(d);
      if d.status.Other? {
        e := Abandon(start, d.status.reason);
        return;
      }
      if w.raisesBeforeCommit {
        return Raises;
      }
      var before := w.inspectOpen(work);
      if !VerificationMatches(d, before, keys) {
        e := Abandon(start, "precommit_verification_failed");
        return;
      }
      var ok := Commit(start);
      if !ok || w.raisesAfterCommit {
        return Raises;
      }
      var after := w.inspectFile(file);
      if !VerificationMatches(d, after, keys) {
        return Returns(Failure("postcommit_verification_failed", backup, false, Some(true), d.mutated, true, true));
      }
      e := Returns(Success(d, backup.value, before, after));
    }

    /** The part of Abandons that lies after the backup. */
    ghost predicate Declines(start: Image) {
      || w.repair(start).1.status.Other?
      || (!w.raisesBeforeCommit && !VerificationMatches(w.repair(start).1, w.inspectOpen(w.repair(start).0), keys))
    }

    /** The part of ReachesCommit that lies after the backup. */
    ghost predicate Verified(start: Image) {
      && !w.repair(start).1.status.Other? && !w.raisesBeforeCommit
      && VerificationMatches(w.repair(start).1, w.inspectOpen(w.repair(start).0), keys)
    }

    /** The report's `committed` is what became of the commit. */
    ghost predicate Classified(r: Report)
      reads this
    {
      r.Failure? ==> r.committed == if commitSucceeded then Some(true) else Some(false)
    }

    /** _apply_profile_repairs: whatever fails, wherever, the report is true of the
        file, and no transaction is left open. */
    method ApplyProfileRepairs() returns (r: Report)
      requires Valid(file) && !connected && !inTransaction && backup.None? && !commitAttempted && declared.None?
      requires rollbackCalls == 0
      modifies this
      ensures Truthful(old(file), r) && !inTransaction && !connected
      ensures r.Success? <==> AllWell(w, keys, old(file))
      ensures r.Failure? ==> r.committed == CommitOutcome(w, keys, old(file))
      ensures r.Raised? <==>
        LastRollback(w, keys, old(file)).Some? && !LastRollback(w, keys, old(file)).value.RollbackWorks?
      ensures r.Failure? ==>
        && r.reason == ReasonOf(w, keys, old(file))
        && (r.rolledBack <==> RollsBack(w, keys, old(file)))
        && (r.mutated <==> r.committed == Some(true) && w.repair(old(file)).1.mutated)
    {
      hide VerificationMatches;
      ghost var start := file;
      if !w.requestValid || !w.profileFound || !w.apiAvailable {
        return Refuse("rejected", false);
      }
      var e := Raises;
      if w.admitted {
        e := Open(start);
        if e.GoesOn? {
          e := RepairAndCommit(start);
        }
      }
      if e.Returns? && w.leaseReleased {
        r := e.report;
      } else {
        r := Handle(start);
      }
      connected, inTransaction := false, false;  // closing discards what was not committed
    }
  }

  /** Some rollback worked, and nothing but the report came after it. */
  ghost predicate RollsBack(w: World, keys: set<Key>, start: Image) {
    || LastRollback(w, keys, start) == Some(RollbackWorks)
    || (Abandons(w, keys, start) && w.rollbacks(0).RollbackWorks? && w.leaseReleased)
  }

  /** Committed, not committed, or unknown: the commit was tried, and failed with
      its transaction gone. */
  ghost function CommitOutcome(w: World, keys: set<Key>, start: Image): (r: Option<bool>) {
    if !ReachesCommit(w, keys, start) || w.commit.CommitFailsOpen? then Some(false)
    else if w.commit.CommitWorks? then Some(true)
    else None
  }

  /** One call on a file: what the report says, and what the file then holds. */
  method RepairProfile(w: World, keys: set<Key>, start: Image) returns (r: Report, file: Image)
    ensures r.Success? ==>
      && (file, r.declared) == w.repair(start) && r.verified == start
      && VerificationMatches(r.declared, w.inspectOpen(file), keys)
      && VerificationMatches(r.declared, w.inspectFile(file), keys)
    ensures r.Failure? && r.committed == Some(false) ==> file == start
    ensures r.Failure? && r.committed == Some(true) ==> file == w.repair(start).0
    ensures r.Failure? && r.committed == None ==> r.mutationUncertain && (file == start || file == w.repair(start).0)
    ensures r.Failure? && r.backup.Some? ==> r.backup.value == start
    ensures r.Failure? ==>
      (r.recoveryRequired <==> r.committed != Some(false)) && (r.recoveryRequired ==> r.backup.Some?)
    ensures r.Failure? && r.rolledBack ==> file == start
    ensures r.Raised? ==> file == start
    ensures r.Success? <==> AllWell(w, keys, start)
    ensures r.Failure? ==> r.committed == CommitOutcome(w, keys, start)
    ensures r.Raised? <==> LastRollback(w, keys, start).Some? && !LastRollback(w, keys, start).value.RollbackWorks?
    ensures r.Failure? ==>
      && r.reason == ReasonOf(w, keys, start) && (r.rolledBack <==> RollsBack(w, keys, start))
      && (r.mutated <==> r.committed == Some(true) && w.repair(start).1.mutated)
  {
    var run := new ProfileRepair(w, keys, start);
    r := run.ApplyProfileRepairs();
    file := run.file;
  }
}
