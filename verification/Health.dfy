/** The provider's outcome ledger (health.py). */
module Health {

  /** The work counters. Decrements stop at zero, as the source's guarded ones do. */
  datatype Ledger = Ledger(
    accepted: nat,
    completed: nat,
    failed: nat,
    partial: nat,
    uncertain: nat,
    dropped: nat,
    rejected: nat,
    pending: nat,
    inFlight: nat)
  {
    predicate Reconciled() {
      accepted == completed + failed + partial + uncertain + dropped + pending + inFlight
    }

    /** How much more work the counters account for than was accepted. */
    function Gap(): (g: int) {
      completed + failed + partial + uncertain + dropped + pending + inFlight - accepted
    }

    function Admit(): (l: Ledger) {
      this.(accepted := accepted + 1, pending := pending + 1)
    }

    function Reject(): (l: Ledger) {
      this.(rejected := rejected + 1)
    }

    function Start(): (l: Ledger) {
      this.(pending := Less(pending), inFlight := inFlight + 1)
    }

    function Complete(): (l: Ledger) {
      this.(inFlight := Less(inFlight), completed := completed + 1)
    }

    function Fail(isPartial: bool, isUncertain: bool): (l: Ledger) {
      var l := this.(inFlight := Less(inFlight));
      if isPartial then l.(partial := partial + 1)
      else if isUncertain then l.(uncertain := uncertain + 1)
      else l.(failed := failed + 1)
    }

    function DropPending(): (l: Ledger) {
      this.(pending := Less(pending), dropped := dropped + 1)
    }

    function DropInFlight(): (l: Ledger) {
      this.(inFlight := Less(inFlight), dropped := dropped + 1)
    }

    function RejectInFlight(): (l: Ledger) {
      this.(inFlight := Less(inFlight), accepted := Less(accepted), rejected := rejected + 1)
    }
  }

  function Less(n: nat): (r: nat) {
    if n > 0 then n - 1 else 0
  }

  const EMPTY_LEDGER := Ledger(0, 0, 0, 0, 0, 0, 0, 0, 0)

  /** From a reconciled ledger, moving a turn keeps it reconciled exactly when
      there was such a turn to move; the guarded decrements alone do not. */
  lemma ReconciledIff(l: Ledger, p: bool, u: bool)
    requires l.Reconciled()
    ensures l.Admit().Reconciled() && l.Reject().Reconciled()
    ensures l.Start().Reconciled() <==> l.pending > 0
    ensures l.DropPending().Reconciled() <==> l.pending > 0
    ensures l.Complete().Reconciled() <==> l.inFlight > 0
    ensures l.DropInFlight().Reconciled() <==> l.inFlight > 0
    ensures l.Fail(p, u).Reconciled() <==> l.inFlight > 0
    ensures l.RejectInFlight().Reconciled() <==> l.inFlight > 0 || l.accepted == 0
  {
    if l.accepted == 0 {
      assert l.inFlight == 0 && l.pending == 0;
    }
  }

  // ----- What a snapshot's `reconciled` means -----

  datatype Update =
    | Admit | Reject | Start | Complete | DropPending | DropInFlight | RejectInFlight
    | Fail(isPartial: bool, isUncertain: bool)

  function Do(l: Ledger, u: Update): (l': Ledger) {
    match u
    case Admit => l.Admit()
    case Reject => l.Reject()
    case Start => l.Start()
    case Complete => l.Complete()
    case DropPending => l.DropPending()
    case DropInFlight => l.DropInFlight()
    case RejectInFlight => l.RejectInFlight()
    case Fail(p, u) => l.Fail(p, u)
  }

  function DoAll(l: Ledger, us: seq<Update>): (l': Ledger)
    decreases |us|
  {
    if us == [] then l else DoAll(Do(l, us[0]), us[1..])
  }

  /** The update moves a turn that is not there. */
  predicate Lacks(l: Ledger, u: Update) {
    match u
    case Admit => false
    case Reject => false
    case Start => l.pending == 0
    case DropPending => l.pending == 0
    case _ => l.inFlight == 0
  }

  /** The update takes back a turn when none is left on the accepted side. */
  predicate Hides(l: Ledger, u: Update) {
    u.RejectInFlight? && l.accepted == 0
  }

  function CountLacking(l: Ledger, us: seq<Update>): (n: nat)
    decreases |us|
  {
    if us == [] then 0 else (if Lacks(l, us[0]) then 1 else 0) + CountLacking(Do(l, us[0]), us[1..])
  }

  function CountHiding(l: Ledger, us: seq<Update>): (n: nat)
    decreases |us|
  {
    if us == [] then 0 else (if Hides(l, us[0]) then 1 else 0) + CountHiding(Do(l, us[0]), us[1..])
  }

  lemma GapMoves(l: Ledger, u: Update)
    ensures Do(l, u).Gap() == l.Gap() + (if Lacks(l, u) then 1 else 0) - (if Hides(l, u) then 1 else 0)
  {
  }

  lemma {:induction false} GapRuns(l: Ledger, us: seq<Update>)
    ensures DoAll(l, us).Gap() == l.Gap() + CountLacking(l, us) - CountHiding(l, us)
    decreases |us|
  {
    hide Do, Lacks, Hides;
    if us != [] {
      GapMoves(l, us[0]);
      GapRuns(Do(l, us[0]), us[1..]);
    }
  }

  lemma {:induction false} NothingToHide(l: Ledger, us: seq<Update>)
    requires l.Reconciled() && CountLacking(l, us) == 0
    ensures CountHiding(l, us) == 0
    decreases |us|
  {
    if us != [] {
      GapMoves(l, us[0]);
      hide Do;
      NothingToHide(Do(l, us[0]), us[1..]);
    }
  }

  /** After any updates of a reconciled ledger, in any order: if every update
      found its turn the snapshot is reconciled; and a reconciled snapshot says
      that every update found its turn, unless an in-flight turn was taken back
      while nothing was accepted, each of which hides one that did not. */
  lemma SnapshotMeans(l: Ledger, us: seq<Update>)
    requires l.Reconciled()
    ensures var lacking, hiding := CountLacking(l, us), CountHiding(l, us);
      && hiding <= lacking
      && (lacking == 0 ==> DoAll(l, us).Reconciled())
      && (hiding == 0 ==> (DoAll(l, us).Reconciled() <==> lacking == 0))
      && (DoAll(l, us).Reconciled() <==> lacking == hiding)
  {
    GapRuns(l, us);
    GapStays(l, us);
    if CountLacking(l, us) == 0 {
      NothingToHide(l, us);
    }
  }

  lemma GapNotNegative(l: Ledger, u: Update)
    requires l.Gap() >= 0
    ensures Do(l, u).Gap() >= 0
  {
  }

  lemma {:induction false} GapStays(l: Ledger, us: seq<Update>)
    requires l.Gap() >= 0
    ensures DoAll(l, us).Gap() >= 0
    decreases |us|
  {
    if us != [] {
      GapNotNegative(l, us[0]);
      hide Do;
      GapStays(Do(l, us[0]), us[1..]);
    }
  }

  lemma Twice(l: Ledger, u: Update, v: Update)
    ensures DoAll(l, [u, v]) == Do(Do(l, u), v)
    ensures CountLacking(l, [u, v]) == (if Lacks(l, u) then 1 else 0) + (if Lacks(Do(l, u), v) then 1 else 0)
  {
    hide Do, Lacks;
    assert [u, v][1..] == [v] && [v][1..] == [];
    assert DoAll(Do(Do(l, u), v), []) == Do(Do(l, u), v);
    assert CountLacking(Do(l, u), [v]) == if Lacks(Do(l, u), v) then 1 else 0;
  }

  /** Such a pair exists: a start without a turn, and its taking back. */
  lemma LackCanHide(l: Ledger)
    requires l == EMPTY_LEDGER
    ensures DoAll(l, [Start, RejectInFlight]).Reconciled() && CountLacking(l, [Start, RejectInFlight]) == 1
  {
    hide DoAll, CountLacking;
    Twice(l, Start, RejectInFlight);
  }

  // ----- The object -----

  /** The mutable ledger one provider generation owns. Each method says which
      counter it counts in, what becomes of the gap, and by its frame which
      counters it leaves alone. */
  class OutcomeLedger {
    var accepted: nat
    var completed: nat
    var failed: nat
    var partial: nat
    var uncertain: nat
    var dropped: nat
    var rejected: nat
    var pending: nat
    var inFlight: nat

    function Value(): (l: Ledger)
      reads this
    {
      Ledger(accepted, completed, failed, partial, uncertain, dropped, rejected, pending, inFlight)
    }

    constructor ()
      ensures Value() == EMPTY_LEDGER
    {
      accepted, completed, failed, partial, uncertain := 0, 0, 0, 0, 0;
      dropped, rejected, pending, inFlight := 0, 0, 0, 0;
    }

    /** One more pending turn; the gap does not change. */
    method Admit()
      modifies `accepted, `pending
      ensures pending == old(pending) + 1 && Value().Gap() == old(Value().Gap())
      ensures Value() == Do(old(Value()), Update.Admit)
    {
      accepted := accepted + 1;
      pending := pending + 1;
    }

    method Reject()
      modifies `rejected
      ensures rejected == old(rejected) + 1
      ensures Value() == Do(old(Value()), Update.Reject)
    {
      rejected := rejected + 1;
    }

    /** One more turn in flight; the gap stays exactly when one was pending. */
    method Start()
      modifies `pending, `inFlight
      ensures inFlight == old(inFlight) + 1
      ensures Value().Gap() == old(Value().Gap()) + if old(pending) > 0 then 0 else 1
      ensures old(Value().Reconciled()) ==> (Value().Reconciled() <==> old(pending) > 0)
      ensures Value() == Do(old(Value()), Update.Start)
    {
      if pending > 0 {
        pending := pending - 1;
      }
      inFlight := inFlight + 1;
    }

    /** One more completed turn; the gap stays exactly when one was in flight. */
    method Complete()
      modifies `inFlight, `completed
      ensures completed == old(completed) + 1
      ensures Value().Gap() == old(Value().Gap()) + if old(inFlight) > 0 then 0 else 1
      ensures old(Value().Reconciled()) ==> (Value().Reconciled() <==> old(inFlight) > 0)
      ensures Value() == Do(old(Value()), Update.Complete)
    {
      if inFlight > 0 {
        inFlight := inFlight - 1;
      }
      completed := completed + 1;
    }

    /** One more turn dropped; the gap stays exactly when one was pending. */
    method DropPending()
      modifies `pending, `dropped
      ensures dropped == old(dropped) + 1
      ensures Value().Gap() == old(Value().Gap()) + if old(pending) > 0 then 0 else 1
      ensures old(Value().Reconciled()) ==> (Value().Reconciled() <==> old(pending) > 0)
      ensures Value() == Do(old(Value()), Update.DropPending)
    {
      if pending > 0 {
        pending := pending - 1;
      }
      dropped := dropped + 1;
    }

    /** One more turn dropped; the gap stays exactly when one was in flight. */
    method DropInFlight()
      modifies `inFlight, `dropped
      ensures dropped == old(dropped) + 1
      ensures Value().Gap() == old(Value().Gap()) + if old(inFlight) > 0 then 0 else 1
      ensures old(Value().Reconciled()) ==> (Value().Reconciled() <==> old(inFlight) > 0)
      ensures Value() == Do(old(Value()), Update.DropInFlight)
    {
      if inFlight > 0 {
        inFlight := inFlight - 1;
      }
      dropped := dropped + 1;
    }

    /** Exactly one of the three bad ends grows, partial before uncertain before
        failed; the gap stays exactly when a turn was in flight. */
    method Fail(isPartial: bool, isUncertain: bool)
      modifies `inFlight, `partial, `uncertain, `failed
      ensures partial + uncertain + failed == old(partial) + old(uncertain) + old(failed) + 1
      ensures partial > old(partial) <==> isPartial
      ensures uncertain > old(uncertain) <==> isUncertain && !isPartial
      ensures failed > old(failed) <==> !isPartial && !isUncertain
      ensures Value().Gap() == old(Value().Gap()) + if old(inFlight) > 0 then 0 else 1
      ensures old(Value().Reconciled()) ==> (Value().Reconciled() <==> old(inFlight) > 0)
      ensures Value() == Do(old(Value()), Update.Fail(isPartial, isUncertain))
    {
      if inFlight > 0 {
        inFlight := inFlight - 1;
      }
      if isPartial {
        partial := partial + 1;
      } else if isUncertain {
        uncertain := uncertain + 1;
      } else {
        failed := failed + 1;
      }
    }

    /** One more rejection, and an in-flight turn that no longer counts as
        accepted: with both there the gap stays. From a reconciled ledger the
        result is reconciled exactly when one was in flight or none accepted. */
    method RejectInFlight()
      modifies `inFlight, `accepted, `rejected
      ensures rejected == old(rejected) + 1 && inFlight <= old(inFlight) && accepted <= old(accepted)
      ensures Value().Gap() == old(Value().Gap())
        + (if old(inFlight) > 0 then 0 else 1) - (if old(accepted) > 0 then 0 else 1)
      ensures old(Value().Reconciled()) ==>
        (Value().Reconciled() <==> old(inFlight) > 0 || old(accepted) == 0)
      ensures Value() == Do(old(Value()), Update.RejectInFlight)
    {
      if inFlight > 0 {
        inFlight := inFlight - 1;
      }
      if accepted > 0 {
        accepted := accepted - 1;
      }
      rejected := rejected + 1;
    }

    /** The `reconciled` field of work_snapshot. */
    method WorkSnapshot() returns (reconciled: bool)
      ensures reconciled <==> Value().Gap() == 0
    {
      reconciled := accepted == completed + failed + partial + uncertain + dropped + pending + inFlight;
    }
  }
}
