/** One graph file shared by any number of providers: the persisted identity with
    its maintenance epoch, validation under a lease, and the think-cycle claim
    that survives crashes (__init__.py).

    An operation is a thread inside one admission of the graph file; module
    SharedFile relates its lease to the lock file of module Admission. Providers
    crash at any point, which frees their leases and leaves the stored rows. */
module Profile {
  import opened Graph

  type Provider(==, !new)

  /** A stored text that should be a number. */
  datatype Cell = Num(n: int) | Junk

  datatype ClaimState = InFlight | Completed | Failed | Partial | Uncertain

  /** The rows of hermes_provider_meta. */
  datatype Meta = Meta(
    model: Option<string>,
    dim: Option<nat>,
    vecDim: Option<nat>,
    epoch: Option<Cell>,
    counter: Option<Cell>,
    claim: Option<ClaimState>,
    claimEpoch: Option<int>)

  datatype Identity = Identity(model: string, dim: nat, vecDim: nat)

  // ----- The identity rows -----

  predicate NoIdentity(m: Meta) {
    m.model.None? && m.dim.None? && m.vecDim.None? && m.epoch.None?
  }

  function OldEpoch(m: Meta): (e: int) {
    if m.epoch.Some? && m.epoch.value.Num? then m.epoch.value.n else 0
  }

  predicate Changed(m: Meta, id: Identity) {
    m.model != Some(id.model) || m.dim != Some(id.dim) || m.vecDim != Some(id.vecDim)
  }

  /** _write_runtime_identity's transaction. */
  function WriteIdentity(m: Meta, id: Identity): (m': Meta) {
    var epoch := if NoIdentity(m) || Changed(m, id) then OldEpoch(m) + 1 else OldEpoch(m);
    m.(model := Some(id.model), dim := Some(id.dim), vecDim := Some(id.vecDim), epoch := Some(Num(epoch)))
  }

  /** What a validation looks at. */
  datatype Snapshot = Snapshot(model: Option<string>, dim: Option<nat>, vecDim: Option<nat>, epoch: Option<Cell>)

  function Snap(m: Meta): (r: Snapshot) {
    Snapshot(m.model, m.dim, m.vecDim, m.epoch)
  }

  // ----- Providers, operations, state -----

  /** The token's identity, as the call to admit_operation captured it. Its
      vector dimension is its dimension. */
  datatype Claim = Claim(model: string, dim: Option<nat>, epoch: Option<int>, supervisor: Option<nat>)

  /** `supervisor` is the bound embedding supervisor and `dim` the active
      dimension, as far as it is known; `published` is what this provider last
      wrote, when it got its epoch. */
  datatype Prov = Prov(model: string, dim: Option<nat>, supervisor: Option<nat>, epoch: Option<int>,
                       published: Option<Identity>)

  datatype Phase =
    | Asking                              // waiting for the lease
    | Entered                             // lease held, nothing checked
    | Recovered                           // start-up: think claim recovered
    | Validated
    | Thinking(counter: int, claimId: int)
    | Ended

  /** `seen` is the identity rows at validation or publication. */
  datatype Op = Op(owner: Provider, exclusive: bool, boot: bool, token: Claim, phase: Phase, seen: Option<Snapshot>)

  datatype Publication = Publication(identity: Identity, epoch: int)

  datatype State = State(
    meta: Meta,
    providers: map<Provider, Prov>,
    ops: map<nat, Op>,
    nextOp: nat,
    interval: nat,
    log: seq<Publication>,  // every publication, in order
    counted: nat,           // turns counted
    completed: nat,         // cycles that completed
    started: nat)           // cycles that started

  predicate Init(s: State) {
    && s.meta == Meta(None, None, None, None, None, None, None)
    && s.providers == map[] && s.ops == map[] && s.log == []
    && s.interval > 0 && s.counted == 0 && s.completed == 0 && s.started == 0
  }

  predicate Holds(op: Op) {
    !op.phase.Asking?
  }

  predicate LeaseFree(ops: map<nat, Op>, exclusive: bool) {
    forall o :: o in ops && Holds(ops[o]) ==> !exclusive && !ops[o].exclusive
  }

  function ExpectedDim(p: Prov, t: Claim): (d: Option<nat>) {
    if p.supervisor.Some? then p.dim else t.dim
  }

  predicate Matches<T(==)>(stored: Option<T>, expected: Option<T>) {
    stored.None? || stored == expected
  }

  /** _validate_runtime_identity. */
  predicate Accepts(p: Prov, t: Claim, m: Meta, allowMismatch: bool) {
    && t.model == p.model
    && (p.supervisor.Some? ==> p.dim.Some? && Matches(t.dim, p.dim) && t.supervisor == p.supervisor)
    && (p.epoch.Some? ==> Matches(t.epoch, p.epoch))
    && (!allowMismatch ==>
          && (t.epoch.Some? || p.epoch.Some? ==>
                && m.epoch.Some? && m.epoch.value.Num?
                && t.epoch == Some(m.epoch.value.n) && p.epoch == Some(m.epoch.value.n))
          && Matches(m.model, Some(p.model))
          && Matches(m.dim, ExpectedDim(p, t))
          && Matches(m.vecDim, ExpectedDim(p, t)))
    && Matches(t.dim, ExpectedDim(p, t))
  }

  datatype ThinkResult = Progress | NoProgress | Raised

  datatype Action =
    | Join(p: Provider, model: string)
    | Configure(p: Provider, model: string)
    | Bind(p: Provider, supervisor: Option<nat>, dim: Option<nat>)
    | Ask(p: Provider, exclusive: bool, boot: bool)
    | Acquire(o: nat)
    | GiveUp(o: nat)
    | Recover(o: nat, fails: bool)
    | Publish(o: nat, vecDim: Option<nat>)
    | Validate(o: nat)
    | ThinkClaim(o: nat, claimId: int)
    | ThinkEnd(o: nat, result: ThinkResult)
    | Leave(o: nat)
    | Crash(p: Provider)

  predicate At(s: State, o: nat, phase: Phase) {
    o in s.ops && s.ops[o].phase == phase && s.ops[o].owner in s.providers
  }

  predicate Enabled(s: State, x: Action) {
    match x
    case Join(p, _) => p !in s.providers
    case Configure(p, _) => p in s.providers
    case Bind(p, _, _) => p in s.providers
    case Ask(p, exclusive, boot) => p in s.providers && (boot ==> exclusive)
    case Acquire(o) => At(s, o, Asking) && LeaseFree(s.ops, s.ops[o].exclusive)
    case GiveUp(o) => At(s, o, Asking)
    case Recover(o, _) => At(s, o, Entered) && s.ops[o].boot
    case Publish(o, _) =>
      && At(s, o, Recovered)
      && s.providers[s.ops[o].owner].dim.Some?
      && Accepts(s.providers[s.ops[o].owner], s.ops[o].token, s.meta, true)
    case Validate(o) => At(s, o, Entered) && !s.ops[o].boot
    case ThinkClaim(o, _) => At(s, o, Validated) && s.ops[o].exclusive
    case ThinkEnd(o, _) => o in s.ops && s.ops[o].phase.Thinking?
    case Leave(o) => o in s.ops && Holds(s.ops[o])
    case Crash(p) => p in s.providers
  }

  function Move(s: State, o: nat, phase: Phase): (s': State)
    requires o in s.ops
  {
    s.(ops := s.ops[o := s.ops[o].(phase := phase)])
  }

  function Drop(s: State, o: nat): (s': State) {
    s.(ops := s.ops - {o})
  }

  function RecoverClaim(m: Meta): (m': Meta) {
    if m.claim == Some(InFlight) then m.(claim := Some(Uncertain)) else m
  }

  function DoPublish(s: State, o: nat, id: Identity): (s': State)
    requires o in s.ops && s.ops[o].owner in s.providers
  {
    var p := s.ops[o].owner;
    var m := WriteIdentity(s.meta, id);
    var epoch := if m.epoch.Some? && m.epoch.value.Num? then m.epoch.value.n else 0;
    s.(meta := m,
       providers := s.providers[p := s.providers[p].(epoch := Some(epoch), published := Some(id))],
       ops := s.ops[o := s.ops[o].(phase := Ended, seen := Some(Snap(m)))],
       log := s.log + [Publication(id, epoch)])
  }

  function DoValidate(s: State, o: nat): (s': State)
    requires o in s.ops && s.ops[o].owner in s.providers
  {
    if Accepts(s.providers[s.ops[o].owner], s.ops[o].token, s.meta, false)
    then s.(ops := s.ops[o := s.ops[o].(phase := Validated, seen := Some(Snap(s.meta)))])
    else Drop(s, o)
  }

  /** The claiming transaction of _run_think_cycle_if_due. */
  function DoThinkClaim(s: State, o: nat, claimId: int): (s': State)
    requires o in s.ops
  {
    var m := s.meta;
    if m.claim.Some? && !m.claim.value.Completed? then Move(s, o, Ended)
    else
      var raw := if m.counter.Some? then m.counter.value else Num(0);
      if raw.Junk? then Move(s.(meta := m.(counter := Some(Num(0)))), o, Ended)
      else if raw.n + 1 < s.interval
      then Move(s.(meta := m.(counter := Some(Num(raw.n + 1))), counted := s.counted + 1), o, Ended)
      else Move(s.(meta := m.(counter := Some(Num(raw.n + 1)), claim := Some(InFlight), claimEpoch := Some(claimId)),
                   counted := s.counted + 1, started := s.started + 1),
                o, Thinking(raw.n + 1, claimId))
  }

  function Terminal(r: ThinkResult): (c: ClaimState) {
    match r
    case Progress => Completed
    case NoProgress => Failed
    case Raised => Uncertain
  }

  /** The closing transaction: only the claim this operation made, still in flight, is settled. */
  function DoThinkEnd(s: State, o: nat, r: ThinkResult): (s': State)
    requires o in s.ops && s.ops[o].phase.Thinking?
  {
    var m, t := s.meta, s.ops[o].phase;
    if m.claimEpoch == Some(t.claimId) && m.claim == Some(InFlight) then
      var left := if t.counter - s.interval > 0 then t.counter - s.interval else 0;
      var m' := m.(claim := Some(Terminal(r)), counter := if r.Progress? then Some(Num(left)) else m.counter);
      Move(s.(meta := m', completed := s.completed + if r.Progress? then 1 else 0), o, Ended)
    else Move(s, o, Ended)
  }

  function DoCrash(s: State, p: Provider): (s': State) {
    s.(providers := s.providers - {p}, ops := map o | o in s.ops && s.ops[o].owner != p :: s.ops[o])
  }

  function Apply(s: State, x: Action): (s': State)
    requires Enabled(s, x)
  {
    match x
    case Join(p, model) => s.(providers := s.providers[p := Prov(model, None, None, None, None)])
    case Configure(p, model) => s.(providers := s.providers[p := s.providers[p].(model := model)])
    case Bind(p, supervisor, dim) =>
      s.(providers := s.providers[p := s.providers[p].(dim := dim, supervisor := supervisor)])
    case Ask(p, exclusive, boot) =>
      var v := s.providers[p];
      var token := Claim(v.model, v.dim, v.epoch, v.supervisor);
      s.(ops := s.ops[s.nextOp := Op(p, exclusive, boot, token, Asking, None)],
         nextOp := s.nextOp + 1)
    case Acquire(o) => Move(s, o, Entered)
    case GiveUp(o) => Drop(s, o)
    case Recover(o, fails) => Move(s.(meta := if fails then s.meta else RecoverClaim(s.meta)), o, Recovered)
    case Publish(o, vecDim) =>
      var v := s.providers[s.ops[o].owner];
      DoPublish(s, o, Identity(v.model, v.dim.value, if vecDim.Some? then vecDim.value else v.dim.value))
    case Validate(o) => DoValidate(s, o)
    case ThinkClaim(o, claimId) => DoThinkClaim(s, o, claimId)
    case ThinkEnd(o, r) => DoThinkEnd(s, o, r)
    case Leave(o) => Drop(s, o)
    case Crash(p) => DoCrash(s, p)
  }

  predicate Legal(s: State, run: seq<Action>)
    decreases |run|
  {
    run == [] || (Enabled(s, run[0]) && Legal(Apply(s, run[0]), run[1..]))
  }

  function Exec(s: State, run: seq<Action>): (s': State)
    requires Legal(s, run)
    decreases |run|
  {
    if run == [] then s else Exec(Apply(s, run[0]), run[1..])
  }

  // ----- Invariants -----

  predicate Checked(p: Phase) {
    p.Validated? || p.Thinking?
  }

  ghost predicate LeaseInv(s: State) {
    && (forall o, q :: o in s.ops && q in s.ops && o != q && Holds(s.ops[o]) && Holds(s.ops[q]) ==> !s.ops[o].exclusive)
    && (forall o :: o in s.ops ==> o < s.nextOp)
    && (forall o :: o in s.ops && (s.ops[o].boot || s.ops[o].phase.Thinking?) ==> s.ops[o].exclusive)
    && (forall o :: o in s.ops && s.ops[o].phase.Recovered? ==> s.ops[o].boot)
    && (forall o :: o in s.ops && Checked(s.ops[o].phase) ==> !s.ops[o].boot && s.ops[o].seen.Some?)
  }

  /** A publication keeps its epoch exactly when it repeats the identity before it. */
  ghost predicate LogInv(log: seq<Publication>) {
    && (log != [] ==> log[0].epoch == 1)
    && (forall k :: 0 < k < |log| ==>
          log[k].epoch == log[k - 1].epoch + if log[k].identity == log[k - 1].identity then 0 else 1)
  }

  ghost predicate StoredInv(m: Meta, log: seq<Publication>) {
    if log == [] then NoIdentity(m)
    else var last := log[|log| - 1];
      Snap(m) == Snapshot(Some(last.identity.model), Some(last.identity.dim), Some(last.identity.vecDim),
                          Some(Num(last.epoch)))
  }

  ghost predicate Logged(log: seq<Publication>, id: Identity, epoch: int) {
    exists k :: 0 <= k < |log| && log[k] == Publication(id, epoch)
  }

  ghost predicate ProvidersInv(s: State) {
    forall p :: p in s.providers && s.providers[p].epoch.Some? ==>
      s.providers[p].published.Some? && Logged(s.log, s.providers[p].published.value, s.providers[p].epoch.value)
  }

  /** While an operation holds its lease, what it validated stays stored. */
  ghost predicate SeenInv(s: State) {
    forall o :: o in s.ops && s.ops[o].seen.Some? ==> Holds(s.ops[o]) && s.ops[o].seen == Some(Snap(s.meta))
  }

  ghost predicate Blocked(m: Meta) {
    m.claim.Some? && !m.claim.value.Completed?
  }

  function Counter(m: Meta): (n: int) {
    if m.counter.Some? && m.counter.value.Num? then m.counter.value.n else 0
  }

  ghost predicate ThinkInv(s: State) {
    && s.interval > 0
    && (s.meta.counter.Some? ==> s.meta.counter.value.Num?)
    && 0 <= Counter(s.meta)
    && (if Blocked(s.meta) then Counter(s.meta) == s.interval else Counter(s.meta) < s.interval)
    && s.counted == s.interval * s.completed + Counter(s.meta)
    && s.started == s.completed + (if Blocked(s.meta) then 1 else 0)
    && (forall o :: o in s.ops && s.ops[o].phase.Thinking? ==>
          && s.meta.claim == Some(InFlight) && s.meta.claimEpoch == Some(s.ops[o].phase.claimId)
          && s.ops[o].phase.counter == Counter(s.meta))
  }

  ghost predicate Inv(s: State) {
    && LeaseInv(s) && LogInv(s.log) && StoredInv(s.meta, s.log) && ProvidersInv(s) && SeenInv(s) && ThinkInv(s)
  }

  lemma InitInv(s: State)
    requires Init(s)
    ensures Inv(s)
  {
  }

  /** Changing one operation: taking the lease needs it free. */
  lemma ChangeKeepsLease(s: State, s': State, o: nat, op: Op)
    requires LeaseInv(s) && o in s.ops && s'.ops == s.ops[o := op] && s'.nextOp == s.nextOp
    requires op.exclusive == s.ops[o].exclusive && op.boot == s.ops[o].boot
    requires Holds(op) && !Holds(s.ops[o]) ==> LeaseFree(s.ops, op.exclusive)
    requires (op.phase.Thinking? ==> op.exclusive) && (op.phase.Recovered? ==> op.boot)
    requires Checked(op.phase) ==> !op.boot && op.seen.Some?
    ensures LeaseInv(s')
  {
  }

  lemma FewerKeepLease(s: State, s': State)
    requires LeaseInv(s) && s'.nextOp >= s.nextOp
    requires forall o :: o in s'.ops ==> o in s.ops && s'.ops[o] == s.ops[o]
    ensures LeaseInv(s')
  {
  }

  lemma AskKeepsLease(s: State, s': State, op: Op)
    requires LeaseInv(s) && s'.ops == s.ops[s.nextOp := op] && s'.nextOp == s.nextOp + 1
    requires op.phase.Asking? && (op.boot ==> op.exclusive)
    ensures LeaseInv(s')
  {
  }

  lemma StepKeepsLease(s: State, x: Action)
    requires LeaseInv(s) && Enabled(s, x)
    ensures LeaseInv(Apply(s, x))
  {
    hide LeaseFree, Accepts;
    var s' := Apply(s, x);
    if x.Ask? {
      hide LeaseInv;
      AskKeepsLease(s, s', s'.ops[s.nextOp]);
    } else if x.Acquire? || x.Recover? || x.Publish? || x.ThinkClaim? || x.ThinkEnd? || (x.Validate? && x.o in s'.ops) {
      ChangeKeepsLease(s, s', x.o, s'.ops[x.o]);
    } else {
      hide LeaseInv;
      FewerKeepLease(s, s');
    }
  }

  /** The epoch arithmetic of one publication. */
  lemma WriteExtendsLog(m: Meta, log: seq<Publication>, id: Identity)
    requires LogInv(log) && StoredInv(m, log)
    ensures var m' := WriteIdentity(m, id);
      && m'.epoch.Some? && m'.epoch.value.Num?
      && LogInv(log + [Publication(id, m'.epoch.value.n)])
      && StoredInv(m', log + [Publication(id, m'.epoch.value.n)])
  {
  }

  /** Only an operation that is alone writes the identity rows. */
  lemma PublishKeepsIdentity(s: State, o: nat, id: Identity)
    requires Inv(s) && At(s, o, Recovered)
    ensures var s' := DoPublish(s, o, id); LogInv(s'.log) && StoredInv(s'.meta, s'.log) && SeenInv(s')
  {
    hide ThinkInv, ProvidersInv, LogInv, StoredInv;
    WriteExtendsLog(s.meta, s.log, id);
  }

  lemma SnapFrame(s: State, x: Action)
    requires Enabled(s, x) && !x.Publish?
    ensures Snap(Apply(s, x).meta) == Snap(s.meta) && Apply(s, x).log == s.log
  {
    hide Accepts, LeaseFree;
  }

  /** An operation's record is made once, and only after it took the lease. */
  lemma SeenFrame(s: State, x: Action)
    requires Enabled(s, x)
    ensures forall o ::
      o in Apply(s, x).ops && Apply(s, x).ops[o].seen.Some? && !((x.Validate? || x.Publish?) && o == x.o) ==>
      o in s.ops && s.ops[o].seen == Apply(s, x).ops[o].seen && (Holds(s.ops[o]) ==> Holds(Apply(s, x).ops[o]))
  {
    hide Accepts, LeaseFree, WriteIdentity, RecoverClaim, Terminal, Snap;
  }

  lemma StepKeepsIdentity(s: State, x: Action)
    requires Inv(s) && Enabled(s, x)
    ensures var s' := Apply(s, x); LogInv(s'.log) && StoredInv(s'.meta, s'.log) && SeenInv(s')
  {
    hide ThinkInv, ProvidersInv, LogInv, LeaseInv, Accepts, LeaseFree, DoPublish, DoThinkClaim, DoThinkEnd, DoCrash;
    if x.Publish? {
      hide SeenInv, StoredInv;
      var v := s.providers[s.ops[x.o].owner];
      var vecDim := if x.vecDim.Some? then x.vecDim.value else v.dim.value;
      PublishKeepsIdentity(s, x.o, Identity(v.model, v.dim.value, vecDim));
    } else {
      SnapFrame(s, x);
      SeenFrame(s, x);
    }
  }

  lemma ProvidersFrame(s: State, x: Action)
    requires Enabled(s, x)
    ensures var s' := Apply(s, x);
      && (!x.Publish? ==> s'.log == s.log)
      && (forall p :: p in s'.providers && s'.providers[p].epoch.Some? && !(x.Publish? && p == s.ops[x.o].owner) ==>
            && p in s.providers && s.providers[p].epoch == s'.providers[p].epoch
            && s.providers[p].published == s'.providers[p].published)
  {
    hide Accepts, LeaseFree;
  }

  lemma StepKeepsProviders(s: State, x: Action)
    requires Inv(s) && Enabled(s, x)
    ensures ProvidersInv(Apply(s, x))
  {
    hide ThinkInv, SeenInv, LeaseInv, LogInv, Accepts, LeaseFree, DoThinkClaim, DoThinkEnd;
    var s' := Apply(s, x);
    ProvidersFrame(s, x);
    forall p | p in s'.providers && s'.providers[p].epoch.Some?
      ensures s'.providers[p].published.Some? &&
        Logged(s'.log, s'.providers[p].published.value, s'.providers[p].epoch.value)
    {
      if x.Publish? && p == s.ops[x.o].owner {
        assert s'.log[|s.log|] == Publication(s'.providers[p].published.value, s'.providers[p].epoch.value);
      } else {
        var v := s.providers[p];
        var k :| 0 <= k < |s.log| && s.log[k] == Publication(v.published.value, v.epoch.value);
        assert s'.log[k] == s.log[k];
      }
    }
  }

  lemma NextMultiple(interval: nat, completed: nat)
    ensures interval * (completed + 1) == interval * completed + interval
  {
  }

  lemma ClaimKeepsThink(s: State, o: nat, claimId: int)
    requires Inv(s) && Enabled(s, ThinkClaim(o, claimId))
    ensures ThinkInv(DoThinkClaim(s, o, claimId))
  {
    hide ProvidersInv, SeenInv, LogInv, StoredInv, Accepts, LeaseFree;
  }

  lemma EndKeepsThink(s: State, o: nat, r: ThinkResult)
    requires Inv(s) && Enabled(s, ThinkEnd(o, r))
    ensures ThinkInv(DoThinkEnd(s, o, r))
  {
    hide ProvidersInv, SeenInv, LogInv, StoredInv, Accepts, LeaseFree;
    NextMultiple(s.interval, s.completed);
  }

  lemma StepKeepsThink(s: State, x: Action)
    requires Inv(s) && Enabled(s, x)
    ensures ThinkInv(Apply(s, x))
  {
    hide ProvidersInv, SeenInv, LogInv, StoredInv, Accepts, LeaseFree, DoThinkClaim, DoThinkEnd;
    if x.ThinkClaim? {
      ClaimKeepsThink(s, x.o, x.claimId);
    } else if x.ThinkEnd? {
      EndKeepsThink(s, x.o, x.result);
    }
  }

  lemma StepKeepsInv(s: State, x: Action)
    requires Inv(s) && Enabled(s, x)
    ensures Inv(Apply(s, x))
  {
    hide LeaseInv, LogInv, StoredInv, ProvidersInv, SeenInv, ThinkInv, Apply, Enabled;
    StepKeepsLease(s, x);
    StepKeepsIdentity(s, x);
    StepKeepsProviders(s, x);
    StepKeepsThink(s, x);
  }

  lemma {:induction false} RunKeepsInv(s: State, run: seq<Action>)
    requires Inv(s) && Legal(s, run)
    ensures Inv(Exec(s, run))
    decreases |run|
  {
    hide Inv, Enabled, Apply;
    if run != [] {
      StepKeepsInv(s, run[0]);
      RunKeepsInv(Apply(s, run[0]), run[1..]);
    }
  }

  ghost predicate Reachable(s: State) {
    exists s0, run :: Init(s0) && Legal(s0, run) && Exec(s0, run) == s
  }

  lemma ReachableInv(s: State)
    requires Reachable(s)
    ensures Inv(s)
  {
    hide Init, Inv, Legal;
    var s0, run :| Init(s0) && Legal(s0, run) && Exec(s0, run) == s;
    InitInv(s0);
    RunKeepsInv(s0, run);
  }

  // ----- The maintenance epoch -----

  lemma {:induction false} EpochsClimb(log: seq<Publication>, j: nat, k: nat)
    requires LogInv(log) && j <= k < |log|
    ensures log[j].epoch <= log[k].epoch
    ensures log[j].epoch == log[k].epoch <==> forall m :: j <= m <= k ==> log[m].identity == log[j].identity
    decreases k
  {
    if j < k {
      EpochsClimb(log, j, k - 1);
      if forall m :: j <= m <= k ==> log[m].identity == log[j].identity {
        assert log[k].identity == log[k - 1].identity;
      }
    }
  }

  /** The epoch never decreases from one publication to a later one, and it is
      the same exactly when no publication in between had another identity. So
      going to another identity and back gives a new epoch. */
  lemma EpochRisesIffIdentityChanged(s: State, j: nat, k: nat)
    requires Reachable(s) && j <= k < |s.log|
    ensures s.log[j].epoch <= s.log[k].epoch
    ensures s.log[j].epoch == s.log[k].epoch <==> forall m :: j <= m <= k ==> s.log[m].identity == s.log[j].identity
  {
    hide Reachable, LeaseInv, StoredInv, ProvidersInv, SeenInv, ThinkInv;
    ReachableInv(s);
    EpochsClimb(s.log, j, k);
  }

  /** Each epoch names one identity. */
  lemma EpochNamesIdentity(s: State, j: nat, k: nat)
    requires Reachable(s) && j < |s.log| && k < |s.log| && s.log[j].epoch == s.log[k].epoch
    ensures s.log[j].identity == s.log[k].identity
  {
    if j <= k {
      EpochRisesIffIdentityChanged(s, j, k);
    } else {
      EpochRisesIffIdentityChanged(s, k, j);
    }
  }

  /** The rows always hold the last publication, whole. */
  lemma StoredIsLastPublished(s: State)
    requires Reachable(s)
    ensures if s.log == [] then NoIdentity(s.meta)
      else var last := s.log[|s.log| - 1];
        && s.meta.model == Some(last.identity.model) && s.meta.dim == Some(last.identity.dim)
        && s.meta.vecDim == Some(last.identity.vecDim) && s.meta.epoch == Some(Num(last.epoch))
  {
    hide Reachable, LeaseInv, LogInv, ProvidersInv, SeenInv, ThinkInv;
    ReachableInv(s);
  }

  /** A provider that has an epoch passes validation only while the stored
      identity is the one it published itself and matches its configuration. */
  lemma ValidationFences(s: State, o: nat)
    requires Reachable(s) && Enabled(s, Validate(o)) && s.providers[s.ops[o].owner].epoch.Some?
    requires o in Apply(s, Validate(o)).ops
    ensures var p := s.providers[s.ops[o].owner];
      && p.published.Some?
      && s.meta.model == Some(p.published.value.model) == Some(p.model)
      && s.meta.dim == Some(p.published.value.dim) && s.meta.vecDim == Some(p.published.value.vecDim)
      && s.ops[o].token.epoch == p.epoch
  {
    hide Reachable, LeaseInv, SeenInv, ThinkInv;
    ReachableInv(s);
    var p := s.providers[s.ops[o].owner];
    var k :| 0 <= k < |s.log| && s.log[k] == Publication(p.published.value, p.epoch.value);
    EpochNamesIdentity(s, k, |s.log| - 1);
  }

  /** What an operation's token and its provider must agree on by themselves:
      model, supervisor, and `d`, the dimension the provider works with. */
  predicate SelfConsistent(p: Prov, t: Claim, d: Option<nat>) {
    && d == (if p.supervisor.Some? then p.dim else t.dim)
    && t.model == p.model
    && (t.dim.Some? ==> t.dim == d)
    && (p.supervisor.Some? ==> d.Some? && t.supervisor == p.supervisor)
  }

  /** Validation passes exactly when token and provider agree with each other and
      with what was published last: on the model, on the dimension for both
      embeddings and vectors, and on the epoch if either has one. Otherwise the
      operation ends and nothing is written. */
  lemma ValidatesIff(s: State, o: nat, d: Option<nat>)
    requires Reachable(s) && Enabled(s, Validate(o))
    requires d == var p, t := s.providers[s.ops[o].owner], s.ops[o].token; if p.supervisor.Some? then p.dim else t.dim
    ensures var p, t, s' := s.providers[s.ops[o].owner], s.ops[o].token, Apply(s, Validate(o));
      && s'.meta == s.meta
      && (o in s'.ops ==> s'.ops[o].phase.Validated?)
      && (o in s'.ops <==>
            && SelfConsistent(p, t, d)
            && (p.epoch.Some? || t.epoch.Some? ==> s.log != [] && p.epoch == t.epoch == Some(s.log[|s.log| - 1].epoch))
            && (s.log != [] ==>
                  var last := s.log[|s.log| - 1].identity;
                  last.model == p.model && Some(last.dim) == d && Some(last.vecDim) == d))
  {
    StoredIsLastPublished(s);
  }

  /** For a provider that has an epoch: it passes exactly when the last
      publication is that of its model and its dimension, under its own and the
      token's epoch. */
  lemma EpochValidatesIff(s: State, o: nat, d: Option<nat>)
    requires Reachable(s) && Enabled(s, Validate(o)) && s.providers[s.ops[o].owner].epoch.Some?
    requires d == var p, t := s.providers[s.ops[o].owner], s.ops[o].token; if p.supervisor.Some? then p.dim else t.dim
    ensures var p, t := s.providers[s.ops[o].owner], s.ops[o].token;
      o in Apply(s, Validate(o)).ops <==>
        && SelfConsistent(p, t, d) && t.epoch == p.epoch && d.Some?
        && s.log != [] && s.log[|s.log| - 1] == Publication(Identity(p.model, d.value, d.value), p.epoch.value)
  {
    hide Reachable, Apply, Enabled;
    ValidatesIff(s, o, d);
  }

  /** So a provider is let in exactly while the last publication is its own
      configuration: asking, acquiring and validating with nothing in between. */
  lemma MatchingProviderIsLetIn(s: State, p: Provider, exclusive: bool)
    requires Reachable(s) && p in s.providers && LeaseFree(s.ops, exclusive) && s.providers[p].epoch.Some?
    ensures var o, v := s.nextOp, s.providers[p];
      && Enabled(s, Ask(p, exclusive, false))
      && var s1 := Apply(s, Ask(p, exclusive, false));
      && Enabled(s1, Acquire(o))
      && var s2 := Apply(s1, Acquire(o));
      && Enabled(s2, Validate(o))
      && (o in Apply(s2, Validate(o)).ops <==>
            && v.dim.Some? && s.log != []
            && s.log[|s.log| - 1] == Publication(Identity(v.model, v.dim.value, v.dim.value), v.epoch.value))
  {
    var o, v := s.nextOp, s.providers[p];
    var s1 := AskStep(s, p, exclusive);
    var s2 := AcquireStep(s1, o);
    hide Reachable, Apply, Enabled, LeaseFree;
    assert Enabled(s2, Validate(o)) by { ValidateIsEnabled(s2, o); }
    EpochValidatesIff(s2, o, v.dim);
  }

  lemma AskStep(s: State, p: Provider, exclusive: bool) returns (s': State)
    requires Reachable(s) && p in s.providers && LeaseFree(s.ops, exclusive)
    ensures Enabled(s, Ask(p, exclusive, false)) && s' == Apply(s, Ask(p, exclusive, false)) && Reachable(s')
    ensures s'.providers == s.providers && s'.log == s.log && LeaseFree(s'.ops, exclusive)
    ensures var v, o := s.providers[p], s.nextOp;
      o in s'.ops && s'.ops[o] == Op(p, exclusive, false, Claim(v.model, v.dim, v.epoch, v.supervisor), Asking, None)
  {
    s' := Apply(s, Ask(p, exclusive, false));
    hide Reachable;
    ReachableStep(s, Ask(p, exclusive, false));
  }

  lemma AcquireStep(s: State, o: nat) returns (s': State)
    requires Reachable(s) && At(s, o, Asking) && LeaseFree(s.ops, s.ops[o].exclusive)
    ensures Enabled(s, Acquire(o)) && s' == Apply(s, Acquire(o)) && Reachable(s')
    ensures s'.providers == s.providers && s'.log == s.log
    ensures o in s'.ops && s'.ops[o] == s.ops[o].(phase := Entered)
  {
    s' := Apply(s, Acquire(o));
    hide Reachable;
    ReachableStep(s, Acquire(o));
  }

  lemma ValidateIsEnabled(s: State, o: nat)
    requires At(s, o, Entered) && !s.ops[o].boot
    ensures Enabled(s, Validate(o))
  {
  }

  lemma {:induction false} ExecSnoc(s: State, run: seq<Action>, x: Action)
    requires Legal(s, run) && Enabled(Exec(s, run), x)
    ensures Legal(s, run + [x]) && Exec(s, run + [x]) == Apply(Exec(s, run), x)
    decreases |run|
  {
    hide Enabled, Apply;
    if run == [] {
      assert Legal(Apply(s, x), []);
    } else {
      ExecSnoc(Apply(s, run[0]), run[1..], x);
      assert (run + [x])[1..] == run[1..] + [x];
    }
  }

  lemma ReachableStep(s: State, x: Action)
    requires Reachable(s) && Enabled(s, x)
    ensures Reachable(Apply(s, x))
  {
    hide Enabled, Apply, Init;
    var s0, run :| Init(s0) && Legal(s0, run) && Exec(s0, run) == s;
    ExecSnoc(s0, run, x);
  }

  /** Start-up publishes exactly when token and provider agree, whatever is
      stored; then the last publication is its configuration, and the provider
      holds its epoch. */
  lemma PublishesIff(s: State, o: nat, vecDim: Option<nat>)
    requires Reachable(s) && At(s, o, Recovered)
    ensures var p, t := s.providers[s.ops[o].owner], s.ops[o].token;
      && (Enabled(s, Publish(o, vecDim)) <==>
            && p.dim.Some? && t.model == p.model
            && (p.supervisor.Some? ==> t.supervisor == p.supervisor && (t.dim.Some? ==> t.dim == p.dim))
            && (p.epoch.Some? && t.epoch.Some? ==> t.epoch == p.epoch))
      && (Enabled(s, Publish(o, vecDim)) ==>
            var s' := Apply(s, Publish(o, vecDim));
            && s'.log != [] && s'.log[..|s'.log| - 1] == s.log
            && var last := s'.log[|s'.log| - 1];
            && last.identity.model == p.model && last.identity.dim == p.dim.value
            && last.identity.vecDim == (if vecDim.Some? then vecDim.value else p.dim.value)
            && o in s'.ops && s'.ops[o].phase.Ended? && s.ops[o].owner in s'.providers
            && s'.providers[s.ops[o].owner].epoch == Some(last.epoch)
            && s'.providers[s.ops[o].owner].published == Some(last.identity))
  {
    hide Reachable;
  }

  /** And it always gets there: a new provider that binds a supervisor and finds
      the graph file free is published by its own start-up, under an epoch it
      then holds. */
  lemma StartUpPublishes(s: State, p: Provider, model: string, supervisor: nat, dim: nat) returns (run: seq<Action>)
    requires Reachable(s) && p !in s.providers && LeaseFree(s.ops, true)
    ensures Legal(s, run) && Reachable(Exec(s, run))
    ensures var s' := Exec(s, run);
      && p in s'.providers && s'.providers[p].epoch.Some?
      && s'.log == s.log + [Publication(Identity(model, dim, dim), s'.providers[p].epoch.value)]
  {
    var o := s.nextOp;
    var s1 := Apply(s, Join(p, model));
    var s2 := Apply(s1, Bind(p, Some(supervisor), Some(dim)));
    ReachableStep(s, Join(p, model));
    ReachableStep(s1, Bind(p, Some(supervisor), Some(dim)));
    var s5 := BootRecovers(s2, p);
    hide Reachable, LeaseFree;
    PublishesIff(s5, o, None);
    var s6 := Apply(s5, Publish(o, None));
    ReachableStep(s5, Publish(o, None));
    run := [Join(p, model), Bind(p, Some(supervisor), Some(dim)), Ask(p, true, true), Acquire(o), Recover(o, false),
            Publish(o, None)];
    hide Apply, Enabled;
    SixSteps(s, run, s1, s2, Apply(s2, run[2]), Apply(Apply(s2, run[2]), run[3]), s5, s6);
  }

  lemma BootRecovers(s: State, p: Provider) returns (s': State)
    requires Reachable(s) && p in s.providers && LeaseFree(s.ops, true)
    ensures var o, v := s.nextOp, s.providers[p];
      && Enabled(s, Ask(p, true, true))
      && var s1 := Apply(s, Ask(p, true, true));
      && Enabled(s1, Acquire(o))
      && var s2 := Apply(s1, Acquire(o));
      && Enabled(s2, Recover(o, false)) && s' == Apply(s2, Recover(o, false)) && Reachable(s')
      && s'.providers == s.providers && s'.log == s.log
      && o in s'.ops && s'.ops[o] == Op(p, true, true, Claim(v.model, v.dim, v.epoch, v.supervisor), Recovered, None)
  {
    var o := s.nextOp;
    var s1 := Apply(s, Ask(p, true, true));
    assert LeaseFree(s1.ops, true);
    var s2 := Apply(s1, Acquire(o));
    s' := Apply(s2, Recover(o, false));
    hide Reachable, LeaseFree;
    ReachableStep(s, Ask(p, true, true));
    ReachableStep(s1, Acquire(o));
    ReachableStep(s2, Recover(o, false));
  }

  lemma SixSteps(s: State, run: seq<Action>, s1: State, s2: State, s3: State, s4: State, s5: State, s6: State)
    requires |run| == 6
    requires Enabled(s, run[0]) && s1 == Apply(s, run[0]) && Enabled(s1, run[1]) && s2 == Apply(s1, run[1])
    requires Enabled(s2, run[2]) && s3 == Apply(s2, run[2]) && Enabled(s3, run[3]) && s4 == Apply(s3, run[3])
    requires Enabled(s4, run[4]) && s5 == Apply(s4, run[4]) && Enabled(s5, run[5]) && s6 == Apply(s5, run[5])
    ensures Legal(s, run) && Exec(s, run) == s6
  {
    hide Enabled, Apply;
    assert run == [run[0], run[1], run[2], run[3], run[4], run[5]];
    assert Legal(s6, []) && Exec(s6, []) == s6;
    assert run[5..][1..] == [] && run[4..][1..] == run[5..] && run[3..][1..] == run[4..];
    assert run[2..][1..] == run[3..] && run[1..][1..] == run[2..];
    assert Legal(s5, run[5..]) && Exec(s5, run[5..]) == s6;
    assert Legal(s4, run[4..]) && Exec(s4, run[4..]) == s6;
    assert Legal(s3, run[3..]) && Exec(s3, run[3..]) == s6;
    assert Legal(s2, run[2..]) && Exec(s2, run[2..]) == s6;
    assert Legal(s1, run[1..]) && Exec(s1, run[1..]) == s6;
  }

  /** An operation asked for under another supervisor than the one its provider is
      bound to by now is turned away. */
  lemma ReboundIsFenced(s: State, o: nat, supervisor: nat, dim: Option<nat>)
    requires Reachable(s) && Enabled(s, Validate(o)) && s.ops[o].token.supervisor != Some(supervisor)
    ensures var p := s.ops[o].owner;
      && Enabled(s, Bind(p, Some(supervisor), dim))
      && var s1 := Apply(s, Bind(p, Some(supervisor), dim));
      && Enabled(s1, Validate(o)) && o !in Apply(s1, Validate(o)).ops
  {
    var p := s.ops[o].owner;
    ReachableStep(s, Bind(p, Some(supervisor), dim));
    hide Reachable;
    ValidatesIff(Apply(s, Bind(p, Some(supervisor), dim)), o, dim);
  }

  /** A provider configured for another model than the last published one is kept out. */
  lemma ReconfiguredIsFenced(s: State, p: Provider, model: string, exclusive: bool)
    requires Reachable(s) && p in s.providers && s.providers[p].epoch.Some? && LeaseFree(s.ops, exclusive)
    requires s.log != [] && s.log[|s.log| - 1].identity.model != model
    ensures var o, s0 := s.nextOp, Apply(s, Configure(p, model));
      && Enabled(s0, Ask(p, exclusive, false))
      && var s1 := Apply(s0, Ask(p, exclusive, false));
      && Enabled(s1, Acquire(o))
      && var s2 := Apply(s1, Acquire(o));
      && Enabled(s2, Validate(o)) && o !in Apply(s2, Validate(o)).ops
  {
    var s0 := Apply(s, Configure(p, model));
    ReachableStep(s, Configure(p, model));
    assert s0.ops == s.ops && s0.log == s.log && s0.nextOp == s.nextOp && s0.providers[p].model == model;
    hide Reachable, Apply, Enabled;
    MatchingProviderIsLetIn(s0, p, exclusive);
  }

  /** A token or provider whose epoch is not the stored one is turned away. */
  lemma StaleEpochIsRejected(s: State, o: nat)
    requires Reachable(s) && Enabled(s, Validate(o)) && s.log != []
    requires var p, last := s.providers[s.ops[o].owner], s.log[|s.log| - 1];
      || (p.epoch.Some? && p.epoch.value != last.epoch)
      || (s.ops[o].token.epoch.Some? && s.ops[o].token.epoch.value != last.epoch)
    ensures o !in Apply(s, Validate(o)).ops && Apply(s, Validate(o)).meta == s.meta
  {
    StoredIsLastPublished(s);
  }

  lemma DroppedStaysDropped(s: State, x: Action, o: nat)
    requires LeaseInv(s) && Enabled(s, x) && o < s.nextOp
    ensures s.nextOp <= Apply(s, x).nextOp
    ensures o in Apply(s, x).ops ==> o in s.ops
  {
    hide LeaseInv, Accepts, LeaseFree;
  }

  lemma {:induction false} RecordLasts(s: State, run: seq<Action>, o: nat)
    requires Inv(s) && Legal(s, run) && o < s.nextOp && o in Exec(s, run).ops
    ensures o in s.ops
    ensures s.ops[o].seen.Some? && !s.ops[o].boot ==> Exec(s, run).ops[o].seen == s.ops[o].seen
    decreases |run|
  {
    hide Inv;
    if run != [] {
      var s' := Apply(s, run[0]);
      StepKeepsInv(s, run[0]);
      assert LeaseInv(s) by { InvLease(s); }
      DroppedStaysDropped(s, run[0], o);
      RecordLasts(s', run[1..], o);
      if s.ops[o].seen.Some? && !s.ops[o].boot {
        RecordStep(s, run[0], o);
      }
    }
  }

  lemma InvLease(s: State)
    requires Inv(s)
    ensures LeaseInv(s) && SeenInv(s)
  {
  }

  lemma RecordStep(s: State, x: Action, o: nat)
    requires Inv(s) && Enabled(s, x) && o in s.ops && o in Apply(s, x).ops && s.ops[o].seen.Some? && !s.ops[o].boot
    ensures Apply(s, x).ops[o].seen == s.ops[o].seen && !Apply(s, x).ops[o].boot
  {
    hide ProvidersInv, LogInv, StoredInv, ThinkInv, Accepts, LeaseFree;
  }

  /** From validation until it leaves, an operation works on one identity and epoch,
      whatever everybody else does meanwhile. */
  lemma ValidatedIdentityIsStable(s: State, run: seq<Action>, o: nat)
    requires Reachable(s) && Legal(s, run)
    requires o in s.ops && Checked(s.ops[o].phase) && o in Exec(s, run).ops
    ensures Snap(Exec(s, run).meta) == Snap(s.meta)
  {
    hide Reachable, Legal, Exec, Inv;
    ReachableInv(s);
    RunKeepsInv(s, run);
    InvLease(s);
    InvLease(Exec(s, run));
    RecordLasts(s, run, o);
  }

  // ----- The think cycle -----

  /** Every counted turn is accounted for by a completed cycle or the counter. */
  lemma TurnsAreConserved(s: State)
    requires Reachable(s)
    ensures s.counted == s.interval * s.completed + Counter(s.meta)
    ensures 0 <= Counter(s.meta) <= s.interval
    ensures s.completed <= s.started <= s.completed + 1
    ensures s.started == s.completed + 1 <==> Counter(s.meta) == s.interval
  {
    hide Reachable, LeaseInv, LogInv, StoredInv, ProvidersInv, SeenInv;
    ReachableInv(s);
  }

  /** Two think cycles never run at once, and a running one's claim is the stored one. */
  lemma OneCycleAtATime(s: State, o: nat, q: nat)
    requires Reachable(s) && o in s.ops && s.ops[o].phase.Thinking?
    ensures s.meta.claim == Some(InFlight) && s.meta.claimEpoch == Some(s.ops[o].phase.claimId)
    ensures q in s.ops && s.ops[q].phase.Thinking? ==> q == o
  {
    hide Reachable, LogInv, StoredInv, ProvidersInv, SeenInv;
    ReachableInv(s);
  }

  /** Start-up recovery runs while nobody is thinking: the claim it marks is orphaned. */
  lemma RecoveryFindsNoRunningOwner(s: State, o: nat, fails: bool, q: nat)
    requires Reachable(s) && Enabled(s, Recover(o, fails)) && q in s.ops
    ensures !s.ops[q].phase.Thinking?
  {
    hide Reachable, LogInv, StoredInv, ProvidersInv, SeenInv, ThinkInv;
    ReachableInv(s);
  }

  /** A turn starts a cycle exactly when no claim is open or unsuccessful and it is
      the interval's last; otherwise it is counted, unless a claim stands, which
      changes nothing. */
  lemma ThinkClaimIff(s: State, o: nat, claimId: int)
    requires Reachable(s) && Enabled(s, ThinkClaim(o, claimId))
    ensures var s', stands := Apply(s, ThinkClaim(o, claimId)), s.meta.claim.Some? && s.meta.claim != Some(Completed);
      && o in s'.ops && s'.completed == s.completed
      && (s'.ops[o].phase.Thinking? <==> !stands && Counter(s.meta) + 1 == s.interval)
      && s'.started == s.started + (if s'.ops[o].phase.Thinking? then 1 else 0)
      && s'.counted == s.counted + (if stands then 0 else 1)
      && (stands ==> s'.meta == s.meta)
      && (s'.ops[o].phase.Thinking? ==> s'.meta.claim == Some(InFlight) && s'.meta.claimEpoch == Some(claimId))
      && (!s'.ops[o].phase.Thinking? ==> s'.meta.claim == s.meta.claim)
  {
    hide Reachable, LeaseInv, LogInv, StoredInv, ProvidersInv, SeenInv;
    ReachableInv(s);
  }

  /** A running cycle always gets to settle its own claim. */
  lemma ThinkerSettlesItsClaim(s: State, o: nat, r: ThinkResult)
    requires Reachable(s) && Enabled(s, ThinkEnd(o, r))
    ensures var s' := Apply(s, ThinkEnd(o, r));
      && s'.meta.claim == Some(Terminal(r))
      && Counter(s'.meta) == (if r.Progress? then 0 else s.interval)
      && s'.completed == s.completed + (if r.Progress? then 1 else 0)
  {
    OneCycleAtATime(s, o, o);
    TurnsAreConserved(s);
    hide Reachable, LeaseInv, LogInv, StoredInv, ProvidersInv, SeenInv;
    ReachableInv(s);
  }

  /** A failed or uncertain claim. */
  predicate Settled(m: Meta) {
    m.claim == Some(Failed) || m.claim == Some(Uncertain)
  }

  lemma SettledStep(s: State, x: Action)
    requires Inv(s) && Enabled(s, x) && Settled(s.meta)
    ensures var s' := Apply(s, x);
      && s'.meta.claim == s.meta.claim && s'.meta.counter == s.meta.counter
      && s'.started == s.started && s'.counted == s.counted
  {
    hide LeaseInv, LogInv, StoredInv, ProvidersInv, SeenInv, Accepts, LeaseFree;
  }

  lemma {:induction false} SettledRun(s: State, run: seq<Action>)
    requires Inv(s) && Legal(s, run) && Settled(s.meta)
    ensures var s' := Exec(s, run);
      && s'.meta.claim == s.meta.claim && s'.meta.counter == s.meta.counter
      && s'.started == s.started && s'.counted == s.counted
    decreases |run|
  {
    hide Inv;
    if run != [] {
      SettledStep(s, run[0]);
      StepKeepsInv(s, run[0]);
      SettledRun(Apply(s, run[0]), run[1..]);
    }
  }

  /** After a failed or uncertain claim no cycle starts and no turn is counted, in any run. */
  lemma FailureIsForGood(s: State, run: seq<Action>)
    requires Reachable(s) && Legal(s, run) && Settled(s.meta)
    ensures var s' := Exec(s, run);
      && s'.meta.claim == s.meta.claim && s'.meta.counter == s.meta.counter
      && s'.started == s.started && s'.counted == s.counted
  {
    hide Reachable, Inv, Legal, Exec;
    ReachableInv(s);
    SettledRun(s, run);
  }

  ghost predicate NobodyThinks(s: State) {
    forall o :: o in s.ops ==> !s.ops[o].phase.Thinking?
  }

  /** A claim whose cycle nobody runs any more: its owner crashed or left. */
  ghost predicate Orphaned(s: State) {
    s.meta.claim == Some(InFlight) && NobodyThinks(s)
  }

  /** A provider that crashes while thinking orphans its claim. */
  lemma CrashOrphans(s: State, o: nat)
    requires Reachable(s) && o in s.ops && s.ops[o].phase.Thinking? && Enabled(s, Crash(s.ops[o].owner))
    ensures Orphaned(Apply(s, Crash(s.ops[o].owner)))
  {
    forall q | q in s.ops && s.ops[q].phase.Thinking? ensures q == o {
      OneCycleAtATime(s, o, q);
    }
    OneCycleAtATime(s, o, o);
  }

  /** A crash ends the provider and its operations, and leaves the rows and
      everybody else as they were. */
  lemma CrashEndsOnlyItself(s: State, p: Provider)
    requires Enabled(s, Crash(p))
    ensures var s' := Apply(s, Crash(p));
      && s'.meta == s.meta && s'.log == s.log && p !in s'.providers
      && (forall q :: q != p && q in s.providers ==> q in s'.providers && s'.providers[q] == s.providers[q])
      && (forall o :: o in s'.ops <==> o in s.ops && s.ops[o].owner != p)
      && (forall o :: o in s'.ops ==> s'.ops[o] == s.ops[o])
  {
  }

  predicate Recovers(x: Action) {
    x.Recover? && !x.fails
  }

  predicate RecoversIn(run: seq<Action>) {
    exists k :: 0 <= k < |run| && Recovers(run[k])
  }

  lemma OrphanStep(s: State, x: Action)
    requires Inv(s) && Enabled(s, x) && Orphaned(s)
    ensures var s' := Apply(s, x);
      && s'.started == s.started && s'.counted == s.counted && s'.meta.counter == s.meta.counter
      && (if Recovers(x) then s'.meta.claim == Some(Uncertain) else Orphaned(s'))
  {
    hide LeaseInv, LogInv, StoredInv, ProvidersInv, SeenInv, Accepts, LeaseFree;
  }

  lemma UncertainHasNoThinker(s: State)
    requires Inv(s) && s.meta.claim == Some(Uncertain)
    ensures NobodyThinks(s)
  {
    hide LeaseInv, LogInv, StoredInv, ProvidersInv, SeenInv;
  }

  lemma {:induction false} OrphanRun(s: State, run: seq<Action>)
    requires Inv(s) && Legal(s, run) && Orphaned(s)
    ensures var s' := Exec(s, run);
      && s'.started == s.started && s'.counted == s.counted && s'.meta.counter == s.meta.counter
      && s'.meta.claim == Some(if RecoversIn(run) then Uncertain else InFlight) && NobodyThinks(s')
    decreases |run|
  {
    hide Inv, Enabled, Apply, NobodyThinks;
    if run != [] {
      var s1 := Apply(s, run[0]);
      OrphanStep(s, run[0]);
      StepKeepsInv(s, run[0]);
      if Recovers(run[0]) {
        SettledRun(s1, run[1..]);
        RunKeepsInv(s1, run[1..]);
        UncertainHasNoThinker(Exec(s1, run[1..]));
      } else {
        OrphanRun(s1, run[1..]);
        assert RecoversIn(run) <==> RecoversIn(run[1..]) by { RecoversLater(run); }
      }
    }
  }

  lemma RecoversLater(run: seq<Action>)
    requires run != [] && !Recovers(run[0])
    ensures RecoversIn(run) <==> RecoversIn(run[1..])
  {
    forall k | 0 < k < |run| ensures run[k] == run[1..][k - 1] {
    }
  }

  /** An orphaned claim blocks every later cycle, in every run: none starts, no
      turn is counted and nobody is left thinking. The claim stays in flight
      until a start-up recovers it, and is uncertain from then on. */
  lemma OrphanBlocks(s: State, run: seq<Action>)
    requires Reachable(s) && Legal(s, run) && Orphaned(s)
    ensures var s' := Exec(s, run);
      && s'.started == s.started && s'.counted == s.counted && s'.meta.counter == s.meta.counter
      && s'.meta.claim == Some(if RecoversIn(run) then Uncertain else InFlight) && NobodyThinks(s')
  {
    hide Reachable, Inv, Legal, Exec;
    ReachableInv(s);
    OrphanRun(s, run);
  }
}
