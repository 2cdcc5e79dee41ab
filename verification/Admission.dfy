/** Graph and cache admission (admission.py over the nonblocking file leases of
    locking.py), as steps of any number of threads in any number of processes.

    A thread's attempt is split at every lock call. Whatever runs inside an
    admitted block is left open: it may nest, transfer its leases, raise or leave. */
module Admission {
  import opened Graph

  /** Canonical paths; each names one lock file. */
  type Path(==, !new)

  /** A thread with its own current-admission variable. */
  type Actor(==, !new)

  /** The identity an operation states; absent parts are not compared when nesting. */
  datatype Claim = Claim(
    model: Option<string>,
    dim: Option<int>,
    vecDim: Option<int>,
    epoch: Option<int>,
    supervisor: Option<int>,
    generation: Option<int>)

  datatype Request = Request(graph: Option<Path>, cache: Option<Path>, claim: Claim, exclusive: bool,
                             cacheExclusive: bool)

  datatype Token = Token(graph: Option<Path>, cache: Option<Path>, claim: Claim, exclusive: bool, cacheExclusive: bool)

  /** An acquired file lease; `stack` is the exit stack that will release it. */
  datatype Lease = Lease(path: Path, exclusive: bool, stack: nat)

  /** AdmissionLeaseOwner, with the token it was made for. */
  datatype Owner = Owner(token: Token, transferred: bool, closed: bool)

  /** One entry of the chain of admission blocks a thread is inside. */
  datatype Frame = Owned(id: nat) | Nested(id: nat) | Handing(id: nat) | Installed(id: nat)

  datatype Attempt =
    | Quiet
    | Trying(req: Request)                                   // at the top of the retry loop
    | HasGraph(req: Request, stack: nat)                     // graph lease taken, cache lease due
    | Unwinding(req: Request, stack: nat, raising: bool)     // closing the stack
    | Waiting(req: Request)                                  // about to sleep or give up

  datatype Local = Local(frames: seq<Frame>, attempt: Attempt)

  /** The lock files and the exit stacks over them. */
  datatype Books = Books(
    leases: set<Lease>,            // what the lock files hold
    stacks: map<nat, set<Lease>>,  // what each exit stack would still release
    acquired: set<Lease>,          // every lease ever taken
    released: multiset<Lease>,     // every release ever made
    next: nat)

  datatype State = State(
    books: Books,
    owners: map<nat, Owner>,
    actors: map<Actor, Local>,
    opener: map<nat, Actor>)       // who made each stack

  function At(s: State, a: Actor): (l: Local) {
    if a in s.actors then s.actors[a] else Local([], Quiet)
  }

  predicate Init(s: State) {
    s == State(Books({}, map[], {}, multiset{}, 0), map[], map[], map[])
  }

  // ----- Requests and tokens -----

  /** Requests refused before anything else happens. */
  predicate Malformed(req: Request) {
    (req.graph.None? && req.cache.None?) || (req.graph.Some? && req.cache == req.graph)
  }

  function Grant(req: Request): (t: Token) {
    if req.graph.Some?
    then Token(req.graph, req.cache, req.claim, req.exclusive, req.cacheExclusive)
    else Token(None, req.cache, req.claim, false, req.cacheExclusive || req.exclusive)
  }

  /** The first lease to take: the graph's, or the cache's when there is no graph. */
  function FirstLease(t: Token, id: nat): (r: Option<Lease>) {
    if t.graph.Some? then Some(Lease(t.graph.value, t.exclusive, id))
    else if t.cache.Some? then Some(Lease(t.cache.value, t.cacheExclusive, id))
    else None
  }

  /** The second: the cache's, when there is a graph too. */
  function SecondLease(t: Token, id: nat): (r: Option<Lease>) {
    if t.graph.Some? && t.cache.Some? then Some(Lease(t.cache.value, t.cacheExclusive, id)) else None
  }

  function AsSet<T>(o: Option<T>): (r: set<T>) {
    if o.Some? then {o.value} else {}
  }

  /** The leases a token stands for. */
  function Covers(t: Token, id: nat): (r: set<Lease>) {
    AsSet(FirstLease(t, id)) + AsSet(SecondLease(t, id))
  }

  predicate Agrees<T(==)>(wanted: Option<T>, given: Option<T>) {
    wanted.Some? ==> wanted == given
  }

  /** A nested request is granted the current token or refused. */
  predicate Nestable(t: Token, req: Request) {
    && t.graph == req.graph && t.cache == req.cache
    && Agrees(req.claim.model, t.claim.model)
    && Agrees(req.claim.dim, t.claim.dim)
    && Agrees(req.claim.vecDim, t.claim.vecDim)
    && Agrees(req.claim.epoch, t.claim.epoch)
    && Agrees(req.claim.supervisor, t.claim.supervisor)
    && Agrees(req.claim.generation, t.claim.generation)
    && (req.cacheExclusive ==> t.cacheExclusive)
    && (req.exclusive ==> t.exclusive)
  }

  /** Repeating one's own request inside it is refused exactly for an exclusive
      request on the cache alone: its token does not count as exclusive. */
  lemma RepeatNestsIff(req: Request)
    requires !Malformed(req)
    ensures Nestable(Grant(req), req) <==> req.graph.Some? || !req.exclusive
  {
  }

  // ----- The lock files -----

  /** flock without blocking: exclusive needs the file to itself. */
  predicate Available(leases: set<Lease>, path: Path, exclusive: bool) {
    forall l :: l in leases && l.path == path ==> !exclusive && !l.exclusive
  }

  // ----- The lease owner -----

  function TransferOwner(o: Owner): (r: Option<Owner>) {
    if o.closed || o.transferred then None else Some(o.(transferred := true))
  }

  /** AdmissionLeaseOwner as the source's object. The ghost fields count what it
      ever did: hand its leases over, and close its stack. */
  class AdmissionLeaseOwner {
    const token: Token
    var transferred: bool
    var closed: bool
    ghost var transfers: nat
    ghost var stackCloses: nat

    ghost function Value(): Owner
      reads this
    {
      Owner(token, transferred, closed)
    }

    ghost predicate Valid()
      reads this
    {
      && transfers == (if transferred then 1 else 0)
      && stackCloses == (if closed then 1 else 0)
    }

    constructor (token: Token)
      ensures Valid() && Value() == Owner(token, false, false)
    {
      this.token, transferred, closed, transfers, stackCloses := token, false, false, 0, 0;
    }

    /** Succeeds exactly once, and only while the stack was never closed: after
        any call that succeeded, and after a close, every call raises (false)
        and changes nothing. */
    method Transfer() returns (ok: bool)
      requires Valid()
      modifies this
      ensures Valid() && stackCloses == old(stackCloses)
      ensures ok <==> old(transfers) == 0 && old(stackCloses) == 0
      ensures transfers == old(transfers) + (if ok then 1 else 0) && transfers <= 1
      ensures Value() == if ok then old(Value()).(transferred := true) else old(Value())
    {
      if closed {
        return false;
      }
      if transferred {
        return false;
      }
      transferred := true;
      transfers := transfers + 1;
      ok := true;
    }

    /** However often it is called, the stack is closed once. */
    method Close()
      requires Valid()
      modifies this
      ensures Valid() && Value() == old(Value()).(closed := true)
      ensures stackCloses == 1 && transfers == old(transfers)
    {
      if closed {
        return;
      }
      closed := true;
      stackCloses := stackCloses + 1;
    }
  }

  // ----- Steps -----

  datatype Action =
    | Begin(a: Actor, req: Request)
    | TryFirst(a: Actor, broken: bool)   // graph lease, or cache lease when there is no graph
    | TryCache(a: Actor, broken: bool)
    | Unwind(a: Actor)
    | Retry(a: Actor)
    | GiveUp(a: Actor)
    | Leave(a: Actor, raised: bool)
    | Transfer(a: Actor)
    | EndTransfer(a: Actor, raised: bool)
    | Install(a: Actor, id: nat)
    | Finish(a: Actor)                   // leaving an installed block
    | CloseLeases(a: Actor, id: nat)     // the transferee closing the owner

  function Top(fs: seq<Frame>): (f: Frame)
    requires fs != []
  {
    fs[|fs| - 1]
  }

  predicate Enabled(s: State, x: Action) {
    var l := At(s, x.a);
    match x
    case Begin(_, _) => l.attempt.Quiet?
    case TryFirst(_, _) => l.attempt.Trying?
    case TryCache(_, _) => l.attempt.HasGraph?
    case Unwind(_) => l.attempt.Unwinding?
    case Retry(_) => l.attempt.Waiting?
    case GiveUp(_) => l.attempt.Waiting?
    case Leave(_, _) => l.attempt.Quiet? && l.frames != [] && (Top(l.frames).Owned? || Top(l.frames).Nested?)
    case Transfer(_) => l.attempt.Quiet? && l.frames != []
    case EndTransfer(_, _) => l.attempt.Quiet? && l.frames != [] && Top(l.frames).Handing?
    case Install(_, id) => l == Local([], Quiet) && id in s.owners && s.owners[id].transferred
    case Finish(_) => l.attempt.Quiet? && l.frames != [] && Top(l.frames).Installed?
    case CloseLeases(_, id) => id in s.owners && s.owners[id].transferred
  }

  function Put(s: State, a: Actor, l: Local): (s': State) {
    s.(actors := s.actors[a := l])
  }

  /** A fresh exit stack for the next try. */
  function NewStack(b: Books): (b': Books) {
    b.(stacks := b.stacks[b.next := {}], next := b.next + 1)
  }

  function Take(b: Books, l: Lease): (b': Books)
    requires l.stack in b.stacks
  {
    b.(leases := b.leases + {l}, acquired := b.acquired + {l}, stacks := b.stacks[l.stack := b.stacks[l.stack] + {l}])
  }

  /** ExitStack.close: runs and forgets what is on the stack. */
  function CloseStack(b: Books, id: nat): (b': Books) {
    if id !in b.stacks then b
    else
      b.(leases := b.leases - b.stacks[id], released := b.released + multiset(b.stacks[id]),
         stacks := b.stacks[id := {}])
  }

  function CloseOwner(s: State, id: nat): (s': State) {
    if id !in s.owners || s.owners[id].closed then s
    else s.(owners := s.owners[id := s.owners[id].(closed := true)], books := CloseStack(s.books, id))
  }

  function Admitted(s: State, a: Actor, req: Request, id: nat): (s': State) {
    Put(s.(owners := s.owners[id := Owner(Grant(req), false, false)]), a, Local([Owned(id)], Quiet))
  }

  function DoBegin(s: State, a: Actor, req: Request): (s': State) {
    var l := At(s, a);
    if Malformed(req) then s
    else if l.frames == [] then Put(s, a, l.(attempt := Trying(req)))
    else if Top(l.frames).id in s.owners && Nestable(s.owners[Top(l.frames).id].token, req)
    then Put(s, a, l.(frames := l.frames + [Nested(Top(l.frames).id)]))
    else s
  }

  function DoTryFirst(s: State, a: Actor, req: Request, broken: bool): (s': State) {
    var id := s.books.next;
    var s1 := s.(books := NewStack(s.books), opener := s.opener[id := a]);
    var first := FirstLease(Grant(req), id);
    if broken || first.None? || !Available(s.books.leases, first.value.path, first.value.exclusive)
    then Put(s1, a, Local([], Unwinding(req, id, broken)))
    else
      var s2 := s1.(books := Take(s1.books, first.value));
      if req.graph.Some? then Put(s2, a, Local([], HasGraph(req, id))) else Admitted(s2, a, req, id)
  }

  function DoTryCache(s: State, a: Actor, req: Request, id: nat, broken: bool): (s': State) {
    var second := SecondLease(Grant(req), id);
    if second.None? then Admitted(s, a, req, id)
    else if broken || id !in s.books.stacks || !Available(s.books.leases, second.value.path, second.value.exclusive)
    then Put(s, a, Local([], Unwinding(req, id, broken)))
    else Admitted(s.(books := Take(s.books, second.value)), a, req, id)
  }

  function DoUnwind(s: State, a: Actor, t: Attempt): (s': State)
    requires t.Unwinding?
  {
    Put(s.(books := CloseStack(s.books, t.stack)), a, Local([], if t.raising then Quiet else Waiting(t.req)))
  }

  function Pop(s: State, a: Actor): (s': State)
    requires At(s, a).frames != []
  {
    Put(s, a, At(s, a).(frames := At(s, a).frames[..|At(s, a).frames| - 1]))
  }

  function DoLeave(s: State, a: Actor, raised: bool): (s': State)
    requires At(s, a).frames != []
  {
    var f, s1 := Top(At(s, a).frames), Pop(s, a);
    if f.Nested? || f.id !in s.owners || s.owners[f.id].transferred then s1
    else
      var s2 := CloseOwner(s1, f.id);
      if raised then s2.(books := CloseStack(s2.books, f.id)) else s2  // the outer handler closes the stack again
  }

  function DoTransfer(s: State, a: Actor): (s': State)
    requires At(s, a).frames != []
  {
    var l, id := At(s, a), Top(At(s, a).frames).id;
    if id !in s.owners || TransferOwner(s.owners[id]).None? then s  // raises
    else Put(s.(owners := s.owners[id := TransferOwner(s.owners[id]).value]), a, l.(frames := l.frames + [Handing(id)]))
  }

  function Apply(s: State, x: Action): (s': State)
    requires Enabled(s, x)
  {
    var a := x.a;
    var l := At(s, a);
    match x
    case Begin(_, req) => DoBegin(s, a, req)
    case TryFirst(_, broken) => DoTryFirst(s, a, l.attempt.req, broken)
    case TryCache(_, broken) => DoTryCache(s, a, l.attempt.req, l.attempt.stack, broken)
    case Unwind(_) => DoUnwind(s, a, l.attempt)
    case Retry(_) => Put(s, a, Local([], Trying(l.attempt.req)))
    case GiveUp(_) => Put(s, a, Local([], Quiet))
    case Leave(_, raised) => DoLeave(s, a, raised)
    case Transfer(_) => DoTransfer(s, a)
    case EndTransfer(_, raised) => if raised then CloseOwner(Pop(s, a), Top(l.frames).id) else Pop(s, a)
    case Install(_, id) => Put(s, a, Local([Installed(id)], Quiet))
    case Finish(_) => Pop(s, a)
    case CloseLeases(_, id) => CloseOwner(s, id)
  }

  predicate Legal(s: State, run: seq<Action>)
    decreases |run|
  {
    run == [] || (Enabled(s, run[0]) && Legal(Apply(s, run[0]), run[1..]))
  }

  function Exec(s: State, run: seq<Action>): (s': State)
    requires Legal(s, run)
    decreases |run|
  {
    if run == [] then s else Exec(Apply(s, run[0]), run[1..])
  }

  // ----- The invariant -----

  ghost predicate Exclusion(leases: set<Lease>) {
    forall l, m :: l in leases && m in leases && l.path == m.path && l != m ==> !l.exclusive && !m.exclusive
  }

  /** What is held is what the stacks would still release. */
  ghost predicate HeldInv(b: Books) {
    && (forall l :: l in b.leases <==> l.stack in b.stacks && l in b.stacks[l.stack])
    && (forall i, l :: i in b.stacks && l in b.stacks[i] ==> l.stack == i)
    && (forall i :: i in b.stacks ==> i < b.next)
  }

  /** What was taken is held or was released once. */
  ghost predicate HistoryInv(b: Books) {
    && (forall l :: l in b.acquired <==> l in b.leases || b.released[l] > 0)
    && (forall l :: l in b.acquired ==> l.stack in b.stacks)
    && (forall l :: b.released[l] <= if l in b.leases then 0 else 1)
    && (forall l :: b.released[l] > 0 ==> l.stack in b.stacks && b.stacks[l.stack] == {})
  }

  ghost predicate BooksInv(b: Books) {
    Exclusion(b.leases) && HeldInv(b) && HistoryInv(b)
  }

  /** The stack an attempt has opened and not yet closed. */
  predicate Opened(l: Local, id: nat) {
    (l.attempt.HasGraph? || l.attempt.Unwinding?) && l.attempt.stack == id
  }

  predicate Owns(l: Local, id: nat) {
    l.frames != [] && l.frames[0] == Owned(id)
  }

  ghost predicate IdsInv(s: State) {
    && s.opener.Keys == s.books.stacks.Keys
    && s.owners.Keys <= s.books.stacks.Keys
  }

  /** Who answers for a stack: its opener while trying or inside, else a transferee. */
  ghost predicate StackInv(s: State, i: nat)
    requires i in s.books.stacks && i in s.opener
  {
    var a := s.opener[i];
    if i in s.owners then
      && s.books.stacks[i] == (if s.owners[i].closed then {} else Covers(s.owners[i].token, i))
      && (!s.owners[i].transferred && !s.owners[i].closed ==> Owns(At(s, a), i))
    else
      s.books.stacks[i] == {} || Opened(At(s, a), i)
  }

  ghost predicate Hands(fs: seq<Frame>) {
    exists k :: 0 <= k < |fs| && fs[k].Handing?
  }

  /** A thread inside a block never tries to acquire, and every block of its
      chain carries the token of the outermost one. */
  ghost predicate ChainInv(s: State, a: Actor)
    requires IdsInv(s)
  {
    var fs := At(s, a).frames;
    fs != [] ==>
      && At(s, a).attempt.Quiet?
      && fs[0].id in s.owners
      && (fs[0].Owned? || fs[0].Installed?)
      && (forall k :: 1 <= k < |fs| ==> (fs[k].Nested? || fs[k].Handing?) && fs[k].id == fs[0].id)
      && (fs[0].Owned? ==> s.opener[fs[0].id] == a)
      && (fs[0].Installed? || s.owners[fs[0].id].closed || Hands(fs) ==> s.owners[fs[0].id].transferred)
  }

  ghost predicate AttemptInv(s: State, a: Actor)
    requires IdsInv(s)
  {
    var t := At(s, a).attempt;
    && (t.HasGraph? || t.Unwinding? ==> t.stack in s.opener && s.opener[t.stack] == a && t.stack !in s.owners)
    && (t.HasGraph? ==> t.req.graph.Some? && s.books.stacks[t.stack] == AsSet(FirstLease(Grant(t.req), t.stack)))
    && (!t.Quiet? ==> !Malformed(t.req))
  }

  ghost predicate Inv(s: State) {
    && BooksInv(s.books) && IdsInv(s)
    && (forall i :: i in s.books.stacks ==> StackInv(s, i))
    && (forall a :: ChainInv(s, a) && AttemptInv(s, a))
  }

  lemma InitInv(s: State)
    requires Init(s)
    ensures Inv(s)
  {
  }

  lemma TakeHistory(b: Books, l: Lease)
    requires HistoryInv(b) && l.stack in b.stacks && l !in b.acquired
    requires forall m :: b.released[m] > 0 ==> m.stack != l.stack
    ensures HistoryInv(Take(b, l))
  {
    var b' := Take(b, l);
    assert b'.released == b.released && b.released[l] == 0;
  }

  lemma TakeBooks(b: Books, l: Lease)
    requires BooksInv(b) && l.stack in b.stacks && l !in b.acquired && Available(b.leases, l.path, l.exclusive)
    requires forall m :: b.released[m] > 0 ==> m.stack != l.stack
    ensures BooksInv(Take(b, l))
  {
    hide HistoryInv;
    TakeHistory(b, l);
  }

  lemma NewStackBooks(b: Books)
    requires BooksInv(b)
    ensures BooksInv(NewStack(b)) && forall l :: l in b.acquired || b.released[l] > 0 ==> l.stack != b.next
  {
  }

  lemma CloseStackBooks(b: Books, id: nat)
    requires BooksInv(b)
    ensures BooksInv(CloseStack(b, id))
  {
    if id in b.stacks {
      var b' := CloseStack(b, id);
      assert forall l :: b'.released[l] == b.released[l] + if l in b.stacks[id] then 1 else 0;
      assert forall l :: l in b'.leases <==> l in b.leases && l.stack != id;
    }
  }

  /** The second lease of an attempt was never taken before. */
  lemma SecondIsFresh(s: State, a: Actor)
    requires BooksInv(s.books) && IdsInv(s) && AttemptInv(s, a) && At(s, a).attempt.HasGraph?
    requires SecondLease(Grant(At(s, a).attempt.req), At(s, a).attempt.stack).Some?
    ensures SecondLease(Grant(At(s, a).attempt.req), At(s, a).attempt.stack).value !in s.books.acquired
    ensures forall m :: s.books.released[m] > 0 ==> m.stack != At(s, a).attempt.stack
  {
    var l := At(s, a).attempt;
    var first, second := FirstLease(Grant(l.req), l.stack).value, SecondLease(Grant(l.req), l.stack).value;
    assert first in s.books.stacks[l.stack] && second !in s.books.stacks[l.stack];
  }

  /** What one step changes: thread a, stack i and its owner, and nothing else. */
  ghost predicate OnlyAt(s: State, s': State, a: Actor, i: nat) {
    && (forall b :: b != a ==> At(s', b) == At(s, b))
    && (forall j :: j != i ==>
          && (j in s'.books.stacks <==> j in s.books.stacks)
          && (j in s'.opener <==> j in s.opener)
          && (j in s'.owners <==> j in s.owners))
    && (forall j :: j != i && j in s.books.stacks ==> s'.books.stacks[j] == s.books.stacks[j])
    && (forall j :: j != i && j in s.opener ==> s'.opener[j] == s.opener[j])
    && (forall j :: j != i && j in s.owners ==> s'.owners[j] == s.owners[j])
    && (i in s.opener ==> i in s'.opener && s'.opener[i] == s.opener[i])
    && (i in s.owners ==> i in s'.owners && (s.owners[i].transferred ==> s'.owners[i].transferred))
  }

  /** The step keeps what the invariant says about everything but thread a and stack i. */
  lemma Assemble(s: State, s': State, a: Actor, i: nat)
    requires Inv(s) && OnlyAt(s, s', a, i) && IdsInv(s') && BooksInv(s'.books)
    requires i in s.opener ==> s.opener[i] == a || (i in s.owners && s.owners[i].transferred)
    requires forall j :: j != i && Owns(At(s, a), j) ==> Owns(At(s', a), j)
    requires forall j :: j != i && Opened(At(s, a), j) ==> Opened(At(s', a), j)
    requires ChainInv(s', a) && AttemptInv(s', a)
    requires i in s'.books.stacks ==> StackInv(s', i)
    ensures Inv(s')
  {
    hide BooksInv;
    forall b | b != a ensures ChainInv(s', b) && AttemptInv(s', b) {
      assert ChainInv(s, b) && AttemptInv(s, b) && At(s', b) == At(s, b);
    }
    forall j | j != i && j in s'.books.stacks ensures StackInv(s', j) {
      assert StackInv(s, j);
    }
  }

  lemma BeginKeeps(s: State, a: Actor, req: Request)
    requires Inv(s) && At(s, a).attempt.Quiet?
    ensures Inv(DoBegin(s, a, req))
  {
    hide BooksInv, Nestable, StackInv;
    var s' := DoBegin(s, a, req);
    assert ChainInv(s, a) && AttemptInv(s, a);
    if s' != s {
      if At(s, a).frames != [] {
        ChainGrows(s, s', a, Nested(Top(At(s, a).frames).id));
      }
      NextIsNew(s.books);
      Assemble(s, s', a, s.books.next);
    }
  }

  lemma ChainGrows(s: State, s': State, a: Actor, f: Frame)
    requires IdsInv(s) && IdsInv(s') && ChainInv(s, a) && At(s, a).frames != []
    requires At(s', a) == At(s, a).(frames := At(s, a).frames + [f])
    requires f.id == Top(At(s, a).frames).id && (f.Nested? || f.Handing?)
    requires s'.opener == s.opener && f.id in s'.owners
    requires s'.owners[f.id].closed ==> s'.owners[f.id].transferred
    requires s.owners[At(s, a).frames[0].id].transferred || f.Handing? ==> s'.owners[f.id].transferred
    ensures ChainInv(s', a)
  {
    var fs, fs' := At(s, a).frames, At(s', a).frames;
    assert Top(fs).id == fs[0].id;
    if Hands(fs') && !f.Handing? {
      var k :| 0 <= k < |fs'| && fs'[k].Handing?;
      assert fs[k].Handing?;
    }
  }

  /** The outermost block is left last. */
  lemma ChainShrinks(s: State, s': State, a: Actor)
    requires IdsInv(s) && IdsInv(s') && ChainInv(s, a) && At(s, a).frames != []
    requires At(s', a) == At(s, a).(frames := At(s, a).frames[..|At(s, a).frames| - 1])
    requires s'.opener == s.opener && s'.owners.Keys == s.owners.Keys
    requires var o, o' := s.owners[At(s, a).frames[0].id], s'.owners[At(s, a).frames[0].id];
      (o.transferred ==> o'.transferred) && (o'.closed && |At(s, a).frames| > 1 ==> o'.transferred)
    ensures ChainInv(s', a)
  {
    var fs, fs' := At(s, a).frames, At(s', a).frames;
    if Hands(fs') {
      var k :| 0 <= k < |fs'| && fs'[k].Handing?;
      assert fs[k].Handing?;
    }
  }

  /** A try opens its stack first. */
  function Opening(s: State, a: Actor, req: Request, raising: bool): (s': State) {
    Put(s.(books := NewStack(s.books), opener := s.opener[s.books.next := a]), a,
        Local([], Unwinding(req, s.books.next, raising)))
  }

  lemma OpeningKeeps(s: State, a: Actor, raising: bool)
    requires Inv(s) && At(s, a).attempt.Trying?
    ensures Inv(Opening(s, a, At(s, a).attempt.req, raising))
  {
    hide BooksInv;
    var id, s' := s.books.next, Opening(s, a, At(s, a).attempt.req, raising);
    assert ChainInv(s, a) && AttemptInv(s, a);
    NewStackBooks(s.books);
    NextIsNew(s.books);
    Assemble(s, s', a, id);
  }

  /** Taking the graph lease onto the open, empty stack. */
  lemma TakeGraphKeeps(s: State, a: Actor, b': Books)
    requires Inv(s) && At(s, a).attempt.Unwinding? && At(s, a).attempt.req.graph.Some?
    requires BooksInv(b')
    requires var t := At(s, a).attempt;
      b'.stacks == s.books.stacks[t.stack := AsSet(FirstLease(Grant(t.req), t.stack))]
    ensures var t := At(s, a).attempt; Inv(Put(s.(books := b'), a, Local([], HasGraph(t.req, t.stack))))
  {
    hide BooksInv;
    var t := At(s, a).attempt;
    assert ChainInv(s, a) && AttemptInv(s, a);
    Assemble(s, Put(s.(books := b'), a, Local([], HasGraph(t.req, t.stack))), a, t.stack);
  }

  /** All leases taken: the stack gets its owner. */
  lemma AdmittedKeeps(s: State, a: Actor, b': Books)
    requires Inv(s) && (At(s, a).attempt.Unwinding? || At(s, a).attempt.HasGraph?)
    requires BooksInv(b')
    requires var t := At(s, a).attempt;
      b'.stacks == s.books.stacks[t.stack := Covers(Grant(t.req), t.stack)]
    ensures var t := At(s, a).attempt; Inv(Admitted(s.(books := b'), a, t.req, t.stack))
  {
    hide BooksInv, Covers;
    var t := At(s, a).attempt;
    assert ChainInv(s, a) && AttemptInv(s, a);
    Assemble(s, Admitted(s.(books := b'), a, t.req, t.stack), a, t.stack);
  }

  lemma TryFirstKeeps(s: State, a: Actor, broken: bool)
    requires Inv(s) && At(s, a).attempt.Trying?
    ensures Inv(DoTryFirst(s, a, At(s, a).attempt.req, broken))
  {
    hide Inv, BooksInv, Available, Grant;
    var req, id := At(s, a).attempt.req, s.books.next;
    var first := FirstLease(Grant(req), id);
    OpeningKeeps(s, a, broken);
    var s1 := Opening(s, a, req, broken);
    if !broken && first.Some? && Available(s.books.leases, first.value.path, first.value.exclusive) {
      assert BooksInv(s.books) by { InvBooks(s); }
      NewStackBooks(s.books);
      TakeBooks(NewStack(s.books), first.value);
      var b' := Take(NewStack(s.books), first.value);
      assert s1.books.stacks[id] + {first.value} == {first.value};
      GrantKeepsPaths(req, id);
      if req.graph.Some? {
        TakeGraphKeeps(s1, a, b');
        assert s1.actors[a := Local([], HasGraph(req, id))] == s.actors[a := Local([], HasGraph(req, id))];
      } else {
        AdmittedKeeps(s1, a, b');
        assert s1.actors[a := Local([Owned(id)], Quiet)] == s.actors[a := Local([Owned(id)], Quiet)];
      }
    }
  }

  lemma GrantKeepsPaths(req: Request, id: nat)
    ensures Grant(req).graph == req.graph && Grant(req).cache == req.cache
    ensures req.graph.None? ==> Covers(Grant(req), id) == AsSet(FirstLease(Grant(req), id))
    ensures req.graph.Some? ==>
      Covers(Grant(req), id) == AsSet(FirstLease(Grant(req), id)) + AsSet(SecondLease(Grant(req), id))
  {
  }

  lemma InvBooks(s: State)
    requires Inv(s)
    ensures BooksInv(s.books) && IdsInv(s)
  {
  }

  lemma NextIsNew(b: Books)
    requires BooksInv(b)
    ensures b.next !in b.stacks
  {
  }

  lemma GiveBackKeeps(s: State, a: Actor, raising: bool)
    requires Inv(s) && At(s, a).attempt.HasGraph?
    ensures var t := At(s, a).attempt; Inv(Put(s, a, Local([], Unwinding(t.req, t.stack, raising))))
  {
    hide BooksInv;
    var t := At(s, a).attempt;
    assert ChainInv(s, a) && AttemptInv(s, a) && StackInv(s, t.stack);
    Assemble(s, Put(s, a, Local([], Unwinding(t.req, t.stack, raising))), a, t.stack);
  }

  lemma TryCacheKeeps(s: State, a: Actor, broken: bool)
    requires Inv(s) && At(s, a).attempt.HasGraph?
    ensures Inv(DoTryCache(s, a, At(s, a).attempt.req, At(s, a).attempt.stack, broken))
  {
    hide Inv, BooksInv, Available, Grant, Covers;
    var req, id := At(s, a).attempt.req, At(s, a).attempt.stack;
    assert BooksInv(s.books) && IdsInv(s) by { InvBooks(s); }
    assert AttemptInv(s, a) by { InvAttempt(s, a); }
    var second := SecondLease(Grant(req), id);
    GrantKeepsPaths(req, id);
    assert s.books.stacks[id] == AsSet(FirstLease(Grant(req), id));
    if second.None? {
      assert Covers(Grant(req), id) == s.books.stacks[id];
      assert s.books.stacks[id := Covers(Grant(req), id)] == s.books.stacks;
      AdmittedKeeps(s, a, s.books);
      assert s.(books := s.books) == s;
    } else if !broken && Available(s.books.leases, second.value.path, second.value.exclusive) {
      SecondIsFresh(s, a);
      TakeBooks(s.books, second.value);
      AdmittedKeeps(s, a, Take(s.books, second.value));
    } else {
      GiveBackKeeps(s, a, broken);
    }
  }

  lemma InvAttempt(s: State, a: Actor)
    requires Inv(s)
    ensures IdsInv(s) && AttemptInv(s, a)
  {
  }

  lemma UnwindKeeps(s: State, a: Actor)
    requires Inv(s) && At(s, a).attempt.Unwinding?
    ensures Inv(DoUnwind(s, a, At(s, a).attempt))
  {
    hide BooksInv;
    var s' := DoUnwind(s, a, At(s, a).attempt);
    assert ChainInv(s, a) && AttemptInv(s, a) && StackInv(s, At(s, a).attempt.stack);
    CloseStackBooks(s.books, At(s, a).attempt.stack);
    Assemble(s, s', a, At(s, a).attempt.stack);
  }

  lemma QuietKeeps(s: State, a: Actor, next: Attempt)
    requires Inv(s) && At(s, a).attempt.Waiting?
    requires next == Quiet || next == Trying(At(s, a).attempt.req)
    ensures Inv(Put(s, a, Local([], next)))
  {
    hide BooksInv, StackInv;
    assert ChainInv(s, a) && AttemptInv(s, a);
    NextIsNew(s.books);
    Assemble(s, Put(s, a, Local([], next)), a, s.books.next);
  }

  /** Closing a stack a second time does nothing. */
  lemma CloseTwice(b: Books, id: nat)
    ensures CloseStack(CloseStack(b, id), id) == CloseStack(b, id)
  {
  }

  /** An owner is closed by the thread leaving its outermost block, or, once
      transferred, by whoever ends the transfer. */
  lemma CloseKeeps(s: State, s': State, a: Actor)
    requires Inv(s) && At(s, a).frames != []
    requires var id := Top(At(s, a).frames).id;
      && id in s.owners && !s.owners[id].closed
      && (s.owners[id].transferred || (|At(s, a).frames| == 1 && At(s, a).frames[0].Owned?))
      && s'.books.stacks == s.books.stacks[id := {}]
      && s'.owners == s.owners[id := s.owners[id].(closed := true)]
    requires BooksInv(s'.books) && s'.opener == s.opener && s'.actors == Pop(s, a).actors
    ensures Inv(s')
  {
    hide BooksInv, Covers;
    var id := Top(At(s, a).frames).id;
    assert ChainInv(s, a) && AttemptInv(s, a) && StackInv(s, id);
    ChainShrinks(s, s', a);
    Assemble(s, s', a, id);
  }

  lemma CloseOwnerKeeps(s: State, a: Actor)
    requires Inv(s) && At(s, a).frames != []
    requires var id := Top(At(s, a).frames).id;
      && id in s.owners && !s.owners[id].closed
      && (s.owners[id].transferred || (|At(s, a).frames| == 1 && At(s, a).frames[0].Owned?))
    ensures Inv(CloseOwner(Pop(s, a), Top(At(s, a).frames).id))
  {
    hide Inv, BooksInv;
    assert BooksInv(s.books) && IdsInv(s) by { InvBooks(s); }
    CloseStackBooks(s.books, Top(At(s, a).frames).id);
    CloseKeeps(s, CloseOwner(Pop(s, a), Top(At(s, a).frames).id), a);
  }

  /** Leaving a block whose leases stay: it was nested, or they were transferred. */
  lemma PopOnlyKeeps(s: State, a: Actor)
    requires Inv(s) && At(s, a).frames != []
    requires |At(s, a).frames| > 1 ||
      (Top(At(s, a).frames).id in s.owners && s.owners[Top(At(s, a).frames).id].transferred)
    ensures Inv(Pop(s, a))
  {
    hide BooksInv;
    assert ChainInv(s, a) && AttemptInv(s, a);
    var id := Top(At(s, a).frames).id;
    assert StackInv(s, id);
    ChainShrinks(s, Pop(s, a), a);
    Assemble(s, Pop(s, a), a, id);
  }

  lemma LeaveKeeps(s: State, a: Actor, raised: bool)
    requires Inv(s) && Enabled(s, Leave(a, raised))
    ensures Inv(DoLeave(s, a, raised))
  {
    hide BooksInv, StackInv, AttemptInv, CloseStack;
    assert ChainInv(s, a);
    var f := Top(At(s, a).frames);
    if f.Nested? || s.owners[f.id].transferred {
      PopOnlyKeeps(s, a);
    } else {
      CloseOwnerKeeps(s, a);
      CloseTwice(s.books, f.id);
    }
  }

  lemma CloseTransferredKeeps(s: State, a: Actor, close: bool)
    requires Inv(s) && At(s, a).frames != []
    requires Top(At(s, a).frames).Handing? || (Top(At(s, a).frames).Installed? && !close)
    ensures Inv(if close then CloseOwner(Pop(s, a), Top(At(s, a).frames).id) else Pop(s, a))
  {
    hide BooksInv, StackInv, AttemptInv, CloseStack;
    assert ChainInv(s, a);
    var f := Top(At(s, a).frames);
    assert f.Handing? ==> Hands(At(s, a).frames);
    if close && !s.owners[f.id].closed {
      CloseOwnerKeeps(s, a);
    } else {
      PopOnlyKeeps(s, a);
    }
  }

  lemma TransfereeKeeps(s: State, a: Actor, id: nat)
    requires Inv(s) && id in s.owners && s.owners[id].transferred
    ensures Inv(CloseOwner(s, id))
  {
    hide Inv, BooksInv, CloseStack;
    if !s.owners[id].closed {
      assert BooksInv(s.books) && IdsInv(s) by { InvBooks(s); }
      assert ChainInv(s, a) && AttemptInv(s, a) by { InvThread(s, a); }
      CloseStackBooks(s.books, id);
      var s' := CloseOwner(s, id);
      ClosedStack(s.books, id);
      TransfereeChain(s, s', a, id);
      Assemble(s, s', a, id);
    }
  }

  lemma ClosedStack(b: Books, id: nat)
    requires id in b.stacks
    ensures CloseStack(b, id).stacks == b.stacks[id := {}]
  {
  }

  lemma InvThread(s: State, a: Actor)
    requires Inv(s)
    ensures IdsInv(s) && ChainInv(s, a) && AttemptInv(s, a)
  {
  }

  lemma TransfereeChain(s: State, s': State, a: Actor, id: nat)
    requires IdsInv(s) && ChainInv(s, a) && AttemptInv(s, a)
    requires id in s.owners && s.owners[id].transferred
    requires s'.owners == s.owners[id := s.owners[id].(closed := true)] && s'.actors == s.actors
    requires s'.opener == s.opener && s'.books.stacks == s.books.stacks[id := {}]
    ensures IdsInv(s') && ChainInv(s', a) && AttemptInv(s', a)
  {
  }

  lemma TransferKeeps(s: State, a: Actor)
    requires Inv(s) && At(s, a).frames != []
    ensures Inv(DoTransfer(s, a))
  {
    hide BooksInv;
    var id, s' := Top(At(s, a).frames).id, DoTransfer(s, a);
    assert ChainInv(s, a) && AttemptInv(s, a) && StackInv(s, id);
    if s' != s {
      ChainGrows(s, s', a, Handing(id));
      Assemble(s, s', a, id);
    }
  }

  lemma InstallKeeps(s: State, a: Actor, id: nat)
    requires Inv(s) && Enabled(s, Install(a, id))
    ensures Inv(Put(s, a, Local([Installed(id)], Quiet)))
  {
    hide BooksInv, StackInv;
    NextIsNew(s.books);
    Assemble(s, Put(s, a, Local([Installed(id)], Quiet)), a, s.books.next);
  }

  lemma StepKeepsInv(s: State, x: Action)
    requires Inv(s) && Enabled(s, x)
    ensures Inv(Apply(s, x))
  {
    hide Inv, DoBegin, DoTryFirst, DoTryCache, DoUnwind, DoLeave, DoTransfer, CloseOwner, Pop, Put;
    match x {
      case Begin(_, _) => BeginKeeps(s, x.a, x.req);
      case TryFirst(_, _) => TryFirstKeeps(s, x.a, x.broken);
      case TryCache(_, _) => TryCacheKeeps(s, x.a, x.broken);
      case Unwind(_) => UnwindKeeps(s, x.a);
      case Retry(_) => QuietKeeps(s, x.a, Trying(At(s, x.a).attempt.req));
      case GiveUp(_) => QuietKeeps(s, x.a, Quiet);
      case Leave(_, _) => LeaveKeeps(s, x.a, x.raised);
      case Transfer(_) => TransferKeeps(s, x.a);
      case EndTransfer(_, _) => CloseTransferredKeeps(s, x.a, x.raised);
      case Install(_, _) => InstallKeeps(s, x.a, x.id);
      case Finish(_) => CloseTransferredKeeps(s, x.a, false);
      case CloseLeases(_, _) => TransfereeKeeps(s, x.a, x.id);
    }
  }

  lemma {:induction false} RunKeepsInv(s: State, run: seq<Action>)
    requires Inv(s) && Legal(s, run)
    ensures Inv(Exec(s, run))
    decreases |run|
  {
    hide Inv, Enabled, Apply;
    if run != [] {
      StepKeepsInv(s, run[0]);
      RunKeepsInv(Apply(s, run[0]), run[1..]);
    }
  }

  ghost predicate Reachable(s: State) {
    exists s0, run :: Init(s0) && Legal(s0, run) && Exec(s0, run) == s
  }

  lemma ReachableInv(s: State)
    requires Reachable(s)
    ensures Inv(s)
  {
    hide Init, Inv, Legal;
    var s0, run :| Init(s0) && Legal(s0, run) && Exec(s0, run) == s;
    InitInv(s0);
    RunKeepsInv(s0, run);
  }

  // ----- What every interleaving keeps -----

  /** An exclusive lease on a file excludes every other lease on it. */
  lemma ExclusiveExcludes(s: State, l: Lease, m: Lease)
    requires Reachable(s)
    requires l in s.books.leases && m in s.books.leases && l.path == m.path && l.exclusive
    ensures l == m
  {
    hide Reachable, StackInv, ChainInv, AttemptInv;
    ReachableInv(s);
  }

  /** Two admitted blocks whose tokens overlap, one of them exclusively there,
      are blocks of one admission. */
  lemma AdmittedBlocksExclude(s: State, a: Actor, b: Actor)
    requires Reachable(s) && At(s, a).frames != [] && At(s, b).frames != []
    requires var i, j := Top(At(s, a).frames).id, Top(At(s, b).frames).id;
      && i in s.owners && j in s.owners && !s.owners[i].closed && !s.owners[j].closed
      && Clash(s.owners[i].token, s.owners[j].token)
    ensures Top(At(s, a).frames).id == Top(At(s, b).frames).id
  {
    hide Reachable, ChainInv, AttemptInv;
    ReachableInv(s);
    var i, j := Top(At(s, a).frames).id, Top(At(s, b).frames).id;
    assert StackInv(s, i) && StackInv(s, j);
    var t, u := s.owners[i].token, s.owners[j].token;
    var l, m := Clashing(t, u, i, j);
    ExclusiveExcludes(s, l, m);
  }

  /** The tokens name a file in common, and one of them holds it exclusively. */
  ghost predicate Clash(t: Token, u: Token) {
    exists l, m :: l in Covers(t, 0) && m in Covers(u, 0) && l.path == m.path && l.exclusive
  }

  lemma Clashing(t: Token, u: Token, i: nat, j: nat) returns (l: Lease, m: Lease)
    requires Clash(t, u)
    ensures l in Covers(t, i) && m in Covers(u, j) && l.path == m.path && l.exclusive
  {
    var l0, m0 :| l0 in Covers(t, 0) && m0 in Covers(u, 0) && l0.path == m0.path && l0.exclusive;
    l, m := l0.(stack := i), m0.(stack := j);
  }

  /** No hold and wait: a thread that is not inside a block and has no open try
      - in particular one about to sleep, retry or raise - holds no lease that
      it has not transferred; and a thread inside a block is never trying. */
  lemma NoHoldAndWait(s: State, a: Actor)
    requires Reachable(s)
    ensures At(s, a).frames != [] ==> At(s, a).attempt.Quiet?
    ensures At(s, a).frames == [] && !At(s, a).attempt.HasGraph? && !At(s, a).attempt.Unwinding? ==>
      forall l :: l in s.books.leases ==>
        l.stack in s.opener && (s.opener[l.stack] == a ==> l.stack in s.owners && s.owners[l.stack].transferred)
  {
    hide Reachable;
    ReachableInv(s);
    assert ChainInv(s, a);
    if At(s, a).frames == [] && !At(s, a).attempt.HasGraph? && !At(s, a).attempt.Unwinding? {
      forall l | l in s.books.leases
        ensures l.stack in s.opener && (s.opener[l.stack] == a ==> l.stack in s.owners && s.owners[l.stack].transferred)
      {
        assert StackInv(s, l.stack);
      }
    }
  }

  /** A partly acquired lease is never waited on: its holder's next step is
      always enabled, whatever others do, and then it is inside or letting go;
      letting go, too, is always enabled and leaves nothing held. */
  lemma PartialHoldersProceed(s: State, a: Actor, broken: bool)
    requires Reachable(s)
    ensures At(s, a).attempt.HasGraph? ==>
      && Enabled(s, TryCache(a, broken))
      && var l := At(Apply(s, TryCache(a, broken)), a); l.frames != [] || l.attempt.Unwinding?
    ensures At(s, a).attempt.Unwinding? ==>
      && Enabled(s, Unwind(a))
      && var s' := Apply(s, Unwind(a)); forall l :: l in s'.books.leases ==> l.stack != At(s, a).attempt.stack
  {
    hide Reachable, StackInv, ChainInv, AttemptInv;
    ReachableInv(s);
  }

  /** Nobody holds a file the request names. */
  ghost predicate FilesFree(s: State, req: Request) {
    forall l :: l in s.books.leases ==> Some(l.path) != req.graph && Some(l.path) != req.cache
  }

  ghost predicate AdmittedWith(s: State, a: Actor, id: nat, t: Token) {
    && At(s, a).frames == [Owned(id)]
    && id in s.owners && s.owners[id] == Owner(t, false, false)
    && Covers(t, id) <= s.books.leases
  }

  // ----- What a try takes, file by file -----

  /** A thread just admitted under `id` with this token, its leases beside the earlier ones. */
  ghost predicate JustAdmitted(s: State, s': State, a: Actor, id: nat, t: Token, taken: set<Lease>) {
    && At(s', a) == Local([Owned(id)], Quiet)
    && id in s'.owners && s'.owners[id] == Owner(t, false, false)
    && s'.books.leases == s.books.leases + taken
  }

  /** The first try takes the graph file in the mode asked for, or with no graph
      the cache file, exclusively if either mode asks for that; it does so exactly
      when every lease held there allows it, and takes nothing else. */
  lemma TryFirstTakes(s: State, a: Actor)
    requires Reachable(s) && At(s, a).attempt.Trying?
    ensures var req, id, s' := At(s, a).attempt.req, s.books.next, Apply(s, TryFirst(a, false));
      if req.graph.Some? then
        if forall l :: l in s.books.leases && l.path == req.graph.value ==> !l.exclusive && !req.exclusive then
          && At(s', a) == Local([], HasGraph(req, id))
          && s'.books.leases == s.books.leases + {Lease(req.graph.value, req.exclusive, id)}
        else At(s', a) == Local([], Unwinding(req, id, false)) && s'.books.leases == s.books.leases
      else
        && req.cache.Some?
        && var mode := req.exclusive || req.cacheExclusive;
        if forall l :: l in s.books.leases && l.path == req.cache.value ==> !l.exclusive && !mode then
          JustAdmitted(s, s', a, id, Token(None, req.cache, req.claim, false, mode), {Lease(req.cache.value, mode, id)})
        else At(s', a) == Local([], Unwinding(req, id, false)) && s'.books.leases == s.books.leases
  {
    assert !Malformed(At(s, a).attempt.req) by { TriesAreWellFormed(s, a); }
    hide Reachable;
  }

  lemma TriesAreWellFormed(s: State, a: Actor)
    requires Reachable(s) && At(s, a).attempt.Trying?
    ensures !Malformed(At(s, a).attempt.req)
  {
    hide Reachable, StackInv, ChainInv, BooksInv;
    ReachableInv(s);
    assert AttemptInv(s, a);
  }

  /** The second takes the cache file, if there is one, in its own mode. */
  lemma TryCacheTakes(s: State, a: Actor)
    requires Reachable(s) && At(s, a).attempt.HasGraph?
    ensures var req, id, s' := At(s, a).attempt.req, At(s, a).attempt.stack, Apply(s, TryCache(a, false));
      var t := Token(req.graph, req.cache, req.claim, req.exclusive, req.cacheExclusive);
      if req.cache.None? then JustAdmitted(s, s', a, id, t, {})
      else if forall l :: l in s.books.leases && l.path == req.cache.value ==> !l.exclusive && !req.cacheExclusive
      then JustAdmitted(s, s', a, id, t, {Lease(req.cache.value, req.cacheExclusive, id)})
      else At(s', a) == Local([], Unwinding(req, id, false)) && s'.books.leases == s.books.leases
  {
    hide Reachable, StackInv, ChainInv, BooksInv;
    ReachableInv(s);
    assert AttemptInv(s, a);
  }

  /** A lock call that raises takes nothing, and unwinds to raising. */
  lemma BrokenTryUnwinds(s: State, a: Actor)
    requires Reachable(s)
    ensures At(s, a).attempt.Trying? ==>
      var s' := Apply(s, TryFirst(a, true));
      s'.books.leases == s.books.leases && At(s', a).attempt.Unwinding? && At(s', a).attempt.raising
    ensures At(s, a).attempt.HasGraph? && At(s, a).attempt.req.cache.Some? ==>
      var s' := Apply(s, TryCache(a, true));
      s'.books.leases == s.books.leases && At(s', a).attempt.Unwinding? && At(s', a).attempt.raising
  {
    hide Reachable, StackInv, ChainInv, BooksInv;
    ReachableInv(s);
    assert AttemptInv(s, a);
  }

  /** What lets a request on one file in. */
  ghost predicate Lets(leases: set<Lease>, path: Path, exclusive: bool) {
    forall l :: l in leases && l.path == path ==> !l.exclusive && !exclusive
  }

  /** A whole try for graph and cache: both files are taken in the modes asked
      for exactly when both allow it; otherwise, once the try is unwound, the
      lock files are as they were and the thread is about to wait. */
  lemma WholeTryIff(s: State, a: Actor)
    requires Reachable(s) && At(s, a).attempt.Trying?
    requires At(s, a).attempt.req.graph.Some? && At(s, a).attempt.req.cache.Some?
    ensures var req, id, s1 := At(s, a).attempt.req, s.books.next, Apply(s, TryFirst(a, false));
      var ok1, ok2 := Lets(s.books.leases, req.graph.value, req.exclusive),
                      Lets(s.books.leases, req.cache.value, req.cacheExclusive);
      if ok1 then
        && Enabled(s1, TryCache(a, false))
        && var s2 := Apply(s1, TryCache(a, false));
        if ok2 then
          JustAdmitted(s, s2, a, id, Token(req.graph, req.cache, req.claim, req.exclusive, req.cacheExclusive),
                       {Lease(req.graph.value, req.exclusive, id), Lease(req.cache.value, req.cacheExclusive, id)})
        else
          && Enabled(s2, Unwind(a)) && At(Apply(s2, Unwind(a)), a) == Local([], Waiting(req))
          && Apply(s2, Unwind(a)).books.leases == s.books.leases
      else
        && Enabled(s1, Unwind(a)) && At(Apply(s1, Unwind(a)), a) == Local([], Waiting(req))
        && Apply(s1, Unwind(a)).books.leases == s.books.leases
  {
    var req, id, s1 := At(s, a).attempt.req, s.books.next, Apply(s, TryFirst(a, false));
    FirstTry(s, a);
    TriesAreEnabled(s1, a);
    hide Reachable, Apply, Enabled, Malformed, Lets;
    if Lets(s.books.leases, req.graph.value, req.exclusive) {
      SecondTry(s.books.leases, s1, a);
      if !Lets(s.books.leases, req.cache.value, req.cacheExclusive) {
        GivesBack(s.books.leases, Apply(s1, TryCache(a, false)), a);
      }
    } else {
      GivesBack(s.books.leases, s1, a);
    }
  }

  /** What a new stack `id` has beside the leases held before it. */
  ghost predicate Beside(s: State, base: set<Lease>, id: nat) {
    && Reachable(s) && base <= s.books.leases
    && (forall l :: l in base ==> l.stack != id) && (forall l :: l in s.books.leases - base ==> l.stack == id)
  }

  lemma FirstTry(s: State, a: Actor)
    requires Reachable(s) && At(s, a).attempt.Trying? && At(s, a).attempt.req.graph.Some?
    ensures var req, id, s1 := At(s, a).attempt.req, s.books.next, Apply(s, TryFirst(a, false));
      && Beside(s1, s.books.leases, id)
      && (req.cache.Some? ==> req.cache != req.graph)
      && if Lets(s.books.leases, req.graph.value, req.exclusive)
         then At(s1, a) == Local([], HasGraph(req, id))
              && s1.books.leases == s.books.leases + {Lease(req.graph.value, req.exclusive, id)}
         else At(s1, a) == Local([], Unwinding(req, id, false))
  {
    TryFirstTakes(s, a);
    TriesAreEnabled(s, a);
    NewStackIsUnused(s);
    OtherFile(s, a);
    ReachableStep(s, TryFirst(a, false));
    hide Reachable, Apply, Enabled;
  }

  lemma SecondTry(base: set<Lease>, s: State, a: Actor)
    requires At(s, a).attempt.HasGraph? && Beside(s, base, At(s, a).attempt.stack)
    requires var req := At(s, a).attempt.req; req.graph.Some? && req.cache.Some? && req.cache != req.graph
    requires var req := At(s, a).attempt.req;
      s.books.leases == base + {Lease(req.graph.value, req.exclusive, At(s, a).attempt.stack)}
    ensures var req, id, s2 := At(s, a).attempt.req, At(s, a).attempt.stack, Apply(s, TryCache(a, false));
      && Beside(s2, base, id)
      && if Lets(base, req.cache.value, req.cacheExclusive)
         then JustAdmitted(s, s2, a, id, Token(req.graph, req.cache, req.claim, req.exclusive, req.cacheExclusive),
                           {Lease(req.cache.value, req.cacheExclusive, id)})
         else At(s2, a) == Local([], Unwinding(req, id, false)) && s2.books.leases == s.books.leases
  {
    TryCacheTakes(s, a);
    TriesAreEnabled(s, a);
    ReachableStep(s, TryCache(a, false));
    hide Reachable, Apply, Enabled;
  }

  lemma GivesBack(base: set<Lease>, s: State, a: Actor)
    requires At(s, a).attempt.Unwinding? && !At(s, a).attempt.raising && Beside(s, base, At(s, a).attempt.stack)
    ensures Enabled(s, Unwind(a))
    ensures At(Apply(s, Unwind(a)), a) == Local([], Waiting(At(s, a).attempt.req))
    ensures Apply(s, Unwind(a)).books.leases == base
  {
    UnwindGivesBack(s, a);
  }

  /** The graph lease does not stand in the way of the cache lease. */
  lemma OtherFile(s: State, a: Actor)
    requires Reachable(s) && At(s, a).attempt.Trying?
    ensures var req := At(s, a).attempt.req;
      req.graph.Some? && req.cache.Some? ==> req.graph.value != req.cache.value
  {
    TriesAreWellFormed(s, a);
  }

  lemma TriesAreEnabled(s: State, a: Actor)
    ensures At(s, a).attempt.Trying? ==> Enabled(s, TryFirst(a, false))
    ensures At(s, a).attempt.HasGraph? ==> Enabled(s, TryCache(a, false))
  {
  }

  /** Unwinding a try gives back exactly what its stack took, and then the thread
      raises if the lock call did, else waits. */
  lemma UnwindGivesBack(s: State, a: Actor)
    requires Reachable(s) && At(s, a).attempt.Unwinding?
    ensures Enabled(s, Unwind(a))
    ensures var t, s' := At(s, a).attempt, Apply(s, Unwind(a));
      && At(s', a) == Local([], if t.raising then Quiet else Waiting(t.req))
      && s'.books.leases == set l | l in s.books.leases && l.stack != t.stack
  {
    assert HeldInv(s.books) by { ReachableBooks(s); }
    hide Reachable;
    var t := At(s, a).attempt;
    if t.stack in s.books.stacks {
      assert forall l :: l in s.books.stacks[t.stack] <==> l in s.books.leases && l.stack == t.stack;
    }
  }

  lemma NewStackIsUnused(s: State)
    requires Reachable(s)
    ensures forall l :: l in s.books.leases ==> l.stack != s.books.next
  {
    ReachableBooks(s);
  }

  lemma ReachableBooks(s: State)
    requires Reachable(s)
    ensures HeldInv(s.books)
  {
    hide Reachable, StackInv, ChainInv, AttemptInv;
    ReachableInv(s);
  }

  lemma {:induction false} ExecSnoc(s: State, run: seq<Action>, x: Action)
    requires Legal(s, run) && Enabled(Exec(s, run), x)
    ensures Legal(s, run + [x]) && Exec(s, run + [x]) == Apply(Exec(s, run), x)
    decreases |run|
  {
    hide Enabled, Apply;
    if run == [] {
      assert Legal(Apply(s, x), []);
    } else {
      ExecSnoc(Apply(s, run[0]), run[1..], x);
      assert (run + [x])[1..] == run[1..] + [x];
    }
  }

  lemma ReachableStep(s: State, x: Action)
    requires Reachable(s) && Enabled(s, x)
    ensures Reachable(Apply(s, x))
  {
    hide Enabled, Apply, Init;
    var s0, run :| Init(s0) && Legal(s0, run) && Exec(s0, run) == s;
    ExecSnoc(s0, run, x);
  }

  /** Shared requests never keep each other out: with only shared leases on its
      files, a request that asks for nothing exclusively is admitted. */
  lemma SharedRequestsCoexist(s: State, a: Actor)
    requires Reachable(s) && At(s, a).attempt.Trying?
    requires var req := At(s, a).attempt.req; !req.exclusive && !req.cacheExclusive
    requires forall l :: l in s.books.leases && Some(l.path) == At(s, a).attempt.req.graph ==> !l.exclusive
    requires forall l :: l in s.books.leases && Some(l.path) == At(s, a).attempt.req.cache ==> !l.exclusive
    ensures var req, s1 := At(s, a).attempt.req, Apply(s, TryFirst(a, false));
      if req.graph.None? then At(s1, a) == Local([Owned(s.books.next)], Quiet)
      else Enabled(s1, TryCache(a, false)) &&
           At(Apply(s1, TryCache(a, false)), a) == Local([Owned(s.books.next)], Quiet)
  {
    TryFirstTakes(s, a);
    var req, s1 := At(s, a).attempt.req, Apply(s, TryFirst(a, false));
    if req.graph.Some? {
      assert Enabled(s, TryFirst(a, false)) by { TriesAreEnabled(s, a); }
      ReachableStep(s, TryFirst(a, false));
      OtherFile(s, a);
      TryCacheTakes(s1, a);
      TriesAreEnabled(s1, a);
    }
  }

  /** A try against free lock files is admitted, with exactly what it asked for. */
  lemma FreeFilesAdmit(s: State, a: Actor)
    requires Reachable(s) && At(s, a).attempt.Trying? && FilesFree(s, At(s, a).attempt.req)
    ensures var req, s1 := At(s, a).attempt.req, Apply(s, TryFirst(a, false));
      if req.graph.None? then
        AdmittedWith(s1, a, s.books.next, Token(None, req.cache, req.claim, false, req.exclusive || req.cacheExclusive))
      else
        && Enabled(s1, TryCache(a, false))
        && AdmittedWith(Apply(s1, TryCache(a, false)), a, s.books.next,
                        Token(req.graph, req.cache, req.claim, req.exclusive, req.cacheExclusive))
  {
    hide Reachable, StackInv, ChainInv, BooksInv;
    ReachableInv(s);
    assert AttemptInv(s, a);
    var req, id := At(s, a).attempt.req, s.books.next;
    GrantKeepsPaths(req, id);
    var s1 := DoTryFirst(s, a, req, false);
    assert Available(s.books.leases, FirstLease(Grant(req), id).value.path, FirstLease(Grant(req), id).value.exclusive);
    if req.graph.Some? && req.cache.Some? {
      var second := SecondLease(Grant(req), id).value;
      assert Available(s1.books.leases, second.path, second.exclusive);
    }
  }

  /** A body runs under every lease of its token, nested bodies included,
      until the leases are closed; and before it leaves they are closed only
      if it transferred them. */
  lemma BodiesAreCovered(s: State, a: Actor)
    requires Reachable(s) && At(s, a).frames != []
    ensures forall k :: 0 <= k < |At(s, a).frames| ==>
      var id := At(s, a).frames[k].id;
      && id in s.owners
      && (s.owners[id].closed ==> s.owners[id].transferred)
      && (!s.owners[id].closed ==> Covers(s.owners[id].token, id) <= s.books.leases)
  {
    hide Reachable, AttemptInv, Covers;
    ReachableInv(s);
    assert ChainInv(s, a);
    var id := At(s, a).frames[0].id;
    assert StackInv(s, id);
    forall k | 0 <= k < |At(s, a).frames| ensures At(s, a).frames[k].id == id {
    }
  }

  /** Every lease ever taken is either held now or was released exactly once. */
  lemma ReleasedExactlyOnce(s: State, l: Lease)
    requires Reachable(s)
    ensures l in s.books.acquired ==> s.books.released[l] == if l in s.books.leases then 0 else 1
    ensures l !in s.books.acquired ==> l !in s.books.leases && s.books.released[l] == 0
  {
    hide Reachable, StackInv, ChainInv, AttemptInv;
    ReachableInv(s);
  }

  /** A nested request never touches a lock file or an owner. It is granted
      exactly when it names some file, not one twice, the files are those of the
      current token, and the token states what it states and no weaker mode. */
  lemma NestingTakesNothing(s: State, a: Actor, req: Request)
    requires Reachable(s) && At(s, a).frames != []
    ensures var id := Top(At(s, a).frames).id;
      && Enabled(s, Begin(a, req)) && id in s.owners
      && var s', t := Apply(s, Begin(a, req)), s.owners[id].token;
      && s'.books == s.books && s'.owners == s.owners
      && At(s', a) ==
           if WellFormed(req) && t.graph == req.graph && t.cache == req.cache
              && (req.exclusive ==> t.exclusive) && (req.cacheExclusive ==> t.cacheExclusive)
              && StatesNothingElse(req.claim, t.claim)
           then Local(At(s, a).frames + [Nested(id)], Quiet) else At(s, a)
  {
    hide Reachable, StackInv, AttemptInv, BooksInv;
    ReachableInv(s);
    assert ChainInv(s, a);
  }

  /** Outside every block a request is tried exactly when it names some file, and not one twice. */
  lemma BeginTries(s: State, a: Actor, req: Request)
    requires At(s, a).frames == [] && Enabled(s, Begin(a, req))
    ensures var s' := Apply(s, Begin(a, req));
      && s'.books == s.books && s'.owners == s.owners
      && At(s', a) == if WellFormed(req) then Local([], Trying(req)) else At(s, a)
  {
  }

  /** Some file, and not one file twice. */
  predicate WellFormed(req: Request) {
    match (req.graph, req.cache)
    case (None, None) => false
    case (Some(g), Some(c)) => g != c
    case _ => true
  }

  /** Filling the parts a claim leaves open from the other gives the other. */
  predicate StatesNothingElse(c: Claim, t: Claim) {
    t == Claim(
      if c.model.Some? then c.model else t.model,
      if c.dim.Some? then c.dim else t.dim,
      if c.vecDim.Some? then c.vecDim else t.vecDim,
      if c.epoch.Some? then c.epoch else t.epoch,
      if c.supervisor.Some? then c.supervisor else t.supervisor,
      if c.generation.Some? then c.generation else t.generation)
  }

  /** A transfer works once, inside a block whose leases are still its own: the
      leases stay held, and leaving the block no longer releases them. */
  lemma TransferOutlivesTheBlock(s: State, a: Actor, id: nat, raised: bool)
    requires Reachable(s) && At(s, a).frames == [Owned(id)] && id in s.owners && !s.owners[id].transferred
    ensures
      && Enabled(s, Transfer(a))
      && var s1 := Apply(s, Transfer(a));
      && Enabled(s1, EndTransfer(a, false)) && Enabled(s1, Transfer(a)) && Apply(s1, Transfer(a)) == s1
      && var s2 := Apply(s1, EndTransfer(a, false));
      && Enabled(s2, Leave(a, raised))
      && var s3 := Apply(s2, Leave(a, raised));
      && At(s3, a).frames == [] && id in s3.owners && s3.owners[id].transferred && !s3.owners[id].closed
      && s3.books.leases == s.books.leases && Covers(s3.owners[id].token, id) <= s3.books.leases
  {
    hide Reachable, AttemptInv, BooksInv, Covers;
    BodiesAreCovered(s, a);
    ReachableInv(s);
    assert ChainInv(s, a) && StackInv(s, id);
    assert At(s, a).frames[0].id == id && !s.owners[id].closed;
  }

  /** What a token stands for on the lock files: each file it names, in its mode. */
  lemma CoversMeans(t: Token, id: nat, l: Lease)
    ensures l in Covers(t, id) <==>
      || (t.graph.Some? && l == Lease(t.graph.value, t.exclusive, id))
      || (t.cache.Some? && l == Lease(t.cache.value, t.cacheExclusive, id))
  {
  }

  /** Once transferred, leases go when the transferee closes the owner, or when
      the block that hands them over raises: then exactly its token's leases, and
      only once. Leaving an installed block takes nothing away. */
  lemma TransfereeReleases(s: State, a: Actor, id: nat)
    requires Reachable(s) && id in s.owners && s.owners[id].transferred
    ensures Enabled(s, CloseLeases(a, id))
    ensures var s' := Apply(s, CloseLeases(a, id));
      && id in s'.owners && s'.owners[id] == s.owners[id].(closed := true) && s'.actors == s.actors
      && s'.books.leases == s.books.leases - if s.owners[id].closed then {} else Covers(s.owners[id].token, id)
    ensures Enabled(s, EndTransfer(a, true)) && Top(At(s, a).frames).id == id ==>
      Apply(s, EndTransfer(a, true)).books == Apply(s, CloseLeases(a, id)).books
    ensures Enabled(s, Finish(a)) ==> Apply(s, Finish(a)).books == s.books && Apply(s, Finish(a)).owners == s.owners
  {
    hide Reachable, AttemptInv, BooksInv, Covers;
    ReachableInv(s);
    assert id in s.books.stacks by { OwnersHaveStacks(s, id); }
    assert StackInv(s, id);
  }

  lemma OwnersHaveStacks(s: State, id: nat)
    requires Inv(s) && id in s.owners
    ensures id in s.books.stacks && id in s.opener
  {
  }

  /** Every block has one way out, always open to a thread that is not trying:
      an admitted or nested one is left, a handed-over one is ended, an installed
      one is finished; and each takes exactly the innermost block away. */
  lemma BlocksEnd(s: State, a: Actor, raised: bool)
    requires Reachable(s) && At(s, a).frames != []
    ensures var f, fs := Top(At(s, a).frames), At(s, a).frames[..|At(s, a).frames| - 1];
      && (Enabled(s, Leave(a, raised)) <==> f.Owned? || f.Nested?)
      && (Enabled(s, EndTransfer(a, raised)) <==> f.Handing?)
      && (Enabled(s, Finish(a)) <==> f.Installed?)
      && (f.Owned? || f.Nested? ==> At(Apply(s, Leave(a, raised)), a) == Local(fs, Quiet))
      && (f.Handing? ==> At(Apply(s, EndTransfer(a, raised)), a) == Local(fs, Quiet))
      && (f.Installed? ==> At(Apply(s, Finish(a)), a) == Local(fs, Quiet))
  {
    assert At(s, a).attempt.Quiet? by { NoHoldAndWait(s, a); }
    hide Reachable;
  }

  /** Leaving a nested block, or a block whose leases were transferred, releases
      nothing; leaving any other block releases exactly its token's leases. */
  lemma LeaveReleases(s: State, a: Actor, raised: bool)
    requires Reachable(s) && Enabled(s, Leave(a, raised))
    ensures var f, s' := Top(At(s, a).frames), Apply(s, Leave(a, raised));
      && f.id in s.owners
      && s'.books.leases == s.books.leases -
           (if f.Nested? || s.owners[f.id].transferred then {} else Covers(s.owners[f.id].token, f.id))
  {
    hide Reachable, AttemptInv, BooksInv, Covers;
    ReachableInv(s);
    assert ChainInv(s, a);
    var f := Top(At(s, a).frames);
    assert StackInv(s, f.id);
    CloseTwice(s.books, f.id);
  }
}
