/** The lease of module Profile is the graph file's lease of module Admission. */
module SharedFile {
  import A = Admission
  import P = Profile

  /** Operation o holds the lease its admission's stack `at[o]` took on file g,
      in its own mode, and nobody else holds one on g. */
  ghost predicate Mirrors(b: A.Books, g: A.Path, ops: map<nat, P.Op>, at: map<nat, nat>) {
    && (forall o :: o in at <==> o in ops && P.Holds(ops[o]))
    && (forall o, q :: o in at && q in at && at[o] == at[q] ==> o == q)
    && (forall o :: o in at ==> A.Lease(g, ops[o].exclusive, at[o]) in b.leases)
    && (forall l :: l in b.leases && l.path == g ==>
          exists o :: o in at && l == A.Lease(g, ops[o].exclusive, at[o]))
  }

  /** An operation may take the lease exactly when the lock file would give it. */
  lemma FreeIffAvailable(b: A.Books, g: A.Path, ops: map<nat, P.Op>, at: map<nat, nat>, exclusive: bool)
    requires Mirrors(b, g, ops, at)
    ensures P.LeaseFree(ops, exclusive) <==> A.Available(b.leases, g, exclusive)
  {
    if A.Available(b.leases, g, exclusive) {
      forall o | o in ops && P.Holds(ops[o]) ensures !exclusive && !ops[o].exclusive {
        assert A.Lease(g, ops[o].exclusive, at[o]) in b.leases;
      }
    }
  }

  // ----- Steps on the lock file -----

  /** One try of flock on file g by a new stack, or the closing of a stack. */
  datatype LockStep = TakeLease(exclusive: bool) | Close(stack: nat)

  predicate LockEnabled(b: A.Books, g: A.Path, x: LockStep) {
    x.TakeLease? ==> A.Available(b.leases, g, x.exclusive)
  }

  function LockApply(b: A.Books, g: A.Path, x: LockStep): (b': A.Books) {
    match x
    case TakeLease(exclusive) => A.Take(A.NewStack(b), A.Lease(g, exclusive, b.next))
    case Close(stack) => A.CloseStack(b, stack)
  }

  predicate LockLegal(b: A.Books, g: A.Path, steps: seq<LockStep>)
    decreases |steps|
  {
    steps == [] || (LockEnabled(b, g, steps[0]) && LockLegal(LockApply(b, g, steps[0]), g, steps[1..]))
  }

  function LockExec(b: A.Books, g: A.Path, steps: seq<LockStep>): (b': A.Books)
    decreases |steps|
  {
    if steps == [] then b else LockExec(LockApply(b, g, steps[0]), g, steps[1..])
  }

  lemma OneLockStep(b: A.Books, g: A.Path, x: LockStep)
    ensures LockLegal(b, g, [x]) <==> LockEnabled(b, g, x)
    ensures LockExec(b, g, [x]) == LockApply(b, g, x)
  {
    hide LockEnabled, LockApply;
    assert [x][1..] == [];
    assert LockLegal(LockApply(b, g, x), g, []) && LockExec(LockApply(b, g, x), g, []) == LockApply(b, g, x);
  }

  // ----- Step by step -----

  /** Acquire is a take by a new stack: enabled exactly when the file is
      available, and the two stay in step. */
  lemma AcquireIsTake(s: P.State, o: nat, b: A.Books, g: A.Path, at: map<nat, nat>)
    requires A.BooksInv(b) && Mirrors(b, g, s.ops, at) && P.At(s, o, P.Asking)
    ensures P.Enabled(s, P.Acquire(o)) <==> LockEnabled(b, g, TakeLease(s.ops[o].exclusive))
    ensures P.Enabled(s, P.Acquire(o)) ==>
      var b' := LockApply(b, g, TakeLease(s.ops[o].exclusive));
      A.BooksInv(b') && Mirrors(b', g, P.Apply(s, P.Acquire(o)).ops, at[o := b.next])
  {
    hide P.LeaseFree, A.Available;
    FreeIffAvailable(b, g, s.ops, at, s.ops[o].exclusive);
    if P.Enabled(s, P.Acquire(o)) {
      var l := A.Lease(g, s.ops[o].exclusive, b.next);
      StacksAreOld(b, g, s.ops, at);
      A.NewStackBooks(b);
      A.TakeBooks(A.NewStack(b), l);
      TakeMirrors(b, g, s.ops, at, o, b.next, P.Apply(s, P.Acquire(o)).ops, A.Take(A.NewStack(b), l));
    }
  }

  lemma StacksAreOld(b: A.Books, g: A.Path, ops: map<nat, P.Op>, at: map<nat, nat>)
    requires A.BooksInv(b) && Mirrors(b, g, ops, at)
    ensures b.next !in at.Values
  {
    forall o | o in at ensures at[o] < b.next {
      assert A.Lease(g, ops[o].exclusive, at[o]) in b.leases;
    }
  }

  lemma TakeMirrors(b: A.Books, g: A.Path, ops: map<nat, P.Op>, at: map<nat, nat>, o: nat, id: nat,
                    ops': map<nat, P.Op>, b': A.Books)
    requires Mirrors(b, g, ops, at) && o in ops && !P.Holds(ops[o]) && id !in at.Values
    requires b'.leases == b.leases + {A.Lease(g, ops[o].exclusive, id)}
    requires ops' == ops[o := ops[o].(phase := P.Entered)]
    ensures Mirrors(b', g, ops', at[o := id])
  {
    var at' := at[o := id];
    forall q | q in at ensures at'[q] == at[q] && ops'[q] == ops[q] && at[q] != id {
      assert at[q] in at.Values;
    }
    forall l | l in b'.leases && l.path == g
      ensures exists q :: q in at' && l == A.Lease(g, ops'[q].exclusive, at'[q])
    {
      if l in b.leases {
        var q :| q in at && l == A.Lease(g, ops[q].exclusive, at[q]);
        assert q in at';
      } else {
        assert o in at';
      }
    }
  }

  /** Closing an operation's stack gives back this lease alone. */
  lemma CloseMirrors(b: A.Books, g: A.Path, ops: map<nat, P.Op>, at: map<nat, nat>, o: nat)
    requires A.BooksInv(b) && Mirrors(b, g, ops, at) && o in at
    ensures var b' := A.CloseStack(b, at[o]); A.BooksInv(b') && Mirrors(b', g, ops - {o}, at - {o})
  {
    A.CloseStackBooks(b, at[o]);
    CloseTakesItsOwn(b, at[o]);
    hide A.BooksInv, A.CloseStack;
    DropMirrors(b, A.CloseStack(b, at[o]), g, ops, at, o);
  }

  lemma DropMirrors(b: A.Books, b': A.Books, g: A.Path, ops: map<nat, P.Op>, at: map<nat, nat>, o: nat)
    requires Mirrors(b, g, ops, at) && o in at
    requires forall l :: l in b'.leases <==> l in b.leases && l.stack != at[o]
    ensures Mirrors(b', g, ops - {o}, at - {o})
  {
    var ops', at' := ops - {o}, at - {o};
    forall q | q in at' ensures A.Lease(g, ops'[q].exclusive, at'[q]) in b'.leases {
      assert A.Lease(g, ops[q].exclusive, at[q]) in b.leases && at[q] != at[o];
    }
    forall l | l in b'.leases && l.path == g
      ensures exists q :: q in at' && l == A.Lease(g, ops'[q].exclusive, at'[q])
    {
      var q :| q in at && l == A.Lease(g, ops[q].exclusive, at[q]);
      assert q in at';
    }
  }

  lemma CloseTakesItsOwn(b: A.Books, id: nat)
    requires A.BooksInv(b)
    ensures forall l :: l in A.CloseStack(b, id).leases <==> l in b.leases && l.stack != id
  {
  }

  /** Leaving, also after a refused validation, is closing the stack. */
  lemma LeaveIsClose(s: P.State, x: P.Action, o: nat, b: A.Books, g: A.Path, at: map<nat, nat>)
    requires A.BooksInv(b) && Mirrors(b, g, s.ops, at) && P.Enabled(s, x)
    requires x == P.Leave(o) || (x == P.Validate(o) && o !in P.Apply(s, x).ops)
    ensures o in at
    ensures var b' := LockApply(b, g, Close(at[o]));
      A.BooksInv(b') && Mirrors(b', g, P.Apply(s, x).ops, at - {o})
  {
    hide A.BooksInv, A.CloseStack;
    assert o in at && P.Apply(s, x).ops == s.ops - {o};
    CloseMirrors(b, g, s.ops, at, o);
  }

  predicate ClosesOf(at: map<nat, nat>, gone: set<nat>, steps: seq<LockStep>) {
    forall k :: 0 <= k < |steps| ==> steps[k].Close? && exists o :: o in gone && o in at && at[o] == steps[k].stack
  }

  /** Any set of operations can be ended by closing their stacks, one after the other. */
  lemma {:induction false} CloseAll(b: A.Books, g: A.Path, ops: map<nat, P.Op>, at: map<nat, nat>, gone: set<nat>)
    returns (steps: seq<LockStep>)
    requires A.BooksInv(b) && Mirrors(b, g, ops, at)
    ensures LockLegal(b, g, steps) && ClosesOf(at, gone, steps)
    ensures var b' := LockExec(b, g, steps); A.BooksInv(b') && Mirrors(b', g, ops - gone, at - gone)
    decreases gone
  {
    hide A.BooksInv, A.CloseStack, Mirrors;
    if gone == {} {
      steps := [];
      assert ops - gone == ops && at - gone == at;
    } else {
      var o :| o in gone;
      var rest := gone - {o};
      assert ops - {o} - rest == ops - gone && at - {o} - rest == at - gone;
      if o in at {
        CloseMirrors(b, g, ops, at, o);
        var more := CloseAll(A.CloseStack(b, at[o]), g, ops - {o}, at - {o}, rest);
        steps := [Close(at[o])] + more;
        ClosesAfter(at, o, rest, more);
      } else {
        IdleMirrors(b, g, ops, at, o);
        assert at - {o} == at;
        steps := CloseAll(b, g, ops - {o}, at, rest);
      }
    }
  }

  lemma ClosesAfter(at: map<nat, nat>, o: nat, rest: set<nat>, more: seq<LockStep>)
    requires o in at && ClosesOf(at - {o}, rest, more)
    ensures ClosesOf(at, rest + {o}, [Close(at[o])] + more)
  {
  }

  lemma IdleMirrors(b: A.Books, g: A.Path, ops: map<nat, P.Op>, at: map<nat, nat>, o: nat)
    requires Mirrors(b, g, ops, at) && o !in at
    ensures Mirrors(b, g, ops - {o}, at)
  {
    KeepMirrors(b, g, ops, ops - {o}, at);
  }

  function OpsOf(s: P.State, p: P.Provider): (r: set<nat>) {
    set o | o in s.ops && s.ops[o].owner == p
  }

  /** A crash closes the stacks of the provider's operations, as the system does
      with the lock files of a dead process. */
  lemma CrashIsCloses(s: P.State, p: P.Provider, b: A.Books, g: A.Path, at: map<nat, nat>)
    returns (steps: seq<LockStep>)
    requires A.BooksInv(b) && Mirrors(b, g, s.ops, at) && P.Enabled(s, P.Crash(p))
    ensures LockLegal(b, g, steps) && ClosesOf(at, OpsOf(s, p), steps)
    ensures var b' := LockExec(b, g, steps);
      A.BooksInv(b') && Mirrors(b', g, P.Apply(s, P.Crash(p)).ops, at - OpsOf(s, p))
  {
    assert P.Apply(s, P.Crash(p)).ops == s.ops - OpsOf(s, p);
    steps := CloseAll(b, g, s.ops, at, OpsOf(s, p));
  }

  predicate MovesLease(s: P.State, x: P.Action)
    requires P.Enabled(s, x)
  {
    x.Acquire? || x.Leave? || x.Crash? || (x.Validate? && x.o !in P.Apply(s, x).ops)
  }

  lemma HolderStays(s: P.State, x: P.Action, o: nat)
    requires P.Enabled(s, x) && s.nextOp !in s.ops && !MovesLease(s, x)
    ensures var ops' := P.Apply(s, x).ops;
      && (o in ops' && P.Holds(ops'[o]) <==> o in s.ops && P.Holds(s.ops[o]))
      && (o in ops' && P.Holds(ops'[o]) ==> ops'[o].exclusive == s.ops[o].exclusive)
  {
    hide P.Accepts, P.LeaseFree;
  }

  /** Every other step moves no lease. */
  lemma OthersMoveNoLease(s: P.State, x: P.Action, b: A.Books, g: A.Path, at: map<nat, nat>)
    requires P.Inv(s) && P.Enabled(s, x) && Mirrors(b, g, s.ops, at) && !MovesLease(s, x)
    ensures Mirrors(b, g, P.Apply(s, x).ops, at)
  {
    assert s.nextOp !in s.ops by { NextIsNew(s); }
    hide P.Inv, P.Apply, P.Enabled, MovesLease;
    forall o ensures var ops' := P.Apply(s, x).ops;
      && (o in at <==> o in ops' && P.Holds(ops'[o]))
      && (o in at ==> ops'[o].exclusive == s.ops[o].exclusive)
    {
      HolderStays(s, x, o);
    }
    KeepMirrors(b, g, s.ops, P.Apply(s, x).ops, at);
  }

  lemma NextIsNew(s: P.State)
    requires P.Inv(s)
    ensures s.nextOp !in s.ops
  {
  }

  lemma KeepMirrors(b: A.Books, g: A.Path, ops: map<nat, P.Op>, ops': map<nat, P.Op>, at: map<nat, nat>)
    requires Mirrors(b, g, ops, at)
    requires forall o :: o in at <==> o in ops' && P.Holds(ops'[o])
    requires forall o :: o in at ==> ops'[o].exclusive == ops[o].exclusive
    ensures Mirrors(b, g, ops', at)
  {
    forall l | l in b.leases && l.path == g
      ensures exists o :: o in at && l == A.Lease(g, ops'[o].exclusive, at[o])
    {
      var o :| o in at && l == A.Lease(g, ops[o].exclusive, at[o]);
    }
  }

  // ----- Over every run -----

  /** What the lock file sees of a step: one take, one close, the closes of a
      crash, or nothing. */
  ghost predicate Answers(s: P.State, x: P.Action, at: map<nat, nat>, steps: seq<LockStep>)
    requires P.Enabled(s, x)
  {
    if !MovesLease(s, x) then steps == []
    else if x.Acquire? then steps == [TakeLease(s.ops[x.o].exclusive)]
    else if x.Crash? then ClosesOf(at, OpsOf(s, x.p), steps)
    else x.o in at && steps == [Close(at[x.o])]
  }

  lemma StepMirrors(s: P.State, x: P.Action, b: A.Books, g: A.Path, at: map<nat, nat>)
    returns (steps: seq<LockStep>, at': map<nat, nat>)
    requires P.Inv(s) && P.Enabled(s, x) && A.BooksInv(b) && Mirrors(b, g, s.ops, at)
    ensures LockLegal(b, g, steps) && Answers(s, x, at, steps)
    ensures var b' := LockExec(b, g, steps); A.BooksInv(b') && Mirrors(b', g, P.Apply(s, x).ops, at')
  {
    hide P.Inv, P.Apply, A.BooksInv, Mirrors, LockApply, LockEnabled, P.Accepts, P.LeaseFree;
    if !MovesLease(s, x) {
      OthersMoveNoLease(s, x, b, g, at);
      steps, at' := [], at;
    } else if x.Acquire? {
      AcquireIsTake(s, x.o, b, g, at);
      OneLockStep(b, g, TakeLease(s.ops[x.o].exclusive));
      steps, at' := [TakeLease(s.ops[x.o].exclusive)], at[x.o := b.next];
    } else if x.Crash? {
      steps := CrashIsCloses(s, x.p, b, g, at);
      at' := at - OpsOf(s, x.p);
    } else {
      LeaveIsClose(s, x, x.o, b, g, at);
      OneLockStep(b, g, Close(at[x.o]));
      CloseIsEnabled(b, g, at[x.o]);
      steps, at' := [Close(at[x.o])], at - {x.o};
    }
  }

  lemma CloseIsEnabled(b: A.Books, g: A.Path, id: nat)
    ensures LockEnabled(b, g, Close(id))
  {
  }

  /** `locks` are legal steps on the lock file beside the steps of `run`, and
      before and after every step of the run the two are in step. */
  ghost predicate Shadows(s: P.State, run: seq<P.Action>, b: A.Books, g: A.Path, at: map<nat, nat>,
                          locks: seq<seq<LockStep>>)
    requires P.Legal(s, run)
    decreases |run|
  {
    && Mirrors(b, g, s.ops, at) && |locks| == |run|
    && (run != [] ==>
        && LockLegal(b, g, locks[0]) && Answers(s, run[0], at, locks[0])
        && exists at' :: Shadows(P.Apply(s, run[0]), run[1..], LockExec(b, g, locks[0]), g, at', locks[1..]))
  }

  lemma {:induction false} RunMirrors(s: P.State, run: seq<P.Action>, b: A.Books, g: A.Path, at: map<nat, nat>)
    returns (locks: seq<seq<LockStep>>)
    requires P.Inv(s) && P.Legal(s, run) && A.BooksInv(b) && Mirrors(b, g, s.ops, at)
    ensures Shadows(s, run, b, g, at, locks)
    decreases |run|
  {
    hide P.Inv, P.Apply, P.Enabled, A.BooksInv, Mirrors, Answers, LockLegal, LockExec;
    if run == [] {
      locks := [];
    } else {
      var steps, at' := StepMirrors(s, run[0], b, g, at);
      P.StepKeepsInv(s, run[0]);
      var more := RunMirrors(P.Apply(s, run[0]), run[1..], LockExec(b, g, steps), g, at');
      locks := [steps] + more;
      assert locks[1..] == more;
    }
  }

  const NO_LEASES := A.Books({}, map[], {}, multiset{}, 0)

  /** Every run of the providers has a legal run of takes and closes on the graph
      file's lock beside it, and throughout the operations that hold the lease
      are those whose stacks hold one on the file, in their modes. */
  lemma RunIsShadowed(s: P.State, run: seq<P.Action>, g: A.Path) returns (locks: seq<seq<LockStep>>)
    requires P.Init(s) && P.Legal(s, run)
    ensures Shadows(s, run, NO_LEASES, g, map[], locks)
  {
    P.InitInv(s);
    hide P.Inv, P.Legal, Shadows;
    assert A.BooksInv(NO_LEASES) && Mirrors(NO_LEASES, g, s.ops, map[]);
    locks := RunMirrors(s, run, NO_LEASES, g, map[]);
  }
}
