/** The embedding supervisor's process slot (embedding_process.py), as steps of
    all threads of all supervisors in one process.

    Each _terminate is one step, and so is each check followed by the release it
    guards. The request lock is taken and given back in separate steps; the
    fields it does not protect (_closed, _process, _reaping, _close_waiting) are
    read and written by any thread. Threads at the same place are alike, so a
    supervisor counts how many of its threads are where. */
module Supervisor {
  import opened Graph

  /** Where the request that holds the lock is. */
  datatype Request =
    | NoRequest
    | Checking             // lock taken, nothing looked at
    | Launching            // past the checks, about to spawn the child
    | Launched             // child assigned, _closed check due
    | Handshaking
    | FailedStart(retryable: bool)  // start failed, retry decision due
    | Serving
    | Finishing            // about to give the lock back

  datatype Lock = Free | ByRequest | ByCloser | ByFinisher

  /** How many other threads are where. */
  datatype Crew = Crew(
    closeWait: nat,        // close(): _closed set, waiting for the request lock
    closeCheck: nat,       // lock had and given back, release check due
    timedOut: nat,         // _close_waiting set, terminate without the lock due
    spawning: nat,         // about to start the clean-up thread
    afterRequest: nat,     // a request gave the lock back, _close_waiting check due
    finWait: nat,          // _finish_close_after_request, waiting for the lock
    finCheck: nat,         // lock had and given back, release check due
    reapTail: nat)         // child reaped, _closed check due

  /** The child and its reaper. */
  datatype Kid = Kid(
    process: Option<nat>,
    live: set<nat>,          // children that nobody has reaped
    reaping: bool,
    reapers: multiset<nat>)  // threads waiting for these children to exit

  /** Giving up the slot, and the callbacks waiting for that. */
  datatype Callbacks = Callbacks(
    released: bool,        // gave the slot up
    swapping: nat,         // threads that gave it up, callback swap due
    calling: nat,          // threads running the swapped callbacks
    event: bool,           // _owner_released
    pending: set<nat>,     // registered
    batch: set<nat>,       // swapped out, being run
    ran: multiset<nat>,
    next: nat)

  datatype Sup = Sup(
    canRetry: bool,        // a CPU retry is still allowed
    kid: Kid,
    closed: bool,
    closeWaiting: bool,
    request: Request,
    lock: Lock,
    crew: Crew,
    calls: Callbacks,
    mishap: bool)          // a reaper or a request thread could not be started

  datatype State = State(owner: Option<nat>, sups: map<nat, Sup>, nextSup: nat, nextChild: nat)

  predicate Init(s: State) {
    s.owner == None && s.sups == map[]
  }

  function NewSup(canRetry: bool): (p: Sup) {
    Sup(canRetry, Kid(None, {}, false, multiset{}), false, false, NoRequest, Free,
        Crew(0, 0, 0, 0, 0, 0, 0, 0), Callbacks(false, 0, 0, false, {}, {}, multiset{}, 0), false)
  }

  datatype Outcome = Reaped | TimedOut | NoReaper

  /** _terminate: the child is reaped in time, handed to a reaper, or kept
      because no reaper could be started. */
  function Terminate(k: Kid, o: Outcome): (k': Kid) {
    if k.reaping || k.process.None? then k
    else match o
      case Reaped => k.(process := None, live := k.live - {k.process.value})
      case TimedOut => k.(reaping := true, reapers := k.reapers + multiset{k.process.value})
      case NoReaper => k
  }

  predicate Stuck(k: Kid, o: Outcome) {
    !k.reaping && k.process.Some? && o.NoReaper?
  }

  function TerminateKid(p: Sup, o: Outcome): (p': Sup) {
    p.(kid := Terminate(p.kid, o), mishap := p.mishap || Stuck(p.kid, o))
  }

  datatype Action =
    | Claim(retry: bool)
    | Register(i: nat)
    | BeginRequest(i: nat)
    | Check(i: nat, encode: bool, busy: bool)
    | RequestThreadFails(i: nat)
    | Launch(i: nat, fails: bool)
    | CheckClosed(i: nat, o: Outcome)
    | Greet(i: nat, ok: bool, onCpu: bool, retryable: bool, o: Outcome)
    | DecideRetry(i: nat)
    | Serve(i: nat, ok: bool, o: Outcome)
    | Unlock(i: nat)
    | AfterUnlock(i: nat)
    | Close(i: nat)
    | CloseGetsLock(i: nat)
    | CloseTimesOut(i: nat)
    | CloseTerminates(i: nat, o: Outcome)
    | CloseJudges(i: nat)
    | TimedOutTerminates(i: nat, o: Outcome)
    | SpawnFinisher(i: nat, ok: bool)
    | FinisherGetsLock(i: nat)
    | FinisherTerminates(i: nat, o: Outcome)
    | FinisherJudges(i: nat)
    | Reap(i: nat, child: nat)
    | ReapEnds(i: nat)
    | SwapCallbacks(i: nat)
    | RunCallback(i: nat, c: nat)
    | EndCallbacks(i: nat)

  predicate LocalEnabled(p: Sup, x: Action) {
    match x
    case Claim(_) => false
    case Register(_) => true
    case BeginRequest(_) => p.lock.Free?
    case Check(_, _, _) => p.request.Checking?
    case RequestThreadFails(_) => p.request.Checking?
    case Launch(_, _) => p.request.Launching?
    case CheckClosed(_, _) => p.request.Launched?
    case Greet(_, _, _, _, _) => p.request.Handshaking?
    case DecideRetry(_) => p.request.FailedStart?
    case Serve(_, _, _) => p.request.Serving?
    case Unlock(_) => p.request.Finishing?
    case AfterUnlock(_) => p.crew.afterRequest > 0
    case Close(_) => true
    case CloseGetsLock(_) => p.crew.closeWait > 0 && p.lock.Free?
    case CloseTimesOut(_) => p.crew.closeWait > 0 && !p.lock.Free?
    case CloseTerminates(_, _) => p.lock.ByCloser?
    case CloseJudges(_) => p.crew.closeCheck > 0
    case TimedOutTerminates(_, _) => p.crew.timedOut > 0
    case SpawnFinisher(_, _) => p.crew.spawning > 0
    case FinisherGetsLock(_) => p.crew.finWait > 0 && p.lock.Free?
    case FinisherTerminates(_, _) => p.lock.ByFinisher?
    case FinisherJudges(_) => p.crew.finCheck > 0
    case Reap(_, child) => child in p.kid.reapers
    case ReapEnds(_) => p.crew.reapTail > 0
    case SwapCallbacks(_) => p.calls.swapping > 0
    case RunCallback(_, c) => p.calls.calling > 0 && c in p.calls.batch
    case EndCallbacks(_) => p.calls.calling > 0 && p.calls.batch == {}
  }

  predicate Enabled(s: State, x: Action) {
    x.Claim? || (x.i in s.sups && LocalEnabled(s.sups[x.i], x))
  }

  /** _release_owner's first part: only the slot's owner (`mine`) gives it up. */
  function Release(c: Callbacks, mine: bool): (c': Callbacks) {
    if mine then c.(released := true, swapping := c.swapping + 1) else c
  }

  function Judge(p: Sup, mine: bool): (c: Callbacks) {
    if !p.kid.reaping && p.kid.process.None? then Release(p.calls, mine) else p.calls
  }

  function DoRequest(p: Sup, x: Action, child: nat): (p': Sup)
    requires LocalEnabled(p, x)
  {
    var k := p.kid;
    match x
    case BeginRequest(_) => p.(lock := ByRequest, request := Checking)
    case Check(_, encode, busy) =>
      if (encode && (p.closed || k.reaping)) || (k.process.None? && (p.closed || k.reaping || busy))
      then p.(request := Finishing)
      else if k.process.None? then p.(request := Launching)
      else p.(request := if encode then Serving else Finishing)
    case RequestThreadFails(_) => p.(lock := Free, request := NoRequest, mishap := true)
    case Launch(_, fails) =>
      if fails then p.(request := FailedStart(true))
      else p.(kid := k.(process := Some(child), live := k.live + {child}), request := Launched)
    case CheckClosed(_, o) =>
      if p.closed then TerminateKid(p, o).(request := FailedStart(false)) else p.(request := Handshaking)
    case Greet(_, ok, onCpu, retryable, o) =>
      if ok then p.(canRetry := p.canRetry && !onCpu, request := Serving)
      else TerminateKid(p, o).(request := FailedStart(retryable))
    case DecideRetry(_) =>
      if p.request.retryable && p.canRetry && !k.reaping && k.process.None?
      then p.(canRetry := false, request := Launching)
      else p.(request := Finishing)
    case Serve(_, ok, o) =>
      if ok then p.(request := Finishing) else TerminateKid(p, o).(canRetry := false, request := Finishing)
    case Unlock(_) => p.(lock := Free, request := NoRequest, crew := p.crew.(afterRequest := p.crew.afterRequest + 1))
    case _ => p
  }

  function DoClose(p: Sup, x: Action, mine: bool): (p': Sup)
    requires LocalEnabled(p, x)
  {
    var w := p.crew;
    match x
    case AfterUnlock(_) =>
      p.(crew := w.(afterRequest := w.afterRequest - 1, finWait := w.finWait + if p.closeWaiting then 1 else 0))
    case Close(_) => p.(closed := true, crew := w.(closeWait := w.closeWait + 1))
    case CloseGetsLock(_) => p.(lock := ByCloser, crew := w.(closeWait := w.closeWait - 1))
    case CloseTimesOut(_) =>
      p.(closeWaiting := true, crew := w.(closeWait := w.closeWait - 1, timedOut := w.timedOut + 1))
    case CloseTerminates(_, o) => TerminateKid(p, o).(lock := Free, crew := w.(closeCheck := w.closeCheck + 1))
    case CloseJudges(_) => p.(calls := Judge(p, mine), crew := w.(closeCheck := w.closeCheck - 1))
    case TimedOutTerminates(_, o) =>
      TerminateKid(p, o).(crew := w.(timedOut := w.timedOut - 1, spawning := w.spawning + 1))
    case SpawnFinisher(_, ok) =>
      if ok then p.(crew := w.(spawning := w.spawning - 1, finWait := w.finWait + 1))
      else p.(crew := w.(spawning := w.spawning - 1), lock := if p.lock.Free? then ByFinisher else p.lock)
    case FinisherGetsLock(_) => p.(lock := ByFinisher, crew := w.(finWait := w.finWait - 1))
    case FinisherTerminates(_, o) => TerminateKid(p, o).(lock := Free, crew := w.(finCheck := w.finCheck + 1))
    case FinisherJudges(_) => p.(closeWaiting := false, calls := Judge(p, mine), crew := w.(finCheck := w.finCheck - 1))
    case _ => p
  }

  /** _reap: the child is waited for and forgotten, and only then is _closed looked at. */
  function DoReap(p: Sup, x: Action, mine: bool): (p': Sup)
    requires LocalEnabled(p, x)
  {
    var k, w := p.kid, p.crew;
    match x
    case Reap(_, child) =>
      p.(kid := Kid(None, k.live - {child}, false, k.reapers - multiset{child}),
         crew := w.(reapTail := w.reapTail + 1))
    case ReapEnds(_) =>
      p.(crew := w.(reapTail := w.reapTail - 1), calls := if p.closed then Release(p.calls, mine) else p.calls)
    case _ => p
  }

  function DoCall(c: Callbacks, x: Action): (c': Callbacks)
    requires x.SwapCallbacks? ==> c.swapping > 0
    requires x.EndCallbacks? ==> c.calling > 0
  {
    match x
    case Register(_) =>
      if c.event then c.(ran := c.ran + multiset{c.next}, next := c.next + 1)
      else c.(pending := c.pending + {c.next}, next := c.next + 1)
    case SwapCallbacks(_) =>
      c.(event := true, batch := c.batch + c.pending, pending := {}, swapping := c.swapping - 1,
         calling := c.calling + 1)
    case RunCallback(_, k) => c.(batch := c.batch - {k}, ran := c.ran + multiset{k})
    case EndCallbacks(_) => c.(calling := c.calling - 1)
    case _ => c
  }

  predicate IsReap(x: Action) {
    x.Reap? || x.ReapEnds?
  }

  predicate IsCall(x: Action) {
    x.Register? || x.SwapCallbacks? || x.RunCallback? || x.EndCallbacks?
  }

  predicate IsRequest(x: Action) {
    x.BeginRequest? || x.Check? || x.RequestThreadFails? || x.Launch? || x.CheckClosed? || x.Greet? || x.DecideRetry?
    || x.Serve? || x.Unlock?
  }

  /** What one step makes of its supervisor; `child` is the id a new child would get. */
  function Next(p: Sup, x: Action, child: nat, mine: bool): (p': Sup)
    requires LocalEnabled(p, x)
  {
    if IsRequest(x) then DoRequest(p, x, child)
    else if IsReap(x) then DoReap(p, x, mine)
    else if IsCall(x) then p.(calls := DoCall(p.calls, x))
    else DoClose(p, x, mine)
  }

  function Apply(s: State, x: Action): (s': State)
    requires Enabled(s, x)
  {
    if x.Claim? then
      if s.owner.Some? then s  // raises
      else s.(owner := Some(s.nextSup), sups := s.sups[s.nextSup := NewSup(x.retry)], nextSup := s.nextSup + 1)
    else
      var p := s.sups[x.i];
      var p' := Next(p, x, s.nextChild, s.owner == Some(x.i));
      s.(sups := s.sups[x.i := p'],
         owner := if p'.calls.released && !p.calls.released then None else s.owner,
         nextChild := s.nextChild + 1)
  }

  predicate Legal(s: State, run: seq<Action>)
    decreases |run|
  {
    run == [] || (Enabled(s, run[0]) && Legal(Apply(s, run[0]), run[1..]))
  }

  function Exec(s: State, run: seq<Action>): (s': State)
    requires Legal(s, run)
    decreases |run|
  {
    if run == [] then s else Exec(Apply(s, run[0]), run[1..])
  }

  // ----- What one supervisor keeps -----

  /** A thread will still terminate the child, or pass the duty on. */
  predicate ChildDue(p: Sup) {
    || p.crew.closeWait > 0 || p.crew.timedOut > 0 || p.crew.finWait > 0
    || p.lock.ByCloser? || p.lock.ByFinisher?
  }

  predicate TerminateDue(p: Sup) {
    ChildDue(p) || p.crew.spawning > 0
  }

  predicate JudgeDue(p: Sup) {
    p.crew.closeCheck > 0 || p.crew.finCheck > 0
  }

  ghost predicate ChildInv(k: Kid) {
    && k.live == (if k.process.Some? then {k.process.value} else {})
    && (k.reaping ==> k.process.Some?)
    && k.reapers == (if k.reaping then multiset{k.process.value} else multiset{})
  }

  /** Once a closer has had the lock, every later request is refused. */
  ghost predicate CloseInv(p: Sup) {
    && (p.lock.ByRequest? <==> !p.request.NoRequest?)
    && (p.request.Launching? ==> p.kid.process.None?)
    && (p.closeWaiting || TerminateDue(p) || JudgeDue(p) ==> p.closed)
    && (p.lock.ByCloser? || p.lock.ByFinisher? || JudgeDue(p) ==>
          p.request.NoRequest? || p.request.Checking? || p.request.Finishing?)
  }

  /** A request that gives the lock back will start the clean-up. */
  predicate RequestWillFinish(p: Sup) {
    p.closeWaiting && (p.lock.ByRequest? || p.crew.afterRequest > 0)
  }

  /** A reaper will give the slot up, or it is given up. */
  predicate SlotSettled(p: Sup) {
    p.calls.released || p.kid.reaping || p.crew.reapTail > 0
  }

  /** Unless a reaper or request thread could not be started, somebody answers
      for a closed supervisor's child, and for its slot. */
  ghost predicate DutyInv(p: Sup) {
    !p.mishap ==>
      && (JudgeDue(p) ==> p.kid.process.None? || p.kid.reaping)
      && (p.closed && p.kid.process.Some? && !p.kid.reaping ==> p.request.Launched? || ChildDue(p))
      && (p.crew.timedOut > 0 || p.crew.spawning > 0 ==> p.closeWaiting || SlotSettled(p))
      && (p.closed ==> TerminateDue(p) || JudgeDue(p) || RequestWillFinish(p) || SlotSettled(p))
  }

  /** Every callback is waiting, in the batch, or has run once. */
  ghost predicate CountInv(c: Callbacks) {
    forall k: nat ::
      (if k in c.pending then 1 else 0) + (if k in c.batch then 1 else 0) + c.ran[k] == if k < c.next then 1 else 0
  }

  ghost predicate CallInv(c: Callbacks) {
    && CountInv(c)
    && (c.event ==> c.pending == {} && c.released)
    && (c.batch != {} ==> c.calling > 0)
    && c.swapping == (if c.released && !c.event then 1 else 0)
    && (!c.event ==> c.batch == {} && c.ran == multiset{})
  }

  ghost predicate LocalInv(p: Sup) {
    ChildInv(p.kid) && CloseInv(p) && DutyInv(p) && CallInv(p.calls)
  }

  lemma NewSupInv(canRetry: bool)
    ensures LocalInv(NewSup(canRetry))
  {
  }

  /** What a terminate leaves: no child, a child with its reaper, or a mishap. */
  lemma TerminateKeeps(k: Kid, o: Outcome)
    requires ChildInv(k)
    ensures var k' := Terminate(k, o);
      && ChildInv(k')
      && (k'.process.None? || k'.reaping || Stuck(k, o))
      && (k.process.None? || k.reaping ==> k' == k)
  {
  }

  lemma LaunchKeeps(k: Kid, child: nat)
    requires ChildInv(k) && k.process.None?
    ensures ChildInv(k.(process := Some(child), live := k.live + {child}))
  {
  }

  lemma ReleaseKeeps(c: Callbacks, mine: bool)
    requires CallInv(c) && mine == !c.released
    ensures CallInv(Release(c, mine)) && Release(c, mine).released
  {
  }

  /** A request that terminates its child and moves to its last phases. */
  lemma RequestGivesUp(p: Sup, o: Outcome, canRetry: bool, request: Request)
    requires LocalInv(p) && (p.request.Launched? || p.request.Handshaking? || p.request.Serving?)
    requires request.FailedStart? || request.Finishing?
    ensures LocalInv(TerminateKid(p, o).(canRetry := canRetry, request := request))
  {
    hide ChildInv, CallInv, Terminate, Stuck;
    TerminateKeeps(p.kid, o);
  }

  lemma RequestTerminates(p: Sup, x: Action, child: nat)
    requires LocalInv(p) && LocalEnabled(p, x) && (x.CheckClosed? || x.Greet? || x.Serve?)
    ensures LocalInv(DoRequest(p, x, child))
  {
    hide ChildInv, CallInv, TerminateKid;
    match x {
      case CheckClosed(_, o) => RequestGivesUp(p, o, p.canRetry, FailedStart(false));
      case Greet(_, _, _, retryable, o) => RequestGivesUp(p, o, p.canRetry, FailedStart(retryable));
      case Serve(_, _, o) => RequestGivesUp(p, o, false, Finishing);
    }
  }

  lemma RequestLaunches(p: Sup, x: Action, child: nat)
    requires LocalInv(p) && LocalEnabled(p, x) && (x.Launch? || x.DecideRetry?)
    ensures LocalInv(DoRequest(p, x, child))
  {
    hide ChildInv, CallInv;
    if x.Launch? {
      LaunchKeeps(p.kid, child);
    }
  }

  lemma RequestMovesOn(p: Sup, x: Action, child: nat)
    requires LocalInv(p) && LocalEnabled(p, x) && (x.BeginRequest? || x.Check? || x.RequestThreadFails? || x.Unlock?)
    ensures LocalInv(DoRequest(p, x, child))
  {
    hide ChildInv, CallInv;
  }

  lemma RequestKeeps(p: Sup, x: Action, child: nat)
    requires LocalInv(p) && LocalEnabled(p, x) && IsRequest(x)
    ensures LocalInv(DoRequest(p, x, child))
  {
    hide LocalInv, DoRequest;
    if x.CheckClosed? || x.Greet? || x.Serve? {
      RequestTerminates(p, x, child);
    } else if x.Launch? || x.DecideRetry? {
      RequestLaunches(p, x, child);
    } else {
      RequestMovesOn(p, x, child);
    }
  }

  lemma CloserTerminates(p: Sup, x: Action, mine: bool)
    requires LocalInv(p) && LocalEnabled(p, x) && (x.CloseTerminates? || x.TimedOutTerminates? || x.FinisherTerminates?)
    ensures LocalInv(DoClose(p, x, mine))
  {
    hide ChildInv, CallInv, Terminate, Stuck;
    TerminateKeeps(p.kid, x.o);
  }

  lemma CloserJudges(p: Sup, x: Action, mine: bool)
    requires LocalInv(p) && LocalEnabled(p, x) && (x.CloseJudges? || x.FinisherJudges?) && mine == !p.calls.released
    ensures LocalInv(DoClose(p, x, mine))
  {
    hide ChildInv, CallInv, Release;
    ReleaseKeeps(p.calls, mine);
  }

  lemma CloserMovesOn(p: Sup, x: Action, mine: bool)
    requires LocalInv(p) && LocalEnabled(p, x) && (x.Close? || x.CloseGetsLock? || x.CloseTimesOut?)
    ensures LocalInv(DoClose(p, x, mine))
  {
    hide ChildInv, CallInv;
  }

  lemma FinisherMovesOn(p: Sup, x: Action, mine: bool)
    requires LocalInv(p) && LocalEnabled(p, x) && (x.AfterUnlock? || x.SpawnFinisher? || x.FinisherGetsLock?)
    ensures LocalInv(DoClose(p, x, mine))
  {
    hide ChildInv, CallInv;
  }

  lemma CloseKeeps(p: Sup, x: Action, mine: bool)
    requires LocalInv(p) && LocalEnabled(p, x) && mine == !p.calls.released
    ensures LocalInv(DoClose(p, x, mine))
  {
    hide LocalInv;
    if x.CloseTerminates? || x.TimedOutTerminates? || x.FinisherTerminates? {
      CloserTerminates(p, x, mine);
    } else if x.CloseJudges? || x.FinisherJudges? {
      CloserJudges(p, x, mine);
    } else if x.Close? || x.CloseGetsLock? || x.CloseTimesOut? {
      CloserMovesOn(p, x, mine);
    } else if x.AfterUnlock? || x.SpawnFinisher? || x.FinisherGetsLock? {
      FinisherMovesOn(p, x, mine);
    }
  }

  lemma ReapedKid(k: Kid, child: nat)
    requires ChildInv(k) && child in k.reapers
    ensures k.reaping && k.process == Some(child)
    ensures Kid(None, k.live - {child}, false, k.reapers - multiset{child}) == Kid(None, {}, false, multiset{})
    ensures ChildInv(Kid(None, {}, false, multiset{}))
  {
  }

  lemma ReapKeeps(p: Sup, x: Action, mine: bool)
    requires LocalInv(p) && LocalEnabled(p, x) && IsReap(x) && mine == !p.calls.released
    ensures LocalInv(DoReap(p, x, mine))
  {
    hide CallInv, Release, ChildInv;
    ReleaseKeeps(p.calls, mine);
    if x.Reap? {
      ReapedKid(p.kid, x.child);
    }
  }

  lemma CallKeeps(p: Sup, x: Action)
    requires LocalInv(p) && LocalEnabled(p, x) && IsCall(x)
    ensures LocalInv(p.(calls := DoCall(p.calls, x)))
  {
    hide ChildInv;
  }

  lemma NextKeeps(p: Sup, x: Action, child: nat, mine: bool)
    requires LocalInv(p) && LocalEnabled(p, x) && mine == !p.calls.released
    ensures LocalInv(Next(p, x, child, mine))
  {
    hide LocalInv, DoRequest, DoReap, DoCall, DoClose;
    if IsRequest(x) {
      RequestKeeps(p, x, child);
    } else if IsReap(x) {
      ReapKeeps(p, x, mine);
    } else if IsCall(x) {
      CallKeeps(p, x);
    } else {
      CloseKeeps(p, x, mine);
    }
  }

  // ----- The slot -----

  /** The slot belongs to the one supervisor that has not given it up. */
  ghost predicate Inv(s: State) {
    && (s.owner.Some? ==> s.owner.value in s.sups)
    && (forall i :: i in s.sups ==>
          i < s.nextSup && LocalInv(s.sups[i]) && (s.owner == Some(i) <==> !s.sups[i].calls.released))
  }

  lemma ReleaseOnlyMine(c: Callbacks, mine: bool)
    ensures (c.released ==> Release(c, mine).released) && (Release(c, mine).released && !c.released ==> mine)
  {
  }

  lemma RequestLeavesCalls(p: Sup, x: Action, child: nat)
    requires LocalEnabled(p, x)
    ensures DoRequest(p, x, child).calls == p.calls
  {
  }

  lemma CloseReleases(p: Sup, x: Action, mine: bool)
    requires LocalEnabled(p, x)
    ensures DoClose(p, x, mine).calls == p.calls || DoClose(p, x, mine).calls == Release(p.calls, mine)
  {
    hide Release;
  }

  lemma CallReleasesNothing(c: Callbacks, x: Action)
    requires x.SwapCallbacks? ==> c.swapping > 0
    requires x.EndCallbacks? ==> c.calling > 0
    ensures DoCall(c, x).released == c.released
  {
  }

  lemma ReleasedStays(p: Sup, x: Action, child: nat, mine: bool)
    requires LocalEnabled(p, x)
    ensures var p' := Next(p, x, child, mine);
      (p.calls.released ==> p'.calls.released) && (p'.calls.released && !p.calls.released ==> mine)
  {
    hide DoRequest, Release, DoClose, DoCall;
    ReleaseOnlyMine(p.calls, mine);
    RequestLeavesCalls(p, x, child);
    CloseReleases(p, x, mine);
    if IsCall(x) {
      CallReleasesNothing(p.calls, x);
    }
  }

  lemma StepKeepsInv(s: State, x: Action)
    requires Inv(s) && Enabled(s, x)
    ensures Inv(Apply(s, x))
  {
    hide LocalInv, Next, LocalEnabled;
    if x.Claim? {
      NewSupInv(x.retry);
    } else {
      var p, mine := s.sups[x.i], s.owner == Some(x.i);
      NextKeeps(p, x, s.nextChild, mine);
      ReleasedStays(p, x, s.nextChild, mine);
    }
  }

  lemma {:induction false} RunKeepsInv(s: State, run: seq<Action>)
    requires Inv(s) && Legal(s, run)
    ensures Inv(Exec(s, run))
    decreases |run|
  {
    hide Inv, Enabled, Apply;
    if run != [] {
      StepKeepsInv(s, run[0]);
      RunKeepsInv(Apply(s, run[0]), run[1..]);
    }
  }

  ghost predicate Reachable(s: State) {
    exists s0, run :: Init(s0) && Legal(s0, run) && Exec(s0, run) == s
  }

  lemma ReachableInv(s: State)
    requires Reachable(s)
    ensures Inv(s)
  {
    hide Inv, Legal, Exec;
    var s0, run :| Init(s0) && Legal(s0, run) && Exec(s0, run) == s;
    assert Inv(s0) by { InitInv(s0); }
    RunKeepsInv(s0, run);
  }

  lemma InitInv(s: State)
    requires Init(s)
    ensures Inv(s)
  {
  }

  /** At most one supervisor has not given the slot up, and it is the owner. */
  lemma OneOwner(s: State, i: nat, j: nat)
    requires Reachable(s) && i in s.sups && j in s.sups
    requires !s.sups[i].calls.released && !s.sups[j].calls.released
    ensures i == j && s.owner == Some(i)
  {
    hide Reachable, LocalInv;
    ReachableInv(s);
  }

  /** No thread of this supervisor has anything left to do. */
  predicate AtRest(p: Sup) {
    && p.request.NoRequest? && p.lock.Free? && p.crew == Crew(0, 0, 0, 0, 0, 0, 0, 0)
    && p.kid.reapers == multiset{} && p.calls.swapping == 0 && p.calls.calling == 0
  }

  /** Whatever happened, once all threads of a closed supervisor are done, no
      child of its is left and the slot is free, unless some thread could not be
      started; and then every callback has run exactly once. */
  lemma ClosedAtRestIsClean(s: State, i: nat)
    requires Reachable(s) && i in s.sups && s.sups[i].closed && !s.sups[i].mishap && AtRest(s.sups[i])
    ensures var p := s.sups[i];
      && p.kid.live == {} && p.kid.process == None && p.calls.released && s.owner != Some(i)
      && forall c: nat :: p.calls.ran[c] == if c < p.calls.next then 1 else 0
  {
    hide Reachable;
    ReachableInv(s);
    assert LocalInv(s.sups[i]);
  }

  /** Before the slot is given up no callback runs, and none ever runs twice. */
  lemma CallbacksRunOnceAfterRelease(s: State, i: nat, c: nat)
    requires Reachable(s) && i in s.sups
    ensures s.sups[i].calls.ran[c] <= 1
    ensures s.sups[i].calls.ran[c] == 1 ==> s.sups[i].calls.released && c < s.sups[i].calls.next
  {
    hide Reachable;
    ReachableInv(s);
    assert LocalInv(s.sups[i]);
  }

  // ----- What a failed start still does -----

  /** A condition on one supervisor that its allowed steps keep, launching nothing. */
  ghost predicate Idle(inv: Sup -> bool, allowed: Action -> bool) {
    forall p, x, child, mine :: inv(p) && LocalEnabled(p, x) && allowed(x) ==>
      inv(Next(p, x, child, mine)) && Next(p, x, child, mine).kid.live <= p.kid.live
  }

  ghost predicate AllowedFor(run: seq<Action>, i: nat, allowed: Action -> bool) {
    forall k :: 0 <= k < |run| && !run[k].Claim? && run[k].i == i ==> allowed(run[k])
  }

  lemma IdleStep(s: State, x: Action, i: nat, inv: Sup -> bool, allowed: Action -> bool)
    requires Inv(s) && Enabled(s, x) && i in s.sups && inv(s.sups[i])
    requires Idle(inv, allowed) && (!x.Claim? && x.i == i ==> allowed(x))
    ensures var s' := Apply(s, x); i in s'.sups && inv(s'.sups[i]) && s'.sups[i].kid.live <= s.sups[i].kid.live
  {
    hide Next, LocalEnabled, LocalInv;
  }

  lemma {:induction false} IdleRun(s: State, run: seq<Action>, i: nat, inv: Sup -> bool, allowed: Action -> bool)
    requires Inv(s) && Legal(s, run) && i in s.sups && inv(s.sups[i])
    requires Idle(inv, allowed) && AllowedFor(run, i, allowed)
    ensures var s' := Exec(s, run);
      i in s'.sups && inv(s'.sups[i]) && s'.sups[i].kid.live <= s.sups[i].kid.live
    decreases |run|
  {
    hide Inv, Enabled, Apply, Idle;
    if run != [] {
      IdleStep(s, run[0], i, inv, allowed);
      StepKeepsInv(s, run[0]);
      IdleRun(Apply(s, run[0]), run[1..], i, inv, allowed);
    }
  }

  /** Nothing but a request's own steps moves the request or gives it a child. */
  lemma CloseMovesNoRequest(p: Sup, x: Action, mine: bool)
    requires LocalEnabled(p, x)
    ensures var p' := DoClose(p, x, mine);
      p'.request == p.request && (p.closed ==> p'.closed) && p'.kid.live <= p.kid.live && p'.canRetry == p.canRetry
      && (p.lock.ByRequest? ==> p'.lock.ByRequest?)
  {
    hide Release, Judge, TerminateKid;
    if x.CloseTerminates? || x.TimedOutTerminates? || x.FinisherTerminates? {
      TerminateShrinks(p, x.o);
    }
  }

  lemma TerminateShrinks(p: Sup, o: Outcome)
    ensures var p' := TerminateKid(p, o);
      p'.kid.live <= p.kid.live && p' == p.(kid := p'.kid, mishap := p'.mishap)
  {
  }

  lemma OthersMoveNoRequest(p: Sup, x: Action, child: nat, mine: bool)
    requires LocalEnabled(p, x) && !IsRequest(x)
    ensures var p' := Next(p, x, child, mine);
      p'.request == p.request && (p.closed ==> p'.closed) && p'.kid.live <= p.kid.live && p'.canRetry == p.canRetry
      && (p.lock.ByRequest? ==> p'.lock.ByRequest?)
  {
    hide DoClose, DoCall, Release;
    CloseMovesNoRequest(p, x, mine);
  }

  /** The supervisor is closed, and no request of its is past the checks. */
  predicate PastLaunching(p: Sup) {
    p.closed && (p.request.NoRequest? || p.request.Checking? || p.request.Finishing? || p.request == FailedStart(false))
  }

  lemma PastLaunchingStays(p: Sup, x: Action, child: nat, mine: bool)
    requires PastLaunching(p) && LocalEnabled(p, x)
    ensures PastLaunching(Next(p, x, child, mine)) && Next(p, x, child, mine).kid.live <= p.kid.live
  {
    if IsRequest(x) {
      assert Next(p, x, child, mine) == DoRequest(p, x, child);
    } else {
      hide Next;
      OthersMoveNoRequest(p, x, child, mine);
    }
  }

  /** A start that has seen the close is the last launch: no run gives the
      supervisor another child. */
  lemma SeenCloseIsLastLaunch(s: State, i: nat, o: Outcome, run: seq<Action>)
    requires Reachable(s) && i in s.sups && s.sups[i].request.Launched? && s.sups[i].closed
    requires Legal(Apply(s, CheckClosed(i, o)), run)
    ensures var s1 := Apply(s, CheckClosed(i, o));
      i in Exec(s1, run).sups && Exec(s1, run).sups[i].kid.live <= s1.sups[i].kid.live
  {
    var s1 := Apply(s, CheckClosed(i, o));
    assert Inv(s1) by { StepOfReachable(s, CheckClosed(i, o)); }
    var inv, allowed := (p: Sup) => PastLaunching(p), (x: Action) => true;
    assert Idle(inv, allowed) by {
      forall p, x, child, mine | inv(p) && LocalEnabled(p, x)
        ensures inv(Next(p, x, child, mine)) && Next(p, x, child, mine).kid.live <= p.kid.live
      {
        PastLaunchingStays(p, x, child, mine);
      }
    }
    hide Reachable, Inv, Legal, Exec, Apply, Next, LocalEnabled;
    assert PastLaunching(s1.sups[i]) by { SeenClose(s, i, o); }
    IdleRun(s1, run, i, inv, allowed);
  }

  lemma SeenClose(s: State, i: nat, o: Outcome)
    requires i in s.sups && s.sups[i].request.Launched? && s.sups[i].closed
    ensures PastLaunching(Apply(s, CheckClosed(i, o)).sups[i])
  {
  }

  lemma StepOfReachable(s: State, x: Action)
    requires Reachable(s) && Enabled(s, x)
    ensures Inv(Apply(s, x))
  {
    hide Reachable, Inv, Apply, Enabled;
    ReachableInv(s);
    StepKeepsInv(s, x);
  }

  predicate GivingUp(p: Sup) {
    p.lock.ByRequest? && (p.request == FailedStart(false) || p.request.Finishing?)
  }

  lemma GivingUpStays(p: Sup, x: Action, child: nat, mine: bool)
    requires GivingUp(p) && LocalEnabled(p, x) && !x.Unlock?
    ensures GivingUp(Next(p, x, child, mine)) && Next(p, x, child, mine).kid.live <= p.kid.live
  {
    if IsRequest(x) {
      assert Next(p, x, child, mine) == DoRequest(p, x, child);
    } else {
      hide Next;
      OthersMoveNoRequest(p, x, child, mine);
    }
  }

  /** A request that gives up is not served and gets no child before it gives
      the lock back, whatever the other threads do. */
  lemma GivingUpRun(s: State, i: nat, run: seq<Action>)
    requires Inv(s) && i in s.sups && GivingUp(s.sups[i])
    requires Legal(s, run) && Unlock(i) !in run
    ensures var s' := Exec(s, run);
      i in s'.sups && GivingUp(s'.sups[i]) && s'.sups[i].kid.live <= s.sups[i].kid.live
  {
    var inv, allowed := (p: Sup) => GivingUp(p), (x: Action) => !x.Unlock?;
    assert Idle(inv, allowed) by {
      forall p, x, child, mine | inv(p) && LocalEnabled(p, x) && allowed(x)
        ensures inv(Next(p, x, child, mine)) && Next(p, x, child, mine).kid.live <= p.kid.live
      {
        GivingUpStays(p, x, child, mine);
      }
    }
    hide Inv, Legal, Exec, Next, LocalEnabled;
    IdleRun(s, run, i, inv, allowed);
  }

  /** A step after which the request has only the way out: a failure reported as
      not retryable, a failed reply, and a request refused because the supervisor
      is closed, its child is being reaped, or it is too soon after a failure. */
  predicate Refuses(p: Sup, x: Action) {
    match x
    case CheckClosed(_, _) => p.closed
    case Greet(_, ok, _, retryable, _) => !ok && !retryable
    case Serve(_, ok, _) => !ok
    case Check(_, encode, busy) =>
      if encode then p.closed || p.kid.reaping || (p.kid.process.None? && busy)
      else p.kid.process.None? && (p.closed || busy)
    case _ => false
  }

  lemma Refused(s: State, x: Action)
    requires Reachable(s) && Enabled(s, x) && !x.Claim? && Refuses(s.sups[x.i], x)
    ensures GivingUp(Apply(s, x).sups[x.i])
  {
    hide Reachable, CallInv, DutyInv, ChildInv;
    ReachableInv(s);
    assert LocalInv(s.sups[x.i]);
  }

  /** Until the lock is given back such a request gets no child and no reply. */
  lemma RefusedGetsNoChild(s: State, x: Action, run: seq<Action>)
    requires Reachable(s) && Enabled(s, x) && !x.Claim? && Refuses(s.sups[x.i], x)
    requires Legal(Apply(s, x), run) && Unlock(x.i) !in run
    ensures var s1, i := Apply(s, x), x.i;
      && i in Exec(s1, run).sups && Exec(s1, run).sups[i].kid.live <= s1.sups[i].kid.live
      && !Exec(s1, run).sups[i].request.Serving? && !Exec(s1, run).sups[i].request.Launching?
  {
    var s1 := Apply(s, x);
    assert GivingUp(s1.sups[x.i]) by { Refused(s, x); }
    assert Inv(s1) by { StepOfReachable(s, x); }
    hide Reachable, Inv, Legal, Exec, Apply, Enabled;
    GivingUpRun(s1, x.i, run);
  }

  /** After a failed start or reply no child of the supervisor is left without a
      reaper waiting for it, unless no reaper could be started. */
  lemma FailureGivesChildUp(s: State, x: Action)
    requires Reachable(s) && Enabled(s, x)
    requires (x.CheckClosed? && s.sups[x.i].closed) || (x.Greet? && !x.ok) || (x.Serve? && !x.ok)
    ensures var p := Apply(s, x).sups[x.i];
      p.mishap || forall c :: c in p.kid.live ==> c in p.kid.reapers
  {
    assert ChildInv(s.sups[x.i].kid) by { ReachableLocal(s, x.i); }
    hide Reachable;
    TerminateKeeps(s.sups[x.i].kid, x.o);
    hide Terminate;
  }

  lemma ReachableLocal(s: State, i: nat)
    requires Reachable(s) && i in s.sups
    ensures LocalInv(s.sups[i])
  {
    hide Reachable;
    ReachableInv(s);
  }

  /** How often supervisor i decides to retry on the CPU. */
  function Retries(s: State, run: seq<Action>, i: nat): (n: nat)
    requires Legal(s, run)
    decreases |run|
  {
    if run == [] then 0
    else (if run[0] == DecideRetry(i) && Decides(s, run[0]) then 1 else 0) + Retries(Apply(s, run[0]), run[1..], i)
  }

  function RetriesLeft(s: State, i: nat): (n: nat) {
    if i in s.sups && !s.sups[i].canRetry then 0 else 1
  }

  lemma StepRetries(s: State, x: Action, i: nat)
    requires Inv(s) && Enabled(s, x)
    ensures (if x == DecideRetry(i) && Decides(s, x) then 1 else 0) + RetriesLeft(Apply(s, x), i) <= RetriesLeft(s, i)
  {
    hide LocalInv, Next, LocalEnabled;
    if !x.Claim? && x.i == i {
      var p := s.sups[i];
      NextRetries(p, x, s.nextChild, s.owner == Some(i));
    }
  }

  lemma NextRetries(p: Sup, x: Action, child: nat, mine: bool)
    requires LocalEnabled(p, x)
    ensures var p' := Next(p, x, child, mine);
      (p'.canRetry ==> p.canRetry) && (x.DecideRetry? && p'.request.Launching? ==> p.canRetry && !p'.canRetry)
  {
    if IsRequest(x) {
      assert Next(p, x, child, mine) == DoRequest(p, x, child);
      hide TerminateKid;
    } else {
      hide Next;
      OthersMoveNoRequest(p, x, child, mine);
    }
  }

  lemma {:induction false} RetriesAreCounted(s: State, run: seq<Action>, i: nat)
    requires Inv(s) && Legal(s, run)
    ensures Retries(s, run, i) <= RetriesLeft(s, i)
    decreases |run|
  {
    hide Inv, Enabled, Apply, Decides, RetriesLeft;
    if run != [] {
      StepRetries(s, run[0], i);
      StepKeepsInv(s, run[0]);
      RetriesAreCounted(Apply(s, run[0]), run[1..], i);
    }
  }

  /** In any run a supervisor retries on the CPU at most once. */
  lemma AtMostOneRetry(s: State, run: seq<Action>, i: nat)
    requires Reachable(s) && Legal(s, run)
    ensures Retries(s, run, i) <= 1
  {
    hide Reachable, Inv, Legal, Retries;
    ReachableInv(s);
    RetriesAreCounted(s, run, i);
  }

  /** And never again after a retry, a child that came up on the CPU, or a reply
      that failed. */
  lemma NoRetryAfter(s: State, x: Action, run: seq<Action>)
    requires Reachable(s) && Enabled(s, x) && Legal(Apply(s, x), run)
    requires (x.DecideRetry? && Decides(s, x)) || (x.Greet? && x.ok && x.onCpu) || (x.Serve? && !x.ok)
    ensures Retries(Apply(s, x), run, x.i) == 0
  {
    assert RetriesLeft(Apply(s, x), x.i) == 0;
    assert Inv(Apply(s, x)) by { StepOfReachable(s, x); }
    hide Reachable, Inv, Legal, Retries, Apply, Enabled;
    RetriesAreCounted(Apply(s, x), run, x.i);
  }

  /** But a start that could not spawn its child, or a retryable failure whose
      child is reaped, is retried while a retry is left. */
  lemma RetryableIsRetried(s: State, x: Action)
    requires Reachable(s) && Enabled(s, x) && !x.Claim? && s.sups[x.i].canRetry
    requires (x.Launch? && x.fails) || (x.Greet? && !x.ok && x.retryable && x.o.Reaped? && !s.sups[x.i].kid.reaping)
    ensures Decides(Apply(s, x), DecideRetry(x.i))
  {
    assert ChildInv(s.sups[x.i].kid) && CloseInv(s.sups[x.i]) by { ReachableLocal(s, x.i); }
    hide Reachable;
    if x.Launch? {
      assert Enabled(Apply(s, x), DecideRetry(x.i));
    } else {
      GreetLeavesNoChild(s, x);
    }
  }

  lemma GreetLeavesNoChild(s: State, x: Action)
    requires Enabled(s, x) && x.Greet? && !x.ok && x.retryable && x.o.Reaped? && !s.sups[x.i].kid.reaping
    requires s.sups[x.i].canRetry
    ensures Decides(Apply(s, x), DecideRetry(x.i))
  {
  }

  // ----- What a request gets -----

  /** An encode request that finds a child, on an open supervisor and not being
      reaped, is served by that child, however soon after a failure; a reply that
      arrives leaves the child and the retry as they are. */
  lemma HealthyChildServes(s: State, i: nat, busy: bool, o: Outcome)
    requires Reachable(s) && i in s.sups && s.sups[i].request.Checking?
    requires s.sups[i].kid.process.Some? && !s.sups[i].closed && !s.sups[i].kid.reaping
    ensures var s1 := Apply(s, Check(i, true, busy));
      && s1.sups[i].request.Serving? && s1.sups[i].kid == s.sups[i].kid
      && Enabled(s1, Serve(i, true, o))
      && var p := Apply(s1, Serve(i, true, o)).sups[i];
      && p.request.Finishing? && p.kid == s.sups[i].kid && p.canRetry == s.sups[i].canRetry
  {
  }

  /** Without a child, an open supervisor launches one unless it is too soon. */
  lemma MissingChildIsLaunched(s: State, i: nat, encode: bool, busy: bool)
    requires Reachable(s) && i in s.sups && s.sups[i].request.Checking?
    requires s.sups[i].kid.process.None? && !s.sups[i].closed
    ensures Decides(s, Check(i, encode, busy)) <==> !busy
  {
    assert ChildInv(s.sups[i].kid) by { ReachableLocal(s, i); }
    hide Reachable;
  }

  predicate OwnStep(x: Action, i: nat) {
    IsRequest(x) && !x.BeginRequest? && x.i == i
  }

  /** How many steps of its own a request is at most away from giving the lock back. */
  function StepsLeft(p: Sup): (n: nat) {
    var retry := if p.canRetry then 5 else 0;
    match p.request
    case NoRequest => 0
    case Finishing => 1
    case Serving => 2
    case FailedStart(_) => 2 + retry
    case Handshaking => 3 + retry
    case Launched => 4 + retry
    case Launching => 5 + retry
    case Checking => 6 + retry
  }

  /** A request always has a step of its own enabled, and each brings it nearer
      to giving the lock back; the others move it nowhere. */
  lemma RequestsProceed(s: State, i: nat, x: Action)
    requires Reachable(s) && i in s.sups
    ensures !s.sups[i].request.NoRequest? ==> exists y :: OwnStep(y, i) && Enabled(s, y)
    ensures Enabled(s, x) && OwnStep(x, i) ==> StepsLeft(Apply(s, x).sups[i]) < StepsLeft(s.sups[i])
    ensures Enabled(s, x) && !OwnStep(x, i) && !x.BeginRequest? ==>
      i in Apply(s, x).sups && Apply(s, x).sups[i].request == s.sups[i].request
  {
    assert i < s.nextSup by { OldIds(s, i); }
    hide Reachable;
    var p := s.sups[i];
    if !p.request.NoRequest? {
      var y := NextOwnStep(p, i);
      assert OwnStep(y, i) && Enabled(s, y);
    }
    if Enabled(s, x) && !x.Claim? && x.i == i {
      if OwnStep(x, i) {
        OwnStepsCount(p, x, s.nextChild, s.owner == Some(i));
      } else if !x.BeginRequest? {
        hide Next;
        OthersMoveNoRequest(p, x, s.nextChild, s.owner == Some(i));
      }
    }
  }

  function NextOwnStep(p: Sup, i: nat): (x: Action) {
    match p.request
    case Checking => Check(i, true, false)
    case Launching => Launch(i, false)
    case Launched => CheckClosed(i, Reaped)
    case Handshaking => Greet(i, true, true, false, Reaped)
    case FailedStart(_) => DecideRetry(i)
    case Serving => Serve(i, true, Reaped)
    case _ => Unlock(i)
  }

  lemma OwnStepsCount(p: Sup, x: Action, child: nat, mine: bool)
    requires LocalEnabled(p, x) && OwnStep(x, x.i)
    ensures StepsLeft(Next(p, x, child, mine)) < StepsLeft(p)
  {
    assert Next(p, x, child, mine) == DoRequest(p, x, child);
    hide Terminate, Stuck;
  }

  lemma OldIds(s: State, i: nat)
    requires Reachable(s) && i in s.sups
    ensures i < s.nextSup
  {
    hide Reachable, LocalInv;
    ReachableInv(s);
  }

  // ----- Closing comes to an end -----

  /** The steps of the threads that close, clean up, reap and run callbacks. */
  predicate CleansUp(x: Action, i: nat) {
    !x.Claim? && x.i == i && !IsRequest(x) && !x.Close? && !x.Register?
  }

  function CrewLeft(w: Crew): (n: nat) {
    16 * w.closeWait + 3 * w.closeCheck + 15 * w.timedOut + 10 * w.spawning + 10 * w.afterRequest
    + 9 * w.finWait + 3 * w.finCheck + 3 * w.reapTail
  }

  function CallsLeft(c: Callbacks): (n: nat) {
    |c.pending| + |c.batch| + 2 * c.swapping + c.calling
  }

  /** Bounds the steps these threads still take on their own. */
  function CleanupLeft(p: Sup): (n: nat) {
    CrewLeft(p.crew) + CallsLeft(p.calls) + 4 * |p.kid.reapers|
    + if p.lock.ByCloser? || p.lock.ByFinisher? then 8 else 0
  }

  lemma TerminateCosts(k: Kid, o: Outcome)
    ensures |Terminate(k, o).reapers| <= |k.reapers| + 1
  {
  }

  lemma JudgeCosts(p: Sup, mine: bool)
    ensures CallsLeft(Judge(p, mine)) <= CallsLeft(p.calls) + 2
  {
  }

  lemma CloseCosts(p: Sup, x: Action, mine: bool)
    requires LocalEnabled(p, x) && CleansUp(x, x.i) && !IsReap(x) && !IsCall(x)
    ensures CleanupLeft(DoClose(p, x, mine)) < CleanupLeft(p)
  {
    if x.CloseTerminates? || x.TimedOutTerminates? || x.FinisherTerminates? {
      TerminatingCosts(p, x, mine);
    } else if x.CloseJudges? || x.FinisherJudges? {
      JudgingCosts(p, x, mine);
    } else {
      MovingCosts(p, x, mine);
    }
  }

  lemma TerminatingCosts(p: Sup, x: Action, mine: bool)
    requires LocalEnabled(p, x) && (x.CloseTerminates? || x.TimedOutTerminates? || x.FinisherTerminates?)
    ensures CleanupLeft(DoClose(p, x, mine)) < CleanupLeft(p)
  {
    TerminateCosts(p.kid, x.o);
    hide Terminate, CallsLeft, Stuck;
  }

  lemma JudgingCosts(p: Sup, x: Action, mine: bool)
    requires LocalEnabled(p, x) && (x.CloseJudges? || x.FinisherJudges?)
    ensures CleanupLeft(DoClose(p, x, mine)) < CleanupLeft(p)
  {
    JudgeCosts(p, mine);
    hide Judge, CallsLeft;
  }

  lemma MovingCosts(p: Sup, x: Action, mine: bool)
    requires LocalEnabled(p, x)
    requires x.AfterUnlock? || x.CloseGetsLock? || x.CloseTimesOut? || x.SpawnFinisher? || x.FinisherGetsLock?
    ensures CleanupLeft(DoClose(p, x, mine)) < CleanupLeft(p)
  {
    hide CallsLeft;
    if x.AfterUnlock? || x.SpawnFinisher? {
      HandingOnCosts(p, x, mine);
    } else {
      LockingCosts(p, x, mine);
    }
  }

  lemma HandingOnCosts(p: Sup, x: Action, mine: bool)
    requires LocalEnabled(p, x) && (x.AfterUnlock? || x.SpawnFinisher?)
    ensures CleanupLeft(DoClose(p, x, mine)) < CleanupLeft(p)
  {
    hide CallsLeft, Judge, Terminate, Stuck;
    var p' := DoClose(p, x, mine);
    assert p'.calls == p.calls && p'.kid == p.kid;
    if x.AfterUnlock? {
      assert p'.lock == p.lock;
    } else {
      assert p'.lock == p.lock || p'.lock == ByFinisher;
    }
  }

  lemma LockingCosts(p: Sup, x: Action, mine: bool)
    requires LocalEnabled(p, x) && (x.CloseGetsLock? || x.CloseTimesOut? || x.FinisherGetsLock?)
    ensures CleanupLeft(DoClose(p, x, mine)) < CleanupLeft(p)
  {
    hide CallsLeft, Judge, Terminate, Stuck;
  }

  lemma ReapCosts(p: Sup, x: Action, mine: bool)
    requires LocalEnabled(p, x) && IsReap(x)
    ensures CleanupLeft(DoReap(p, x, mine)) < CleanupLeft(p)
  {
    if x.Reap? {
      assert |p.kid.reapers - multiset{x.child}| == |p.kid.reapers| - 1;
    }
  }

  lemma CallCosts(c: Callbacks, x: Action)
    requires IsCall(x) && !x.Register? && c.pending !! c.batch
    requires x.SwapCallbacks? ==> c.swapping > 0
    requires x.EndCallbacks? ==> c.calling > 0
    requires x.RunCallback? ==> x.c in c.batch
    ensures CallsLeft(DoCall(c, x)) < CallsLeft(c)
  {
  }

  lemma BatchIsApart(c: Callbacks)
    requires CallInv(c)
    ensures c.pending !! c.batch
  {
    forall k: nat ensures !(k in c.pending && k in c.batch) {
      assert c.ran[k] >= 0;
    }
  }

  /** Each such step is one less, and as long as no request has the lock one is
      enabled until the supervisor is at rest. */
  lemma CleanupProceeds(s: State, i: nat, x: Action)
    requires Reachable(s) && i in s.sups
    ensures Enabled(s, x) && CleansUp(x, i) ==> CleanupLeft(Apply(s, x).sups[i]) < CleanupLeft(s.sups[i])
    ensures s.sups[i].request.NoRequest? ==> AtRest(s.sups[i]) || exists y :: CleansUp(y, i) && Enabled(s, y)
  {
    ReachableLocal(s, i);
    hide Reachable;
    var p := s.sups[i];
    if Enabled(s, x) && CleansUp(x, i) {
      StepCosts(p, x, s.nextChild, s.owner == Some(i));
    }
    if p.request.NoRequest? && !AtRest(p) {
      var y := NextCleanup(p, i);
      assert CleansUp(y, i) && Enabled(s, y);
    }
  }

  lemma StepCosts(p: Sup, x: Action, child: nat, mine: bool)
    requires LocalInv(p) && LocalEnabled(p, x) && CleansUp(x, x.i)
    ensures CleanupLeft(Next(p, x, child, mine)) < CleanupLeft(p)
  {
    hide DoClose, DoReap, DoCall, CallsLeft, CallInv;
    if IsReap(x) {
      ReapCosts(p, x, mine);
    } else if IsCall(x) {
      BatchIsApart(p.calls);
      CallCosts(p.calls, x);
    } else {
      CloseCosts(p, x, mine);
    }
  }

  lemma NextCleanup(p: Sup, i: nat) returns (y: Action)
    requires LocalInv(p) && p.request.NoRequest? && !AtRest(p)
    ensures CleansUp(y, i) && LocalEnabled(p, y)
  {
    assert CallInv(p.calls) && CloseInv(p);
    hide LocalInv, DutyInv, CallInv, CountInv;
    if p.lock.ByCloser? || p.lock.ByFinisher? || p.crew != Crew(0, 0, 0, 0, 0, 0, 0, 0) {
      y := NextCrewStep(p, i);
    } else if p.calls.swapping > 0 || p.calls.calling > 0 {
      y := NextCallStep(p, i);
    } else {
      assert p.kid.reapers != multiset{};
      var child :| child in p.kid.reapers;
      y := Reap(i, child);
    }
  }

  lemma NextCrewStep(p: Sup, i: nat) returns (y: Action)
    requires CloseInv(p) && p.request.NoRequest?
    requires p.lock.ByCloser? || p.lock.ByFinisher? || p.crew != Crew(0, 0, 0, 0, 0, 0, 0, 0)
    ensures CleansUp(y, i) && LocalEnabled(p, y)
  {
    var w := p.crew;
    assert p.lock != ByRequest;
    hide CloseInv;
    y :=
      if p.lock.ByCloser? then CloseTerminates(i, Reaped)
      else if p.lock.ByFinisher? then FinisherTerminates(i, Reaped)
      else if w.closeWait > 0 then CloseGetsLock(i)
      else if w.finWait > 0 then FinisherGetsLock(i)
      else if w.closeCheck > 0 then CloseJudges(i)
      else if w.finCheck > 0 then FinisherJudges(i)
      else if w.timedOut > 0 then TimedOutTerminates(i, Reaped)
      else if w.spawning > 0 then SpawnFinisher(i, true)
      else if w.afterRequest > 0 then AfterUnlock(i)
      else ReapEnds(i);
  }

  lemma NextCallStep(p: Sup, i: nat) returns (y: Action)
    requires p.calls.swapping > 0 || p.calls.calling > 0
    ensures CleansUp(y, i) && LocalEnabled(p, y)
  {
    if p.calls.swapping > 0 {
      y := SwapCallbacks(i);
    } else if p.calls.batch == {} {
      y := EndCallbacks(i);
    } else {
      var c :| c in p.calls.batch;
      y := RunCallback(i, c);
    }
  }

  lemma StepStartsNoCleanup(s: State, x: Action, i: nat)
    requires Inv(s) && Enabled(s, x) && i in s.sups && !s.sups[i].closeWaiting && x != CloseTimesOut(i)
    ensures var s' := Apply(s, x); i in s'.sups && !s'.sups[i].closeWaiting
  {
    hide LocalInv, Next;
    if !x.Claim? && x.i == i {
      NextStartsNoCleanup(s.sups[i], x, s.nextChild, s.owner == Some(i));
    }
  }

  lemma NextStartsNoCleanup(p: Sup, x: Action, child: nat, mine: bool)
    requires LocalEnabled(p, x) && !p.closeWaiting && !x.CloseTimesOut?
    ensures !Next(p, x, child, mine).closeWaiting
  {
    hide DoRequest, DoClose, DoCall, Release;
    CloseStartsNoCleanup(p, x, mine);
    RequestStartsNoCleanup(p, x, child);
  }

  lemma CloseStartsNoCleanup(p: Sup, x: Action, mine: bool)
    requires LocalEnabled(p, x) && !p.closeWaiting && !x.CloseTimesOut?
    ensures !DoClose(p, x, mine).closeWaiting
  {
    hide Judge, Terminate, Stuck;
  }

  lemma RequestStartsNoCleanup(p: Sup, x: Action, child: nat)
    requires LocalEnabled(p, x) && !p.closeWaiting
    ensures !DoRequest(p, x, child).closeWaiting
  {
    hide Terminate, Stuck;
  }

  lemma {:induction false} RunStartsNoCleanup(s: State, run: seq<Action>, i: nat)
    requires Inv(s) && Legal(s, run) && i in s.sups && !s.sups[i].closeWaiting && CloseTimesOut(i) !in run
    ensures var s' := Exec(s, run); i in s'.sups && !s'.sups[i].closeWaiting
    decreases |run|
  {
    hide Inv, Enabled, Apply;
    if run != [] {
      StepStartsNoCleanup(s, run[0], i);
      StepKeepsInv(s, run[0]);
      RunStartsNoCleanup(Apply(s, run[0]), run[1..], i);
    }
  }

  /** Once a clean-up has judged, no request starts another one, in any run in
      which no further close gives up on the lock. */
  lemma JudgedCleanupIsOver(s: State, i: nat, run: seq<Action>, r: Action)
    requires Reachable(s) && Enabled(s, FinisherJudges(i)) && Legal(Apply(s, FinisherJudges(i)), run)
    requires CloseTimesOut(i) !in run && r == AfterUnlock(i)
    ensures var s' := Exec(Apply(s, FinisherJudges(i)), run);
      i in s'.sups && (Enabled(s', r) ==> Apply(s', r).sups[i].crew.finWait == s'.sups[i].crew.finWait)
  {
    hide Reachable, Legal, Exec, Inv, Next, LocalEnabled;
    var s1 := Apply(s, FinisherJudges(i));
    JudgingIsOver(s, i);
    StepOfReachable(s, FinisherJudges(i));
    RunStartsNoCleanup(s1, run, i);
    IdleUnlock(Exec(s1, run), i);
    hide Apply, Enabled;
  }

  lemma JudgingIsOver(s: State, i: nat)
    requires Enabled(s, FinisherJudges(i))
    ensures i in Apply(s, FinisherJudges(i)).sups && !Apply(s, FinisherJudges(i)).sups[i].closeWaiting
  {
  }

  lemma IdleUnlock(s: State, i: nat)
    requires i in s.sups && !s.sups[i].closeWaiting
    ensures Enabled(s, AfterUnlock(i)) ==> Apply(s, AfterUnlock(i)).sups[i].crew.finWait == s.sups[i].crew.finWait
  {
  }

  /** A close that could not wait starts a clean-up thread; if that fails it
      terminates at once when the lock is free, and otherwise the request that has
      the lock will clean up, or the slot is given up already or by a reaper. */
  lemma CleanupIsStarted(s: State, i: nat, ok: bool)
    requires Reachable(s) && Enabled(s, SpawnFinisher(i, ok))
    ensures var p, p' := s.sups[i], Apply(s, SpawnFinisher(i, ok)).sups[i];
      && p'.crew.finWait == p.crew.finWait + (if ok then 1 else 0)
      && (ok || !p.lock.Free? ==> p'.lock == p.lock)
      && (!ok && p.lock.Free? ==> p'.lock == ByFinisher)
      && (!ok && p.lock.ByRequest? && !p.mishap ==> RequestWillFinish(p') || SlotSettled(p'))
  {
    ReachableLocal(s, i);
    hide Reachable;
  }

  // ----- When the slot is freed too early -----

  /** A supervisor without the slot is closed and has no child that is not reaped. */
  ghost predicate Safe(s: State) {
    forall i :: i in s.sups && s.sups[i].calls.released ==> s.sups[i].closed && s.sups[i].kid.live == {}
  }

  /** The steps that can decide to launch a child: the checks of _start and the
      retry test after a failed start. */
  predicate MayDecide(x: Action) {
    x.Check? || x.DecideRetry?
  }

  predicate Decides(s: State, x: Action) {
    Enabled(s, x) && MayDecide(x) && Apply(s, x).sups[x.i].request.Launching?
  }

  /** What a decision to launch relies on: no reaper is before its last check,
      and the slot is not given up. */
  predicate Guard(p: Sup) {
    p.crew.reapTail == 0 && !p.calls.released
  }

  /** Every decision to launch is taken with the guard. */
  predicate Guarded(s: State, run: seq<Action>)
    requires Legal(s, run)
    decreases |run|
  {
    run == [] ||
    ((Decides(s, run[0]) ==> Guard(s.sups[run[0].i])) && Guarded(Apply(s, run[0]), run[1..]))
  }

  ghost predicate LocalSafe(p: Sup) {
    && (p.crew.reapTail > 0 ==> p.kid.process.None? && !p.request.Launching?)
    && (p.calls.released ==> p.closed && p.kid.process.None? && !p.request.Launching?)
  }

  lemma RequestKeepsSafe(p: Sup, x: Action, child: nat)
    requires LocalInv(p) && LocalSafe(p) && LocalEnabled(p, x) && IsRequest(x)
    requires MayDecide(x) && DoRequest(p, x, child).request.Launching? ==> Guard(p)
    ensures LocalSafe(DoRequest(p, x, child))
  {
    hide CallInv, DutyInv, ChildInv, CloseInv, Stuck;
  }

  /** Nobody who may release meets a request about to launch. */
  lemma CloseKeepsSafe(p: Sup, x: Action, mine: bool)
    requires LocalInv(p) && LocalSafe(p) && LocalEnabled(p, x)
    ensures LocalSafe(DoClose(p, x, mine))
  {
    hide CallInv, DutyInv, ChildInv, Stuck;
  }

  lemma ReapKeepsSafe(p: Sup, x: Action, mine: bool)
    requires LocalInv(p) && LocalSafe(p) && LocalEnabled(p, x)
    ensures LocalSafe(DoReap(p, x, mine))
  {
    hide CallInv, DutyInv, ChildInv;
    if x.Reap? {
      ReapedKid(p.kid, x.child);
    }
  }

  lemma CallKeepsSafe(p: Sup, x: Action)
    requires LocalSafe(p) && LocalEnabled(p, x) && IsCall(x)
    ensures LocalSafe(p.(calls := DoCall(p.calls, x)))
  {
    CallReleasesNothing(p.calls, x);
  }

  lemma NextKeepsSafe(p: Sup, x: Action, child: nat, mine: bool)
    requires LocalInv(p) && LocalSafe(p) && LocalEnabled(p, x)
    requires MayDecide(x) && Next(p, x, child, mine).request.Launching? ==> Guard(p)
    ensures LocalSafe(Next(p, x, child, mine))
  {
    hide LocalInv, LocalSafe, DoRequest, DoReap, DoClose, DoCall;
    if IsRequest(x) {
      RequestKeepsSafe(p, x, child);
    } else if IsReap(x) {
      ReapKeepsSafe(p, x, mine);
    } else if IsCall(x) {
      CallKeepsSafe(p, x);
    } else {
      CloseKeepsSafe(p, x, mine);
    }
  }

  ghost predicate SafeInv(s: State) {
    Inv(s) && forall i :: i in s.sups ==> LocalSafe(s.sups[i])
  }

  lemma StepKeepsSafe(s: State, x: Action)
    requires SafeInv(s) && Enabled(s, x) && (Decides(s, x) ==> Guard(s.sups[x.i]))
    ensures SafeInv(Apply(s, x))
  {
    hide LocalInv, LocalEnabled, Next, Inv;
    StepKeepsInv(s, x);
    if !x.Claim? {
      assert LocalInv(s.sups[x.i]) by { InvLocal(s, x.i); }
      NextKeepsSafe(s.sups[x.i], x, s.nextChild, s.owner == Some(x.i));
    }
  }

  lemma InvLocal(s: State, i: nat)
    requires Inv(s) && i in s.sups
    ensures LocalInv(s.sups[i])
  {
  }

  lemma {:induction false} RunKeepsSafe(s: State, run: seq<Action>)
    requires SafeInv(s) && Legal(s, run) && Guarded(s, run)
    ensures SafeInv(Exec(s, run))
    decreases |run|
  {
    hide SafeInv, Enabled, Apply, Decides, Guard;
    if run != [] {
      StepKeepsSafe(s, run[0]);
      RunKeepsSafe(Apply(s, run[0]), run[1..]);
    }
  }

  lemma SafeInvMeans(s: State, i: nat)
    requires SafeInv(s) && i in s.sups
    ensures s.sups[i].calls.released ==> s.sups[i].closed && s.sups[i].kid.live == {}
    ensures s.sups[i].kid.live != {} ==> s.owner == Some(i)
  {
    assert LocalSafe(s.sups[i]) && LocalInv(s.sups[i]);
  }

  /** In every run whose launch decisions are guarded, on any device, the slot is
      given up only by a closed supervisor whose child is reaped, and no child
      comes after: so at most one supervisor has a child, and it owns the slot. */
  lemma SlotIsSafe(s0: State, run: seq<Action>, i: nat)
    requires Init(s0) && Legal(s0, run) && Guarded(s0, run) && i in Exec(s0, run).sups
    ensures var s := Exec(s0, run);
      && (s.sups[i].calls.released ==> s.sups[i].closed && s.sups[i].kid.live == {})
      && (s.sups[i].kid.live != {} ==> s.owner == Some(i))
  {
    InitInv(s0);
    hide Legal, Exec, Guarded;
    RunKeepsSafe(s0, run);
    SafeInvMeans(Exec(s0, run), i);
  }

  // ----- Without the guard it can be freed too early -----

  /** After an unguarded decision the launch, and if the slot is still held a
      close and the reaper's last check, free the slot under a running child. */
  function Breaking(p: Sup, i: nat): (run: seq<Action>) {
    [Launch(i, false)] + if p.calls.released then [] else [Close(i), ReapEnds(i)]
  }

  lemma LaunchLeavesChild(s: State, i: nat)
    requires i in s.sups && s.sups[i].request.Launching?
    ensures Enabled(s, Launch(i, false))
    ensures var s' := Apply(s, Launch(i, false));
      && i in s'.sups && s'.sups[i].kid.live != {} && s'.owner == s.owner
      && s'.sups[i].calls == s.sups[i].calls && s'.sups[i].crew == s.sups[i].crew
  {
    assert s.nextChild in s.sups[i].kid.live + {s.nextChild};
  }

  lemma CloseThenReapEnds(s: State, i: nat)
    requires s.owner == Some(i) && i in s.sups && s.sups[i].crew.reapTail > 0
    ensures Enabled(s, Close(i)) && Enabled(Apply(s, Close(i)), ReapEnds(i))
    ensures var s' := Apply(Apply(s, Close(i)), ReapEnds(i));
      i in s'.sups && s'.sups[i].calls.released && s'.sups[i].kid == s.sups[i].kid
  {
  }

  lemma ThreeSteps(s: State, a: Action, b: Action, c: Action)
    requires Enabled(s, a) && Enabled(Apply(s, a), b) && Enabled(Apply(Apply(s, a), b), c)
    ensures Legal(s, [a, b, c]) && Exec(s, [a, b, c]) == Apply(Apply(Apply(s, a), b), c)
  {
    hide Enabled, Apply;
    OneStep(Apply(Apply(s, a), b), c);
    assert [a, b, c][1..] == [b, c] && [b, c][1..] == [c];
  }

  lemma OneStep(s: State, a: Action)
    requires Enabled(s, a)
    ensures Legal(s, [a]) && Exec(s, [a]) == Apply(s, a)
  {
    hide Enabled, Apply;
    assert [a][1..] == [] && Legal(Apply(s, a), []);
  }

  lemma UnguardedLaunchBreaks(s: State, i: nat)
    requires Reachable(s) && i in s.sups && s.sups[i].request.Launching? && !Guard(s.sups[i])
    ensures var run := Breaking(s.sups[i], i); Legal(s, run) && !Safe(Exec(s, run))
  {
    assert s.owner == Some(i) <==> !s.sups[i].calls.released by { OwnerHoldsTheSlot(s, i); }
    hide Reachable, Apply, Enabled, Legal, Exec;
    LaunchLeavesChild(s, i);
    var s1 := Apply(s, Launch(i, false));
    if s.sups[i].calls.released {
      OneStep(s, Launch(i, false));
      assert Breaking(s.sups[i], i) == [Launch(i, false)];
      assert !Safe(s1);
    } else {
      CloseThenReapEnds(s1, i);
      ThreeSteps(s, Launch(i, false), Close(i), ReapEnds(i));
      assert Breaking(s.sups[i], i) == [Launch(i, false), Close(i), ReapEnds(i)];
      assert !Safe(Apply(Apply(s1, Close(i)), ReapEnds(i)));
    }
  }

  lemma OwnerHoldsTheSlot(s: State, i: nat)
    requires Reachable(s) && i in s.sups
    ensures s.owner == Some(i) <==> !s.sups[i].calls.released
  {
    hide Reachable, LocalInv;
    ReachableInv(s);
  }

  // ----- Exactly when -----

  predicate NoDecision(run: seq<Action>) {
    forall k :: 0 <= k < |run| ==> !MayDecide(run[k])
  }

  lemma {:induction false} ExecAppend(s: State, a: seq<Action>, b: seq<Action>)
    requires Legal(s, a)
    ensures Legal(s, a + b) <==> Legal(Exec(s, a), b)
    ensures Legal(s, a + b) ==> Exec(s, a + b) == Exec(Exec(s, a), b)
    decreases |a|
  {
    hide Enabled, Apply;
    if a == [] {
      assert a + b == b;
    } else {
      assert (a + b)[1..] == a[1..] + b;
      ExecAppend(Apply(s, a[0]), a[1..], b);
    }
  }

  lemma {:induction false} PrefixLegal(s: State, run: seq<Action>, k: nat)
    requires Legal(s, run) && k <= |run|
    ensures Legal(s, run[..k])
    ensures Guarded(s, run) ==> Guarded(s, run[..k])
    decreases k
  {
    hide Enabled, Apply, Decides, Guard;
    if k > 0 {
      assert run[..k][1..] == run[1..][..k - 1];
      PrefixLegal(Apply(s, run[0]), run[1..], k - 1);
    }
  }

  lemma {:induction false} GuardedAppend(s: State, a: seq<Action>, b: seq<Action>)
    requires Legal(s, a) && Guarded(s, a) && Legal(s, a + b) && NoDecision(b)
    ensures Guarded(s, a + b)
    decreases |a| + |b|
  {
    hide Enabled, Apply, Guard;
    if a != [] {
      assert (a + b)[1..] == a[1..] + b;
      GuardedAppend(Apply(s, a[0]), a[1..], b);
    } else if b != [] {
      assert a + b == b && [] + b[1..] == b[1..];
      assert Legal(Apply(s, b[0]), []);
      GuardedAppend(Apply(s, b[0]), [], b[1..]);
    }
  }

  lemma {:induction false} FirstUnguarded(s: State, run: seq<Action>) returns (k: nat)
    requires Legal(s, run) && !Guarded(s, run)
    ensures k < |run| && Legal(s, run[..k])
    ensures var t := Exec(s, run[..k]); Decides(t, run[k]) && !Guard(t.sups[run[k].i])
    decreases |run|
  {
    hide Apply, Guard, LocalEnabled;
    if Decides(s, run[0]) && !Guard(s.sups[run[0].i]) {
      k := 0;
      assert run[..0] == [];
    } else {
      k := FirstUnguarded(Apply(s, run[0]), run[1..]);
      k := k + 1;
      assert run[..k][1..] == run[1..][..k - 1];
    }
  }

  lemma DecisionLaunches(s: State, x: Action)
    requires Decides(s, x) && !Guard(s.sups[x.i])
    ensures x.i in Apply(s, x).sups
    ensures var p := Apply(s, x).sups[x.i]; p.request.Launching? && !Guard(p)
  {
    hide CallInv;
  }

  /** The slot stays safe throughout a run and every way it can go on without a
      further launch decision, if and only if all launch decisions in it are
      guarded. */
  lemma SlotSafeIff(s0: State, run: seq<Action>)
    requires Init(s0) && Legal(s0, run)
    ensures Guarded(s0, run) <==>
      forall k: nat, more :: k <= |run| && NoDecision(more) && Legal(s0, run[..k] + more) ==>
        Safe(Exec(s0, run[..k] + more))
  {
    if Guarded(s0, run) {
      forall k: nat, more | k <= |run| && NoDecision(more) && Legal(s0, run[..k] + more)
        ensures Safe(Exec(s0, run[..k] + more))
      {
        GuardedIsSafe(s0, run, k, more);
      }
    } else {
      var k, more := UnguardedIsUnsafe(s0, run);
    }
  }

  lemma GuardedIsSafe(s0: State, run: seq<Action>, k: nat, more: seq<Action>)
    requires Init(s0) && Legal(s0, run) && Guarded(s0, run) && k <= |run|
    requires NoDecision(more) && Legal(s0, run[..k] + more)
    ensures Safe(Exec(s0, run[..k] + more))
  {
    hide Legal, Exec, Guarded;
    PrefixLegal(s0, run, k);
    GuardedAppend(s0, run[..k], more);
    forall i | i in Exec(s0, run[..k] + more).sups
      ensures var p := Exec(s0, run[..k] + more).sups[i]; p.calls.released ==> p.closed && p.kid.live == {}
    {
      SlotIsSafe(s0, run[..k] + more, i);
    }
  }

  lemma UnguardedIsUnsafe(s0: State, run: seq<Action>) returns (k: nat, more: seq<Action>)
    requires Init(s0) && Legal(s0, run) && !Guarded(s0, run)
    ensures k <= |run| && NoDecision(more) && Legal(s0, run[..k] + more) && !Safe(Exec(s0, run[..k] + more))
  {
    hide Legal, Exec, Guarded, Apply, Enabled, Guard, Safe, Init;
    var j := FirstUnguarded(s0, run);
    var t, x := Exec(s0, run[..j]), run[j];
    DecisionLaunches(t, x);
    ExecSnoc(s0, run[..j], x);
    k := j + 1;
    assert run[..k] == run[..j] + [x];
    var s := Apply(t, x);
    assert Reachable(s);
    UnguardedLaunchBreaks(s, x.i);
    more := Breaking(s.sups[x.i], x.i);
    ExecAppend(s0, run[..k], more);
  }

  // ----- The two ways it happens -----

  /** The first supervisor alone, owning the slot or not. */
  function Solo(p: Sup, owner: Option<nat>, child: nat): (s: State) {
    State(owner, map[0 := p], 1, child)
  }

  lemma ExecSnoc(s: State, run: seq<Action>, x: Action)
    requires Legal(s, run) && Enabled(Exec(s, run), x)
    ensures Legal(s, run + [x]) && Exec(s, run + [x]) == Apply(Exec(s, run), x)
  {
    hide Legal, Exec, Enabled, Apply;
    OneStep(Exec(s, run), x);
    ExecAppend(s, run, [x]);
  }

  lemma ReachableStep(s: State, x: Action)
    requires Reachable(s) && Enabled(s, x)
    ensures Reachable(Apply(s, x))
  {
    hide Enabled, Apply, Init;
    var s0, run :| Init(s0) && Legal(s0, run) && Exec(s0, run) == s;
    ExecSnoc(s0, run, x);
  }

  /** One step of the lone supervisor, which still owns the slot. */
  lemma SoloStep(p: Sup, child: nat, x: Action) returns (p': Sup)
    requires Reachable(Solo(p, Some(0), child)) && !x.Claim? && x.i == 0 && LocalEnabled(p, x)
    ensures p' == Next(p, x, child, true)
    ensures p'.calls.released && !p.calls.released ==> Reachable(Solo(p', None, child + 1))
    ensures !(p'.calls.released && !p.calls.released) ==> Reachable(Solo(p', Some(0), child + 1))
  {
    hide Reachable, LocalEnabled, Next;
    var s := Solo(p, Some(0), child);
    p' := Next(p, x, child, true);
    assert s.sups[0 := p'] == map[0 := p'];
    ReachableStep(s, x);
  }

  /** The same once the slot is free. */
  lemma SoloStepFreed(p: Sup, child: nat, x: Action) returns (p': Sup)
    requires Reachable(Solo(p, None, child)) && !x.Claim? && x.i == 0 && LocalEnabled(p, x) && p.calls.released
    ensures p' == Next(p, x, child, false)
    ensures Reachable(Solo(p', None, child + 1))
  {
    hide Reachable, LocalEnabled, Next;
    var s := Solo(p, None, child);
    p' := Next(p, x, child, false);
    assert s.sups[0 := p'] == map[0 := p'];
    ReachableStep(s, x);
  }

  lemma Claimed(canRetry: bool)
    ensures Reachable(Solo(NewSup(canRetry), Some(0), 0))
  {
    var s0 := State(None, map[], 0, 0);
    assert Init(s0) && Legal(s0, []) && Exec(s0, []) == s0;
    ReachableStep(s0, Claim(canRetry));
    assert map[][0 := NewSup(canRetry)] == map[0 := NewSup(canRetry)];
  }

  /** A first request up to its handshake. */
  lemma FirstHandshake(canRetry: bool) returns (p: Sup)
    ensures Reachable(Solo(p, Some(0), 4))
    ensures p == NewSup(canRetry).(
      kid := Kid(Some(2), {2}, false, multiset{}), lock := ByRequest, request := Handshaking)
  {
    hide Reachable;
    Claimed(canRetry);
    var p1 := SoloStep(NewSup(canRetry), 0, BeginRequest(0));
    var p2 := SoloStep(p1, 1, Check(0, true, false));
    var p3 := SoloStep(p2, 2, Launch(0, false));
    p := SoloStep(p3, 3, CheckClosed(0, Reaped));
  }

  lemma CloseGivesUp() returns (p: Sup)
    ensures Reachable(Solo(p, Some(0), 6)) && p.closed && !p.calls.released
    ensures p.crew.timedOut == 1 && p.crew.reapTail == 0
    ensures p.kid == Kid(Some(2), {2}, false, multiset{}) && p.request.Handshaking? && p.canRetry
  {
    hide Reachable;
    var p0 := FirstHandshake(true);
    var p1 := SoloStep(p0, 4, Close(0));
    p := SoloStep(p1, 5, CloseTimesOut(0));
  }

  /** Close gives up on the lock and hands the child to a reaper. */
  lemma CloseHandsOver() returns (p: Sup)
    ensures Reachable(Solo(p, Some(0), 7)) && p.closed && !p.calls.released && p.crew.reapTail == 0
    ensures p.kid == Kid(Some(2), {2}, true, multiset{2}) && p.request.Handshaking? && p.canRetry
  {
    hide Reachable;
    var p0 := CloseGivesUp();
    p := SoloStep(p0, 6, TimedOutTerminates(0, TimedOut));
    assert multiset{} + multiset{2} == multiset{2};
  }

  /** The reaper frees the slot while the request is still handshaking. */
  lemma ReaperFrees() returns (p: Sup)
    ensures Reachable(Solo(p, None, 9)) && p.calls.released && p.crew.reapTail == 0
    ensures p.kid == Kid(None, {}, false, multiset{}) && p.request.Handshaking? && p.canRetry
  {
    hide Reachable;
    var p0 := CloseHandsOver();
    var p1 := SoloStep(p0, 7, Reap(0, 2));
    assert multiset{2} - multiset{2} == multiset{};
    p := SoloStep(p1, 8, ReapEnds(0));
  }

  /** s takes an unguarded decision, and some way on from there ends unsafe. */
  ghost predicate Breaks(s: State, x: Action) {
    && Reachable(s) && Decides(s, x)
    && exists run :: Legal(Apply(s, x), run) && !Safe(Exec(Apply(s, x), run))
  }

  lemma UnguardedBreaks(s: State, x: Action)
    requires Reachable(s) && Decides(s, x) && !Guard(s.sups[x.i])
    ensures Breaks(s, x)
  {
    ReachableStep(s, x);
    DecisionLaunches(s, x);
    hide Reachable, Apply, Enabled, Guard;
    var s' := Apply(s, x);
    UnguardedLaunchBreaks(s', x.i);
    assert Legal(s', Breaking(s'.sups[x.i], x.i));
  }

  /** On a device other than the CPU, the retry launches a second child without
      looking at _closed, and the slot is already free. */
  lemma RetryAfterRelease() returns (s: State, x: Action)
    ensures Breaks(s, x) && x.DecideRetry?
    ensures s.sups[x.i].crew.reapTail == 0 && s.sups[x.i].calls.released
  {
    hide Reachable;
    var p0 := ReaperFrees();
    var p1 := SoloStepFreed(p0, 9, Greet(0, false, false, true, Reaped));
    s, x := Solo(p1, None, 10), DecideRetry(0);
    UnguardedBreaks(s, x);
  }

  lemma RequestHandsOver(canRetry: bool) returns (p: Sup)
    ensures Reachable(Solo(p, Some(0), 6)) && p.canRetry == canRetry
    ensures p.kid == Kid(Some(2), {2}, true, multiset{2}) && p.request.Finishing? && p.crew.reapTail == 0
    ensures !p.closed && !p.calls.released
  {
    hide Reachable;
    var p0 := FirstHandshake(canRetry);
    var p1 := SoloStep(p0, 4, Greet(0, false, false, false, TimedOut));
    assert multiset{} + multiset{2} == multiset{2};
    p := SoloStep(p1, 5, DecideRetry(0));
  }

  /** A request fails, its child goes to a reaper, and the reaper gets to just
      before its last check. */
  lemma ReaperPauses(canRetry: bool) returns (p: Sup)
    ensures Reachable(Solo(p, Some(0), 8)) && p.canRetry == canRetry
    ensures p.kid == Kid(None, {}, false, multiset{}) && p.request.NoRequest? && p.lock.Free?
    ensures p.crew.reapTail == 1 && !p.closed && !p.calls.released
  {
    hide Reachable;
    var p0 := RequestHandsOver(canRetry);
    var p1 := SoloStep(p0, 6, Unlock(0));
    p := SoloStep(p1, 7, Reap(0, 2));
    assert multiset{2} - multiset{2} == multiset{};
  }

  /** On any device: a new child starts and close() begins before the reaper's
      last check, which then frees the slot under the new child. */
  lemma LateReaperRelease(canRetry: bool) returns (s: State, x: Action)
    ensures Breaks(s, x) && x.Check? && s.sups[x.i].canRetry == canRetry
    ensures s.sups[x.i].crew.reapTail == 1 && !s.sups[x.i].calls.released && !s.sups[x.i].closed
  {
    hide Reachable;
    var p0 := ReaperPauses(canRetry);
    var p1 := SoloStep(p0, 8, BeginRequest(0));
    s, x := Solo(p1, Some(0), 9), Check(0, true, false);
    UnguardedBreaks(s, x);
  }
}
