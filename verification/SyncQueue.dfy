/** The bounded drop-oldest sync queue, its worker and shutdown, as steps of one
    provider generation (__init__.py: sync_turn, _worker_loop, shutdown).

    The producer's critical section is split at every queue operation, because
    the worker's queue operations do not take the provider's state lock; ledger
    updates do, so they need the lock free. Any number of producers take turns
    in the one critical section. */
module SyncQueue {
  import opened Graph
  import opened Health

  const CAPACITY: nat := 16
  const BATCH_SIZE: nat := 8

  /** Turns are numbered in the order they are put. */
  datatype Item = Turn(id: nat) | Sentinel

  /** Where the producer holding the state lock is; Free when nobody holds it. */
  datatype Producer =
    | Free
    | Putting                // past the gate, first put due
    | Admitting              // put succeeded, admit due
    | Evicting               // queue was full, get due
    | Evicted(item: Item)    // removed the oldest, task_done due
    | Dropping(item: Item)   // drop_pending due
    | Retrying               // second put due
    | Rejecting              // second put found the queue full

  datatype Worker =
    | Getting                       // at the blocking get
    | TimedOut                      // the get found nothing; shutdown check due
    | Collecting(items: seq<Item>)  // holds at least one turn, may drain a batch
    | Draining(items: seq<Item>)    // the turns (and sentinel) still to go
    | Working(turn: Item, items: seq<Item>)
    | Settling(items: seq<Item>)    // outcome published, task_done due
    | Leaving                       // took the sentinel at the get, task_done due
    | Exited(bySentinel: bool)

  datatype Poster = NotPosted | Posting | Posted | GaveUp

  datatype State = State(
    queue: seq<Item>,
    producer: Producer,
    worker: Worker,
    poster: Poster,
    shutdown: bool,     // _shutdown_started
    batch: bool,        // the experimental_batch_sync flag
    unfinished: int,    // the queue's count of puts less task_dones
    nextId: nat,
    started: seq<Item>, // turns the worker started, in order
    evicted: seq<Item>, // turns the producers removed, in order
    ledger: Ledger)

  datatype Outcome = Completed | ReportedDrop | Refused | Failed(isPartial: bool, isUncertain: bool)

  datatype Action =
    | RejectClosed | Enter | Put | Admit | Evict | EvictDone | DropOldest | PutAgain | RejectFull
    | Get | Timeout | CheckShutdown | CollectMore | StopCollecting | StartTurn | FinishTurn(outcome: Outcome)
    | TaskDone | TakeSentinel | Leave | NextGet
    | BeginShutdown | PostSentinel | GiveUp

  predicate Init(s: State) {
    && s.queue == [] && s.producer.Free? && s.worker.Getting? && s.poster.NotPosted? && !s.shutdown
    && s.unfinished == 0 && s.nextId == 0 && s.started == [] && s.evicted == [] && s.ledger == EMPTY_LEDGER
  }

  predicate Enabled(s: State, a: Action) {
    match a
    case RejectClosed => s.producer.Free? && s.shutdown
    case Enter => s.producer.Free? && !s.shutdown
    case Put => s.producer.Putting?
    case Admit => s.producer.Admitting?
    case Evict => s.producer.Evicting?
    case EvictDone => s.producer.Evicted?
    case DropOldest => s.producer.Dropping?
    case PutAgain => s.producer.Retrying?
    case RejectFull => s.producer.Rejecting?
    case Get => s.worker.Getting? && s.queue != []
    case Timeout => s.worker.Getting? && s.queue == []
    case CheckShutdown => s.worker.TimedOut?
    case CollectMore => s.worker.Collecting? && s.batch && |s.worker.items| < BATCH_SIZE && s.queue != []
    case StopCollecting => s.worker.Collecting? && (!s.batch || |s.worker.items| >= BATCH_SIZE || s.queue == [])
    case StartTurn => s.worker.Draining? && s.worker.items != [] && s.worker.items[0].Turn? && s.producer.Free?
    case FinishTurn(_) => s.worker.Working? && s.producer.Free?
    case TaskDone => s.worker.Settling?
    case TakeSentinel => s.worker.Draining? && s.worker.items != [] && s.worker.items[0].Sentinel?
    case Leave => s.worker.Leaving?
    case NextGet => s.worker.Draining? && s.worker.items == []
    case BeginShutdown => s.producer.Free? && !s.shutdown
    case PostSentinel => s.poster.Posting? && |s.queue| < CAPACITY
    case GiveUp => s.poster.Posting?
  }

  function PutTurn(s: State): (s': State) {
    s.(queue := s.queue + [Turn(s.nextId)], unfinished := s.unfinished + 1, nextId := s.nextId + 1,
       producer := Admitting)
  }

  function Publish(l: Ledger, o: Outcome): (l': Ledger) {
    match o
    case Completed => l.Complete()
    case ReportedDrop => l.DropInFlight()
    case Refused => l.RejectInFlight()
    case Failed(p, u) => l.Fail(p, u)
  }

  function Apply(s: State, a: Action): (s': State)
    requires Enabled(s, a)
  {
    match a
    case RejectClosed => s.(ledger := s.ledger.Reject())
    case Enter => s.(producer := Putting)
    case Put => if |s.queue| < CAPACITY then PutTurn(s) else s.(producer := Evicting)
    case Admit => s.(ledger := s.ledger.Admit(), producer := Free)
    case Evict =>
      if s.queue == [] then s.(producer := Retrying)
      else s.(queue := s.queue[1..], producer := Evicted(s.queue[0]), evicted := s.evicted + [s.queue[0]])
    case EvictDone => s.(unfinished := s.unfinished - 1, producer := Dropping(s.producer.item))
    case DropOldest => s.(ledger := s.ledger.DropPending(), producer := Retrying)
    case PutAgain => if |s.queue| < CAPACITY then PutTurn(s) else s.(producer := Rejecting)
    case RejectFull => s.(ledger := s.ledger.Reject(), producer := Free)
    case Get =>
      s.(queue := s.queue[1..], worker := if s.queue[0].Sentinel? then Leaving else Collecting([s.queue[0]]))
    case Timeout => s.(worker := TimedOut)
    case CheckShutdown => s.(worker := if s.shutdown then Exited(false) else Getting)
    case CollectMore =>
      var items := s.worker.items + [s.queue[0]];
      s.(queue := s.queue[1..], worker := if s.queue[0].Sentinel? then Draining(items) else Collecting(items))
    case StopCollecting => s.(worker := Draining(s.worker.items))
    case StartTurn =>
      s.(worker := Working(s.worker.items[0], s.worker.items[1..]), started := s.started + [s.worker.items[0]],
         ledger := s.ledger.Start())
    case FinishTurn(o) => s.(worker := Settling(s.worker.items), ledger := Publish(s.ledger, o))
    case TaskDone => s.(worker := Draining(s.worker.items), unfinished := s.unfinished - 1)
    case TakeSentinel => s.(worker := Exited(true), unfinished := s.unfinished - 1)
    case Leave => s.(worker := Exited(true), unfinished := s.unfinished - 1)
    case NextGet => s.(worker := Getting)
    case BeginShutdown => s.(shutdown := true, poster := Posting)
    case PostSentinel => s.(queue := s.queue + [Sentinel], unfinished := s.unfinished + 1, poster := Posted)
    case GiveUp => s.(poster := GaveUp)
  }

  predicate Legal(s: State, run: seq<Action>)
    decreases |run|
  {
    run == [] || (Enabled(s, run[0]) && Legal(Apply(s, run[0]), run[1..]))
  }

  function Exec(s: State, run: seq<Action>): (s': State)
    requires Legal(s, run)
    decreases |run|
  {
    if run == [] then s else Exec(Apply(s, run[0]), run[1..])
  }

  // ----- The invariant -----

  /** What the worker has taken from the queue and not yet started. */
  function Held(w: Worker): (r: seq<Item>) {
    match w
    case Collecting(items) => items
    case Draining(items) => items
    case Working(_, items) => items
    case Settling(items) => items
    case Leaving => [Sentinel]
    case _ => []
  }

  /** How many turns a list holds. */
  function CountTurns(items: seq<Item>): (n: nat) {
    if items == [] then 0
    else CountTurns(items[..|items| - 1]) + (if items[|items| - 1].Turn? then 1 else 0)
  }

  /** The same for a list whose sentinel, if any, is last. */
  function Turns(items: seq<Item>): (n: nat) {
    if items != [] && items[|items| - 1].Sentinel? then |items| - 1 else |items|
  }

  lemma {:induction false} TurnsAreCounted(items: seq<Item>)
    requires SentinelLast(items)
    ensures Turns(items) == CountTurns(items)
  {
    if items != [] {
      TurnsAreCounted(items[..|items| - 1]);
    }
  }

  /** Everything taken or queued and not started, oldest first. */
  function Line(s: State): (r: seq<Item>) {
    Held(s.worker) + s.queue
  }

  ghost predicate SentinelLast(items: seq<Item>) {
    forall i :: 0 <= i < |items| - 1 ==> items[i].Turn?
  }

  /** The sentinel exists only after it was posted, and then until it is taken. */
  ghost predicate SentinelInv(s: State) {
    && SentinelLast(Line(s))
    && (Sentinel in Line(s) ==> s.poster.Posted?)
    && (s.poster.NotPosted? <==> !s.shutdown)
    && (!s.producer.Free? ==> !s.shutdown)
    && (s.worker.Exited? ==> s.shutdown)
    && (s.worker == Exited(true) ==> s.poster.Posted? && s.queue == [])
    && (s.poster.Posted? && !s.worker.Exited? ==> Sentinel in Line(s))
  }

  /** The batch never exceeds its size, and the worker takes the lock only between turns. */
  ghost predicate WorkerInv(s: State) {
    && (s.worker.Collecting? ==> s.worker.items != [] && forall x :: x in s.worker.items ==> x.Turn?)
    && |Held(s.worker)| <= BATCH_SIZE && (!s.batch ==> |Held(s.worker)| <= 1)
    && (s.worker.Working? ==> s.worker.turn.Turn?)
  }

  /** Turns the worker has started and not finished. */
  function Running(w: Worker): (n: nat) {
    match w
    case Working(_, _) => 1
    case _ => 0
  }

  /** Taken items whose task_done is still due though they left the line. */
  function Undone(w: Worker): (n: nat) {
    match w
    case Working(_, _) => 1
    case Settling(_) => 1
    case _ => 0
  }

  /** Turns in the producer's hands: evicted and not yet counted as dropped,
      or put and not yet counted as accepted. */
  function Uncounted(p: Producer): (n: int) {
    match p
    case Evicted(_) => 1
    case Dropping(_) => 1
    case Admitting => -1
    case _ => 0
  }

  function EvictedUndone(p: Producer): (n: nat) {
    match p
    case Evicted(_) => 1
    case _ => 0
  }

  ghost predicate CapacityInv(s: State) {
    && |s.queue| <= CAPACITY
    && (s.producer.Evicting? ==> |Held(s.worker)| + |s.queue| >= CAPACITY)
    && (s.producer.Evicted? || s.producer.Dropping? || s.producer.Retrying? ==> |s.queue| < CAPACITY)
    && !s.producer.Rejecting?
    && (s.producer.Evicted? || s.producer.Dropping? ==> s.producer.item.Turn?)
  }

  ghost predicate LedgerInv(s: State) {
    && s.ledger.Reconciled()
    && s.ledger.inFlight == Running(s.worker)
    && s.ledger.pending == Turns(Line(s)) + Uncounted(s.producer)
  }

  ghost predicate BalanceInv(s: State) {
    s.unfinished == |Line(s)| + Undone(s.worker) + EvictedUndone(s.producer)
  }

  ghost predicate Ascending(items: seq<Item>) {
    forall i, j :: 0 <= i < j < |items| && items[i].Turn? && items[j].Turn? ==> items[i].id < items[j].id
  }

  ghost predicate Below(items: seq<Item>, n: nat) {
    forall i :: 0 <= i < |items| && items[i].Turn? ==> items[i].id < n
  }

  /** Turns leave in the order they came: started, then in line, then not yet put. */
  ghost predicate InOrder(started: seq<Item>, line: seq<Item>, n: nat) {
    Ascending(started + line) && Below(started + line, n)
  }

  ghost predicate OrderInv(s: State) {
    InOrder(s.started, Line(s), s.nextId)
  }

  ghost predicate Inv(s: State) {
    && SentinelInv(s) && WorkerInv(s) && CapacityInv(s) && LedgerInv(s) && BalanceInv(s) && OrderInv(s)
  }

  lemma EmptyLedger(s: State)
    requires s.ledger == EMPTY_LEDGER
    ensures s.ledger.Reconciled() && s.ledger.inFlight == 0 && s.ledger.pending == 0
  {
  }

  lemma NothingInLine(s: State)
    requires s.queue == [] && s.worker.Getting? && s.producer.Free?
    ensures Turns(Line(s)) == 0 && Running(s.worker) == 0 && Uncounted(s.producer) == 0
  {
    assert Line(s) == [];
  }

  lemma LedgerAtRest(s: State)
    requires s.ledger.Reconciled() && s.ledger.inFlight == 0 && s.ledger.pending == 0
    requires Turns(Line(s)) == 0 && Running(s.worker) == 0 && Uncounted(s.producer) == 0
    ensures LedgerInv(s)
  {
  }

  lemma InitLedger(s: State)
    requires Init(s)
    ensures LedgerInv(s)
  {
    EmptyLedger(s);
    NothingInLine(s);
    LedgerAtRest(s);
  }

  lemma InitLine(s: State)
    requires Init(s)
    ensures SentinelInv(s) && WorkerInv(s) && CapacityInv(s) && BalanceInv(s) && OrderInv(s)
  {
    assert Line(s) == [] && s.started + Line(s) == [];
  }

  lemma InitInv(s: State)
    requires Init(s)
    ensures Inv(s)
  {
    hide Init, LedgerInv, SentinelInv, WorkerInv, CapacityInv, BalanceInv, OrderInv;
    InitLedger(s);
    InitLine(s);
  }

  /** How each step moves the line: it keeps it, drops its head, removes the
      queue's head, or appends to it. */
  ghost predicate Moves(s: State, a: Action)
    requires Enabled(s, a)
  {
    var s' := Apply(s, a);
    match a
    case Put => Line(s') == if |s.queue| < CAPACITY then Line(s) + [Turn(s.nextId)] else Line(s)
    case PutAgain => Line(s') == Line(s) + [Turn(s.nextId)]
    case PostSentinel => Line(s') == Line(s) + [Sentinel]
    case StartTurn => Line(s) == [s.worker.items[0]] + Line(s')
    case TakeSentinel => Line(s) == [Sentinel] && Line(s') == []
    case Leave => Line(s) == [Sentinel] && Line(s') == []
    case Evict => s.queue != [] ==> Line(s) == Held(s.worker) + ([s.queue[0]] + s'.queue)
    case _ => Line(s') == Line(s)
  }

  predicate ByWorker(a: Action) {
    a.Get? || a.Timeout? || a.CheckShutdown? || a.CollectMore? || a.StopCollecting? || a.StartTurn? || a.FinishTurn?
    || a.TaskDone? || a.TakeSentinel? || a.Leave? || a.NextGet?
  }

  predicate Takes(a: Action) {
    a.Get? || a.CollectMore? || a.StartTurn? || a.TakeSentinel? || a.Leave?
  }

  lemma SentinelAlone(line: seq<Item>)
    requires SentinelLast(line) && line != [] && line[0].Sentinel?
    ensures line == [Sentinel]
  {
  }

  lemma FromQueueToHeld(held: seq<Item>, queue: seq<Item>)
    requires queue != []
    ensures (held + [queue[0]]) + queue[1..] == held + queue
  {
  }

  lemma WorkerTakesSentinel(s: State, a: Action)
    requires Enabled(s, a) && SentinelLast(Line(s)) && (a.TakeSentinel? || a.Leave?)
    ensures Moves(s, a)
  {
    SentinelAlone(Line(s));
  }

  lemma WorkerTakesTurn(s: State, a: Action)
    requires Enabled(s, a) && a.StartTurn?
    ensures Moves(s, a)
  {
    assert s.worker.items == [s.worker.items[0]] + s.worker.items[1..];
  }

  lemma WorkerTakesQueued(s: State, a: Action)
    requires Enabled(s, a) && (a.Get? || a.CollectMore?)
    ensures Moves(s, a)
  {
    FromQueueToHeld(Held(s.worker), s.queue);
  }

  lemma WorkerTakes(s: State, a: Action)
    requires Enabled(s, a) && SentinelLast(Line(s)) && Takes(a)
    ensures Moves(s, a)
  {
    hide Moves, Enabled, SentinelLast, Line;
    if a.TakeSentinel? || a.Leave? {
      WorkerTakesSentinel(s, a);
    } else if a.StartTurn? {
      WorkerTakesTurn(s, a);
    } else {
      WorkerTakesQueued(s, a);
    }
  }

  lemma ProducerMoves(s: State, a: Action)
    requires Enabled(s, a) && !ByWorker(a)
    requires a.PutAgain? ==> |s.queue| < CAPACITY
    ensures Moves(s, a)
  {
    if a.Evict? && s.queue != [] {
      assert s.queue == [s.queue[0]] + s.queue[1..];
    }
  }

  lemma LineMoves(s: State, a: Action)
    requires Enabled(s, a) && SentinelLast(Line(s))
    requires a.PutAgain? ==> |s.queue| < CAPACITY
    ensures Moves(s, a)
  {
    if Takes(a) {
      WorkerTakes(s, a);
    } else if !ByWorker(a) {
      ProducerMoves(s, a);
    }
  }

  /** Removing the queue's head keeps the rest of the line as it was. */
  lemma OrderAfterRemoval(started: seq<Item>, held: seq<Item>, x: Item, rest: seq<Item>, n: nat)
    requires InOrder(started, held + ([x] + rest), n)
    ensures InOrder(started, held + rest, n)
  {
    var before, after := started + (held + ([x] + rest)), started + (held + rest);
    var k := |started| + |held|;
    assert forall i :: 0 <= i < |after| ==> after[i] == before[if i < k then i else i + 1];
  }

  lemma OrderAfterPut(started: seq<Item>, line: seq<Item>, x: Item, n: nat, n': nat)
    requires InOrder(started, line, n) && n <= n'
    requires x.Turn? ==> n <= x.id < n'
    ensures InOrder(started, line + [x], n')
  {
    var before, after := started + line, started + (line + [x]);
    assert forall i :: 0 <= i < |before| ==> after[i] == before[i];
    assert after[|before|] == x;
  }

  lemma OrderAfterStart(started: seq<Item>, x: Item, rest: seq<Item>, n: nat)
    requires InOrder(started, [x] + rest, n)
    ensures InOrder(started + [x], rest, n)
  {
    assert started + ([x] + rest) == started + [x] + rest;
  }

  lemma OrderAfterSentinel(started: seq<Item>, n: nat)
    requires InOrder(started, [Sentinel], n)
    ensures InOrder(started, [], n)
  {
    assert (started + [Sentinel])[..|started|] == started + [];
  }

  lemma StepKeepsOrder(s: State, a: Action)
    requires Inv(s) && Enabled(s, a)
    ensures OrderInv(Apply(s, a))
  {
    hide InOrder, SentinelInv, LedgerInv, BalanceInv, WorkerInv;
    assert SentinelLast(Line(s)) by { InvParts(s); }
    var s' := Apply(s, a);
    LineMoves(s, a);
    match a {
      case Put => OrderAfterPut(s.started, Line(s), Turn(s.nextId), s.nextId, s.nextId + 1);
      case PutAgain => OrderAfterPut(s.started, Line(s), Turn(s.nextId), s.nextId, s.nextId + 1);
      case PostSentinel => OrderAfterPut(s.started, Line(s), Sentinel, s.nextId, s.nextId);
      case StartTurn => OrderAfterStart(s.started, s.worker.items[0], Line(s'), s.nextId);
      case TakeSentinel => OrderAfterSentinel(s.started, s.nextId);
      case Leave => OrderAfterSentinel(s.started, s.nextId);
      case Evict =>
        if s.queue != [] {
          OrderAfterRemoval(s.started, Held(s.worker), s.queue[0], s'.queue, s.nextId);
        }
      case _ =>
    }
  }

  lemma InvParts(s: State)
    requires Inv(s)
    ensures SentinelLast(Line(s))
  {
  }

  lemma StepKeepsSentinel(s: State, a: Action)
    requires Inv(s) && Enabled(s, a)
    ensures SentinelInv(Apply(s, a))
  {
    hide LedgerInv, BalanceInv, OrderInv, Held;
    LineMoves(s, a);
    if ByWorker(a) {
      WorkerKeepsSentinel(s, a);
    } else {
      ProducerKeepsSentinel(s, a);
    }
  }

  lemma ProducerKeepsSentinel(s: State, a: Action)
    requires SentinelInv(s) && CapacityInv(s) && Enabled(s, a) && Moves(s, a) && !ByWorker(a)
    ensures SentinelInv(Apply(s, a))
  {
    if a.Evict? && s.queue != [] {
      SentinelAfterRemoval(Held(s.worker), s.queue[0], Apply(s, a).queue);
    } else if a.PostSentinel? {
      SentinelAfterPut(Line(s), Sentinel);
    } else if a.Put? || a.PutAgain? {
      SentinelAfterPut(Line(s), Turn(s.nextId));
    }
    hide Held, CapacityInv, SentinelLast;
  }

  lemma SentinelAfterPut(line: seq<Item>, x: Item)
    ensures Sentinel !in line ==> SentinelLast(line + [x])
    ensures Sentinel in line + [x] <==> Sentinel in line || x == Sentinel
  {
    if Sentinel !in line {
      forall i | 0 <= i < |line| ensures line[i].Turn? {
        assert line[i] in line;
      }
    }
  }

  lemma WorkerKeepsSentinel(s: State, a: Action)
    requires SentinelInv(s) && WorkerInv(s) && Enabled(s, a) && Moves(s, a) && ByWorker(a)
    ensures SentinelInv(Apply(s, a))
  {
    if a.StartTurn? {
      StartKeepsSentinel(s);
    } else if a.TakeSentinel? || a.Leave? {
      TakingKeepsSentinel(s, a);
    } else {
      hide SentinelLast, Held;
    }
  }

  lemma StartKeepsSentinel(s: State)
    requires SentinelInv(s) && Enabled(s, StartTurn) && Moves(s, StartTurn)
    ensures SentinelInv(Apply(s, StartTurn))
  {
    var x, rest := s.worker.items[0], Line(Apply(s, StartTurn));
    assert [] + ([x] + rest) == [x] + rest && [] + rest == rest;
    SentinelAfterRemoval([], x, rest);
    hide SentinelLast, Line;
  }

  lemma TakingKeepsSentinel(s: State, a: Action)
    requires SentinelInv(s) && Enabled(s, a) && Moves(s, a) && (a.TakeSentinel? || a.Leave?)
    ensures SentinelInv(Apply(s, a))
  {
    assert |Line(s)| == 1 && |Held(s.worker)| >= 1;
    assert s.queue == [];
    assert Sentinel in Line(s);
  }

  lemma SentinelAfterRemoval(held: seq<Item>, x: Item, rest: seq<Item>)
    requires SentinelLast(held + ([x] + rest))
    ensures SentinelLast(held + rest)
    ensures Sentinel in held + rest ==> Sentinel in held + ([x] + rest)
  {
    var before, after := held + ([x] + rest), held + rest;
    assert forall i :: 0 <= i < |after| ==> after[i] == before[if i < |held| then i else i + 1];
  }

  lemma StepKeepsWorker(s: State, a: Action)
    requires Inv(s) && Enabled(s, a)
    ensures WorkerInv(Apply(s, a))
  {
    hide LedgerInv, BalanceInv, OrderInv;
  }

  lemma StepKeepsCapacity(s: State, a: Action)
    requires Inv(s) && Enabled(s, a)
    ensures CapacityInv(Apply(s, a))
  {
    hide LedgerInv, BalanceInv, OrderInv;
    if a.Evict? {
      EvictsATurn(s);
    }
  }

  lemma PublishMoves(l: Ledger, o: Outcome)
    requires l.Reconciled() && l.inFlight > 0
    ensures var l' := Publish(l, o); l'.Reconciled() && l'.inFlight == l.inFlight - 1 && l'.pending == l.pending
  {
    ReconciledIff(l, o.Failed? && o.isPartial, o.Failed? && o.isUncertain);
  }

  lemma StartMoves(l: Ledger)
    requires l.Reconciled() && l.pending > 0
    ensures l.Start().Reconciled() && l.Start().inFlight == l.inFlight + 1 && l.Start().pending == l.pending - 1
  {
  }

  lemma TurnsAfterHead(x: Item, rest: seq<Item>)
    requires x.Turn?
    ensures Turns([x] + rest) == Turns(rest) + 1
  {
  }

  /** A step that moves no turn and touches no counter. */
  lemma LedgerUntouched(s: State, s': State)
    requires LedgerInv(s) && s'.ledger == s.ledger && Running(s'.worker) == Running(s.worker)
    requires Turns(Line(s')) + Uncounted(s'.producer) == Turns(Line(s)) + Uncounted(s.producer)
    ensures LedgerInv(s')
  {
  }

  lemma WorkerKeepsLedger(s: State, a: Action)
    requires Inv(s) && Enabled(s, a) && ByWorker(a)
    ensures LedgerInv(Apply(s, a))
  {
    hide SentinelInv, WorkerInv, CapacityInv, BalanceInv, OrderInv, Turns, Publish, Held;
    assert SentinelLast(Line(s)) by { InvParts(s); }
    LineMoves(s, a);
    var s' := Apply(s, a);
    if a.FinishTurn? {
      PublishMoves(s.ledger, a.outcome);
    } else if a.StartTurn? {
      TurnsAfterHead(s.worker.items[0], Line(s'));
      StartMoves(s.ledger);
    } else {
      SentinelIsNoTurn();
      LedgerUntouched(s, s');
    }
  }

  lemma SentinelIsNoTurn()
    ensures Turns([Sentinel]) == 0 && Turns([]) == 0
  {
  }

  lemma ProducerKeepsLedger(s: State, a: Action)
    requires Inv(s) && Enabled(s, a) && !ByWorker(a)
    ensures LedgerInv(Apply(s, a))
  {
    hide SentinelInv, WorkerInv, BalanceInv, OrderInv, Held, Turns;
    assert SentinelLast(Line(s)) by { InvParts(s); }
    LineMoves(s, a);
    if a.Evict? {
      EvictsATurn(s);
      TurnsAfterRemoval(Held(s.worker), s.queue[0], s.queue[1..]);
    } else if a.Put? || a.PutAgain? {
      assert Sentinel !in Line(s) by { NoSentinelYet(s); }
      TurnsAfterPut(Line(s), Turn(s.nextId));
    } else if a.PostSentinel? {
      assert Sentinel !in Line(s) by { NoSentinelYet(s); }
      TurnsAfterPut(Line(s), Sentinel);
    }
  }

  lemma NoSentinelYet(s: State)
    requires SentinelInv(s) && (!s.producer.Free? || s.poster.Posting?)
    ensures Sentinel !in Line(s)
  {
  }

  lemma TurnsAfterPut(line: seq<Item>, x: Item)
    requires Sentinel !in line
    ensures Turns(line + [x]) == Turns(line) + if x.Turn? then 1 else 0
  {
    if line != [] {
      assert line[|line| - 1] in line;
    }
  }

  lemma TurnsAfterRemoval(held: seq<Item>, x: Item, rest: seq<Item>)
    requires x.Turn? && SentinelLast(held + ([x] + rest))
    ensures Turns(held + ([x] + rest)) == Turns(held + rest) + 1
  {
    var before, after := held + ([x] + rest), held + rest;
    if rest == [] && held != [] {
      assert before[|held| - 1] == held[|held| - 1];
    }
  }

  /** Eviction always finds something, and never the sentinel. */
  lemma EvictsATurn(s: State)
    requires Inv(s) && s.producer.Evicting?
    ensures s.queue != [] && s.queue[0].Turn?
  {
    assert s.queue != [];
    assert Line(s)[|Held(s.worker)|] == s.queue[0];
    assert Sentinel !in Line(s);
  }

  lemma StepKeepsLedger(s: State, a: Action)
    requires Inv(s) && Enabled(s, a)
    ensures LedgerInv(Apply(s, a))
  {
    if ByWorker(a) {
      WorkerKeepsLedger(s, a);
    } else {
      ProducerKeepsLedger(s, a);
    }
  }

  lemma StepKeepsBalance(s: State, a: Action)
    requires Inv(s) && Enabled(s, a)
    ensures BalanceInv(Apply(s, a))
  {
    hide LedgerInv, OrderInv, SentinelInv, WorkerInv, SentinelLast;
    assert SentinelLast(Line(s)) by { InvParts(s); }
    LineMoves(s, a);
    if a.Evict? {
      assert s.queue != [] by { EvictsATurn(s); }
    }
  }

  lemma StepKeepsInv(s: State, a: Action)
    requires Inv(s) && Enabled(s, a)
    ensures Inv(Apply(s, a))
  {
    StepKeepsSentinel(s, a);
    StepKeepsWorker(s, a);
    StepKeepsCapacity(s, a);
    StepKeepsLedger(s, a);
    StepKeepsBalance(s, a);
    StepKeepsOrder(s, a);
  }

  lemma {:induction false} RunKeepsInv(s: State, run: seq<Action>)
    requires Inv(s) && Legal(s, run)
    ensures Inv(Exec(s, run))
    decreases |run|
  {
    if run != [] {
      StepKeepsInv(s, run[0]);
      RunKeepsInv(Apply(s, run[0]), run[1..]);
    }
  }

  /** s occurs in some run from the start. */
  ghost predicate Reachable(s: State) {
    exists s0, run :: Init(s0) && Legal(s0, run) && Exec(s0, run) == s
  }

  lemma ReachableInv(s: State)
    requires Reachable(s)
    ensures Inv(s)
  {
    hide Init, Inv, Legal;
    var s0, run :| Init(s0) && Legal(s0, run) && Exec(s0, run) == s;
    InitInv(s0);
    RunKeepsInv(s0, run);
  }

  // ----- What every interleaving keeps -----

  /** The ledger always adds up, and its open counters are the real open work. */
  lemma AlwaysReconciled(s: State)
    requires Reachable(s)
    ensures
      && s.ledger.Reconciled()
      && s.ledger.inFlight <= 1 && (s.ledger.inFlight == 1 <==> s.worker.Working?)
      && (s.producer.Free? ==> s.ledger.pending == CountTurns(Held(s.worker) + s.queue))
  {
    ReachableInv(s);
    TurnsAreCounted(Line(s));
  }

  /** The ledger update a step makes. */
  function UpdateOf(a: Action): (u: Option<Update>) {
    match a
    case RejectClosed => Some(Update.Reject)
    case Admit => Some(Update.Admit)
    case DropOldest => Some(DropPending)
    case RejectFull => Some(Update.Reject)
    case StartTurn => Some(Start)
    case FinishTurn(Completed) => Some(Complete)
    case FinishTurn(ReportedDrop) => Some(DropInFlight)
    case FinishTurn(Refused) => Some(RejectInFlight)
    case FinishTurn(Failed(p, u)) => Some(Fail(p, u))
    case _ => None
  }

  /** Every ledger update of every run finds its turn, and none hides that an
      earlier one did not: the guards at zero never act. */
  lemma UpdatesFindTheirTurn(s: State, a: Action)
    requires Reachable(s) && Enabled(s, a)
    ensures match UpdateOf(a)
      case None => Apply(s, a).ledger == s.ledger
      case Some(u) => Apply(s, a).ledger == Do(s.ledger, u) && !Lacks(s.ledger, u) && !Hides(s.ledger, u)
    ensures !s.producer.Free? && ByWorker(a) ==> Apply(s, a).ledger == s.ledger
  {
    hide Reachable, Inv;
    ReachableInv(s);
    OpenWork(s, a);
  }

  lemma OpenWork(s: State, a: Action)
    requires Inv(s) && Enabled(s, a)
    ensures s.ledger.Reconciled()
    ensures a.StartTurn? || a.DropOldest? ==> s.ledger.pending > 0
    ensures a.FinishTurn? ==> s.ledger.inFlight > 0
  {
    hide SentinelInv, BalanceInv, OrderInv, WorkerInv, CapacityInv;
    if a.StartTurn? {
      assert Line(s)[0] == s.worker.items[0];
    }
  }

  /** The queue is bounded, eviction always finds a turn, and a turn is never
      refused for lack of room: the second put cannot find the queue full. */
  lemma AlwaysRoomForTheNewest(s: State)
    requires Reachable(s)
    ensures
      && |s.queue| <= CAPACITY
      && (s.producer.Evicting? ==> s.queue != [] && s.queue[0].Turn?)
      && (s.producer.Retrying? ==> |s.queue| < CAPACITY)
      && !s.producer.Rejecting?
  {
    ReachableInv(s);
    if s.producer.Evicting? {
      EvictsATurn(s);
    }
  }

  /** The worker never holds more than a batch, and without batching never more
      than one turn. */
  lemma AlwaysSmallBatch(s: State)
    requires Reachable(s)
    ensures |Held(s.worker)| <= if s.batch then 8 else 1
  {
    hide Reachable, SentinelInv, CapacityInv, LedgerInv, BalanceInv, OrderInv;
    ReachableInv(s);
  }

  /** A batch is closed only when batching is off, it is full, the queue is empty,
      or the sentinel was taken. */
  lemma BatchesAreFilled(s: State, a: Action)
    requires Reachable(s) && Enabled(s, a) && s.worker.Collecting? && Apply(s, a).worker.Draining?
    ensures var items := Apply(s, a).worker.items;
      !s.batch || |items| == 8 || s.queue == [] || (items != [] && items[|items| - 1] == Sentinel)
  {
    hide Reachable, SentinelInv, CapacityInv, LedgerInv, BalanceInv, OrderInv;
    ReachableInv(s);
  }

  /** Only shutdown turns turns away: while it has not begun the gate lets every
      turn in, and afterwards every turn is rejected and counted so. */
  lemma GateIff(s: State)
    requires Reachable(s) && s.producer.Free?
    ensures Enabled(s, Enter) <==> !s.shutdown
    ensures Enabled(s, RejectClosed) <==> s.shutdown
    ensures s.shutdown ==> Apply(s, RejectClosed).ledger.rejected == s.ledger.rejected + 1
  {
  }

  // ----- No turn past the gate is lost -----

  /** A producer past the gate whose turn is not put yet. */
  predicate AwaitsPut(p: Producer) {
    p.Putting? || p.Evicting? || p.Evicted? || p.Dropping? || p.Retrying?
  }

  function Entered(run: seq<Action>): (n: nat) {
    if run == [] then 0 else (if run[0].Enter? then 1 else 0) + Entered(run[1..])
  }

  lemma StepPuts(s: State, a: Action)
    requires Inv(s) && Enabled(s, a)
    ensures var s' := Apply(s, a);
      s'.nextId + (if AwaitsPut(s'.producer) then 1 else 0)
      == s.nextId + (if AwaitsPut(s.producer) then 1 else 0) + (if a.Enter? then 1 else 0)
  {
    hide SentinelInv, WorkerInv, LedgerInv, BalanceInv, OrderInv;
  }

  lemma {:induction false} RunPuts(s: State, run: seq<Action>)
    requires Inv(s) && Legal(s, run)
    ensures var s' := Exec(s, run);
      s'.nextId + (if AwaitsPut(s'.producer) then 1 else 0)
      == s.nextId + (if AwaitsPut(s.producer) then 1 else 0) + Entered(run)
    decreases |run|
  {
    hide Inv, Enabled, Apply, AwaitsPut;
    if run != [] {
      StepPuts(s, run[0]);
      StepKeepsInv(s, run[0]);
      RunPuts(Apply(s, run[0]), run[1..]);
    }
  }

  /** Every turn that passes the gate is put: the numbers handed out are exactly
      the turns entered, but for one while its producer has not yet put it. */
  lemma EnteredTurnsArePut(s0: State, run: seq<Action>)
    requires Init(s0) && Legal(s0, run)
    ensures var s := Exec(s0, run);
      && Entered(run) == s.nextId + (if AwaitsPut(s.producer) then 1 else 0)
      && (s.producer.Free? ==> Entered(run) == s.nextId)
  {
    hide Legal, Exec, Inv;
    InitInv(s0);
    RunPuts(s0, run);
  }

  /** Each of the first n turns occurs once among these, and no other turn does. */
  ghost predicate Account(started: seq<Item>, line: seq<Item>, evicted: seq<Item>, n: nat) {
    forall k: nat :: multiset(started)[Turn(k)] + multiset(line)[Turn(k)] + multiset(evicted)[Turn(k)]
                     == if k < n then 1 else 0
  }

  ghost predicate AccountInv(s: State) {
    Account(s.started, Line(s), s.evicted, s.nextId)
  }

  lemma AccountAfterPut(started: seq<Item>, line: seq<Item>, evicted: seq<Item>, n: nat)
    requires Account(started, line, evicted, n)
    ensures Account(started, line + [Turn(n)], evicted, n + 1)
  {
  }

  lemma AccountAfterSentinel(started: seq<Item>, line: seq<Item>, evicted: seq<Item>, n: nat)
    ensures Account(started, line + [Sentinel], evicted, n) <==> Account(started, line, evicted, n)
  {
    assert forall k: nat :: multiset(line + [Sentinel])[Turn(k)] == multiset(line)[Turn(k)];
  }

  lemma AccountAfterStart(started: seq<Item>, x: Item, rest: seq<Item>, evicted: seq<Item>, n: nat)
    requires Account(started, [x] + rest, evicted, n)
    ensures Account(started + [x], rest, evicted, n)
  {
    assert multiset([x] + rest) == multiset{x} + multiset(rest);
    assert multiset(started + [x]) == multiset(started) + multiset{x};
  }

  lemma AccountAfterEviction(started: seq<Item>, held: seq<Item>, x: Item, rest: seq<Item>, evicted: seq<Item>, n: nat)
    requires Account(started, held + ([x] + rest), evicted, n)
    ensures Account(started, held + rest, evicted + [x], n)
  {
    assert multiset(held + ([x] + rest)) == multiset(held + rest) + multiset{x};
    assert multiset(evicted + [x]) == multiset(evicted) + multiset{x};
  }

  lemma WorkerKeepsAccount(s: State, a: Action)
    requires AccountInv(s) && Enabled(s, a) && Moves(s, a) && ByWorker(a)
    ensures AccountInv(Apply(s, a))
  {
    hide Account, Line;
    match a {
      case StartTurn => AccountAfterStart(s.started, s.worker.items[0], Line(Apply(s, a)), s.evicted, s.nextId);
      case TakeSentinel => TakenSentinel(s, a);
      case Leave => TakenSentinel(s, a);
      case _ =>
    }
  }

  lemma TakenSentinel(s: State, a: Action)
    requires AccountInv(s) && Line(s) == [Sentinel] && Enabled(s, a)
    ensures Account(s.started, [], s.evicted, s.nextId)
  {
    AccountAfterSentinel(s.started, [], s.evicted, s.nextId);
  }

  lemma ProducerKeepsAccount(s: State, a: Action)
    requires AccountInv(s) && Enabled(s, a) && Moves(s, a) && !ByWorker(a)
    requires a.PutAgain? ==> |s.queue| < CAPACITY
    ensures AccountInv(Apply(s, a))
  {
    if a.Evict? {
      EvictKeepsAccount(s);
    } else {
      hide Account, Line;
      if a.Put? || a.PutAgain? {
        PutKeepsAccount(s, a);
      } else if a.PostSentinel? {
        AccountAfterSentinel(s.started, Line(s), s.evicted, s.nextId);
      }
    }
  }

  lemma PutKeepsAccount(s: State, a: Action)
    requires AccountInv(s) && Enabled(s, a) && Moves(s, a) && (a.Put? || a.PutAgain?)
    requires a.PutAgain? ==> |s.queue| < CAPACITY
    ensures AccountInv(Apply(s, a))
  {
    hide Account, Line;
    AccountAfterPut(s.started, Line(s), s.evicted, s.nextId);
  }

  lemma EvictKeepsAccount(s: State)
    requires AccountInv(s) && Enabled(s, Evict) && Moves(s, Evict)
    ensures AccountInv(Apply(s, Evict))
  {
    hide Account, Held;
    if s.queue != [] {
      AccountAfterEviction(s.started, Held(s.worker), s.queue[0], s.queue[1..], s.evicted, s.nextId);
    }
  }

  lemma StepKeepsAccount(s: State, a: Action)
    requires Inv(s) && AccountInv(s) && Enabled(s, a)
    ensures AccountInv(Apply(s, a))
  {
    assert SentinelLast(Line(s)) by { InvParts(s); }
    LineMoves(s, a);
    hide AccountInv, Moves, SentinelInv, LedgerInv, BalanceInv, WorkerInv, OrderInv;
    if ByWorker(a) {
      WorkerKeepsAccount(s, a);
    } else {
      ProducerKeepsAccount(s, a);
    }
  }

  lemma InitAccount(s: State)
    requires Init(s)
    ensures AccountInv(s)
  {
    assert Line(s) == [];
  }

  lemma {:induction false} RunKeepsAccount(s: State, run: seq<Action>)
    requires Inv(s) && AccountInv(s) && Legal(s, run)
    ensures AccountInv(Exec(s, run))
    decreases |run|
  {
    hide Inv, AccountInv, Enabled, Apply;
    if run != [] {
      StepKeepsAccount(s, run[0]);
      StepKeepsInv(s, run[0]);
      RunKeepsAccount(Apply(s, run[0]), run[1..]);
    }
  }

  /** Every turn ever put is in exactly one place, once: started, still in line,
      or evicted; and nothing else is. */
  lemma PutTurnsAreAccounted(s: State, k: nat)
    requires Reachable(s)
    ensures multiset(s.started)[Turn(k)] + multiset(Held(s.worker) + s.queue)[Turn(k)] + multiset(s.evicted)[Turn(k)]
      == if k < s.nextId then 1 else 0
  {
    hide Init, Legal, Exec, Inv;
    var s0, run :| Init(s0) && Legal(s0, run) && Exec(s0, run) == s;
    InitInv(s0);
    InitAccount(s0);
    RunKeepsAccount(s0, run);
  }

  /** A put with room puts the turn; only a put that finds 16 turns leads to an
      eviction, and the turn put after it is the producer's own. */
  lemma EvictsOnlyWhenFull(s: State, a: Action)
    requires Reachable(s) && Enabled(s, a)
    ensures var s' := Apply(s, a);
      && (a.Put? && |s.queue| < 16 ==> s'.queue == s.queue + [Turn(s.nextId)] && s'.producer.Admitting?)
      && (s'.producer.Evicting? && !s.producer.Evicting? ==> a.Put? && |s.queue| == 16 && s'.queue == s.queue)
      && (a.Evict? ==> s.queue != [] && s'.queue == s.queue[1..])
      && (a.PutAgain? ==> s'.queue == s.queue + [Turn(s.nextId)] && s'.producer.Admitting?)
  {
    hide Reachable, SentinelInv, WorkerInv, LedgerInv, BalanceInv, OrderInv;
    AlwaysRoomForTheNewest(s);
    ReachableInv(s);
  }

  predicate ByProducer(a: Action) {
    a.Put? || a.Admit? || a.Evict? || a.EvictDone? || a.DropOldest? || a.PutAgain? || a.RejectFull?
  }

  /** How many steps of its own a producer is at most away from giving the lock back. */
  function StepsLeft(p: Producer): (n: nat) {
    match p
    case Free => 0
    case Admitting => 1
    case Rejecting => 1
    case Retrying => 2
    case Dropping(_) => 3
    case Evicted(_) => 4
    case Evicting => 5
    case Putting => 6
  }

  /** A producer past the gate never waits: one of its steps is enabled, whatever
      the others do, and each brings it nearer to giving the lock back. */
  lemma ProducersProceed(s: State, a: Action)
    requires Reachable(s)
    ensures !s.producer.Free? ==> exists x :: ByProducer(x) && Enabled(s, x)
    ensures Enabled(s, a) && ByProducer(a) ==> StepsLeft(Apply(s, a).producer) < StepsLeft(s.producer)
    ensures Enabled(s, a) && !ByProducer(a) && !a.Enter? ==> Apply(s, a).producer == s.producer
  {
    hide Reachable;
    var x := match s.producer
      case Free => Enter
      case Putting => Put
      case Admitting => Action.Admit
      case Evicting => Evict
      case Evicted(_) => EvictDone
      case Dropping(_) => DropOldest
      case Retrying => PutAgain
      case Rejecting => RejectFull;
    assert Enabled(s, x) || s.producer.Free?;
  }

  // ----- The worker leaves -----

  /** Bounds the steps the worker still takes once shutdown has begun. */
  function WorkLeft(s: State): (n: nat) {
    6 * |s.queue| + (if s.poster.Posting? then 6 else 0) +
    match s.worker
    case Exited(_) => 0
    case Leaving => 1
    case TimedOut => 1
    case Getting => 2
    case Collecting(items) => 4 + 3 * |items|
    case Draining(items) => 3 + 3 * |items|
    case Working(_, items) => 5 + 3 * |items|
    case Settling(items) => 4 + 3 * |items|
  }

  function WorkerSteps(run: seq<Action>): (n: nat) {
    if run == [] then 0 else (if ByWorker(run[0]) then 1 else 0) + WorkerSteps(run[1..])
  }

  lemma StepDoesWork(s: State, a: Action)
    requires s.producer.Free? && s.shutdown && Enabled(s, a)
    ensures Apply(s, a).shutdown
    ensures WorkLeft(Apply(s, a)) + (if ByWorker(a) then 1 else 0) <= WorkLeft(s)
  {
  }

  lemma FreeAfterShutdown(s: State)
    requires Inv(s) && s.shutdown
    ensures s.producer.Free?
  {
  }

  lemma {:induction false} WorkIsBounded(s: State, run: seq<Action>)
    requires Inv(s) && s.shutdown && Legal(s, run)
    ensures WorkerSteps(run) + WorkLeft(Exec(s, run)) <= WorkLeft(s)
    decreases |run|
  {
    hide Inv, Enabled, Apply, WorkLeft;
    if run != [] {
      FreeAfterShutdown(s);
      StepDoesWork(s, run[0]);
      StepKeepsInv(s, run[0]);
      WorkIsBounded(Apply(s, run[0]), run[1..]);
    }
  }

  /** Once shutdown has begun the worker takes only so many more steps in any run,
      and as long as it has not left one of them is enabled whenever the lock is
      free: so it leaves. */
  lemma WorkerLeaves(s: State, run: seq<Action>)
    requires Reachable(s) && s.shutdown && Legal(s, run)
    ensures WorkerSteps(run) <= WorkLeft(s)
    ensures var s' := Exec(s, run);
      s'.producer.Free? && (s'.worker.Exited? || exists a :: ByWorker(a) && Enabled(s', a))
  {
    hide Reachable, Legal, Exec, Inv;
    ReachableInv(s);
    WorkIsBounded(s, run);
    RunKeepsInv(s, run);
    ShutdownStays(s, run);
    WorkerIsNeverStuck(Exec(s, run));
  }

  lemma {:induction false} ShutdownStays(s: State, run: seq<Action>)
    requires Legal(s, run) && s.shutdown
    ensures Exec(s, run).shutdown
    decreases |run|
  {
    if run != [] {
      ShutdownStays(Apply(s, run[0]), run[1..]);
    }
  }

  lemma WorkerIsNeverStuck(s: State)
    requires Inv(s) && s.shutdown
    ensures s.producer.Free? && (s.worker.Exited? || exists a :: ByWorker(a) && Enabled(s, a))
  {
    hide Inv;
    FreeAfterShutdown(s);
    var a := match s.worker
      case Getting => if s.queue == [] then Timeout else Get
      case TimedOut => CheckShutdown
      case Collecting(items) =>
        if s.batch && |items| < BATCH_SIZE && s.queue != [] then CollectMore else StopCollecting
      case Draining(items) => if items == [] then NextGet else if items[0].Turn? then StartTurn else TakeSentinel
      case Working(_, _) => FinishTurn(Completed)
      case Settling(_) => TaskDone
      case Leaving => Leave
      case Exited(_) => Timeout;
    assert s.worker.Exited? || (ByWorker(a) && Enabled(s, a));
  }

  /** Shutdown can post its sentinel exactly when the queue has room, and then it is last. */
  lemma SentinelIsPosted(s: State)
    requires Reachable(s) && Enabled(s, BeginShutdown)
    ensures var s1 := Apply(s, BeginShutdown);
      && s1.queue == s.queue && (Enabled(s1, PostSentinel) <==> |s.queue| < 16)
      && (|s.queue| < 16 ==> Apply(s1, PostSentinel).queue == s.queue + [Sentinel])
  {
  }

  lemma {:induction false} GivenUpStays(s: State, run: seq<Action>)
    requires Legal(s, run) && s.poster.GaveUp? && s.shutdown
    ensures Exec(s, run).poster.GaveUp?
    decreases |run|
  {
    if run != [] {
      GivenUpStays(Apply(s, run[0]), run[1..]);
    }
  }

  /** A shutdown that gave up posting never posts: in no later state is there a sentinel. */
  lemma GivenUpForGood(s: State, run: seq<Action>)
    requires Reachable(s) && Enabled(s, GiveUp) && Legal(Apply(s, GiveUp), run)
    ensures Sentinel !in Held(Exec(Apply(s, GiveUp), run).worker) + Exec(Apply(s, GiveUp), run).queue
  {
    hide Reachable, Legal, Exec, Inv;
    ReachableInv(s);
    var s1 := Apply(s, GiveUp);
    assert s1.poster.GaveUp? && s1.shutdown by { PostingIsShutdown(s); }
    StepKeepsInv(s, GiveUp);
    GivenUpStays(s1, run);
    RunKeepsInv(s1, run);
    NoSentinelThere(Exec(s1, run));
  }

  lemma PostingIsShutdown(s: State)
    requires Inv(s) && s.poster.Posting?
    ensures s.shutdown
  {
  }

  lemma NoSentinelThere(s: State)
    requires Inv(s) && s.poster.GaveUp?
    ensures Sentinel !in Line(s)
  {
  }

  /** Nothing is ever behind the sentinel, in the queue or in the worker's batch,
      and there is at most one sentinel. */
  lemma AlwaysSentinelLast(s: State)
    requires Reachable(s)
    ensures
      && SentinelLast(Held(s.worker) + s.queue)
      && (Sentinel in Held(s.worker) + s.queue ==> s.poster.Posted?)
  {
    ReachableInv(s);
  }

  lemma BalanceMeans(s: State)
    requires BalanceInv(s)
    ensures
      && s.unfinished >= |s.queue|
      && (s.producer.Evicted? || s.worker.Settling? || s.worker.Leaving? ==> s.unfinished > 0)
      && (s.worker.Draining? && s.worker.items != [] ==> s.unfinished > 0)
      && (s.queue == [] && Held(s.worker) == [] && Undone(s.worker) == 0 && s.producer.Free? ==> s.unfinished == 0)
  {
    assert |Line(s)| == |Held(s.worker)| + |s.queue|;
  }

  /** Every task_done answers a put: the count never goes below what is
      outstanding, so no call of task_done can be one too many. */
  lemma AlwaysBalanced(s: State)
    requires Reachable(s)
    ensures
      && s.unfinished >= |s.queue|
      && (Enabled(s, EvictDone) || Enabled(s, TaskDone) || Enabled(s, TakeSentinel) || Enabled(s, Leave) ==>
            s.unfinished > 0)
      && (s.queue == [] && Held(s.worker) == [] && Undone(s.worker) == 0 && s.producer.Free? ==> s.unfinished == 0)
  {
    hide Reachable, Held, Undone, SentinelInv, WorkerInv, CapacityInv, LedgerInv, BalanceInv, OrderInv;
    ReachableInv(s);
    BalanceMeans(s);
  }

  /** Turns are started in the order they were put, each at most once. */
  lemma AlwaysInOrder(s: State)
    requires Reachable(s)
    ensures
      && (forall i :: 0 <= i < |s.started| ==> s.started[i].Turn?)
      && (forall i, j :: 0 <= i < j < |s.started| ==> s.started[i].id < s.started[j].id)
  {
    ReachableInv(s);
    StartedTurns(s);
    forall i, j | 0 <= i < j < |s.started| ensures s.started[i].id < s.started[j].id {
      var all := s.started + Line(s);
      assert all[i] == s.started[i] && all[j] == s.started[j];
    }
  }

  lemma {:induction false} StartedAreTurns(s: State, run: seq<Action>)
    requires Legal(s, run) && forall i :: 0 <= i < |s.started| ==> s.started[i].Turn?
    ensures forall i :: 0 <= i < |Exec(s, run).started| ==> Exec(s, run).started[i].Turn?
    decreases |run|
  {
    if run != [] {
      StartedAreTurns(Apply(s, run[0]), run[1..]);
    }
  }

  lemma StartedTurns(s: State)
    requires Reachable(s)
    ensures forall i :: 0 <= i < |s.started| ==> s.started[i].Turn?
  {
    hide Legal, Exec;
    var s0, run :| Init(s0) && Legal(s0, run) && Exec(s0, run) == s;
    StartedAreTurns(s0, run);
  }

  /** A worker that leaves by the sentinel has dealt with every accepted turn. */
  lemma SentinelExitLosesNothing(s: State)
    requires Reachable(s) && s.worker == Exited(true)
    ensures var l := s.ledger;
      && l.pending == 0 && l.inFlight == 0
      && l.accepted == l.completed + l.failed + l.partial + l.uncertain + l.dropped
    ensures s.unfinished == 0
  {
    ReachableInv(s);
  }

  // ----- What shutdown leaves behind -----

  /** After shutdown began while the worker was past an empty get: it looks at
      the shutdown flag and leaves, and what is queued stays queued. */
  ghost predicate Stranding(s: State, left: seq<Item>) {
    && s.shutdown && s.producer.Free? && (s.worker.TimedOut? || s.worker == Exited(false))
    && left <= s.queue
  }

  lemma StrandingStep(s: State, a: Action, left: seq<Item>)
    requires Stranding(s, left) && Enabled(s, a)
    ensures var s' := Apply(s, a);
      Stranding(s', left) && s'.started == s.started && s'.ledger.pending == s.ledger.pending
  {
  }

  lemma {:induction false} StrandingRun(s: State, run: seq<Action>, left: seq<Item>)
    requires Stranding(s, left) && Legal(s, run)
    ensures var s' := Exec(s, run);
      Stranding(s', left) && s'.started == s.started && s'.ledger.pending == s.ledger.pending
    decreases |run|
  {
    hide Stranding, Enabled, Apply;
    if run != [] {
      StrandingStep(s, run[0], left);
      StrandingRun(Apply(s, run[0]), run[1..], left);
    }
  }

  /** After shutdown began at any other moment: a worker past an empty get has
      at most the sentinel in its queue. */
  ghost predicate Drained(s: State) {
    && s.shutdown
    && (s.worker.TimedOut? || s.worker == Exited(false) ==> s.queue == [] || s.queue == [Sentinel])
  }

  lemma DrainedStep(s: State, a: Action)
    requires Inv(s) && s.shutdown && Drained(s) && Enabled(s, a)
    ensures Drained(Apply(s, a))
  {
    hide Inv, Drained, Enabled, Apply;
    FreeAfterShutdown(s);
    if s.poster.Posting? {
      PostsIntoEmpty(s);
    }
    DrainedNext(s, a);
  }

  lemma DrainedIsShutdown(s: State)
    requires Drained(s)
    ensures s.shutdown
  {
  }

  lemma DrainedNext(s: State, a: Action)
    requires Drained(s) && Enabled(s, a) && s.producer.Free?
    requires s.poster.Posting? && (s.worker.TimedOut? || s.worker == Exited(false)) ==> s.queue == []
    ensures Drained(Apply(s, a))
  {
  }

  lemma PostsIntoEmpty(s: State)
    requires Inv(s) && Drained(s) && s.poster.Posting?
    ensures s.worker.TimedOut? || s.worker == Exited(false) ==> s.queue == []
  {
    hide LedgerInv, BalanceInv, OrderInv, WorkerInv, CapacityInv;
    if s.queue != [] {
      assert s.queue[0] in Line(s);
    }
  }

  lemma {:induction false} DrainedRun(s: State, run: seq<Action>)
    requires Inv(s) && Drained(s) && Legal(s, run)
    ensures Drained(Exec(s, run))
    decreases |run|
  {
    hide Inv, Drained, Enabled, Apply;
    if run != [] {
      assert s.shutdown by { DrainedIsShutdown(s); }
      DrainedStep(s, run[0]);
      StepKeepsInv(s, run[0]);
      DrainedRun(Apply(s, run[0]), run[1..]);
    }
  }

  lemma DrainedExit(s: State)
    requires Inv(s) && Drained(s) && s.worker.Exited?
    ensures s.ledger.pending == 0
  {
    hide BalanceInv, OrderInv, WorkerInv, CapacityInv;
    assert Line(s) == s.queue;
  }

  lemma AtShutdown(s: State)
    requires Inv(s) && Enabled(s, BeginShutdown)
    ensures var s1 := Apply(s, BeginShutdown);
      && !s.worker.Exited?
      && (if s.worker.TimedOut? && s.queue != [] then Stranding(s1, s.queue) && s1.ledger.pending == |s.queue|
          else Drained(s1))
  {
    hide BalanceInv, OrderInv, WorkerInv, CapacityInv;
    if s.worker.TimedOut? && s.queue != [] {
      assert Line(s) == s.queue;
      assert s.queue[|s.queue| - 1] in Line(s);
    }
  }

  /** Turns queued while the worker is past an empty get, when shutdown begins,
      are never started: in every run from there they stay queued and pending. */
  lemma StrandedForGood(s: State, run: seq<Action>)
    requires Reachable(s) && Enabled(s, BeginShutdown) && Legal(Apply(s, BeginShutdown), run)
    requires s.worker.TimedOut? && s.queue != []
    ensures var s' := Exec(Apply(s, BeginShutdown), run);
      && s.queue <= s'.queue && s'.started == s.started && s'.ledger.pending == |s.queue|
      && (s'.worker.TimedOut? || s'.worker == Exited(false))
  {
    hide Reachable, Inv, Legal, Exec;
    ReachableInv(s);
    AtShutdown(s);
    StrandingRun(Apply(s, BeginShutdown), run, s.queue);
  }

  /** Once shutdown begins, however the run goes on, the worker's exit leaves
      accepted turns behind exactly when at that moment the worker was past an
      empty get and the queue was no longer empty. */
  lemma ShutdownStrandsIff(s: State, run: seq<Action>)
    requires Reachable(s) && Enabled(s, BeginShutdown) && Legal(Apply(s, BeginShutdown), run)
    ensures var s' := Exec(Apply(s, BeginShutdown), run);
      s'.worker.Exited? ==> (s'.ledger.pending > 0 <==> s.worker.TimedOut? && s.queue != [])
  {
    hide Reachable, Inv, Legal, Exec, Drained;
    ReachableInv(s);
    AtShutdown(s);
    var s1 := Apply(s, BeginShutdown);
    if s.worker.TimedOut? && s.queue != [] {
      StrandingRun(s1, run, s.queue);
    } else {
      StepKeepsInv(s, BeginShutdown);
      DrainedRun(s1, run);
      RunKeepsInv(s1, run);
      if Exec(s1, run).worker.Exited? {
        DrainedExit(Exec(s1, run));
      }
    }
  }

  lemma {:induction false} ExecSnoc(s: State, run: seq<Action>, a: Action)
    requires Legal(s, run) && Enabled(Exec(s, run), a)
    ensures Legal(s, run + [a]) && Exec(s, run + [a]) == Apply(Exec(s, run), a)
    decreases |run|
  {
    if run == [] {
      assert Legal(Apply(s, a), []);
    } else {
      ExecSnoc(Apply(s, run[0]), run[1..], a);
      assert (run + [a])[1..] == run[1..] + [a];
    }
  }

  lemma ReachableStep(s: State, a: Action)
    requires Reachable(s) && Enabled(s, a)
    ensures Reachable(Apply(s, a))
  {
    hide Init, Enabled, Apply;
    var s0, run :| Init(s0) && Legal(s0, run) && Exec(s0, run) == s;
    ExecSnoc(s0, run, a);
  }

  /** It can happen: a turn accepted between the empty get and the check stays
      in the queue for good. */
  lemma TimeoutExitCanStrand(s0: State) returns (s: State)
    requires Init(s0)
    ensures Reachable(s) && s.worker == Exited(false) && s.queue == [Turn(0)] && s.ledger.pending == 1
    ensures forall run :: Legal(s, run) ==>
      Turn(0) in Exec(s, run).queue && Exec(s, run).started == [] && Exec(s, run).ledger.pending == 1
  {
    hide Reachable;
    assert Reachable(s0) by { ReachableAtStart(s0); }
    ReachableStep(s0, Timeout);
    var s1 := Apply(s0, Timeout);
    ReachableStep(s1, Enter);
    var s2 := Apply(s1, Enter);
    ReachableStep(s2, Put);
    var s3 := Apply(s2, Put);
    ReachableStep(s3, Action.Admit);
    var s4 := Apply(s3, Action.Admit);
    ReachableStep(s4, BeginShutdown);
    var s5 := Apply(s4, BeginShutdown);
    ReachableStep(s5, CheckShutdown);
    s := Apply(s5, CheckShutdown);
    forall run | Legal(s, run)
      ensures Turn(0) in Exec(s, run).queue && Exec(s, run).started == [] && Exec(s, run).ledger.pending == 1
    {
      StrandingRun(s, run, [Turn(0)]);
      assert Exec(s, run).queue[0] == Turn(0);
    }
  }

  lemma ReachableAtStart(s0: State)
    requires Init(s0)
    ensures Reachable(s0)
  {
    assert Legal(s0, []) && Exec(s0, []) == s0;
  }
}
