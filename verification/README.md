# Verification of the Cashew memory plugin

Cashew keeps thoughts, derivation edges and embeddings in one SQLite file that
several provider processes share. This project models the parts of it whose
correctness is hard to see from one function, and proves what they promise.

* **Graph algorithms** (`Graph`, `Decay`, `Walks`, `Traversal`, `GraphWalk`,
  `Ranking`, `Retrieval`): cascading decay and its dry run, direct decay and
  promotion, shortest paths, cycle audit, the bounded walk and best-first
  retrieval. Tables are maps and sets; loops over query rows take the rows in any
  order.
* **Fast forms and repairs** (`VecSearch`, `Embedding`, `Repair`,
  `OperatorRepair`, `RepairWorkflow`): the vec index against the scan, the
  cache-first batch against plain encoding, targeted repair under savepoints, the
  operator's backup-backed transaction, and the one inside the other. Every item
  and every step may fail.
* **Protocols** (`Health`, `SyncQueue`, `Admission`, `Profile`, `SharedFile`,
  `Supervisor`): step systems over any number of threads or processes. An
  invariant is shown to hold at the start and to be kept by every enabled step,
  and the theorems follow for every reachable state.

Abstract in the model: vectors and similarity (any function of the node), models
(any function from text to vector), hashes (the text is the key), clocks (age is a
fixed flag for one run, a deadline is a step that may be taken at any time), the
result of opaque calls, and file locks (as flock without blocking).

What turned out false is stated with its exact condition:

* The embedding slot can be freed under a running child, on any device. It never
  is if every decision to launch a child is taken while the slot is held and no
  reaper is between forgetting its child and looking at `_closed`; after any
  other such decision it can be (`Supervisor.SlotSafeIff`). The CPU retry does not
  look at `_closed`, and nothing waits for the reaper: `RetryAfterRelease` and
  `LateReaperRelease` are the two runs.
* Shutdown can leave accepted turns behind for good: exactly when it begins while
  the worker is past an empty `get` and something has been queued since
  (`SyncQueue.ShutdownStrandsIff`, `TimeoutExitCanStrand`).
* The two search paths need not agree. With an index in sync they agree for every
  query if and only if the stale rows and the rows to return fit together into the
  over-fetch (`VecSearch.PathsAgreeIff`); no share of stale rows is small enough
  by itself (`VecSearch.StaleHeadHidesLive`).
* An operator repair need not succeed though nothing fails: it verifies by the
  stored model what was repaired to the caller's. It succeeds exactly when
  embeddings are not to be repaired or the repaired file has as many rows of the
  one model as of the other (`RepairWorkflow.RepairStoredProfile`); that is sure
  for every file exactly when embeddings are not to be repaired or the models are
  equal (`RepairWorkflow.SureToSucceedIff`, with the failing file in
  `ForeignModelFails`).
* A tag filter keeps untagged thoughts out if and only if the database has both a
  domain and a tags column (`Retrieval.TagFilterHoldsIff`).
* Taken alone, a reconciled health snapshot need not mean that every update found
  its turn; it does unless a turn was taken back while none was accepted
  (`Health.SnapshotMeans`, `LackCanHide`). The sync queue never gets there: in each
  of its runs every update finds its turn (`SyncQueue.UpdatesFindTheirTurn`).
* An exclusive admission of the cache alone cannot nest in itself
  (`Admission.RepeatNestsIff`).

The gates of the operations are stated in the columns themselves (the members
named `...InColumns`), so that what they decide can be read without their code.

Where documentation and code differ the code is modelled: the cascade gate's
comment speaks of an edge degree the code does not test
(`_vendor/core/decay.py:63-92`), and `sync_turn` documents a second-put overflow
that its lock makes impossible (`SyncQueue.AlwaysRoomForTheNewest`).

`dafny verify dfyconfig.toml` checks everything.

## Model

| member | source | states |
|---|---|---|
| Decay.ThoughtStore.CascadeDecay | plugins/memory/cashew/_vendor/core/decay.py:95-173 | the cascade terminates, marks only live, non-permanent, eligible thoughts, and from a root that is not live marks exactly the least set closed under the cascade rule, whatever order children are visited in; the count is its size; from any root it marks at least what the dry run counts |
| Decay.ThoughtStore.VisitChildren | plugins/memory/cashew/_vendor/core/decay.py:120-166 | one popped node's children, in any order, keep the worklist invariant: what is marked belongs to every closed set, and every node that ought to join is still going to be looked at |
| Decay.CascadeIsFixpoint | plugins/memory/cashew/_vendor/core/decay.py:109-168 | the least closed set is a fixpoint: a thought is in it exactly when it is eligible, has a parent among the root and the set, and all its live parents are in the set |
| Decay.CascadeIsUnique | plugins/memory/cashew/_vendor/core/decay.py:109-168 | two complete cascades from one root mark the same thoughts |
| Decay.CascadeInColumns | plugins/memory/cashew/_vendor/core/decay.py:109-168 | in the columns: decayed are exactly the stored thoughts that were live, not permanent, never accessed and over 30 days old, with a parent among the root and the decayed and no parent that stays live |
| Decay.CoveredAfterMarking | plugins/memory/cashew/_vendor/core/decay.py:144-166 | marking a child can newly enable only its own children, and the child itself is queued to look at them |
| Decay.ClosedSetsTakeTheChild | plugins/memory/cashew/_vendor/core/decay.py:129-166 | a child whose other live parents are all marked belongs to every closed set |
| Decay.ThoughtStore.SimulateCascadeDecay | plugins/memory/cashew/_vendor/core/decay.py:314-364 | the dry run counts each thought once, and counts exactly the least set closed under its own weaker rule (only live parent is the node being processed) |
| Decay.PreviewCounts | plugins/memory/cashew/_vendor/core/decay.py:333-361 | no child is counted twice: a second counting parent would be a second live parent |
| Decay.PreviewInColumns | plugins/memory/cashew/_vendor/core/decay.py:333-361 | in the columns: counted are the same thoughts, but the one live parent each may have is the node it is counted from |
| Decay.PreviewWithinCascade | plugins/memory/cashew/_vendor/core/decay.py:314-364 | from a root that is not live, everything the dry run counts is decayed by the cascade, so the preview never exceeds it |
| Decay.ThoughtStore.AutoDecay | plugins/memory/cashew/_vendor/core/decay.py:176-260 | flips exactly the thoughts meeting the gate at the start; the cascades after it add none; total is the number of live-to-decayed flips |
| Decay.GatedNodesDoNotCascade | plugins/memory/cashew/_vendor/core/decay.py:208-221 | a gated thought has no live child, so both the cascade and the dry run from it are empty, whatever else has decayed |
| Decay.GatedInColumns | plugins/memory/cashew/_vendor/core/decay.py:204-221 | in the columns: direct decay takes exactly the live, not permanent thoughts with access count 0, old enough, and with no edge to or from a live thought |
| Decay.ThoughtStore.DecayCandidates | plugins/memory/cashew/_vendor/core/decay.py:263-311 | the announced candidates and totals are those AutoDecay then reports |
| Decay.ThoughtStore.PromotePermanent | plugins/memory/cashew/_vendor/core/permanence.py:18-64 | sets the permanent flag of exactly the live thoughts with an access count at or over the threshold, changes nothing else, and counts those that were not permanent before |
| Decay.OperationKeepsPermanence | plugins/memory/cashew/_vendor/core/permanence.py:36-58 | promotion, direct decay, cascade and flag-preserving writes never make a permanent thought decayed or a decayed one permanent |
| Decay.PermanenceIsForGood | plugins/memory/cashew/_vendor/core/permanence.py:36-58 | over every run mixing promotion, decay and cascade no thought is ever both, and once permanent it stays permanent and live |
| Traversal.FindPath | plugins/memory/cashew/_vendor/core/traversal.py:232-287 | None exactly when no undirected walk joins the nodes; otherwise a walk of minimum length |
| Traversal.How | plugins/memory/cashew/_vendor/core/traversal.py:210-287 | the whole query with its equal-nodes case; with edges between stored nodes it never fails on a missing row; it can fail only on a shortest path through a node that is not stored |
| Walks.Escape | plugins/memory/cashew/_vendor/core/traversal.py:232-287 | breadth-first argument: a walk ends at a node already recorded by a path as short, or some queued path is shorter |
| Walks.FirstMeetingIsShortest | plugins/memory/cashew/_vendor/core/traversal.py:252-257 | a node met for the first time from the head of the queue is met by a shortest walk |
| Walks.FrontierExhausted | plugins/memory/cashew/_vendor/core/traversal.py:239-287 | with an empty queue every walk within the bound is matched by a recorded path at most as long |
| Traversal.AuditCycles | plugins/memory/cashew/_vendor/core/traversal.py:297-341 | every reported list is a simple cycle that can be reached; every directed cycle reachable from a stored node passes over the last edge of a reported list, so dropping these edges leaves none; no edge closes two reports; and a report exists exactly when there is a reachable cycle (if every edge starts at a stored node: any cycle) |
| Traversal.CycleAudit.DfsCycle | plugins/memory/cashew/_vendor/core/traversal.py:320-337 | the search keeps path, recursion stack and visited set consistent; the node it is given ends finished, or the edge to it closed a report; every edge of a finished node leads to an earlier finished node or closed a report; and its new reports are closed by edges out of nodes it visited first, each once |
| Traversal.CycleAudit.DetectCycles | plugins/memory/cashew/_vendor/core/traversal.py:339-341 | the loop over all stored nodes finishes all they reach: the reports cut every reachable cycle, and exist exactly when there is one |
| Traversal.OrderedHasNoCycle | plugins/memory/cashew/_vendor/core/traversal.py:320-337 | in a finishing order no cycle through a finished node avoids every edge that closed a report |
| Traversal.ReachableCyclesAreCut | plugins/memory/cashew/_vendor/core/traversal.py:320-341 | when all reachable nodes are finished, every reachable cycle uses an edge that closed a report |
| Traversal.BackEdgeClosesCycle | plugins/memory/cashew/_vendor/core/traversal.py:321-326 | the list cut out of the path and closed by the back edge is a simple cycle |
| GraphWalk.GraphWalkFrom | plugins/memory/cashew/_vendor/core/retrieval.py:204-261 | records exactly the nodes within the depth of some entry point; an entry point no earlier one reached keeps the path of itself alone, every other node gets a walk that is shortest over all entry points other than itself |
| GraphWalk.RecordedOtherNodes | plugins/memory/cashew/_vendor/core/retrieval.py:228-261 | for a node that is not an entry point: recorded if and only if within the depth along live edges, by a real path shortest over all entry points |
| GraphWalk.LiveWalksInColumns | plugins/memory/cashew/_vendor/core/retrieval.py:236-252 | in the columns: the walks taken are exactly those along stored edges, in either direction, between thoughts that are stored and not decayed |
| GraphWalk.WalkFrom | plugins/memory/cashew/_vendor/core/retrieval.py:231-259 | one entry point's bounded search merges its shortest paths into the record, replacing only longer ones |
| GraphWalk.RecordedSnoc | plugins/memory/cashew/_vendor/core/retrieval.py:231-259 | adding one entry point's search to the record of the earlier ones keeps the record exact |
| Retrieval.RetrieveRecursiveBfs | plugins/memory/cashew/_vendor/core/retrieval.py:453-508 | candidates are at most seeds x (1 + p + ... + p^depth), each within depth hops of a seed, and are what level-by-level best picking explores; the result is the first top_k passing nodes of the best 3 x top_k candidates |
| Retrieval.ResultsMeanBest | plugins/memory/cashew/_vendor/core/retrieval.py:482-508 | at most top_k distinct explored nodes, all passing the filters, in non-increasing score; a passing node among the best 3 x top_k is left out only if the result is full of at least as good ones |
| Retrieval.ResultsInColumns | plugins/memory/cashew/_vendor/core/retrieval.py:45-105 | in the columns: no result is missing or decayed, carries an excluded tag, lacks every wanted tag (where the filter applies) or has another domain than the wanted one; and with room left, each of the best 3 x top_k that meets this is a result |
| Retrieval.TagFilterHoldsIff | plugins/memory/cashew/_vendor/core/retrieval.py:59-105 | with tags asked for, every passing row carries one of them if and only if the database has both columns |
| Retrieval.Explore | plugins/memory/cashew/_vendor/core/retrieval.py:453-467 | the explored set is the result of exactly max_depth levels of picking, within the hop and size bounds, early stop included |
| Retrieval.ExpandLevel | plugins/memory/cashew/_vendor/core/retrieval.py:455-465 | each frontier node in turn adds its best neighbours among those nobody picked yet |
| Retrieval.PickBest | plugins/memory/cashew/_vendor/core/retrieval.py:460-462 | picks the most similar unseen neighbours, best first, as many as allowed |
| Retrieval.LevelBound | plugins/memory/cashew/_vendor/core/retrieval.py:453-467 | one more level multiplies the frontier by at most p and adds at most that to the candidates |
| VecSearch.EmbeddingTables.IndexSearch | plugins/memory/cashew/_vendor/core/embeddings.py:448-471 | the index path: live rows among the best max(3k, k+20) index rows, cut to k |
| VecSearch.EmbeddingTables.ScanSearch | plugins/memory/cashew/_vendor/core/embeddings.py:485-510 | the scan: the k best live embeddings of non-zero norm |
| VecSearch.EmbeddingTables.Search | plugins/memory/cashew/_vendor/core/embeddings.py:437-510 | whichever path answers: at most k distinct stored thoughts whose flag is NULL or 0, the scan's answer when the index is unusable or fails, and with the index in sync and stale rows that fit the scan's similarities, or its very list when similarities are distinct |
| VecSearch.HitsAreScored | plugins/memory/cashew/_vendor/core/embeddings.py:459-510 | each hit carries the similarity of the thought's own stored vector |
| VecSearch.ScannableInColumns | plugins/memory/cashew/_vendor/core/embeddings.py:485-508 | in the columns: the scan can return exactly the stored thoughts with flag NULL or 0 and a usable embedding |
| VecSearch.StaleInColumns | plugins/memory/cashew/_vendor/core/embeddings.py:458-471 | in the columns: stale are exactly the index rows of missing thoughts and of thoughts whose flag is neither NULL nor 0 |
| VecSearch.PathsAgreeIff | plugins/memory/cashew/_vendor/core/embeddings.py:458-510 | with the index rows of live nodes exactly the live non-zero embeddings: the paths return the same similarities for every query and every order of ties (the same list when similarities are distinct) if and only if the scan has nothing to return or stale rows plus rows to return are at most the over-fetch |
| VecSearch.StaleFitAgrees | plugins/memory/cashew/_vendor/core/embeddings.py:458-510 | the if half for one query and its answers |
| VecSearch.UnfitDisagrees | plugins/memory/cashew/_vendor/core/embeddings.py:458-471 | the only-if half: a query and a ranking for which the index path returns exactly overfetch less stale rows, fewer than the scan |
| VecSearch.FewStaleRowsSuffice | plugins/memory/cashew/_vendor/core/embeddings.py:458-471 | at most overfetch - top_k stale rows are enough for agreement, whatever the live rows are |
| VecSearch.EmbeddingTables.CompactVecIndex | plugins/memory/cashew/_vendor/core/embeddings.py:83-110 | deletes exactly the rows of missing nodes and of nodes with decayed = 1, and counts them |
| VecSearch.CompactionRemovesStale | plugins/memory/cashew/_vendor/core/embeddings.py:92-108 | compaction leaves stale only rows whose flag is neither NULL, 0 nor 1 |
| VecSearch.AgreeAfterCompaction | plugins/memory/cashew/_vendor/core/embeddings.py:92-108 | after compaction, with flags NULL, 0 or 1, the two paths agree for every top_k |
| VecSearch.StaleHeadHidesLive | plugins/memory/cashew/_vendor/core/embeddings.py:458-471 | for every top_k and every number of live rows there are tables with `overfetch` stale rows where the index path returns nothing and the scan min(top_k, live) thoughts |
| Ranking.RankingUnique | plugins/memory/cashew/_vendor/core/embeddings.py:510-511 | with distinct similarities a set has only one ranking |
| Ranking.RankingScoresUnique | plugins/memory/cashew/_vendor/core/embeddings.py:510-511 | two rankings of one set have equal similarities place by place, however ties fall |
| Embedding.EmbeddingService.EmbedBatch | plugins/memory/cashew/_vendor/core/embedding_service.py:227-275 | one vector per text in order, equal to plain encoding with zero vectors for blanks, when right-dimension cache entries and an accepted daemon are correct; the cache stays correct, every requested text ends cached with its own encoding, nothing else changes |
| Embedding.EmbeddingService.FillNonEmpty | plugins/memory/cashew/_vendor/core/embedding_service.py:241-263 | hits of the expected dimension are used, all other requested texts are recomputed and overwritten |
| Embedding.EmbeddingService.Compute | plugins/memory/cashew/_vendor/core/embedding_service.py:277-301 | the daemon's answer counts only with one row per text and the expected width, otherwise the local model encodes |
| Embedding.TakeHits | plugins/memory/cashew/_vendor/core/embedding_service.py:247-255 | fills the slots of right-dimension hits and lists exactly the other texts as misses |
| Embedding.Settle | plugins/memory/cashew/_vendor/core/embedding_service.py:268-275 | zero vectors placed before the dimension was known, and no others, are resized |
| Embedding.EmbeddingCache.GetMany | plugins/memory/cashew/_vendor/core/embedding_cache.py:99-112 | one entry per text in order, None for a miss |
| Embedding.EmbeddingCache.PutMany | plugins/memory/cashew/_vendor/core/embedding_cache.py:122-134 | replaces row by row in order |
| Embedding.PutAllIs | plugins/memory/cashew/_vendor/core/embedding_cache.py:122-134 | only mentioned texts of that model change, and each gets a value stored for it |
| Embedding.StaysCorrect | plugins/memory/cashew/_vendor/core/embedding_service.py:257-263 | storing encodings of the misses keeps the cache correct |
| Health.ReconciledIff | plugins/memory/cashew/health.py:59-129 | from a reconciled ledger each update keeps it reconciled exactly when there was a turn to move; the guarded decrements alone do not ensure it |
| Health.SnapshotMeans | plugins/memory/cashew/health.py:59-129 | after any updates in any order: reconciled if every update found its turn; if reconciled, every update found its turn unless some in-flight turn was taken back with nothing accepted, and exactly as many did not as were hidden so |
| Health.LackCanHide | plugins/memory/cashew/health.py:66-102 | such a sequence: a start without a turn and its taking back give a reconciled ledger |
| Health.OutcomeLedger.Admit | plugins/memory/cashew/health.py:59-61 | one more pending turn and an unchanged gap between accounted and accepted work; no other counter moves |
| Health.OutcomeLedger.Start | plugins/memory/cashew/health.py:66-69 | one more turn in flight; from a reconciled ledger the result is reconciled exactly when one was pending, otherwise the gap grows by one; no other counter moves |
| Health.OutcomeLedger.Complete | plugins/memory/cashew/health.py:71-74 | one more completed turn; stays reconciled exactly when one was in flight; no other counter moves |
| Health.OutcomeLedger.DropPending | plugins/memory/cashew/health.py:86-89 | one more dropped turn; stays reconciled exactly when one was pending; no other counter moves |
| Health.OutcomeLedger.DropInFlight | plugins/memory/cashew/health.py:91-94 | one more dropped turn; stays reconciled exactly when one was in flight; no other counter moves |
| Health.OutcomeLedger.Fail | plugins/memory/cashew/health.py:76-84 | exactly one of partial, uncertain and failed grows, in that priority; stays reconciled exactly when a turn was in flight |
| Health.OutcomeLedger.RejectInFlight | plugins/memory/cashew/health.py:96-102 | one more rejection; stays reconciled exactly when a turn was in flight or none accepted; the gap shrinks only when none is accepted |
| SyncQueue.StepKeepsInv | plugins/memory/cashew/__init__.py:1314-1448 | every step of every producer, the worker and shutdown keeps the whole invariant |
| SyncQueue.AlwaysReconciled | plugins/memory/cashew/health.py:59-129 | in every interleaving accepted = completed + failed + partial + uncertain + dropped + pending + in_flight, in_flight is 1 exactly while the worker works, and pending is the number of queued and dequeued-but-unstarted turns whenever no producer is inside |
| SyncQueue.UpdatesFindTheirTurn | plugins/memory/cashew/health.py:59-102 | in every run each step's ledger update finds the turn it moves, and none takes a turn back with nothing accepted: the guards at zero never act; while a producer has the lock the worker updates nothing |
| SyncQueue.AlwaysRoomForTheNewest | plugins/memory/cashew/__init__.py:1337-1365 | the queue never exceeds 16, eviction always finds a turn and never the sentinel, and the second put never finds the queue full |
| SyncQueue.EnteredTurnsArePut | plugins/memory/cashew/__init__.py:1337-1365 | over every run from the start: the turns that passed the gate are as many as the turns put, but for the one of a producer that is past the gate and has not put yet; so with the lock free none is lost |
| SyncQueue.PutTurnsAreAccounted | plugins/memory/cashew/__init__.py:1337-1421 | in every reachable state each turn ever put is in exactly one place, once: started, still in line, or evicted |
| SyncQueue.EvictsOnlyWhenFull | plugins/memory/cashew/__init__.py:1337-1365 | a put with room queues the turn; only a put that finds 16 queued leads to an eviction, of the oldest, and the second put queues the producer's own turn |
| SyncQueue.ProducersProceed | plugins/memory/cashew/__init__.py:1319-1365 | a producer past the gate always has a step enabled, each brings it nearer to giving the lock back, and nobody else moves it |
| SyncQueue.GateIff | plugins/memory/cashew/__init__.py:1320-1331 | with the lock free a turn is let in exactly while shutdown has not begun, and rejected and counted so exactly afterwards |
| SyncQueue.AlwaysSmallBatch | plugins/memory/cashew/__init__.py:1397-1412 | the worker holds at most eight items, and one without batching |
| SyncQueue.BatchesAreFilled | plugins/memory/cashew/__init__.py:1397-1412 | a batch ends only without batching, full, with the queue empty, or at the sentinel |
| SyncQueue.AlwaysSentinelLast | plugins/memory/cashew/__init__.py:2697-2748 | nothing is ever behind the sentinel, in the queue or in the worker's batch |
| SyncQueue.AlwaysBalanced | plugins/memory/cashew/__init__.py:1397-1447 | every task_done answers a put, and nothing outstanding means a zero count |
| SyncQueue.AlwaysInOrder | plugins/memory/cashew/__init__.py:1414-1421 | turns are started in the order they were put, each at most once |
| SyncQueue.SentinelExitLosesNothing | plugins/memory/cashew/__init__.py:1397-1417 | a worker that leaves by the sentinel has dealt with every accepted turn |
| SyncQueue.WorkerLeaves | plugins/memory/cashew/__init__.py:1389-1447 | once shutdown has begun the worker takes a bounded number of further steps in any run, and until it has left one is always enabled: so it leaves |
| SyncQueue.SentinelIsPosted | plugins/memory/cashew/__init__.py:2697-2748 | shutdown can post its sentinel exactly when the queue has room, and then it is last |
| SyncQueue.GivenUpForGood | plugins/memory/cashew/__init__.py:2697-2748 | a shutdown that gave up posting never posts, in any run |
| SyncQueue.ShutdownStrandsIff | plugins/memory/cashew/__init__.py:1391-1396 | in every run from the moment shutdown begins, a worker that has exited leaves accepted turns behind if and only if at that moment its get had timed out and the queue was no longer empty |
| SyncQueue.StrandedForGood | plugins/memory/cashew/__init__.py:1391-1396 | such turns are never started: in every continuation they stay queued and pending |
| SyncQueue.TimeoutExitCanStrand | plugins/memory/cashew/__init__.py:1391-1396 | such a run exists: a turn accepted between the empty get and the shutdown check, still queued and pending after every continuation |
| Admission.AdmissionLeaseOwner.Transfer | plugins/memory/cashew/admission.py:27-33 | over the object's whole life at most one transfer succeeds, exactly the first one, and only before the first close; a refused one changes nothing |
| Admission.AdmissionLeaseOwner.Close | plugins/memory/cashew/admission.py:35-40 | however often it is called the stack is closed once |
| Admission.StepKeepsInv | plugins/memory/cashew/admission.py:126-238 | every lock call, release, nested entry, transfer and exit of every thread keeps the invariant over lock files, exit stacks and owners |
| Admission.ExclusiveExcludes | plugins/memory/cashew/locking.py:385-410 | in every interleaving an exclusive lease on a file is the only lease on it |
| Admission.AdmittedBlocksExclude | plugins/memory/cashew/admission.py:153-228 | two admitted blocks that share a file, one of them exclusively, belong to one admission |
| Admission.NoHoldAndWait | plugins/memory/cashew/admission.py:126-238 | a thread inside a block never tries to acquire, and a thread about to try, sleep, retry or raise holds no lease it has not transferred |
| Admission.PartialHoldersProceed | plugins/memory/cashew/admission.py:165-238 | the holder of a partly acquired set is never blocked: its next step admits it or makes it let go, and letting go leaves nothing held |
| Admission.TryFirstTakes | plugins/memory/cashew/admission.py:157-216 | the first try takes the graph file in the mode asked for, or with no graph the cache file, exclusively if either mode asks for it: exactly when every lease on the file allows it, and nothing else |
| Admission.TryCacheTakes | plugins/memory/cashew/admission.py:165-188 | the second takes the cache file, if there is one, in its own mode, and grants a token that states the request |
| Admission.WholeTryIff | plugins/memory/cashew/admission.py:153-238 | a whole try takes both files in the modes asked for exactly when both allow it; otherwise, unwound, the lock files are as before and the thread waits |
| Admission.SharedRequestsCoexist | plugins/memory/cashew/admission.py:157-188 | a request that asks for nothing exclusively is admitted whenever all leases on its files are shared |
| Admission.BrokenTryUnwinds | plugins/memory/cashew/admission.py:230-235 | a lock call that raises takes nothing and unwinds to raising |
| Admission.UnwindGivesBack | plugins/memory/cashew/admission.py:230-238 | unwinding gives back exactly what the try's stack took, then raises or waits |
| Admission.BeginTries | plugins/memory/cashew/admission.py:117-152 | outside every block a request is tried exactly when it names some file, and not one twice |
| Admission.FreeFilesAdmit | plugins/memory/cashew/admission.py:153-228 | a try against free lock files is admitted, with the files and modes of the request as token and leases |
| Admission.BodiesAreCovered | plugins/memory/cashew/admission.py:189-195 | a body, nested ones included, runs under every lease of its token; they are closed before it leaves only if it transferred them |
| Admission.CoversMeans | plugins/memory/cashew/admission.py:157-188 | the leases of a token: each file it names, in its mode, and no other |
| Admission.ReleasedExactlyOnce | plugins/memory/cashew/admission.py:192-235 | every lease ever taken is held now or was released exactly once, the handlers' second closes included |
| Admission.NestingTakesNothing | plugins/memory/cashew/admission.py:117-150 | a nested request touches no lock file and no owner, and is granted exactly when it is well formed, names the current token's files, states nothing the token does not state, and asks for no stronger mode |
| Admission.RepeatNestsIff | plugins/memory/cashew/admission.py:145-148 | repeating one's own request inside it is refused exactly for an exclusive request on the cache alone |
| Admission.LeaveReleases | plugins/memory/cashew/admission.py:192-196 | leaving a nested block or one whose leases were transferred releases nothing, leaving any other releases exactly its token's leases |
| Admission.TransfereeReleases | plugins/memory/cashew/admission.py:71-92 | once transferred, exactly the token's leases go, once: when the transferee closes the owner, or when the block that hands them over raises; leaving an installed block takes nothing away |
| Admission.BlocksEnd | plugins/memory/cashew/admission.py:62-93 | each kind of block has exactly one way out, always open to its thread, and it takes that block alone |
| Admission.TransferOutlivesTheBlock | plugins/memory/cashew/admission.py:81-92 | a transfer works once; afterwards the leases stay held when the block is left, and its owner stays open for the transferee |
| Profile.StepKeepsInv | plugins/memory/cashew/__init__.py:1570-1621 | every step of every provider, crashes included, keeps the lease, identity and think-claim invariants |
| Profile.WriteExtendsLog | plugins/memory/cashew/__init__.py:1570-1597 | one publication stores the whole identity and raises the epoch exactly when it differs from the stored one |
| Profile.EpochRisesIffIdentityChanged | plugins/memory/cashew/__init__.py:1585-1591 | over every run the epoch never decreases, and two publications share it if and only if no publication between them had another identity, so A to B to A gives a new epoch |
| Profile.EpochNamesIdentity | plugins/memory/cashew/__init__.py:1585-1591 | each epoch names one identity |
| Profile.StoredIsLastPublished | plugins/memory/cashew/__init__.py:1592-1596 | the rows always hold the last publication, whole |
| Profile.ValidationFences | plugins/memory/cashew/__init__.py:1643-1676 | a provider with an epoch passes validation only while the stored identity is the one it published and matches its configuration |
| Profile.ValidatesIff | plugins/memory/cashew/__init__.py:1623-1676 | in every reachable state validation passes exactly when token and provider agree with each other on model, dimension and supervisor, and with the last publication on model, on the dimension for both embeddings and vectors, and on the epoch if either has one; otherwise the operation ends and nothing is written |
| Profile.EpochValidatesIff | plugins/memory/cashew/__init__.py:1643-1676 | for a provider with an epoch: exactly when the last publication is (its model, its dimension, its dimension) under its own and the token's epoch |
| Profile.MatchingProviderIsLetIn | plugins/memory/cashew/__init__.py:754-768 | asking, acquiring and validating with nothing in between lets a provider with an epoch in exactly while the last publication is its own configuration |
| Profile.ReconfiguredIsFenced | plugins/memory/cashew/__init__.py:1660-1663 | a provider configured for another model than the last published one is kept out |
| Profile.ReboundIsFenced | plugins/memory/cashew/__init__.py:1634-1642 | an operation asked for under another supervisor than the one its provider is bound to by now is turned away |
| Profile.PublishesIff | plugins/memory/cashew/__init__.py:1556-1602 | start-up publishes exactly when token and provider agree, whatever is stored; the publication is its configuration and the provider holds its epoch |
| Profile.StartUpPublishes | plugins/memory/cashew/__init__.py:905-962 | a new provider that finds the graph file free gets published by its own start-up |
| Profile.StaleEpochIsRejected | plugins/memory/cashew/__init__.py:1652-1659 | a token or provider with another epoch than the stored one is turned away, and nothing is written |
| Profile.ValidatedIdentityIsStable | plugins/memory/cashew/__init__.py:754-768 | from validation until it leaves, an operation sees one identity and epoch, whatever everybody else does |
| Profile.TurnsAreConserved | plugins/memory/cashew/__init__.py:2302-2403 | counted turns = interval x completed cycles + counter, and the counter is at the interval exactly while a claim is open or failed |
| Profile.ThinkClaimIff | plugins/memory/cashew/__init__.py:2302-2364 | a turn starts a cycle exactly when no claim stands and it is the interval's last; otherwise it is counted, unless a claim stands, which changes nothing |
| Profile.OneCycleAtATime | plugins/memory/cashew/__init__.py:2345-2364 | two think cycles never run at once, and a running one's claim is the stored one |
| Profile.RecoveryFindsNoRunningOwner | plugins/memory/cashew/__init__.py:927-945 | start-up recovery runs while nobody is thinking |
| Profile.ThinkerSettlesItsClaim | plugins/memory/cashew/__init__.py:2374-2403 | a cycle that ends always settles its own claim, with the counter reduced only on progress |
| Profile.FailureIsForGood | plugins/memory/cashew/__init__.py:2317-2320 | after a failed or uncertain claim no cycle starts and no turn is counted, in any run |
| Profile.CrashOrphans | plugins/memory/cashew/__init__.py:1604-1621 | a provider that crashes while thinking leaves an in-flight claim that nobody runs |
| Profile.CrashEndsOnlyItself | plugins/memory/cashew/__init__.py:1604-1621 | a crash ends the provider and its operations and leaves the rows and everybody else as they were |
| Profile.OrphanBlocks | plugins/memory/cashew/__init__.py:1604-1621 | in every run after that no cycle starts, no turn is counted and nobody thinks; the claim stays in flight until a start-up recovers it and is uncertain from then on |
| SharedFile.AcquireIsTake | plugins/memory/cashew/admission.py:153-188 | an operation can take the graph lease exactly when the lock file is available to it, and taking it keeps operations and lock file in step |
| SharedFile.LeaveIsClose | plugins/memory/cashew/admission.py:35-40 | leaving, also after a refused validation, is closing the admission's stack, and gives back that lease alone |
| SharedFile.CrashIsCloses | plugins/memory/cashew/locking.py:385-410 | a crash is the closing of the stacks of the provider's operations one after the other, and of no others |
| SharedFile.OthersMoveNoLease | plugins/memory/cashew/__init__.py:754-768 | no other step of a provider moves a lease |
| SharedFile.RunIsShadowed | plugins/memory/cashew/admission.py:153-238 | every run of any number of providers has a legal run of takes and closes on the one lock file beside it, and before and after every step the operations holding the lease are exactly those whose stacks hold one on the file, in their modes |
| Supervisor.StepKeepsInv | plugins/memory/cashew/embedding_process.py:168-202 | every step of every thread of every supervisor keeps the local and slot invariants |
| Supervisor.OneOwner | plugins/memory/cashew/embedding_process.py:168-182 | at most one supervisor has not given the slot up, and it is the owner |
| Supervisor.ClosedAtRestIsClean | plugins/memory/cashew/embedding_process.py:576-706 | once all threads of a closed supervisor are done, no child is left unreaped, the slot is free and every callback has run exactly once, unless a reaper or a request thread could not be started; a clean-up thread that could not be started does no harm |
| Supervisor.CallbacksRunOnceAfterRelease | plugins/memory/cashew/embedding_process.py:175-202 | no callback runs before the slot is given up and none runs twice |
| Supervisor.SeenCloseIsLastLaunch | plugins/memory/cashew/embedding_process.py:295-298 | a start that has seen the close is the last launch: no run gives the supervisor another child |
| Supervisor.RefusedGetsNoChild | plugins/memory/cashew/embedding_process.py:340-379 | after a failure not worth a retry, a failed reply, or a refusal (closed, being reaped, too soon) the request gets no child and no reply before it gives the lock back, in any run |
| Supervisor.FailureGivesChildUp | plugins/memory/cashew/embedding_process.py:329-338 | after a failed start or reply every child left alive has a reaper waiting for it, unless none could be started |
| Supervisor.AtMostOneRetry | plugins/memory/cashew/embedding_process.py:347-375 | in any run a supervisor retries on the CPU at most once |
| Supervisor.NoRetryAfter | plugins/memory/cashew/embedding_process.py:326-330 | and never after a retry, a child that came up on the CPU, or a failed reply |
| Supervisor.RetryableIsRetried | plugins/memory/cashew/embedding_process.py:347-375 | a start that could not spawn, or a retryable failure whose child is reaped, is retried while a retry is left |
| Supervisor.HealthyChildServes | plugins/memory/cashew/embedding_process.py:429-461 | an encode request that finds a child on an open supervisor, not being reaped, is served by it, and a reply leaves child and retry as they are |
| Supervisor.MissingChildIsLaunched | plugins/memory/cashew/embedding_process.py:340-346 | without a child an open supervisor decides to launch exactly when it is not too soon |
| Supervisor.RequestsProceed | plugins/memory/cashew/embedding_process.py:425-560 | a request always has a step of its own enabled, each brings it nearer to giving the lock back, and nobody else moves it |
| Supervisor.CleanupProceeds | plugins/memory/cashew/embedding_process.py:576-706 | the steps of closing, cleaning up, reaping and calling back are bounded, and with no request under way one is enabled until the supervisor is at rest |
| Supervisor.CleanupIsStarted | plugins/memory/cashew/embedding_process.py:681-704 | a close that could not wait for the lock starts a clean-up thread; failing that it cleans up at once if the lock is free, and otherwise the request with the lock will, or the slot is given up already or by a reaper |
| Supervisor.JudgedCleanupIsOver | plugins/memory/cashew/embedding_process.py:638-643 | once a clean-up has judged, no request starts another, in any run without a further close that gives up on the lock |
| Supervisor.SlotIsSafe | plugins/memory/cashew/embedding_process.py:340-379 | in every run whose launch decisions are guarded, on any device: only a closed supervisor without an unreaped child is without the slot, so at most one supervisor has a child, and it owns the slot |
| Supervisor.UnguardedLaunchBreaks | plugins/memory/cashew/embedding_process.py:630-636 | from any reachable state after an unguarded decision the launch, and if the slot is still held a close and the reaper's last check, free the slot under a running child |
| Supervisor.RetryAfterRelease | plugins/memory/cashew/embedding_process.py:347-375 | the CPU retry decides without looking at _closed: a reachable state where it does so after the slot was freed, with no reaper running |
| Supervisor.LateReaperRelease | plugins/memory/cashew/embedding_process.py:630-636 | on any device: a reachable state of an open supervisor where a request decides to launch while the reaper is before its last check |
| Supervisor.SlotSafeIff | plugins/memory/cashew/embedding_process.py:340-379 | for every run: all its launch decisions are guarded if and only if no prefix of it can go on, without a further launch decision, to free the slot too early |
| Repair.RepairDatabase | plugins/memory/cashew/_vendor/core/integrity.py:403-886 | for any database and any pattern of failing items: the thoughts are unchanged and everything in Kept holds, at most max_items items take effect, an unmutated report means an unchanged database, completed means no skip, no failure and no selected anomaly left, a database without selected anomalies is left as it is and completed exactly when nothing the request asks for is missing, no phase takes more than a batch, and when every item works and there is room the result is exactly Repaired; only a failed undo voids this, and is reported |
| Repair.KeptMeans | plugins/memory/cashew/_vendor/core/integrity.py:596-810 | what is kept, in the columns: all thoughts, every valid expected-model embedding of a current thought, all embeddings of stored thoughts, all edges but those with a missing end; a written index row equals its embedding, has the index's dimension and the expected model, and is written only to an index that can be loaded and fits |
| Repair.NewEmbeddingsMean | plugins/memory/cashew/_vendor/core/integrity.py:761-810 | a new embedding comes only if the request allows it, for a current thought with text that had no good one, and is the encoding of that text, of the expected model and dimension |
| Repair.NothingRemainsIff | plugins/memory/cashew/_vendor/core/integrity.py:315-385 | nothing selected remains exactly when, column by column, embeddings and edges belong to stored thoughts, every current thought has an embedding of the expected kind, and the index holds exactly the current embeddings, equal to them |
| Repair.IndexAnomaliesInColumns | plugins/memory/cashew/_vendor/core/integrity.py:336-356 | row by row, what inspection counts of the index as missing, stale, invalid and mismatched |
| Repair.IntegrityRepair.RunItem | plugins/memory/cashew/_vendor/core/integrity.py:562-594 | a failed item leaves the database exactly as it was, unless undoing it fails too, which marks the report uncertain |
| Repair.IntegrityRepair.RemoveOrphanEmbeddingRows | plugins/memory/cashew/_vendor/core/integrity.py:596-618 | within its limits removes exactly the embeddings without a thought, and their index rows when the index is ready |
| Repair.IntegrityRepair.RemoveOrphanEdgeRows | plugins/memory/cashew/_vendor/core/integrity.py:620-642 | within its limits removes exactly the edges with a missing end |
| Repair.IntegrityRepair.RepairVecRows | plugins/memory/cashew/_vendor/core/integrity.py:663-729 | each stale or invalid index row goes or is rewritten from its own embedding; good rows stay |
| Repair.IntegrityRepair.InsertVecRows | plugins/memory/cashew/_vendor/core/integrity.py:731-758 | live embeddings fit for the index and without a row get one equal to them |
| Repair.IntegrityRepair.ReembedRows | plugins/memory/cashew/_vendor/core/integrity.py:761-810 | live thoughts with text and no good embedding are embedded again, in both tables |
| Repair.GoodVecIsFine | plugins/memory/cashew/_vendor/core/integrity.py:675-691 | a right index row of a live thought with a good embedding is never touched |
| Repair.ReplacementIsOrdinary | plugins/memory/cashew/_vendor/core/integrity.py:695-702 | an index row is only ever rewritten with its own embedding, and only in a ready index |
| Repair.FullRepairHeals | plugins/memory/cashew/_vendor/core/integrity.py:596-810 | with all default actions, a ready index and a working encoder, each live thought with text ends with a valid embedding of the expected model and a matching index row, and no orphan is left |
| Repair.IndexFollowsEmbeddings | plugins/memory/cashew/_vendor/core/integrity.py:663-758 | after the index phase every live thought with a good embedding is rightly indexed |
| Repair.WrongRowsAreSkipped | plugins/memory/cashew/_vendor/core/integrity.py:672-729 | the index rows still wrong after the index phase are exactly those it skips: undecodable or contradicting rows without an embedding row of the expected model |
| OperatorRepair.RepairProfile | plugins/memory/cashew/integrity.py:1233-1399 | for a failure at any step: committed False means the file is as before, True that it is the repaired one, None that it is one of the two and marked uncertain; a reported backup is the state before; success is reported exactly when nothing failed and both verifications matched; committed, rolled_back, mutated and the reason are exactly what happened; and the handler raises exactly when the rollback left to it does |
| OperatorRepair.ProfileRepair.ApplyProfileRepairs | plugins/memory/cashew/integrity.py:1256-1399 | the same on the open connection, and no transaction is left open |
| OperatorRepair.ProfileRepair.RepairAndCommit | plugins/memory/cashew/integrity.py:1296-1370 | the commit is tried exactly when the repair is declared usable and verified inside the transaction |
| OperatorRepair.ProfileRepair.Handle | plugins/memory/cashew/integrity.py:1371-1396 | the handler's committed flag: False after a rollback or without a commit attempt, True after a successful commit, unknown otherwise |
| OperatorRepair.MatchMeans | plugins/memory/cashew/integrity.py:1031-1055 | verification matches if and only if the inspection is usable and both agree on every answerable count, a completed repair left none and a partial one has a reason |
| OperatorRepair.MatchInColumns | plugins/memory/cashew/integrity.py:1041-1055 | in the two tables: each answerable count is absent or zero in both or the same in both, and none is left after a completed repair |
| OperatorRepair.HonestReportMatches | plugins/memory/cashew/_vendor/core/integrity.py:851-884 | no false alarm: a report built from an inspection matches that inspection |
| OperatorRepair.HonestStatus | plugins/memory/cashew/_vendor/core/integrity.py:876-884 | a repair is completed exactly when nothing was skipped, nothing failed and no answerable count is left |
| OperatorRepair.ActionableCountKeys | plugins/memory/cashew/integrity.py:1002-1028 | key by key, exactly the counts of the selected actions (of the four defaults if none is given), and the permanence conflict when a policy is given |
| RepairWorkflow.RepairStoredProfile | plugins/memory/cashew/integrity.py:1233-1399 | end to end, the caller's model and the stored one apart: success exactly when nothing outside the repair fails, the stored dimension and the bounds are positive, and the two models balance in the repaired file or embeddings are not repaired; then the file is the repair's result, the backup the state before, and completed means the data kept and no selected anomaly in the committed file by either model; with all items working and room the repair's result is Repaired, and with a full setup every live text ends embedded and indexed; without success the file is as before or the repair's result, as reported |
| RepairWorkflow.ReportMatchesIff | plugins/memory/cashew/integrity.py:1291-1353 | the verification of an honest report, made with one expected model and checked with another, passes exactly when the models balance |
| RepairWorkflow.ForeignModelFails | plugins/memory/cashew/integrity.py:1291-1334 | for every accepted request to repair embeddings to another model there is a file without embedding anomalies by its own model, left as it is by the repair, whose verification fails |
| RepairWorkflow.SureToSucceedIff | plugins/memory/cashew/integrity.py:1291-1353 | verification passes for every file with room, all items working, if and only if embeddings are not to be repaired or the caller's model is absent or the stored one |
| RepairWorkflow.RemainsIffCounted | plugins/memory/cashew/_vendor/core/integrity.py:851-884 | the repair's own judgement of what is left and the counts the operator verifies agree: an anomaly of a selected kind remains exactly when an answerable count is not zero |

## Left out

- SQL text, journal modes, loading sqlite-vec, file copies and real clocks: tables, saved states and flags stand for them.
- Floating point: similarity is an uninterpreted real-valued function and `_vectors_match` an uninterpreted relation.
- Rows with NULL ids in `embeddings` and `vec_embeddings`, and the 1000-row caps of the inspections.
- The repair actions outside the default set: `remove_self_edges` deletes edges from a thought to itself, `promote_core_memories` sets `permanent` on core memories without looking at `decayed`, and the permanence policies clear one of two contradicting flags. The answerable counts include theirs, the repaired database does not.
- Repair.IntegrityRepair.RunItem: a failed undo leaves an arbitrary database, as the source can promise nothing there either; the other statements hold only while no undo has failed. The operator does not look at `mutation_uncertain`, so `RepairWorkflow.RepairStoredProfile` promises the data kept after a partial success only when no undo failed, and after a completed one always.
- Supervisor.ClosedAtRestIsClean: says nothing once a reaper or request thread could not be started.
- Admission transfer is taken inside the admitting thread's block, as `transfer_admission` is written; an owner transferred by another thread while the block is being left is not modelled.
- Process death in `Admission`: only `Profile` has crashes; `SharedFile.CrashIsCloses` takes it that the system then closes the lock files.
- Profile rows: the counter and epoch rows are written by this code only; a malformed counter or epoch row is in the step but no run reaches it.
- The recorded `connection` of a `how` step, the orphan, weak-chain and contradiction reports of `audit`, and all formatting.
- Tool counters of the ledger, metrics, tracing, configuration, cron staging, prefetch, LLM calls, and the contents of `end_session` and `think_cycle`.
