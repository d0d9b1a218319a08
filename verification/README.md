# AllBrain: the event store and its fast routes

AllBrain keeps one append-only event log per project and derives everything else from it: project
state, task views, agent metrics, belief revisions. Replaying the whole log is the definition of each
of these; the program mostly takes faster routes, and this project proves where the routes agree with
plain replay and says exactly where they do not. It also proves the protocols around the log: the lease
queue, the hash chain, paging, history import, the rate limiter and the profiler.

The files follow the program's own structure.

| file | what it covers |
|---|---|
| `Json`, `OrderedDict`, `Events`, `Fields`, `Sequences`, `Sorting`, `Wrappers` | JSON values with Python's truthiness, insertion-ordered dicts, the event read model and what its fields name, sequence and sorting helpers |
| `StateMachine`, `StateEngine` | the replay machine, the reload from a stored dictionary, the two-machine resume and its merge table |
| `ReplayProofs`, `ReplayMeaning`, `OpenTasks` | what every replay keeps, and what each field of the state says about the log |
| `SnapshotReload`, `Resume` | reload with permuted keys; resume against full replay |
| `UnsettledPages`, `Twins` | what resuming keeps when a delta reopens a task, and what look-alike labels cost |
| `Deduplicator`, `Compression` | dropping superseded file events, and what that does to a replay |
| `LeaseQueue`, `LeaseQueueProofs`, `QueueOutcomes` | the worker queue as atomic steps over items, leases and an audit log; invariants over all runs; what each operation accepts and leaves behind |
| `Integrity`, `IdealDigest`, `EventRepository`, `EventLogProofs` | hash chain and a digest that meets its assumptions, positions, appends, queries |
| `Paging`, `Projection` | stable paging while others append; projections from a snapshot plus pages |
| `EventTools`, `ClientPaging`, `WalkGrowth` | the event tools with their promoted-ids cache; a client following `next_cursor`, over a fixed log and over one its own calls extend |
| `HistoryImport`, `HistoryImportProofs`, `ImportVerdicts` | merging foreign databases, and what the chain check says of the result |
| `TaskState`, `TaskStateProofs` | the task reducer and its agent queues; compression, paging and order do not matter to it |
| `TaskMeaning`, `TaskFields`, `TaskQueues` | every field of a task from the events that name it; queues and id lists from the tasks |
| `AgentMetrics`, `MetricsMerge`, `MetricsMeaning`, `MetricsCompression` | metric fold, its merge, its fields from the events, and metrics of a compressed log |
| `Profiling`, `Revision`, `RateLimit`, `RateWindows` | span stack, revision reducer, two-window limiter and its closed windows |

## How it is modelled

* A dict whose order matters is a sequence of key/value pairs with distinct keys; elsewhere it is a map.
  A log is folded from its front, so every property extends event by event.
* Objects the program updates in place are classes (`Replayer`, `QueueCoordinator`, `Repository`,
  `BrainContext`, `HistoryRepairer`, `SlidingWindowCounter`, `ToolRateLimiter`, `ProfileSession`,
  `SeenIds`, `BeliefRevisions`, `RevisionReducer`). Each method is proved equal to a step function on
  values, and the theorems are about runs of those step functions. What a step function does is then stated
  over again from event payloads and table columns (`OpenTasks`, `QueueOutcomes`, `TaskFields`, ...), in
  terms that do not mention it.
* One write transaction is one atomic step. Row ids, lease ids and event ids come from the caller or are
  row numbers; clock readings are parameters, two per call where the program reads the clock twice.
* What other processes append between two fetches is a parameter of the paging loop: any drafts at all.
* The digest of the hash chain is a function parameter over the previous hash and the payload. Where a
  theorem needs an ideal digest it says so (`CollisionFree`, which `IdealDigest` shows can be met); that freshly appended events verify needs
  only that a digest is never the empty string.
* Parameters also stand for label normalisation (`casefold`), `int(priority)`, the confidence formula,
  the read conversion of a stored row and the payload validator of belief revisions.

## What the code does that its words do not say

* `StateMerger` filters open labels completed in the delta after taking the open list of the final state,
  so a task completed and started again inside one delta is missing from the open list of the resumed
  state. `Resume.ResumeExact` gives the condition, `Resume.ReopenedTaskIsLost` the input. Its reference
  stays stored: the next page that touches any task lists it again, unless that page repeats the pattern,
  with its reference moved behind the others (`UnsettledPages.MissingLabelsReturn`). The id-to-label map is
  right throughout as long as no two open labels look alike (`UnsettledPages.AnyPagesKeepTheMap`); when
  they do, a completion by title can close the other task (`Twins.LookalikesDiverge`).
* Snapshots store `open_task_refs` with sorted keys; two open ids under one label can come back swapped.
  A completion by title alone then closes the other one, unless the title spells one of the two ids
  (`Twins.SwappedTwinsCloseAlike`).
* `EventDeduplicator` drops file events that name no path (its `passthrough` list is unused), which shows
  in `last_event_id` exactly when such an event ends the log (`Compression.CompressionExact`).
* Metrics of a compressed log are those of the full log exactly when every agent with an event keeps one
  and the last `agent_version` among its events is the last among its retained ones
  (`MetricsCompression.CompressedMetricsExact`).
  An agent is lost whose events were all dropped: because they name no path (`FileOnlyAgentIsLost`) or
  because someone modified the same file later (`SupersededAgentIsLost`).
* An event whose `_meta` is something other than an object is appended but never verifies
  (`Integrity.AttachVerdict`). An imported event keeps its old hash; one that verified at its source is
  reported exactly when it carries a hash and either the remapping changed its payload or it landed
  behind another hash than the one it was chained from (`ImportVerdicts.ImportedRowVerdict`).
* The cursor of `list_events` is the last visible event of a page, so a full page of hidden events stops
  a client that has more to read (`ClientPaging.WalkCompletesExactly`).
* A client whose calls leave matching records behind is told for ever that there is more exactly when its
  page is no larger than what one call leaves and the log began with more than a page
  (`WalkGrowth.WalkUnderGrowth`). With the tools' own audit that is a page of one row; under central audit,
  which `cli/main.py:268` switches on, of one or two (`ToolAuditedWalk`, `CentrallyAuditedWalk`).
* The rate limits hold for half-open windows. A closed window keeps its limit exactly when no two accepted
  calls that many places apart stand one window apart in time; it never holds more than twice the limit
  (`RateWindows.ClosedWindows`), and twice is reached (`RateWindows.ClosedWindowCanHoldMore`).
* Two queue requests are the same one when their idempotency texts are equal. The text joins prefix,
  workflow, task and agent with colons, so it tells requests apart as long as prefix, workflow and task
  contain none (`QueueOutcomes.PlainNamesTellApart`); with colons a request for another task can be
  answered with an existing row (`QueueOutcomes.ColonsShareARow`).
* `merge_agent_metrics` adds counters but keeps the base's other fields and drops the delta's. An agent's
  merged record is right exactly when the base is empty, or names the agent and the delta leaves those
  fields as they were (`MetricsMerge.MergeExact`).

## Model

| member | source | states |
|---|---|---|
| StateMachine.Replayer.Apply | src/allbrain/core/state_machine.py:86-99 | an event id takes effect once; the object then equals the step function of the replay in every field |
| StateMachine.Replayer.ApplyGoalSet | src/allbrain/core/state_machine.py:110-113 | a non-empty text goal, from payload or hint, replaces the goal; anything else changes nothing |
| StateMachine.Replayer.ApplyTaskStarted | src/allbrain/core/state_machine.py:115-119 | a reference is put under its key and the open list shows all references in order |
| StateMachine.Replayer.ApplyTaskUpdated | src/allbrain/core/state_machine.py:151-156 | with both an id and a goal the id's label is replaced in place, otherwise nothing changes |
| StateMachine.Replayer.ApplyTaskDeleted | src/allbrain/core/state_machine.py:145-149 | a deletion by a non-empty id leaves no reference under that id and the open list is the labels that remain |
| StateMachine.Replayer.ApplyFileModified | src/allbrain/core/state_machine.py:158-161 | a named file moves to the end of the list and becomes the last one; a path-less event changes nothing |
| StateMachine.Replayer.FirstRefWithLabel | src/allbrain/core/state_machine.py:135-140 | the first open reference with the label, in insertion order, or the fallback key |
| StateMachine.Replayer.ApplyTaskCompleted | src/allbrain/core/state_machine.py:121-143 | completion closes by primary key, else alternate key, else first open label that matches, and records the label once |
| StateMachine.Replayer.RecordToolUsage | src/allbrain/core/state_machine.py:192-203 | one usage record per event id |
| ReplayProofs.RunWellFormed | src/allbrain/core/state_machine.py:104-191 | in every reachable state the open list is exactly the labels of the open references, keys are distinct and non-empty, and no label is completed twice |
| ReplayProofs.RunExtends | src/allbrain/core/state_engine.py:32-44 | replaying a delta on a base appends to failures, blocked, tool usage and completed tasks exactly what the delta alone produces |
| ReplayProofs.RunForgets | src/allbrain/core/state_machine.py:82-90 | the set of applied ids matters to a replay only through ids still to come |
| ReplayProofs.RunSplit | src/allbrain/core/state_machine.py:86-99 | replaying a concatenation is replaying its parts one after the other |
| ReplayMeaning.ReplayIsFirsts | src/allbrain/core/state_machine.py:86-90 | an event counts once: replaying a log in which ids repeat is replaying the first event of each id |
| ReplayMeaning.ReplayCollects | src/allbrain/core/state_machine.py:110-167 | the goal is the last one the log names; failures and blocks are the payloads of those events in order |
| ReplayMeaning.ToolUsageIsToolCalls | src/allbrain/core/state_machine.py:192-203 | tool usage is exactly the tool calls of the log, in order |
| ReplayMeaning.WorkingFilesByLastModification | src/allbrain/core/state_machine.py:104-108 | working files stand in the order of their last modification, each once: the paths of the events compression retains |
| ReplayMeaning.FilesMoveToEnd | src/allbrain/core/state_machine.py:104-108 | every file modification moves its file to the end; the last working file is the last one named, the last event id the last event's |
| ReplayMeaning.CompletionClosesOne | src/allbrain/core/state_machine.py:121-143 | completing closes one reference or none, chosen by own key, else alternate key, else first matching label; every other reference stays and the label is done |
| OpenTasks.TaskStep | src/allbrain/core/state_machine.py:115-191 | from payload fields: a start or update puts its label in place, a deletion takes its key away, a completion takes the one reference it picks and records its label, every other event leaves references and completed labels alone |
| OpenTasks.DeletionDrops | src/allbrain/core/state_machine.py:145-149 | deleting by id: no reference under the id is left, the others keep their order, the open list is their labels |
| OpenTasks.NamedTaskIsPlaced | src/allbrain/core/state_machine.py:115-156 | a start by id carries the text of `task`, `goal` or the hint, else the id; an update that of `goal`, `task` or the hint; every other reference stays |
| OpenTasks.OpenExactly | src/allbrain/core/state_machine.py:115-187 | over a whole log a reference is open with a label exactly when the last event that opened it gave that label and no later event deleted or closed it |
| OpenTasks.CompletedExactly | src/allbrain/core/state_machine.py:121-143 | completed tasks are the labels completion events name, each once, in order of first completion |
| StateEngine.LoadState | src/allbrain/core/state_machine.py:25-47 | the reload loop computes the relinking function on every stored dictionary |
| StateEngine.Merge | src/allbrain/core/merge.py:25-46 | the loop over the strategy table and the filter by completed labels give the per-field merge |
| StateEngine.AppendUnique | src/allbrain/core/merge.py:48-61 | concatenation with later duplicates dropped, order kept |
| StateEngine.BuildState | src/allbrain/core/state_engine.py:14-22 | building runs one machine over the whole log |
| StateEngine.ApplyEvents | src/allbrain/core/state_engine.py:24-56 | resuming runs two machines, overwrites the non-append fields and merges; no events only replaces the git field |
| SnapshotReload.ReloadSameMap | src/allbrain/storage/snapshot_repo.py:28-33 | for any permutation of the stored references the reload has the same id-to-label map and open list |
| SnapshotReload.ReloadExact | src/allbrain/core/state_machine.py:25-47 | the exact state comes back if and only if storing kept the keys of each label in their order |
| SnapshotReload.ReloadUnpermuted | src/allbrain/core/state_machine.py:25-61 | from_dict after to_dict is the identity on every reachable state |
| SnapshotReload.ReloadDistinctLabels | src/allbrain/core/state_machine.py:31-36 | with distinct open labels no permutation of the stored keys matters |
| SnapshotReload.RelinkedIs | src/allbrain/core/state_machine.py:25-47 | whatever is stored, a listed label is linked to a stored reference of that label or to its legacy key, never to the empty key |
| SnapshotReload.BareLabelsReload | src/allbrain/core/state_machine.py:25-47 | with nothing stored, a label has a legacy reference exactly when a label like it is listed |
| Twins.SwappedTwinsCloseAlike | src/allbrain/core/state_machine.py:121-143 | two tasks started under one title, snapshotted, stored the other way round and resumed: a completion by title leaves open exactly the task a full replay closes, unless the title spells one of the ids |
| Twins.LookalikesDiverge | src/allbrain/core/merge.py:39-42 | with two open labels that normalise alike, an unsettled delta turns their references round, and the next completion by title closes the other task |
| Resume.ResumeEqualsReplay | src/allbrain/core/state_engine.py:24-56 | resuming a built state with fresh ids equals full replay on every field, except that the open list loses labels the delta completed |
| Resume.ResumeFromBase | src/allbrain/core/state_engine.py:24-56 | any base that loads as the replay of the prefix resumes to full replay up to the open-label filter, even if its last event id is off |
| Resume.MergesFields | src/allbrain/core/merge.py:8-46 | merging any two dictionaries: goal, last event and last file of the delta when it has them; failures, blocks and usage after the base's; completed labels the base's and then the new ones; the rest the delta's, open labels less those it completed |
| Resume.ResumeExact | src/allbrain/core/merge.py:39-42 | it equals full replay outright if and only if no label completed in the delta is open at the end |
| Resume.ResumeThroughStore | src/allbrain/storage/snapshot_repo.py:28-33 | the same with the snapshot stored and its keys permuted, as long as each label keeps its key order |
| Resume.ResumeByPages | src/allbrain/core/state_engine.py:24-56 | any number of settled deltas, however cut, add up to one full replay |
| Resume.ReopenedTaskIsLost | src/allbrain/core/merge.py:39-42 | a concrete delta that completes and restarts a task resumes without it in the open list although replay has it open |
| UnsettledPages.AnyPagesKeepTheMap | src/allbrain/core/state_engine.py:24-56 | any number of deltas with new ids, settled or not: every field equals the full replay except the open list and the order of the references, the id-to-label map is the same, and only labels completed before are missing, as long as no two open labels normalise alike |
| UnsettledPages.MissingLabelsReturn | src/allbrain/core/state_machine.py:25-47 | after any such deltas, one that touches a task lists every open reference again if and only if it leaves none of the labels it completed open |
| Deduplicator.CollapseFileChurn | src/allbrain/snapshot/deduplicator.py:8-26 | the two loops compute the collapsed log |
| Deduplicator.CollapseIsLastOnly | src/allbrain/snapshot/deduplicator.py:8-26 | the collapsed log keeps a file event exactly when its path is not modified again later, and drops path-less ones |
| Deduplicator.CollapseExtends | src/allbrain/snapshot/deduplicator.py:8-26 | compressing a compressed prefix with what follows is compressing the whole |
| Deduplicator.CollapseIdempotent | src/allbrain/snapshot/deduplicator.py:8-26 | compressing twice is compressing once |
| Deduplicator.CollapsePages | src/allbrain/snapshot/deduplicator.py:8-26 | compressing page by page is compressing once |
| Compression.StepsOfLastOnly | src/allbrain/core/state_machine.py:104-108 | move-to-end makes superseded modifications invisible: only the last event id can differ |
| Compression.StepsWithoutPath | src/allbrain/core/state_machine.py:104-108 | forgetting every modification of one path takes just that path off the file list |
| Compression.CompressionExact | src/allbrain/snapshot/deduplicator.py:8-26 | replaying the compressed log gives the same state if and only if the log does not end in a path-less file modification |
| Compression.BuildCoreSnapshot | src/allbrain/snapshot/builder.py:31-36 | the snapshot is the compressed build with the raw event count and newest fingerprint |
| Compression.LatestGitFingerprint | src/allbrain/snapshot/builder.py:159-167 | the newest non-empty fingerprint of a session event, or nothing |
| ReplayMeaning.CoreSnapshotIs | src/allbrain/snapshot/builder.py:31-36 | the snapshot counts every raw event, carries the last non-empty fingerprint a session event recorded, and its state is the replayed one up to the last event id |
| Compression.SnapshotThenDelta | src/allbrain/snapshot/builder.py:31-36 | compress, snapshot, store with permuted keys, reload and resume: full replay of the raw log up to the open-label filter |
| LeaseQueue.QueueCoordinator.EnqueueTask | src/allbrain/server/queueing.py:49-123 | an existing idempotency key returns its row unchanged, otherwise one queued row and one event are added |
| LeaseQueue.QueueCoordinator.RecoverExpired | src/allbrain/server/queueing.py:304-334 | every expired lease is released, to the queue while attempts remain and to failed otherwise, with its events |
| LeaseQueue.QueueCoordinator.FindOldest | src/allbrain/server/queueing.py:142-164 | the first claimable row by creation time, then id |
| LeaseQueue.QueueCoordinator.LeasedRecord | src/allbrain/server/queueing.py:336-350 | no fault exactly when the item exists, is leased under that lease to that worker, and its expiry, if it has one, has not passed |
| LeaseQueue.QueueCoordinator.ClaimTask | src/allbrain/server/queueing.py:132-200 | recovery, then the oldest match is leased with a fresh lease row and two events |
| LeaseQueue.QueueCoordinator.RenewLease | src/allbrain/server/queueing.py:202-231 | only the current, unexpired holder moves the expiry |
| LeaseQueue.QueueCoordinator.CompleteTask | src/allbrain/server/queueing.py:233-267 | only the current, unexpired holder completes; the lease row is released |
| LeaseQueue.QueueCoordinator.FailTask | src/allbrain/server/queueing.py:269-302 | only the current, unexpired holder fails the item; it is requeued while asked and attempts remain |
| LeaseQueueProofs.RunInv | src/allbrain/server/queueing.py:132-350 | every operation, hence every run of any workers, keeps the invariant tying rows, lease rows and audit log together |
| LeaseQueueProofs.LeaseConservation | src/allbrain/server/queueing.py:132-334 | attempts = lease rows = acquisitions = completions + failures + expiries + one if leased; at most the maximum; at most twice that many transitions; at most one completion |
| LeaseQueueProofs.LogAgreesWithTable | src/allbrain/server/queueing.py:388-409 | after every run folding an item's audit events gives its row's state and attempt count |
| LeaseQueueProofs.NoStrandedWork | src/allbrain/server/queueing.py:278-334 | queued items hold no lease and have an attempt left; leased items hold all lease fields and their live lease row |
| LeaseQueueProofs.ClaimExact | src/allbrain/server/queueing.py:142-200 | claim is empty exactly when nothing queued matches after recovery, otherwise leases the oldest match and touches no other item |
| LeaseQueueProofs.OldestIsFirst | src/allbrain/server/queueing.py:148-164 | the pick is claimable and before every other claimable row, and there is none exactly when no row is claimable |
| LeaseQueueProofs.RecoverExact | src/allbrain/server/queueing.py:304-334 | recovery changes exactly the expired items |
| LeaseQueueProofs.UnexpiredNeverTaken | src/allbrain/server/queueing.py:142-200 | a claim never touches an item whose lease still runs |
| LeaseQueueProofs.LeaseHeld | src/allbrain/server/queueing.py:202-350 | before a lease expires only operations naming it can move its item, over any run |
| LeaseQueueProofs.FinishRetires | src/allbrain/server/queueing.py:233-302 | completing or failing retires the lease it was done under |
| LeaseQueueProofs.ClaimRetiresExpired | src/allbrain/server/queueing.py:132-146 | a claim with an allowed ttl, by anyone, retires every lease it finds expired |
| LeaseQueueProofs.HowLeasesEnd | src/allbrain/server/queueing.py:132-350 | an operation ends a live lease if and only if it is a claim that finds it expired, or the holder's own accepted complete or fail |
| LeaseQueueProofs.RetiredForever | src/allbrain/server/queueing.py:336-350 | in every continuation any renew, complete or fail naming a retired lease is refused and changes nothing |
| LeaseQueueProofs.EndedLeaseIsFenced | src/allbrain/server/queueing.py:132-350 | over any run from the empty queue: once a lease has ended, by completion, failure or recovery, every later renew, complete or fail naming it is refused and changes nothing |
| LeaseQueueProofs.TerminalForever | src/allbrain/server/queueing.py:132-334 | completed and failed items never change again, over any run |
| LeaseQueueProofs.EnqueueIdempotent | src/allbrain/server/queueing.py:90-95 | repeating a request after any run returns the first item and writes nothing |
| QueueOutcomes.ActionAccepted | src/allbrain/server/queueing.py:336-350 | renew, complete and fail are accepted if and only if the item exists, is leased under that lease to that worker and in time (a renewal with an allowed extension); each failing clause has its error, and a refusal changes nothing |
| QueueOutcomes.HolderActsUntilExpiry | src/allbrain/server/queueing.py:342-349 | over every run a leased item has an expiry, and its holder is accepted up to that moment and not after |
| QueueOutcomes.RenewalMovesExpiry | src/allbrain/server/queueing.py:202-231 | a renewal moves the expiry on item and lease row and nothing else |
| QueueOutcomes.CompletionCompletes | src/allbrain/server/queueing.py:233-267 | a completion completes the item, releases its lease row, writes its two events, and changes nothing else |
| QueueOutcomes.FailureFreesItem | src/allbrain/server/queueing.py:269-302 | a failure frees the item, queued again exactly if that was asked and an attempt is left, and releases its lease row |
| QueueOutcomes.RecoveryFrees | src/allbrain/server/queueing.py:304-334 | recovery frees exactly the leased items whose expiry has come, queued while an attempt is left and failed otherwise |
| QueueOutcomes.RecoveryWrites | src/allbrain/server/queueing.py:304-334 | its events, in row order: the lapse with the old lease, and the requeue where there is one |
| QueueOutcomes.ClaimLeases | src/allbrain/server/queueing.py:132-200 | a claim is refused exactly for a forbidden extension; what it takes was queued for this agent, and is leased to the worker with one attempt more under one fresh lease row |
| QueueOutcomes.EnqueueExact | src/allbrain/server/queueing.py:49-123 | refused exactly without task or agent; a known text returns its row and writes nothing; any other adds one queued row with the request's fields and one event |
| QueueOutcomes.SameTextSameRow | src/allbrain/server/queueing.py:90-95 | after any run and with any run in between, two accepted requests share a row exactly when their idempotency texts are equal |
| QueueOutcomes.PlainNamesTellApart | src/allbrain/server/queueing.py:90-90 | without colons in prefix, workflow and task, texts are equal only for the same work and agent |
| QueueOutcomes.ColonsShareARow | src/allbrain/server/queueing.py:90-95 | two requests for different tasks whose texts are equal: the second is answered with the first one's row |
| RateLimit.SlidingWindowCounter.Prune | src/allbrain/security/rate_limit.py:39-48 | drops exactly the expired front of one key and leaves other keys alone |
| RateLimit.SlidingWindowCounter.CheckAndRecord | src/allbrain/security/rate_limit.py:65-76 | records exactly when the pruned count is below the limit |
| RateLimit.SlidingWindowCounter.Check | src/allbrain/security/rate_limit.py:50-56 | answers for the pruned window and records nothing |
| RateLimit.SlidingWindowCounter.Record | src/allbrain/security/rate_limit.py:58-63 | adds the stamp after pruning, limit or not |
| RateLimit.SlidingWindowCounter.Reset | src/allbrain/security/rate_limit.py:78-84 | empties one key's window, or all |
| RateLimit.SlidingWindowCounter.PopLast | src/allbrain/security/rate_limit.py:86-97 | removes only the newest stamp of one key |
| RateLimit.ToolRateLimiter.CheckToolRate | src/allbrain/security/rate_limit.py:150-171 | burst first; a minute rejection takes the burst record back; other tools untouched |
| RateLimit.ToolRateLimiter.Serve | src/allbrain/security/rate_limit.py:150-171 | in any interleaving each verdict depends only on that tool's own earlier calls |
| RateLimit.ToolRateLimiter.ResetAll | src/allbrain/security/rate_limit.py:143-147 | every tool's windows are empty |
| RateLimit.PrunedIsFilter | src/allbrain/security/rate_limit.py:39-48 | popping expired stamps off the front of a sorted deque is dropping all expired stamps |
| RateLimit.DequesAreTheLog | src/allbrain/security/rate_limit.py:65-97 | after any run each deque is exactly the accepted calls inside its window as of its last prune |
| RateLimit.SameVerdict | src/allbrain/security/rate_limit.py:150-171 | the deques answer every call as the full log of accepted calls would |
| RateLimit.TwoWindowLimit | src/allbrain/security/rate_limit.py:150-171 | every half-open window of each length, wherever it ends, holds at most its limit of accepted calls |
| RateWindows.ClosedWindows | src/allbrain/security/rate_limit.py:39-48 | over any run, each length: every closed window keeps its limit if and only if no two accepted calls `max` places apart stand exactly that length apart, and none holds more than twice the limit |
| RateWindows.ClosedWindowCanHoldMore | src/allbrain/security/rate_limit.py:39-48 | under every burst limit that the minute limit leaves room for, a full burst and another one window later all pass: twice the limit |
| Integrity.VerifyHashChain | src/allbrain/events/integrity.py:94-115 | the loop reports exactly the indices whose stored hash differs from the recomputed chain or whose payload is not an object |
| Integrity.StripTwice | src/allbrain/events/integrity.py:27-37 | stripping integrity fields is idempotent |
| Integrity.AttachExtracts | src/allbrain/events/integrity.py:62-84 | extracting after attaching gives the digest of the stripped payload over the previous hash |
| Integrity.ExtractExactly | src/allbrain/events/integrity.py:72-84 | the stored hash is the non-empty text under `_meta`, or else the payload's own |
| Integrity.AttachStrips | src/allbrain/events/integrity.py:27-69 | attaching leaves the hashed body unchanged if and only if `_meta` was absent or an object |
| Integrity.AttachVerifies | src/allbrain/events/integrity.py:62-69 | a payload with `_meta` absent or an object verifies against the hash it was chained from, for any digest |
| Integrity.AttachVerdict | src/allbrain/events/integrity.py:94-115 | with a collision-free digest it verifies if and only if that holds |
| Integrity.TamperingIsLocalised | src/allbrain/events/integrity.py:94-115 | changing one hashed body under its stored hash is reported at exactly that index |
| Integrity.DeletionIsLocalised | src/allbrain/events/integrity.py:94-115 | deleting one event of a clean chain is reported at exactly its successor, and exactly when a hashed row follows and the deleted row or the one before it is hashed |
| Integrity.SameTipSameHistory | src/allbrain/events/integrity.py:51-59 | two clean fully hashed chains with the same last hash have the same length and bodies |
| EventRepository.Repository.AppendEvent | src/allbrain/storage/event_repository.py:143-212 | refused drafts change nothing; otherwise one row is added at the project's old counter, which advances by one, chained to the newest row, and every column of it is the draft's |
| EventRepository.RefusedExactly | src/allbrain/storage/event_repository.py:160-168 | refused exactly for a missing session, a missing cause, a session of another project or a known id, the first of these being the error |
| EventRepository.NewRowRecords | src/allbrain/storage/event_repository.py:170-212 | the new row has the draft's id, kind, path, hint, cause, time and session, the draft's agent or else the session's, and the payload's keys as given, under `value` if it was no object |
| EventRepository.HighestRow | src/allbrain/storage/event_repository.py:220-226 | the row of the highest position is the last of the project's stream, and there is none exactly when the stream is empty |
| EventRepository.Repository.LatestIntegrityHash | src/allbrain/storage/event_repository.py:214-233 | the hash stored with the project's newest row, if any |
| EventRepository.AppendValid | src/allbrain/storage/event_repository.py:143-212 | appending keeps ids unique, references whole and every project's rows in position order below its counter |
| EventRepository.Repository.CursorStreamPosition | src/allbrain/storage/event_repository.py:461-476 | position of a known event of the project, or the matching error |
| EventRepository.Repository.ListEventsAfter | src/allbrain/storage/event_repository.py:395-428 | the first `limit` rows past the cursor and up to the through cursor, errors in cursor order |
| EventRepository.QueryReturns | src/allbrain/storage/event_repository.py:395-428 | without a limit exactly the project's rows past the one cursor row and up to the other; with one, the first so many |
| EventRepository.CursorIsRow | src/allbrain/storage/event_repository.py:461-476 | a cursor is unknown when no row bears its id, foreign when that row is another project's, and else stands at that row's position |
| EventRepository.Repository.VerifyIntegrity | src/allbrain/storage/event_repository.py:530-555 | positions of exactly the rows the chain check reports |
| EventLogProofs.AppendsGrow | src/allbrain/storage/event_repository.py:143-212 | over any run of appends a project's stream keeps its rows and gains one per accepted draft, column by column the draft's, at consecutive positions from the counter, each chained to the row before, and the counter ends past them |
| EventLogProofs.AppendThenVerify | src/allbrain/events/integrity.py:94-115 | after any appends the verdict on old rows is unchanged and a new row is reported exactly when its `_meta` was not an object |
| EventLogProofs.AppendsVerifyClean | src/allbrain/events/integrity.py:94-115 | from any clean stream such appends verify clean |
| EventLogProofs.LegacyThenAppends | src/allbrain/events/integrity.py:101-107 | from a stream written before hashing began they verify clean |
| IdealDigest.SpellingIsCollisionFree | src/allbrain/events/integrity.py:40-59 | the assumptions made of the digest can be met: writing out the previous hash and the body never collides and never gives the genesis marker |
| Paging.SelectFromStream | src/allbrain/storage/event_repository.py:395-428 | a position range of the table is the same range of the project's stream |
| Paging.PageIsSlice | src/allbrain/storage/event_repository.py:395-428 | reading on from a cursor up to an old high-water row reads only rows of the old stream |
| Paging.FetchFits | src/allbrain/server/tools/_events.py:60-66 | after any appends a fetch returns the next rows of the stream as it was, or the cursor's error |
| Paging.IterEventPages | src/allbrain/server/tools/_events.py:45-72 | the pages concatenate to exactly the rows past the start cursor that existed at the start, none empty, only the last one short, whatever is appended between fetches; and the loop ends |
| TaskState.ApplyEvents | src/allbrain/orchestrator/task_state.py:100-112 | the event loop and the derived fields equal the fold of the base board |
| TaskState.BuildAgentQueue | src/allbrain/orchestrator/task_state.py:385-394 | grouping, list sorting and key sorting compute the queue function |
| TaskState.FinalizeBoard | src/allbrain/orchestrator/task_state.py:396-414 | the view carries the board, its queues and its open, completed and deleted ids |
| TaskStateProofs.QueueIsRight | src/allbrain/orchestrator/task_state.py:385-394 | owners ascend without repetition, and an owner's list holds exactly that owner's queued tasks, each once, by falling priority then id |
| TaskStateProofs.QueueForgetsOrder | src/allbrain/orchestrator/task_state.py:385-394 | the queues do not depend on the order tasks are stored in |
| TaskStateProofs.CompressionIsInvisible | src/allbrain/snapshot/builder.py:46-47 | building the task view from the compressed log gives the identical view |
| TaskStateProofs.PagesFold | src/allbrain/orchestrator/task_state.py:100-112 | applying pages one after another is applying their concatenation |
| TaskStateProofs.SnapshotThenPages | src/allbrain/orchestrator/task_state.py:85-112 | compressed snapshot, reloaded in any key order, extended by pages of any size: the view of the whole log, with identical edges, handoffs and queues and the same id sets |
| TaskStateProofs.TaskIsItsOwnEvents | src/allbrain/orchestrator/task_state.py:85-98 | a task exists exactly when a task event names it, depends on those events alone, and its history lists them all in order |
| TaskMeaning.TaskFollowsItsEvents | src/allbrain/orchestrator/task_state.py:151-228 | status, priority and owner are the last ones the task's events announced; the ownership history never repeats an agent in a row and ends with the current owner |
| TaskFields.TaskIsItsEvents | src/allbrain/orchestrator/task_state.py:151-383 | a task is there exactly when a task event names it, and every field is what those events say: history all of them; goal, kind, files, priority, status, owner and reasons the last given; holders the handovers; each subtask and each recorded list its own events |
| TaskQueues.QueueHoldsWaiting | src/allbrain/orchestrator/task_state.py:385-394 | a task is in an agent's queue exactly when that agent owns it and it is neither completed nor failed |
| TaskQueues.QueueOrder | src/allbrain/orchestrator/task_state.py:391-394 | owners ascend; in a queue higher priorities come first, and of equal ones the lesser id |
| TaskQueues.IdListsAre | src/allbrain/orchestrator/task_state.py:404-414 | open, completed and deleted ids are those of the tasks with such a status, in stored order |
| TaskMeaning.LinksAreTheLogs | src/allbrain/orchestrator/task_state.py:230-252 | dependencies are the edges the log adds, each once, in order of first appearance; handoffs are all handoff events in order |
| Projection.ProjectPages | src/allbrain/server/tools/_events.py:101-110 | the page loop yields the view and metrics of the concatenated pages |
| Projection.LoadTaskProjection | src/allbrain/server/tools/_events.py:75-110 | the projection covers exactly the events past the snapshot's cursor present at the start, for every batch size and whatever is appended meanwhile |
| Projection.ProjectionIsReplay | src/allbrain/server/tools/_events.py:75-110 | with or without a snapshot the task projection is the view built from the whole log, up to dict order |
| MetricsCompression.CompressedMetrics | src/allbrain/snapshot/builder.py:46-48 | metrics from a compressed log agree on every counter and trail field but the version |
| MetricsCompression.CompressedAgents | src/allbrain/snapshot/deduplicator.py:8-26 | an agent appears in them if and only if some retained event is its own |
| MetricsCompression.CompressedMetricsExact | src/allbrain/snapshot/builder.py:46-48 | they equal the full log's metrics if and only if every agent with an event keeps one and the last version its events carry is the last its retained events carry |
| MetricsCompression.MetricsProjectionIsReduction | src/allbrain/server/tools/_events.py:75-110 | with or without a snapshot the projected metrics agree with reducing the whole log on every counter and trail field but the version, and outright exactly when every agent fares alike in the compressed and the full log |
| MetricsCompression.FileOnlyAgentIsLost | src/allbrain/snapshot/deduplicator.py:18-26 | an agent whose only event is a path-less modification is missing from the metrics of a compressed log |
| MetricsCompression.SupersededAgentIsLost | src/allbrain/snapshot/deduplicator.py:8-26 | so is one whose only event modifies a file that another agent modifies next |
| AgentMetrics.ApplyEvents | src/allbrain/orchestrator/metrics/agent_performance_reducer.py:15-60 | the event loop and derived fields equal the metrics fold |
| AgentMetrics.ApplyExtendsReduce | src/allbrain/orchestrator/metrics/agent_performance_reducer.py:12-60 | applying a page to finished metrics equals reducing the whole log on every field |
| MetricsMerge.MergeAgentMetrics | src/allbrain/server/tools/_tasks.py:95-131 | the nested loops compute the merge for every base and delta |
| MetricsMerge.MergeAgreesOnCounts | src/allbrain/server/tools/_tasks.py:95-131 | merging two reductions names the same agents as reducing the whole, with the same four counters, total, rates and confidence |
| MetricsMerge.MergeExact | src/allbrain/server/tools/_tasks.py:95-131 | an agent's merged record is its whole reduction, all fields alike, if and only if the base is empty, or names the agent and the delta leaves the fields that do not add up unchanged |
| MetricsMerge.CountersCountEvents | src/allbrain/orchestrator/metrics/agent_performance_reducer.py:26-49 | each counter is the number of the agent's events of that kind, and an agent is listed exactly when an event is attributed to it |
| MetricsMerge.StreakCountsFailures | src/allbrain/orchestrator/metrics/agent_performance_reducer.py:33-38 | the failure streak is the number of the agent's failures since its last completion |
| MetricsMeaning.CountsAndRates | src/allbrain/orchestrator/metrics/agent_performance_reducer.py:26-60 | counters are numbers of events, the total is completions, failures and blocks, and each rate is its number over the total, or over one while that is zero |
| MetricsMeaning.TrailFollowsEvents | src/allbrain/orchestrator/metrics/agent_performance_reducer.py:33-49 | version, feedback score, failure time and failure reason are the last the agent's own events gave |
| EventTools.BrainContext.InvalidatePromotedIdsCache | src/allbrain/server/context.py:195-199 | the cache is dropped and its version advances |
| EventTools.SaveEvent | src/allbrain/server/tools/events.py:34-94 | it succeeds exactly when a session is bound and neither the event nor its audit record is refused, with the first refusal named; both land together or not at all, the row carries the draft column by column, and the cache is dropped |
| EventTools.BindsExactly | src/allbrain/server/tools/_shared.py:70-84 | a requested session is taken when it is one of the project's and refused otherwise; without a request the active session, or an error |
| EventTools.AppendAudited | src/allbrain/server/tools/events.py:65-89 | it succeeds exactly when neither append is refused, naming the first refusal; the event is the first row added and its audit record the second; a refusal of either leaves the tables as they were |
| EventTools.LiftShows | src/allbrain/server/tools/events.py:121-129 | a lift is among those the cache reads as soon as it is appended |
| EventTools.AuditKeepsPromotions | src/allbrain/server/tools/_shared.py:87-111 | an audit record never changes the promoted ids |
| EventTools.AuditRecordIs | src/allbrain/server/tools/_shared.py:87-111 | the audit record is a tool call of the session's agent without path, hint or cause, with the given arguments |
| EventTools.LiftRecordIs | src/allbrain/server/tools/events.py:394-403 | the lift is caused by the event it promotes, names it in its payload, and is the session's agent's |
| EventTools.PromoteEvent | src/allbrain/server/tools/events.py:370-421 | it succeeds exactly when a session is active and neither the lift nor its audit record is refused; the lift names the event, nothing existing changes, and the event counts as promoted at once |
| EventTools.ListEvents | src/allbrain/server/tools/events.py:98-207 | the page depends on the log alone, cached ids or not; it is refused exactly for a missing session, a bad cursor or a refused audit record, with that error |
| EventTools.WindowOfLifts | src/allbrain/server/tools/events.py:121-129 | the ids used are among those lifted, all of them up to ten thousand lifts, and where no event is lifted twice exactly then |
| EventTools.PageShows | src/allbrain/server/tools/events.py:179-199 | up to ten thousand lifts, a page holds exactly the rows of the raw page that bear no truthy quarantine mark or are lifted, or all of them when the caller asked for everything |
| ClientPaging.RawPageAt | src/allbrain/storage/event_repository.py:270-320 | a cursor at the n-th matching row fetches exactly the next rows and says whether more follow |
| ClientPaging.NothingLostOrRepeated | src/allbrain/server/tools/events.py:179-199 | whatever is appended between calls, a client following the cursor has seen a prefix of the visible rows, each once and in order, and all of them when told there are no more |
| ClientPaging.WalkCompletesExactly | src/allbrain/server/tools/events.py:179-199 | on a fixed log the walk ends within one call per row and one more: complete if and only if no full page of hidden rows, at the start or right after a visible row, stands before a further row; stuck otherwise |
| ClientPaging.AppendsExtendMatching | src/allbrain/server/tools/events.py:201-206 | appends, audit records among them, only extend what a query matches |
| WalkGrowth.WalkUnderGrowth | src/allbrain/server/tools/events.py:179-206 | a client shown every matching row, while each call leaves `a` more, is told for ever that there is more if and only if its page is at most `a` and the log began with more than a page; otherwise it finishes with everything shown |
| WalkGrowth.OwnRecordsDecideTheWalk | src/allbrain/storage/event_repository.py:143-212 | the same over the real tables, where every call appends `a` records its query matches |
| WalkGrowth.ToolAuditedWalk | src/allbrain/server/tools/_shared.py:87-111 | with the record `list_events` leaves itself: for ever exactly at one row a call from a log of more than one |
| WalkGrowth.CentrallyAuditedWalk | src/allbrain/server/lifecycle_middleware.py:30-86 | with the start and outcome records of the middleware: for ever exactly at one or two rows a call from a log of more |
| HistoryImport.HistoryRepairer.MergeSources | src/allbrain/storage/history_repair.py:62-173 | all sources are merged in one transaction, or a dangling reference leaves the tables unchanged |
| HistoryImport.ImportProjects | src/allbrain/storage/history_repair.py:85-99 | projects are found by path or added with a fresh counter, and the row map is the lookup in the final table |
| HistoryImport.ImportSessions | src/allbrain/storage/history_repair.py:100-133 | sessions are found by project, agent and start or added; a row of an unmapped project stops the import |
| HistoryImport.ImportEvents | src/allbrain/storage/history_repair.py:134-164 | known ids are skipped; others are added with mapped rows and the next claimed position |
| HistoryImport.ClaimStreamPosition | src/allbrain/storage/history_repair.py:71-77 | the next claimed position, starting from the stored counter |
| HistoryImport.RemapPointsHome | src/allbrain/storage/history_repair.py:280-295 | an imported payload's session reference is the target row, a changed row number leaves a legacy reference, other keys stay |
| HistoryImport.EqualsIntIsEquality | src/allbrain/storage/history_repair.py:289-292 | a stored reference counts as the target row exactly when it is the same number, truth values and whole floats included |
| HistoryImportProofs.ImportIsConservative | src/allbrain/storage/history_repair.py:62-173 | existing rows and positions stay; each offered unknown id is added exactly once; additions to a stream get consecutive positions from its counter, which moves past them |
| HistoryImportProofs.ImportIsFaithful | src/allbrain/storage/history_repair.py:134-164 | every imported row has each column of an event of some source and its payload with the session references rewritten, in the project of its path and the session of its agent and start |
| HistoryImportProofs.RowCarriesEvent | src/allbrain/storage/history_repair.py:138-160 | id, agent, kind, path, hint, cause and time are the event's; of the payload every key but the two session keys is kept, the session is the target row, and the legacy session is the old reference, or the old row number, or as it was |
| HistoryImportProofs.ImportKeepsSessionsFit | src/allbrain/storage/history_repair.py:102-147 | where sources keep each event's session in the event's project, so does the target |
| HistoryImportProofs.SecondImportChangesNothing | src/allbrain/storage/history_repair.py:62-173 | importing the same sources again adds nothing and changes nothing |
| HistoryImportProofs.ClosedSourcesMerge | src/allbrain/storage/history_repair.py:85-165 | sources whose rows refer only to rows they hold always import |
| ImportVerdicts.RemapChangesBody | src/allbrain/storage/history_repair.py:280-295 | remapping changes the hashed body if and only if it changes the payload at all |
| ImportVerdicts.ImportedRowVerdict | src/allbrain/storage/history_repair.py:138-160 | an event that verified at its source is reported where it lands if and only if its text is no object, or it is hashed and the remapping changed it or it stands behind another hash |
| ImportVerdicts.ImportVerdict | src/allbrain/storage/history_repair.py:62-173 | after an import every row that was there keeps its verdict, and every imported row is reported exactly under that condition on its neighbour in the target stream |
| Profiling.ProfileSession.LeaveStage | src/allbrain/profiling.py:74-86 | leaving a stage records its duration and self time and credits the enclosing stage |
| Profiling.LeavingRecords | src/allbrain/profiling.py:74-86 | the record of a left stage by field: its name, the enclosing stage's name, time since entry and that less its children's, both cut at zero; the enclosing stage is credited with the whole |
| Profiling.TimesAreNatural | src/allbrain/profiling.py:74-84 | whatever the clock does no recorded time is negative |
| Profiling.ProfileSession.EnterStage | src/allbrain/profiling.py:69-71 | entering pushes an open span without children |
| Profiling.ProfileSession.WriteSession | src/allbrain/profiling.py:89-103 | total, and total less the top-level spans |
| Profiling.RunBalanced | src/allbrain/profiling.py:63-86 | at every point of a run self times equal top-level durations plus what open spans owe their finished children, and every span has room for its children |
| Profiling.NothingClips | src/allbrain/profiling.py:74-84 | with a monotone clock no duration or self time is ever cut off at zero |
| Profiling.TimeIsConserved | src/allbrain/profiling.py:63-103 | when all stages are left the self times add up to the top-level durations, and with the request's own self time to the total |
| Revision.SeenIds.Observe | src/allbrain/reducers/revision_pkg/_state.py:17-23 | true exactly for a non-empty id seen before, which is then remembered |
| Revision.BeliefRevisions.ApplyBeliefRevised | src/allbrain/reducers/revision_pkg/belief.py:29-42 | a valid revision sets its context's checkpoint and zeroes its counter; an invalid one does nothing |
| Revision.BeliefRevisions.IncrementTrailingForAll | src/allbrain/reducers/revision_pkg/belief.py:44-46 | every known context's counter advances by one and no other |
| Revision.RevisionReducer.ApplyEvent | src/allbrain/reducers/revision_pkg/reducer.py:55-85 | the sub-reducer objects together make the step function of the reducer |
| Revision.RunIsFirsts | src/allbrain/reducers/revision_pkg/_state.py:17-23 | a run equals the run over the first event of each non-empty id |
| Revision.DuplicatesChangeNothing | src/allbrain/reducers/revision_pkg/reducer.py:55-143 | events already in the log, again in any order and number, change no snapshot of any context |
| Revision.SnapshotCountsContradictions | src/allbrain/reducers/revision_pkg/reducer.py:87-143 | a context is known exactly when a distinct event validly revised it; its checkpoint holds the last such payload's fields, and its count is the number of distinct contradictions after it |
| Revision.OthersAreAbsorbed | src/allbrain/reducers/revision_pkg/reducer.py:55-85 | every event that is neither a contradiction nor a revision reaches the other sub-reducers once, in order |
| Revision.NoRevisionAfter | src/allbrain/reducers/revision_pkg/belief.py:29-42 | that revision is the last: none of the context stands after it |

## Left out

- SQLite, SQLAlchemy, migrations, locks and the five-try loop in `claim`: a write session is one atomic step, so lost races between row reads and updates do not appear.
- Foreign-key enforcement, so an import whose `caused_by` target is missing is not refused here.
- SHA-256 and JSON text: the digest is a parameter over payload values, and payloads survive storage unchanged.
- Redaction, prompt-injection scanning and schema validation: payloads arrive as they would after them.
- The active-session requirement of queue events, timestamps of queue and lease rows other than creation and expiry, worker heartbeats and the `session_id` of queue events.
- Snapshots older than `open_task_refs`: an absent field is the empty reference map (`SnapshotReload.BareLabelsReload`).
- `iter_events_through_cursor` and `load_events_through_cursor`: the same walk from the start, row by row; batch sizes below one, which they do not reject, are not modelled.
- `list_events` filters other than the project are one predicate on rows; the summary mode and `review_quarantined` are not modelled.
- Visibility in the client-paging theorems is a fixed set of rows: events promoted between two calls of one walk are outside them. In the walk over a log its own calls extend every matching row is visible.
- Git events the middleware appends when the working tree changed between two calls: a centrally audited walk leaves the two audit records only.
- Payload upcasting and the removal of metadata on read: the read conversion is a parameter of the projection.
- Dict order inside a task (subtasks, record keys), the difference between an absent and an empty `subtasks`, and subtasks without a node id.
- Owners that are not strings, `related_files` that is not a list, and priorities `int()` rejects.
- Equality of JSON numbers across Python types (`True == 1`), except in the import's session remapping.
- The metrics' `isoformat` text of failure times and the rounding of rates: times are numbers, rates are exact quotients.
- Rounding of profiled times to milliseconds, percentiles and profile aggregation.
- `revision/events.py` is not part of this model: the validator is a parameter, and the trust, uncertainty, calibration, drift and scalar sub-reducers are one abstract step.
- `EventCompressor` in `domains/analysis/compression`: the deduplicator stands for it.
- Session open and close bookkeeping, heartbeat repair, baseline snapshots after import, derived snapshot layers, the filesystem snapshot lease, conflict and scheduler scoring: not modelled.
- Deleted tasks that stay in an owner's queue while absent from the open ids: modelled as written, no agreement claimed.
