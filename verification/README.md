# Codohue: a Dafny model of its protocols

This project models the parts of Codohue in which several processes, several stores and
failing calls meet, and proves what they keep. `dafny verify dfyconfig.toml` checks all of it.

**The catalog embedding pipeline** (`Pipeline`, `Truth`, `NoLoss`, `Reembed`,
`ReembedTarget`, `Budget`, `LateUpsert`, `LeaseRefusal`, `Walks`, `Embedder`, `Sweeper`,
`Producers`). `Pipeline` is a state machine over one table of items, one stream with its pending-entries list, one vector
store, open re-embed runs and any number of workers with their own program counters. Every SQL
statement, stream command and vector upsert is one atomic step, and each may succeed, be lost,
or take effect while the caller sees an error. The theorems quantify over all runs of the
machine. `Embedder`, `Sweeper` and `Producers` are the code itself, as methods that change the
shared state step by step while other processes act in between (`noise`); each is proved to be
a run of the machine, through an arbitrary set of states `R` closed under its steps, and to
compute what it promises: step by step under interference, exactly when undisturbed.

**Phase-one recompute** (`Cooccurrence`, `PassPlan`, `SparseVectors`, `Collections`,
`SubjectPhase`, `ObjectPhase`, `Recompute`). Subjects in chunks, a quadratic co-occurrence
matrix in memory-bounded passes, normalised sparse vectors, and the sweep of stale points, with
any lookup or write failing anywhere and a failed write landing in any part.

**Locks, live streams, delete and reset** (`ComputeLocks`, `LockCalls`, `RunStream`,
`NamespaceDelete`). Session locks over pooled connections, a run's end against a stream being
opened, and durable deletion over three stores.

**Small stateful components** (`RateLimiter`, `NegativeCache`, `Tokenizer`, `Hashing`, `Cursor`,
`Pagination`, `EventTail`). `Wrappers` holds the one option type.

## What the theorems assume

- The content hash is injective and an embedding is a function of strategy id, version and
  content.
- `Truth.EmbeddedIsTruthful`: at most one ProcessItem per item at a time and no object deletion.
  `LateUpsert.LateUpsertLies` shows that the first is needed, and `Truth.TruthBrokenExactly` gives
  the exact steps that break truth when neither is assumed.
- `NoLoss.NoWorkIsLost`: one worker per stream entry at a time and the writer lease granted.
  `LeaseRefusal.RefusedLeaseRun` is a run that loses an item when the lease is refused, and
  `NoLoss.WorkLostExactly` gives the exact steps that lose work.
- `Budget.EmbedCallsBounded` needs neither: any number of workers, deliveries and sweeps.
- Compute locks: whatever queries answer and whichever sessions end, clashing work runs at the
  same time only if the server has ended a session under its work. All runs are exclusive exactly
  when it never does (`ComputeLocks.ExclusiveExactly`). All runs leave pooled connections free of
  locks, close no circle of waits and never deadlock exactly when no lock query reports an error
  after its lock was taken (`ComputeLocks.PoolFreeExactly`, `ComputeLocks.AcyclicExactly`,
  `ComputeLocks.DeadlockFreeExactly`; `ComputeLocks.LeaksDeadlock` is the run that fails).
- `NamespaceDelete`: the exclusive lifecycle section keeps other writers out. Physical names are
  not assumed to be injective; that generations of one name never share any is proved, from
  distinct numerals without underscore and distinct base64url without colon
  (`NamespaceDelete.KeysDisjoint`, `NamespaceDelete.CollectionsDisjoint`).
- `RateLimiter`: a reading taken under the lock is no earlier than any reading before it. Only
  Allow reads there; the readings of Blocked and RecordFailure may lag, and
  `RateLimiter.LaggingFailureOwes` is a history in which tokens then go below zero.
- `NegativeCache`: the digest is injective and tokens contain no NUL. A lookup's reading is taken
  under the lock; a noted rejection's may lag. Refinement needs no order of readings;
  `NegativeCache.LaggingNoteForgets` is the interleaving in which a lagging note makes the cache
  forget a rejection early, and `NegativeCache.RecentRejectionRefused` says exactly when.
- `Pagination`: JSON reads back the cursor it wrote, and for `Pagination.CursorForItsQueryOnly`
  different times are written differently.

## Where code and documentation differ

- `internal/embedder/tokenizer.go` documents n-gram lengths as the half-open range from 3 to 5;
  the code emits lengths 3, 4 and 5. The model follows the code.
- `ProcessItem` leaves its outcome at the zero value, which means embedded, when the writer lease
  is refused without calling back; the worker then acknowledges. The model follows the code.
- `planPasses` is documented as keeping every pass within the budget; a single target larger than
  the budget gets a pass of its own, and targets without any load may share it. The model states
  exactly that.

## Model

| member | source | states |
|---|---|---|
| Truth.EmbeddedIsTruthful | internal/embedder/service.go:196-316 | in every state of the invariant an embedded row's stored vector is the embedding of its current content under the strategy pair on the row, whatever ingests, redrives, resets, sweeps, configuration edits, failed writes and crashes interleave |
| Truth.AlwaysTruthful | internal/embedder/service.go:196-316 | the same from an initial state, along every run |
| Truth.StepKeepsInv | internal/embedder/repository.go:73-166 | every step of every process keeps the truth invariant, including what a worker may rely on at each program point and that success is recorded only over the digest that was embedded |
| Truth.TruthBrokenExactly | internal/embedder/service.go:270-316 | under any discipline, a step makes an embedded row lie if and only if it writes another vector under it, records success over a foreign vector, or deletes its point |
| Truth.InvIsClosed | internal/embedder/service.go:196-316 | the truth invariant is a closed set of the machine, so every method below keeps it |
| LateUpsert.LateUpsertLies | internal/embedder/service.go:207-216 | with two workers on one item a run exists that ends with an embedded row over the vector of older content, and every continuation without new content, a re-embed, a configuration edit or a deletion keeps the row embedded and lying |
| LateUpsert.LiesOn | internal/embedder/service.go:207-216 | a lying embedded row at the configured strategy, with every worker on it about to short-circuit, stays embedded and lying through every such continuation |
| NoLoss.NoWorkIsLost | internal/embedder/worker.go:299-351 | in every state of the invariant each row is embedded, dead-lettered, selectable by the sweeper or owed by an unacknowledged entry; every failed row has such an entry |
| NoLoss.NeverLost | internal/embedder/worker.go:299-351 | the same from an initial state, along every run |
| NoLoss.StepKeepsInv | internal/embedder/repository.go:129-216 | every step of every process keeps an entry that nobody is about to acknowledge for each failed row |
| NoLoss.WorkLostExactly | internal/embedder/service.go:341-375 | a step loses work if and only if it acknowledges the last entry of a failed row or marks a row failed that has no entry left |
| NoLoss.RefusedLeaseLosesWork | internal/embedder/service.go:176-194 | a refused lease followed by its acknowledgement loses a failed row's only entry |
| LeaseRefusal.RefusedLeaseRun | internal/embedder/worker.go:335-345 | such a run exists from an empty namespace |
| Reembed.ClosedMeansSettled | internal/embedder/reembed_watcher.go:100-169 | for any target, whenever a run is closed, every row its start reset has since been embedded or dead-lettered, or is gone |
| Reembed.OwingUntilSettled | internal/admin/catalog_ops_repository.go:188-209 | a reset row counts as stale until something settles it, through any interleaving |
| Reembed.TwoTransactionsWouldLose | internal/admin/catalog_ops_repository.go:215-253 | were insert and reset two transactions, a run exists that closes with nothing settled |
| ReembedTarget.OnTargetExactly | internal/embedder/repository.go:104-124 | a row a run's start reset and that is embedded later, in particular when the run is closed, is at the run's target if and only if the last success recorded for it since was recorded under that strategy |
| ReembedTarget.ReachesTarget | internal/admin/catalog_ops_service.go:129-196 | if the target is and stays the configured strategy and no worker on the item holds another when the run starts, every reset row found embedded later is at the target |
| ReembedTarget.OldWorkerSettlesOffTarget | internal/embedder/service.go:196-216 | a worker that read an older configuration before the start settles a reset row at the older strategy, and the run is still closed |
| Budget.EmbedCallsBounded | internal/embedder/service.go:218-262 | over any run, calls to embed an item are at most m times one plus its resets, m being any bound on the limits configured meanwhile: the override, else the process default, else 5 |
| Budget.OverrideBoundsCalls | internal/embedder/service.go:218-262 | with a namespace override that is not edited, the override itself is that bound, whatever the process default |
| Budget.RunPays | internal/embedder/repository.go:73-91 | calls so far plus budget used are paid for by permits and resets, step by step |
| Embedder.Namespace.ProcessItem | internal/embedder/service.go:176-194 | a run of the machine under any interference; disturbed with every call succeeding, it fails only if the row moved on and skips only if the row was gone or embedded; undisturbed, outcome and row are those of the row, the configuration and whatever failed; success leaves the embedding of the row's content stored and recorded |
| Embedder.RetryBudget | internal/embedder/service.go:218-245 | in numbers: a row is dead-lettered once its attempts reach the override if there is one, else the process default if there is one, else 5, and below that embedded exactly when the dimension fits |
| Embedder.SkippedExactly | internal/embedder/service.go:207-216 | skipped exactly when the row is embedded under the configured strategy id and version |
| Embedder.Namespace.ProcessLeased | internal/embedder/service.go:185-193 | a refused lease changes nothing and returns the zero outcome, embedded |
| Embedder.Namespace.ProcessLoadedItem | internal/embedder/service.go:196-316 | skipped only when already embedded or gone; embedded only with the loaded digest and the configured strategy; exact outcome when nothing fails; otherwise the job ends without acknowledgement |
| Embedder.Namespace.CountAttempt | internal/embedder/service.go:229-236 | the row goes in flight with its counter raised by one, and a deleted row is skipped |
| Embedder.Namespace.CallStrategy | internal/embedder/service.go:239-270 | over budget, unresolvable, terminal error or wrong dimension means dead letter; a transient error means failed; otherwise the vector is the embedding of the snapshot |
| Embedder.Namespace.EmbedItem | internal/embedder/service.go:239-316 | embedded only if within budget, of the right dimension and with every call confirmed; undisturbed, exactly when moreover the digest still matches |
| Embedder.Namespace.StoreVector | internal/embedder/service.go:272-316 | success means the row holds the digest and strategy pair and, undisturbed, the store holds the vector of this attempt |
| Embedder.Namespace.UpsertVector | internal/embedder/service.go:272-296 | the attempt goes on exactly when the store was prepared and the upsert was confirmed |
| Embedder.Namespace.RecordSuccess | internal/embedder/repository.go:104-124 | success is recorded exactly when the row still has the embedded digest and the write is confirmed |
| Embedder.Namespace.DeadLetterOutcome | internal/embedder/service.go:341-357 | acknowledged only if the dead_letter write succeeded |
| Embedder.Namespace.RecordFailure | internal/embedder/service.go:362-375 | never acknowledged; the row ends failed unless the write is lost |
| Embedder.Namespace.HandleMessage | internal/embedder/worker.go:299-351 | for a new or a reclaimed entry, undisturbed, the entry leaves the pending list exactly when the outcome may be acknowledged and the acknowledgement is not lost |
| Sweeper.SelectStranded | internal/embedder/repository.go:179-216 | the oldest stale rows of the wanted state, distinct, at most the batch, nothing older left behind |
| Sweeper.SweepNamespace | internal/embedder/recovery_sweeper.go:158-208 | nothing happens unless queue and pending list are both empty; otherwise, others acting between all its statements, what was stranded when each statement looked is selected, in-flight rows become pending, and every item whose publish is not lost gets on the stream; undisturbed nothing else changes |
| Sweeper.PublishAll | internal/embedder/recovery_sweeper.go:234-253 | with others acting between publishes, every item whose publish is not lost is on the stream at some moment; undisturbed, at the end, and nothing else changes |
| Producers.IngestActive | internal/catalog/service.go:156-241 | refused exactly by the gates; the row is upserted as Producers.Upsert says in the state the write meets, and new content is published, others acting in between; a failed publish leaves the row, a failed write reports failure; identical content leaves the lifecycle alone and the strategy pair is never touched |
| Producers.Upsert | internal/catalog/repository.go:170-243 | only the row of the object changes, and needs_publish is reported exactly when its content is new |
| Producers.StartReembedRun | internal/admin/catalog_ops_repository.go:188-253 | one transaction opens a run for the given target and resets exactly the rows each filter names, by state and strategy pair |
| Producers.TriggerReEmbed | internal/admin/catalog_ops_service.go:129-196 | the gates change nothing; busy exactly when the lookup finds an open run, started exactly when it finds none and the transaction succeeds; the run is for the strategy read at the start and resets exactly the rows the filter names in the state the transaction meets; every reset row whose publish is not lost gets on the stream |
| Producers.RedriveCatalogItem | internal/admin/catalog_ops_service.go:300-335 | found exactly for a row that is failed or dead-lettered when the update looks, which alone becomes pending with a fresh budget, also when the write errs after taking effect, and is then on the stream unless the publish is lost |
| Producers.BulkRedriveDeadletter | internal/admin/catalog_ops_service.go:340-371 | exactly the dead-lettered rows the update meets become pending, and each whose publish is not lost gets on the stream |
| Producers.WatcherTick | internal/embedder/reembed_watcher.go:100-169 | unless something fails, every run listed is closed afterwards or had an outstanding row when counted, whatever others do; undisturbed, exactly the open runs without an outstanding row are closed |
| Producers.StaleIsOutstanding | internal/embedder/reembed_watcher.go:221-238 | outstanding means pending, in flight or failed and not carrying the target pair; embedded and dead-lettered rows never count |
| Producers.CheckRun | internal/embedder/reembed_watcher.go:109-168 | others may act before and between count and close and each may fail; if nothing fails the run is closed or the count found an outstanding row; undisturbed the outcome is exact |
| Cooccurrence.Accumulate | internal/compute/service.go:336-355 | one pass builds exactly the rows of its targets, each cell the left-to-right sum of its contributions |
| Cooccurrence.PassesPartitionMatrix | internal/compute/service.go:199-213 | for any pass assignment and any addition, without associativity or commutativity, every row of the unpartitioned matrix is built in exactly one pass with the same cells |
| PassPlan.TargetLoads | internal/compute/service.go:311-318 | every object in some row, with k-1 per occurrence in a row of length k |
| PassPlan.Pack | internal/compute/service.go:320-331 | for any visiting order the greedy assignment stays packed |
| PassPlan.PlanPasses | internal/compute/service.go:300-331 | each pass is within budget or has exactly one positive-load target, neighbours together exceed it, and there are at most 1 + 2*(total / (budget + 1)) passes |
| PassPlan.PassCountBound | internal/compute/service.go:300-331 | the bound on the number of passes |
| PassPlan.RowWithinLoad | internal/compute/service.go:300-305 | the map built for a target has no more entries than its load |
| PassPlan.PassMemory | internal/compute/service.go:300-355 | the maps of a pass together have no more entries than its load |
| SparseVectors.L2Normalize | internal/compute/service.go:80-92 | in place: every value divided by the norm; unit length afterwards, or zero throughout |
| SparseVectors.SparseVectorFrom | internal/compute/service.go:50-62 | strictly increasing dimensions, exactly the given entries, one common norm |
| SparseVectors.BuildSubjectVector | internal/compute/service.go:464-497 | exactly the ids that fit are covered, each value the score over one norm that is not negative; both error cases exactly |
| SparseVectors.OneDimensionPerObject | internal/compute/service.go:24-43 | narrowing folds no two objects onto one dimension: a subject vector has exactly as many dimensions as scored objects whose id fits 32 bits |
| SparseVectors.BuildObjectVector | internal/compute/service.go:559-573 | the same for an object's row |
| SparseVectors.SubjectKeepsOrder | internal/compute/service.go:80-92 | a subject vector keeps the sign of every score and ranks its objects as their scores do |
| SparseVectors.ObjectKeepsOrder | internal/compute/service.go:80-92 | so does an object vector for its partners |
| SparseVectors.CosineRange | internal/compute/service.go:38-92 | the dot product of any two such vectors lies between -1 and 1 |
| SparseVectors.MergeIsDot | internal/compute/service.go:50-62 | merging by dimension is the dot product over all dimensions |
| Collections.CleanupStalePoints | internal/compute/cleanup.go:30-70 | whatever fails, kept points survive unchanged, nothing is added and no more is reported removed than is gone; when no call fails the sweep succeeds, and then exactly the kept points remain and the count is right |
| Collections.ListStale | internal/compute/cleanup.go:31-53 | scrolling to the end finds every stale id once, and only a failing scroll stops it |
| Collections.Collection.Scroll | internal/compute/cleanup.go:34-40 | a page is all ids from the offset up to the next page's first id |
| SubjectPhase.BuildChunk | internal/compute/service.go:379-421 | exactly the buildable subjects of the chunk, each with its own vector |
| SubjectPhase.MakeRow | internal/compute/service.go:283-298 | a subject's row holds each of its objects once with its score |
| SubjectPhase.ProcessChunk | internal/compute/service.go:164-190 | a failed lookup or write counts as a failed chunk, built rows still feed co-occurrence |
| SubjectPhase.ProcessSubjects | internal/compute/service.go:161-190 | the keep-set is exactly the ids built in chunks that were written; no chunk failed exactly when every lookup and write succeeded |
| ObjectPhase.UpsertObjectVectors | internal/compute/service.go:536-607 | every row of the pass is written in batches, or an error is reported and nothing stored is gone |
| ObjectPhase.UpsertPasses | internal/compute/service.go:199-213 | the passes together write the encoding of the unpartitioned matrix |
| ObjectPhase.MergedIsWhole | internal/compute/service.go:333-335 | all passes merged are the unpartitioned matrix |
| ObjectPhase.WholeKeys | internal/compute/service.go:336-355 | an object has a row exactly when it has a co-occurring partner |
| ObjectPhase.CellIsPairSum | internal/compute/service.go:336-355 | two objects share a cell exactly when some subject has both, and the cell of t for o is the sum of the scores of o over the subjects that also have t |
| Recompute.RecomputeNamespace | internal/compute/service.go:140-231 | an error exactly when subjects cannot be listed, none could be written, or an object write failed; an error or any failed lookup or write deletes no stored point; otherwise it succeeds unless no subject can be built, and when no call fails both collections hold exactly this run's subjects and the objects with a partner, with the right vectors |
| Recompute.RunCells | internal/compute/service.go:336-355 | the matrix behind the stored object vectors is the sum over built subjects that scored both objects |
| Recompute.CleanupCollection | internal/compute/service.go:233-250 | best effort: kept points stay, a completed sweep leaves only them, and it completes when the name resolves and no call fails |
| ComputeLocks.MutualExclusion | internal/compute/repository.go:246-322 | in every run, however queries fail, sessions end and names collide, two sessions do clashing work only if the server has ended one of them under its work |
| ComputeLocks.ExclusiveExactly | internal/compute/repository.go:246-322 | all runs are exclusive if and only if the server ends no session under its work |
| ComputeLocks.WorkOutlivesSession | internal/compute/repository.go:254-282 | otherwise a run exists in which two sessions work on one namespace |
| ComputeLocks.StepExcludes | internal/compute/repository.go:254-363 | every client or server step keeps sessions compatible |
| ComputeLocks.PoolFreeExactly | internal/compute/repository.go:324-363 | in all runs a connection back in the pool holds no lock, whatever unlock queries do and whichever sessions end, if and only if no lock query reports an error after its lock was taken |
| ComputeLocks.LeakedExactly | internal/compute/repository.go:254-305 | the only step after which a client will not give back what its session holds is a lock query reporting an error although its lock was taken |
| ComputeLocks.LeakedLockStaysInPool | internal/compute/repository.go:260-265 | such a reply puts a connection back with the shared lock, and a waiting lock-all is not granted in any continuation in which that session does not end |
| ComputeLocks.StrayBlocksMaintenance | internal/compute/repository.go:324-363 | a shared lock nobody will give back survives every later use of its connection, and until the session ends lock-all is granted to nobody else |
| ComputeLocks.WaitForIsAcyclic | internal/compute/repository.go:287-322 | when lock queries err only without effect, no run closes a circle of sessions waiting for each other |
| ComputeLocks.NoDeadlock | internal/compute/repository.go:287-322 | under the same condition, whenever somebody waits, some session can move |
| ComputeLocks.AcyclicExactly | internal/compute/repository.go:287-322 | all runs are free of circles if and only if no lock query reports an error after its lock was taken |
| ComputeLocks.DeadlockFreeExactly | internal/compute/repository.go:287-322 | and free of deadlock if and only if the same holds |
| ComputeLocks.LeaksDeadlock | internal/compute/repository.go:260-322 | the run that fails: two connections with a leaked lock, both asking for all namespaces, wait for each other and nobody can move |
| LockCalls.SoundIsClosed | internal/compute/repository.go:254-363 | the lock invariants form a closed set, so every call below keeps them |
| LockCalls.AvailableExactly | internal/compute/repository.go:254-282 | to be had means: no other session holds or waits ahead for all namespaces or for the same key |
| LockCalls.AllAvailableExactly | internal/compute/repository.go:310-322 | and for all namespaces: no other session holds or waits ahead for any maintenance lock |
| LockCalls.Pool.TryLockNamespace | internal/compute/repository.go:254-282 | true exactly when the caller holds the namespace, otherwise the connection is back or closed; answered but refused, somebody contended for a lock; undisturbed and answered, true exactly when both locks are to be had |
| LockCalls.Pool.LockNamespace | internal/compute/repository.go:287-305 | the same, waiting; undisturbed and answered, it gets locks that are to be had |
| LockCalls.Pool.LockAllNamespaces | internal/compute/repository.go:310-322 | the same for the exclusive maintenance lock; answered, it is obtained if it becomes free in any round of the wait |
| LockCalls.Pool.ReleaseSharedMaintenanceLock | internal/compute/repository.go:344-363 | back in the pool exactly when the unlock succeeded, else closed |
| LockCalls.Pool.Release | internal/compute/repository.go:324-342 | back in the pool exactly when every unlock succeeded, else closed |
| LockCalls.Pool.WithNamespaceLocks | internal/compute/job.go:327-346 | the work runs only leased and with both locks held from its beginning to its end, and the connection is given up afterwards; leased and answered without running, somebody contended; undisturbed and answered, it runs exactly when both locks are to be had |
| RunStream.EveryStreamCloses | internal/admin/stream_handler.go:44-75 | every interleaving is finite and one that cannot go on has closed the stream, after the terminal event or with no content |
| RunStream.StreamsCloseExactly | internal/compute/job.go:587-608 | all interleavings close the stream if and only if the handler subscribes first, the run finalises before it notifies, and the finalise write succeeds |
| RunStream.LosingTrace | internal/admin/stream_handler.go:44-46 | any other design has an interleaving that waits forever |
| RunStream.StreamRun | internal/admin/stream_handler.go:146-182 | events are forwarded in order and a per-run stream ends with the first terminal one |
| NamespaceDelete.Admin.DeleteNamespace | internal/admin/service.go:965-1003 | recorded deleted only when nothing is left, nothing removed before it is recorded deleting, nothing of another name or generation removed, a closed name never reopens, and a call without failures succeeds |
| NamespaceDelete.Admin.RetryDelete | internal/admin/service.go:995-1001 | retried until calls stop failing, the generation ends deleted with nothing left |
| NamespaceDelete.Admin.DeleteGeneration | internal/admin/service.go:1036-1052 | success means nothing of the generation is left |
| NamespaceDelete.Admin.ClearGeneration | internal/admin/service.go:1246-1264 | table, keys and collections, stopping at the first failure, never adding anything and never touching what another generation or name owns |
| NamespaceDelete.Admin.ClearRedis | internal/admin/service.go:1266-1286 | exactly the generation's keys go |
| NamespaceDelete.Admin.ClearQdrant | internal/admin/service.go:1288-1308 | exactly the generation's four collections go |
| NamespaceDelete.Admin.VerifyAbsent | internal/admin/service.go:1310-1348 | true only if nothing is left, and true if nothing is left and no call fails |
| NamespaceDelete.Admin.ResetApp | internal/admin/service.go:1062-1120 | as for delete, for every name; unless complete the system stays resetting or nothing changed |
| NamespaceDelete.Admin.RetryReset | internal/admin/service.go:1121-1127 | retried until calls stop failing, every name is deleted, nothing is left, the system is active |
| NamespaceDelete.Admin.FlushAllRedis | internal/admin/service.go:1178-1208 | no key of any namespace is left, and keys of none of the three patterns are untouched |
| NamespaceDelete.Admin.FlushAllQdrant | internal/admin/service.go:1221-1237 | no collection of any namespace is left and foreign ones are untouched |
| NamespaceDelete.PatternsCoverKeys | internal/core/nslifecycle/names.go:48-76 | the reset's key patterns cover every generation's keys |
| NamespaceDelete.SuffixesCoverCollections | internal/admin/service.go:1214-1219 | the reset's suffixes cover every generation's collections |
| NamespaceDelete.FlushableExactly | internal/admin/service.go:1214-1219 | a reset drops exactly the collections with one of the four endings |
| NamespaceDelete.KeysDisjoint | internal/core/nslifecycle/names.go:29-76 | no key belongs to two generations of a name |
| NamespaceDelete.CollectionsDisjoint | internal/core/nslifecycle/names.go:36-76 | and no collection does |
| NamespaceDelete.Admin.StartDelete | internal/core/nslifecycle/repository.go:89-100 | closes an open name or confirms it, same generation on every retry |
| NamespaceDelete.Admin.CompleteDelete | internal/core/nslifecycle/repository.go:103-114 | only a closing name of this generation becomes deleted |
| NamespaceDelete.Admin.Activate | internal/core/nslifecycle/repository.go:38-74 | a deleted name starts its next generation and a new one its first, a closing one stays closed; without failures it succeeds for every name that is not closing |
| RateLimiter.AttemptsBounded | internal/admin/session.go:90-99 | in any stretch of any history from one Allow, or other call that is not late, to another lasting T seconds one address is allowed at most 5 + T/10 attempts, however the readings of the other calls lag |
| RateLimiter.AllowedExactly | internal/admin/session.go:90-119 | in every history whose readings lag by at most an hour, an attempt is allowed exactly when it keeps every window that began with a call of its address within 5 plus one per ten seconds, and Blocked answers the opposite |
| RateLimiter.FirstFiveAllowed | internal/admin/session.go:90-99 | an address that has taken fewer than five tokens is let through |
| RateLimiter.PruningUnobservable | internal/admin/session.go:131-137 | every answer of every history is that of a limiter that never prunes, if and only if no reading may lag by more than the hour after which full buckets are dropped |
| RateLimiter.TokensInRange | internal/admin/session.go:122-130 | in every history tokens are at most 5, none are owed at the latest reading, and a call that is not late leaves them at 0 or more |
| RateLimiter.BelowZeroExactly | internal/admin/session.go:122-130 | a call leaves tokens below zero if and only if its reading is further behind the last one than those tokens take to refill |
| RateLimiter.LaggingFailureOwes | internal/admin/session.go:111-119 | such a history: five attempts at 10 s, then a failure recorded with a reading of 5 s, leaves -0.5 |
| RateLimiter.Limiter.BucketLocked | internal/admin/session.go:122-139 | the address's bucket is refilled and exactly the long-full others are dropped |
| RateLimiter.Limiter.Allow | internal/admin/session.go:90-99 | allowed exactly when a token is left, which is then spent |
| RateLimiter.Limiter.Blocked | internal/admin/session.go:102-108 | inspects without spending |
| RateLimiter.Limiter.RecordFailure | internal/admin/session.go:111-119 | spends a token if there is one |
| NegativeCache.CachedRefinesUncached | internal/auth/auth.go:164-178 | in every interleaving of requests, with any readings: what is accepted the uncached check accepts now, and a valid request refused has its pair definitively rejected in the last 30 seconds |
| NegativeCache.CachedDecisionExactly | internal/auth/auth.go:102-129 | in every interleaving the lock allows, a valid request is refused if and only if the last rejection of its pair to be noted is at most 30 seconds old |
| NegativeCache.RecentRejectionRefused | internal/auth/auth.go:117-129 | a valid request is refused exactly when its pair was rejected in the last 30 seconds, if and only if no later note with an older, expired reading has replaced that rejection |
| NegativeCache.LaggingNoteForgets | internal/auth/auth.go:117-129 | an interleaving in which a rejection 29.95 seconds old is forgotten |
| NegativeCache.RemembersOnly | internal/auth/auth.go:102-129 | in every history, with any readings, only keys noted in the last 30 seconds are live |
| NegativeCache.RemembersLastNote | internal/auth/auth.go:102-129 | at a time no earlier than any reading, exactly the keys whose last note is within 30 seconds are live, whatever pruning did |
| NegativeCache.RemembersExactly | internal/auth/auth.go:117-129 | from then on the cache remembers exactly the keys noted in the last 30 seconds, if and only if the last note of the key does not replace a newer reading still live |
| NegativeCache.Validate | internal/auth/auth.go:55-76 | when a token is accepted, and that only a failed lookup leaves the question open |
| NegativeCache.JoinInjective | internal/auth/auth.go:98-100 | the key names one token and namespace |
| NegativeCache.Cache.Hit | internal/auth/auth.go:102-115 | a hit exactly on a live entry, an expired one is dropped |
| NegativeCache.Cache.Put | internal/auth/auth.go:117-129 | the pair is remembered and exactly the expired entries are dropped |
| NegativeCache.Cache.RequireNamespace | internal/auth/auth.go:164-178 | accepted exactly when valid and not remembered; only definitive rejections are remembered |
| Tokenizer.SpaceSeparates | internal/embedder/tokenizer.go:91-98 | the features of two texts joined by a space are those of the first followed by those of the second |
| Tokenizer.TokenFeaturesExactly | internal/embedder/tokenizer.go:75-88 | a token yields itself once and every strictly shorter window of 3 to 5 characters once per position |
| Tokenizer.TrimExactly | internal/embedder/tokenizer.go:70-73 | trimming removes all punctuation at both ends and nothing else |
| Tokenizer.Tokenize | internal/embedder/tokenizer.go:45-104 | the rune loop yields the features of the words in order |
| Tokenizer.Flush | internal/embedder/tokenizer.go:57-89 | what one word adds |
| Hashing.Embed | internal/embedder/hashing.go:68-103 | no vector exactly when every cell cancels, never with an odd number of features; otherwise the raw vector at unit length |
| Hashing.SumFeatures | internal/embedder/hashing.go:78-88 | each slot holds the signed sum of its features |
| Hashing.CellCounts | internal/embedder/hashing.go:80-88 | a slot is the number of features whose 64-bit hash falls in it with the top bit clear, less those with it set |
| Hashing.RawAdds | internal/embedder/hashing.go:73-88 | raw vectors of texts joined by a space add up |
| Hashing.OrderIrrelevant | internal/embedder/hashing.go:80-88 | the order of features does not matter |
| Hashing.RawBoundedAndOddNonzero | internal/embedder/hashing.go:90-96 | entries are bounded by the feature count and an odd count never cancels |
| Cursor.RoundTrip | internal/catalog/types.go:22-36 | unpadded base64url decodes to what was encoded |
| Cursor.UrlAlphabet | internal/catalog/types.go:22-36 | the digits are those of section 5 of RFC 4648, by code point, and no other character is one |
| Cursor.EncodesBigEndian | internal/catalog/types.go:22-28 | every three bytes are the number their four digits spell, a short last group is padded with zero bits and not with characters |
| Cursor.DecodesExactly | internal/catalog/types.go:30-36 | a text without line breaks decodes exactly when it is all digits with not one left over, and a line break anywhere makes no difference |
| Cursor.CursorRoundTrip | internal/catalog/types.go:22-46 | an issued cursor comes back as itself for its own namespace and changed_since and is refused for any other |
| Pagination.ListObjects | internal/catalog/repository.go:51-92 | the matching rows in order, after the cursor, with limit and offset |
| Pagination.ListObjectsPage | internal/catalog/service.go:374-422 | every error case, the page, and a cursor exactly when the page is full |
| Pagination.CursorForItsQueryOnly | internal/catalog/types.go:38-46 | a cursor issued for one namespace and changed_since resumes there and is refused for every other |
| Pagination.FollowCursors | internal/catalog/service.go:401-421 | on a fixed table following cursors ends and visits every row changed after changed_since exactly once in order of time and id |
| Pagination.EveryInitialRowSeen | internal/catalog/repository.go:67-74 | while rows only move past what was returned, every initial row is returned at least once |
| Pagination.SliceIsPage | internal/catalog/repository.go:67-74 | what the query returns is a page in the sense of the previous row: complete, or full with everything else behind it |
| EventTail.NothingUnaccounted | internal/admin/events_stream_handler.go:74-133 | in every interleaving, events received are sent, queued, in hand, reported dropped or not yet reported |
| EventTail.DropsOnlyWhenFull | internal/admin/events_stream_handler.go:90-96 | an event is dropped exactly when 256 are queued |
| EventTail.NothingDroppedNothingLost | internal/admin/events_stream_handler.go:74-133 | with at most 256 matching events, a stream that has handed on all it received has sent the client exactly those, in order |
| EventTail.SentInOrder | internal/admin/events_stream_handler.go:112-132 | sent events are an in-order subsequence of those received |
| EventTail.DropsReportedFirst | internal/admin/events_stream_handler.go:103-110 | drops counted when the writer flushes are reported before the event that follows |

## Left out

- SQL text, connection handling and client libraries: each call is one atomic step that may fail; a race inside the ingest statement's own snapshot is not modelled.
- Switching a namespace out of catalog mode and back, several generations inside the embedding pipeline, malformed or stale stream envelopes, stream trimming.
- A network write that lands after the worker that sent it has gone.
- Operator parameters of a strategy: the embedding depends on id, version and content only.
- Item2Vec and SVD training, time decay of scores, and float rounding: scores are reals, and the co-occurrence sum is over an arbitrary addition.
- SparseVectors.L2Normalize: over reals, with a square root given; rounding is not modelled.
- PassPlan.PlanPasses: loads are unbounded, so the 64-bit wrap-around of a load is not modelled.
- Payloads of stored points (object key, creation time) and the returned event counts of delete and reset.
- The dense collections' cleanup, which reuses the same sweep.
- ComputeLocks.MutualExclusion: pool exhaustion is not modelled. In LockCalls the server ending a call's own session shows as a lost reply to its next query.
- RunStream.EveryStreamCloses: a reliable bus and no crash of the run; a client that disconnects simply ends its stream.
- NamespaceDelete.Admin.DeleteNamespace: the path without lifecycle records is not modelled, and glob metacharacters do not occur in base64url prefixes.
- RateLimiter.AttemptsBounded: tokens are reals, so float rounding is not modelled.
- Hashing.SumFeatures: cells are unbounded integers; a float32 counts exactly up to 2^24.
- Tokenizer.Tokenize: starts from normalised, lowered text; Unicode tables are parameters.
- NegativeCache.Cache.RequireNamespace: service credentials and requests without a namespace are handled before the modelled decision.
- Cursor.CursorRoundTrip: JSON is abstract.
- HTTP routing, SSE framing, heartbeats, metrics, logging, sessions and the operator login store: one-branch plumbing.
