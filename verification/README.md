# Verified model of cloudattrib

cloudattrib is a Go service that collects DNS, HTTP and certificate evidence about hostnames,
attributes it to cloud providers, and keeps an inventory of assets with searchable
descriptions. This project models its concurrent protocols, its report and inventory tables,
its exact encoders and its recognisers in Dafny, and proves what they keep over every run,
every interleaving or every input.

Each protocol is a datatype for the shared state, one function per transaction or lock body,
and an invariant proved over every sequence of steps. Beside it stands a class (or methods with
loops) that performs the same transaction statement by statement and is proved equal to the
step function. What the operations leave behind and what their results mean is stated again,
without naming the step functions, in the modules named Effects, Use, Meaning and Reveals:
whole runs that go through, fields in words, and converses. Encoders and recognisers are proved against an independent definition: the
rational a number denotes, a grammar, equality of values, the best of a set.

| file | component |
|---|---|
| Embedding, EmbeddingStore, EmbeddingEffects | embedding index generations, tasks, leases and vectors |
| Residency, ResidencyFactory, ResidencyUse | resident bundle cache: single-flight loads, references, eviction, waiters |
| Jobs, JobsStore, JobsEffects | in-memory job store: admission, leases, fencing tokens, verdicts, pins |
| Projection, ProjectionMeaning | reports projected into the registers of an asset context |
| Retention, RetentionStore, RetentionEffects | report storage, projection tasks, support table, report retention |
| Numbers, CanonicalJson, JsonBuffer, JsonReader, ContentIdentity, ContentReveals | exact number normalisation, canonical printer and a reader for it, content text |
| Pacing, PacingController, PacingEffects, Admission, AdmissionEffects | destination spacing, nested permits, counted attempts, body bytes |
| DnsCache, DnsJob, DnsEffects, CnameWalk | per-job DNS cache, CNAME graph walk |
| CtCollector | certificate log ingestion with a verified tree head |
| Spf, SpfArguments, SpfRecord, SpfMeaning | SPF domain specs, macros, mechanism arguments, modifiers, include verdict |
| Aggregate, AggregateMeaning | evidence grouped, deduplicated and linked into findings |
| Lex, Options | string order and sorted keys; optional values |

Assumptions that are stated as hypotheses of the theorems or fixed in the model: content
hashes and finding IDs are injective; lease and attempt tokens are fresh; clocks do not run
backwards; a bundle with the empty ID is never loaded successfully; an asset's ID stands for
its hostname; certificate log tree sizes stay below 2^63; times are compared at the
microsecond precision the database keeps; SQL text comparison and Go string comparison are one
lexicographic order.

Where the code is weaker than it may look, the model keeps the code, shows an input, and proves
exactly when the property holds:

- bundle pins equal open jobs while no batch without an admitted row has been finished
  (`Jobs.PinTrap`, `Jobs.PinsExact`);
- an applied retention page deletes exactly what its preview called eligible, but for replays
  stored in the same instant as their original under a smaller ID (`Retention.TieDeletesMore`,
  `Retention.PreviewPredicts`);
- the latest HTTP attempt is independent of arrival order when the latest report settles all
  others (`Projection.LatestHttpDependsOnOrder`, `Projection.LatestHttpConverges`), and the
  chosen description when some report takes over from every other and none from it
  (`Projection.FirstDescriptionSticks`, `Projection.DescriptionConverges`);
- a caller that waits on another's DNS question gets an answer fresh by the resolver's return
  unless that call had returned before its own began (`DnsCache.JoinBehind`,
  `DnsCache.WaitIsFreshUnlessBehind`);
- the arguments of the SPF mechanisms a and mx are those of the grammar whose domain spec has
  no literal slash, with CIDR lengths that may have leading zeros
  (`SpfArguments.SlashedIsRejected`, `SpfArguments.ValidDomainArgument`,
  `SpfArguments.LengthAgrees`);
- a body reservation never raises the budget when its document limit is not negative
  (`Admission.NegativeLimitOverflows`, `Admission.NegativeLimitRaises`); configured limits are
  validated to be positive (internal/policy/budget.go:66), so only a direct caller can pass one;
- a report can be deleted without breaking a reference exactly when it is unprotected or nothing
  but itself replays it (`Retention.ProtectionIsExact`);
- a projection task whose fifth worker is lost stays running for ever, since claims need fewer
  than five attempts and saving the report again resets only tasks marked failed
  (`RetentionEffects.AbandonedIsReachable`, `RetentionEffects.AbandonedForever`).

## Model

| member | source | states |
|---|---|---|
| Embedding.ReachableCovered | internal/store/postgres/inventory_vectors.go:127-309 | in every reachable state each building or active generation has, for every described context, a vector or a task with its current revision, hash and deletion generation; at most one generation is active |
| Embedding.ReachableSound | internal/store/postgres/inventory_embedding_worker.go:98-192 | a vector stamped like the current context row is the model's output on the text of that row, under any interleaving of workers and description changes |
| Embedding.ReachableRowsSound | internal/store/postgres/inventory_projection.go:285-326 | every stored vector row, stale or not, is the model's output for the description its hash names |
| Embedding.CoverageConserved | internal/store/postgres/inventory_vectors.go:98-123 | eligible descriptions are exactly the current, failed and pending ones |
| Embedding.PendingZero | internal/store/postgres/inventory_vectors.go:98-123 | nothing is pending exactly when every description is indexed or exhausted |
| Embedding.ActivationExact | internal/store/postgres/inventory_vectors.go:127-167 | activation succeeds exactly for a building generation with nothing pending, leaves it the only active one, and otherwise changes nothing |
| Embedding.PendingHasWork | internal/store/postgres/inventory_embedding_worker.go:58-94 | a description that keeps a live generation incomplete still has an unexhausted task for exactly that description |
| Embedding.PublicationMovesOneRow | internal/store/postgres/inventory_embedding_worker.go:136-192 | corollary of the publication guards: publishing moves exactly one row from queue to index when the lease is live and the description current, and otherwise changes nothing; attempts stay within the limit over every run |
| Embedding.RollbackExcludesPrune | internal/store/postgres/inventory_vectors.go:172-262 | corollary of the two time guards: a generation that can be rolled back to cannot be pruned at that moment, and the generation a rollback replaces can be rolled back to |
| EmbeddingStore.Store.SelectGeneration | internal/store/postgres/inventory_vectors.go:127-167 | retires the active generation and activates another, as the specification step |
| EmbeddingStore.Store.BeginGeneration | internal/store/postgres/inventory_vectors.go:266-309 | the begin transaction, with its refusals, equals the specification step |
| EmbeddingStore.Store.ActivateGeneration | internal/store/postgres/inventory_vectors.go:127-167 | the activation transaction equals the specification step |
| EmbeddingStore.Store.RollbackGeneration | internal/store/postgres/inventory_vectors.go:172-227 | the rollback transaction, requeueing what is not current, equals the specification step |
| EmbeddingStore.Store.PruneGeneration | internal/store/postgres/inventory_vectors.go:231-262 | the prune transaction and its refusals equal the specification step |
| EmbeddingStore.Store.PublishDescription | internal/store/postgres/inventory_projection.go:285-326 | publishing a description requeues work when its hash changes and only advances revisions when it does not |
| EmbeddingStore.Store.ClaimEmbedding | internal/store/postgres/inventory_embedding_worker.go:58-94 | a claim succeeds exactly on a claimable task and leases it |
| EmbeddingStore.Store.PublishEmbedding | internal/store/postgres/inventory_embedding_worker.go:136-192 | the publication transaction equals the specification step |
| EmbeddingStore.Store.FailEmbedding | internal/store/postgres/inventory_embedding_worker.go:194-204 | the failure update with its backoff equals the specification step |
| EmbeddingStore.Store.DeleteInventory | internal/store/postgres/inventory_search.go:147-170 | deletion raises the deletion generation and cascades to contexts, tasks and vectors |
| EmbeddingEffects.DescriptionIsStored | internal/store/postgres/inventory_projection.go:285-300 | in every reachable state a published description is its context's: text, hash and the next revision under the asset's deletion generation, and no other context, generation, task or vector is touched |
| EmbeddingEffects.ChangedDescriptionIsQueued | internal/store/postgres/inventory_projection.go:301-309 | if its hash changed, every live generation holds a claimable task for exactly it, with no attempts and no token |
| EmbeddingEffects.UnchangedDescriptionIsAdvanced | internal/store/postgres/inventory_projection.go:310-326 | if not, its vectors stay current and its tasks keep their state under the new revision |
| EmbeddingEffects.DescriptionIsFenced | internal/store/postgres/inventory_projection.go:134-191 | without a decision to replace at most an empty row is opened, and under another deletion generation nothing happens |
| EmbeddingEffects.BegunIsQueued | internal/store/postgres/inventory_vectors.go:266-309 | a generation begins exactly when vectors are enabled and its ID is unused, and then has claimable work for every description |
| EmbeddingEffects.ClaimLeases | internal/store/postgres/inventory_embedding_worker.go:58-94 | a claim counts the attempt and keeps the task from others for the lease time |
| EmbeddingEffects.FailureBacksOff | internal/store/postgres/inventory_embedding_worker.go:194-204 | a failed attempt is claimable again after its back-off exactly while attempts are left; under another token nothing changes |
| EmbeddingEffects.RollbackRestores | internal/store/postgres/inventory_vectors.go:172-227 | a rollback activates the generation, retires the other and queues work for exactly the descriptions not indexed in it |
| EmbeddingEffects.WindowIsSevenDays | internal/store/postgres/inventory_vectors.go:172-262 | a retained generation can be rolled back to for seven days after it was replaced and pruned exactly from then on |
| EmbeddingEffects.PruneRemoves | internal/store/postgres/inventory_vectors.go:231-262 | a prune removes the generation with its tasks and vectors and nothing else |
| EmbeddingEffects.DeletionCascades | internal/store/postgres/inventory_search.go:147-170 | a deletion removes the asset with everything under it and nothing else, and a new asset of the name has a generation it never had |
| EmbeddingEffects.WorkerSucceeds | internal/store/postgres/inventory_embedding_worker.go:58-192 | from any reachable state claiming, reading and publishing a current task leaves an index row with the model's output on the description's text |
| EmbeddingEffects.LifeOfADescription | internal/store/postgres/inventory_vectors.go:127-309 | a run that enables vectors, creates an asset, begins a generation, describes, claims, reads, publishes and activates ends with the description indexed in the active generation |
| Residency.ReachableSafe | internal/runtime/service.go:503-651 | residents plus loads never exceed the maximum, the active bundle is resident, no bundle is both loading and resident, reference counts are the unreleased captures, and a capture's bundle stays resident with its analyzer |
| Residency.ReachableSingleFlight | internal/runtime/service.go:524-587 | no bundle is loaded twice at once |
| Residency.HeldIsNeverEvicted | internal/runtime/service.go:503-522 | no next step evicts or replaces a bundle with an unreleased capture |
| Residency.JoinerIsNeverCancelled | internal/runtime/service.go:589-635 | a caller counted in a load's waiters never sees that load cancelled |
| Residency.ReachableNoLostWakeup | internal/runtime/service.go:524-587 | a caller parked on the open channel would only park again, and a referenced resident or unfinished load exists whose end wakes it |
| Residency.FullHasWaker | internal/runtime/service.go:503-522 | when no capacity can be reserved, some non-active referenced resident or unfinished load exists |
| Residency.EndingsNotify | internal/runtime/service.go:609-651 | the end of a load and the release of a capture close the open channel |
| ResidencyFactory.BundleAnalyzerFactory.LeastRecentlyUsed | internal/runtime/service.go:503-522 | the scan finds an unreferenced non-active resident used least recently, or none exists |
| ResidencyFactory.BundleAnalyzerFactory.ReserveCapacity | internal/runtime/service.go:503-522 | eviction frees a slot if it can, removes only evictable residents in least-recently-used order, and keeps the rest |
| ResidencyFactory.BundleAnalyzerFactory.CaptureAttempt | internal/runtime/service.go:524-587 | one pass of capture under the lock equals the specification step |
| ResidencyFactory.BundleAnalyzerFactory.NotifyAll | internal/runtime/service.go:498-501 | closes the channel and opens the next |
| ResidencyFactory.BundleAnalyzerFactory.LeaveLoad | internal/runtime/service.go:589-607 | a leaving waiter cancels the load only when it was the last |
| ResidencyFactory.BundleAnalyzerFactory.CompleteLoad | internal/runtime/service.go:609-635 | the end of a load equals the specification step |
| ResidencyFactory.BundleAnalyzerFactory.ReleaseBundle | internal/runtime/service.go:641-651 | a release equals the specification step |
| ResidencyFactory.BundleAnalyzerFactory.ActivateBundle | internal/runtime/service.go:837-858 | the swap of the active bundle equals the specification step |
| ResidencyUse.StampsFollowUse | internal/runtime/service.go:524-651 | in every reachable state the stamps order residents exactly as the last use of each in the history of load ends, captures and releases |
| ResidencyUse.LastUseMeaning | internal/runtime/service.go:641-651 | that last use is the last place of the bundle in the history |
| ResidencyUse.EvictsLeastRecentlyUsed | internal/runtime/service.go:503-522 | whatever a step evicts is unreferenced, not active, and of all such residents the one whose last use is earliest |
| ResidencyUse.CaptureIsOfTheRequest | internal/runtime/service.go:524-545 | a capture is of the bundle asked for, or the active one when none is named, with its analyzer and one more reference |
| ResidencyUse.LoadIsOfTheRequest | internal/runtime/service.go:546-587 | a started or joined load is of the bundle asked for |
| ResidencyUse.LoadInstalls | internal/runtime/service.go:609-635 | a load that ends well makes its bundle resident without references; any end takes it out of the loads and wakes the parked |
| ResidencyUse.ReleaseDrops | internal/runtime/service.go:641-651 | a release drops one reference of its bundle and wakes the parked; a swap makes the captured bundle active |
| ResidencyUse.CapacityIsUsed | internal/runtime/service.go:503-587 | a bundle neither resident nor loading starts to load unless every slot is held by something that cannot be evicted |
| ResidencyUse.LastWaiterCancels | internal/runtime/service.go:589-607 | a caller that stops waiting is no longer counted and cancels the load exactly when it gave up and was the last |
| Jobs.TerminalIsPermanent | internal/jobs/memory.go:141-233 | a terminal target never changes again: not its status, reason, report, token or lease |
| Jobs.CompletesOnce | internal/jobs/memory.go:197-233 | at most one Complete ever changes anything on a target |
| Jobs.EarlierTokenIsInert | internal/jobs/memory.go:276-310 | once a target stops running under a token, no Complete or Renew with that token changes anything, ever |
| Jobs.StaleForever | internal/jobs/memory.go:179-233 | a token that no running target holds is never held again |
| Jobs.VerdictIsPermanent | internal/jobs/memory.go:338-364 | a job is terminal exactly when all its targets are, and its verdict is then permanent |
| Jobs.VerdictMeaning | internal/jobs/memory.go:338-364 | when a verdict is completed, cancelled or failed, in terms of the targets' statuses |
| Jobs.ResubmitIsIdempotent | internal/jobs/memory.go:45-124 | an accepted batch submitted again later returns the same job and changes nothing |
| Jobs.Conservation | internal/jobs/memory.go:60-124 | reservations are exactly the queued and running targets, within capacity; attempts stay within the limit |
| Jobs.PinsExact | internal/jobs/memory.go:338-364 | a bundle's pins never exceed its open jobs and equal them exactly while no batch of it without an admitted row has been finished |
| Jobs.PinsWithoutEmptyBatches | internal/jobs/memory.go:98-124 | with an admitted row in every batch that names a bundle, pins equal open jobs |
| Jobs.PinTrap | internal/jobs/memory.go:118-124 | a batch whose only row is invalid ends with a pin count of -1 |
| JobsStore.MemoryStore.SubmitBatch | internal/jobs/memory.go:45-124 | Submit with its refusals equals the specification step |
| JobsStore.MemoryStore.ClaimTarget | internal/jobs/memory.go:141-176 | Claim takes the first claimable target in submission order, and fails exactly when there is none |
| JobsStore.MemoryStore.RenewLease | internal/jobs/memory.go:179-194 | Renew equals the specification step |
| JobsStore.MemoryStore.CompleteTarget | internal/jobs/memory.go:197-233 | Complete, with its idempotent repeat and conflicts, equals the specification step |
| JobsStore.MemoryStore.CancelJob | internal/jobs/memory.go:248-273 | RequestCancel equals the specification step |
| JobsStore.MemoryStore.RecoverExpired | internal/jobs/memory.go:276-310 | the recovery sweep over all jobs in order equals the specification step |
| JobsStore.MemoryStore.FinishJob | internal/jobs/memory.go:338-364 | finishJob's counts, verdict and pin release equal the specification step |
| JobsEffects.SubmissionDecides | internal/jobs/memory.go:45-107 | in every reachable state what Submit answers: a key used before gives its job for the same payload and a conflict for another, a new one is accepted exactly while its queued targets fit beside the live ones; only an accepted new batch changes anything |
| JobsEffects.SubmissionQueues | internal/jobs/memory.go:45-124 | an accepted batch is one queued target per admitted row and replay and one failed target per rejected row, in order, reserved within capacity; no other job changes |
| JobsEffects.ClaimStarts | internal/jobs/memory.go:141-176 | a claim starts one more attempt of one target under the new token and touches no other |
| JobsEffects.RenewalExtends | internal/jobs/memory.go:179-194 | a renewal succeeds exactly for the running attempt of a job that is not cancelled and moves only its lease |
| JobsEffects.CompletionDecides | internal/jobs/memory.go:197-246 | exactly when a completion is accepted; for the running attempt it stores the given status, reason and report under the same token, any other changes nothing |
| JobsEffects.CompletionIsRepeatable | internal/jobs/memory.go:197-233 | over every run a completion that takes effect stores exactly what it was given, and the same call after any further steps succeeds and changes nothing |
| JobsEffects.CancellationEnds | internal/jobs/memory.go:248-273 | a cancellation ends every queued target of the job, leaves the others alone and marks the job |
| JobsEffects.CancellationIsFinal | internal/jobs/memory.go:248-310 | after a cancellation, whatever follows, no target of the job starts an attempt and the queued ones stay cancelled |
| JobsEffects.RecoveryReachesAll | internal/jobs/memory.go:276-310 | in every reachable state a sweep treats each target of each job once: an expired attempt is cancelled, failed or queued again at once, anything else is unchanged |
| JobsEffects.LifeOfATarget | internal/jobs/memory.go:45-233 | a run that submits, claims and completes one target ends with its report, a completed job, no reservation and no pin |
| Projection.ProjectionConverges | internal/store/postgres/inventory_projection.go:210-376 | for any order and repetition of reports the latest attempt with coverage, last positive, last HTTP response and every DNS question's latest and last positive state come out identical |
| Projection.ProjectionIsMaximum | internal/store/postgres/inventory_projection.go:342-376 | each of those registers is the lexicographic maximum by time and report ID of what the reports contribute |
| Projection.ReduceIsMaximum | internal/store/postgres/inventory_projection.go:342-344 | folding reports in arrival order by laterInventoryPosition yields the maximum of their contributions |
| Projection.LatestHttpDependsOnOrder | internal/store/postgres/inventory_projection.go:235-245 | an input on which the latest HTTP attempt stays with whichever of two reports came first |
| Projection.LatestHttpConverges | internal/store/postgres/inventory_projection.go:215-245 | the latest HTTP attempt is the same for every order and repetition of any reports exactly when the latest report attempted HTTP without a response, or every other report's own attempt is older than its own or equal; it is then the latest report's own attempt |
| Projection.NothingEligible | internal/store/postgres/inventory_projection.go:210-215 | reports that are replays or have no attempt time never set it |
| Projection.DescriptionConverges | internal/store/postgres/inventory_projection.go:270-284 | the chosen description is the same for every order and repetition of any reports exactly when some report takes over from each of the others and none takes over from it |
| Projection.FirstDescriptionSticks | internal/store/postgres/inventory_projection.go:270-276 | of two reports without positive findings the first keeps the description |
| Projection.ScanLatestHttp | internal/store/postgres/inventory_projection.go:218-245 | the loop over capabilities and responses computes the latest HTTP attempt |
| Projection.ScanLastHttp | internal/store/postgres/inventory_projection.go:247-265 | the loop keeps the last response by time and report ID |
| Projection.PublishDns | internal/store/postgres/inventory_projection.go:353-376 | the upserts of a report's DNS observations, in order |
| Projection.UpdateContext | internal/store/postgres/inventory_projection.go:193-333 | the whole update of a context row equals the projection function |
| ProjectionMeaning.LatestAttempt | internal/store/postgres/inventory_projection.go:210-217 | the latest attempt is, by time and report ID, the last of the attempts of reports that are no replays and have a time |
| ProjectionMeaning.LastPositive | internal/store/postgres/inventory_projection.go:267-269 | the last positive is the last of the positive reports that are no replays and have an observation time, and unset exactly when there is none |
| ProjectionMeaning.LastResponse | internal/store/postgres/inventory_projection.go:247-265 | the last response is the last of the hostname's own responses with a status from 100 to 599 not behind an external redirect, the first listed of those at one time |
| ProjectionMeaning.LatestAnswer | internal/store/postgres/inventory_projection.go:353-376 | a question's latest state is the last of the hostname's own answers outside dependencies, of whatever outcome, the first listed of those at one time |
| ProjectionMeaning.LastPositiveAnswer | internal/store/postgres/inventory_projection.go:353-376 | its last positive state is the last of those with the outcome answered |
| ProjectionMeaning.AttemptMeaning | internal/store/postgres/inventory_projection.go:218-245 | a report's HTTP attempt is its last response; without one, the attempt itself if it ran in full mode or covers HTTP; else nothing |
| ProjectionMeaning.DescriptionRule | internal/store/postgres/inventory_projection.go:270-276 | when a report replaces a description and when it leaves it |
| ProjectionMeaning.LatestPositiveDescribes | internal/store/postgres/inventory_projection.go:270-284 | a positive report that no other was observed after describes the context whatever the order, unless a replay of its time was classified later |
| Retention.ReferentialIntegrity | internal/store/postgres/inventory_projection.go:134-191 | in every reachable state each report ID held by a task, a context row, a DNS row, a replay, a target's result or an active reclassification names a stored report |
| Retention.SupportIsExact | internal/store/postgres/inventory_projection.go:378-420 | the support table is exactly the set of report IDs the context rows hold |
| Retention.RunsConverge | internal/store/postgres/inventory_projection.go:134-332 | two runs that projected the same reports into a context agree on its registers, whatever workers, retries, deletions and retention did between |
| Retention.ProtectionIsExact | internal/store/postgres/retention.go:84-116 | deleting a report keeps every reference in place exactly when the protection query calls it unprotected, or it is stored as a replay of itself and nothing else refers to it |
| Retention.RetainKeeps | internal/store/postgres/retention.go:84-116 | an applied page keeps every reference in place |
| Retention.PreviewIsDeleted | internal/store/postgres/retention.go:45-124 | an applied page deletes everything its preview called eligible |
| Retention.PreviewIsExact | internal/store/postgres/retention.go:84-116 | on any list of candidates it deletes nothing else exactly when no candidate's only references are replays that stand before it and are eligible |
| Retention.PreviewPredicts | internal/store/postgres/retention.go:55-116 | in every state a monotone clock reaches, a page in the query's order deletes exactly what its preview called eligible, except where a report's every reference is an eligible replay created in the same instant under a smaller ID |
| Retention.PreviewPredictsWithoutTies | internal/store/postgres/retention.go:55-116 | with no replay so tied with its original the preview is exact on every page |
| Retention.RunChronicled | internal/store/postgres/store.go:1196-1208 | over every run under a monotone clock no stored replay is older than its original |
| Retention.TieDeletesMore | internal/store/postgres/retention.go:84-116 | a reachable state and page on which one report more is deleted than the preview named |
| Retention.CursorAdvances | internal/store/postgres/retention.go:55-79 | every report the query selects is on the page or past the next cursor, never both, and on the page when it is complete |
| RetentionStore.InventoryStore.SaveReport | internal/store/postgres/store.go:1187-1241 | a save succeeds exactly for a storable report and queues its projection |
| RetentionStore.InventoryStore.PublishReportInventory | internal/store/postgres/inventory.go:243-323 | suppression, deletion-generation fencing, asset creation and the task upsert equal the specification step |
| RetentionStore.InventoryStore.ClaimProjection | internal/store/postgres/inventory_projection.go:46-75 | claims the first claimable task in the order of creation that no other worker has locked, and fails exactly when there is none |
| RetentionStore.InventoryStore.FailProjection | internal/store/postgres/inventory_projection.go:101-109 | the failure update with its backoff equals the specification step |
| RetentionStore.InventoryStore.PublishProjection | internal/store/postgres/inventory_projection.go:134-191 | the publication transaction, with its stale and obsolete cases, equals the specification step |
| RetentionStore.InventoryStore.ReplaceSupports | internal/store/postgres/inventory_projection.go:378-420 | the context's support becomes the non-empty IDs its rows hold |
| RetentionStore.CollectSupports | internal/store/postgres/inventory_projection.go:378-409 | the loop over registers and DNS rows collects exactly the non-empty IDs they hold |
| RetentionStore.InventoryStore.DeleteInventory | internal/store/postgres/inventory_search.go:147-170 | deletion raises the generation and drops the asset's contexts and support |
| RetentionStore.InventoryStore.RunReportRetention | internal/store/postgres/retention.go:45-124 | selects the page, judges each candidate after the deletions before it, and returns the counts, the deletions and the next cursor; a preview changes nothing |
| RetentionStore.InventoryStore.SelectPage | internal/store/postgres/retention.go:55-79 | returns the first reports by creation time and ID that are older than the cutoff and past the cursor |
| RetentionEffects.SavingQueues | internal/store/postgres/inventory.go:243-323 | a save stores the document exactly when it is storable; exactly when the hostname is neither suppressed nor deleted since the start and the selection, if any, is current, it also leaves the task: a new one claimable at once under the asset's generation, an exhausted one claimable again, any other as it was |
| RetentionEffects.CompletionStores | internal/store/postgres/store.go:1187-1241 | a completion stores its report as its target's result and queues its projection like a save |
| RetentionEffects.TargetProtects | internal/store/postgres/store.go:421-443 | an admitted reclassification is an active target that protects its source report |
| RetentionEffects.TargetIsRefused | internal/store/postgres/store.go:421-430 | it is refused exactly when its source is not stored or its ID is in use |
| RetentionEffects.CancelledProtectsNothing | internal/store/postgres/store.go:635-660 | a cancelled target keeps its input and result and protects neither |
| RetentionEffects.FirstIsOldest | internal/store/postgres/inventory_projection.go:52-56 | the task a claim takes is an oldest claimable one nobody has locked, by creation and report ID |
| RetentionEffects.PageIsOldest | internal/store/postgres/retention.go:55-79 | a page holds reports created before the cutoff and after the cursor, oldest first, and all of them unless it is full |
| RetentionEffects.ClaimLeases | internal/store/postgres/inventory_projection.go:46-75 | a claimed task is claimable again exactly after thirty seconds while attempts are left |
| RetentionEffects.FailureBacksOff | internal/store/postgres/inventory_projection.go:101-109 | a failed task is claimable again exactly after the square of its attempts in seconds while attempts are left, and exhausted after the fifth |
| RetentionEffects.PublicationProjects | internal/store/postgres/inventory_projection.go:134-191 | in every reachable state a publication under a running lease on a task of the asset's generation adds the stored report to its context's history, whose row and support then follow it; under another generation it only drops the task |
| RetentionEffects.SavedIsProjected | internal/store/postgres/inventory_projection.go:46-191 | from any reachable state saving, claiming, loading and publishing a document the inventory takes ends with its report in the history and the row of its context |
| RetentionEffects.DeletionRemoves | internal/store/postgres/inventory_search.go:147-170 | a deletion removes the asset and its contexts and no others, and refuses reports started before it |
| RetentionEffects.DeletionFences | internal/store/postgres/inventory_projection.go:150-175 | whatever follows a deletion, a task queued before it is never projected |
| RetentionEffects.AbandonedForever | internal/store/postgres/inventory_projection.go:52-70 | a task running its fifth attempt whose worker is gone is never claimable or changed again |
| RetentionEffects.AbandonedIsReachable | internal/store/postgres/inventory.go:314-320 | a run that ends with such a task |
| Numbers.NormalizeIsExact | internal/model/json.go:250-291 | for every number of section 6 of RFC 8259 the output is such a number and denotes the same rational |
| Numbers.NormalizeDecides | internal/model/json.go:250-291 | two numbers normalise equally exactly when their rationals are equal |
| Numbers.NormalizeIsIdempotent | internal/model/json.go:250-291 | normalising twice changes nothing |
| Numbers.SplitText | internal/model/json.go:251-270 | cutting a number's text at its sign, exponent mark and point recovers its parts |
| CanonicalJson.CanonicalTextDecides | internal/model/json.go:195-248 | two decoded values print to the same text exactly when they are equal up to the numeric value of numbers |
| CanonicalJson.WriteDetermines | internal/model/json.go:195-248 | two values printed before a delimiter to the same text are the same value, and so is what follows |
| CanonicalJson.QuoteDetermines | internal/model/json.go:205-207 | string literals are injective and self-delimiting |
| JsonBuffer.WriteCanonical | internal/model/json.go:195-248 | the recursive writer appends exactly the canonical text to its buffer |
| JsonBuffer.SortKeys | internal/model/json.go:226-230 | the collected keys are in ascending order |
| JsonReader.CanonicalTextIsJson | internal/model/json.go:195-248 | a reader of RFC 8259 written on its own reads every canonical text back to a value equal up to the numeric value of numbers, and printing that gives the text again |
| JsonReader.NumberReads | internal/model/json.go:250-291 | the reader takes the text of a number before a delimiter as exactly that number |
| JsonReader.CharsRead | internal/model/json.go:205-207 | the reader takes the characters of a literal back, whatever follows it |
| ContentIdentity.ContentIgnoresOrder | internal/model/json.go:92-176 | content text does not change when observations, evidence, findings, coverage entries, warnings, the ID lists inside them or dataset records are permuted, keys being unique, when times move to other zones, or when the report ID differs |
| ContentIdentity.SamePartAgrees | internal/model/json.go:99-117 | sorting a part's lists and moving its times to UTC undoes any permutation of the lists and change of zone |
| ContentIdentity.SameItemAgrees | internal/model/json.go:99-106 | the same for evidence with its dataset records permuted |
| ContentIdentity.SortIgnoresOrder | internal/model/json.go:92-98 | sorting by keys that identify elements forgets their order |
| ContentIdentity.ContentDecides | internal/model/json.go:130-176 | corollary of CanonicalTextDecides: two reports have one content text exactly when their projections are equal up to the value of numbers |
| ContentIdentity.OrderedIsUnique | internal/model/json.go:92-117 | any sort by unique keys yields the same list |
| ContentReveals.ContentReveals | internal/model/json.go:130-180 | reports with one content text have the same version, warnings, instants and other members, alike observations, evidence with its records, findings and coverage in some order, and under version 2 the same provenance |
| ContentReveals.PartsReveal | internal/model/json.go:90-117 | sorted and printed in UTC, two collections with one text list alike parts in some order |
| ContentReveals.TextExists | internal/model/json.go:130-141 | a content text exists exactly for the versions 1 and 2, 2 being meant when none is stated |
| Pacing.StartsAreSpaced | internal/policy/budget.go:255-308 | any two recorded starts for one destination are at least the interval apart, although gates are collected and recreated and callers give up anywhere |
| Pacing.OnePacer | internal/policy/budget.go:281-307 | a destination never has two callers past its gate |
| Pacing.ReferencesExact | internal/policy/budget.go:266-280 | a gate's references are exactly the callers that still refer to it |
| PacingController.Controller.Collect | internal/policy/budget.go:259-265 | the loop deletes exactly the idle gates |
| PacingController.Controller.EnterGate | internal/policy/budget.go:259-272 | the first lock body equals the specification step |
| PacingController.Controller.UntilStart | internal/policy/budget.go:285-288 | the wait is zero exactly when the interval has passed, and long enough otherwise |
| PacingController.Controller.ReleaseReference | internal/policy/budget.go:273-277 | is the step of a caller that leaves the queue, or that is done and still holds the permit |
| PacingController.Controller.RecordStart | internal/policy/budget.go:304-306 | is the step that grants a paced caller its start, recorded in the history whose spacing is proved |
| PacingEffects.ArrivalCollects | internal/policy/budget.go:255-275 | an arrival keeps exactly the other destinations' gates that are in use or were used less than an interval ago, and queues at its destination's gate, kept or new |
| PacingEffects.QueuedCallerStarts | internal/policy/budget.go:276-308 | from any state a caller queued at a free gate can start alone, at the earliest time the interval allows, and leaves the gate free with that start recorded |
| PacingEffects.QuitterLeaves | internal/policy/budget.go:276-308 | a caller that gives up with the permit records no start and leaves the gate free |
| Admission.PermitsExact | internal/policy/budget.go:162-253 | each permit channel, of targets and of both networks, holds exactly the permits of the work between acquire and release, within capacity |
| Admission.PermitsReturn | internal/policy/budget.go:365-380 | when every attempt is over every network permit is back |
| Admission.AttemptsBounded | internal/policy/budget.go:355-363 | an execution makes at most its limit of attempts on each network |
| Admission.BytesConserved | internal/policy/budget.go:322-345 | bytes left, reserved and retained always make the limit, nothing left is negative, and no document retains more than it reserved |
| Admission.DocumentsWithinLimit | internal/policy/budget.go:322-345 | while an execution's document limits are not negative, each of its documents and what is left hold between none and all of its byte limit |
| Admission.NegativeLimitRaises | internal/policy/budget.go:327-330 | corollary of the smaller-of rule: a reservation never raises what is left exactly when its document limit is not negative |
| Admission.NegativeLimitOverflows | internal/policy/budget.go:322-331 | a run in which a negative document limit leaves an execution with more bytes than its limit |
| Admission.ExecutionState.ReserveCount | internal/policy/budget.go:355-363 | one counted attempt as the specification step, refused at zero |
| Admission.ExecutionState.ReserveBody | internal/policy/budget.go:322-331 | a reservation takes the smaller of the document limit and what is left |
| Admission.ExecutionState.CommitReserved | internal/policy/budget.go:332-344 | a commit returns the unused part once, clamped |
| AdmissionEffects.AttemptsAreGranted | internal/policy/budget.go:355-363 | in every reachable state another attempt is granted exactly while fewer than the limit were made |
| AdmissionEffects.BytesAreReserved | internal/policy/budget.go:322-331 | a document reserves the smaller of its limit and the bytes other documents leave of the byte limit |
| AdmissionEffects.CommitRetains | internal/policy/budget.go:332-344 | the first commit retains what it is given within nothing and the reservation and returns the rest; later ones change nothing |
| AdmissionEffects.ReleaseReturns | internal/policy/budget.go:162-214 | an admission is released once, however often it is asked to |
| AdmissionEffects.AttemptGoesThrough | internal/policy/budget.go:365-380 | with an attempt left and permits free a whole attempt goes through, is counted once and gives both permits back |
| DnsCache.AnswersAreFresh | internal/collect/dns/job.go:39-97 | a returned answer is for the asked question and was published after the call began or had not expired; by the resolver's return it is fresh exactly when the call did not join behind a finished resolver call or the answer had not expired |
| DnsCache.WaitIsFreshUnlessBehind | internal/collect/dns/job.go:62-69 | for a caller waiting on an unfinished entry, every continuation that returns is fresh by the resolver's return exactly when that call had not returned before the caller's began |
| DnsCache.SingleFlight | internal/collect/dns/job.go:46-81 | at most one resolver call per question is outstanding |
| DnsCache.CallsWithinLimit | internal/collect/dns/job.go:72-80 | resolver calls of a job never exceed its limit |
| DnsCache.ExpiryIsTtl | internal/collect/dns/job.go:88-92 | a stored answer expires with its least TTL, or at once when it has none |
| DnsCache.JoinBehind | internal/collect/dns/job.go:62-69 | a run in which a caller joins after the resolver returned and gets an expired answer observed before it began |
| DnsCache.ComputeTtl | internal/collect/dns/job.go:99-124 | the loop computes the least record TTL, zero if any record has none |
| DnsCache.LeastIsMinimum | internal/collect/dns/job.go:107-121 | that TTL is one of the records' and none is smaller |
| DnsJob.Job.LookOnce | internal/collect/dns/job.go:47-81 | one pass of the lookup under the lock equals the specification step |
| DnsJob.Job.Store | internal/collect/dns/job.go:87-96 | storing a reply equals the specification step |
| DnsEffects.TtlMeaning | internal/collect/dns/job.go:99-124 | a failure and other outcomes are not cached, a negative reply for its negative TTL, an answer for the least TTL of its records |
| DnsEffects.LookDecides | internal/collect/dns/job.go:47-81 | in every reachable state an unexpired answer is returned, an unfinished one waited for, an expired one dropped, and a question without an entry resolved while calls are left and refused otherwise |
| DnsEffects.PublicationStores | internal/collect/dns/job.go:87-96 | a publication makes the leader's reply the question's current answer |
| DnsEffects.AnswerIsReused | internal/collect/dns/job.go:46-97 | whatever happens between the publication of an answer and its expiry, a call that looks gets exactly it and nobody resolves the question again |
| DnsEffects.WaitersGetTheReply | internal/collect/dns/job.go:62-69 | whoever waits when the leader publishes can return, and whatever happens until it does it returns the leader's reply |
| CnameWalk.Follow | internal/collect/dns/graph.go:23-116 | for every resolver and arrival order the walk ends, expands each name once and only within the depth limit of some chain; not cut short, it expands every target that comes in or that an expansion makes and that is neither on its own path nor too deep; complete coverage means the expanded names are exactly the reachable ones, and it is complete when no chain loops or goes too deep and every reply is whole |
| CnameWalk.Expand | internal/collect/dns/graph.go:76-113 | one expansion adds exactly its links one level deeper, and coverage stays complete exactly when every reply is whole |
| CnameWalk.AppendQueryHonest | internal/collect/dns/graph.go:300-372 | supports Expand: a query leaves coverage complete exactly when it was complete and the reply is whole; complete coverage has no errors and no omissions |
| CnameWalk.Head | internal/collect/dns/graph.go:65-67 | the next item has a least name |
| CnameWalk.AppendQueryCounts | internal/collect/dns/graph.go:300-372 | a query adds one completion exactly for a completed outcome without an error, and as omitted the records left out, a refused query and the addresses without room |
| CnameWalk.AppendQueryErrors | internal/collect/dns/graph.go:300-372 | exactly which error codes a query notes |
| CtCollector.IngestionIsContiguous | internal/ctlog/collector.go:92-191 | over any runs of one collector the ingested indices are exactly a contiguous range from the start, each verified head equals or is consistency-proved against its predecessor once non-empty, and sizes never fall |
| CtCollector.SizesNeverFall | internal/ctlog/collector.go:257-289 | the verified tree size never decreases |
| CtCollector.VerifiedIsProved | internal/ctlog/collector.go:331-384 | a record claims verified provenance only for an entry proved to be in a head whose continuity did not fail |
| CtCollector.Collect | internal/ctlog/collector.go:92-191 | a failed run changes nothing, and fails only if cancelled, under another key, without a usable head or usable answers, or with its requests or bytes used up; a successful one advances over exactly the entries the log returned and it stores, within its request, proof, byte and entry budgets, and a failed continuity check means the head does not extend the verified one or the budget ran out |
| CtCollector.CollectionRun.TakeAll | internal/ctlog/collector.go:128-164 | the taken leaves are exactly those of consecutive responses up to the run's end or the first short one, each checked against its proof while proofs are left; it gives up only when the log's answers are not usable or the budget ran out |
| CtCollector.FetchedEnds | internal/ctlog/collector.go:136-164 | a run's leaves reach its end, or its last response was shorter than asked for and the run stopped there |
| CtCollector.CollectionRun.VerifyContinuity | internal/ctlog/collector.go:257-289 | the check is skipped exactly without a verified head; it passes only for an equal head or an extension proved by the path the log returned, and fails only if that is not so or the budget ran out |
| CtCollector.CollectionRun.VerifyInclusion | internal/ctlog/collector.go:291-322 | while proofs are left the check passes exactly for a proof of the fetched bytes and fails otherwise; after that it is not performed |
| CtCollector.MemoryStore.CommitCollection | internal/ctlog/memory.go:58-72 | a commit that would regress is refused and changes nothing; otherwise records and checkpoint change together |
| CtCollector.RecordsInWords | internal/ctlog/collector.go:324-384 | a run's records are exactly, for each entry and each valid name of its certificate, one with verified provenance exactly when inclusion passed and continuity did not fail |
| CtCollector.ImportKeepsLast | internal/ctlog/memory.go:36-40 | an import keeps for each name and certificate the last record given |
| CtCollector.ImportKeepsOthers | internal/ctlog/memory.go:36-40 | and leaves every other record as it was |
| CtCollector.FirstRunTrust | internal/ctlog/collector.go:97-116 | a first run starts at the configured or initial index and continues an initial head only when it is trusted |
| Spf.ValidDomainSpec | internal/rules/engine.go:575-611 | the loop accepts exactly the strings some split into macro string and domain end derives under section 7.1 of RFC 7208 |
| Spf.ValidMacro | internal/rules/engine.go:635-672 | the macro scan accepts exactly a macro expansion and returns where it ends |
| Spf.ScanBody | internal/rules/engine.go:649-668 | the scan of a macro's body accepts exactly a letter, a non-zero digit count, an optional reversal and delimiters |
| Spf.ValidTopLabel | internal/rules/engine.go:674-695 | the loop accepts exactly the top labels of the grammar of at most 63 characters |
| Spf.BoundaryIsMacroString | internal/rules/engine.go:613-629 | a prefix is a macro string exactly when the scan stops there |
| SpfArguments.ValidDomainArgument | internal/rules/engine.go:483-508 | an argument of a or mx is accepted exactly when it is absent, a dual CIDR length, or derives as a domain spec without literal slash and an optional dual CIDR length |
| SpfArguments.SplitDomain | internal/rules/engine.go:510-526 | the scan stops at the first slash outside macros, and fails at a malformed macro |
| SpfArguments.CutDecides | internal/rules/engine.go:483-526 | a slash-free derivation exists exactly when the cut at that slash yields one |
| SpfArguments.SlashedIsRejected | internal/rules/engine.go:510-526 | x/y.example derives under the grammar and is rejected |
| SpfArguments.ValidDual | internal/rules/engine.go:532-541 | accepts exactly a version 4 length, a version 6 length after a slash, or both |
| SpfArguments.ValidLength | internal/rules/engine.go:562-573 | accepts exactly digits that amount to at most the maximum |
| SpfArguments.LengthAgrees | internal/rules/engine.go:562-573 | beyond the grammar's lengths exactly those with leading zeros are accepted |
| SpfArguments.ValidPtrArgument | internal/rules/engine.go:528-530 | an argument of ptr is absent or a domain spec |
| SpfArguments.ValidAddressArgument | internal/rules/engine.go:543-560 | an argument of ip4 or ip6 is an address of its version with an optional length |
| SpfRecord.SpfIncludes | internal/rules/engine.go:372-441 | the verdict is true exactly when the modifiers are valid, every mechanism before the first "all" has valid arguments, and one is a passing include of the domain |
| SpfRecord.ValidModifiers | internal/rules/engine.go:443-472 | accepts exactly well-formed modifiers with redirect and exp at most once |
| SpfRecord.ValidMacroString | internal/rules/engine.go:613-629 | the loop accepts exactly the macro strings of the grammar |
| SpfRecord.AfterAllNothingMatters | internal/rules/engine.go:403-407 | terms after the first "all" matter only through their modifiers |
| SpfRecord.MechanismsAfterAllNeverCount | internal/rules/engine.go:403-407 | mechanisms after the first "all" never change the verdict |
| SpfMeaning.ModifierReads | internal/rules/engine.go:474-481 | a name without separators, an equals sign and any argument read as that modifier |
| SpfMeaning.ReadsModifier | internal/rules/engine.go:474-481 | and nothing else reads as a modifier |
| SpfMeaning.MechanismReads | internal/rules/engine.go:388-402 | a name, an optional suffix and an optional qualifier read as that mechanism, plus being the default |
| SpfMeaning.ReadsMechanism | internal/rules/engine.go:388-402 | and nothing else reads as a mechanism |
| SpfMeaning.ReadsMalformed | internal/rules/engine.go:389-396 | a qualifier alone or before another is malformed |
| SpfMeaning.AllInWords | internal/rules/engine.go:403-407 | the fields that end the evaluation are all with a qualifier or none |
| SpfMeaning.IncludeInWords | internal/rules/engine.go:408-415 | a valid field passes through the domain exactly when it is its include, with plus or no qualifier and up to one trailing dot |
| SpfMeaning.PlainRecordIncludes | internal/rules/engine.go:372-441 | a record of one include and an all passes through the included domain |
| Aggregate.Build | internal/aggregate/aggregate.go:23-56 | whatever order the maps are walked in, the result is the findings of the evidence, and with unique evidence IDs the one list of them |
| Aggregate.BuildIsDeterministic | internal/aggregate/aggregate.go:23-56 | order and repetition of the input do not change the findings |
| Aggregate.FindingsAreStrong | internal/aggregate/aggregate.go:46-52 | a finding's strength is the greatest rank of all its group's evidence, and each item is matched by a kept one of at least its rank |
| Aggregate.Deduplicate | internal/aggregate/aggregate.go:58-82 | both stages keep one item per ID and the best per provenance |
| Aggregate.DroppedIsDominated | internal/aggregate/aggregate.go:58-82 | every dropped item leaves one of at least its rank |
| Aggregate.FindingsAreUnique | internal/aggregate/aggregate.go:23-56 | a set of evidence has one list of findings |
| Aggregate.ConflictsAreMutual | internal/aggregate/aggregate.go:103-119 | corollary of how findings list conflicts: the conflict relation is symmetric and irreflexive, and listed exactly |
| AggregateMeaning.StrengthInWords | internal/aggregate/aggregate.go:46-52 | a finding is strong if any evidence with its key is, else moderate if any is, else weak if any is, and otherwise as some evidence says |
| AggregateMeaning.EvidenceInWords | internal/aggregate/aggregate.go:30-82 | a finding lists in ID order exactly the items that no stronger, or as strong and smaller-named, item of the same provenance displaces; category and activity are those of the first |
| AggregateMeaning.OneFindingPerKey | internal/aggregate/aggregate.go:23-56 | every key with evidence has exactly one finding |
| AggregateMeaning.ConflictsInWords | internal/aggregate/aggregate.go:103-119 | two findings conflict exactly when they place one subject in one scope by one network relation at different providers or products |
| AggregateMeaning.ConflictsNameFindings | internal/aggregate/aggregate.go:103-119 | conflicts are listed in order and name findings |

## Left out

- HTTP API, command line, configuration, authentication and metrics: plumbing and formatting.
- Network and cryptographic code (DNS, HTTP and TLS exchanges, Merkle proofs, signatures, hashing, prefix tables): abstract functions, predicates or parameters of the model.
- SQL text, ranking, vector distance and migrations: tables are maps and transactions are atomic steps; in the protocols any claimable row may be claimed, since rows locked by other workers are skipped.
- Liveness of workers and timers: runs are shown that go through, but no scheduler is assumed that takes them.
- Embedding: the advisory lock is modelled as atomic transactions; floating-point vectors are opaque values.
- Residency: dataset manifests, metrics and the lookup of the desired activation in reloadDesired; the swap of the active bundle is modelled.
- Jobs: creation and update times, request payloads and the validation of analysis requests, whose verdict per row is an input; the PostgreSQL job store.
- Projection.ProjectionConverges: leaves out the latest HTTP attempt and the chosen description, which depend on arrival order; their own theorems say exactly when they do not.
- RetentionStore.InventoryStore.RunReportRetention: the text encoding of cursors is not part of this model.
- ContentIdentity.ContentIgnoresOrder: coverage entries with equal capability names and dataset records with equal keys are excluded, because an unstable sort does not order them.
- CanonicalJson.QuoteDetermines: strings are sequences of Unicode characters, as the decoder that feeds the printer yields them; the replacement of invalid UTF-8 before that is not modelled.
- CtCollector.Collect: the byte budget is claimed only of runs that take in entries, since a failed continuity check does not stop a run that fetches none; name normalisation and root matching are inputs.
- CnameWalk.Follow: cycles are not claimed to be detected, because several starting targets can close one without a repeated path.
- CnameWalk.Expand: observations, address policy and candidates appear only through their effect on coverage; followInheritedZone and followDependencies are not part of this model.
- SpfRecord.SpfIncludes: address parsing is a parameter; lower-casing and splitting into fields happen before.
- Aggregate.Build: the provenance key of an item is an input, and the sort before deduplication is left out because the result does not depend on the order of a group.
- Pacing: network permits are taken between the wait and the start without their own steps; `Admission` models them.
- Cloud range importers, the ASN index, the address table, cursor codecs and the dataset repository's file durability: easier members.
