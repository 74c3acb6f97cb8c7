# Maintainer Cockpit: durable job protocols

A Dafny model of the job protocols that Maintainer Cockpit keeps in SQLite, of
the data they exchange, and of the bounds they promise. The store opens one
connection, so every transaction is one atomic step; a crash, an error or a
configuration reload can fall between any two steps.

- **Repository refresh**. `RefreshRuns` is the protocol, over the tables of
  `RefreshTables`: workers, force upgrades, scheduled rediscovery, reloads,
  crashes and a clock interleave freely. `RefreshSafety` proves what every
  reachable state satisfies, and `RefreshHistory` relates each job to its past.
  `RefreshTheorems`, `RefreshCache`, `RefreshRequests` and `RefreshReplays`
  state the promises: what is published, that reuse is transparent, when a
  request is lost, and that repetition changes nothing; `RefreshUpgrades` follows
  a whole forced request through a run, and `RefreshRetries` its failures. `RefreshPolicy` says
  what the scheduler chooses at each stage and what one unit of work comes to,
  and `RefreshLiveness` that undisturbed jobs end. `RefreshStore` changes the
  rows statement by statement, and `RefreshScheduler` shows that the scheduler's
  calls come to exactly that unit of work.
- **Hydration and progress** (`HydrationCache`, `Progress`, `ProgressRuns`).
  Reuse of stored payloads by fingerprint, review-thread transitions, and what
  any sequence and any repetition of collections leaves.
- **Diff to analysis** (`Handoff`, `HandoffRuns`, `Stranding`, `AnalysisWorker`).
  Two queues tied together by the head of a pull request: no lost wake-ups, no
  result for a stale head, and no job that is dropped before it ends.
- **Public author queue** (`Timestamps`, `PublicQueue`). A durable pause, stored
  and compared as RFC 3339 text.
- **Evidence and graphs** (`Utf8`, `DiffEvidence`, `Correlation`,
  `CorrelationWorker`, `SourceIdentity`). Byte budgets, grounded groups and
  their compare-and-swap publication, and injective source ids.
- **Results and waiting** (`AnalysisResult`, `RateLimit`). Last valid sections,
  display levels, and rate-limit sleeps.

`dafny verify dfyconfig.toml` checks everything.

## What the code does not keep

Each of these is stated with its exact condition:

- The comment on the public request interval reads as a distance of 65 seconds.
  The distance holds in whole seconds. It is shorter, by less than a second,
  exactly when the later claim falls into the second in which the pause ends and
  its written fraction is a proper prefix of the pause's: a whole second sorts
  after its fractions (`PublicQueue.ShortGapIff`, `PublicQueue.ShortGapExists`,
  `Timestamps.InvertedIff`).
- A forced refresh request is two statements without a transaction: it inserts a
  forced job, which is ignored beside an active one, and then upgrades the
  active job. It is lost exactly when the insertion is ignored and either no job
  is active any more at the upgrade, or the one that is completes in the claim
  it is in, which was not forced (`RefreshUpgrades.ForcedRequestIsLostIff`,
  `RefreshUpgrades.ForceInTheGapIsLost`). For an upgrade that finds a job this
  can be told from the stage: a queued, unattended or released job serves it
  (`RefreshRequests.RestingForceIsServed`); a job that publishes, records,
  finishes or has been given up loses it, unless its worker is lost
  (`DoomedRequestIsLost`); at any other stage `RunningForceIsLostIff` says which
  stored phase and which answers of GitHub lose it.
- A scheduled rediscovery is lost exactly when the job completes, published or
  abandoned, without committing a discovery after it
  (`RefreshRequests.RediscoveryIsLostIff`). A discovery that asked GitHub before
  the request and commits after it counts as serving it.
- A forced analysis is lost exactly when it lands on a running one that is not
  forced (`Handoff.ForcedRequestIsLostIff`).
- A running analysis job that is put back, by its worker or by recovery after a
  crash, waits for a head that is gone exactly when its head has moved
  (`Handoff.RequeueStrandsIff`, `Stranding.RecoveryStrandsIff`). In every run such
  a collection has nothing to run or to claim until it is asked for again, and a
  collection with a released diff, no work and no analysis of it is such a one
  (`Stranding.StrandedIff`). The next finalization or an explicit request repairs
  it (`Handoff.FinalizationRepairs`).
- A correlation job that is refused because its inputs have changed asks for
  another one in a transaction after its completion. The collection is asked for
  again exactly when the worker is not lost between the two
  (`CorrelationWorker.AskedAgainIff`).
- The rate-limit budget holds for one call. The repetition with a fresh
  credential has a budget of its own (`RateLimit.OperationBound`,
  `RateLimit.TwiceTheBudget`).
- Configuration is persisted before the workers of a reload stop, so a running
  job can lose its generation. Its publication is then found incomplete exactly
  if it was not empty (`RefreshTheorems.IncompleteOnlyAfterReload`).
- Recording a progress snapshot again changes nothing, unless it lists a thread
  first as resolved and last as unresolved and no event of that resolution is
  stored; in that case, and only in it, the repetition adds the event
  (`ProgressRuns.ReplayChangesNothingIff`, `ProgressRuns.RepeatedThreadBreaksReplay`).
- The stored resolutions of a thread count its transitions exactly when no two
  transitions share a collection time. The repetition of an earlier snapshot
  that shows its transition once more makes the count too small
  (`ProgressRuns.EventCountIsTransitionCountIff`).

## Assumptions

- SHA-256 is injective, also where a group id keeps eight bytes of it; JSON
  encoding and decoding is the identity. Ids contain no NUL byte.
- GitHub's file list is a function of the fingerprinted input, and the time of a
  reported progress event is determined by its id.
- GitHub's answer about a pull request carries the number it was asked for.
- The calendar part of a timestamp has a fixed width and grows with time.
- In the refresh protocol instants are exact and the clock does not go back.
  The public queue makes no assumption about the clock.

## Model

| member | source | states |
|---|---|---|
| RefreshSafety.RunsAreSafe | internal/storage/store.go:471-483 | in every run: one active job for each repository, a worker only for a running job, no pending item once hydration ended, a completed item carries its own pull request and is a bypass exactly when its generation is forced, a worker's copy of its generation is accurate, and each published row carries its own pull request |
| RefreshTheorems.PublicationShowsLastDiscovery | internal/refresh/scheduler.go:287-334 | whatever batches, retries, rediscoveries, reloads and crashes came before, a publication leaves the memberships of its repository exactly those of the job's last discovery, and its rows exactly the staged payloads of the discovered numbers, with their discovered collections; other repositories stay |
| RefreshTheorems.PublishableIff | internal/storage/store.go:2552-2581 | a staged generation can be published if and only if its repository is no longer configured, or every collection it names still configures it |
| RefreshTheorems.IncompleteOnlyAfterReload | internal/refresh/scheduler.go:287-294 | the "not complete" error arises exactly when a reload deleted a generation that was not empty; without a reload that drops the repository it is unreachable |
| RefreshTheorems.CompletedJobClaims | internal/refresh/scheduler.go:165-338 | an undisturbed job that has completed after discovering n pull requests was claimed ceil(n/20)+4 times, and at most once more for each crash or loss |
| RefreshLiveness.UnitMakesProgress | internal/refresh/scheduler.go:165-338 | when GitHub answers everything about what it was asked and the configuration still has what the job names, one unit of an undisturbed job brings it exactly one unit further and gives it back, and its publishing unit completes it |
| RefreshLiveness.CompletesInExactly | internal/refresh/scheduler.go:165-338 | so a fresh job that discovers n pull requests is queued after each of ceil(n/20)+3 units and completed by the next, whatever happens to the shared tables between its units |
| RefreshLiveness.UndisturbedWorkerCanStep | internal/refresh/scheduler.go:165-338 | in every reachable state the worker of an undisturbed job can take a step that is neither a failure nor a loss |
| RefreshLiveness.CompletedIffClaimed | internal/refresh/scheduler.go:165-338 | at rest, an undisturbed job that has lost no worker is queued or completed, and completed if and only if it was claimed ceil(n/20)+4 times |
| RefreshLiveness.WorkIsBounded | internal/refresh/scheduler.go:165-338 | from its discovery on, each step of such a job brings it closer to its end, whatever the other events are |
| RefreshLiveness.LeftAfterDiscovery | internal/refresh/scheduler.go:187-218 | right after the discovery at most 10*(ceil(n/20)+3)+9 steps are left |
| RefreshTheorems.ClaimsNeverExceed | internal/refresh/scheduler.go:165-338 | the same bound holds for an undisturbed job that has not completed, so it cannot be claimed for ever |
| RefreshTheorems.BatchesIsCeiling | internal/refresh/scheduler.go:475-498 | the number of batches is the ceiling of n/20 |
| RefreshTheorems.RetriesAreBounded | internal/refresh/scheduler.go:584-606 | no generation records more than 94 consecutive retries, plus one for each crash or loss that cut a delay short |
| RefreshHistory.WindowHolds | internal/refresh/scheduler.go:591-606 | the delays of the first n retries add up to less than 24 hours if and only if n is at most 93 |
| RefreshTheorems.HydratedAtMostOnce | internal/storage/refresh_generation.go:185-271 | a pull request that every rediscovery of a generation contains is hydrated at most once in it, and is completed exactly when it has been |
| RefreshTheorems.PublicationCounts | internal/storage/store.go:2684-2709 | a publication is recorded as forced exactly when its job was at its last claim; its two columns are the numbers of staged hits and of all other staged outcomes, read back with the flag, and add up to the published pull requests |
| RefreshUpgrades.ForcedRequestIsLostIff | internal/storage/store.go:2859-2877 | in every run, a forced request is lost if and only if its insertion was ignored and either no job of the repository is active at its upgrade, or the one that is completes in the claim it is in, which was not forced |
| RefreshUpgrades.ForceInTheGapIsLost | internal/storage/store.go:2859-2877 | a job that completes between the two statements swallows the request |
| RefreshUpgrades.InsertedIsServed | internal/storage/store.go:2859-2869 | an inserted forced job is never completed by a claim that is not forced |
| RefreshRequests.ForceIsLostIff | internal/storage/store.go:2870-2877 | in every run, a job completes with an unserved force flag if and only if it was upgraded after its last claim and that claim was not forced |
| RefreshRequests.RestingForceIsServed | internal/storage/store.go:2870-2877 | a force that finds the job queued, unattended or released is served by a forced claim before the job can complete |
| RefreshRequests.DoomedRequestIsLost | internal/refresh/scheduler.go:287-334 | a request that finds the job publishing, recording, finishing or given up meets no claim and no discovery any more, unless the worker is lost |
| RefreshRequests.ClaimEndsIff | internal/refresh/scheduler.go:165-338 | a claim that is left alone completes its job exactly under the condition its stage, the stored phase and GitHub's answers give |
| RefreshRequests.RunningForceIsLostIff | internal/storage/store.go:2870-2877 | so a force that finds a worker is lost with its claim if and only if that claim is not forced and ends the job |
| RefreshRequests.RediscoveryIsLostIff | internal/storage/periodic.go:55-77 | when a job completes, published or abandoned, a scheduled rediscovery is never served if and only if it was asked for after the last committed discovery; a published generation still carries the flag |
| RefreshRequests.FlagAsksIff | internal/storage/periodic.go:55-77 | in every run a stored generation asks for rediscovery if and only if it was asked for after the last discovery |
| RefreshRequests.CompletedIsFinal | internal/storage/store.go:2926-2935 | a completed job is never claimed again, so late requests on it are not served |
| RefreshReplays.PublicationReplays | internal/refresh/scheduler.go:287-334 | in every run, a job that publishes twice without a discovery in between leaves its repository's memberships, rows and counters alike both times, whatever happened meanwhile, if it is configured alike |
| RefreshReplays.RecordingReplays | internal/refresh/scheduler.go:463-473 | in every run, between and after two recordings of a job without a discovery in between the progress rows of its repository stay as the first left them, unless its links change, a later horizon reaches those rows or a thread breaks the replay |
| RefreshCache.CacheIsTransparentInRuns | internal/refresh/scheduler.go:475-555 | in any run, each pull request of each committed batch agrees in every field, except observation times, with what hydration without a cache would have made of the same observation |
| RefreshCache.StoredPayloadsAreFaithful | internal/refresh/scheduler.go:535-555 | every stored payload of every reachable state agrees field by field with the input its fingerprint stands for, through both publication paths |
| RefreshHistory.RunsRemember | internal/storage/refresh_generation.go:109-603 | in every run the stored generation, the worker's copy, the claim count, the retry clock and the flags of a job agree with its past |
| RefreshHistory.EventMovesSlots | internal/storage/store.go:2844-2923 | an event moves each existing job by its own rule and adds only queued jobs without a generation |
| RefreshHistory.HydratedUnits | internal/storage/refresh_generation.go:443-458 | a committed batch brings the generation exactly one batch closer to its end |
| RefreshHistory.RetryWaits | internal/refresh/scheduler.go:591-606 | a retry keeps the promise that every delay before it has been waited for |
| RefreshTheorems.TablesStayReferential | internal/storage/store.go:446-457 | in every run each membership refers to a linked repository and a stored row, and refresh state exists exactly for the configured repositories |
| RefreshTheorems.SyncIsReferential | internal/storage/store.go:1320-1490 | a reload keeps these references |
| RefreshTables.CountsRoundTrip | internal/storage/store.go:2784-2788 | the stored counters read back if and only if a forced publication has no misses and any other has no bypasses |
| RefreshTables.ItemsArePartitioned | internal/storage/refresh_generation.go:274-303 | pending plus completed equals the members, and hits plus misses plus bypasses equals completed |
| RefreshTables.SnapshotIsExact | internal/storage/store.go:2540-2640 | after the final publication a repository shows exactly what was listed, with an empty list meaning every configured collection, and no other repository changes |
| RefreshTables.BatchIsExact | internal/storage/refresh_generation.go:364-484 | a batch leaves the earlier memberships and those each of its numbers lists for active collections that hold the repository, its payloads as rows, and everything else as it was |
| RefreshTheorems.CommittedBatchIsShown | internal/storage/refresh_generation.go:364-484 | in any run a committed batch is shown at once, in exactly the collections its numbers were discovered in and that still hold them, and removes nothing |
| RefreshTheorems.ReloadedTables | internal/storage/store.go:1320-1490 | a reload makes the links of listed collections exactly the listed ones, takes with a dropped link its memberships, keeps refresh state exactly for listed repositories, and keeps rows and progress |
| RefreshTheorems.ReloadedJobs | internal/storage/store.go:1450-1475 | it takes the generation of every job whose repository is not listed and completes the queued ones; a running one stays, and so do all other jobs |
| RefreshTheorems.EnqueueQueuesIff | internal/storage/store.go:2859-2869 | a request queues a job exactly if all earlier jobs of the repository have completed, and moves no other |
| RefreshTheorems.JobEndsIff | internal/storage/store.go:2926-2935 | an active job completes exactly when its worker finishes it or a reload finds it queued for a repository that is not listed; recovery and release leave it queued |
| RefreshRetries.FailureBacksOff | internal/refresh/scheduler.go:591-606 | in any run the r-th failure in a row puts the job back for two to the power of r - 1 minutes if it is one of the first five, and for sixteen minutes from then on |
| RefreshRetries.RetriesCountFailures | internal/refresh/scheduler.go:591-606 | in every run the stored retries of a generation number its retryable failures since the last committed unit, within a day of the discovery |
| RefreshRuns.DelayDoubles | internal/refresh/scheduler.go:603 | the delay is one minute doubled with each retry up to the fifth, and sixteen minutes from then on |
| RefreshTables.SnapshotReplay | internal/storage/store.go:2491-2737 | publishing a snapshot again changes nothing |
| RefreshTables.EarlyBatchIsAbsorbed | internal/storage/refresh_generation.go:361-363 | publishing a batch early does not change what the final publication leaves |
| RefreshTables.RediscoveryKeepsCompletedWork | internal/storage/refresh_generation.go:224-247 | rediscovery makes the members exactly the new set and keeps the completed payload of each one that remains |
| RefreshSafety.WorkerKeepsSlot | internal/refresh/scheduler.go:165-338 | every step of a worker keeps what is known about its job |
| RefreshSafety.RowsStayOwn | internal/storage/store.go:1565-1605 | every write of the published rows keeps each row's own repository and number |
| RefreshSafety.WithBatchIsWellFormed | internal/storage/refresh_generation.go:443-458 | a committed batch moves exactly its numbers from pending to completed |
| RefreshSafety.StagedIsComplete | internal/refresh/scheduler.go:288-294 | a generation that passes the completeness check is published with all its items |
| RefreshStore.Store.InsertJob | internal/storage/store.go:2859-2869 | inserts a queued job unless the repository has an active one |
| RefreshStore.Store.EnqueueRefreshWithForce | internal/storage/store.go:2844-2879 | fails for an unconfigured repository; otherwise leaves an active job, and upgrades the active one when forced, if nobody else writes between its statements |
| RefreshStore.Store.ForceActiveJob | internal/storage/store.go:2870-2877 | sets the flag of the queued or running job of the repository and changes nothing else |
| RefreshStore.Store.EnqueueAllRefreshes | internal/storage/periodic.go:55-77 | asks every active generation for rediscovery and queues exactly the refreshed repositories without an active job |
| RefreshStore.Store.ClaimRefresh | internal/storage/store.go:2882-2923 | claims the earliest due job, the lower id of two, and reports none only when none is due |
| RefreshStore.Store.StartRefreshGeneration | internal/storage/refresh_generation.go:109-181 | fails unless the job is running, its own repository's and the numbers positive; otherwise stages every member as pending with the job's stored force flag |
| RefreshStore.Store.ReconcileRefreshGenerationDiscovery | internal/storage/refresh_generation.go:185-271 | the statements over the staged rows amount to the reconciled generation |
| RefreshStore.Store.LoadRefreshGeneration | internal/storage/refresh_generation.go:274-323 | counts pending, completed, hits, misses and bypasses as the item sets have them |
| RefreshStore.Store.LoadRefreshGenerationBatch | internal/storage/refresh_generation.go:326-359 | fails unless the limit is positive; otherwise the first pending numbers of a hydrating generation in order, at most that many, with their stored collections; each with its discovered collections and limits, and every other pending number is higher |
| RefreshStore.Store.PublishRefreshGenerationBatch | internal/storage/refresh_generation.go:364-484 | accepts exactly lists of distinct pending pull requests of the hydrating generation's repository; then its payloads are the rows, its listed memberships in active collections that hold the repository are added to the earlier ones, its items are completed and the retries reset, and nothing else moves |
| RefreshStore.Store.AdvanceRefreshGeneration | internal/storage/refresh_generation.go:487-507 | moves the phase only from the expected one, keeps an earlier payload, and resets the retries |
| RefreshStore.Store.RecordRefreshGenerationRetry | internal/storage/refresh_generation.go:510-538 | increments and returns the retry count, and fails without a generation |
| RefreshStore.Store.DeleteRefreshGeneration | internal/storage/refresh_generation.go:576-583 | removes the generation and nothing else |
| RefreshStore.Store.RequeueRefreshJob | internal/storage/refresh_generation.go:586-603 | requeues only a running job |
| RefreshStore.Store.CompleteRefreshJob | internal/storage/store.go:2926-2935 | completes the job whatever its status, and does nothing without one |
| RefreshStore.Store.RecoverRefreshJobs | internal/storage/store.go:3500-3507 | requeues exactly the running jobs |
| RefreshStore.Store.LoadCachedPullRequests | internal/storage/store.go:2806-2835 | the stored payloads of one repository by number |
| RefreshStore.Store.ListDesired | internal/storage/store.go:2550-2582 | fails at a collection that does not configure the repository, and otherwise lists the desired memberships |
| RefreshStore.Store.ReplaceRepositorySnapshot | internal/storage/store.go:2491-2737 | upserting, deleting and inserting in the order of the statements replaces exactly what the repository publishes |
| RefreshStore.Store.RecordProgress | internal/storage/progress.go:127-308 | records a progress snapshot and its time, fails when the repository has no refresh row to refer to, and reports an unlinked repository apart from a rejected snapshot |
| RefreshScheduler.Scheduler.ProcessPhased | internal/refresh/scheduler.go:165-338 | one claimed unit of work leaves the job, its generation and the shared tables exactly as serving the claim does, for any answers, and touches no other job |
| RefreshPolicy.LosesIffObstructed | internal/refresh/scheduler.go:165-338 | the worker gives up and leaves its job running if and only if the discovery is invalid, a reload took the generation, an answer is about another pull request, a collection is not configured any more or the progress is rejected |
| RefreshPolicy.FailureServed | internal/refresh/scheduler.go:570-621 | serving a failure requeues the job 2^(r-1) minutes later for its r-th retry up to the fifth and sixteen minutes later from then on, or one minute later without a generation; a day after the discovery, or if it cannot pass, it drops the generation and completes the job |
| RefreshPolicy.PublicationServed | internal/refresh/scheduler.go:287-334 | publishing comes to the replaced snapshot with its recorded progress and a completed job, or to a running job |
| RefreshPolicy.BatchIsUnique | internal/refresh/scheduler.go:484-498 | a generation has exactly one next batch |
| RefreshPolicy.ServedStepsAreEvents | internal/refresh/scheduler.go:117-133 | the steps of an uninterrupted unit are events of the interleaved runs |
| RefreshScheduler.Scheduler.ProcessHydrationBatch | internal/refresh/scheduler.go:475-568 | loads the next batch, reads the cache unless forced, and leaves what serving a hydrating generation leaves |
| RefreshScheduler.Scheduler.HydrateLoaded | internal/refresh/scheduler.go:499-568 | hydrates a loaded batch and commits it, retries, abandons or gives up exactly as serving it does |
| RefreshScheduler.Scheduler.HandleFailure | internal/refresh/scheduler.go:570-621 | requeues the job with one more retry 2^(r-1) minutes later for the r-th retry up to the fifth and sixteen minutes later from then on, while less than 24 hours have passed since the discovery, or one minute later without a generation; otherwise deletes the generation and completes the job |
| RefreshScheduler.Scheduler.PublishGeneration | internal/refresh/scheduler.go:287-334 | publishes a complete generation, records its progress and completes the job, or leaves it running, exactly as serving it does |
| RefreshScheduler.Scheduler.PublishSnapshot | internal/refresh/scheduler.go:340-473 | replaces the snapshot, then records its progress; a repository without configuration or links is no error |
| RefreshScheduler.Scheduler.Discover | internal/refresh/scheduler.go:187-218 | stages a fresh discovery and gives the job back, retries, abandons or gives up exactly as serving the claim does |
| RefreshScheduler.Scheduler.Rediscovers | internal/refresh/scheduler.go:219-251 | reconciles a requested rediscovery and gives the job back, or fails exactly as serving the claim does |
| RefreshScheduler.Scheduler.CollectProgress | internal/refresh/scheduler.go:259-286 | stages the progress payload and gives the job back, or fails exactly as serving the claim does |
| HydrationCache.HydratePullRequest | internal/githubapp/client.go:982-1026 | reuses a stored payload exactly if the collection is not forced and the fingerprints match, and replaces only its head, readiness and collections; otherwise keeps the observed facts with the item's collections, both lists of limits and the file list |
| HydrationCache.ReuseIff | internal/githubapp/client.go:982-1005 | a payload with the fingerprint of an earlier observation is reused exactly if the collection is not forced and both observations agree on every fact but readiness, the file list and observation times, on the collections, on all limits together, and without limits on the completeness |
| HydrationCache.SameFactsIff | internal/githubapp/client.go:2123-2131 | two pull requests are alike without their observation times exactly if they agree in every other field |
| HydrationCache.HydrateBatch | internal/githubapp/client.go:971-1030 | hydrates in order, fails if and only if an observation failed, and its counters add up to the batch |
| HydrationCache.CacheIsTransparent | internal/githubapp/client.go:999-1005 | hydration with any stored payload agrees in every field, except observation times, with full collection |
| HydrationCache.HydrationIsFaithful | internal/githubapp/client.go:2123-2149 | a hydrated payload agrees field by field with the input its fingerprint stands for, so it may itself be stored and reused |
| HydrationCache.RelabelIsFaithful | internal/refresh/scheduler.go:302-312 | rewriting collection ids keeps a payload reusable |
| ProgressRuns.EventCountIsTransitionCountIff | internal/storage/progress.go:218-293 | over any collections of any repositories in any order, with replays and changing links, the resolution events of a thread number its observed transitions if and only if no two transitions share a collection time; never more |
| ProgressRuns.DistinctTimesCount | internal/storage/progress.go:218-293 | so distinct collection times suffice, in any order |
| ProgressRuns.ImmediateReplayIsSilent | internal/storage/progress.go:218-293 | the immediate repetition of a snapshot that lists no thread twice shows no transition |
| ProgressRuns.ResolvedEventsAreTransitions | internal/storage/progress.go:218-293 | after every prefix of such a run the stored events are the earlier ones and those of the transitions, and the stored state is the last observation; a first observation never counts and a rejected collection changes nothing |
| ProgressRuns.ReplayChangesNothingIff | internal/storage/progress.go:127-308 | recording a snapshot again changes nothing if and only if no thread is listed first as resolved and last as unresolved without a stored event of its resolution |
| ProgressRuns.ReplayKeepsRowsIff | internal/storage/progress.go:127-308 | the same for one repository, whatever was recorded for others in between |
| ProgressRuns.DistinctThreadsReplay | internal/storage/progress.go:218-293 | a snapshot that lists no thread twice always replays |
| ProgressRuns.OnlyOwnLinksMatter | internal/storage/progress.go:163-201 | a collection reads no links but those of its own repository |
| ProgressRuns.RepeatedThreadBreaksReplay | internal/storage/progress.go:245-262 | a snapshot that lists one thread as resolved and then as unresolved adds an event on repetition |
| Progress.TurnsIff | internal/storage/progress.go:245-262 | what was known of a thread before a snapshot matters only to its first listing |
| Progress.ApplyMovesKey | internal/storage/progress.go:218-304 | what a whole collection leaves of one thread: its last listing, and one event exactly if the listings turn it from unresolved to resolved |
| Progress.ApplyElsewhere | internal/storage/progress.go:294-304 | of other repositories a collection leaves exactly what is recent enough |
| Progress.ApplyReportsKey | internal/storage/progress.go:158-304 | a whole collection leaves of the reported events those that were stored and those it lists for a linked collection, each with its first time, unless that time is before the horizon |
| Progress.ApplyStaysComplete | internal/storage/progress.go:127-308 | an accepted collection keeps every stored row that of a named event of one of the five kinds or a named thread of a numbered pull request |
| ProgressRuns.RowsStayComplete | internal/storage/progress.go:127-308 | so do any collections one after another |
| Progress.RecordThreadMovesKey | internal/storage/progress.go:245-286 | a thread observation adds one transition event exactly when it resolves a known unresolved thread |
| Progress.RecordSnapshot | internal/storage/progress.go:127-308 | accepts if and only if every event and thread is valid and every named collection is linked or already holds the event, and records all of them or nothing |
| Progress.InsertEvent | internal/storage/progress.go:158-217 | accepts exactly a complete event of the repository each of whose named collections holds the repository or already has it; then it is stored for each linked collection it is about, an earlier time stays, and nothing else changes |
| Progress.ObserveThread | internal/storage/progress.go:218-293 | accepts exactly a complete thread of the repository whose named collections hold the repository; overwrites exactly the rows it is about and derives transitions from what was stored, collection by collection |
| Progress.AcceptanceStands | internal/storage/progress.go:180-215 | an event is accepted midway through a transaction exactly when it was at its start |
| Handoff.NoLostWakeUp | internal/storage/diff.go:245-272 | with fixed providers, once a diff job completed for the current head every provider-enabled collection holding the pull request has an active job or completed one claimed at that head; unless a stale job was put back, the active one runs or waits for that head; reloads included |
| Handoff.WaitingIsClaimable | internal/storage/analysis.go:166-223 | a job waiting for a released head can be claimed once it is due |
| Handoff.RequeueStrandsIff | internal/storage/analysis.go:675-684 | putting a running job back leaves something claimable exactly when it has the current head |
| Stranding.RecoveryStrandsIff | internal/storage/analysis.go:155-163 | recovery after a crash leaves something claimable exactly when something waited for the current head or ran for it |
| Stranding.StrandedIff | internal/storage/analysis.go:155-163 | in every run a stranded collection has nothing that runs, waits for the current head or could be claimed, and once its diff is released and unless it has been analysed the converse holds too |
| Handoff.FinalizationRepairs | internal/storage/diff.go:43-90 | after finalization every provider-enabled collection has a job that runs or waits for the new head, or its diff is being collected |
| Handoff.ForcedRequestIsLostIff | internal/storage/analysis.go:58-73 | a forced request is lost exactly when it lands on a running job that is not forced |
| Handoff.AttemptsAreCurrent | internal/storage/analysis.go:658-672 | an attempt and its result commit only for the current head, and with terminal diff evidence unless the job row has gone; an attempt without a valid section keeps the last result |
| Handoff.ResultsStand | internal/storage/analysis.go:490-553 | a collection that keeps the pull request keeps its last result until a valid one for the head of that moment replaces it |
| Handoff.ReloadedIsUsable | internal/storage/store.go:1363-1381 | a reload keeps one active job and moves no queued one |
| Handoff.RunningJobsHaveEvidence | internal/storage/analysis.go:183-191 | a running job has terminal evidence for its head, or an empty head |
| Handoff.StillAwake | internal/storage/analysis.go:687-732 | every event keeps the wake-up promise of a collection |
| Handoff.EnqueuedIsUsable | internal/storage/analysis.go:58-73 | enqueueing keeps one active job, running or queued for the current head |
| Handoff.Store.EnqueueAnalysis | internal/storage/analysis.go:30-75 | moves a queued job to the current head, adds its force flag and never defers it, leaves every other job, and inserts one if none is active; does nothing without a provider, and fails without the pull request |
| Handoff.Store.ReloadCollection | internal/storage/store.go:1363-1381 | inserts a job for a member with a known diff unless one is active |
| Handoff.Store.RequeueAnalysisJob | internal/storage/analysis.go:675-684 | puts back only a running job |
| Handoff.Store.EnqueueAll | internal/storage/diff.go:56-64 | requests analysis for each listed collection and no other |
| Handoff.Store.EnqueuePullRequestDiff | internal/storage/diff.go:43-90 | completes the jobs queued for other heads, then asks each provider-enabled member for the head if complete or partial evidence or an empty head releases it, or else queues the diff unless it is active |
| Handoff.Store.CompletePullRequestDiff | internal/storage/diff.go:159-274 | with a present head the evidence is stored, the job is completed unless its row has gone, no other diff job moves, and if the head is current each provider-enabled collection that holds the pull request is asked for it; otherwise nothing more changes |
| HandoffRuns.CompletedDiffIsFinal | internal/storage/diff.go:233-234 | in any run a completed or superseded diff job is completed, or its row has gone, and it is never claimed again |
| HandoffRuns.OneDiffAtATime | internal/storage/store.go:603-605 | in every run one head has at most one active diff job, and none is left without a pull request |
| HandoffRuns.PursuedUntilEnded | internal/storage/diff.go:93-274 | an active diff job is over exactly when it is completed or superseded or its pull request goes; neither recovery nor another head ends it |
| HandoffRuns.RequestedDiffIsPursued | internal/storage/diff.go:43-90 | in any run a requested diff stays queued or running until such an event |
| HandoffRuns.FinalizationCollectsIff | internal/storage/diff.go:43-90 | a finalization has the diff collected exactly if neither an empty head nor complete or partial evidence releases analysis |
| HandoffRuns.AnalysisEndsIff | internal/storage/analysis.go:675-732 | an active analysis job of a member ends exactly when it is completed, a finalization finds it queued for another head, or its collection lets the pull request go |
| HandoffRuns.NonMembersHaveNothing | internal/storage/store.go:764-793 | in every run a collection that does not hold the pull request has no job whose row is still there, no attempt and no result |
| Handoff.CompletedDiffIsExact | internal/storage/diff.go:159-274 | what completing a diff leaves, job by job, for the model of the runs |
| Handoff.CompletedAnalysisIsExact | internal/storage/analysis.go:687-732 | the job is completed, and its collection is asked for the current head exactly if it ran for another whose diff is known |
| Handoff.Store.CompleteAnalysisJob | internal/storage/analysis.go:687-732 | completes the job, and asks for the current head if it ran for another one with terminal evidence |
| Handoff.Store.RecordAttempt | internal/storage/analysis.go:566-602 | records an attempt, and with a valid section a result, if and only if its head is current and the collection holds the pull request |
| AnalysisWorker.AskProviders | internal/analysisworker/worker.go:131-253 | the first provider with a valid section decides; without one, the last failure does |
| AnalysisWorker.RunJob | internal/analysisworker/worker.go:80-135 | a claimed job ends completed, or is put back when its membership has gone; it leaves an attempt exactly when its head is still current and the analysis was not already |
| Timestamps.SecondsOrderTexts | internal/storage/store.go:4071-4073 | text order agrees with time across different seconds |
| Timestamps.InvertedIff | internal/storage/store.go:4071-4073 | inside one second text order is inverted exactly when the written fraction of the earlier instant is a proper prefix of the other's |
| Timestamps.WholeSecondSortsLast | internal/storage/store.go:4071-4073 | a whole second sorts after every fraction of it |
| Timestamps.FormatReadsBack | internal/storage/store.go:4071-4073 | the seconds and the fraction of a written instant read back, and the fraction ends with a digit that is not zero |
| Timestamps.TextsAreDistinct | internal/storage/store.go:4071-4073 | no two instants are written alike |
| PublicQueue.ClaimsArePaced | internal/storage/store.go:3130-3184 | across claims, deferrals, re-enqueues, recovery and any clock, at most one job runs and successive claims are 65 whole seconds apart |
| PublicQueue.HourlyBound | internal/storage/author_evidence.go:9-11 | any hour holds at most 56 claims |
| PublicQueue.GapBound | internal/storage/author_evidence.go:9-11 | the exact gap is always more than 64 seconds |
| PublicQueue.ShortGapIff | internal/storage/author_evidence.go:9-11 | successive claims are less than 65 seconds apart if and only if the later one falls into the second in which the pause ends and its written fraction is a proper prefix of the pause's |
| PublicQueue.ShortGapExists | internal/storage/author_evidence.go:9-11 | every such pair of instants is the pair of claims of some run |
| PublicQueue.Store.ClaimAncillary | internal/storage/store.go:3130-3184 | runs the earliest due job, the lower id of two, and pauses the queue for 65 seconds, unless one runs or the pause lasts |
| PublicQueue.Store.RequeueAncillary | internal/storage/author_evidence.go:60-85 | queues a running job for the given time, and pauses the queue until the later of that time and the earlier pause |
| PublicQueue.Store.RecoverAncillary | internal/storage/store.go:3510-3520 | queues each running job again with its author and time, and leaves every other job |
| PublicQueue.KeptUntilCompleted | internal/storage/author_evidence.go:12-85 | in every run an author has a queued or running job exactly if it was enqueued and that job has not been completed since; claims, deferrals and recovery never drop it |
| PublicQueue.AuthorsStayUnique | internal/storage/store.go:716-718 | in every run an author has at most one active job |
| PublicQueue.RetryAt | internal/evidenceworker/worker.go:330-340 | the latest of the interval, the reported reset and the requested delay |
| PublicQueue.ClaimFair | internal/evidenceworker/worker.go:148-189 | serves the first queue with work, counted from the one after the last served |
| PublicQueue.TurnComesUp | internal/evidenceworker/worker.go:178-187 | a queue that has work moves up with each claim of another |
| PublicQueue.ServedWithinThree | internal/evidenceworker/worker.go:178-187 | over any sequence of claims, a queue that keeps having work is served within three of them |
| Utf8.CutIsTight | internal/githubapp/client.go:2519-2528 | a cut is the longest well-formed prefix and loses at most three bytes of the budget |
| Utf8.TruncateBytes | internal/githubapp/client.go:2519-2528 | shortening byte by byte finds that prefix |
| Utf8.CutIsEmptyOnlyBelowFour | internal/githubapp/client.go:1959-1964 | a patch is cut to nothing only when fewer than four bytes of the budget are left |
| Utf8.ValidIff | internal/githubapp/client.go:2519-2528 | bytes are well formed exactly if they encode a sequence of Unicode scalar values |
| DiffEvidence.BuiltEvidenceIsAcceptable | internal/githubapp/client.go:1945-1982 | for valid patches with distinct names the built evidence passes the store's validation and its primary key |
| DiffEvidence.CollectAndValidate | internal/githubapp/client.go:1945-1982 | building and then validating succeeds on such files |
| DiffEvidence.CompleteMeansEverything | internal/githubapp/client.go:1976-1981 | evidence is complete exactly when no changed file is missing and every file is sent whole |
| DiffEvidence.CollectedPaths | internal/githubapp/client.go:1957-1975 | every source is the start of one named file's patch, and no file is sent twice |
| DiffEvidence.EachFileIsCut | internal/githubapp/client.go:1951-1975 | each file in turn adds the longest well-formed start of its patch within 8 KiB and what is left of 128 KiB, exactly if it has a name and one character fits |
| DiffEvidence.AcceptableIsBounded | internal/storage/diff.go:276-305 | accepted evidence holds at most a hundred files of well-formed patches of at most 8 KiB each and 128 KiB in all, and reports their bytes |
| DiffEvidence.AcceptableIsDetermined | internal/storage/diff.go:276-305 | its header follows from its sources, the original counts and whether collection failed |
| DiffEvidence.BuildEvidence | internal/githubapp/client.go:1941-1982 | the sources are those of the files in order within 8 KiB each and 128 KiB in all, and bytes and files are conserved |
| DiffEvidence.Validate | internal/storage/diff.go:276-305 | the loop accepts exactly the consistent evidence |
| DiffEvidence.UnavailableIsAcceptable | internal/storage/diff.go:166-171 | the evidence recorded for a failed collection is accepted, and is the only such evidence for that number of changed files |
| Correlation.KnownSources | internal/correlation/correlation.go:210-235 | fills the allowlists of members and evidence |
| Correlation.KnownIsExact | internal/correlation/correlation.go:210-235 | known members are the listed pull requests, each for itself, and the finished pull requests they refer to; known evidence is each pull request for itself and each relationship for its owner |
| Correlation.OpenMembersAreListed | internal/correlation/correlation.go:210-235 | a known member that is open is a pull request of the request |
| Correlation.ValidateEvidence | internal/correlation/correlation.go:349-372 | accepts exactly 1 to 20 distinct known ids about the cited members |
| Correlation.SameKeyIffSameEdge | internal/correlation/correlation.go:383-389 | edge keys coincide exactly for edges that state the same fact, which only stacking directs |
| Correlation.ValidateEdges | internal/correlation/correlation.go:299-333 | accepts exactly edges inside the group, grounded in their ends and unique up to symmetry |
| Correlation.ValidateCandidate | internal/correlation/correlation.go:252-298 | accepts exactly groups of 2 to 50 distinct known members, one of them open, with grounded evidence |
| Correlation.ValidateResponse | internal/correlation/correlation.go:238-347 | accepts exactly valid groups with distinct member sets, and returns them all |
| Correlation.GroupsAreCandidates | internal/correlation/correlation.go:334-347 | every accepted candidate becomes a group of exactly the members it lists, as they are known, in order |
| Correlation.BuildRequests | internal/correlation/correlation.go:182-206 | chunks of at most 200 hold every pull request once, in order |
| CorrelationWorker.PublishedGraphsAreGrounded | internal/storage/correlation.go:321-380 | in every run each published graph has distinct groups, each accepted for a request that was current at that commit |
| CorrelationWorker.GroundedMeans | internal/correlation/correlation.go:238-347 | one request of the inputs lists an open member of the group and knows the one to twenty distinct sources about its members that it cites, and those about their ends that its edges cite; the edges lie inside the group and no two state the same fact |
| CorrelationWorker.GraphChangesOnlyWhenCurrent | internal/correlationworker/worker.go:98-235 | the graph changes only by a successful answer whose inputs are still current; a successful answer whose inputs have changed is refused |
| CorrelationWorker.AnswerPublishes | internal/correlationworker/worker.go:98-235 | a successful answer whose inputs are still current leaves exactly the candidates of the first provider that succeeds, each at its place, or nothing without pull requests |
| CorrelationWorker.ActiveUntilCompleted | internal/storage/correlation.go:108-128 | a job stays active until its worker completes it; claims, changed inputs, crashes and recovery never drop it |
| CorrelationWorker.AskedAgainIff | internal/correlationworker/worker.go:81-92 | in every run, after a refused job completes the collection has an active job again if and only if the worker asks before it is lost, unless somebody else asks |
| CorrelationWorker.RunsAreOrderly | internal/storage/correlation.go:108-128 | in every run at most one job of the collection is active, and each worker that has not completed its job is at work on the running one |
| CorrelationWorker.IdleUntilAsked | internal/correlationworker/worker.go:75-96 | without an active job the collection stays as it is until somebody asks |
| CorrelationWorker.AskProvider | internal/correlationworker/worker.go:133-215 | succeeds exactly when every chunk is valid and no group repeats, with the candidates of all chunks, each at its place |
| CorrelationWorker.Process | internal/correlationworker/worker.go:98-235 | the first provider that succeeds on every chunk is used, with all its candidates |
| CorrelationWorker.Store.RecordCorrelationSuccess | internal/storage/correlation.go:321-380 | replaces the graph if and only if the inputs are unchanged |
| CorrelationWorker.Store.RunJob | internal/correlationworker/worker.go:75-96 | a claimed job whose worker is not lost is completed; it leaves the candidates of the first successful provider if the inputs are still current and the old graph otherwise, and queues another job exactly if a successful answer was refused and nothing else is active |
| CorrelationWorker.Store.EnqueueCollectionCorrelation | internal/storage/correlation.go:85-131 | queues a job unless one is active |
| AnalysisResult.ComputeLevel | internal/quality/quality.go:204-221 | a high finding is a strong concern; without one, a medium one or two low ones suggest a review; nothing else does |
| AnalysisResult.ListAgreesWithDetailIff | internal/storage/store.go:2351-2359 | the list's combined level equals the detail page's if and only if rules and model did not each find a single low concern only |
| AnalysisResult.RulesAgreeWithDetail | internal/quality/quality.go:224-306 | the rules never find a low concern, so list and detail always agree |
| AnalysisResult.RulesFindIff | internal/quality/quality.go:224-306 | the rules come to a strong concern exactly if enough references match no changed file and reach the strong minimum, and otherwise suggest a review exactly if they match none or the additions are broad |
| AnalysisResult.CombinedIsWorse | internal/storage/store.go:2351-2359 | the combined level is the worse of the two |
| AnalysisResult.ValidateEvaluations | internal/analysis/analysis.go:484-572 | accepts exactly one valid evaluation per family |
| AnalysisResult.EveryFamilyIsJudged | internal/analysis/analysis.go:484-509 | an accepted list judges every family |
| AnalysisResult.AcceptedFindingsAreSupported | internal/analysis/analysis.go:510-572 | an accepted finding cites one to twenty distinct known sources, a high one needs complete evidence and high confidence, and a family that looks for something missing needs complete evidence |
| AnalysisResult.QualityLevel | internal/analysis/analysis.go:662-673 | the same of the evaluations that are findings |
| AnalysisResult.MergeSections | internal/analysis/analysis.go:636-660 | each section is the valid one of the response, or else the previous one, or else empty; the level is that of new evaluations, or else the previous one |
| AnalysisResult.LastValidSections | internal/analysis/analysis.go:636-660 | after any history of responses each section is the last valid one, and the stored level is that of the stored evaluations |
| RateLimit.DoRequest | internal/githubapp/client.go:2714-2805 | the retry loop is the recursive description of one request |
| RateLimit.RequestBounds | internal/githubapp/client.go:2714-2805 | a request is sent at most once more than it may be retried, and sleeps only before the deadline |
| RateLimit.RequestIsExact | internal/githubapp/client.go:2714-2805 | a request is repeated exactly as long as the answer asks for a wait, a repetition is left and the wait ends before the deadline; it sleeps the waits of the repeated exchanges and ends with the last answer |
| RateLimit.WaitIsExact | internal/githubapp/client.go:2807-2842 | a refusal asks for a wait exactly if it reports an exhausted limit, a delay or a secondary limit; the wait ends at the reported instant, lasts the reported seconds, or is one minute doubled with each repetition up to the fifth |
| RateLimit.CollectOnce | internal/githubapp/client.go:948-969 | one deadline is shared by all requests of a call |
| RateLimit.CallIsExact | internal/githubapp/client.go:948-969 | a call sends nothing after its first request without success, and its token was refused exactly if that one was answered with 401 and did not go to /app |
| RateLimit.SleepsFitBudget | internal/githubapp/client.go:1125-1132 | the requested sleeps of one call add up to at most the budget |
| RateLimit.OperationBound | internal/githubapp/client.go:932-946 | an operation makes a second call exactly when an app's first was ended by an answer of 401 to a request that did not go to /app, and sleeps at most one budget for each |
| RateLimit.TwiceTheBudget | internal/githubapp/client.go:932-946 | so an operation can sleep twice its budget |
| SourceIdentity.SourceIDReadsBack | internal/correlation/correlation.go:138-141 | a printed source id of a configured repository can be parsed back |
| SourceIdentity.SourceIDsAreInjective | internal/correlation/correlation.go:138-141 | two repositories the pattern accepts share a source id exactly if they and the numbers are the same |
| SourceIdentity.UnderscoreOwnersCollide | internal/config/config.go:23 | owners with an underscore would share ids, and the pattern refuses them |
| SourceIdentity.ValidateRepositories | internal/config/config.go:296-338 | accepts exactly configurations whose repositories match the pattern, do not repeat in a collection and have one casing everywhere |
| SourceIdentity.SameIdentityIff | internal/config/config.go:325-335 | two spellings are one repository exactly if they differ in the case of letters only |

## Left out

- HTTP transport, tokens, OAuth, cookies, model endpoints, telemetry, logs, pages and command line: collectors and providers are arbitrary answers.
- SQL, YAML, JSON, cron and regular-expression libraries: only the constraints the protocols rely on are kept.
- Router attempts, refresh health, snapshot limits and the `last_full_reconciliation_at` time: recorded beside the protocols, never read by them.
- Retention deletion, which removes generations of long-completed jobs and old progress rows.
- Quality assessments written with a publication, and the retained copies of closed analyses.
- Normalisation of URLs and texts before a row is written; a pull request is valid here when its number is positive and its repository matches.
- Author histories and contribution evidence, except the turn their queue takes.
- Handoff: the order in which due jobs of different pull requests are claimed is not modelled; any due and eligible job may be claimed next.
- CorrelationWorker: disabling correlation while a job is active is not modelled, nor is the wait for active refresh jobs before a claim.
- Handoff: enabling and disabling providers while jobs are active is not modelled.
- AnalysisWorker.RunJob: heads do not move inside one call, and a storage error other than a missing membership appears only as an event of Handoff.
- RefreshStore.Store.EnqueueRefreshWithForce: nobody else writes between its statements; RefreshUpgrades covers what happens otherwise.
- RefreshStore.Store.ClaimRefresh: instants are integers, so the order of stored texts within one second is not modelled here; Timestamps and PublicQueue model it.
- Progress.RecordSnapshot: a missing repository name or collection time is refused by the source and never passed by the scheduler; the arguments are present here.
- RefreshScheduler.Scheduler.ProcessPhased: the clock stands still during one unit of work; interleavings are those of RefreshRuns.
- RefreshStore.Store.ReplaceRepositorySnapshot: staged items are read as a map by number, because their order does not matter here.
- Correlation.BuildRequests: sorting, truncation of titles and the limits on files and relationships are not modelled; neither is the sorting of validated groups, members and edges.
- AnalysisResult.ValidateEvaluations: blank text is judged by ASCII white space.
- DiffEvidence.BuildEvidence: paging of the file list is not modelled; at most one hundred files arrive.
- Bounds of the analysis request, cursor paging, the cron coordinator and contribution thresholds: shallower than the parts above.
