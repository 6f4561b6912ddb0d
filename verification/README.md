# Verification model of the collection service

The service collects programming problems from Telegram channels and websites. Replicas share a job queue in PostgreSQL:
they claim leased jobs, process their sources one by one, page through Telegram history, send candidates to the `tasks`
service in batches and move a checkpoint per channel. The model covers that queue, the reader, the checkpoint rule, job
creation and URL canonicalisation, and three further cores: the text normaliser, the parser of Codeforces example
blocks, and the older collection cycle.

`dafny verify dfyconfig.toml` checks everything.

## How it is laid out

| file | models |
|---|---|
| `TelegramReader.dfy` | the page contract of the Telegram server, the paging loop of the reader, and its simple form |
| `BatchImport.dfy` | batches of candidates, the answers of `tasks`, and their accounting |
| `Checkpoints.dfy` | all interleavings of non-manual runs on one channel, as a transition system |
| `BacklogDrain.dfy` | consecutive runs over a channel that stands still |
| `SourceRun.dfy` | processing of one source, step by step, with the checkpoint it moves |
| `RunRefinement.dfy` | the steps of `Checkpoints.dfy` and the method of `SourceRun.dfy` agree |
| `QueueStore.dfy` | the queue tables and every statement on them, as functions and as methods of a class |
| `QueueMachine.dfy` | replicas on the queue as a transition system in which any worker may stop or lag behind |
| `LiveLeases.dfy`, `SingleFlight.dfy`, `LeaseExclusivity.dfy`, `CrashRecovery.dfy`, `Settlement.dfy`, `CarriedMessages.dfy` | what holds over all runs of that system, and exactly when |
| `RequeueRace.dfy`, `StaleOverwrite.dfy`, `WitnessRows.dfy` | runs in which a requeue, or a stale worker, does harm; the rows such runs start from |
| `WorkerLoop.dfy` | the job loop of one worker, statement by statement on the store |
| `JobCreation.dfy`, `WebsiteUrl.dfy`, `StringOrder.dfy` | idempotent creation, canonical URLs, sorted keys |
| `Normalizer.dfy`, `Replacing.dfy`, `Text.dfy` | the normaliser on byte strings |
| `ReaderExamples.dfy` | sections and examples of the Markdown that the Codeforces reader delivers |
| `CollectionCycle.dfy` | one cycle of the older scheduler against the repository interface |
| `Faults.dfy` | the outcomes of statements: served, refused, or carried out without an answer |
| `Sequences.dfy`, `Instants.dfy`, `Options.dfy` | filtering, sorting, prefixes; points in time; optional values |

Code that changes state is a class or a method with loops, proved equal to a function of the inputs or of the old state;
the results are lemmas about those functions and about runs of the transition systems. Each SQL statement or transaction
is one step. What may fail is a parameter of each class, one outcome for each call, so that the contracts say of every
error whether it had to be reported. Claiming a job and the read of its sources that follows it are one step of the
transition system. Strings are byte strings: one `char` stands for one byte of UTF-8.

## Where the code does not do what it is meant to

* **A message can be skipped for good.** A page of 100 entries without an ordinary message ends the paging
  (`internal/collection/telegram.go:124`), so messages below 100 consecutive service entries are not seen, and the
  checkpoint may move past them. `ReadMeetsDocumentation`, `NothingSkippedIffNoGap` and
  `BacklogDrainsIffNothingBuriedOrRejected` give the exact conditions; `GapLosesMessage` builds the run that loses one.
* **One rejected message stops a channel for good.** A run normalises all messages it has read before it sends any, and
  fails when the pipeline rejects one (`internal/collection/worker.go:207-210`); the checkpoint stays, and the next run
  reads the same messages. `RejectedMessageStalls`: while such a message is among the oldest `limit` pending ones, any
  number of runs sends nothing. A first line of more than 200 bytes, in a message of several lines, is enough: the
  normaliser makes it a title of 203 bytes (`FieldIdempotent`), which the validator refuses
  (`internal/parser/pipeline/validator.go:59-62`). `BacklogDrainsIffNothingBuriedOrRejected` is the exact condition for
  the backlog to drain, and `BacklogDrains` says how far the runs get.
* **The end of the range is rounded down** to a whole second in the request (`internal/collection/telegram.go:84`),
  while the filter uses the exact time. `ReadMeetsDocumentation` says when that matters; `RoundingLosesMessage` is an
  input.
* **More than one lease can be live.** `SKIP LOCKED` passes over a row that is being renewed, and the branch for expired
  leases is not guarded by the `NOT EXISTS` (`internal/collection/store.go:170-176`), nor is a renewal of an expired
  lease. `OneLiveIffNothingRevived` is the exact condition: at most one job has a live lease in every state of a
  behaviour if and only if no step claims an expired job, or renews an expired lease, while another lease is live.
  `SkippedRowBreaksSingleFlight` and `RequeueBreaksSingleFlight` are complete runs in which two leases are live;
  `FifoSingleFlight` adds what holds beyond that in runs without requeues and skipped rows.
* **Stale workers are not fenced.** `FinishJob` checks neither owner nor status. `HoldersOwnIffNoStaleFinish`: every
  holder of an unexpired lease owns its job throughout if and only if no job is finished while another owner holds it.
  `StaleFinishBreaksExclusivity` is a run with one such call after which two owners hold a lease on one job; exactly
  when that happens says `OneHolderIffNoHeldClaim`. Renewals are fenced: after a takeover they fail without any
  condition (`RenewalsFailAfterTakeover`).
* **A finished job need not agree with its sources.** `StartSource` and `FinishSource` check neither owner nor job.
  `SettledIffNothingUnsettles` is the exact condition over all behaviours; `StaleWorkerOverwrites` is a run that ends
  with a succeeded job whose only source failed; `OneWorkerNeverUnsettles`: one worker on a job at a time is enough.
* **An old error message survives success.** The result of a source starts as a copy of the row that the claim read
  (`internal/collection/worker.go:125`). `DeliveryKeepsMessage`: a delivered row has an empty message if and only if the
  row that was read had one; `MessageIsLastFailure` says which message it is; `SuccessKeepsOldMessage` is a run in which
  it is not empty. A source that fails before anything is sent keeps the counters of the first attempt: `ProcessSource`.
* **A truncated field is three bytes too long** (`internal/parser/pipeline/normalizer.go:101-106`): `FieldIdempotent`
  and `TruncateTwice` say exactly when a field meets its limit.
* **A canonical Codeforces URL may be refused by its collector**, exactly when the contest number does not fit an int:
  `NormalizeIsRetraction`, and `LargeContestRefused` for one with 20 digits.

## Model

| member | source | states |
|---|---|---|
| TelegramReader.Channel.GetHistory | internal/collection/telegram.go:81-91 | the server's contract: the 100 newest entries below the offset, above MinID and before the date, newest first; the history may grow before any answer; which requests fail is a parameter |
| TelegramReader.OldestOrdinaryIsLeast | internal/collection/telegram.go:95-104 | the offset of the next page is the smallest ordinary ID of this one, or 0 when all are service entries |
| TelegramReader.ScanPage | internal/collection/telegram.go:95-119 | the loop over a page appends exactly its eligible messages and finds the oldest ID and whether the page reaches before the range |
| TelegramReader.WindowBelow | internal/collection/telegram.go:81-87 | later pages see the same entries below the offset, whatever was posted since the first page |
| TelegramReader.PageCollected | internal/collection/telegram.go:113-123 | sorting and cutting after every page keeps the same items as one final cut |
| TelegramReader.HandlePage | internal/collection/telegram.go:95-127 | after a page the items are the oldest eligible ones above it; the loop stops exactly after a page that is not full, has no ordinary message or reaches before the range, and then nothing eligible is left above the horizon; else the offset moves strictly down |
| TelegramReader.ReadRange | internal/collection/telegram.go:75-141 | the paging loop ends, and returns the oldest eligible messages of the history its first page saw, above the last run of 100 service entries, though the history grows meanwhile; it fails if and only if one of its requests does, so not on an empty page, and asks for no page that cannot matter |
| TelegramReader.ReadMeaning | internal/collection/telegram.go:105-112 | what is returned are text messages from the start of the range on, before the second of its end, above `afterId` |
| TelegramReader.ReadWholeSeconds | internal/collection/telegram.go:75-138 | the fast form equals the simple form (filter all history, take `limit`) unless an eligible message is hidden; if one is, the first message returned is wrong |
| TelegramReader.ReadMeetsDocumentation | internal/collection/telegram.go:45-141 | the reader returns the oldest `limit` text messages of [from, to) if and only if none is hidden below 100 service entries and none is lost to rounding `to` |
| TelegramReader.RoundingLosesMessage | internal/collection/telegram.go:84 | an input at which the documented result is missed: a message half a second before `to` |
| BatchImport.Sink.Import | internal/collection/tasksit.go:46-52 | no candidates get an empty answer and more than 100 a refusal, both without a call; any other batch is sent once and answered |
| BatchImport.ImportCandidates | internal/collection/worker.go:256-299 | batch k is candidates 100 k up to 100 k + 99, nothing after the first failing one is sent, and all are sent on success; the counts are those of the specification, and the numbers of items with each status in the replies to the batches sent |
| BatchImport.CountAnswers | internal/collection/worker.go:269-290 | the loop over one answer stops at the first item that fails |
| BatchImport.TallyMeaning | internal/collection/worker.go:256-299 | on every return path imported, duplicates and invalid are the numbers of items received with that status, and the accepted candidates are the ones the imported and duplicate items name, in order, the last one where several share an ID: of all items of all batches on success, of those before the failing one otherwise; each failure is reported if its cause occurred and at the first cause |
| BatchImport.AcceptedAreImportedOrDuplicate | internal/collection/worker.go:263-298 | on every return path the accepted candidates number imported plus duplicates and are candidates |
| BatchImport.SuccessSettlesEveryCandidate | internal/collection/worker.go:263-298 | on success the answer to its own batch settled every candidate |
| BatchImport.CountsAddUp | internal/collection/worker.go:263-298 | if each item is answered exactly once, imported, duplicates and invalid add up to the candidates |
| Checkpoints.Latest | internal/collection/worker.go:158-163 | the accepted candidate with the largest message ID |
| Checkpoints.WindowIsSlice | internal/collection/telegram.go:81-87 | what a run may see is a contiguous part of the history |
| Checkpoints.InRange | internal/collection/worker.go:184-197 | with `min(checkpoint date, published_from)` every relevant message between start and a returned one is in range |
| Checkpoints.OldestFirst | internal/collection/telegram.go:120-138 | whatever precedes a returned message above the horizon is returned too |
| Checkpoints.BatchAnswered | internal/collection/worker.go:264-295 | a batch without failure leaves every candidate up to its end answered |
| Checkpoints.CoveredUpToCandidate | internal/collection/worker.go:157-169 | once all candidates of a run are settled, so is everything relevant up to any of them |
| Checkpoints.StepKeepsInv | internal/collection/worker.go:143-215 | every step of every run, stale ones included, keeps the invariant |
| Checkpoints.NoMessageSkipped | internal/collection/worker.go:143-215 | in every state of every interleaving all relevant messages at or below the checkpoint are answered, unless the history has a dangerous gap |
| Checkpoints.GapLosesMessage | internal/collection/telegram.go:124-126 | every dangerous gap, one above which the first text message passes the pipeline, has a run that moves the checkpoint past an unanswered message |
| Checkpoints.NothingSkippedIffNoGap | internal/collection/store.go:371-381 | over the runs that end with a history, nothing is ever skipped if and only if it has no dangerous gap: a relevant message, 100 service entries above it, and above those a first text message that the pipeline accepts |
| BacklogDrain.PassTakesOldest | internal/collection/worker.go:184-212 | once it ends after everything, a run reads the oldest `limit` pending messages, whatever its range, and hands them on unless the pipeline rejects one of them; then it hands on nothing |
| BacklogDrain.AllAccepted | internal/collection/worker.go:263-298 | without failures and invalid items every candidate is among the accepted |
| BacklogDrain.CheckpointAtLast | internal/collection/worker.go:157-169 | then the checkpoint moves to the last item of the run |
| BacklogDrain.BacklogAfter | internal/collection/store.go:356-381 | the backlog of the next run is what this one left |
| BacklogDrain.BacklogDrains | internal/collection/worker.go:124-215 | n runs with limit L send the backlog oldest first in chunks of L, each message once, up to the chunk with the first rejected message, and nothing from there on; the checkpoint stands at the last one sent; without a rejected message, after n * L messages that is the newest of the backlog |
| BacklogDrain.RejectedMessageStalls | internal/collection/worker.go:207-210 | while a message that the pipeline rejects is among the oldest `limit` pending ones, any number of runs sends nothing and the checkpoint stays |
| BacklogDrain.BuriedNeverSent | internal/collection/telegram.go:124-126 | a message below 100 service entries is never sent by any number of such runs |
| BacklogDrain.BacklogDrainsIffNothingBuriedOrRejected | internal/collection/worker.go:124-215 | enough runs send exactly the backlog if and only if no pending message is buried and the pipeline rejects none |
| SourceRun.CheckpointTable.Put | internal/collection/store.go:371-381 | the upsert only moves forward; an error may hide a written row, and none is reported without a failing statement |
| SourceRun.NormalizeAll | internal/collection/worker.go:201-212 | one message that the pipeline rejects fails the whole source |
| SourceRun.CollectTelegram | internal/collection/worker.go:178-215 | candidates of exactly the messages the reader returned for the range and checkpoint of the job; each problem is reported if and only if its cause occurred: no range, a checkpoint that a job that is not manual could not read, a failing request, or a rejected message |
| SourceRun.ManualIgnoresCheckpoint | internal/collection/worker.go:183-197 | a manual job reads its range from the first message on, whatever the checkpoint |
| SourceRun.ManualJobItems | internal/collection/worker.go:183-197 | when nothing is hidden these are the oldest `limit` text messages of its range, whatever the checkpoint |
| SourceRun.OthersStartAtCheckpoint | internal/collection/worker.go:185-196 | any other job reads after the message of the checkpoint, and from its date if that is before the range |
| SourceRun.CollectWebsite | internal/collection/worker.go:217-229 | one page gives one candidate, identified by its URL; a page that cannot be read and one that the pipeline rejects are told apart, and both give no candidate |
| SourceRun.LatestOf | internal/collection/worker.go:158-163 | the loop finds the accepted candidate with the largest message ID |
| SourceRun.SendCandidates | internal/collection/worker.go:142-175 | import, checkpoint and status of a source that was collected; each problem is reported if and only if its cause occurred, and the checkpoint is written if and only if it is to be and the statement is carried out |
| SourceRun.ProcessSource | internal/collection/worker.go:123-176 | the source is delivered exactly when every step went well, each problem is reported with its cause, and a failure before anything was sent keeps counters and checkpoint; the checkpoint moves only for a Telegram source of a job that is not manual, after everything was settled and something accepted, to the latest accepted message |
| SourceRun.ResultMeaning | internal/collection/worker.go:123-176 | a result keeps the identity of the source; a delivered one comes with candidates that were collected from the checkpoint and the history of the channel meanwhile, or from the page, and that the pipeline accepted |
| SourceRun.DeliveredIsSettled | internal/collection/worker.go:142-175 | the replies it got settled a delivered result candidate by candidate |
| SourceRun.StoredCounts | internal/collection/worker.go:142-151 | the counters in the row, of a delivered source and of one that failed late: the candidates, and the items of the replies with each status, up to the failing one if there is one |
| SourceRun.StatusMeaning | internal/collection/worker.go:157-175 | a succeeded source has handed on its whole range and all of it is settled; a truncated one the oldest `limit` of at least as many |
| RunRefinement.FinishIsProcessSource | internal/collection/worker.go:142-169 | in every interleaving a run that finishes has counted, import by import, what importCandidates counts for the same replies, and moves the checkpoint as processSource does |
| RunRefinement.ProcessSourceIsRun | internal/collection/worker.go:123-176 | begun at any reachable state and left alone, a non-manual Telegram source is a run that reads the same messages and leaves the same checkpoint, also when the pipeline rejects one and it gives up |
| QueueStore.SumAnyOrder | internal/collection/store.go:330-331 | the sums of the aggregate are those of the four counters and do not depend on the order of the rows |
| QueueStore.Aggregate | internal/collection/store.go:330-333 | one pass over the rows of a job yields the sums and counts of the aggregate query |
| QueueStore.FinishedColumns | internal/collection/store.go:324-333 | FinishJob: errors is the number of failed sources, the status says whether none, all that have an outcome or some of them failed, the message whether any did; the lease is given up and every other column kept |
| QueueStore.Store.Claim | internal/collection/store.go:155-198 | takes the first claimable row that is not locked, in order of creation and ID; nothing if and only if there is none, the advisory lock is taken or the transaction is refused; an unreported commit or a failing read after it leaves the job claimed although no caller gets it; an error if and only if a statement failed |
| QueueStore.Store.Renew | internal/collection/store.go:201-212 | extends the lease exactly when the caller owns the running job and the statement is carried out; succeeds exactly when it was also answered |
| QueueStore.Store.Requeue | internal/collection/store.go:215-240 | resets failed sources and the job, or changes nothing unless the job is failed; fails if and only if the job is not failed or the statement was not served |
| QueueStore.Store.Acknowledge | internal/collection/store.go:341-353 | succeeds exactly for the user who asked for a job that is terminal, and changes nothing but the acknowledgement |
| QueueStore.Store.Start | internal/collection/store.go:302-309 | of the whole store only the status of one source changes, to running: no job, no other source, and not the identity, counters or message of that one; whoever calls; an error if and only if the statement failed |
| QueueStore.Store.SaveResult | internal/collection/store.go:313-321 | the row of one source gets exactly the given status, counters and message and keeps its identity; no job and no other source changes, whoever calls; an error if and only if the statement failed |
| QueueStore.Store.Finish | internal/collection/store.go:324-339 | writes the aggregate and gives up the lease; a job without sources is left alone; an error if and only if the statement failed |
| LiveLeases.StepKeepsOneLiveIff | internal/collection/store.go:170-212 | one step from a state with at most one live lease: it stays that way if and only if the step is no claim of an expired job and no renewal of an expired lease while another lease is live |
| LiveLeases.OneLiveIffNothingRevived | internal/collection/store.go:170-212 | over every behaviour, requeues, skipped rows and stale workers included: at most one live lease in every state if and only if no step revives an expired job beside a live one |
| SingleFlight.ClaimTakesNext | internal/collection/store.go:170-176 | a claim that skips no claimable row takes the oldest unfinished job |
| SingleFlight.StepKeepsInv | internal/collection/store.go:155-339 | finished jobs, then at most one running, then queued ones, in order of creation, is kept by every statement, stale renewals and finishes included |
| SingleFlight.FifoSingleFlight | internal/collection/store.go:155-339 | without requeue and skipped rows at most one job runs at any time, it is older than every queued one, and jobs are first claimed and first finished in creation order |
| SingleFlight.SkippedRowBreaksSingleFlight | internal/collection/store.go:170-176 | one skipped row is enough for two live leases: a complete run |
| RequeueRace.RequeueBreaksSingleFlight | internal/collection/store.go:170-176 | one requeue, with everything else in order, is enough for two live leases: a complete run |
| LeaseExclusivity.StepKeepsInvIff | internal/collection/store.go:155-339 | one step keeps every unexpired lease backed by the row of its job if and only if it is not a FinishJob of a job with sources that another owner holds |
| LeaseExclusivity.HoldersOwnIffNoStaleFinish | internal/collection/store.go:155-339 | over every behaviour: each holder of an unexpired lease owns its running job in every state if and only if no such FinishJob occurs |
| LeaseExclusivity.HolderOwns | internal/collection/store.go:170-212 | without such a FinishJob whoever holds an unexpired lease owns the running row, and nobody can claim it |
| LeaseExclusivity.OneHolderPerJob | internal/collection/store.go:170-212 | without such a FinishJob two owners never both hold an unexpired lease on one job, and every renewal by another owner changes nothing |
| LeaseExclusivity.OneHolderIffNoHeldClaim | internal/collection/store.go:155-339 | over every behaviour: no job has two holders of unexpired leases in any state if and only if no job is claimed while the lease of another owner on it has not run out |
| LeaseExclusivity.RenewalsFailAfterTakeover | internal/collection/store.go:201-212 | in any behaviour, from a claim by another owner on until the old owner claims the job again, every renewal by the old owner changes nothing, through expiry, finish and requeue |
| LeaseExclusivity.StaleFinishBreaksExclusivity | internal/collection/store.go:324-339 | one FinishJob by a worker that lost its lease, and a requeue, give two holders: a complete run |
| LeaseExclusivity.SlackCoversLostTick | internal/collection/worker.go:104-108 | the granted seconds outlast the ticker interval exactly for leases of at least 1 s; from 3 s on one lost tick is harmless |
| LeaseExclusivity.IntervalMeaning | internal/collection/worker.go:104-109 | the ticker runs at a third of the lease, from three seconds on, and at one second below; a grant is the lease in whole seconds |
| LeaseExclusivity.TimelyRenewalKeepsJob | internal/collection/worker.go:103-121 | from its claim on, while no other worker finishes this job, a worker whose renewals come at most the slack late owns the job, and nobody can claim it until it finishes |
| CrashRecovery.AllHaveOutcome | internal/collection/worker.go:84-95 | when the loop is through, every source of the job has an outcome |
| CrashRecovery.FailedOrDelivered | internal/collection/store.go:332 | failed and delivered sources together are all of them |
| CrashRecovery.StepKeepsInv | internal/collection/worker.go:70-101 | with one worker on a job at a time every statement, crash and reclaim keeps the invariant |
| CrashRecovery.FinishedJobIsSettled | internal/collection/store.go:324-333 | a finished job, however often interrupted: all sources have an outcome, totals are sums, errors and successes add up, status says exactly none, all or some failed, the lease is gone |
| Settlement.StepKeepsSettledIff | internal/collection/store.go:302-339 | one step keeps every finished job in agreement with its sources if and only if it does not start a source of a finished job, store another result for one, or finish a job with a source that has no outcome |
| Settlement.SettledIffNothingUnsettles | internal/collection/store.go:302-339 | over every behaviour, stale workers included: finished jobs agree with their sources in every state if and only if no step is of these three kinds |
| Settlement.FinishedJobMeaning | internal/collection/store.go:324-333 | what agreement means for outcomes, totals, errors and status, in any behaviour up to the first such step |
| Settlement.OneWorkerNeverUnsettles | internal/collection/worker.go:70-101 | with one worker on a job at a time there is no such step |
| StaleOverwrite.StaleWorkerOverwrites | internal/collection/store.go:302-321 | a complete run in which a worker that lost its lease overwrites a source of a succeeded job: job succeeded, only source failed |
| CarriedMessages.DeliveryKeepsMessage | internal/collection/worker.go:125-175 | saving the result of a source that goes well leaves a delivered row whose message is empty if and only if that of the row the claim read was |
| CarriedMessages.MessageIsLastFailure | internal/collection/worker.go:70-101 | with one worker on a job at a time the message of a source is that of its last failed attempt since its creation or requeue, whatever its status |
| CarriedMessages.SuccessKeepsOldMessage | internal/collection/worker.go:125-175 | a complete run: a failed source, a crash before FinishJob, a second claim, success, and the old message is still there |
| CrashRecovery.DeliveredStays | internal/collection/worker.go:84-94 | a source recorded succeeded or truncated is never processed again and its row never changes |
| CrashRecovery.AllFailed | internal/collection/store.go:327 | a failed job has only failed sources |
| CrashRecovery.RequeueRestoresCreation | internal/collection/store.go:215-240 | requeueing a failed job puts back exactly what its creation inserted, except an acknowledgement |
| CrashRecovery.StartTimeKept | internal/collection/store.go:186 | only a requeue takes back the start time of a job |
| WorkerLoop.ListSources | internal/collection/store.go:383-405 | lists every row of the job once, in the order of their IDs |
| WorkerLoop.ProcessOne | internal/collection/worker.go:88-94 | the row ends as a result of processSource on the row that was read: with the replies to this source, the pipeline, the page or the history and checkpoint of its channel; no other channel is asked and no other checkpoint touched; after a failing statement the row is as it was, merely started, or such a result whose storing went unreported, according to which statement failed and how |
| WorkerLoop.ProcessAll | internal/collection/worker.go:84-95 | the loop leaves delivered sources and other jobs alone and makes every other source of the job such a result; it fails if and only if a statement does, and then stops there: what comes before is handled, what comes after is as it was read |
| WorkerLoop.RunJob | internal/collection/worker.go:84-98 | a run in which every statement is served ends with the job settled and every source delivered before or bearing such a result; after a failing statement on a source FinishJob is not issued and no job row changes; a failing FinishJob changes no job row unless it was carried out without an answer |
| WorkerLoop.RunNext | internal/collection/worker.go:69-101 | one call claims at most one job, the first claimable one, and settles it, every source handled, or a statement failed; then the row is the one the claim wrote: running, owned by this owner, expiring a lease from the claim, start time kept, unless FinishJob was carried out without an answer |
| WorkerLoop.ClaimableOnceExpired | internal/collection/store.go:170-186 | a job that was left so can be claimed again from the expiry of that lease on, and not before |
| JobCreation.Validate | internal/collection/models.go:127-165 | accepts exactly the valid inputs; channel names are compared without surrounding spaces and a leading @ |
| JobCreation.ChannelNameMeaning | internal/collection/models.go:153 | white space around a name and one @ in front of it are dropped, and nothing else |
| JobCreation.CollectPages | internal/collection/store.go:58-76 | the loop collects each canonical page at its first occurrence, or fails at a rejected URL |
| JobCreation.CanonicalUrlIsPage | internal/collection/store.go:58-76 | canonical URLs stand for pages one to one, so collecting by URL is collecting by page |
| JobCreation.ManualSourcesWellFormed | internal/collection/store.go:47-76 | a valid input has at least one source, its website sources are the distinct canonical pages in order of first occurrence, and the uniqueness constraint holds if and only if no channel is named twice |
| JobCreation.JobTable.Create | internal/collection/store.go:124-152 | inserts job and sources, or returns the job with that key, or fails and leaves nothing half done; a job is returned if and only if both statements are served and no constraint is violated, and inserted if and only if the key is unused, no constraint is violated and the transaction is carried out |
| JobCreation.SubmitManual | internal/collection/store.go:34-87 | a manual call is one creation step with the sources of its input, and fails without a statement if a URL is rejected, otherwise if and only if that creation does |
| JobCreation.EnqueueScheduled | internal/collection/scheduler.go:119-130 | a tick is one creation step with the key of its minute and the 31 days before it, and fails if and only if that creation does |
| JobCreation.EnqueueBootstrap | internal/collection/scheduler.go:82-117 | nothing when a checkpoint cannot be read or no channel is without one; else one creation step, and if the job it returns has failed, either that job is queued afterwards or an error is reported; each of the three errors is reported if and only if its cause occurred |
| JobCreation.MissingMeaning | internal/collection/scheduler.go:84-93 | each channel is missing as often as it is named and has no checkpoint |
| JobCreation.JobIsFirstCommitted | internal/collection/store.go:124-152 | every job goes back to the first committed call with its key and keeps its parameters and sources |
| JobCreation.OneJobPerKey | migrations/002_collection_jobs.sql:27 | over any sequence of calls from any replicas a key has one job, that of the first committed call, and every call that returns, returns it |
| JobCreation.ScheduledKeyPerMinute | internal/collection/scheduler.go:121-122 | a tick shares the key of another one if and only if it falls into the same minute of 60 seconds |
| JobCreation.SlotMeaning | internal/collection/scheduler.go:121 | the slot of a tick is the one minute that has begun and not ended |
| JobCreation.BootstrapKeyIsChannelSet | internal/collection/scheduler.go:99-101 | the bootstrap key is determined by the missing channels, not by their order, and determines them |
| StringOrder.OrderMeaning | internal/collection/scheduler.go:99 | the order of the sort: a proper prefix comes first, otherwise the first difference decides |
| WebsiteUrl.ScanSlug | internal/collection/models.go:211-223 | the scan accepts exactly non-empty strings of letters, digits, hyphen and underscore |
| WebsiteUrl.ScanDigits | internal/collection/models.go:225-237 | the scan accepts exactly non-empty strings of digits |
| WebsiteUrl.SplitUrlPath | internal/collection/models.go:199-209 | the loop collects the non-empty segments in order |
| WebsiteUrl.SegmentsConcat | internal/collection/models.go:199-209 | segments of a concatenation; doubled and trailing slashes make no difference |
| WebsiteUrl.ParseWritten | internal/collection/models.go:169-176 | any writing of an https URL by RFC 3986 section 3 is taken apart into host and decoded path |
| WebsiteUrl.WrittenVariants | internal/collection/models.go:168-176 | the result depends only on the host without "www." and the decoded segments |
| WebsiteUrl.AcceptedIsWritten | internal/collection/models.go:168-197 | the converse: only a URL written so is accepted, so it is https, has no user and no port, and its host is one of the three, with or without "www." |
| WebsiteUrl.WwwMeaning | internal/collection/models.go:175 | one leading "www." is dropped, and a host without it is kept |
| WebsiteUrl.WwwVariants | internal/collection/models.go:174-175 | a URL with "www." in any letter case before the host gives what the URL without it gives |
| WebsiteUrl.AcceptedForms | internal/collection/models.go:178-196 | host and segments are accepted if and only if they have one of the five forms |
| WebsiteUrl.UnescapeEscape | internal/collection/models.go:169 | percent-decoding by section 2.1 of RFC 3986 undoes encoding with capital or small digits |
| WebsiteUrl.MalformedEscape | internal/collection/models.go:169-171 | a percent sign without two hexadecimal digits makes decoding fail |
| WebsiteUrl.CodeforcesVariants | internal/collection/models.go:179-185 | contest and problem-set form and letter case of the index give one result |
| WebsiteUrl.LeetcodeVariants | internal/collection/models.go:186-189 | with or without "description" and in any letter case the result is one |
| WebsiteUrl.CoderunVariants | internal/collection/models.go:190-193 | letter case of the slug makes no difference |
| Text.LetterCase | internal/collection/models.go:170-175 | lower case moves the 26 capital letters to the same place of the small alphabet and keeps every other byte |
| WebsiteUrl.NormalizeIsRetraction | internal/collection/models.go:168-197 | an accepted URL maps to one that maps to itself with the same source and passes the collector's checks, for Codeforces if and only if the contest number fits an int |
| WebsiteUrl.LargeContestRefused | internal/parser/source/codeforces/codeforces.go:159-170 | an input at which the collector fails: a canonical URL with a contest number of 20 digits |
| WebsiteUrl.CanonicalCollected | internal/parser/source/codeforces/codeforces.go:159-170 | the path checks of the three collectors accept the canonical segments |
| WebsiteUrl.OneUrlPerPage | internal/collection/models.go:178-194 | two accepted URLs get one canonical URL if and only if they name the same page |
| Normalizer.NormalizeMarkdownHeaders | internal/parser/pipeline/normalizer.go:77-89 | the loop rewrites exactly the header lines |
| Normalizer.HeaderMeaning | internal/parser/pipeline/normalizer.go:77-89 | a header line of level three or deeper keeps its indentation and title; two number signs are left, and the spaces before the title are gone |
| Normalizer.HeadersFlat | internal/parser/pipeline/normalizer.go:83-86 | afterwards no line is a header of level three or deeper |
| Normalizer.HeadersByLine | internal/parser/pipeline/normalizer.go:79-83 | having such a header as a text and having such a line are the same |
| Replacing.NothingNew | internal/parser/pipeline/normalizer.go:92-98 | replacing creates no word without asterisks and leaves none of the replaced word |
| Normalizer.UnifyCleans | internal/parser/pipeline/normalizer.go:91-98 | after the four replacements neither Russian word with its colon is left |
| Normalizer.UnifyMeaning | internal/parser/pipeline/normalizer.go:91-98 | from left to right: text in which neither word begins is copied, the word for input becomes "**Input:**" and the one for output "**Output:**", and so do the bold words unless what follows runs into their asterisks |
| Normalizer.TruncateTwice | internal/parser/pipeline/normalizer.go:100-106 | truncating twice is truncating once; a truncated field has three bytes more than its limit |
| Normalizer.DescriptionIdempotent | internal/parser/pipeline/normalizer.go:34-61 | normalising a description twice is normalising it once, also when it was truncated |
| Normalizer.DescriptionUnchanged | internal/parser/pipeline/normalizer.go:34-61 | a description without white space at its ends, deep headers and Russian words, within its limit, is kept as it is |
| Normalizer.DescriptionContents | internal/parser/pipeline/normalizer.go:77-98 | no line of the result starts with "###" and neither Russian word is in it |
| Normalizer.FieldIdempotent | internal/parser/pipeline/normalizer.go:35-62 | title and URL: twice is once, and the field meets its limit if and only if the trimmed input does |
| Normalizer.FieldMeaning | internal/parser/pipeline/normalizer.go:35-62 | of a field white space at both ends is dropped, and of a longer one than its limit the first bytes are kept with three dots |
| Normalizer.ExamplesIdempotent | internal/parser/pipeline/normalizer.go:46-49 | filtering the examples twice is filtering once |
| Normalizer.ExamplesMeaning | internal/parser/pipeline/normalizer.go:46-49 | an example is kept if and only if neither its input nor its output is white space only |
| Normalizer.ConstraintsIdempotent | internal/parser/pipeline/normalizer.go:64-72 | cleaning the constraints twice is cleaning once |
| Normalizer.TagsNormalised | internal/parser/pipeline/normalizer.go:51-57 | tags come out without duplicates, as the same set, ordered by lower case; a second run changes nothing when no two share a lower-case form |
| Normalizer.TagsFixedIff | internal/parser/pipeline/normalizer.go:51-57 | the unstable sort leaves only one result if and only if no two different tags share a lower-case form |
| Normalizer.CleanConstraints | internal/parser/pipeline/normalizer.go:64-72 | the loop keeps the trimmed non-empty constraints in order |
| Text.CompactMeaning | internal/parser/pipeline/normalizer.go:64-72 | cleaning is trimming each and leaving out the empty ones |
| Text.TrimSpaceMeaning | internal/parser/pipeline/normalizer.go:35-38 | trimming drops white space at both ends, all of it and nothing else |
| Normalizer.Task.Process | internal/parser/pipeline/normalizer.go:30-75 | every field after normalisation as a function of the field before |
| ReaderExamples.ParseReaderExamples | internal/parser/source/codeforces/codeforces.go:447-482 | the nested loops on one index end and yield what the recursive form yields |
| ReaderExamples.ParseRendered | internal/parser/source/codeforces/codeforces.go:447-482 | rendering any list of well-formed examples, with or without "Copy" lines, and parsing it gives the list back |
| ReaderExamples.NoteEndsExamples | internal/parser/source/codeforces/codeforces.go:447-482 | a note after the rendered examples ends the last one, and what follows it without a heading for input adds none |
| ReaderExamples.ParseRenderedIff | internal/parser/source/codeforces/codeforces.go:447-482 | a rendered list of examples is read back if and only if the lines of each avoid the markers and no part is blank |
| ReaderExamples.ExamplesAreSlices | internal/parser/source/codeforces/codeforces.go:459-477 | on any lines every input and output is the join of a slice; the slices do not overlap, stand in order and hold no marker that would have ended them |
| ReaderExamples.CompactMarkdown | internal/parser/source/codeforces/codeforces.go:484-494 | the loop keeps the trimmed non-empty lines in order |
| ReaderExamples.IndexOf | internal/parser/source/codeforces/codeforces.go:496-505 | the first line from `start` on that equals the word up to case, or -1 when there is none |
| ReaderExamples.IndexAfter | internal/parser/source/codeforces/codeforces.go:507-515 | the position after the first such line unless it is the last |
| ReaderExamples.ParseReaderMarkdown | internal/parser/source/codeforces/codeforces.go:354-387 | all slices are in range; title, statement and examples come from disjoint parts of the lines, and the constraints are the two limit lines |
| ReaderExamples.AfterMarkerMeaning | internal/parser/source/codeforces/codeforces.go:356-358 | what follows the first "Markdown Content:"; a text without it is kept as it is |
| ReaderExamples.LimitMeaning | internal/parser/source/codeforces/codeforces.go:374-379 | a limit is the line after the first line with its heading, and there is none without such a line |
| ReaderExamples.FoldMeaning | internal/parser/source/codeforces/codeforces.go:497-505 | an ASCII line matches a heading if and only if they differ in letter case only |
| ReaderExamples.FoldBeyondAscii | internal/parser/source/codeforces/codeforces.go:497-505 | the long s matches s and the Kelvin sign matches k |
| ReaderExamples.SectionsUnique | internal/parser/source/codeforces/codeforces.go:364-372 | the lines can be divided in one way only |
| ReaderExamples.PageRoundTrip | internal/parser/source/codeforces/codeforces.go:354-387 | a page put together from head, statement and examples gives back statement and examples |
| ReaderExamples.PlainPage | internal/parser/source/codeforces/codeforces.go:364-384 | a page without "stdout" starts after its title, and one without "Examples" is statement to its end and has no examples |
| CollectionCycle.SaveIfNotDuplicate | internal/parser/storage/repository.go:39-64 | saves exactly tasks whose hash is not stored, filling a missing hash first; which of the two calls fails, and how, decides about errors, and only that |
| CollectionCycle.HashMeaning | internal/parser/storage/repository.go:42-45 | a given hash is kept; only without one the content decides |
| CollectionCycle.RunOnce | internal/parser/scheduler.go:54-138 | the counters of the summary are those of what became of the raw tasks, up to the first one before which the context was cancelled; the save errors are as many as the failing calls |
| CollectionCycle.AllTasksMeaning | internal/parser/scheduler.go:67-81 | every source that delivered contributes its tasks, in place, and a failed one nothing |
| CollectionCycle.FailedSourcesMeaning | internal/parser/scheduler.go:68-76 | the errors counted while gathering are the sources that failed |
| CollectionCycle.Conservation | internal/parser/scheduler.go:66-124 | collected tasks and failed sources equal saved, duplicates and errors, up to the tasks a cancelled cycle did not reach |
| CollectionCycle.SavedAreDistinctNewHashes | internal/parser/storage/repository.go:41-64 | without a save error that left a problem out, those stored are as many as the distinct hashes that were not stored before |
| CollectionCycle.SecondCycleSavesNothing | internal/parser/scheduler.go:90-124 | a second cycle over the same raw tasks saves nothing and changes nothing |

## Left out

- HTTP handlers, authorisation and JSON decoding; container, configuration and shutdown.
- Fetching pages and APIs, HTML extraction, rate limits and the MTProto client: only the page contract of the history request is modelled.
- Session, authorisation and resolving of a channel before its first history request; a failure there reads as one of that request.
- Text and link of a Telegram message: of a message only ID, date and whether its text is blank matter here.
- What the pipeline does to a text outside the normaliser (regular expressions, classifier, difficulty, validator): whether it accepts a message is a parameter.
- Retry and backoff of the client of the `tasks` service; a call answers or fails.
- SHA-256, random UUIDs and `uuid.NewSHA1`: functions or fresh numbers, injective only where keys must differ.
- The PostgreSQL repository behind the older scheduler and its generated queries; only the interface is modelled.
- Edits and deletions in Telegram history; the history only grows, and dates never decrease as IDs grow.
- Different clocks on different replicas: there is one clock that never goes back, and a statement happens at one instant.
- Lock races other than skipped rows: a claim may skip any set of rows that others hold, a renewal never waits.
- A job that is read by a claim after another replica has changed it: claim and read are one step.
- Internationalised and bracketed host names in website URLs: such URLs are rejected here, and so they are by the host list, except that a bracketed known host is accepted by some versions of the standard library.
- Unicode case mapping outside ASCII in hosts, slugs and markers, except the two characters that fold to ASCII letters in markers; lower case of tags is a parameter.
- The fields of a candidate that neither batching nor the checkpoint looks at.
- BacklogDrains: takes for granted that no pending message is buried, that every run ends after the newest entry, that the pipeline decides about a message in the same way each time, and that without a checkpoint the runs start where the backlog does; BacklogDrainsIffNothingBuriedOrRejected shows the first condition necessary.
- CollectWebsite: whether a page can be read, and whether the pipeline accepts it, are parameters, and the candidate has neither source name nor content.
- FifoSingleFlight: assumes no requeue, strictly increasing creation times and no skipped claimable row; what holds without them is OneLiveIffNothingRevived, and the order of jobs of one instant is that of random IDs.
- FinishedJobIsSettled: assumes one worker on a job at a time; SettledIffNothingUnsettles and FinishedJobMeaning give the exact condition without that.
- RunJob: takes for granted that a job names a channel once, which the unique key of its sources and the empty URL of a channel give.
- ProcessSourceIsRun: the checkpoint alone is compared, of a run that nobody interrupts; FinishIsProcessSource covers every interleaving.
