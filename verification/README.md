# Voice recording service: verified protocol model

The service takes audio uploads, transcribes and summarizes them, and serves the results. Many API
requests and many workers share one MySQL database and one audio directory. This project models
their protocol in Dafny and proves what it keeps, over every run, under crashes between any two
steps, stale lease snapshots, lost commit replies and concurrent equal uploads.

## How it is built

One machine, three views of it:

- **The atomic machine** (`System`). A `World` holds the two tables, the audio directory, the clock
  and some history nobody can read. `Next` runs one transaction or one file operation; `Run` runs any
  list of them. A COMMIT can land, roll back, land and report an error, or report an error and land
  later or never (`LandLate`). An unlink or a lookup can fail. An upload or deletion can stop at any
  step. Every invariant and every law over runs is proved here: `Rows` (row shape, deadlines),
  `Fencing`, `History`, `Journal`, `Transcripts`, `Chain` (manual retries), `Files`, `Safety`, `Queries`
  (pollers, pages), `Heartbeats`.
- **The lock machine** (`Locks`). The same transactions, cut at every record lock, at the clock
  reading and at the commit, interleaved in any order. It reaches what the atomic machine reaches in
  commit order, and cannot deadlock. Hence the laws hold for it too.
- **The programs** (`Store`, `Queue`, `Uploads`, `Deletions`, `Retries`, `Workers`). Classes whose
  methods follow the source statement by statement. Each transaction is proved to be one `Next` step;
  between two of them `Store.Interfere` lets everybody else do anything at all, so each longer
  operation is proved to be a `Run`. `Discipline` reads off such a run what one execution of a task
  wrote in it, and what follows for a service of many. `Scenarios` holds the runs that show where two
  promises fail.

`TaskRow` is the life of one task row, `Backoff` the arithmetic of the retries, `Shapes` the closed
forms of the steps, `Ordering` the sort order of the queries. `Storage` and `Migration` stand beside
the machine: writing and auditing the directory, and the hash backfill.

## Assumptions

- The database clock never goes backwards. A transaction reads it after it got its recording's lock
  (`TimeOk`). `claim` evaluates eligibility and reads `now` in two statements; the model uses one
  reading. A row that is eligible at the first is eligible at the second (`History.EligibleStays`),
  so nothing the code does is missing.
- UUIDs are fresh: storage keys, row ids and lease tokens are never issued twice.
- All processes share one lease length and one backoff base, both positive.
- A digest stands for SHA-256 of the content; equal digests are taken for equal content, as the code
  does.
- The heartbeat loop's own clock runs like the database clock; time it oversleeps counts as part of
  its transaction.
- A lease token is known only to the execution it was handed to.
- Nobody edits the database or the directory from outside.
- Only record locks on recordings and tasks exist in the lock machine.

## Where the code is weaker than one might think

- **Backoff.** `timedelta` rounds every delay to microseconds, so a task may be given up as much as
  1.5 microseconds sooner than seven bases after its start. No run of the service does so if and only
  if the fraction of a microsecond in the base, with the parity of its whole part at one half, is one of
  those in `Backoff.Enough`, zero among them (`Scenarios.SevenBasesHoldExactly`). For every other base there is a run that does
  (`Scenarios.ShortestFailure`); 0.3 microseconds is one (`Backoff.RoundingCanShorten`).
- **Heartbeats.** A lease of three intervals is not kept alive by renewals that each return in less
  than two intervals from their wake-up: a late reply followed by a late clock reading lets another
  worker claim the task (`Scenarios.LateReplyThenLateReading`). In any run no renewal is refused if
  and only if each reads the clock before the end of the lease as last extended, by the claim, a
  renewal or the persisted transcript (`Heartbeats.NeverRefusedExactly`). A configuration rules out
  the loss in all runs if and only if the lease is longer than the interval plus two of the longest
  transactions (`Scenarios.LeasesSurviveExactly`): for transactions shorter than two intervals, a
  lease of more than five intervals less two microseconds (`Scenarios.TwoIntervalsNeedFive`).
- **Uncertain commits.** That a lookup finds no rows does not show that the COMMIT failed. The rows
  can still appear, so the file has to stay (`Safety.UncertainFileIsNeeded`).

## Model

| member | source | states |
|---|---|---|
| Backoff.DelayMonotone | app/processing/queue.py:195-199 | delays are non-negative and grow with the retry count |
| Backoff.WaitedGeometric | app/processing/queue.py:195-199 | the first n retries wait base * (2^n - 1) in all, up to half a microsecond each |
| Backoff.WaitedExact | app/processing/queue.py:195-199 | a base of whole microseconds is never rounded: the sum is exactly base * (2^n - 1) |
| Backoff.SevenBasesExactly | app/processing/queue.py:195-199 | the three rounded delays reach seven bases if and only if the base's fraction of a microsecond is one of those in `Enough` |
| TaskRow.RowKept | app/processing/queue.py:84-229 | every accepted claim, renewal, persist, completion and failure keeps the row shape and its deadline arithmetic |
| TaskRow.ClaimsCounted | app/processing/queue.py:84-229 | one write changes the number of claims a row accounts for by one if it is a claim and by zero otherwise |
| TaskRow.WorkShrinks | app/processing/queue.py:157-222 | every accepted transcript, completion or failure uses up a stage or a retry |
| Shapes.RecordingShape | app/services/deletions.py:20-48 | a recording row only ever changes by being marked, disappears only in the second delete transaction, and appears only in an upload's insert |
| Shapes.DiskShape | app/storage.py:107-111 | a final file name that is gone never comes back |
| Rows.RowsKept | app/processing/queue.py:43-229 | every step of anybody keeps every row well formed and changes each row only by a granted write, birth, or vanishing with its recording |
| Rows.RowsAlways | app/processing/queue.py:43-229 | every row is well formed after every run |
| Fencing.OwnershipIsInherited | app/processing/queue.py:120-144 | an issued token that passes the write gate after a step passed it before |
| Fencing.DeadForever | app/processing/queue.py:120-144 | a token that cannot pass the gate never passes it again, in any run |
| Fencing.FailedGateKills | app/processing/queue.py:136-143 | failing the gate once is the proof of being dead |
| Fencing.ClaimSupersedes | app/processing/queue.py:93-95 | a new claim kills every token issued for the task before |
| Fencing.LateCallChangesNothing | app/processing/queue.py:147-222 | a heartbeat, transcript, completion or failure by a dead holder changes no table, however much later it comes |
| Fencing.TokenIsLastClaim | app/processing/queue.py:93-95 | the token in a row is that of the last successful claim |
| Fencing.OnlyLatestClaimantWrites | app/processing/queue.py:147-222 | every accepted write in every run comes from the latest claimant |
| History.ClaimConservation | app/processing/queue.py:84-208 | claims made in a run equal the change of what the row accounts for |
| History.ClaimLaw | app/processing/queue.py:84-208 | claims = (1 unless pending) + auto_retry_count - (1 if next_attempt_at is set) + recovery_count, in every run |
| History.WorkIsSpent | app/processing/queue.py:157-222 | accepted results of a task never exceed the stages and retries it had left |
| History.AtMostFiveResults | app/processing/queue.py:193-208 | a task has at most five accepted results in any run |
| History.TerminalIsFinal | app/processing/queue.py:226-229 | a done or failed row is never written again |
| History.BudgetIsSpent | app/worker.py:131-133 | when every failure asks for a retry, failed tasks have spent all three |
| History.FailureTakesSevenBases | app/processing/queue.py:193-208 | such a task took at least the three rounded delays, hence at least 7 bases - 1.5 microseconds, and at least seven bases for every base with `Enough` |
| Scenarios.ShortestFailure | app/processing/queue.py:193-208 | for every configuration a run of the service, by workers, in which a task fails after exactly the three rounded delays |
| Scenarios.SevenBasesHoldExactly | app/processing/queue.py:193-208 | in no run of the service a task is given up sooner than seven bases after its start, if and only if the base has `Enough` |
| History.BackoffIsHonoured | app/processing/queue.py:46 | no write is accepted before start + backoff spent so far, and no waiting task is claimed before next_attempt_at |
| History.NoLostTask | app/processing/queue.py:44-56 | left alone, every unfinished task is eligible once a lease and the longest backoff have passed |
| History.OwnedXorClaimable | app/processing/queue.py:136-142 | at every instant a leased task is either owned or claimable, never both and never neither |
| History.EligibleStays | app/processing/queue.py:44-56 | time alone never makes an eligible task ineligible |
| History.ClaimSucceeds | app/processing/queue.py:77-103 | an eligible task of a visible recording is really handed out, active, with the stored transcript, to an owner |
| Transcripts.LeasesKept | app/processing/queue.py:96-103 | every snapshot ever handed out agrees with its row for as long as its token is the row's |
| Transcripts.OwnedSnapshotIsExact | app/processing/queue.py:157-169 | a still owned summarizing snapshot carries exactly the stored transcript, which is not null |
| Transcripts.TranscriptWrittenOnce | app/processing/queue.py:162-166 | a stored transcript is never replaced |
| Transcripts.LostReplySpendsNoBudget | app/processing/queue.py:191 | after a transcript landed unreported, a failure with the old-stage snapshot changes no row, whenever it comes |
| Transcripts.SummaryComesFromTranscript | app/worker.py:97-110 | the summary of a done task was computed from the transcript it stores |
| Journal.RowIsItsJournal | app/processing/queue.py:84-229 | in every run a row is exactly the replay of the claims, renewals and results it accepted, from the row as it was or was born |
| Journal.RowIsTold | app/processing/queue.py:43-229 | in every run of the service every column of a row is a function of its accepted writes: stage, texts, errors, token, deadlines, counters, start and end |
| Journal.FailureIsScheduled | app/processing/queue.py:188-208 | an accepted failure, in either stage, keeps the stage, counts one retry and schedules it after exactly one, two or four bases while there is budget, and otherwise fails the task with this error |
| Journal.TranscriptIsWritten | app/processing/queue.py:162-166 | at most one transcript is ever accepted, and it is the stored one |
| Journal.TaskTellsItsStory | app/processing/queue.py:43-229 | the first accepted write is a claim and starts the task; the last one of a finished task is its completion or failure, with its instant and outcome; the last error shown is the latest failure since progress; the stored transcript is the accepted one |
| Chain.ChainKept | app/services/retries.py:17-52 | every step keeps the chain: attempts linked to their failed predecessor, both unique constraints respected, a first attempt for every recording |
| Chain.Ancestor | app/services/retries.py:39-44 | attempts are numbered contiguously and every earlier one exists and has failed |
| Chain.NextAttemptIsSuccessor | app/services/retries.py:33-44 | a task is numbered one higher exactly if it is the direct successor |
| Chain.EarlierAttemptsFailed | app/services/retries.py:31-32 | every attempt but the last has failed |
| Chain.OneOpenTask | app/services/retries.py:31-44 | a recording has at most one unfinished task |
| Chain.OneOwnerPerRecording | app/processing/queue.py:120-144 | two leases of one recording that pass the gate at one instant hold the same task and token, in every run |
| Chain.SuccessorStays | app/services/retries.py:33-36 | a successor stays the successor until both rows vanish |
| Chain.RetryIsIdempotent | app/services/retries.py:17-52 | asking again at any later time inserts nothing, and the successor is still the first one |
| Files.FilesKept | app/services/uploads.py:133-219 | every step keeps rows, keys, files and the progress of all uploads and deletions in agreement |
| Files.ConfirmedLanded | app/services/uploads.py:88-106 | rows found under an upload's own ids and key are the rows it committed |
| Safety.Always | app/services/uploads.py:133-219 | the joint invariant holds after every run |
| Safety.VisibleHasFile | app/services/uploads.py:133-153 | in every run every visible recording has its file, with the content it was registered with |
| Safety.OrphanHasOneCause | app/storage.py:133-149 | a stored file without a row belongs to one upload that never landed and is in exactly one of four situations: in flight, crashed, uncertain, cleanup failed |
| Safety.QuiescentOrphans | app/storage.py:133-149 | with no upload in flight, the files without a row are exactly those of the last three groups |
| Safety.MissingMeansDeleting | app/services/deletions.py:26-48 | a referenced file is missing only while its recording is being deleted |
| Safety.AnswerIsTrue | app/services/uploads.py:111-219 | in every run, what an ended upload answered is true of its row, name, key, content, first task and file |
| Safety.CommitIsAtomic | app/services/uploads.py:163-182 | a landing commit makes the recording as uploaded and its pending attempt-1 task appear in one step, and touches no other row |
| Safety.LookupIsExact | app/services/uploads.py:88-106 | an answered lookup confirms an upload exactly if its rows landed and are still visible |
| Safety.UncertainFileIsNeeded | app/services/uploads.py:196-211 | rows of an unconfirmed COMMIT may still appear; had the file been deleted, they would be a visible recording without one |
| Safety.LookupAnswers | app/services/uploads.py:27-50 | the lookup gives another round, 409, or the visible winner with its attempt-1 task; the branch without such a task is unreachable |
| Safety.DuplicateWasReal | app/services/uploads.py:137-151 | a duplicate answer names a recording that was visible, with equal hash and that attempt-1 task, when it was decided |
| Safety.RecheckNeverFires | app/services/deletions.py:46-47 | the recheck of mark and key in the second delete transaction always passes, and the file is gone by then |
| Safety.DeletionFreezes | app/services/deletions.py:20-48 | after the mark no row of the recording changes or is added until all vanish together, after the file, for good |
| Safety.GoneStaysGone | app/services/deletions.py:48 | a removed recording, its tasks and its file never come back |
| Safety.ContentNeverChanges | app/services/uploads.py:164-169 | a recording's hash and size never change |
| Safety.LifetimesAreDisjoint | app/services/uploads.py:37-39 | recordings with equal hash never exist at the same time, nor alternate |
| Locks.CommitIsSerial | app/processing/queue.py:58-95 | what a transaction decides from its possibly older reads is what it would decide atomically at its commit |
| Locks.InterleavingsAreSerial | app/processing/queue.py:58-83 | any interleaving of lock acquisitions reaches the database of the transactions run one by one in commit order |
| Locks.TaskLocksAreFree | app/services/retries.py:18-35 | no transaction ever waits for a task lock, neither for its own task or successor nor for those a DELETE cascades to |
| Locks.WaitersHoldNothing | app/services/retries.py:22-28 | a waiting transaction holds no lock, and the one it waits for is past its recording lock |
| Locks.NoDeadlock | app/processing/queue.py:58-83 | the wait-for graph never has a path of two edges, hence no cycle |
| Locks.TransactionsRun | app/processing/queue.py:58-83 | every atomic transaction can be run lock by lock, with the same effect |
| Locks.InterleavedVisibleHasFile | app/services/uploads.py:133-153 | file safety for every interleaved run |
| Queries.FoundExactly | app/services/queries.py:48-54 | 404 exactly for a task that is not there or whose recording is hidden |
| Queries.PollerIsToldTheStory | app/services/queries.py:20-44 | in every run of the service each field of an answer is what the accepted writes of the task say: stage, transcript, summary of the completion, error with code and message in place, last error, retries, waiting and its instant, start and end |
| Queries.AnswerIsConsistent | app/services/queries.py:20-44 | a summary exactly when done, an error exactly when failed, waiting exactly when active without a lease |
| Queries.PollerMonotone | app/services/queries.py:48-54 | later answers never go back in stage, never change a published result, and never return from 404 |
| Queries.LatestIsTheOpenOne | app/services/queries.py:58-66 | a recording is joined to exactly one task, that of the highest attempt, and any task that has not failed is that one |
| Queries.PagesAreTrue | app/services/queries.py:93-134 | every item of every page shows the row of a visible recording with the task of its highest attempt, and the total is the number of visible recordings |
| Queries.PagesArePrefix | app/services/queries.py:93-134 | the first n pages are exactly the first n * size items |
| Queries.PaginationPartitions | app/services/queries.py:93-134 | all pages together list every visible recording exactly once, newest first, and later pages are empty |
| Heartbeats.NeverRefusedExactly | app/worker.py:64-69 | in any run, whatever other workers do, no renewal is refused if and only if each reads the clock before the end of the lease as last extended by claim, renewal or transcript |
| Heartbeats.LeaseIsContinuous | app/processing/queue.py:147-169 | from the last clock reading on, the lease is owned, and the task not claimable, exactly until a lease after its last extension, across the stage change |
| Heartbeats.LongLeaseSurvives | app/worker.py:64-69 | a lease longer than the interval and two of the longest transactions is never lost, up to the next renewal's clock reading however late |
| Scenarios.LeasesSurviveExactly | app/worker.py:64-69 | with a lease of three intervals or more and every transaction of the loop, the claim included, returning in less than a bound from its start, no renewal is ever refused in any run if and only if the lease exceeds the interval plus two of the longest such transactions |
| Scenarios.TwoIntervalsNeedFive | app/config.py:126-128 | with renewals of less than two intervals, that means a lease of more than five intervals less two microseconds, where the settings ask for three |
| Heartbeats.ThreeIntervalsSuffice | app/config.py:126-128 | with a lease of three intervals no renewal is refused in any run in which the end of one transaction and the start of the next take less than two intervals together |
| Scenarios.LateReplyThenLateReading | app/config.py:126-128 | for every configuration that fails the condition, a run of the service in which every renewal returns in time, yet another worker's claim of the task is accepted and the next renewal refused |
| Store.RunAvoids | app/processing/queue.py:93-94 | whatever others do, ids and tokens generated for oneself stay unused and one's call stays where it is |
| Queue.CandidatesAreEligible | app/processing/queue.py:44-68 | candidates are eligible, strictly oldest first, at most a hundred, and complete below that |
| Queue.OldestFirst | app/processing/queue.py:59-68 | no eligible task is passed over for a younger candidate |
| Queue.OldestIsFirst | app/processing/queue.py:44-68 | the first candidate is the oldest claimable task of a visible recording, and there is none only when no task is claimable |
| Queue.TaskQueue.OwnedTask | app/processing/queue.py:120-144 | returns the row exactly if the gate is passed at the clock reading |
| Queue.TaskQueue.Heartbeat | app/processing/queue.py:147-153 | is one atomic step, true exactly for an owner, who then owns the task for a full lease |
| Queue.TaskQueue.Transcribed | app/processing/queue.py:157-169 | refuses blank text, else is one atomic step that stores the transcript and returns the advanced snapshot exactly if accepted |
| Queue.TaskQueue.CompleteTask | app/processing/queue.py:172-184 | is one atomic step, true exactly if accepted, and then the task is done with this summary |
| Queue.TaskQueue.FailTask | app/processing/queue.py:188-222 | is one atomic step, true exactly if accepted, and then the retry is scheduled or the task failed exactly as `Journal.RetryOrEnd` says |
| Queue.TaskQueue.ClaimCandidate | app/processing/queue.py:70-115 | is one atomic step and hands out an owned snapshot of the row exactly if accepted |
| Queue.TaskQueue.Claim | app/processing/queue.py:43-116 | tries the candidates of the discovery query oldest first, with others acting in between: every candidate before the one handed out, or every one if there is none, was locked or its own transaction refused it; what is handed out is owned, fresh and carries a token used nowhere before; undisturbed, the oldest candidate is handed out |
| Uploads.Uploads.InsertRows | app/services/uploads.py:163-184 | is one atomic step in each of its endings: inserted, hash conflict, rolled back, commit failed; without faults a taken hash is a conflict and a free one inserts |
| Uploads.Uploads.Settle | app/services/uploads.py:196-204 | a COMMIT lost on the way lands at most once more, on its own ids and key |
| Uploads.Uploads.FindDuplicate | app/services/uploads.py:27-50 | is one atomic step; finds the visible winner with its first task and status, and never ends in the branch without one |
| Uploads.Uploads.DiscardDuplicate | app/services/uploads.py:54-59 | deletes only the upload's own file, or reports that it could not |
| Uploads.Uploads.FindCommitted | app/services/uploads.py:88-106 | leaves every file alone and confirms exactly if it got an answer and the upload's own rows landed and are visible |
| Uploads.Uploads.CommitUpload | app/services/uploads.py:157-219 | one round: created, conflict, cleaned-up rollback, or uncertain with the file kept |
| Uploads.Uploads.Operation | app/services/uploads.py:111-153 | the whole operation is a run of the service, and the answer is what the bookkeeping says |
| Uploads.Uploads.CreateRecording | app/services/uploads.py:64-83 | under arbitrary interference the answer is true; a duplicate answer names a real duplicate and leaves no file; a conflict leaves no file; without faults the upload is accepted, in conflict, or waits for a deletion |
| Deletions.RemoveSucceeds | app/services/deletions.py:39-48 | after the unlink the second transaction leaves neither row nor tasks nor file |
| Deletions.Deletions.MarkDeleted | app/services/deletions.py:20-28 | is one atomic step that leaves the recording marked, or finds none and changes nothing |
| Deletions.Deletions.RemoveRow | app/services/deletions.py:39-48 | is one atomic step after which row, tasks and file are gone |
| Deletions.Deletions.DeleteRecording | app/services/deletions.py:19-49 | 404 changes nothing; any other answer leaves the recording marked and frozen or gone; success means it is gone with tasks and file; without faults an existing recording is removed |
| Retries.Retries.RetryTask | app/services/retries.py:17-61 | is one atomic step; answers 404, 409 or the unique successor, and says whether it was created now |
| Retries.SuccessorIs | app/services/retries.py:33-35 | any task that names the source as predecessor is its one successor, numbered one higher |
| Discipline.LogOthers | app/processing/queue.py:93-95 | what others do, who never hold the token, leaves the log of an execution as it is |
| Discipline.ExecutionAmongWorkers | app/worker.py:82-141 | a run whose events with the lease's token are disciplined, among other workers, is a worker run in which every failure asks for a retry |
| Discipline.ExecutionsMakeWorkerRun | app/worker.py:82-141 | so is any run of the service in which every lease is presented by such an execution |
| Discipline.ServiceKeepsPromises | app/worker.py:82-141 | in every such run of the service a failed task spent and waited out its three retries, and a done task shows the model's answer to the transcript it stores |
| Discipline.PublishedFromStored | app/worker.py:97-110 | an accepted completion publishes the model's answer to the transcript the task has stored |
| Discipline.ResultsCount | app/processing/queue.py:191 | an execution that started on a fresh lease and moved on with its transcript has each result accepted exactly if it owns the lease: no stage mismatch swallows one |
| Workers.Worker.Pipeline | app/worker.py:82-128 | under arbitrary interference: every event of the run with the lease's token is this execution's own, on a snapshot that was handed out, in the order transcript, summary, failure; it persists what was heard, completes only with the model's answer to its snapshot's transcript, reports only what went wrong, and always asks for a retry; unless its transcript landed unreported it moves on to the snapshot with the transcript, and then each of its results is accepted exactly if it still owns the lease; without faults it ends with a result or superseded; a resumed execution neither listens nor persists again |
| Workers.Worker.Process | app/worker.py:43-61 | pipeline and heartbeat together: among workers the run is a worker run; a published summary is the model's answer to the stored transcript; after a refused renewal it does nothing more; cancelled by one, or superseded, the lease can never write again |
| Workers.Worker.Fail | app/worker.py:131-141 | all it adds is this failure, on this snapshot, asking for a retry; without it, a fault of the database or the heartbeat |
| Workers.Worker.Beat | app/worker.py:64-79 | alive means that many renewals were asked for; a refused one means the lease can never write again, and never comes while the renewals are on time |
| Workers.Worker.Poll | app/worker.py:188-206 | never more executions than slots, each with a token of its own; the finished ones are gone, all others kept, and new ones hold leases just claimed; a slot stays free only when the last claim went through all its candidates in vain or was abandoned |
| Workers.Worker.CleanupOnce | app/worker.py:144-166 | goes through the marked recordings, oldest update first, a hundred at most, ended early only by an error that is not an answer of the service; each is unchanged or gone with its tasks and file, and gone if it was answered so |
| Storage.LocalStorage.Save | app/storage.py:66-103 | a final name appears only with the complete content, its hash and size, as one step of the service, and a refusal is none; it leaves at most a temporary prefix, and that only after a fault |
| Storage.LocalStorage.Delete | app/storage.py:107-111 | removes exactly this name, a missing one included, or nothing |
| Storage.Audit | app/storage.py:133-149 | one pass computes the two set differences and the temporary names, sorted |
| Storage.SortedIsAscending | app/storage.py:145-149 | reports are strictly ascending |
| Storage.ReportMeans | app/storage.py:133-149 | with no upload in flight: missing keys belong to recordings under deletion, unreferenced files to crashed, uncertain or badly cleaned uploads, and to no others |
| Ordering.AscendingIsUnique | app/services/queries.py:115 | there is only one list of these rows in this order |
| Migration.TargetIsSound | migrations/versions/0003_recording_hash.py:56-71 | the result keeps all recordings, gives each its own file's hash, and meets the constraints |
| Migration.TargetIgnoresHashes | migrations/versions/0003_recording_hash.py:25-70 | hashes left by earlier runs do not influence the result |
| Migration.Database.Verify | migrations/versions/0003_recording_hash.py:31-55 | succeeds exactly if every file is there, has its size, and no two are equal; changes nothing |
| Migration.Database.Backfill | migrations/versions/0003_recording_hash.py:60-61 | stopping anywhere keeps the table resumable; finishing gives every row its file's hash |
| Migration.Database.Upgrade | migrations/versions/0003_recording_hash.py:25-70 | refuses, changing nothing, exactly if the files are not verifiable; otherwise ends complete or resumable |
| Migration.Database.UpgradeUntilComplete | migrations/versions/0003_recording_hash.py:25-70 | any interrupted runs followed by a complete one, each listing the rows in its own order, give what a single run gives |

## Left out

- HTTP routing, status code formatting, logging, OpenAPI, readiness checks.
- The LLM client, its parsing and the mock ASR: their results are arbitrary texts, summaries or errors. `SummaryResult` revalidation in `complete` can only raise, which the pipeline treats like any other error.
- Validation of settings (`app/config.py`), except that the lease length and the backoff base are positive.
- Gap and next-key locks, index record locks (the unique hash index among them) and foreign key locks: an INSERT is atomic at its commit, and the deadlock theorem is about record locks only. The locking read of a missing successor takes a gap lock the model does not have.
- SHA-256 and UUID generation: see the assumptions.
- asyncio itself: cancellation and process death are stops between two steps, and the heartbeat runs where the pipeline awaits. Of the shield in `create_recording` only its effect is modelled: the operation finishes, and a cancelled caller gets no answer.
- Fairness of the cleanup loop: it takes the hundred oldest by `updated_at`, which failures do not reorder; what one pass does is modelled, eventual cleanup is not claimed.
- The stop signal's grace period and the nested waits of `Worker.run`; `Workers.Worker.Poll` is one round of it.
- `fail` with `retryable=False` is modelled, but the budget laws are stated for callers that always ask for a retry, as the worker does.
- The file name and extension checks, and the storage path check: names are ids, and a display name is kept as it comes.
- `get_recording`: the same row mapping and the same latest task as the members listed.
- `updated_at`, and the `created_at` field of a task answer.
- `downgrade` of the migration, its offline check and its path check. Its UPDATE batch is modelled row by row, so that more interrupted states are covered than the server can leave.
- Storage.Audit: names are compared as ids, not as strings, so the order within a report is that of the ids.
