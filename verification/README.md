# Workers, imports and limits of the memberclass backend, in Dafny

The backend does most of its work in background workers over SQL tables. This project models the parts with real
state and proves what they keep, whatever fails and however their steps interleave.

* **Push notifications** (`Notifications.dfy`). One notification row, its device list and any number of dispatchers:
  claims, batches of 500, progress writes that may fail, dead tokens that are deleted while sending, crashes, orphan
  resets. The dispatch itself is a method on a `Store` whose every effect is a run of that state machine.
* **Transcription jobs.** `JobsTable.dfy` holds the `jobs` table and its statements, `JobQueue.dfy` every run of them
  with workers that finish, fail, stall or vanish. `Transcript.dfy` merges the audio parts, `Chunker.dfy` (on `Text.dfy`,
  Go's word splitting) groups segments into overlapping chunks, `Embedding.dfy` reassembles the vectors,
  `TranscriptStore.dfy` interleaves the statements of the transactions that replace a video's rows, and `Pipeline.dfy`
  puts a whole job together.
* **PDF pages.** `WorkerPool.dfy` is the pool of goroutines over two channels with a cancellable context; `PdfAsset.dfy`
  is the asset row and its pages under processing, retrying, regenerating and cleaning up.
* **Member import** (`MemberImport.dfy`): the per-row state machine, the counters, the batches and the e-mail phase.
* **Rate limiter** (`RateLimiter.dfy`) over a cache with expiring keys, and **identifiers** (`Cuid.dfy`).

`Wrappers.dfy` and `Collections.dfy` are small helpers.

Runs are data: `Step` lists what can happen, `Enabled` and `Apply` say when and how, and a theorem about `Run(s, steps)`
holds for every valid sequence of steps. Code that changes state is a class with the source's fields; its methods are
proved against functions on values, and the theorems are about those functions. What the outside world answers (FCM, the
embedding API, failing statements, random bytes, the clock) comes in as a parameter, and the theorems hold for every
value of it. Files are checked together: `dafny verify dfyconfig.toml`.

## What does not hold, and what does instead

Each of these is shown to fail by a concrete run or input, and comes with the exact condition under which it holds.

* *A resumed notification reaches everybody.* A dispatch that starts behind the first m recipients leaves out exactly
  the recipients before it that nobody sent to (`SendMulticast`). Once k of those m are deleted the list shifts, and these
  are exactly the next k survivors, or all that are left (`SkippedExactly`, `ResumeReachesAll`): nobody is left out
  exactly if none of the m is gone or nobody else is left (`DeadTokenSkipsSurvivor` is a run of 501 devices). Over every
  run of any number of dispatchers, at most as many are left out as were deleted (`SkippedAtMostDeleted`).
* *A crash in mid-broadcast resumes without duplicates* (`internal/features/workers/notifications/worker.go:155-157`). A
  crash between a send and its progress write sends the batch twice (`CrashSendsTwice`). At every point of every run a
  batch may go out once more exactly if a dispatcher at work can get to it or the row can be claimed again with the
  persisted index before it (`MayBeSentAgain`); it goes out at most once per such claim (`ResendsOnlyUnpersisted`).
* *A completed job stays completed.* A worker that outlives the stale threshold can undo it
  (`StaleWorkerCompletesTwice`), and so can a prompt worker whose completion was applied but answered with an error
  (`LostAnswerUndoesCompletion`). A completed job is completed after every run exactly if nobody is at work on it any
  more (`CompletedForGood`, and `FailedForGood` for failed ones). While workers are prompt, a completed job changes
  exactly if the execution that completed it reports a failure (`UndoneByOwnReport`), and an acknowledged completion is
  final (`CompletesAtMostOnce`). A running job stays running for ever exactly if it has no attempt left and nobody is
  at work on it (`RunningForGood`): `VanishedWorkerLeavesRunning` reaches such a job.
* *A sent notification stays sent.* A dispatcher that is slow to start marks it failed (`LateDispatcherSpoils`). A fully
  counted sent row stays one after every run exactly if no dispatcher is around any more (`SentForGood`).
* *A chunk has at most maxTokens tokens.* Not even if every segment does (`OverlapExceedsMax`). All chunks fit exactly if
  every segment does and at every cut the repeated tail leaves room for the next segment (`FitsExactly`); without overlap
  exactly if every segment does (`FitsWithoutOverlap`). maxTokens is kept for all transcripts with segments of up to s
  tokens exactly if 2s + overlap - 1 is within it (`SizeGuarantee`), which for 500 and 50 means segments of at most 173
  words (`ChunksFitExactly`). The bound that always holds is `RunsAreBounded`.
* *A flagged lesson has chunks.* Another lesson with the same video URL takes them over (`SharedUrlTakesChunks`). After
  any run a lesson has chunks exactly if it was the last to be committed for some URL (`HasChunksIfLast`); every run over
  a list of jobs leaves all flagged lessons with chunks exactly if no two lessons in it share a URL
  (`FlagsAreHonestExactly`).
* *A done PDF asset has all its pages.* One failure breaks it: a regeneration that deletes the pages of a done asset but
  cannot reset its status (`RegenerationLosesPages`); `GoodStep` shows that this is the only one. Processing a changed PDF keeps the pages of the
  old one (`StalePageStays`): the new images show exactly if the stored ones already did (`ProcessKeepsStalePages`).
* *Importing a list twice does nothing the second time.* It does nothing exactly if the list names nobody, or the
  deliveries are a non-empty list without repetitions and nobody it names has one of them through another tenant
  (`ImportIsIdempotent`); every other valid row sends another e-mail (`SecondImportMails`, `MailsEveryTime`).
* *Tenants do not share a limit.* Two tenants can share a key exactly if one is the beginning of the other, up to a colon
  (`KeysCollide`); ids without a colon are told apart, and isolated over every run (`KeyTells`, `TenantsAreIsolated`).
* *A window expires.* A request strands a key if its increment creates it and the reply is lost, or setting the expiry
  fails, or the key was still there when the request looked (`LostReplyStrands`; `ExpiryInBetweenStrands`, in which no
  call fails). Over requests one after another a key is left without expiry exactly if one of them stranded it
  (`NoExpiryExactly`, `WindowsExpire`); then it admits 49 more in all (`StrandedClosesForEver`). However the calls of
  requests interleave, a key that none strands has an expiry once they are through (`InterleavedExpire`).

## Model

| member | source | states |
|---|---|---|
| Notifications.Store.ClaimPending | internal/features/workers/notifications/repo.go:17-55 | a pending row that is due, and only that, flips to sending; the caller gets it with the progress persisted so far |
| Notifications.Store.ResetOrphans | internal/features/workers/notifications/repo.go:60-71 | a row that is sending and was last written more than five minutes ago goes back to pending with its progress untouched; other rows stay |
| Notifications.Store.MarkSent | internal/features/workers/notifications/repo.go:73-82 | writes status and both counts but not the batch index, whatever the status was |
| Notifications.Store.MarkFailed | internal/features/workers/notifications/repo.go:84-91 | writes the status only, whatever it was |
| Notifications.Store.UpdateProgress | internal/features/workers/notifications/repo.go:93-101 | writes counts and batch index together, and leaves the status |
| Notifications.Store.DeleteDevice | internal/features/workers/notifications/repo.go:134-140 | afterwards exactly the devices with another token are left |
| Notifications.DropDead | internal/features/workers/notifications/worker.go:222-232 | of the tokens reported unregistered exactly those whose delete succeeds are gone, and no others |
| Notifications.FinishBatch | internal/features/workers/notifications/worker.go:211-244 | one turn of the loop: successes and failures add up to the batch, the batch counts as sent to, progress is written if the write succeeds, and exactly the devices that the batch reports as unregistered are gone, as far as their deletes succeed |
| Notifications.SuccessesAreDelivered | internal/features/workers/notifications/worker.go:219-220 | the success count is the number of delivered outcomes |
| Notifications.DeadInMeans | internal/features/workers/notifications/worker.go:222-232 | a token is dropped by a range of batches exactly if one of them reports it as unregistered and its delete succeeds |
| Notifications.StopBatchMeans | internal/features/workers/notifications/worker.go:202-217 | the loop stops at the first batch that is not answered, or behind the last one |
| Notifications.LastSavedMeans | internal/features/workers/notifications/worker.go:242-244 | the progress in the row is that of the last batch whose write succeeded |
| Notifications.SendBatches | internal/features/workers/notifications/worker.go:202-245 | gets through exactly if every batch is answered, and otherwise stops at the first that is not; either way it has sent the recipients from the start batch up to there, in order, each once, left exactly the devices that these batches do not drop, and the progress of the last of them that was written |
| Notifications.SendMulticast | internal/features/workers/notifications/worker.go:158-255 | the dispatch is a run of the state machine; it succeeds exactly under `Succeeds`; whether or not it does, whom it sent to, which devices are left and what the row says is exact; when it succeeds it has left out exactly those before its start that nobody sent to |
| Notifications.Tick | internal/features/workers/notifications/worker.go:110-132 | a poll claims and dispatches a pending row that is due, with the same effect on the devices and the row, ends it as sent or failed, and does nothing to others |
| Notifications.SkipInvStep | internal/features/workers/notifications/worker.go:186-245 | every step, by any dispatcher, keeps the bound on unsent devices before the persisted index |
| Notifications.BehindMissed | internal/features/workers/notifications/recipients.go:15-26 | removing k devices from an ordered list moves at most k of them into the part that a resume leaves out |
| Notifications.SkippedAtMostDeleted | internal/features/workers/notifications/worker.go:186-245 | over every run, when the row is sent the remaining devices never sent to are at most the tokens deleted |
| Notifications.SkippedExactly | internal/features/workers/notifications/worker.go:186-202 | a resume behind the first m recipients skips exactly the next k survivors, where k of the m were deleted |
| Notifications.OneDeletionSkips | internal/features/workers/notifications/worker.go:186-202 | one deletion before entry m shifts exactly that entry out |
| Notifications.ResumeReachesAll | internal/features/workers/notifications/worker.go:186-245 | after any run that sent to the first b batches: how many a resume skips, and that it skips nobody exactly if none of those recipients is gone or nobody else is left |
| Notifications.FixedStep | internal/features/workers/notifications/worker.go:198-254 | without deletions every step keeps sent + failed equal to the recipients of the persisted batches, and a row that becomes sent counts them all |
| Notifications.FixedRuns | internal/features/workers/notifications/worker.go:158-255 | without deletions, over every run: the counts agree with the persisted index, the persisted batches were sent, and a sent row means everybody was sent to |
| Notifications.SentStays | internal/features/workers/notifications/repo.go:73-101 | exactly which late writes of another dispatcher spoil a fully counted sent row |
| Notifications.SentForGood | internal/features/workers/notifications/repo.go:73-101 | a fully counted sent row is one after every run exactly if no dispatcher is around any more |
| Notifications.LateDispatcherSpoils | internal/features/workers/notifications/worker.go:110-132 | a run in which a late dispatcher marks a row failed after another has sent to everybody |
| Notifications.ResendsOnlyUnpersisted | internal/features/workers/notifications/worker.go:186-196 | a batch is sent at most once per claim made while it was not persisted |
| Notifications.MayBeSentAgain | internal/features/workers/notifications/worker.go:155-245 | at every point of every run: some continuation sends batch b exactly if a dispatcher at work can get to it, or the row can be claimed again with a start no later than b |
| Notifications.CrashSendsTwice | internal/features/workers/notifications/worker.go:155-157 | a run without deletions in which a crash before the progress write makes the first batch go out twice |
| Notifications.DeadTokenSkipsSurvivor | internal/features/workers/notifications/worker.go:222-232 | a run with one deleted token and a crash in which the last of 501 devices is never sent to |
| JobsTable.Table.Claim | internal/features/workers/transcription/sql.go:43-59 | picks the first claimable rows, up to the limit, flips exactly those to running with the time and one more attempt, and leaves the others |
| JobsTable.ClaimedFirst | internal/features/workers/transcription/sql.go:49-56 | a claimable row is left only if the limit is reached, and then every claimed one has a higher priority, or the same and is no younger |
| JobsTable.Table.MarkCompleted | internal/features/workers/transcription/sql.go:61-68 | completes the row whatever its status |
| JobsTable.Table.MarkFailed | internal/features/workers/transcription/worker_claim.go:50-57 | failed if the attempts are used up, else pending, whatever the status was; reports which |
| JobsTable.Table.ResetOrphans | internal/features/workers/transcription/worker_claim.go:62-77 | exactly the rows that run for more than half an hour and have attempts left become pending, and their number is returned |
| JobQueue.TableClaimIsStep | internal/features/workers/transcription/worker_claim.go:22-44 | what the table's claim does is a step of the queue |
| JobQueue.InvRun | internal/features/workers/transcription/sql.go:43-98 | over every run attempts never exceed max_attempts, pending jobs have one left, failed ones none |
| JobQueue.ExecutionsAreBounded | internal/features/workers/transcription/sql.go:43-59 | over every run a job is executed exactly `attempts` times, at most max_attempts |
| JobQueue.ExhaustedIsNeverClaimed | internal/features/workers/transcription/sql.go:78-98 | a failed job, or one without attempts, is never executed again |
| JobQueue.MeasureStep | internal/features/workers/transcription/sql.go:43-98 | every step that changes something, except an enqueueing, lowers the measure |
| JobQueue.RunsAreFinite | internal/features/workers/transcription/sql.go:43-98 | the effective steps of any run are bounded by the attempts at hand and enqueued |
| JobQueue.CompletedForGood | internal/features/workers/transcription/sql.go:61-86 | a completed job is completed after every run exactly if nobody is at work on it |
| JobQueue.FailedForGood | internal/features/workers/transcription/sql.go:61-86 | a failed job is failed after every run exactly if no execution of it can still complete |
| JobQueue.LostAnswerUndoesCompletion | internal/features/workers/transcription/pipeline.go:292-295 | a run with prompt workers in which a completion whose answer is lost is undone and the job executed again |
| JobQueue.StaleWorkerCompletesTwice | internal/features/workers/transcription/sql.go:78-98 | a run in which a stalled worker makes a job complete twice |
| JobQueue.SingleWorkerStep | internal/features/workers/transcription/worker_claim.go:59-77 | while workers are prompt a job keeps one worker, its latest; failed jobs do not change, and completed ones exactly by a failure reported by the execution that completed them |
| JobQueue.UndoneByOwnReport | internal/features/workers/transcription/worker_claim.go:46-77 | while workers are prompt, over every run: a completed job is left as it is exactly if no failure of it is reported |
| JobQueue.TimelyRuns | internal/features/workers/transcription/worker_claim.go:22-77 | while workers are prompt, over every run: one worker per job, failed jobs final, no acknowledged completion after another |
| JobQueue.PromptRuns | internal/features/workers/transcription/worker_claim.go:22-77 | while workers are prompt and no answer about the job is lost, over every run: completed is final, and the job is completed exactly as often as it completes |
| JobQueue.CompletesAtMostOnce | internal/features/workers/transcription/worker_claim.go:22-77 | while workers are prompt no job completes twice with an acknowledged update, and one that did is completed in the end |
| JobQueue.LostLastAttemptStays | internal/features/workers/transcription/sql.go:91-98 | no step of any run touches a running job that lost its worker on the last attempt |
| JobQueue.RunningForGood | internal/features/workers/transcription/sql.go:61-98 | a running job is running after every run exactly if it has no attempt left and nobody is at work on it |
| JobQueue.VanishedWorkerLeavesRunning | internal/features/workers/transcription/sql.go:91-98 | a run that leaves a job running for ever |
| Text.FieldsSplit | internal/features/workers/transcription/chunker.go:109-112 | white space separates words wherever it stands |
| Text.FieldsOfWord | internal/features/workers/transcription/chunker.go:109-112 | a word is its own only field; with `FieldsSplit` this determines the fields of every text |
| Text.TrimSpaceCuts | internal/features/workers/transcription/chunker.go:63 | trimming cuts the white space at both ends, all of it, and nothing else |
| Chunker.SplitIntoChunks | internal/features/workers/transcription/chunker.go:32-103 | the loop with its curFirst index gives one chunk per run of the specification, in order |
| Chunker.ChunkMeans | internal/features/workers/transcription/chunker.go:58-101 | each chunk has its position, the joined and trimmed words of its run, the sum of its tokens, the start of its first segment and the end of its last |
| Chunker.EffectiveParameters | internal/features/workers/transcription/chunker.go:32-48 | the limits count as given where 0 <= overlap < maxTokens, and are moved to the nearest that do where not |
| Chunker.Backtrack | internal/features/workers/transcription/chunker.go:75-82 | the walk back stops where the shortest sufficient suffix of the chunk begins, although curFirst need not be the chunk's start |
| Chunker.RunsAreOrdered | internal/features/workers/transcription/chunker.go:67-101 | run ends strictly increase, starts never decrease, no gap between neighbours, at most one run per segment |
| Chunker.RunsCoverTokens | internal/features/workers/transcription/chunker.go:67-101 | every segment with a token is in a chunk |
| Chunker.ConsecutiveRunsOverlap | internal/features/workers/transcription/chunker.go:75-90 | neighbours share the shortest suffix with `overlap` tokens, or all tokens if there are fewer |
| Chunker.RunsAreBounded | internal/features/workers/transcription/chunker.go:67-101 | no chunk exceeds max(maxTokens, 2S + overlap - 1), or max(maxTokens, S) without overlap |
| Chunker.FitsExactly | internal/features/workers/transcription/chunker.go:67-101 | no chunk exceeds maxTokens exactly if no segment does and at every cut the repeated tail and the next segment fit together |
| Chunker.FitsWithoutOverlap | internal/features/workers/transcription/chunker.go:67-101 | without overlap no chunk exceeds maxTokens exactly if no segment does |
| Chunker.SizeGuarantee | internal/features/workers/transcription/chunker.go:67-101 | maxTokens is kept for every transcript with segments of at most s tokens exactly if s, or with an overlap 2s + overlap - 1, is within it |
| Chunker.OverlapExceedsMax | internal/features/workers/transcription/chunker.go:67-91 | two equal segments that fit only one by one give two chunks, the second of twice the size |
| Chunker.RunsAreMaximal | internal/features/workers/transcription/chunker.go:72-73 | the segment after a run would not have fitted |
| Chunker.OversizeRunStops | internal/features/workers/transcription/chunker.go:72-98 | a chunk above the maximum takes no further segment |
| Chunker.NoOverlapTokens | internal/features/workers/transcription/chunker.go:67-101 | with overlap 0 runs are disjoint and hold all tokens once |
| Chunker.NoOverlapKeepsWords | internal/features/workers/transcription/chunker.go:58-101 | with overlap 0 the chunks' words are the transcript's words, in order |
| Chunker.FieldsOfJoin | internal/features/workers/transcription/chunker.go:58-65 | joining with blanks and trimming keeps exactly the words |
| Chunker.ChunkTimes | internal/features/workers/transcription/chunker.go:84-94 | from sorted segments chunks end after they start and never go back |
| Chunker.ChunkSpans | internal/features/workers/transcription/chunker.go:84-94 | from sorted segments the times of a chunk are the smallest interval that holds every segment of its run: all lie in it and both bounds are attained |
| Transcript.Merge | internal/features/workers/transcription/pipeline.go:112-144 | all segments, each moved by the durations of the parts before it; elapsed is the sum of the durations |
| Transcript.ElapsedConcat | internal/features/workers/transcription/pipeline.go:117-138 | the time elapsed is the sum of the durations, over any split of the parts |
| Transcript.MergedConcat | internal/features/workers/transcription/pipeline.go:115-144 | merging a list of parts in two halves gives the first half followed by the second, moved by the time elapsed in the first |
| Transcript.MergedSorted | internal/features/workers/transcription/pipeline.go:115-144 | well-timed parts give sorted segments inside the recording |
| Transcript.MergedWords | internal/features/workers/transcription/pipeline.go:115-144 | merging keeps every word, in order |
| Transcript.MergeAndChunk | internal/features/workers/transcription/pipeline.go:112-152 | from parts to chunks: one chunk per run of the merged segments |
| Transcript.ChunkedTimes | internal/features/workers/transcription/pipeline.go:112-152 | from well-timed parts, any number of them, every chunk lies inside the recording and the times never go back |
| Transcript.ChunkedSpans | internal/features/workers/transcription/pipeline.go:112-152 | from well-timed parts the times of a chunk span exactly the segments of its run |
| Transcript.NoOverlapKeepsPartWords | internal/features/workers/transcription/pipeline.go:112-152 | without overlap the chunks hold every word of the parts once, in order |
| Embedding.EmbedBatch | internal/features/workers/transcription/openai.go:110-126 | succeeds exactly if all indices are in range and every position is filled; the exact error otherwise |
| Embedding.OrderIrrelevant | internal/features/workers/transcription/openai.go:110-126 | with distinct indices every permutation of the answer has the same outcome |
| Embedding.EmbedAll | internal/features/workers/transcription/pipeline.go:153-172 | the batches of 96 tile the texts; it succeeds exactly if every call does |
| Embedding.EmbedTexts | internal/features/workers/transcription/pipeline.go:153-172 | it succeeds exactly if every call gives a vector for each of its texts, and then every text has its own vector |
| TranscriptStore.Store.UpsertVideo | internal/features/workers/transcription/sql.go:116-130 | the existing row's id on a conflict of tenant and URL, else the new one |
| TranscriptStore.Persist | internal/features/workers/transcription/pipeline.go:174-273 | the transaction: all rows of the video are replaced, or nothing is visible; a run of the interleaving |
| TranscriptStore.ExecuteJob | internal/features/workers/transcription/pipeline.go:174-296 | after the commit a failing lesson flag is ignored and a failing completion reported |
| TranscriptStore.CommitDb | internal/features/workers/transcription/pipeline.go:188-273 | a commit replaces its own video's rows and leaves those of every other video, whatever else is in flight |
| TranscriptStore.InvStep | internal/features/workers/transcription/pipeline.go:174-296 | every statement of every attempt keeps the store's invariant |
| TranscriptStore.StoreIsCoherent | internal/features/workers/transcription/pipeline.go:174-296 | after every run: one video per tenant and URL, one transcript each, its chunks numbered without gaps and from one attempt; completed jobs and flagged lessons have a video |
| TranscriptStore.RowsAreNumbered | internal/features/workers/transcription/pipeline.go:224-246 | the copied rows are as many as the chunks, each with its position as order, its content and the one transcript |
| TranscriptStore.VideoIdsAreStable | internal/features/workers/transcription/sql.go:113-130 | a committed video keeps its id and key over every run |
| TranscriptStore.LessonHasChunks | internal/features/workers/transcription/sql.go:116-130 | a lesson has chunks exactly if a video row names it |
| TranscriptStore.LosesChunks | internal/features/workers/transcription/sql.go:116-130 | a step takes a video from a lesson exactly if it commits another lesson's job for the URL |
| TranscriptStore.HasChunksIfLast | internal/features/workers/transcription/pipeline.go:188-281 | after any run a lesson has chunks exactly if it was the last to be committed for some tenant and URL |
| TranscriptStore.SharedUrlTakesChunks | internal/features/workers/transcription/pipeline.go:188-281 | for any two jobs of a list with one URL and different lessons, a run in which both lessons are flagged and the first is left without chunks |
| TranscriptStore.FlaggedLessonsHaveChunks | internal/features/workers/transcription/pipeline.go:275-281 | if no two lessons share a URL every flagged lesson has chunks, after every run |
| TranscriptStore.FlagsAreHonestExactly | internal/features/workers/transcription/pipeline.go:188-281 | every run over a list of jobs leaves every flagged lesson with chunks exactly if no two lessons in the list share a URL |
| Pipeline.ExecuteJob | internal/features/workers/transcription/pipeline.go:112-296 | it succeeds exactly if there are parts and chunks, every batch is embedded, every statement up to the commit succeeds and the job can be marked; the chunks of the merged transcript are stored, in order, each with its own vector, exactly if all but the marking succeeds, with the rows of other videos kept, and otherwise nothing changes |
| Pipeline.JobChunkSize | internal/features/workers/transcription/pipeline.go:148-152 | the size bound with the constants in use |
| Pipeline.ChunksFitExactly | internal/features/workers/transcription/pipeline.go:148-152 | with the constants in use all chunks have at most 500 tokens, whatever the transcript, exactly if no segment has more than 173 words |
| WorkerPool.InvStep | internal/domain/usecases/lessons/pdf_processor_usecase.go:807-871 | every step keeps each job in one place, results honest and the channels' states consistent |
| WorkerPool.NeverFull | internal/domain/usecases/lessons/pdf_processor_usecase.go:807-808 | the buffers are large enough that nobody waits for room |
| WorkerPool.ChannelsAreUsedOpen | internal/domain/usecases/lessons/pdf_processor_usecase.go:840-860 | nothing is sent on a closed channel, and no channel is closed twice |
| WorkerPool.NoDeadlock | internal/domain/usecases/lessons/pdf_processor_usecase.go:814-871 | until the collector is done some step other than a cancellation is possible |
| WorkerPool.RunsAreFinite | internal/domain/usecases/lessons/pdf_processor_usecase.go:814-871 | under every schedule at most 5n + workers + 4 steps |
| WorkerPool.UncancelledRunsAgree | internal/domain/usecases/lessons/pdf_processor_usecase.go:807-875 | one result per job; the success count and the jobs carried out do not depend on the schedule |
| WorkerPool.CollectedAtMostOnce | internal/domain/usecases/lessons/pdf_processor_usecase.go:814-871 | even when cancelled no job is collected twice, and every collected one was carried out |
| WorkerPool.CountedAreSaved | internal/domain/usecases/lessons/pdf_processor_usecase.go:814-875 | cancelled or not, never more pages are counted than saved; if all are counted all are saved |
| PdfAsset.Repository.SaveSinglePage | internal/domain/usecases/lessons/pdf_processor_usecase.go:713-767 | creates the page only if it is missing; reports success exactly if it was there or its insert is answered |
| PdfAsset.Repository.SavePages | internal/domain/usecases/lessons/pdf_processor_usecase.go:782-876 | pages and count for every order in which the workers get to the pages, and every set of results dropped by a cancellation |
| PdfAsset.Repository.ProcessLesson | internal/domain/usecases/lessons/pdf_processor_usecase.go:54-149 | the asset and the pages after every combination of failures and dropped results: failed if the PDF does not convert, processing if the status cannot be written, partial if fewer saves were counted than there are images, done otherwise, and then every page is stored |
| PdfAsset.Repository.RegeneratePDF | internal/domain/usecases/lessons/pdf_processor_usecase.go:572-637 | pages deleted and the status pending without a page count, each unless that call fails, or a new pending asset |
| PdfAsset.Repository.CleanupAssetPages | internal/domain/usecases/lessons/pdf_processor_usecase.go:491-569 | of a failed or partial asset exactly the pages whose delete fails are left |
| PdfAsset.Repository.CleanupPermanentlyFailed | internal/domain/usecases/lessons/pdf_processor_usecase.go:379-409 | a permanent error of a failed or partial asset removes its pages and marks it permanently failed, each unless that call fails; other assets stay |
| PdfAsset.SaveAllAppends | internal/domain/usecases/lessons/pdf_processor_usecase.go:713-767 | saving appends missing pages only, each with its own image, and none twice |
| PdfAsset.SavedPages | internal/domain/usecases/lessons/pdf_processor_usecase.go:713-767 | a page is there afterwards exactly if it was there or its save was scheduled and its insert applied, answered or not |
| PdfAsset.PoolAgrees | internal/domain/usecases/lessons/pdf_processor_usecase.go:807-875 | every uncancelled run of the pool counts and stores what saving in any order does |
| PdfAsset.PoolIsSchedule | internal/domain/usecases/lessons/pdf_processor_usecase.go:807-875 | every run of the pool, cancelled or not, counts and stores what saving in some order with some results dropped does |
| PdfAsset.GoodStep | internal/domain/usecases/lessons/pdf_processor_usecase.go:606-618 | an operation breaks "done means all pages stored" exactly if it is a regeneration of a done asset that deletes pages and fails to reset the status |
| PdfAsset.RegenerationLosesPages | internal/domain/usecases/lessons/pdf_processor_usecase.go:606-618 | a regeneration after which a done asset has no page |
| PdfAsset.DoneMeansStored | internal/domain/usecases/lessons/pdf_processor_usecase.go:116-149 | over every sequence of the other operations and failures: done means pages 1 to totalPages, none twice |
| PdfAsset.CleanProcess | internal/domain/usecases/lessons/pdf_processor_usecase.go:90-149 | without failures processing ends done, creates exactly what is missing, and nothing the second time |
| PdfAsset.ProcessKeepsStalePages | internal/domain/usecases/lessons/pdf_processor_usecase.go:714-721 | pages show the new images exactly if the stored ones did before |
| PdfAsset.StalePageStays | internal/domain/usecases/lessons/pdf_processor_usecase.go:714-721 | a changed PDF of one page is processed, and the asset is done with the old page |
| PdfAsset.RegenerateThenProcess | internal/domain/usecases/lessons/pdf_processor_usecase.go:606-618 | afterwards exactly one page per image, each showing it |
| MemberImport.ImportJob.UserHasAllDeliveries | internal/features/admin/member_import/processor.go:487-502 | the count of the user's rows of this tenant among the requested ones reaches the length of the list |
| MemberImport.ImportJob.InsertMemberOnDeliveries | internal/features/admin/member_import/processor.go:504-528 | adds the missing memberships and leaves existing ones |
| MemberImport.ImportJob.ProcessRow | internal/features/admin/member_import/processor.go:195-363 | tables and outcome of a row for every failing call |
| MemberImport.RowStatus | internal/features/admin/member_import/processor.go:195-363 | exactly when a row ends in which status: it is an error exactly if the address is invalid or a call that the row gets to make fails |
| MemberImport.RowWrites | internal/features/admin/member_import/processor.go:222-316 | a row that gets through creates a user exactly if it finds none, and stores one token, its own user's, unless that user is served already |
| MemberImport.RowMembers | internal/features/admin/member_import/processor.go:239-330 | the row touches nobody else's membership; a new one is as the list gives it, a known one is refreshed exactly where its name or its missing document says so |
| MemberImport.RowDeliveries | internal/features/admin/member_import/processor.go:332-342 | each delivery asked for that the user has through no tenant yet is added, through this tenant, and nothing else |
| MemberImport.FailedRowLeaves | internal/features/admin/member_import/processor.go:205-342 | what a row has written when one of its calls fails: what the calls before it write, and nothing else |
| MemberImport.ImportJob.ProcessBatch | internal/features/admin/member_import/processor.go:183-366 | one state per row, in order; the counters are the tallies of the outcomes |
| MemberImport.ImportJob.SendGroup | internal/features/admin/member_import/emails.go:88-191 | every row of the group is marked; sent and failed add up to the group |
| MemberImport.ImportJob.SendBatchEmails | internal/features/admin/member_import/emails.go:43-84 | exactly the rows with a token and no error get an e-mail, by kind; each of the three counters grows by exactly its rows |
| MemberImport.Select | internal/features/admin/member_import/emails.go:51-66 | the two groups are the rows of each kind, and no larger than the batch |
| MemberImport.ImportJob.RunImport | internal/features/admin/member_import/processor.go:54-166 | one outcome per row, the one of processing all in order; each counter is the number of rows with its status, they add up to the rows plus those that failed after being created; each e-mail counter is the number of rows with that e-mail sent, or not sent, and none is not sent if every group is accepted |
| MemberImport.RecordedMeans | internal/features/admin/member_import/emails.go:43-191 | created rows, and only those, have the login e-mail, updated ones the delivery e-mail; it is sent exactly if the group of the row's batch of 100 is accepted |
| MemberImport.ImportTokens | internal/features/admin/member_import/processor.go:261-316 | an import without failures stores as many tokens as it sends e-mails, in the order of the rows, each that of the user of its row's e-mail |
| MemberImport.RowOutcome | internal/features/admin/member_import/processor.go:195-363 | what each status says about the row and its e-mail, whatever fails |
| MemberImport.CountersAddUp | internal/features/admin/member_import/processor.go:170-179 | the sum of the counters, and who gets which e-mail |
| MemberImport.MailedRowsAreValid | internal/features/admin/member_import/emails.go:130-146 | whoever gets an e-mail passed the first validation |
| MemberImport.HasAllMeans | internal/features/admin/member_import/processor.go:487-502 | for a duplicate-free list the count means having each delivery through this tenant |
| MemberImport.RepeatedDeliveryNeverComplete | internal/features/admin/member_import/processor.go:487-502 | a list that names a delivery twice is never complete |
| MemberImport.RowKnows | internal/features/admin/member_import/processor.go:217-342 | a row without failures leaves its user in the tenant with every delivery |
| MemberImport.ImportNames | internal/features/admin/member_import/processor.go:318-330 | after an import every member has the name of the last row that names them |
| MemberImport.SettledImport | internal/features/admin/member_import/processor.go:217-360 | settled rows are already_had, send nothing and change names at most |
| MemberImport.SecondImportMails | internal/features/admin/member_import/processor.go:217-360 | a row of a second import sends an e-mail exactly if it is valid and the deliveries are empty, repeated or held through another tenant |
| MemberImport.MailsEveryTime | internal/features/admin/member_import/processor.go:217-360 | without deliveries a second import into an empty database sends an e-mail again |
| MemberImport.ImportIsIdempotent | internal/features/admin/member_import/processor.go:217-360 | the second import of a list leaves every table as it is, and sends nothing, exactly if everybody it names could be settled by the first |
| RateLimiter.Cache.Increment | internal/infrastructure/adapters/cache/redis_cache.go:60-62 | a missing key starts without expiry, an existing one keeps its own |
| RateLimiter.Limiter.CheckLimit | internal/infrastructure/adapters/rate_limiter/rate_limiter_tenant.go:35-80 | allowed, remaining, reset and retry-after, with a window's length for a time left that cannot be read; an error only if the read fails |
| RateLimiter.Limiter.Increment | internal/infrastructure/adapters/rate_limiter/rate_limiter_tenant.go:82-104 | the first increment starts the window, later ones keep it, for every call that fails or whose answer is lost, while the clock runs on |
| RateLimiter.Limiter.LimitByTenant | internal/application/middlewares/rate_limit/rate_limit_tenant_middleware.go:25-64 | who passes, the new count, and that other keys are untouched |
| RateLimiter.KeyTells | internal/infrastructure/adapters/rate_limiter/rate_limiter_tenant.go:25-33 | for tenants without a colon in their id the key is that of no other tenant and no other endpoint |
| RateLimiter.KeysCollide | internal/infrastructure/adapters/rate_limiter/rate_limiter_tenant.go:25-33 | two tenants can share a key exactly if one is the beginning of the other, up to a colon |
| RateLimiter.TenantsAreIsolated | internal/infrastructure/adapters/rate_limiter/rate_limiter_tenant.go:25-104 | over every run, how many requests of a tenant pass at an endpoint and what the cache holds for them does not depend on other tenants' requests, nor on those to other endpoints |
| RateLimiter.FixedWindow | internal/infrastructure/adapters/rate_limiter/rate_limiter_tenant.go:35-104 | from a window's first request to its expiry at most 50 pass besides those whose calls fail, and exactly min(50, requests) if all are counted |
| RateLimiter.SlidingWindow | internal/infrastructure/adapters/rate_limiter/rate_limiter_tenant.go:35-104 | in any interval of 60 seconds at most 100 pass besides those whose calls fail |
| RateLimiter.RemainingIsExact | internal/infrastructure/adapters/rate_limiter/rate_limiter_tenant.go:63-66 | while the window lasts exactly `remaining` more requests pass, as far as so many are made and counted |
| RateLimiter.ResetOpens | internal/infrastructure/adapters/rate_limiter/rate_limiter_tenant.go:41-62 | the reset time is that at which the key opens, rounded like the time left; 60 seconds ahead for a key that is missing or whose time left cannot be read |
| RateLimiter.RetryAfterRounds | internal/infrastructure/adapters/rate_limiter/rate_limiter_tenant.go:56-72 | the announced seconds are the time left to the nearest; a caller that waits them is let in exactly if it was not rounded down, and half a second later always |
| RateLimiter.ClosedStaysClosed | internal/infrastructure/adapters/rate_limiter/rate_limiter_tenant.go:35-104 | no run of requests opens a closed key before its expiry |
| RateLimiter.NoExpiryExactly | internal/infrastructure/adapters/rate_limiter/rate_limiter_tenant.go:82-104 | after every run of requests a key has no expiry exactly if it had none before or a request stranded it |
| RateLimiter.WindowsExpire | internal/infrastructure/adapters/rate_limiter/rate_limiter_tenant.go:82-104 | from the empty cache, 60 seconds after the last request a key is left exactly if a request stranded it |
| RateLimiter.LostReplyStrands | internal/infrastructure/adapters/rate_limiter/rate_limiter_tenant.go:89-93 | one request whose increment is applied but not answered leaves the key for ever |
| RateLimiter.ExpiryInBetweenStrands | internal/infrastructure/adapters/rate_limiter/rate_limiter_tenant.go:82-101 | two requests without a failing call leave the key for ever, as it expires between the second one's look and its increment |
| RateLimiter.StrandedClosesForEver | internal/infrastructure/adapters/rate_limiter/rate_limiter_tenant.go:95-101 | a stranded key admits 49 more requests in all |
| RateLimiter.InterleavedExpire | internal/infrastructure/adapters/rate_limiter/rate_limiter_tenant.go:82-104 | however the calls of any number of requests interleave, a key that none of them strands has an expiry as soon as they are through |
| Cuid.Base36Encode | internal/domain/utils/cuid.go:87-102 | the loop computes the base-36 digits |
| Cuid.DecodeEncode | internal/domain/utils/cuid.go:87-102 | decoding gives the number back, for every number |
| Cuid.DigitsInOrder | internal/domain/utils/cuid.go:87-102 | the digits are 0 to 9 and a to z, in the order of their values |
| Cuid.DigitCount | internal/domain/utils/cuid.go:87-102 | at most k digits exactly for numbers below 36^k |
| Cuid.Generator.GenerateRandomString | internal/domain/utils/cuid.go:105-113 | each byte becomes the character of its remainder |
| Cuid.Generator.GenerateCUID | internal/domain/utils/cuid.go:30-84 | the counter advances by one, the id has 25 characters: time, counter, fingerprint and the characters of the random bytes, cut or padded |
| Cuid.TimestampFits | internal/domain/utils/cuid.go:37-40 | a 64-bit time has at most 13 digits, so the stem is never cut |
| Cuid.StemIsReadable | internal/domain/utils/cuid.go:39-49 | time and counter modulo 36^4 can be read off an id |
| Cuid.RestIsRandom | internal/domain/utils/cuid.go:61-81 | what follows the fingerprint are the random bytes modulo 36, in order |
| Cuid.EqualIdsAgree | internal/domain/utils/cuid.go:72-81 | equal ids with equally long times have the same time and the same counter modulo 36^4 |
| Cuid.CountersTellApart | internal/domain/utils/cuid.go:30-84 | counters less than 36^4 apart give different ids, whatever the random parts |

## Left out

- Notifications.Store.ClaimPending: models one row, so the claim's limit of 50 and its order by age are not stated; the same kind of choice among rows is proved for `JobsTable.Table.Claim`.
- Notifications.Tick: the other rows of the same claim are left out; in the state machine a claim or a reset of the row may come at any moment, so the theorems about runs hold for every schedule and every threshold.
- The recipient queries of `internal/features/workers/notifications/recipients.go:27-82` are an ordered list of tokens; their joins and mute filters are left out. The query for personal notifications orders by the user row, which is no total order for a user with several devices; the model takes the order as fixed. Devices added during a dispatch are left out.
- The recipient count, the titles and bodies, and the choice of the Firebase project.
- FCM is assumed to report one outcome per token, so that successes and failures add up to the batch.
- The tickers, `Start`, `Stop` and the job channel of the two workers; a claimed job counts as being executed from its claim.
- JobsTable.Table.Claim: ties in priority and age may be broken either way, as SQL leaves them open, and `SKIP LOCKED` appears only as claims that pick any claimable rows in `JobQueue`.
- Audio extraction, the calls to the transcriber, costs and token usage, languages and metadata; times are reals, so floating-point rounding is left out.
- TranscriptStore.StoreIsCoherent: ids generated by different attempts are assumed different, and the upsert's row lock is the condition that no other open transaction holds the key; row ids of chunks, durations and course ids are left out.
- Pipeline.ExecuteJob: tenant lookup, payload checks and the video host come before it and are left out.
- The channels of `ProcessAllPendingLessons`, `RetryFailedAssets` and the two cleanups are the same pool as `WorkerPool`; only the page pool is connected to its result.
- MemberImport.ImportIsIdempotent: for rows without a document number; with one, the user may be found through it, and rows with different documents for one address are not covered.
- PdfAsset.Repository.SaveSinglePage: concurrent saves of different pages are one after the other, in any order; the upload's address is left out. Two operations on the same asset at once are not modelled.
- PdfAsset.Repository.RegeneratePDF: a new asset is created without an id in the source, so a second one may collide in the database; the model has one lesson and creates it.
- MemberImport.ImportJob.ProcessRow: which member a lookup by document returns is a parameter, also when several match; phones, passwords and the token columns of the user row are left out, and `strings.ToLower`, the address check and the document variants are arbitrary functions.
- MemberImport.ImportJob.RunImport: the rows and counters written for display after each batch, and recovery from a panic.
- RateLimiter.Limiter.LimitByTenant: the calls of one request are not interleaved with those of another, and keys hold numbers only; two requests at once can break the bounds of `FixedWindow` and `SlidingWindow`.
- RateLimiter.NoExpiryExactly: for requests one after another; at once, another request's set may still give a stranded key an expiry, so only one direction is stated (`InterleavedExpire`).
- RateLimiter.RetryAfterRounds: the cache is taken to report the time left in seconds to the nearest, as Redis does.
- The limiter per IP address is the same code under another key.
- Cuid.Generator.GenerateCUID: the counter is unbounded, the fingerprint is counted in characters, and the zero padding of `%04s` is taken as written.
- HTTP handlers, middlewares other than the tenant limiter, authentication, crypto, mail templates, statistics and search.
