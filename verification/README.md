# Verification of the request core and its protocols

A Dafny model of the parts of codex-link-clawbot that must not lose or repeat work, with proofs of what they promise.

- **The durable request store** (`internal/core/request`): an index of requests by owner in memory, a committed
  baseline and a database. Every operation is specified on rows and tables (`RequestSpec`), shown to keep one
  invariant (`RequestInvariant`), and placed in runs with failed saves, crashes and restarts (`RequestRuns`). Over
  these runs stand the main results (`RequestTheorems`, `RequestRetention`, `RequestReading`, `RequestDelivery`,
  `RequestAttempts`, `RequestCapacity`); `RequestMeaning` says field by field what each step leaves behind, and
  `RequestWitnesses` builds runs that show what is possible and how a promise is missed. `RequestStore` is the store
  as it runs, a class with owner lists that it edits and rolls back; each method is proved to be one step of the
  specification. `RequestIndex` and `RequestPersistence` connect lists, rows and differential writes;
  `RequestRecovery` is the pass after a restart, `RequestReopening` the opening of the whole store, repeated or
  interrupted; `RequestSteps` joins the small steps of the class to whole operations.
- **The coordinator, the runner and draining** (`internal/core/execution`, `internal/core/runtimecontrol`):
  `Coordinator` and `Runner` are classes over the same store, `Drain` is a state machine whose steps are the critical
  sections of controller, coordinator and store, `RuntimeControl` the counters of the controller.
- **Protocols on top of the store**: the long poll with partial receipts (`Monitor`), drafts submitted in two phases
  (`Draft`, and `DraftRuns` for whole runs of them), and sending a result again (`Redelivery`).
- **Card pagination**: splitting blocks (`Pagination`) and packing their pieces onto pages (`Packing`).

`dafny verify dfyconfig.toml` verifies the project.

## How the model reads the source

- A transaction commits as a whole or not at all, and any of them may fail; `reliable` is the case in which none does.
  A crash keeps only the database.
- The clock is a parameter that never goes back. An operation takes one reading, except that a start takes one for its
  cleanup and a later one for the rest, and opening takes one for recovery and cleanup.
- Texts and attachments are sizes; `intact` and `verified` say whether stored files still verify; `wellFormed` stands
  for the format checks of submitted strings, which are taken trimmed, and for source data being JSON at all.
  Identifiers drawn at random are parameters and may collide.
- Source data is not stored as bytes but decoded into rows and encoded again on every reading. `reread` is the size it
  then has: any size, zero when it names nothing, and None when it does not decode or names too many attachments, so
  that the save fails after every check. What is read back reads back the same again.
- What the network, the conversation engine, the target store and the disk layout answer is arbitrary.
- Integers are unbounded; every size and time the source adds stays far below 2^63.

## What the proofs found

- `CompleteExecution` can be called again, also after the result was frozen, and then raises the reservation without a
  check. `RequestCapacity.CompletionFitsExactly` gives the exact condition and
  `RequestWitnesses.RepeatedCompletionOverflows` a run that exceeds the limit. The runner calls it once
  (`Runner.Complete`).
- Recovery counts retention from the freeze instead of the completion, so a restart can extend it
  (`RecoveryKeepsExpiryExactly`, `RecoveryFitsExactly`, `LateFreezeGrows`), although docs/design/sqlite-storage.md
  promises seven days from the completion. The model follows the code.
- `AttachInput` does not check capacity again. `PreparationFitsExactly` says when the charge does not grow,
  `PreparationOverflows` is a run in which it does; the runner never prepares more than was stored
  (`Runner.PrepareInput`).
- Source data may read back as more than was submitted, because both keys are written and characters are escaped. Then
  the input of a live request cannot be read (`RequestReading.ReadsExactly`, `LiveInputUnreadable`), and when it exceeds
  128 KiB the store no longer opens while the request is live, for one in flight never again
  (`RequestReading.OpensExactly`, `BlockedForGood`, `StoreNeverOpens`). The callers in the repository marshal both keys
  themselves, so what they submit reads back as no more and none of this happens (`OpensUnlessDamaged`).
- A start with both attachments and source data can pass every check and then be refused by the validation of the save
  (`RequestSteps.StartDecides`; `RequestWitnesses.StartRefusedBySave` is such an instruction).
- A completion that could not be saved is lost in a crash before the next save (`CrashKeepsSaved`,
  `UnsavedCompletionLost`); until then memory keeps it (`MemoryCompletionStays`).
- An answer over 5 MiB is refused before its completion is recorded, so its request ends as failed and may be retried
  (`Runner.Execute`).
- Under the invariant recovery never needs a completion checkpoint, because checkpoint and index row are committed
  together; the branch is modelled all the same.
- A drain that overlaps a resume can report a completion that does not last, and a retry is not counted as entering.
  `Drain.CompletionLastsExactly` and `Drain.RetriesStayAwayExactly` say exactly when a reported completion can be relied
  on; `OverlappingResumeBreaksDrain` and `RetryEscapesDrain` are runs in which it cannot.
- The comment in the paginator about orphaned headings is stronger than the code: three units are left below a heading,
  and a larger next block still moves to the next page. `Packing.HeadingEndsExactly` says when, `OrphanedHeading` is an
  input.

## Model

| member | source | states |
|---|---|---|
| `RequestRuns.RunInvariant` | internal/core/request/model.go:260-313 | Over every run of starts, rejections, retries, clears, completions, deliveries, cleanups, failed saves, crashes and restarts with a clock that never goes back, memory, tables and index stay consistent, before and after each step |
| `RequestRuns.StepRows` | internal/core/request/lifecycle.go:174-226 | In any step a committed request keeps identity, completion and end; it leaves only when finished, against a clear receipt or after 30 days; receipts leave only after 30 days |
| `RequestTheorems.AtMostOneStart` | internal/core/request/store.go:83-106 | Two successful new starts of one source in any run are separated by at least 30 days after the first one finished |
| `RequestWitnesses.RunsStart` | internal/core/request/store.go:31-156 | A process that opened an empty database turns a short instruction into a running request, on disk |
| `RequestWitnesses.StartRefusedBySave` | internal/core/request/model.go:349 | In a store just opened an instruction with a file of 2 MiB and source data that names another passes every check of a start, and the validation of the save refuses it |
| `RequestTheorems.RejectedDoesNotStart` | internal/core/request/rejection.go:22-41 | A source with a rejection receipt starts no earlier than 30 days after the date of the receipt, in any run |
| `RequestTheorems.TurnedAwayDoesNotStart` | internal/core/request/rejection.go:22-41 | In any run a source that is turned away at some time, by a rejection that was stored or by a start that met a busy session, and that had no receipt before, starts no earlier than 30 days after that time |
| `RequestTheorems.CompletionIsIrreversible` | internal/core/request/lifecycle.go:185-197 | A committed completion is never lost while its request exists, across restarts, and a retry of it is never accepted |
| `RequestTheorems.MemoryCompletionStays` | internal/core/request/completion.go:43-52 | A completion that only memory knows survives every run of the process up to its next crash and refuses a retry all that time |
| `RequestTheorems.StateShowsCompletion` | internal/core/request/model.go:337-339 | Delivering and succeeded imply a recorded completion; failed, interrupted and cancelled imply none |
| `RequestTheorems.SessionsExclude` | internal/core/request/model.go:283-289 | In every reachable state, in memory and on disk, no two active requests share a session |
| `RequestTheorems.TurnsApart` | internal/core/request/model.go:283-289 | Over any run, two turns that are in flight at a common moment are on different threads, whichever moments of the two are compared |
| `RequestTheorems.StepRetains` | internal/core/request/lifecycle.go:368-446 | After any step a live request has its input and an archived retained one its result; history is dropped only after both of its retention periods |
| `RequestRetention.StepKeepsInput` | internal/core/request/preparation.go:55-69 | In any step, crashes and restarts included, the retained input of a request stays the same input, except that its own preparation replaces text and attachments and keeps source and token |
| `RequestRetention.StepKeepsCheckpoint` | internal/core/request/completion.go:34-69 | In any step a checkpoint stays the same until its result is frozen or its retention ends, unless the request is completed again |
| `RequestRetention.InputStays` | internal/core/request/payload.go:137-169 | Over any run the input of a request nobody prepares is the one stored at its start, until it expires |
| `RequestRetention.CheckpointStays` | internal/core/request/completion.go:56-69 | Over any run the checkpoint of a request is the one its completion wrote, until freeze or expiry |
| `RequestDelivery.StepResults` | internal/core/request/result.go:118-149 | In any step a retained frozen result keeps its content and every operation registered with it |
| `RequestDelivery.RedeliveredAtMostOnce` | internal/core/request/recovery.go:45-77 | While a request exists each operation number is granted as new at most once, across replays and restarts |
| `RequestDelivery.ReceiptsConsistent` | internal/core/request/result.go:285-330 | In every reachable state attempts are distinct, at most 50 and never pending, and a pending result has no attempts |
| `RequestAttempts.StepAttempts` | internal/core/request/result.go:234-283 | In any step, crashes and restarts included, every attempt of a retained result stays as it was, except the one for which this step records a receipt |
| `RequestAttempts.LastRecordStands` | internal/core/request/result.go:250-275 | Over any run what is on file for an operation is what the last step put there: its registration, which is ambiguous, or the receipt recorded for it |
| `RequestAttempts.SentExactly` | internal/adapters/wechat/recovery.go:124-136 | Over any run a repeated operation is on file as sent exactly when the last thing recorded for it was that it was sent |
| `RequestCapacity.SpaceIsBounded` | internal/core/request/recovery.go:21-42 | Over any run in which a request is completed once, inputs are prepared no longer than submitted and no late-frozen result is in flight at a restart, result space stays within 1 GiB and input space within 500 MiB |
| `RequestCapacity.StoredFits` | internal/core/request/recovery.go:21-42 | The limits are about real bytes: the retained results on disk fit in 1 GiB beside the greatest result of every request that has not completed, and the texts and files of live inputs fit in 500 MiB |
| `RequestCapacity.CompletionFitsExactly` | internal/core/request/completion.go:34-42 | Exactly when completing a request does not raise its reservation |
| `RequestCapacity.RecoveryFitsExactly` | internal/core/request/lifecycle.go:291-302 | A restart raises a reservation exactly for a result frozen late |
| `RequestCapacity.PreparationFitsExactly` | internal/core/request/preparation.go:57-66 | Prepared input stays within its charge exactly when text and files fit the reserved sizes, and always when the text is no longer than the stored one and the files are within 100 MiB |
| `RequestCapacity.InputMatchesIndex` | internal/core/request/payload.go:145-167 | In a consistent store the stored input of a live request agrees with the index in source and parts, and meets every limit but that of its source data; its charge fits the index exactly when prepared or when the source data reads back as no more than the size the request was charged for |
| `RequestSteps.LiveInputReads` | internal/core/request/payload.go:137-169 | In a consistent store reading an input back succeeds exactly for a request that exists, whose input has not expired, and whose source data, while its attachments are not prepared, reads back as no more than was charged |
| `RequestReading.ReadsExactly` | internal/core/request/sqlite.go:180-236 | In any run, while a request is live its input can be read back exactly when its attachments are prepared or the source data it was started with reads back as no more than was submitted |
| `RequestReading.HasOrigin` | internal/core/request/store.go:126-156 | Every request of a reachable database was started in the run, and while it waits for its attachments its stored input is the one it was started with |
| `RequestReading.OpensExactly` | internal/core/request/lifecycle.go:303-322 | A consistent store opens exactly when no request in flight has an archived result that no longer verifies and no live input reads back as more than 128 KiB |
| `RequestReading.BlockedForGood` | internal/core/request/lifecycle.go:317-322 | Once a process ends with a request in flight whose input reads back as more than 128 KiB, no later process opens this database, over any run |
| `RequestReading.OpensUnlessDamaged` | internal/core/request/lifecycle.go:303-322 | In a run in which every instruction reads back as no more than was submitted, only an archived result that no longer verifies keeps the store from opening |
| `RequestWitnesses.LiveInputUnreadable` | internal/core/request/attachmentref/store.go:50-119 | A run reaches a live request with 23 bytes of source data that read back as 35, and its input cannot be read |
| `RequestWitnesses.StoreNeverOpens` | internal/core/request/lifecycle.go:448-462 | A run reaches a running request with source data of the greatest accepted size that reads back as twelve bytes more; after a crash no opening succeeds at any later time |
| `RequestWitnesses.RepeatedCompletionOverflows` | internal/core/request/completion.go:22-33 | A run from an empty database reaches ten requests that fit in 1 GiB, one of them archived; completing that one again, with a save that commits, exceeds it |
| `RequestWitnesses.PreparationOverflows` | internal/core/request/preparation.go:13-69 | A run reaches five inputs that fit in 500 MiB, the last one waiting for an attachment it names; preparing it with a longer text exceeds the limit, because nothing checks the capacity again |
| `RequestWitnesses.UnsavedCompletionLost` | internal/core/request/completion.go:43-52 | A run reaches a completion that only memory knows; a crash and an opening later the request is interrupted and a retry of it accepted |
| `RequestWitnesses.LateFreezeGrows` | internal/core/request/lifecycle.go:293-297 | A run reaches a database with a result frozen at the end of its week, holding no reservation; the restart that follows reserves it again |
| `RequestInvariant.ChangePreservesEntry` | internal/core/request/lifecycle.go:234-255 | No change of one request, if its row is valid, breaks the consistency of the request with its input, checkpoint and result rows |
| `RequestInvariant.StartPreserves` | internal/core/request/store.go:126-156 | A new request keeps the invariant of memory, tables and baseline |
| `RequestInvariant.MemoryCompletionPreserves` | internal/core/request/completion.go:43-52 | Keeping a completion in memory after a failed save keeps the invariant |
| `RequestInvariant.SubsetValid` | internal/core/request/lifecycle.go:389-446 | Dropping old requests and receipts never makes the index invalid |
| `RequestInvariant.CleanupPreserves` | internal/core/request/lifecycle.go:368-446 | Cleanup keeps the invariant wherever it stops, also over a freshly recovered index |
| `RequestRecovery.RecoversExactly` | internal/core/request/lifecycle.go:303-322 | Recovery stops exactly on a request in flight with an archived result whose files no longer verify, or on a live input whose source data reads back as more than 128 KiB |
| `RequestRecovery.RecoveryKeepsCompletion` | internal/core/request/lifecycle.go:279-311 | Recovery ends every request; succeeded exactly when a completion was recorded, interrupted exactly when not; it neither forgets nor invents a completion |
| `RequestRecovery.RecoveryKeepsExpiryExactly` | internal/core/request/lifecycle.go:291-297 | A restart keeps the retention date exactly unless it finds a result in flight frozen at another time than the completion |
| `RequestRecovery.RecoveryIdempotent` | internal/core/request/lifecycle.go:257-344 | One request: recovering it again at any later time changes nothing |
| `RequestRecovery.InterruptedRecoveryAgrees` | internal/core/request/lifecycle.go:264-302 | One request: a crash after its receipt write and a second recovery reach what one recovery at that time reaches, up to receipt times |
| `RequestReopening.OpeningIsDetermined` | internal/core/request/store.go:31-59 | A successful opening of the whole store, its saves and its cleanup included, has exactly one outcome for a database, the files that verify and the clock |
| `RequestReopening.OpeningSucceeds` | internal/core/request/store.go:31-59 | Opening a consistent database can succeed exactly when every request recovers |
| `RequestReopening.ReopeningOnlyCleans` | internal/core/request/store.go:31-59 | Opening a store that was opened before does one cleanup and changes nothing else, in index or tables |
| `RequestReopening.PartialPassRecovers` | internal/core/request/lifecycle.go:257-344 | Receipts written by a pass that stopped do not change what a later pass makes of the index, nor whether it succeeds |
| `RequestReopening.StoppedOpeningAgrees` | internal/core/request/lifecycle.go:257-344 | An opening stopped anywhere, followed by one that succeeds, leaves the index and results one opening at the later time leaves, up to the stamps of an end and of an ambiguous delivery |
| `RequestReopening.CrashKeepsSaved` | internal/core/request/completion.go:43-52 | A completion of a request in flight survives a crash exactly when it was saved; otherwise a retry is accepted |
| `RequestRecovery.RecoveredRowsValid` | internal/core/request/store.go:46-58 | The recovered index is valid and has no active request |
| `RequestRecovery.OpenPreserves` | internal/core/request/store.go:31-59 | Opening keeps the database consistent however far it gets; a store that opens satisfies the invariant |
| `RequestRecovery.OpenLeavesNothingActive` | internal/core/request/store.go:46-58 | A store that opened has nothing active and its rows are on disk |
| `RequestIndex.ValidIffRowsValid` | internal/core/request/model.go:260-313 | Validating the owner lists is validating the rows they hold |
| `RequestIndex.RowsDetermineIndex` | internal/core/request/sqlite.go:54-94 | Sorted lists are determined by the rows they hold, up to owners without requests |
| `RequestPersistence.PatchIsRewrite` | internal/core/request/sqlite.go:114-173 | A differential write equals a full rewrite exactly when the table agrees with the baseline wherever the write skips |
| `RequestPersistence.PatchOfBaseline` | internal/core/request/sqlite.go:114-173 | With the committed rows as baseline the differential write is a full rewrite, for any old and new index |
| `RequestPersistence.SyncRows` | internal/core/request/sqlite.go:120-133 | The two loops over a table produce the patched table, and the new rows when the table is the baseline |
| `RequestPersistence.SnapshotIndex` | internal/core/request/sqlite.go:104-112 | The snapshot of the lists is the map of their rows |
| `RequestPersistence.ValidateIndex` | internal/core/request/model.go:260-313 | Validation with seen-maps accepts exactly the indexes that satisfy the rules pair by pair |
| `RequestSteps.GuardsDecide` | internal/core/request/lifecycle.go:174-226 | In a consistent store validation never refuses ending, completing, freezing or delivering: their own guards alone decide |
| `RequestSteps.StartDecides` | internal/core/request/store.go:83-156 | In a consistent store an admitted start with storable source data is refused by the save exactly when attachments come together with source data and exceed what one request may be charged |
| `RequestSteps.ReleaseDecides` | internal/core/request/completion.go:90-115 | Validation refuses no release of a finished request |
| `RequestSteps.RejectDecides` | internal/core/request/rejection.go:22-41 | Validation refuses no rejection of a source that is neither running nor cleared |
| `RequestSteps.MoveTask` | internal/core/request/lifecycle.go:184-215 | A recorded completion turns every end into success and refuses a cancel; otherwise the transition table decides |
| `RequestSteps.CleanedMore` | internal/core/request/lifecycle.go:405-444 | Saving list after list is one cleanup of all of them |
| `RequestMeaning.SessionKeyMeans` | internal/core/request/model.go:444-449 | Two requests share a session exactly when they share a thread, or before either has one and for one owner, the target |
| `RequestMeaning.RejectionMeans` | internal/core/request/rejection.go:22-41 | A stored rejection leaves a receipt that names source, owner, target, holder and turn and is dated now; recent receipts stay, old ones go, nothing else changes; a source with a receipt keeps the one it has |
| `RequestMeaning.BusyMeans` | internal/core/request/store.go:96-107 | A start that meets a busy session leaves such a receipt, which names the request that holds the session |
| `RequestMeaning.CreatedRuns` | internal/core/request/store.go:108-156 | A created request runs on disk with source, owner, target and thread of the instruction, its whole input and its charge, dated now, as the last in order |
| `RequestMeaning.CreatedTouchesNone` | internal/core/request/store.go:126-156 | A new request has no result and no checkpoint, and the rows of all other requests are as they were |
| `RequestMeaning.RetryMeans` | internal/core/request/lifecycle.go:51-78 | A retry that created a request left one that runs with the owner, target, thread and stored input of the original, under the new source and token |
| `RequestMeaning.RetryMeetsHolder` | internal/core/request/store.go:96-107 | A retry whose session is held by an active request is never started, and is answered busy when nothing comes before this check |
| `RequestMeaning.ReleasedMeans` | internal/core/request/completion.go:90-115 | A released request is gone with all its rows; its source keeps a receipt of owner, number, state, completion and end; everything else is as it was |
| `RequestMeaning.ChangeTouchesOne` | internal/core/request/lifecycle.go:234-255 | A change of one request changes no other request, receipt, input, checkpoint or result |
| `RequestMeaning.AttachedMeans` | internal/core/request/lifecycle.go:108-123 | A fixed thread or turn is the one given, was free before, and nothing else of the request changes |
| `RequestMeaning.PreparedMeans` | internal/core/request/preparation.go:55-69 | Prepared input is the downloaded one under the old source and token, and the request is charged for exactly what is there |
| `RequestMeaning.CompletedMeans` | internal/core/request/completion.go:34-42 | A completion is dated now, never before the start; it keeps the result for seven days, reserves the greatest archive beside the answer and leaves a checkpoint with the same date |
| `RequestMeaning.FrozenMeans` | internal/core/request/result.go:118-149 | A frozen result is pending and dated now; the request keeps the date of its completion or takes the freeze for it, expires seven days later and is charged for the real size |
| `RequestMeaning.MovesExactly` | internal/core/request/lifecycle.go:184-215 | Exactly which moves a request can make, with and without a recorded completion, and what a move changes: state, reason, and at an end its date and the day the input is kept |
| `RequestMeaning.RecordedMeans` | internal/core/request/result.go:250-268 | A receipt becomes the receipt of the result; one with an operation number takes the place of the one attempt with this number and of no other, and is refused exactly when there is none; a first one without a number is the only attempt |
| `RequestMeaning.DeliveryMeans` | internal/core/request/result.go:234-283 | A recorded delivery is in the stored result, and the first one has ended the request in the same save |
| `RequestMeaning.RedeliveryMeans` | internal/core/request/recovery.go:64-77 | A newly registered operation is the last attempt and the receipt of the result, ambiguous, not dated before now, with nothing sent; earlier attempts are as they were |
| `RequestMeaning.CleanupMeans` | internal/core/request/lifecycle.go:368-446 | After a successful cleanup exactly what is due is gone: requests and receipts after thirty days, inputs after a day, results and checkpoints after their week; the rest is as it was |
| `RequestMeaning.RecoveryMeans` | internal/core/request/lifecycle.go:279-311 | How a restart ends a request in flight: by its archived result dated from the freeze, by its completion with the note that the archive is missing, or interrupted |
| `RequestMeaning.RestartReceiptMeans` | internal/core/request/lifecycle.go:264-302 | A restart finds a pending delivery ambiguous, dated no earlier than the restart, exactly where the result still counts, and changes no other result |
| `RequestStore.RequestStore.SaveLocked` | internal/core/request/sqlite.go:114-178 | A committed save makes the rows equal the index and moves the baseline; a failed or refused one changes neither database nor baseline |
| `RequestStore.RequestStore.SaveAndLoad` | internal/core/request/sqlite.go:54-178 | Saving and loading is the identity: a store that loads what this one committed has the same lists, counter and receipts, up to owners without requests |
| `RequestStore.RequestStore.FindBySource` | internal/core/request/store.go:237-246 | Finds a request of the source exactly when there is one |
| `RequestStore.RequestStore.FindHolder` | internal/core/request/store.go:96-107 | Finds an active holder of the session exactly when there is one |
| `RequestStore.RequestStore.Active` | internal/core/request/rejection.go:43-52 | Finds an active request of the owner meeting target or thread, or there is none |
| `RequestStore.RequestStore.Totals` | internal/core/request/recovery.go:21-29 | The loops add up exactly the reservations and charges of all rows |
| `RequestStore.RequestStore.ReplaceLocked` | internal/core/request/lifecycle.go:234-255 | One request is replaced and saved, or everything is as before |
| `RequestStore.RequestStore.TransitionLocked` | internal/core/request/lifecycle.go:174-226 | The transition is saved or nothing changes, and with a working disk its guard alone decides |
| `RequestStore.RequestStore.AttachThread` | internal/core/request/lifecycle.go:108-123 | A running request fixes its thread once, unless the index refuses it |
| `RequestStore.RequestStore.AttachTurn` | internal/core/request/lifecycle.go:499-513 | The turn is fixed once and success means it is the stored one |
| `RequestStore.RequestStore.AttachInput` | internal/core/request/preparation.go:13-69 | Input row and request row change together or not at all |
| `RequestStore.RequestStore.CompleteExecution` | internal/core/request/completion.go:19-54 | Completion and checkpoint are saved together; if the save fails memory alone keeps the completion |
| `RequestStore.RequestStore.LoadCompletion` | internal/core/request/completion.go:56-69 | The checkpoint is given exactly while retained and well-formed |
| `RequestStore.RequestStore.FreezeResult` | internal/core/request/result.go:78-149 | A result is frozen once, with its row and without the checkpoint, only when it is valid and fits; the stored result is what was collected, pending and without attempts; otherwise nothing changes; with a working disk its guards alone decide |
| `RequestStore.RequestStore.BeginDelivery` | internal/core/request/lifecycle.go:140-151 | Only a running request whose result loads with intact files starts delivery |
| `RequestStore.RequestStore.RecordDelivery` | internal/core/request/result.go:234-283 | A stored receipt is the receipt of the result; the one attempt with its operation number equals it and every other is as it was; the first delivery ends the request in the same transaction; only a completed and retained result takes one; otherwise nothing changes; with a working disk its guards alone decide |
| `RequestStore.RequestStore.BeginRedelivery` | internal/core/request/recovery.go:45-77 | A new operation is registered before sending, as the last attempt and the receipt, ambiguous and not dated before now; a known one is a duplicate; with a working disk exactly a retained result with intact files and fewer than 50 attempts takes a new one |
| `RequestStore.RequestStore.RejectLocked` | internal/core/request/rejection.go:22-41 | The receipt is stored, naming the source and dated now, beside the recent ones, or the old map is back; a source with a receipt keeps it; with a working disk a source that is neither running nor cleared is rejected |
| `RequestStore.RequestStore.Release` | internal/core/request/completion.go:90-115 | A finished request is replaced by a clear receipt in one save, or everything is as before; with a working disk exactly when the owner has it and it is finished |
| `RequestStore.RequestStore.Start` | internal/core/request/store.go:67-156 | After a cleanup the checks are made in order and each gives its own answer: a known source its request, a cleared, full, rejected, busy or crowded one its refusal, and only an admitted instruction starts; a busy session leaves a receipt dated now; whatever fails is rolled back; a working disk starts what is admitted and stores the receipt of a busy session |
| `RequestStore.RequestStore.Retry` | internal/core/request/lifecycle.go:36-80 | A retry reaches the start exactly for a failed or interrupted request without completion, a new source and an input that still verifies; a created request runs with the owner, target, thread and stored input of the original, refers to it, and has the new source and token; a session that is held is refused as busy; any other retry changes nothing |
| `RequestStore.RequestStore.DropOld` | internal/core/request/lifecycle.go:405-444 | One owner's old finished requests are dropped and saved, or the list is as before |
| `RequestStore.RequestStore.CleanupExpired` | internal/core/request/lifecycle.go:368-446 | Exactly expired rows, receipts and requests go; a failure leaves a prefix of the stages done |
| `RequestStore.RequestStore.LoadState` | internal/core/request/sqlite.go:54-94 | The lists hold exactly the selected rows in order, and loading succeeds exactly on a valid index |
| `RequestStore.RequestStore.RecoverTaskAt` | internal/core/request/lifecycle.go:264-325 | One request recovers as specified, its receipt settled on disk first; with a working disk exactly when it recovers at all |
| `RequestStore.RequestStore.RecoverLocked` | internal/core/request/lifecycle.go:257-344 | The pass over all lists and a cleanup; a failure leaves only receipts of the requests already passed; with a working disk it succeeds exactly when every request recovers |
| `RequestStore.RequestStore.Open` | internal/core/request/store.go:31-59 | Opening is load, recovery and one save when anything was ended; without it the process does not come up; with a working disk a consistent database opens exactly when every request recovers |
| `Redelivery.Redeliver` | internal/adapters/wechat/recovery.go:99-155 | A send happens only after its operation was registered as new, and with a working disk always then; it stays registered as ambiguous until the report replaces it; a repeated operation sends nothing and succeeds exactly when its attempt on file says sent; with a working disk a new one succeeds exactly when it was sent, and a well-formed report is always on file |
| `Coordinator.CancelKeepsLinear` | internal/core/execution/coordinator.go:143-160 | Granting a cancel keeps the history linear exactly when none was granted and no verdict given |
| `Coordinator.FinalizeKeepsLinear` | internal/core/execution/coordinator.go:111-116 | A verdict keeps it linear exactly when it reports the cancel flag |
| `Coordinator.LinearMeans` | internal/core/execution/coordinator.go:100-160 | At most one cancel succeeds, none after a verdict, and a verdict is true exactly when a cancel came before it |
| `Coordinator.Coordinator.FindConflict` | internal/core/execution/coordinator.go:73-86 | Reports a conflict only when there is one; reports none only when no admission shares source, target, thread or stored thread |
| `Coordinator.Coordinator.ActiveApart` | internal/core/execution/coordinator.go:73-86 | Two admissions that are active together never share a thread, nor, of one owner, a target or a source |
| `Coordinator.Coordinator.Begin` | internal/core/execution/coordinator.go:64-95 | An admission is granted exactly to an open instance, an owner who can execute, and a session that no admission and no active request has; each refusal names its condition; the accounting of workers and the pairwise exclusion hold afterwards |
| `Coordinator.Coordinator.Launch` | internal/core/execution/coordinator.go:100-118 | An admission is launched at most once, and only while active |
| `Coordinator.Coordinator.Release` | internal/core/execution/coordinator.go:121-128 | Only an admission that was not launched is given up |
| `Coordinator.Coordinator.ReleaseLocked` | internal/core/execution/coordinator.go:135-141 | However often it is called, an admission gives back its worker exactly once |
| `Coordinator.Coordinator.Cancel` | internal/core/execution/coordinator.go:143-160 | Succeeds by setting one flag that was unset before any verdict; fails only when no launched admission qualifies |
| `Coordinator.Coordinator.BeginEffect` | internal/core/execution/coordinator.go:175-186 | An effect starts exactly when the instance is open and fewer than 32 run |
| `Coordinator.Coordinator.WaitIsOver` | internal/core/execution/coordinator.go:164-172 | The wait of a shutdown is over exactly when no admission and no effect is left, not even one that is returning |
| `Runner.EndStateTerminal` | internal/core/execution/runner.go:149-161 | Every outcome of an execution is terminal except a granted cancel whose turn failed for another reason; success means an answer within the limit |
| `Runner.Runner.PrepareTurn` | internal/core/execution/runner.go:57-139 | A turn starts only after its thread is fixed in the store, and before it nothing is recorded; when nothing stands in its way, the thread is known and no attachment is waited for, it does start |
| `Runner.Runner.PrepareInput` | internal/adapters/wechat/execution_channel.go:59-79 | The runner prepares no longer text than was stored, so it keeps to what the space bounds ask of a preparation |
| `Runner.Runner.Complete` | internal/core/execution/runner.go:162-165 | The runner completes a request that has no completion yet, and a completion is recorded exactly for an answer within the limit, whatever the disk does |
| `Runner.Runner.FailBefore` | internal/core/execution/runner.go:193-199 | Before a turn the request ends as cancelled by the user or failed for the given reason, and without a completion |
| `Runner.Runner.Conclude` | internal/core/execution/runner.go:162-191 | Once the completion is recorded, archive and delivery failures end in success; an oversized answer ends as failed; with a working disk an archive that fits is frozen as collected, and a report that can be recorded is |
| `Runner.Runner.HandOver` | internal/core/execution/runner.go:171-191 | A frozen answer is delivered when its files verify; whatever fails from here, the result stays as frozen and the request succeeds when it ends |
| `Runner.Runner.EndTurn` | internal/core/execution/runner.go:149-165 | How a turn came back decides the end: an answer, an interrupt that is unconfirmed, a cancel, or a failure |
| `Runner.Runner.Execute` | internal/core/execution/runner.go:57-199 | With a working disk and no shutdown an execution ends exactly in the state its outcome calls for; a completion is recorded exactly for an answer within the limit, whatever fails; an answered request is never retried, and with a working disk an answer over the limit is exactly the one that may be; an unsettled interrupt cannot be retried |
| `Runner.Runner.RestoreResult` | internal/core/execution/runner.go:236-256 | Archiving later changes neither state nor completion, and stores what was collected; with a working disk it succeeds for a retained answer that is not archived, has a turn to read and fits |
| `Drain.CountedAlways` | internal/core/runtimecontrol/controller.go:99-111 | The ingress counter counts exactly the messages on their way, over all interleavings |
| `Drain.CompleteMeansQuiet` | internal/core/runtimecontrol/controller.go:113-187 | Once a drain shut the gate, a snapshot begun afterwards that reports completion means no message's request runs or can start until a resume opens the gate |
| `Drain.QuietExactly` | internal/core/runtimecontrol/controller.go:99-187 | No message is under way now or in any continuation until somebody asks to resume, exactly when none is now, the gate is shut and no resume is under way |
| `Drain.CompletionLastsExactly` | internal/core/runtimecontrol/controller.go:113-187 | A completion that a snapshot reports lasts until somebody asks to resume, exactly when the gate is shut, nothing admitted is left to start and no resume is under way |
| `Drain.OverlappingResumeBreaksDrain` | internal/core/runtimecontrol/controller.go:113-133 | A run in which a resume overlaps the drain: completion is reported and does not last |
| `Drain.RetriesStayAwayExactly` | internal/adapters/wechat/recovery.go:74-91 | After a drain shut the gate and completion was reported, no retry runs until a resume opens the gate, exactly when none was admitted and not yet started |
| `Drain.RetryEscapesDrain` | internal/adapters/wechat/recovery.go:74-91 | A run in which a retry was admitted before the drain: completion is reported and the retry can still start |
| `RuntimeControl.Controller.ReadyMeans` | internal/core/runtimecontrol/controller.go:257-271 | Ready exactly when initialised, connected, not draining and every monitor healthy |
| `RuntimeControl.Controller.SetHealthyLocked` | internal/core/runtimecontrol/controller.go:242-255 | The healthy counter stays the number of healthy probes |
| `RuntimeControl.Controller.SetRunning` | internal/core/runtimecontrol/controller.go:205-217 | A stopped monitor is neither healthy nor in a batch, and all counters agree |
| `RuntimeControl.Controller.DrainComplete` | internal/core/runtimecontrol/controller.go:185-185 | Complete exactly when draining with nothing active, nothing entering and no probe in a batch |
| `Monitor.NothingMissed` | internal/adapters/wechat/ilink/monitor.go:190-221 | An attempt that hands on everything due leaves no message of the batch out |
| `Monitor.NeverTwice` | internal/adapters/wechat/ilink/monitor.go:197-201 | While keys are tracked no key is handed on twice, nor one that was seen before |
| `Monitor.ResumesWhereItStopped` | internal/adapters/wechat/ilink/monitor.go:197-213 | A batch whose messages all have a key resumes exactly where it stopped |
| `Monitor.ResumesExactly` | internal/adapters/wechat/ilink/monitor.go:197-213 | A batch delivered again hands on once more what it had handed on without a key, and then exactly what remained |
| `Monitor.HandedAgainOnlyAfter` | internal/adapters/wechat/ilink/monitor.go:190-221 | Over any run of attempts, expired sessions, crashes and restarts a key handed on under a cursor is handed on again only after the cursor moved or after a crash that came before its receipt was stored |
| `Monitor.CommittedWasHanded` | internal/adapters/wechat/ilink/monitor.go:190-221 | Over any run a batch is left behind only when each of its messages was handed on, by the last attempt or, for one with a key, by an earlier one |
| `Monitor.Monitor.SaveState` | internal/adapters/wechat/ilink/monitor.go:296-307 | Memory follows the database only on a commit; invalid states, more than 512 receipts among them, are refused |
| `Monitor.Monitor.HandleOne` | internal/adapters/wechat/ilink/monitor.go:197-213 | A handled key is remembered even when its receipt cannot be stored |
| `Monitor.Monitor.HandleAll` | internal/adapters/wechat/ilink/monitor.go:197-213 | The loop hands on a prefix of what is due, all of it on success |
| `Monitor.Monitor.ProcessBatch` | internal/adapters/wechat/ilink/monitor.go:190-221 | The cursor moves only when every message was handled in this or an earlier attempt; a failure keeps it; with working handler and disk and at most 512 keys it commits |
| `Monitor.Monitor.ResetExpired` | internal/adapters/wechat/ilink/monitor.go:112-129 | An expired session forgets the cursor and everything pending under it, and with a working disk it always can |
| `Draft.StoreKeepsDrafts` | internal/adapters/wechat/draft.go:117-134 | Whatever the request store does, crashes and restarts included, a started draft stays recognisable by its submit source until it expires |
| `DraftRuns.DraftStartsOnce` | internal/adapters/wechat/draft.go:149-219 | Over any run in which the steps of messages interleave with failed saves, crashes, restarts and everything else the store does, one draft is started at most once: between two starts for an owner the draft was gone |
| `DraftRuns.SceneHolds` | internal/adapters/wechat/draft.go:117-219 | Before and after every step of such a run a started draft is recognisable, a loaded one was never started, and a submitted one carries its source |
| `Draft.PrunedNeverStarted` | internal/adapters/wechat/draft.go:117-134 | After pruning no stored draft was ever started |
| `Draft.PrunedMeans` | internal/adapters/wechat/draft.go:117-134 | Loading leaves exactly the unexpired drafts that were not submitted under a source the store still knows, and the receipts of the last 30 days |
| `Draft.DraftHandler.PruneDrafts` | internal/adapters/wechat/draft.go:117-134 | Pruning removes exactly expired and submitted drafts and old receipts, and reports a change exactly when there is one |
| `Draft.DraftHandler.AddNote` | internal/adapters/wechat/draft.go:221-258 | A note is added within the limits and saved, or nothing changes |
| `Draft.DraftHandler.SubmitDraft` | internal/adapters/wechat/draft.go:201-220 | The source is stored before the start; with a working disk the draft goes exactly when its source has started, and else stays marked with it; what starts is the text and attachments of the draft |
| `Draft.DraftHandler.Handle` | internal/adapters/wechat/draft.go:149-259 | Over all calls every draft is started at most once; with a working disk a discard leaves no draft and notes its source, a submit of the draft for its own target with text reaches the start exactly then, a note within the limits adds its sizes, and everything else changes nothing but what expired |
| `Pagination.LinesOfJoin` | internal/adapters/wechat/visual/document.go:420-456 | Splitting joined lines gives the lines back |
| `Pagination.NeededIsLeast` | internal/adapters/wechat/visual/document.go:458-504 | The capacity that suffices for a kind of block is the least any block of it needs |
| `Pagination.SplitText` | internal/adapters/wechat/visual/document.go:340-354 | Pieces keep every visible character in order and fit, for text of one line |
| `Pagination.SplitCode` | internal/adapters/wechat/visual/document.go:420-456 | Pieces keep every character of every line in order and fit; cutting terminates |
| `Pagination.SplitRow` | internal/adapters/wechat/visual/document.go:387-416 | Every cell is its fragments in order, each within the limit; cutting terminates |
| `Pagination.SplitRows` | internal/adapters/wechat/visual/document.go:375-418 | The fragments of all rows, row after row, each row rebuilt by its own |
| `Pagination.SplitTable` | internal/adapters/wechat/visual/document.go:357-373 | Tables under the same headings hold all rows in order, none empty, each fitting when rows have one width |
| `Pagination.SplitBlock` | internal/adapters/wechat/visual/document.go:321-355 | A block that fits stays whole; any other keeps its content and fits whenever anything can |
| `Packing.PackPieces` | internal/adapters/wechat/visual/document.go:303-317 | The units counted are those of the current page; no page ends before it must; nothing is reordered |
| `Packing.Paginate` | internal/adapters/wechat/visual/document.go:291-319 | Every page fits, no page ends before it must and none goes on past it; a block that fits stays whole; the pages in order are the pieces of all blocks |
| `Packing.EndsExactly` | internal/adapters/wechat/visual/document.go:303-317 | A page ends with a piece exactly when the next piece does not fit below it, a heading with three units to spare |
| `Packing.HeadingEndsExactly` | internal/adapters/wechat/visual/document.go:303-317 | A heading is the last piece of its page exactly when the text that follows needs more than the page has left |
| `Packing.HeadingSpares` | internal/adapters/wechat/visual/document.go:303-317 | Three units are left below every heading that does not begin its page |
| `Packing.PackedUnique` | internal/adapters/wechat/visual/document.go:303-317 | There is only one way to pack a list of pieces like this |
| `Packing.OrphanedHeading` | internal/adapters/wechat/visual/document.go:303-317 | A paragraph of 34 units, a heading and a paragraph of 4 on pages of 40: the heading ends its page |

## Left out

- Display fields and listings: project, summary, stage text, response modes, token usage, `List`, `Status`, `Capacity`; they take part in no rule modelled here beyond their format checks.
- Files, hashes, symbolic links, directory synchronisation and staging directories: flags and arbitrary failures.
- The SQL schema is not part of this model: constraint failures are covered by arbitrary failure of a transaction, deletion of a request row is taken to delete the rows that refer to it.
- The one-off JSON import, deployment snapshots, notices, preferences, remote lock, backoff and menus.
- Integer overflow of 64-bit sizes and times: not reachable within the limits the source enforces.
- Execute: other operations on the store do not interleave with one execution except stage updates, the name of the turn, a cancel and a shutdown, because the store serialises them and only the execution changes its own active request.
- Begin: the action run under an idle session (`WithIdleSession`) is an admission that is released, not a member of its own.
- Cancel: for an admission that is not launched the request is guessed from the store; what is stated about failing cancels concerns launched admissions only.
- CompleteMeansQuiet: covers messages only; a retry enters without being counted, for which RetriesStayAwayExactly stands.
- ProcessBatch: the polling loop around it with its waits, and a deployment probe that holds messages back, are not modelled; keys handled without a pending cursor are not tracked, as in the source.
- ResumesWhereItStopped: is for batches whose messages all have a key; ResumesExactly is the statement for all.
- HandedAgainOnlyAfter: is for keys handed on under a cursor; without one the source tracks none.
- Handle: attachment formats and reply texts are one flag; other operations on the store do not come between the steps of one call, which DraftRuns allows.
- SplitText: for text with line breaks inside a block that is not code the pieces may exceed the budget; parsed markdown never yields such text.
- SplitTable: fits for rows of one width, as parsed tables have; ragged rows keep their content.
- Paginate: capacity is at least three, below which the source cannot cut code; page heights and the limit of ten pages are not modelled.
- InterruptedRecoveryAgrees: receipts agree up to their time stamp, and only while the result has not expired in between and its files did not stop verifying.
- StoppedOpeningAgrees: both openings see the same files verify; a request that recovery itself ended more than thirty days ago may already be dropped on the way that stopped.
- SaveAndLoad: is stated for rows whose order numbers are apart and below the next one, which the invariant of every run contains.
- Redeliver: the refusals that come before the registration (format of the operation number, lock, connection, a result without files) are not modelled.
- RedeliveredAtMostOnce: is stated while the request exists; afterwards there is nothing to send.
- Timing and liveness: progress timers, typing indicators, retry delays.
