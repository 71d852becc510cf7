# Serviq knowledge platform: a Dafny model

This project models the parts of Serviq where several transactions, processes or loops have to agree,
and proves what they keep. There are four of them.

**Upload ledger.** A file upload is admitted against the tenant's quota, finalised, bound to a cleanup
intent, PUT to the object store and referenced by a source row. The API's sweep and the worker's sweep
race with it, and a crash may come between any two steps. `CleanupRows` holds the row transitions of both
sweeps, `CleanupRecords` the same transitions as in-place updates, `Quota` the admission arithmetic and
the locked transactions on the tables, and `QuotaDecisions` says exactly which uploads they admit.
`UploadLedger` is the transition system of any number of requests and cleaners; `UploadLedgerInvariant` and
`UploadLedgerTheorems` prove its invariant and what follows. `UploadRequestPaths` and `UploadLedgerProgress`
say what the steps achieve: an upload whose calls succeed is committed, and a sweep whose DELETE returns
cleans up.

**Knowledge-sync delivery.** `start_source_sync` allocates a version and writes an outbox row, the
publisher sends it, and a consumer with manual commit, rewind and pause, a retry topic and a dead-letter
topic turns it into a document and a parse event. `Wire` is the contract between the two services,
`Delivery` the transition system over partition logs, `DeliveryTheorems` its theorems, `SyncWorker` the
handler and the batch loop as code that runs in place, each shown to be a run of `Delivery`. `Handling` says
what becomes of a message in each case, `OutboxBatches` what becomes of each row of a batch, and
`DeliveryProgress` follows a request to its completion. `SyncJob` is the job itself, with any number of
concurrent and duplicate deliveries, `SyncKinds` ties its events to their sources, and `EndToEnd` puts the two
together: the consumer's answer is what the job's own steps make it. `HandoffProgress` says what each of
these answers leads to, and follows a request to its document and parse event. `RawBytes` and
`RacingDeliveries` are about the bytes behind the parse events.

**Normaliser and chunker.** `PyText` and `TokenSpans` give stripping and `\S+` tokens, `HeadingStack`,
`Markdown`, `MarkdownBlocks`, `HtmlParser`, `HtmlPruning`, `HtmlCaptures` and `HtmlBlocks` lead from lines and
tag events to blocks, `SplitText`, `SplitTheorems` and `Materialize` from blocks to segments, and `Segments`,
`GroupText`, `Windows`, `Provenance`, `Chunking`, `ChunkTheorems` and `ChunkContents` from segments to chunks.
`MarkdownBlocks` gives a document's blocks over its lines alone, `HtmlCaptures` an element's text over its
events alone, `ChunkContents` a chunk's text over its segments alone. Which characters are white
space is a parameter `ws`; where it matters, the space and the line feed are required to belong to it, and
`PyText.PythonSeparatorsAreSpace` shows that they do in Python. "Ink" means the characters that are not
white space.

**Provider secrets and last owners.** `Providers` and `ProviderTheorems` interleave create, rotate, delete
and test, whose secret-store and network work lies between two transactions; `ProviderProgress` says what
each operation does to connections and secrets when nothing interferes. `Members` and `MemberTheorems` keep an
active owner in every organization, and `MemberProgress` says exactly when the transactions succeed.

In each transition system an action that is not enabled changes nothing, so a theorem about every sequence
of actions is a theorem about every interleaving, with crashes, lost answers and late effects as actions
of their own. Clock readings, random ids, what the network answers and what a caller's permissions allow
are parameters of the actions.

Assumptions of all transition systems: each `session.begin()` block is one atomic step, and a block that
raises did not commit (`UploadLedgerTheorems.CommitThenRaiseLosesTheObject` shows what goes wrong
otherwise); random ids and secret references never repeat. Of the object store, per system: in the upload
ledger each key gets at most one PUT, which may report an error and still take effect later, once, and a
DELETE that reports an error may take effect later too. In the sync job any number of PUTs go to one key,
and each takes effect before it returns or never, whatever it reports. Of the secret store: a deletion that
reports an error, or that a crash cut off, may take effect later.

Where code and expectation differ, the code is modelled as it is:

- Two concurrent deliveries of one URL version can leave a parse event without its bytes, in two ways: a
  late PUT overwrites the bytes of an event that is committed (`RacingDeliveries.PutOverwritesEvent`), or a
  handoff commits an event whose bytes another PUT has replaced (`RacingDeliveries.HandoffFindsOtherBytes`).
  `RawBytes.StepKeepsRawIff` says exactly which steps keep event and bytes together, and
  `RawBytes.RawBytesMatchIff` the same of whole runs. While one job runs at a time they always do
  (`RawBytes.RawBytesMatchWhenSerial`).
- The API's and the worker's sweeps store different error codes for a row that has both a spent attempt
  budget and a foreign key, and agree on everything else (`CleanupRows.ClaimsAgree`).
- Content blocks of Markdown keep the empty placeholders of skipped heading levels, heading blocks and all
  HTML blocks do not. A content block's path is that of the open sections if and only if the levels of the
  headings open at it have no gap (`Markdown.PathIsExactIff`); `Markdown.SkippedLevelLeavesPlaceholder`
  gives a document where they have.
- `_split_text` may cut a word. It keeps all words if and only if every cut lies between tokens
  (`SplitTheorems.SplitKeepsWordsExactly`); a word longer than the limit is always cut
  (`SplitTheorems.KeptWordsFit`), and where spaces and line feeds are the only white space, only such a word
  is (`SplitTheorems.SplitKeepsWordsIff`).

## Model

| member | source | states |
|---|---|---|
| CleanupRows.ClaimsAgree | services/worker/app/jobs/knowledge_upload_cleanup.py:236-325 | On every due row, the API's and the worker's claim steps agree on status, attempt count, lease and claim, presence flag included; their stored error codes differ exactly when a spent attempt budget meets a foreign key |
| CleanupRows.ApplyKeepsValid | services/api/app/modules/knowledge/repository.py:483-541 | Every row transaction keeps attempts within bounds, and a resolved row is never changed by one |
| CleanupRows.ResolvedIsFinal | services/api/app/modules/knowledge/cleanup.py:203-330 | Referenced, succeeded and exhausted are absorbing under every sequence of row transactions |
| CleanupRows.SweepsAreBounded | services/api/app/modules/knowledge/cleanup.py:203-330 | Over every history at most three claims happen, and four due sweeps always leave the row resolved |
| CleanupRecords.CleanupRecord.ArmForRetry | services/api/app/modules/knowledge/cleanup.py:125-150 | The in-place arming leaves resolved rows alone and is the row's arm step |
| CleanupRecords.CleanupRecord.RecordInlineDeletion | services/api/app/modules/knowledge/cleanup.py:164-190 | The in-place record of an inline deletion is the row's step, and releases the hold exactly when the row is succeeded |
| CleanupRecords.CleanupRecord.ClaimDue | services/api/app/modules/knowledge/cleanup.py:203-328 | The in-place claim is exactly the row's claim step, with its outcome |
| CleanupRecords.CleanupRecord.RecordFailedAttempt | services/api/app/modules/knowledge/cleanup.py:331-402 | The in-place failure record leaves resolved rows alone, exhausts a row at its last attempt and otherwise keeps it pending |
| CleanupRecords.CleanupRecord.RecordDeletion | services/api/app/modules/knowledge/cleanup.py:465-492 | The success transaction leaves a referenced row alone and raises exactly on an exhausted one |
| CleanupRecords.ClaimRow | services/worker/app/jobs/knowledge_upload_cleanup.py:259-324 | The worker's per-row branches are the row's claim step |
| CleanupRecords.ClaimDueBatch | services/worker/app/jobs/knowledge_upload_cleanup.py:236-325 | A batch gives every selected row its single-row step, changes no other row, and each row is either claimed or counted as exhausted |
| Quota.ReserveKeepsQuota | services/api/app/modules/knowledge/quota.py:252-342 | An admission that succeeds leaves all rows, expired ones included, within 1 GiB and 100 |
| Quota.FinalizeKeepsQuota | services/api/app/modules/knowledge/quota.py:345-426 | Replacing the admitted size by the real one keeps the limits |
| Quota.AddUrlSourceKeepsQuota | services/api/app/modules/knowledge/quota.py:218-249 | A URL source is only added within the limits |
| Quota.ReclaimedRowsAreAllHeld | services/api/app/modules/knowledge/repository.py:162-237 | After expired unlinked rows are deleted, the usage query counts every row that is left, at the same clock value |
| Quota.ReserveBoundsLeases | services/api/app/modules/knowledge/quota.py:252-342 | After an admission at most three leases are live at any instant not before its own clock reading |
| QuotaDecisions.AdmissionNeedsRoom | services/api/app/modules/knowledge/quota.py:252-342 | An upload is admitted if and only if its size is at most 25 MiB, all sizes are known, fewer than 100 rows and three live leases count and the bytes fit 1 GiB; then it gets a hold good for 600 seconds and only holds that had run out are dropped |
| QuotaDecisions.RejectionNamesObstacle | services/api/app/modules/knowledge/quota.py:269-342 | A rejection names the first obstacle: size, unknown sizes, rows, bytes, concurrent uploads |
| QuotaDecisions.FinalisationNeedsLiveHold | services/api/app/modules/knowledge/quota.py:345-426 | A finalisation succeeds if and only if its zero-byte hold is unlinked and live and the bytes fit, and then gives that hold the bytes |
| QuotaDecisions.AdmissionLastsTenMinutes | services/api/app/modules/knowledge/quota.py:252-426 | Within ten minutes of its admission, any size that fitted then can be finalised, if nothing else was admitted |
| QuotaDecisions.UrlSourceNeedsRow | services/api/app/modules/knowledge/quota.py:218-249 | A URL source is added if and only if fewer than 100 rows count |
| Quota.TenantTables.Usage | services/api/app/modules/knowledge/repository.py:185-237 | The three usage figures are the sums and counts of the tables |
| Quota.TenantTables.ReserveFileUpload | services/api/app/modules/knowledge/quota.py:252-342 | The locked transaction is the admission, and leaves the tables alone when it rejects |
| Quota.TenantTables.FinalizeReservation | services/api/app/modules/knowledge/quota.py:345-426 | The locked transaction is the finalisation, and leaves the tables alone when it rejects |
| UploadLedgerInvariant.StepKeepsProtocol | services/api/app/modules/knowledge/service.py:191-412 | Every step of every request and cleaner keeps the protocol invariant: what each upload's request, row, reservation, object and pending PUT may be together |
| UploadLedgerTheorems.StepKeepsQuota | services/api/app/modules/knowledge/quota.py:252-426 | Every step of the ledger keeps the byte, row and lease limits |
| UploadLedgerTheorems.ReachableIsInOrder | services/api/app/modules/knowledge/service.py:191-412 | Both invariants hold in every state reachable from the empty ledger |
| UploadLedgerTheorems.ChargesAddUp | services/api/app/modules/knowledge/repository.py:185-237 | Objects charged to distinct rows of their own size never outweigh the rows |
| UploadLedgerTheorems.StoredBytesStayWithinQuota | services/api/app/modules/knowledge/quota.py:269-411 | In every reachable state, bytes stored or still able to land are at most source plus reservation bytes, which are at most 1 GiB; rows are at most 100; live leases at most three from the latest admission's clock reading on |
| UploadLedgerTheorems.CommittedSourcesAreSafe | services/api/app/modules/knowledge/service.py:287-327 | In every reachable state, a committed file source has its object at the charged size, no DELETE was ever sent for it and no cleaner ever claimed it |
| UploadLedgerTheorems.LedgerIsExact | services/api/app/modules/knowledge/repository.py:304-373 | A linked reservation exists exactly while its cleanup is prepared, pending or exhausted, a source exactly when it is referenced; a pending row that is not ambiguous implies its PUT landed |
| UploadLedgerTheorems.StepKeepsResolved | services/api/app/modules/knowledge/cleanup.py:308-402 | No step of the whole system changes a resolved row |
| UploadLedgerTheorems.SucceededIsForever | services/worker/app/jobs/knowledge_upload_cleanup.py:394-472 | Once a cleanup succeeded, its one PUT had landed, and the object is absent in that and every later state |
| UploadLedgerTheorems.CommitThenRaiseLosesTheObject | services/api/app/modules/knowledge/service.py:351-412 | If a commit took effect although the request saw an error, the inline cleanup would delete a committed source's object |
| UploadLedgerTheorems.RunIsRowRun | services/api/app/modules/knowledge/cleanup.py:203-492 | Every run of the ledger is, for each row, a run of row transactions |
| UploadLedgerTheorems.ReconciliationIsBounded | services/api/app/modules/knowledge/cleanup.py:405-507 | In every run of the ledger a row is claimed at most three times, and after four due sweeps it is resolved |
| UploadLedgerProgress.ReturnedDeleteSucceeds | services/worker/app/jobs/knowledge_upload_cleanup.py:394-472 | For either kind of cleaner: once the DELETE of a claimed pending row returns and is recorded, the row is succeeded, its reservation is gone and its object is absent |
| UploadLedgerProgress.FailedDeleteIsRecorded | services/api/app/modules/knowledge/cleanup.py:331-402 | A DELETE that reports an error leaves the upload charged, with the storage error; the row is exhausted after its third attempt and pending before |
| UploadLedgerProgress.DueUploadIsClaimed | services/api/app/modules/knowledge/cleanup.py:203-328 | A due unresolved row with attempts left is claimed by either cleaner for its own key, one attempt more, with the next lease; the object must be seen first exactly when its PUT is in doubt |
| UploadLedgerProgress.EarlySweepChangesNothing | services/api/app/modules/knowledge/cleanup.py:203-328 | A sweep before the due time changes nothing |
| UploadLedgerProgress.SweepCleansUp | services/worker/app/jobs/knowledge_upload_cleanup.py:328-437 | The whole sweep of a due row whose PUT landed, with its object seen where it must be and its DELETE returned, ends with the upload cleaned up |
| UploadLedgerProgress.UnseenObjectIsLeft | services/worker/app/jobs/knowledge_upload_cleanup.py:328-391 | When the object of a doubtful PUT is not seen, no DELETE is sent, and the upload stays charged and in doubt |
| UploadRequestPaths.RoomLeadsToHold | services/api/app/modules/knowledge/service.py:151-216 | Where there is room, admission and finalisation within the lease end with a hold of the real size |
| UploadRequestPaths.BindPreparesCleanup | services/api/app/modules/knowledge/service.py:225-254 | Binding links the hold to a prepared cleanup row for the upload's own key |
| UploadRequestPaths.HeldUploadIsCommitted | services/api/app/modules/knowledge/service.py:225-329 | From a hold on, a PUT that lands and returns and a commit end with a source row of that key and size, its object stored, the cleanup referenced and the hold gone |
| UploadRequestPaths.UploadSucceeds | services/api/app/modules/knowledge/service.py:191-329 | The whole good path of an upload, from admission to its source row |
| UploadRequestPaths.UrlSourceIsCreated | services/api/app/modules/knowledge/service.py:77-102 | Where there is a row left, a URL source is created, with nothing charged but the row |
| UploadRequestPaths.ReleaseFreesHold | services/api/app/modules/knowledge/service.py:205-223 | A request that is given up before its PUT frees its hold |
| UploadRequestPaths.FailedCommitArmsCleanup | services/api/app/modules/knowledge/service.py:351-412 | After a commit that raised, the lease is over and the row is armed with the persistence error |
| UploadRequestPaths.InlineDeleteCleansUp | services/api/app/modules/knowledge/cleanup.py:164-190 | An inline DELETE that returns ends with the upload cleaned up |
| UploadRequestPaths.FailedInlineDeleteLeavesSweep | services/api/app/modules/knowledge/service.py:351-412 | One that does not leaves row and hold to the sweep |
| UploadRequestPaths.FailedPutStaysPrepared | services/api/app/modules/knowledge/service.py:351-412 | After a PUT that raised, the row stays prepared, so that the sweep looks for the object before it deletes |
| Wire.NormalizeCorrelationId | services/api/app/modules/knowledge/service.py:433-439 | The id is always one the consumer accepts; a usable header is kept as it is, any other result is the stripped header or the fresh id |
| Wire.DecodeIsExact | services/worker/app/consumers/knowledge_sync.py:251-274 | A record decodes to a command if and only if it is that command's envelope under its source's key |
| Wire.SyncEventDecodes | services/worker/app/jobs/outbox_publisher.py:128-168 | Every sync event serialises, and decodes to the same ids and version |
| Wire.SyncEventRoundTrip | services/api/app/modules/knowledge/service.py:128-146 | The same from the API's own inputs, whatever request id it was given |
| Wire.PrintParses | services/worker/app/consumers/knowledge_sync.py:300-307 | Decimal printing is undone by parsing, for every number |
| Wire.RetryHeadersRoundTrip | services/worker/app/consumers/knowledge_sync.py:163-175 | Retry headers parse back to the attempt and time they were printed from |
| Delivery.WireCodecIsFaithful | services/worker/app/consumers/knowledge_sync.py:251-307 | The deployed serialiser, decoder and retry headers are all that the delivery theorems need of a codec |
| DeliveryTheorems.StepKeepsInv | services/worker/app/consumers/knowledge_sync.py:88-237 | Every step of API, publisher, broker and consumer keeps the delivery invariant |
| DeliveryTheorems.NoSyncRequestIsLost | services/worker/app/consumers/knowledge_sync.py:88-237 | In every reachable state each allocated version is pending in the outbox, or has an uncommitted copy in the sync or retry topic, or a completed result, or a dead letter |
| DeliveryTheorems.CommittedOffsetsAreResolved | services/worker/app/consumers/knowledge_sync.py:101-210 | Every offset below a committed offset holds a readable record of a real request that is resolved elsewhere |
| DeliveryTheorems.VersionAheadIsUnreachable | services/worker/app/jobs/knowledge_sync.py:163-232 | No job ever sees a version above its source's or a foreign tenant, no record is dead-lettered as unreadable, and no event fails to serialise |
| DeliveryTheorems.ExactlyOneEventPerVersion | services/api/app/modules/knowledge/service.py:116-148 | A source has exactly one event for each version from 1 to its current one, and none else |
| DeliveryProgress.StartSyncAllocates | services/api/app/modules/knowledge/service.py:105-148 | A request for an enabled source allocates the next version and appends one unpublished event with its ids, in one transaction |
| DeliveryProgress.DisabledSourceGetsNone | services/api/app/modules/knowledge/service.py:116-126 | A request for a disabled source changes nothing |
| DeliveryProgress.PollReceives | services/worker/app/consumers/knowledge_sync.py:88-100 | An idle consumer receives the next message of an unpaused partition |
| DeliveryProgress.PausedPartitionWaits | services/worker/app/consumers/knowledge_sync.py:88-99 | A paused partition yields no message |
| DeliveryProgress.SettledEventIsNotSent | services/worker/app/jobs/outbox_publisher.py:171-218 | An event is sent only while it is unpublished, at most once in a batch |
| DeliveryProgress.ResumeIsExact | services/worker/app/consumers/knowledge_sync.py:227-237 | A partition is resumed exactly when its time has come |
| DeliveryProgress.RequestIsPublished | services/worker/app/jobs/outbox_publisher.py:171-218 | A request whose event the broker acknowledges is published, as a record that reads as its command |
| DeliveryProgress.MessageIsCompleted | services/worker/app/consumers/knowledge_sync.py:101-161 | A message whose job hands its version off is committed and completed |
| DeliveryProgress.RequestIsCompleted | services/worker/app/consumers/knowledge_sync.py:88-161 | The delivery's good path from the request to the committed offset |
| EndToEnd.AnswerIsAllowed | services/worker/app/jobs/knowledge_sync.py:163-232 | Whenever a step ends the job that the consumer waits for, the delivery allows the result it stands for, and the version counts as completed exactly when that result is a completion |
| EndToEnd.StepKeepsInv | services/worker/app/consumers/knowledge_sync.py:133-161 | Every step of API, publisher, broker, consumer and jobs, left-over ones of a crashed consumer included, keeps both invariants and their agreement |
| EndToEnd.EveryVersionIsAccountedFor | services/worker/app/jobs/knowledge_sync.py:163-232 | In every reachable state each allocated version is pending in the outbox, has an uncommitted copy or a dead letter, was superseded, or has its document and parse event |
| HandoffProgress.RowDecides | services/worker/app/jobs/knowledge_sync.py:170-187 | A source that is gone, disabled or behind ends the message with that very error and no retry; a newer version completes it |
| HandoffProgress.SitemapIsRefused | services/worker/app/jobs/knowledge_sync.py:188-192 | A sitemap source is refused without a retry |
| HandoffProgress.ChangedContentIsRefused | services/worker/app/jobs/knowledge_sync.py:204-211 | A version recorded with another hash is refused without a retry before anything is stored |
| HandoffProgress.FailedPutIsRetried | services/worker/app/jobs/knowledge_sync.py:213-224 | A failed PUT is retried until three retries are used up, and refused then |
| HandoffProgress.FailureIsPassedOn | services/worker/app/consumers/knowledge_sync.py:133-161 | A failure is retried if and only if it may be and attempts are left, and refused by its own error otherwise |
| HandoffProgress.DuplicateIsAccepted | services/worker/app/jobs/knowledge_sync.py:163-232 | A duplicate of a version that is handed off completes its message and changes neither documents, events nor stored bytes |
| HandoffProgress.JobIsAccepted | services/worker/app/jobs/knowledge_sync.py:163-232 | An awaited job for a version without document, whose fetch and PUT succeed, hands it off and the consumer goes on to commit |
| HandoffProgress.RequestIsHandedOff | services/worker/app/jobs/knowledge_sync.py:163-232 | From any state in order: a request is published, read, worked on and committed, and its new version has its document and a parse event of its source's kind, key and hash |
| HandoffProgress.ReachableIsInOrder | services/worker/app/jobs/knowledge_sync.py:385-493 | Every reachable state is in order: no document is ahead of its source |
| HandoffProgress.RunningIsKnown | services/worker/app/jobs/knowledge_sync.py:170-187 | Whenever a job runs in such a state, both sides see the same rows and the source is of the command's tenant |
| SyncWorker.Worker.HandleMessage | services/worker/app/consumers/knowledge_sync.py:101-161 | Whatever the world answers, handling a message takes exactly the steps of the protocol, and has the outcome its case calls for: a message before its time is postponed, an unreadable one is buried, a completion is committed, a retryable failure is copied to the retry topic while attempts are left, and any other failure marks the source and is buried |
| Handling.DriveIsRun | services/worker/app/consumers/knowledge_sync.py:101-207 | Those steps are a run of the protocol, by the handler's own actions |
| Handling.MessageIsHandledRightly | services/worker/app/consumers/knowledge_sync.py:101-161 | For every record and every answer of the world, over logs, dead letters and source rows: the retry copy has the same key and value and headers that read as the next attempt after 30, 300 or 1800 seconds; the dead letter has the error; only a final failure marks the source, at its own version; a completion adds to no log |
| SyncWorker.Worker.PublishRetryCopy | services/worker/app/consumers/knowledge_sync.py:163-186 | The steps from a retry on: the offset is committed past the message exactly when the broker acknowledged the copy, otherwise the partition is back at the message and paused |
| SyncWorker.Worker.PublishToDeadLetters | services/worker/app/consumers/knowledge_sync.py:188-207 | The same for the dead-letter topic |
| SyncWorker.Worker.RewindAndPause | services/worker/app/consumers/knowledge_sync.py:212-225 | The position goes back to the message and the partition waits |
| SyncWorker.Worker.ResumeDuePartitions | services/worker/app/consumers/knowledge_sync.py:227-237 | Exactly the due partitions resume |
| SyncWorker.Worker.PublishDueBatch | services/worker/app/jobs/outbox_publisher.py:171-218 | The batch loop is its rows' publications followed by one commit of all marks: every row is marked by its own fate, every other row stays, and each partition gets the records sent to it |
| OutboxBatches.PublishAllIsRun | services/worker/app/jobs/outbox_publisher.py:183-218 | Such a batch is a run of the protocol |
| OutboxBatches.BatchIsDone | services/worker/app/jobs/outbox_publisher.py:171-218 | After a batch an acknowledged row is published, one that does not serialise has failed for good, any other counts one attempt more; each partition has got the delivered records in the order of the rows |
| SyncJob.StepKeepsInv | services/worker/app/jobs/knowledge_sync.py:385-493 | Every step of every concurrent job keeps documents and parse events one to one |
| SyncJob.HandoffsAreIdempotent | services/worker/app/jobs/knowledge_sync.py:163-232 | Over all duplicate and concurrent deliveries there is at most one document per source and version, exactly one parse event per document, and neither ever changes |
| SyncKinds.EventsFollowTheirSources | services/worker/app/jobs/knowledge_sync.py:385-493 | In every run a parse event has its source's kind and names the uploaded object of a file or the raw key of a URL's version, raw keys hold bytes of URL sources only, and a sitemap never has a document |
| SyncKinds.StepKeepsKinds | services/worker/app/jobs/knowledge_sync.py:163-232 | Every step of every concurrent job keeps that |
| SyncKinds.JobHandsOff | services/worker/app/jobs/knowledge_sync.py:163-232 | A job for a current version without document, whose fetch and PUT succeed, appends its document and event; only a URL's bytes are stored, under the version's key |
| SyncKinds.DuplicateCompletes | services/worker/app/jobs/knowledge_sync.py:163-232 | A duplicate completes after its checks and changes nothing else |
| SyncKinds.LoadDecides | services/worker/app/jobs/knowledge_sync.py:170-192 | An old version completes at once; a missing, disabled or sitemap source or a version ahead ends the job without completing |
| RawBytes.StepKeepsRawIff | services/worker/app/jobs/knowledge_sync.py:213-232 | A step keeps the bytes behind every URL event if and only if it is harmless: a PUT that takes effect agrees with the events committed before it, a handoff finds its own bytes in place, every other step is |
| RawBytes.RawBytesMatchIff | services/worker/app/jobs/knowledge_sync.py:163-232 | Over every run of any number of deliveries, the bytes at each URL event's key hash to its content hash all along if and only if every step is harmless |
| RawBytes.RawBytesMatchWhenSerial | services/worker/app/jobs/knowledge_sync.py:163-232 | While one job runs at a time they do |
| RacingDeliveries.PutOverwritesEvent | services/worker/app/jobs/knowledge_sync.py:213-224 | Two deliveries that fetch different pages reach a state where the PUT of the second breaks the committed event of the first |
| RacingDeliveries.HandoffFindsOtherBytes | services/worker/app/jobs/knowledge_sync.py:226-232 | They also reach one where no PUT breaks anything and the first handoff does |
| PyText.StripTrims | services/worker/app/core/knowledge_normalization.py:612-627 | Stripping leaves nothing to strip |
| PyText.StripKeepsInk | services/worker/app/core/knowledge_normalization.py:612-627 | Stripping keeps all ink |
| TokenSpans.TokensAreExact | services/worker/app/core/knowledge_chunking.py:243-245 | A span is a token if and only if it is a maximal run without white space |
| TokenSpans.CutTokens | services/worker/app/core/knowledge_chunking.py:223-240 | Tokens of a text cut between tokens are the tokens of its parts |
| TokenSpans.TokensBetween | services/worker/app/core/knowledge_chunking.py:139-152 | The text from one token to another re-tokenises to exactly the tokens between |
| Windows.WindowAt | services/worker/app/core/knowledge_chunking.py:243-264 | Window k is tokens k*stride up to k*stride+max, and it is the last exactly when it reaches the end |
| Windows.ConsecutiveWindows | services/worker/app/core/knowledge_chunking.py:249-264 | Consecutive windows share exactly the overlap, and each adds a token |
| Windows.WindowsCover | services/worker/app/core/knowledge_chunking.py:243-264 | Every token is in a window |
| Windows.CountsAddUp | services/worker/app/core/knowledge_chunking.py:243-264 | Window sizes sum to the tokens plus the overlap for every window but one |
| Windows.TokenWindows | services/worker/app/core/knowledge_chunking.py:243-264 | The streaming deque yields exactly those windows, and fails exactly without tokens |
| Segments.ValidateSegments | services/worker/app/core/knowledge_chunking.py:157-186 | Validation accepts exactly non-empty input numbered from zero with a token in every segment; otherwise the error is that of the first bad segment |
| Segments.HeadingGroups | services/worker/app/core/knowledge_chunking.py:189-220 | The groups are the maximal runs of one grouping path, in order, and together all segments |
| Segments.GroupingIsUnique | services/worker/app/core/knowledge_chunking.py:189-220 | Such a grouping is the only one |
| Segments.UnheadedJoinFirstHeading | services/worker/app/core/knowledge_chunking.py:190-199 | Leading segments without a heading are in the first heading's group; without any heading there is one group |
| GroupText.MaterializeGroup | services/worker/app/core/knowledge_chunking.py:223-240 | Text and spans of a group |
| GroupText.SpanHoldsSegment | services/worker/app/core/knowledge_chunking.py:223-240 | Each span cuts its segment's text out of the group's |
| GroupText.GroupTokens | services/worker/app/core/knowledge_chunking.py:223-240 | A group's text tokenises to its segments' tokens, one segment after another |
| Provenance.WindowProvenance | services/worker/app/core/knowledge_chunking.py:267-293 | Starting late and stopping early gives the plain filter of segments whose span meets the window |
| Provenance.AdvanceStart | services/worker/app/core/knowledge_chunking.py:128-132 | The moving start index skips only spans that end before the window |
| Chunking.AppendChunks | services/worker/app/core/knowledge_chunking.py:127-152 | One group's chunks, numbered on, or the limit error exactly when they do not all fit |
| Chunking.ChunkNormalizedSegments | services/worker/app/core/knowledge_chunking.py:111-154 | Acceptable input gives exactly the chunks of its heading groups, or the limit error exactly when there are more than the limit; other input gives another error |
| Chunking.PiecesAreUnique | services/worker/app/core/knowledge_chunking.py:123-152 | Groups, texts, spans and windows of a segment sequence are unique, so the contract of the chunker determines its result |
| ChunkTheorems.EveryChunkRetokenises | services/worker/app/core/knowledge_chunking.py:139-152 | Chunks are numbered in order and each text has exactly its token count |
| ChunkTheorems.ProvenanceIsExact | services/worker/app/core/knowledge_chunking.py:267-293 | A chunk names a segment if and only if it holds one of the segment's tokens |
| ChunkTheorems.EverySegmentIsNamed | services/worker/app/core/knowledge_chunking.py:111-154 | Every segment is named by some chunk |
| ChunkContents.EveryChunkIsCutFrom | services/worker/app/core/knowledge_chunking.py:111-154 | Every chunk is cut from consecutive segments of one section: it carries that section's grouping path, names exactly those segments in order with page, path and lines, and its text is theirs joined by blank lines, less a beginning within the first and an end within the last |
| SplitText.SplitPieces | services/worker/app/core/knowledge_normalization.py:612-627 | The loop ends, with the pieces of the recursive definition |
| SplitTheorems.PiecesAreGood | services/worker/app/core/knowledge_normalization.py:612-627 | Pieces are not empty, have nothing to strip and fit the limit; only an empty text has none |
| SplitTheorems.SplitKeepsInk | services/worker/app/core/knowledge_normalization.py:612-627 | The pieces together have the text's ink |
| SplitTheorems.SplitKeepsWords | services/worker/app/core/knowledge_normalization.py:612-627 | No token is cut if every run free of spaces and line feeds fits the limit |
| SplitTheorems.SplitKeepsWordsExactly | services/worker/app/core/knowledge_normalization.py:612-627 | Whatever white space is, all words are kept if and only if every cut lies between tokens |
| SplitTheorems.KeptWordsFit | services/worker/app/core/knowledge_normalization.py:612-627 | If all words are kept, every word fits the limit |
| SplitTheorems.SplitKeepsWordsIff | services/worker/app/core/knowledge_normalization.py:612-627 | In texts whose only white space is the space and the line feed, all words are kept if and only if every word fits |
| SplitTheorems.CutIsPreferred | services/worker/app/core/knowledge_normalization.py:615-624 | A text too long is cut at the last line end within reach, else at the last space, else at the limit |
| Materialize.MaterializeSegments | services/worker/app/core/knowledge_normalization.py:581-609 | The segments of all blocks numbered through, or the error that the limits call for, in the order the code checks them |
| Materialize.NormalizedIsAcceptable | services/worker/app/core/knowledge_normalization.py:581-609 | Every successful normalisation is accepted by the chunker's validation and fits every limit |
| Materialize.SegmentComesFrom | services/worker/app/core/knowledge_normalization.py:597-606 | Every segment is a piece of one block, with that block's page, path and lines |
| Materialize.SegmentsKeepInk | services/worker/app/core/knowledge_normalization.py:581-609 | The segments carry exactly the ink of the blocks, in order |
| Materialize.NormalizesIff | services/worker/app/core/knowledge_normalization.py:581-609 | Normalisation succeeds if and only if some block has ink and segments and characters fit; "empty" is the error exactly for blocks without ink, "too many" exactly when what was counted up to there still fitted |
| HeadingStack.PushHeading | services/worker/app/core/knowledge_normalization.py:400-403 | Truncate, pad and append |
| HeadingStack.StackIsOpenHeadings | services/worker/app/core/knowledge_normalization.py:456-460 | Without placeholders the stack is the sequence of earlier headings that no later heading of equal or smaller level follows |
| Markdown.NormalizeMarkdown | services/worker/app/core/knowledge_normalization.py:364-421 | Blocks lie in order on lines of their own, content blocks span text lines only, each path is that of the sections open where the block starts (content blocks: up to placeholders), and the blocks have exactly the ink of the lines |
| MarkdownBlocks.BlocksAreTheDocuments | services/worker/app/core/knowledge_normalization.py:364-421 | The blocks are exactly the document's: in order of completion, one per maximal run of text lines that strips to something and one per titled heading |
| MarkdownBlocks.EveryBlockComesFromLines | services/worker/app/core/knowledge_normalization.py:371-420 | A block is a titled heading's, with the title as text, or a maximal run's, with the stripped join by line feeds of its lines' non-empty contents, from the first such line to the last |
| MarkdownBlocks.RunIsOneBlock | services/worker/app/core/knowledge_normalization.py:371-420 | Text lines of one run are never cut apart: if one has ink, one block spans all of its lines with content |
| MarkdownBlocks.HeadingHasBlock | services/worker/app/core/knowledge_normalization.py:392-413 | Every titled heading has its block |
| HeadingStack.StackIsExactIff | services/worker/app/core/knowledge_normalization.py:400-403 | The stack is exactly the open headings' titles if and only if their levels are one, two, three and so on |
| Markdown.PathIsExactIff | services/worker/app/core/knowledge_normalization.py:379-405 | A block's path is exactly that of the open sections if and only if it is a heading's own block or the levels of the headings open at it have no gap |
| Markdown.SkippedLevelLeavesPlaceholder | services/worker/app/core/knowledge_normalization.py:371-405 | A document of one heading of level two and one line of text gives a content block whose path is not that of the open sections |
| HtmlParser.KnowledgeHtmlParser.HandleStartTag | services/worker/app/core/knowledge_normalization.py:188-248 | The whole state after a start tag |
| HtmlParser.KnowledgeHtmlParser.HandleStartEndTag | services/worker/app/core/knowledge_normalization.py:250-262 | The whole state after a self-closing tag |
| HtmlParser.KnowledgeHtmlParser.HandleEndTag | services/worker/app/core/knowledge_normalization.py:264-279 | The whole state after an end tag |
| HtmlParser.KnowledgeHtmlParser.HandleData | services/worker/app/core/knowledge_normalization.py:281-283 | The whole state after text |
| HtmlParser.KnowledgeHtmlParser.CloseCapture | services/worker/app/core/knowledge_normalization.py:298-317 | A capture becomes a title or a candidate, or nothing when it cleans to nothing |
| HtmlParser.KnowledgeHtmlParser.Parse | services/worker/app/core/knowledge_normalization.py:425-431 | Feeding all events and finishing |
| HtmlCaptures.ElementIsCollected | services/worker/app/core/knowledge_normalization.py:188-317 | A paragraph, list item or heading with any inside balanced in ignored elements adds exactly one candidate: the cleaned texts and line breaks of its inside without ignored elements, in order, with the scope open at its start tag; nothing when that is empty |
| HtmlCaptures.TitleIsCollected | services/worker/app/core/knowledge_normalization.py:188-317 | The same for a title |
| HtmlCaptures.UnclosedElementIsCollected | services/worker/app/core/knowledge_normalization.py:285-317 | An element that is never closed counts at the end of input |
| HtmlCaptures.LooseTextIsDropped | services/worker/app/core/knowledge_normalization.py:281-283 | Text outside these elements changes nothing |
| HtmlCaptures.SelfClosingIsStartAndEnd | services/worker/app/core/knowledge_normalization.py:250-262 | A self-closing element is its start tag followed by its end tag, so it ends an open element of its name; ignored ones and embeds change nothing |
| HtmlCaptures.DepthsAreCounts | services/worker/app/core/knowledge_normalization.py:188-279 | The depths count the articles and main parts that are open |
| HtmlCaptures.ScopeIsWhatIsOpen | services/worker/app/core/knowledge_normalization.py:188-279 | The scope is that of an open article, else of an open main part, else the fallback; ignored elements do not count |
| HtmlCaptures.HeadingTagsAreH1ToH6 | services/worker/app/core/knowledge_normalization.py:232-239 | Exactly h1 to h6 are headings, with the digit as level |
| HtmlCaptures.IgnoredTagsAreThese | services/worker/app/core/knowledge_normalization.py:32-50 | The elements left out with their inside are the thirteen named ones; embed, which has no inside, is apart |
| HtmlCaptures.TagKeepsName | services/worker/app/core/knowledge_normalization.py:264-279 | No two tag names are read as the same tag, so an end tag matches only its own name |
| HtmlPruning.IgnoredElementIsNeutral | services/worker/app/core/knowledge_normalization.py:188-289 | An ignored element with any balanced inside leaves the whole state as it was |
| HtmlPruning.PruningKeepsState | services/worker/app/core/knowledge_normalization.py:188-289 | Removing every ignored element changes nothing, from any state |
| HtmlPruning.PruningKeepsOutput | services/worker/app/core/knowledge_normalization.py:425-431 | So the parsed document is that of the pruned one |
| HtmlPruning.NamedTagsAreGood | services/worker/app/core/knowledge_normalization.py:232-239 | Whatever its name, a heading tag has a level from one to six |
| HtmlPruning.FeedKeepsSound | services/worker/app/core/knowledge_normalization.py:298-317 | Candidates have text, and a level from one to six exactly when they are headings |
| HtmlBlocks.BuildBlocks | services/worker/app/core/knowledge_normalization.py:438-469 | The first title, then every candidate of the best scope under exactly the titles of the sections open at it |
| HtmlBlocks.ArticleBeforeMainBeforeRest | services/worker/app/core/knowledge_normalization.py:438-444 | If any candidate stands in an article exactly those count, else if any stands in a main part exactly those, else all, in document order |
| HtmlBlocks.NormalizeHtml | services/worker/app/core/knowledge_normalization.py:425-469 | The same from the tag events |
| Providers.ConnectionRow.ReplaceSecret | services/api/app/modules/providers/service.py:157-179 | The in-place update is the row's part of a rotation, and hands back the predecessor it had under the lock |
| Providers.ConnectionRow.RecordTest | services/api/app/modules/providers/service.py:425-451 | The in-place update is the row's part of a test, recorded exactly when secret and kind are still the tested ones and the row is not disabled |
| Providers.TransactionsAreRowUpdates | services/api/app/modules/providers/service.py:157-179 | The protocol's create, rotate and test transactions are these row updates on one connection and touch no other; a rotation hands the predecessor on to be deleted |
| ProviderTheorems.StepKeepsAccounted | services/api/app/modules/providers/service.py:91-244 | Every step keeps each stored secret with exactly one holder: a connection, an operation under way, or the lost ones |
| ProviderTheorems.StepKeepsActivePassed | services/api/app/modules/providers/service.py:369-455 | Every step keeps it that an active connection's current secret passed a test |
| ProviderTheorems.StepKeepsModels | services/api/app/modules/providers/service.py:258-366 | Every step keeps each model's provider in existence, in its tenant |
| ProviderTheorems.ReachableIsConsistent | services/api/app/modules/providers/service.py:91-455 | In every interleaving each connection's secret is stored for its tenant and for no other connection, active means tested, and models resolve |
| ProviderTheorems.QuietStoreIsExact | services/api/app/modules/providers/service.py:91-244 | With no secret in an operation's hands, the store holds the connections' secrets and the lost ones, nothing else |
| ProviderTheorems.CleanStoreIsExact | services/api/app/modules/providers/service.py:199-244 | After a run without crash or failed clean-up, with no secret in an operation's hands, the store holds exactly the connections' secrets |
| ProviderProgress.CreationStores | services/api/app/modules/providers/service.py:91-129 | A creation that commits adds one untested connection with the stored secret |
| ProviderProgress.FailedCreationLeavesNothing | services/api/app/modules/providers/service.py:91-129 | One that fails and cleans up leaves no connection and no secret |
| ProviderProgress.RotationReplaces | services/api/app/modules/providers/service.py:132-208 | A rotation leaves the new secret untested in the same connection and the old one deleted |
| ProviderProgress.DeletionRemoves | services/api/app/modules/providers/service.py:211-244 | A deletion of a connection without models removes connection and secret |
| ProviderProgress.ForeignConnectionIsSafe | services/api/app/modules/providers/service.py:132-244 | No operation of a tenant touches another tenant's connection |
| ProviderProgress.TestDecidesStatus | services/api/app/modules/providers/service.py:369-455 | An undisturbed test makes the connection active on success and invalid on an authentication failure, and leaves its status otherwise |
| ProviderProgress.DisabledIsNotTested | services/api/app/modules/providers/service.py:369-400 | A disabled connection is not tested |
| ProviderProgress.StaleVerdictChangesNothing | services/api/app/modules/providers/service.py:425-451 | A verdict on a replaced secret or kind, or on a disabled row, changes no connection |
| ProviderProgress.ModelNeedsActiveConnection | services/api/app/modules/providers/service.py:258-295 | A model is created exactly for an active connection of its tenant |
| ProviderProgress.ModelUpdateNeedsActiveConnection | services/api/app/modules/providers/service.py:298-341 | A model is moved, renamed upstream or enabled exactly while its connection is active; other updates always go through |
| ProviderProgress.ModelDeletion | services/api/app/modules/providers/service.py:344-366 | A tenant's own model that nothing refers to is deleted, and no other |
| Members.Directory.CreateOrganization | services/api/app/modules/organizations/service.py:60-96 | The tables after the transaction, or unchanged with its error |
| Members.Directory.UpdateMember | services/api/app/modules/members/service.py:63-131 | The tables after the transaction, or unchanged with its error |
| Members.Directory.ReplaceRoles | services/api/app/modules/members/repository.py:126-137 | Exactly the given roles, and other memberships' grants untouched |
| Members.Directory.AddMissingRoles | services/api/app/modules/tenancy/service.py:97-108 | The missing roles are added and nothing is removed |
| Members.Directory.AcceptInvitation | services/api/app/modules/tenancy/service.py:61-109 | The tables after the transaction, or unchanged with its error |
| MemberTheorems.GuardIsExact | services/api/app/modules/members/service.py:106-118 | The last-owner guard stops an update if and only if it would leave the organization without an active owner |
| MemberTheorems.StepKeepsInv | services/api/app/modules/members/service.py:73-131 | Every transaction keeps an active owner in every organization, only the tenant's own roles and the global owner and admin roles, and one membership per user and tenant |
| MemberTheorems.EveryOrganizationIsOwned | services/api/app/modules/organizations/service.py:68-96 | The same in every run from the empty directory, with any catalogue of roles |
| MemberProgress.UpdateSucceedsIff | services/api/app/modules/members/service.py:73-131 | A permitted update succeeds if and only if every role asked for is the tenant's own or the global system owner or admin role and somebody still holds the ownership afterwards; then exactly that member's roles and status change, otherwise the error names which condition failed |
| MemberProgress.UpdateRefusals | services/api/app/modules/members/service.py:73-89 | Outsiders and members of other organizations are not found; without the permission the update is forbidden |
| MemberProgress.AcceptSucceedsIff | services/api/app/modules/tenancy/service.py:61-109 | An invitation is accepted if and only if it names roles, all may be granted and the membership is not withheld; the user is then an active member with the roles added to those held |
| MemberProgress.CreatorOwns | services/api/app/modules/organizations/service.py:60-96 | A new organization is owned by its creator alone, and no other organization's owners change |
| MemberProgress.CreationRefusals | services/api/app/modules/organizations/service.py:68-82 | Without the owner role, or else with a slug in use, nothing is created, and the error says which |

## Left out

- Statement-level interleaving inside a transaction: the usage figures come from three SELECTs and the reference step takes no tenant lock, so the quota theorem is about atomic transactions.
- Other tenants' ledgers: every statement of the upload protocol filters by tenant, so the ledger is that of one tenant; one id stands for the reservation, source, object and cleanup of an upload, which are drawn together.
- Legacy file sizes: reconciliation sets sizes without a limit check, so runs start with no unknown size.
- JSON text and UTF-8: envelopes are values, and encoding is taken to be undone by decoding.
- Wire.DecodeIsExact: does not model Pydantic's lenient coercions of numbers and UUID spellings, which no event of this system uses.
- Wire.PrintParses: does not model Python's limit of 4300 digits on integer conversion.
- Rebalances: there is one consumer, and a crash resets positions to the committed offsets; jobs that a crashed consumer left running are part of `EndToEnd`.
- Publisher back-off times: rows of a batch are any unpublished rows, so delays only restrict what is modelled.
- RawBytes.RawBytesMatchWhenSerial: one job at a time, because the property is false otherwise; a PUT that takes effect after it returned is not modelled in the sync job.
- Materialize.MaterializeSegments: splits all texts before it counts; splitting is a pure function, so the order cannot be observed.
- Markdown patterns and inline cleaning: each line comes with its stripped form, the heading it would match and its cleaned text. ATX levels lie between one and six.
- The HTML tokeniser, `_clean_html_parts` and PDF extraction: tag events, cleaned captures and page text are inputs. `_blocks_from_lines` is the Markdown loop without headings and fences and would add only easier members.
- Display names, alias and slug uniqueness: an integrity error is an action that may happen at any commit.
- Secrets' plain text, encryption, the rate limiter and provider adapters: the store is a map and a test's outcome is an input.
- Permissions: what the caller's own membership allows is an input of `UpdateMember`.
- Invitation creation, expiry and revocation: acceptance starts from the roles and tenant of an invitation that may be accepted.
- HTTP routing, schemas, configuration, logging, migrations and the front-end applications.
