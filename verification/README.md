# Verified model of the aether-edit services

This project models the stateful core of aether-edit — the resumable upload service, the browser's transfer
engine, the telemetry event streams, the transcode job lifecycle, usage metering and refresh-token rotation —
and proves what those parts are supposed to guarantee. `dafny verify dfyconfig.toml` checks every statement.

## How the code is modelled

External systems are values: Postgres tables are maps of rows, object storage is a map of objects and a map of
open multiparts, JetStream subjects are logs. Each external call of a handler is one atomic step, and each such
call may succeed, fail before it takes effect, or fail after it took effect (`Succeeds`, `FailsBefore`,
`FailsAfter`). Handlers interleave freely, and any handler may stop between two calls. In the browser, the code
between two awaits is one step, and any awaited answer or timer may come next.

Code that updates state in place is written as classes whose methods change fields, and each method is proved to
do exactly what a specification function says (`View() == Spec(old(View()))`). What that function comes to in each
case is stated a second time without it, on the fields of rows, requests and events. The results about whole runs
are lemmas about those functions.

| file | models |
|---|---|
| `Basics.dfy` | options, and the three ways an external call can end |
| `GoInt.dfy` | int64 wrap-around, truncating division, shifts |
| `Tiling.dfy` | chunk counts, lengths and offsets; cutting and joining |
| `ObjectStorage.dfy`, `BlobStore.dfy` | the object store, the multipart and copy calls of blobstore.go |
| `UploadWorld.dfy`, `ChunkTable.dfy` | session and chunk rows, their guarded updates, claim under interference |
| `UploadHandlers.dfy`, `UploadServer.dfy`, `UploadRequests.dfy` | create, chunk PUT, complete, assemble, cancel, as steps and as methods |
| `UploadInvariant.dfy`, `UploadSafety.dfy`, `UploadSystem.dfy` | what every step keeps; content addressing and reassembly |
| `UploadRestart.dfy` | complete attempts one after another, each cut or failing anywhere |
| `UploadLive.dfy`, `UploadMatching.dfy` | which calls take a session's multipart away; when storage accepts what the rows record |
| `UploadEngine.dfy`, `UploadTask.dfy` | the browser's engine as an event machine, and its methods |
| `UploadLink.dfy`, `UploadFile.dfy` | engine and service together; the file end to end |
| `Hub.dfy`, `HubServe.dfy`, `Sse.dfy` | subscriber buffers, the serving loop, the event-stream printer and reader |
| `Jobs.dfy`, `Farm.dfy`, `JobRunner.dfy` | the job table, scheduler and handlers with their metering events, one job's run |
| `Landed.dfy` | auto-creating a job when an upload lands |
| `Rollup.dfy` | metering events into usage rows under at-least-once delivery |
| `Refresh.dfy` | refresh-token families |
| `Aggregator.dfy`, `Progress.dfy`, `Backpressure.dfy` | telemetry counters, ffmpeg progress, backoff and the byte gauge |

SHA-256 and the part ETag are free constructors over the content: equal exactly when the contents are equal. A
multipart id completes at most once, as in the storage fake the upload tests run against.

## What does not hold, and exactly when

Several guarantees that the source states without qualification hold only under a condition. Each is proved as an
equivalence over all reachable states or all inputs, with a run that reaches the failing side where that is not
plain from the condition.

- "A session recorded ACTIVE always has a live multipart" (server.go:207-208). In every run an ACTIVE session has no
  open multipart if and only if one of three calls took effect on it: create's abort after an insert that committed
  but was reported as failed, a cancel's abort, or a complete's join (`ActiveSessionsAreLiveIff`). For one handler on
  its own: create leaves such a session exactly when its insert committed with an error and its abort took effect
  (`CreateLeavesDeadSessionIff`), cancel exactly when its abort took effect and CANCELLED was not recorded
  (`CancelLeavesDeadSessionIff`).
- Not every session whose chunks are all DONE can be completed. Two PUTs with different bodies for one chunk can
  leave one body's ETag over the other body's part although no call fails (`MixedBodiesBlock`). Storage accepts the
  recorded parts if and only if every row's ETag is that of the stored part (`AcceptedIffEtagsMatch`,
  `CompletableIff`), which holds whenever every PUT carries the file's own slices (`UntouchedIsRestartable`).
- After any number of cut or failing attempts, a clean complete finishes an all-DONE session if and only if the
  session was completable and no attempt stopped between the staging delete and the ASSEMBLED record
  (`RestartableIff`; for clients that send one file, `HonestRestartableIff`). A session stopped there can never be
  completed (`StrandedForever`).
- A verifying engine stays verifying in every continuation without a cancel if and only if no complete and no resync
  is awaited (`VerifyingIsFinalIff`); one run gets there by a 409 and a failed resync (`WedgingRunWedges`).
- Once the client shows every chunk DONE, a 409 on complete is never about missing chunks, at any step of any request,
  then or later (`ConflictMeansCancelled`). The conflict and its resync bring the engine
  back to the very same state, with a complete awaited, if and only if the server still reports every chunk DONE, no
  slot is taken, and the engine is neither disposed nor parked (`ConflictLoopIff`, and over the linked system
  `RefusedCompletionLoops`).
- A pause charges every PUT it aborts as a failed attempt (`PauseChargesInflightChunks`).
- Revoking a token family is final if and only if no refresh already past its lookup can still mark or issue
  (`RevocationIsFinalIff`); a run in which one does (`RevocationIsOutrun`).
- A new preset becomes the default exactly when it sorts before the old one by creation time and id
  (`DefaultMovesIff`), which the comment on DefaultPreset rules out. A workspace's second preset does when its insert
  started before the first one's and committed after it, or at the same time with a smaller id
  (`SecondPresetMovesIff`).
- An auto-created job is billed at most once, and in one callback exactly when its insert and its publish succeed
  (`HandledOnPreset`). A crash between the two leaves the job unbilled and its message acknowledged
  (`CrashLosesTheBill`); a failed job lets a redelivery create another (`FailedJobAllowsAnother`).
- A running job row stays running in every continuation if and only if no worker holds it (`StuckForeverIff`), which
  in a run from the start takes a fault (`StuckRowsOfARun`).
- A metering event whose id is not recorded is never recorded, whatever happens later, if and only if its increment
  would take its row out of the bigint range (`NeverRecordedIff`). Such states are reached (`OverflowIsReachable`), for one by a month of 2^63 - 1 bytes
  and then one byte more (`FullMonthRefusesOneMore`).
- Progress of one rung never falls if and only if nothing short of the full duration follows `progress=end`
  (`RungMonotoneIff`).
- The wrapped shift of the backoff is the capped exponential at every level if and only if, at each of the levels
  below 64 where the product overflows, the wrapped value is not positive or not below the cap
  (`CappedExponentialIff`); 1 s and 60 s, which the service uses, meet it (`ProductionDelay`), a base of 2^62 + 1 ns
  under a cap of 2^63 - 1 ns does not (`OtherConstantsCanEscape`).
- The gauge's admission test is exact if and only if the sum does not overflow (`AdmissionIsExactIff`).

## Model

| member | source | states |
|---|---|---|
| Tiling.ChunkCountTiles | services/upload/server.go:182 | the minted chunk count is positive iff the int64 sum does not overflow, and then count-1 full chunks fall short of the size and count chunks cover it |
| Tiling.OffsetSteps | services/upload/server.go:335-338 | every expected chunk length is in (0, chunkSize] and consecutive offsets differ by exactly it, from 0 up to the size |
| Tiling.ReassembledSize | services/upload/server.go:507-526 | one body of the expected length per chunk joins to exactly the declared size, so the two size re-checks cannot reject it |
| Tiling.BodyAtOffset | services/upload/server.go:335-338 | in the joined object body i occupies exactly the byte range of chunk i |
| Tiling.SliceRoundTrip | packages/console/src/upload/engine.ts:242-248 | cutting a file into its chunks and joining them gives the file back |
| ObjectStorage.SortPartsSpec | services/upload/blobstore.go:110-131 | the sorted part list is ascending and holds the same parts |
| ObjectStorage.CompletionIgnoresPartOrder | services/upload/blobstore.go:110-131 | completing with the sorted list has the same effect for every order the caller lists the parts in |
| BlobStores.BlobStore.CompleteMultipart | services/upload/blobstore.go:110-131 | success means the sorted list was accepted; failure leaves the store as it was or completed |
| BlobStores.BlobStore.AbortMultipart | services/upload/blobstore.go:135-148 | the multipart is gone, or the call failed and nothing changed |
| BlobStores.BlobStore.Copy | services/upload/blobstore.go:181-240 | a copy of the whole source leaves exactly the source bytes at the destination, by one call or by ranges, and succeeds when no call fails; a failed one leaves the destination as it was or exactly those bytes, and no other upload is touched |
| BlobStores.BlobStore.CopyParts | services/upload/blobstore.go:204-228 | the range loop uploads consecutive parts that tile [0,size) and lists them in order |
| ChunkTable.DoneStays | services/upload/postgres.go:115-172 | DONE is absorbing under any sequence of the three guarded row updates, and only another recording changes the row |
| ChunkTable.Table.ClaimChunk | services/upload/postgres.go:115-141 | whatever other handlers do between its UPDATE and its SELECT, the row is made INFLIGHT, or the result is already done or missing by the row it found; the unexpected-state branch is never taken |
| ChunkTable.UpdatesAreTheWorlds | services/upload/postgres.go:115-172 | the row updates of this table are those the handlers make on the session's rows |
| UploadServer.Server.HandleComplete | services/upload/server.go:416-497 | exactly one attempt of the step machine, for every script of failing or cut calls; once the lookup answers: not found iff the session is absent or of another workspace, cancelled or already completed iff its row says so, incomplete iff it is in neither state, its rows are read and one is not DONE with an ETag or missing, and nothing changed in these cases; a 200 changes only this row, to COMPLETED with hash and key, its two events carry what the row says, and for a session found ACTIVE the object of that hash and of the declared size stands under its key; a 409 names the first missing chunks |
| UploadServer.CompleteIsRefusedIff | services/upload/server.go:249-275 | over every attempt whose lookup answered: not found iff absent or foreign, cancelled or already completed iff the row says so, with nothing changed |
| UploadServer.Server.CollectParts | services/upload/server.go:438-448 | the loop over the chunk map yields the first chunks that are missing, in order and at most 100, and the ordered part list iff none is |
| UploadServer.Server.Assemble | services/upload/server.go:502-545 | assemble equals its steps in order: join, re-check, hash, copy, delete, record; when it goes on, the object under the key of the recorded hash has that hash and the declared size |
| UploadServer.Server.CopyStaging | services/upload/server.go:530-532 | the copy to the content-addressed key equals its steps, range by range, and leaves exactly the staging bytes there |
| UploadServer.Server.EmitLandedEvent | services/upload/server.go:468-482 | up to three attempts, a further one only after a failure whose client is still there; it goes on only when exactly this event has joined the log, and changes nothing else |
| UploadServer.Server.EmitMeteringEvent | services/upload/server.go:483-488 | the same for the upload_completed event, with the workspace, user and size of the row |
| UploadRequests.Server.HandlePutChunk | services/upload/server.go:316-414 | an admitted request ends in exactly the world and answer of the step machine, for every script of failing or cut calls; once the lookup answers it is refused exactly by the table of checks, first of them not found iff the session is absent or of another workspace, nothing changed; a request over the ceiling changes nothing but its session's backoff and is told the delay; a stored chunk means the part is stored under the announced hash and the row is DONE with its hash, ETag and length; a truncated or mismatching body leaves the row up for retry; what was admitted is released whatever the answer |
| UploadRequests.PutIsRefusedIff | services/upload/server.go:316-352 | over every run of the PUT machine whose lookup answered: refused exactly by that table, not found iff absent or foreign, and never later |
| UploadRequests.PutAnswers | services/upload/server.go:363-414 | past its checks a chunk PUT stores its chunk when nothing fails, and otherwise is answered by the first call or check that fails |
| UploadRequests.Server.HandleCancel | services/upload/server.go:547-588 | the handler run call by call ends in exactly the world and answer of the step machine; once the lookup answers: not found iff the session is absent or of another workspace, refused iff it is COMPLETED, nothing changed in either case; a 204 changes only this row, to CANCELLED, and unless it was so before, its multipart is gone, and its staging object too if the HEAD answered |
| UploadRequests.CancelIsRefusedIff | services/upload/server.go:547-567 | over every run of the cancel machine whose lookup answered: not found iff absent or foreign, refused iff COMPLETED, with nothing changed |
| UploadRequests.CancelAnswers | services/upload/server.go:559-588 | the answer of every other cancel by which of its calls fail; a failing HEAD skips the deletion |
| UploadRequests.Server.HandleCreate | services/upload/server.go:133-246 | the same for create: the invalid, quota-error and denied answers come exactly when the body, the quota call and its decision say so; a 201 means the body was valid and allowed, the session row is as requested, every chunk pending, the multipart open and the event published |
| UploadHandlers.ValidCreateIff | services/upload/server.go:130-247 | a body is valid iff its name has 1 to 512 characters, none a slash or control character, its size is positive and within the maximum, and its MIME type is two tokens of 1 to 127 characters of the pattern joined by a slash |
| UploadRequests.CreateAnswers | services/upload/server.go:152-227 | a valid create is created when nothing fails, and otherwise is answered by the first call that does; its event has three attempts while the client is there |
| UploadSystem.ContentAddressing | services/upload/server.go:416-545 | in every interleaving with any call failing or cut: each content-addressed object hashes to its key, each landed event names such an object of the declared size, and COMPLETED is recorded only after landed and metering were published |
| UploadSystem.Reassembly | services/upload/server.go:502-545 | once a hash is recorded, the object under its key is the in-order concatenation of one checksum-verified body per chunk index, each in its own byte range |
| UploadSystem.HashIsWriteOnce | services/upload/server.go:538-543 | a recorded hash and key never change again |
| UploadLive.ActiveSessionsAreLiveIff | services/upload/server.go:204-217 | in every run an ACTIVE session has no open multipart iff create aborted its lost insert, a cancel aborted it or a complete joined it |
| UploadLive.CreateLeavesDeadSessionIff | services/upload/server.go:196-201 | after a failed insert, the row is ACTIVE without a multipart iff the insert committed and the abort took effect |
| UploadLive.CancelLeavesDeadSessionIff | services/upload/server.go:569-585 | a cancel of an ACTIVE session with an open multipart leaves it ACTIVE without one iff its abort took effect and CANCELLED was not recorded |
| UploadSafety.StagingHasDeclaredSize | services/upload/server.go:507-526 | a staging object always has the declared size, so assembly's size checks never fail on one |
| UploadSafety.CopyDoneIsWhole | services/upload/blobstore.go:204-228 | when the ranges have reached the size, what was copied is the whole staging object |
| UploadSafety.StepGood | services/upload/server.go:133-588 | every external call of every handler keeps the invariant and stays within what other handlers rely on |
| UploadRestart.CleanAttemptCompletesIff | services/upload/server.go:416-545 | an attempt in which nothing fails reaches COMPLETED iff what it needs is still recorded, in staging or in the open multipart |
| UploadRestart.RestartableIff | services/upload/server.go:416-545 | for every all-DONE session that is not cancelled: after any number of cut or failing attempts a clean one reaches COMPLETED, with the hash and key of its content, iff the session was completable and none stopped between the staging delete and the ASSEMBLED record |
| UploadMatching.AcceptedIffEtagsMatch | services/upload/blobstore.go:110-131 | storage accepts the parts the rows record iff each row's ETag is that of the part stored under its number |
| UploadMatching.CompletableIff | services/upload/server.go:502-545 | an all-DONE session is completable iff its hash is recorded, its staging object exists, or its multipart is open with matching ETags |
| UploadMatching.UntouchedIsRestartable | services/upload/server.go:390-413 | when every PUT carries the file's slices, an all-DONE ACTIVE session that lost no multipart is one whose parts storage accepts |
| UploadMatching.HonestRestartableIff | services/upload/server.go:416-545 | for such clients, a clean attempt after any others reaches COMPLETED with the file's hash iff the session is not stranded and no attempt stops in the window |
| UploadMatching.MixedBodiesBlock | services/upload/server.go:371-413 | a run in which no call fails and two PUTs of different bodies leave an all-DONE session with an open multipart that no complete can finish |
| UploadRestart.StopsInWindowIff | services/upload/server.go:533-545 | an attempt leaves a completable session stranded in the window iff its staging delete took effect and its ASSEMBLED record, failed or never reached, did not |
| UploadRestart.StrandedForever | services/upload/server.go:533-540 | a session stopped in that window stays unfinishable through any further attempts |
| UploadRestart.AssembledNeverReassembles | services/upload/server.go:460-466 | an attempt that enters at ASSEMBLED never touches storage again |
| UploadEngine.NextChunk | packages/console/src/upload/engine.ts:231-236 | claimNext gives the first chunk that is pending or up for retry, or none |
| UploadEngine.FillKeeps | packages/console/src/upload/engine.ts:217-224 | the slot loop keeps slots, chunks and PUTs matched, and ends with nothing claimable or no slot free |
| UploadEngine.PumpSends | packages/console/src/upload/engine.ts:210-240 | a pump that is not parked keeps busy slots, sends pending and retried chunks until all eight slots are busy or none is left, and asks for completion exactly when every chunk is DONE and every slot idle |
| UploadEngine.SaturatedParks | packages/console/src/upload/engine.ts:249-256 | a 429 starts no PUT, charges no attempt, leaves its chunk pending and its slot free, and parks the engine until now + retryAfter with one timer |
| UploadEngine.BackpressureHolds | packages/console/src/upload/engine.ts:210-216 | until the clock reaches that time no PUT is started in any continuation without another 429 |
| UploadEngine.StoredIsDone | packages/console/src/upload/engine.ts:257-261 | a stored PUT makes its chunk DONE, is over, and charges nobody |
| UploadEngine.SlotDiscipline | packages/console/src/upload/engine.ts:210-281 | in runs without pause or error: busy slots and INFLIGHT chunks are in bijection, at most 8 PUTs, no chunk sent twice at once |
| UploadEngine.UploadingMakesProgress | packages/console/src/upload/engine.ts:210-229 | in such runs an uploading engine always has a PUT or a pump timer pending |
| UploadEngine.RetriesAndCompletion | packages/console/src/upload/engine.ts:262-312 | in such runs no chunk has failed five times, at most one complete request is outstanding, and onLanded fires at most once |
| UploadEngine.FifthFailureLeavesUploading | packages/console/src/upload/engine.ts:262-277 | in any state a failure is charged to its chunk, and the fifth ends in the error state |
| UploadEngine.FailedPutIs | packages/console/src/upload/engine.ts:262-280 | in any state whose controller is live: below the fifth failure the chunk is up for retry or on its way again; the fifth frees every slot, reverts what was INFLIGHT and arms an auto-resume exactly for a lost transport |
| UploadEngine.PauseChargesInflightChunks | packages/console/src/upload/engine.ts:262-268 | a PUT aborted by pause is charged as a failed attempt, because the catch looks at the new controller |
| UploadEngine.PauseReverts | packages/console/src/upload/engine.ts:362-370 | pause touches an uploading engine only, makes its INFLIGHT chunks pending and frees every slot |
| UploadEngine.ResumeAsksForResync | packages/console/src/upload/engine.ts:372-383 | only a paused or failed engine resumes, by asking for a resync; the timer resumes only an error nobody disposed of |
| UploadEngine.ResumeAdopts | packages/console/src/upload/engine.ts:319-353 | its resync uploads again on exactly the server's DONE cells, every other cell pending |
| UploadEngine.RefusalAdopts | packages/console/src/upload/engine.ts:300-308 | so does the resync after a refused completion |
| UploadEngine.CompletionAnswers | packages/console/src/upload/engine.ts:283-312 | what each answer to complete does to state, callbacks and what is awaited |
| UploadEngine.FailuresEnd | packages/console/src/upload/engine.ts:174-205 | a refused start and a failed resume end in error with no slot taken and nothing INFLIGHT; a failed resync after a conflict only stops being awaited |
| UploadEngine.VerifyingIsFinalIff | packages/console/src/upload/engine.ts:283-312 | after any run without pause or error, a verifying engine stays verifying in every cancel-free continuation iff no complete and no resync is awaited |
| UploadEngine.WedgingRunWedges | packages/console/src/upload/engine.ts:300-308 | a run from the start, by a 409 and a failed resync, after which nothing but cancel ends verifying |
| UploadEngine.ConflictLoopIff | packages/console/src/upload/engine.ts:300-308 | a 409 and the resync that follows bring a verifying engine back to the very same state iff every reported cell is DONE, no slot is taken, and it is neither disposed nor parked |
| UploadEngine.StepOnlyDone | packages/console/src/upload/engine.ts:242-353 | in every state an event turns DONE only the chunk of a stored PUT or cells the server reported DONE |
| UploadTask.UploadTask.ClaimNext | packages/console/src/upload/engine.ts:231-236 | the scan returns the first chunk pending or up for retry, and none iff every chunk is INFLIGHT or DONE |
| UploadTask.UploadTask.EveryChunkDone | packages/console/src/upload/engine.ts:238-240 | true iff there is a chunk and all are DONE |
| UploadTask.UploadTask.FillSlots | packages/console/src/upload/engine.ts:217-224 | the loop over slots equals the recursive specification |
| UploadTask.UploadTask.PumpNow | packages/console/src/upload/engine.ts:210-229 | pump in place equals its specification: parked, filled, or finished |
| UploadTask.UploadTask.OnStored | packages/console/src/upload/engine.ts:257-261 | the continuation of a 200 |
| UploadTask.UploadTask.OnSaturated | packages/console/src/upload/engine.ts:249-256 | the continuation of a 429: requeue, park until now + retryAfter, pump; for a positive delay nothing is sent and one timer is armed |
| UploadTask.UploadTask.OnFailed | packages/console/src/upload/engine.ts:262-280 | the catch block: charge, retry or give up |
| UploadTask.UploadTask.Adopt | packages/console/src/upload/engine.ts:339-353 | resync adopts the server's DONE cells and no others, and clears the slots |
| UploadTask.UploadTask.OnFinishResync | packages/console/src/upload/engine.ts:300-308 | the continuation of a conflict once its resync has answered: adopt, upload again, pump |
| UploadTask.UploadTask.OnPause | packages/console/src/upload/engine.ts:362-370 | pause reverts INFLIGHT chunks and replaces the controller |
| UploadTask.UploadTask.OnCancel | packages/console/src/upload/engine.ts:385-388 | cancel aborts, and ends the task for good |
| UploadLink.DoneIsAbsorbing | services/upload/postgres.go:115-172 | a DONE chunk row stays DONE under every continuation of every run of the service |
| UploadLink.DoneIsSound | packages/console/src/upload/engine.ts:242-281 | in every run, with pauses, resumes, resyncs and stale PUTs, a chunk the client shows DONE is DONE in the server's table |
| UploadLink.CompleteIsNeverPremature | packages/console/src/upload/engine.ts:226-228 | when every cell is DONE the server's own completeness check is met |
| UploadLink.ConflictMeansCancelled | services/upload/server.go:416-458 | once every cell is DONE, no step of any complete request on the session, then or after any further moves, refuses it for missing chunks, and one refuses it as cancelled only while the session is |
| UploadLink.RefusedCompletionLoops | packages/console/src/upload/engine.ts:300-308 | in every linked run, refusing that complete and resyncing from the server's rows changes nothing iff no slot is taken and the engine is neither disposed nor parked |
| UploadFile.CoherentIffTiles | packages/console/src/upload/engine.ts:183-189 | the engine accepts a create response exactly when its chunks tile the file |
| UploadFile.ClientCutsTheSlices | packages/console/src/upload/engine.ts:143-148 | what moveChunk slices is the chunk's byte range, of the length the server expects |
| UploadFile.StoredObjectIsTheFile | services/upload/server.go:390-413 | if the session's PUTs announce the hashes of the file's slices, then whatever bodies arrive and whatever fails, a recorded hash is the file's and the stored object is the file |
| Hub.DropOldestRefinesLog | services/telemetry/internal/hub/hub.go:35-63 | every drain of every run returns the last min(max,n) accepted events in order and counts the rest as dropped |
| Hub.NothingLostSilently | services/telemetry/internal/hub/hub.go:35-63 | accepted = delivered + reported dropped + pending dropped + buffered |
| Hub.Conn.Push | services/telemetry/internal/hub/hub.go:35-51 | a filtered event changes nothing; else the oldest goes and is counted when the buffer is full, the event is last, and the notify slot is full |
| Hub.Conn.DrainAll | services/telemetry/internal/hub/hub.go:55-63 | returns and clears the buffer and the drop count |
| Hub.Broadcaster.Publish | services/telemetry/internal/hub/hub.go:87-93 | every subscriber is offered the event, once |
| Hub.Broadcaster.PublishSticky | services/telemetry/internal/hub/hub.go:97-104 | remembered by name and offered to every subscriber |
| Hub.Broadcaster.Subscribe | services/telemetry/internal/hub/hub.go:108-122 | a new subscriber has been offered the latest sticky event of every name exactly once, and is registered |
| Hub.Broadcaster.Unsubscribe | services/telemetry/internal/hub/hub.go:125-129 | only that subscriber is removed |
| HubServe.WakeupNeverLost | services/telemetry/internal/hub/hub.go:164-195 | in every interleaving a non-empty buffer implies a full notify slot, a pusher before its notify, or a serving loop still draining |
| HubServe.SubscribeLeavesSubscribed | services/telemetry/internal/hub/hub.go:108-122 | a new connection offered the sticky events starts the serving loop with exactly the accepted ones represented, and its notify slot full if there are any |
| HubServe.EveryPushIsAccountedFor | services/telemetry/internal/hub/hub.go:164-195 | the drained groups and the current log are exactly the accepted events in order |
| HubServe.QuiescentMeansDelivered | services/telemetry/internal/hub/hub.go:164-195 | when the loop sleeps with nothing pending, the client has been told, group by group, of everything accepted: the newest events in order, after one dropped event with the number missing |
| HubServe.ClientReceivesWhatIsOwed | services/telemetry/internal/hub/hub.go:156-194 | through any interleaving and any cutting of the stream, the console's reader delivers exactly what the drains owe, less a batch still in hand |
| HubServe.ClientSeesEveryDrain | services/telemetry/internal/hub/hub.go:156-194 | what that is: for each drained group the last min(max, n) events by name and data in order, and exactly when more were accepted, before them one event named dropped whose data is {"dropped": the number missing in digits} |
| HubServe.DecimalReadsBack | services/telemetry/internal/hub/hub.go:184-186 | the digits of a count read back as the count, without leading zeros |
| HubServe.RoundDelivers | services/telemetry/internal/hub/hub.go:164-195 | one undisturbed round of the loop tells the client exactly what was accepted since the last drain, and waits again over an empty buffer |
| HubServe.LoopEndsIff | services/telemetry/internal/hub/hub.go:164-195 | the loop ends exactly at a failed write or heartbeat or at a disconnect, for good, and only a flushed write adds events |
| Sse.IndexOf | packages/console/src/api/sse.ts:148-154 | the first occurrence at or after a position, or -1 when there is none |
| Sse.RecordEndIsFirst | packages/console/src/api/sse.ts:148-154 | indexOfRecordEnd is the first position where either separator stands |
| Sse.DrainSplit | packages/console/src/api/sse.ts:125-146 | draining a + b is draining a and then its leftover with b appended, for arbitrary text |
| Sse.SplittingIndependence | packages/console/src/api/sse.ts:125-146 | the events delivered depend only on the concatenation of the reads |
| Sse.RoundTripAnySplit | packages/console/src/api/sse.ts:125-171 | printed events and comments, however the stream is cut, come back as exactly those events in order |
| Sse.PrintedText | services/telemetry/internal/hub/hub.go:157-188 | an event is printed as its event line, its data line and an empty line, a comment after a colon |
| Sse.ParseRecord | packages/console/src/api/sse.ts:156-171 | the pass over the lines equals the fold of its line rule |
| Sse.ParsedDataLines | packages/console/src/api/sse.ts:156-171 | a record of data lines without a name is a message of those lines joined by line feeds |
| Sse.ReadStream | packages/console/src/api/sse.ts:125-146 | the reading loop delivers what one read of the whole stream would |
| Jobs.EveryTransitionIsAStatement | services/orchestrator/internal/jobs/job.go:64-76 | a move is legal iff some store statement makes it |
| Jobs.OfferedIffLegal | services/orchestrator/internal/jobs/job.go:90-98 | retry is offered iff a move to queued is legal, cancel iff a move to failed is |
| Jobs.RunRefinesLifecycle | services/orchestrator/internal/store/store.go:332-428 | over any run a row's states follow CanTransition |
| Jobs.CompletedIsFrozen | services/orchestrator/internal/store/store.go:332-428 | a completed row is never touched again |
| Jobs.RowsInEveryRun | services/orchestrator/internal/store/store.go:332-428 | error class iff failed, finished_at iff completed or failed, attempts equals the number of claims |
| Jobs.ConcurrentClaimsDiffer | services/orchestrator/internal/store/store.go:332-343 | two claimers that skip each other's locked rows take different rows, oldest first, in either order |
| Jobs.JobTable.ClaimNextQueued | services/orchestrator/internal/store/store.go:332-343 | takes the oldest unlocked queued row, making it running with a start time, no error class and one more attempt; fails iff every queued row is locked |
| Jobs.JobTable.MarkCompleted | services/orchestrator/internal/store/store.go:360-375 | only a running row completes; anything else is a conflict |
| Jobs.JobTable.MarkFailed | services/orchestrator/internal/store/store.go:378-392 | only with a class of the taxonomy, only from queued or running |
| Jobs.JobTable.RetryJob | services/orchestrator/internal/store/store.go:395-410 | only a failed row of the workspace; unknown rows are not found, others conflict |
| Jobs.JobTable.CancelQueuedJob | services/orchestrator/internal/store/store.go:414-428 | only a queued row of the workspace, which then satisfied CanCancel |
| Jobs.JobTable.UpdateProgress | services/orchestrator/internal/store/store.go:346-357 | touches only running rows |
| Farm.MeteringConservation | services/orchestrator/internal/scheduler/scheduler.go:229-236 | in every run emitted queued - completed - failed equals the queued plus running rows, plus events still owed, plus what each recorded fault cost |
| Farm.QuiescentBalance | services/orchestrator/internal/store/store.go:321-327 | without faults and with nothing owed the balance is CountActiveJobs |
| Farm.CompletedEventsAreCompletedRows | services/orchestrator/internal/scheduler/scheduler.go:390-397 | in every run the job_completed events emitted or owed for a workspace are at most its completed rows, and fewer only by final events that were lost |
| Farm.FreeSlotClaims | services/orchestrator/internal/scheduler/scheduler.go:145-183 | a free slot makes the oldest unlocked queued row running under a worker |
| Farm.WorkerCompletes | services/orchestrator/internal/scheduler/scheduler.go:390-397 | a worker that succeeds completes its row, and then emits one job_completed for its workspace |
| Farm.WorkerFails | services/orchestrator/internal/scheduler/scheduler.go:239-290 | a worker that fails leaves the row failed with its class, and then emits one job_failed |
| Farm.ClaimThatFails | services/orchestrator/internal/scheduler/scheduler.go:157-171 | a claim that finds nothing or fails gives its slot back; one that fails after its commit leaves a running row with no worker |
| Farm.FinalWriteThatFails | services/orchestrator/internal/scheduler/scheduler.go:229-236 | a failed completing write leaves the row running or loses the event, by when it failed; a failing one owes job_failed either way |
| Farm.CreateAnnounces | services/orchestrator/internal/httpapi/jobs.go:77-150 | an inserted job is queued and announces job_queued once |
| Farm.RetryAnnounces | services/orchestrator/internal/httpapi/jobs.go:152-196 | a retried job is queued afresh and announces job_queued again |
| Farm.CancelAnnounces | services/orchestrator/internal/httpapi/jobs.go:198-250 | a cancelled queued job fails as internal and announces job_failed |
| Farm.RunningWithinSlots | services/orchestrator/internal/scheduler/scheduler.go:145-183 | running rows exceed the slots by at most the orphans, and never without a fault |
| Farm.FinalisingNeverConflicts | services/orchestrator/internal/scheduler/scheduler.go:390-396 | a worker's finalising write always finds its row running |
| Farm.StuckForeverIff | services/orchestrator/internal/httpapi/jobs.go:216-233 | a running row stays running in every continuation iff no worker holds it |
| Farm.StuckRowsOfARun | services/orchestrator/internal/scheduler/scheduler.go:229-236 | the same after any run of scheduler, handlers and crashes, and such a row takes a recorded fault |
| JobRunner.Runner.OnProgress | services/orchestrator/internal/scheduler/scheduler.go:334-352 | notes the rung's percent, and reports the job's percent within [0,100] only when the throttle allows |
| JobRunner.Runner.RunLadder | services/orchestrator/internal/scheduler/scheduler.go:291-388 | fails with the class of the first failing rung, leaves earlier rungs done and later ones pending, and reports percents that never fall when each rung's do not |
| JobRunner.FailureIs | services/orchestrator/internal/scheduler/scheduler.go:239-388 | which call decides how a job ends: preset, source, object, scratch, download, then the first rung that is cancelled, unstaged, not encoded or not uploaded, and with which class |
| JobRunner.Runner.RunJob | services/orchestrator/internal/scheduler/scheduler.go:239-397 | the row is finalised as completed iff every call succeeded, else as failed with the first failure's class, unless that write itself fails; one started event, then job_failed whatever the write answers or job_completed only if it succeeded |
| Landed.AtMostOneAutoJob | services/orchestrator/internal/consumer/landed.go:129-282 | through any redeliveries, failures and crashes at most one job is auto-created per workspace and object key while none fails and the default preset stays |
| Landed.DefaultMovesIff | services/orchestrator/internal/store/store.go:153-164 | a new preset changes the default exactly when it sorts before it |
| Landed.SecondPresetMovesIff | services/orchestrator/internal/store/store.go:126-164 | in a run of two inserts the first preset is the default, and the second takes over iff its time is earlier, or equal with a smaller id |
| Landed.HandlerCreatesIff | services/orchestrator/internal/consumer/landed.go:215-282 | the callback inserts a job exactly when enabled, its calls get that far, there is a default, and nothing is active on it |
| Landed.HandledEarly | services/orchestrator/internal/consumer/landed.go:129-230 | what one callback comes to before there is a default preset to work on, for every outcome of its calls |
| Landed.HandledOnPreset | services/orchestrator/internal/consumer/landed.go:230-282 | and on the default preset: nothing while a job of the object is active on it, else one queued job for it, and one billing event if the insert and the publish succeed |
| Landed.CreatedJobIsBilled | services/orchestrator/internal/consumer/landed.go:248-268 | a job the callback inserts is billed exactly once when its insert and its publish succeed |
| Landed.FirstLanding | services/orchestrator/internal/consumer/landed.go:129-282 | the run of a first landing with nothing failing: source record, one queued job on the preset, one billing event, the message acknowledged |
| Landed.CrashLosesTheBill | services/orchestrator/internal/consumer/landed.go:231-268 | a run with a crash between the insert and the billing event: the redelivery is acknowledged on the job it finds, which is never billed |
| Landed.FailedJobAllowsAnother | services/orchestrator/internal/store/store.go:378-392 | a run in which the auto-created job fails and a redelivery creates and bills another |
| Landed.HandledIsARun | services/orchestrator/internal/consumer/landed.go:129-282 | the uninterrupted callback is one run of the interleaved steps |
| Landed.AckMeansProbed | services/orchestrator/internal/consumer/landed.go:129-207 | a landed message is acknowledged only after its source record is stored |
| Landed.AutoJobsBilledAtMostOnce | services/orchestrator/internal/consumer/landed.go:248-268 | each auto-created job is billed at most once, and nothing else is |
| Landed.LandedConsumer.OldestPreset | services/orchestrator/internal/store/store.go:158-164 | the preset with the earliest creation time, smallest id among equals, iff the workspace has one |
| Landed.LandedConsumer.Handle | services/orchestrator/internal/consumer/landed.go:129-207 | the handler in place equals the callback's specification, for every outcome of its calls |
| Rollup.Delta | services/tenancy/metering.go:32-72 | none iff the id, workspace or time is missing, the kind is unknown, or a number is negative; otherwise each counter is one exactly for its own kind, bytes only for a completed upload, seconds only for the two job endings |
| Rollup.ExactlyOnce | services/tenancy/postgres.go:399-438 | in every run each usage row is the sum of rollupDelta over the distinct recorded events of its key, and exists iff there is one |
| Rollup.RowsCountEvents | services/tenancy/postgres.go:399-438 | in every run each counter of a row is the number of distinct recorded events of its kind in that workspace and month, and its seconds are those of its job endings |
| Rollup.ConsumeAdds | services/tenancy/postgres.go:399-438 | one delivery of an unrecorded event that fits adds its increments to its own row, and to no other, and is acknowledged |
| Rollup.ConsumeOtherwise | services/tenancy/metering.go:174-216 | what can never be applied is terminated, a duplicate acknowledged, a failed call retried, all without effect |
| Rollup.RepliesAreSafe | services/tenancy/metering.go:174-195 | acknowledged implies recorded; terminated implies it can never be applied |
| Rollup.DeliverySettles | services/tenancy/metering.go:174-216 | a delivery that runs to its reply settles its message by the verdict, acknowledged or terminated for good, and a retry leaves it pending |
| Rollup.DrainedRollups | services/tenancy/metering.go:77-91 | once every message is settled the rows depend on the stream's distinct events alone |
| Rollup.OverflowIsRefused | services/tenancy/postgres.go:416-432 | one delivery of an unrecorded event is sent back for a retry if its increment takes a column past 2^63 - 1, and acknowledged if none and no call fails |
| Rollup.NeverRecordedIff | services/tenancy/postgres.go:416-432 | a well-formed event with an unused id is recorded by no continuation iff its increment takes a column of its row past 2^63 - 1 now |
| Rollup.OverflowIsReachable | services/tenancy/metering.go:174-195 | two events of one row, each in range and together beyond it, published and delivered in turn leave the second refused for ever |
| Rollup.FullMonthRefusesOneMore | services/tenancy/postgres.go:416-432 | such a run: a month filled to the largest bigint, and one byte more |
| Rollup.StorageIsUploads | services/tenancy/postgres.go:456-464 | a workspace's stored bytes are the bytes of its distinct completed uploads |
| Rollup.MeteringConsumer.ApplyInTx | services/tenancy/postgres.go:399-438 | insert-or-skip and upsert in one transaction, for each way it can end |
| Rollup.MeteringConsumer.Handle | services/tenancy/metering.go:174-216 | terminate what cannot parse, retry what failed, acknowledge the rest |
| Refresh.AtMostOneBranch | services/tenancy/authflow.go:260-307 | under any interleaving unused tokens plus refreshes between mark and issue never exceed one per family |
| Refresh.FamiliesAreChains | services/tenancy/postgres.go:305-315 | a token is exchanged for at most one successor |
| Refresh.RevocationIsFinalIff | services/tenancy/authflow.go:279-287 | a revoked family stays revoked in every continuation iff no refresh past its lookup can still mark or issue |
| Refresh.RevocationIsOutrun | services/tenancy/authflow.go:260-307 | a run that revokes a whole family while a refresh has marked its token and not yet issued, after which that issue adds a live token |
| Refresh.DeadForever | services/tenancy/authflow.go:260-331 | a revoked family with no such refresh gains no token in any continuation |
| Refresh.RevokedFamilyNeverGrants | services/tenancy/authflow.go:260-331 | with atomic handlers no later request ever adds a token to a revoked family |
| Refresh.ReuseRevokesTheFamily | services/tenancy/authflow.go:279-287 | presenting a used token, or logging out, revokes exactly the live rows of its family unless a call fails before it takes effect, and is answered as it should be |
| Refresh.AtomicHandlerIsARun | services/tenancy/authflow.go:260-331 | an uninterrupted handler is one run of the interleaved steps |
| Refresh.AuthServer.MarkRefreshTokenUsed | services/tenancy/postgres.go:305-315 | succeeds iff the token was unused, and changes only when it was used |
| Refresh.GrantedIff | services/tenancy/authflow.go:260-307 | a refresh is granted iff its row is neither revoked nor used, is not past its expiry, and its lookup, mark and issue all succeed; then the row is used and the one new row is of the same family, unused, live and expires a lifetime from now; a row added without a grant is one whose insert committed with an error |
| Refresh.RefusalsChangeNothing | services/tenancy/authflow.go:268-292 | an unknown, a revoked and an expired unused token are unauthorized, the table unchanged |
| Refresh.AuthServer.HandleRefresh | services/tenancy/authflow.go:260-307 | the exchange in place for every outcome of its four calls: granted exactly on the row's fields, with the exact new table; refused rows change nothing; a reused row revokes the live rows of its family |
| Refresh.AuthServer.HandleLogout | services/tenancy/authflow.go:312-331 | revokes the token's family if the token is known, for every outcome of its two calls |
| Refresh.AuthServer.RevokeRefreshFamily | services/tenancy/postgres.go:317-324 | revokes every live row of the family, or fails before or after doing so |
| Aggregator.CountersAreRecount | services/telemetry/internal/jobs/aggregator.go:89-185 | after any messages the four counters are the numbers of queued and running jobs of the active map and of accepted terminal events |
| Aggregator.FarmRatesOf | services/telemetry/internal/jobs/aggregator.go:207-221 | the farm rates are the sums over running jobs: each job moves them by its own rates if it runs, else not |
| Aggregator.ActiveIsPerJobFold | services/telemetry/internal/jobs/aggregator.go:107-136 | the active map is, job by job, the fold of that job's own accepted messages |
| Aggregator.RejectedLeaveNoTrace | services/telemetry/internal/jobs/aggregator.go:89-105 | the state is a fold of the accepted messages alone |
| Aggregator.JobsAreIndependent | services/telemetry/internal/jobs/aggregator.go:107-136 | runs that agree on one job's messages agree on that job |
| Aggregator.Aggregator.HandleState | services/telemetry/internal/jobs/aggregator.go:89-144 | accepted iff id, workspace and time are there and the state is known; then the job is entered, or leaves with its terminal counted; a rejected message changes nothing, and what is published is the recount |
| Aggregator.Aggregator.HandleProgress | services/telemetry/internal/jobs/aggregator.go:149-185 | accepted iff id, workspace and time are there, no rate is negative and the percent is within [0,100]; then its job is running with those rates |
| Aggregator.Aggregator.AggregateNow | services/telemetry/internal/jobs/aggregator.go:207-221 | the loop over the active jobs yields the recount |
| Progress.FedIsBlock | services/orchestrator/internal/engine/ffmpegadapter/progress.go:35-91 | within a block the parser holds the block's own last values, with any valid out_time_us beating every out_time_ms in either order |
| Progress.ScanProgress | services/orchestrator/internal/engine/ffmpegadapter/progress.go:95-105 | the emitted samples are, block by block, functions of each block's own lines |
| Progress.ProgressParser.FeedLine | services/orchestrator/internal/engine/ffmpegadapter/progress.go:35-91 | line by line which field changes and to what, which lines are ignored, and the sample a progress line closes |
| Progress.Percent | services/orchestrator/internal/engine/ffmpegadapter/progress.go:109-131 | out-time over duration times 100 below the duration, 100 at or past it or ended, 0 for an unknown duration, never outside [0,100] |
| Progress.RungMonotoneIff | services/orchestrator/internal/engine/ffmpegadapter/progress.go:109-131 | for non-decreasing out-times, percent never falls iff nothing short of the duration follows an end |
| Progress.JobPercentBounds | services/orchestrator/internal/scheduler/scheduler.go:336 | job percent within [0,100] |
| Progress.JobPercentMonotone | services/orchestrator/internal/scheduler/scheduler.go:336 | a later rung is never behind an earlier one |
| Backpressure.DelayIsCappedExponential | services/upload/backpressure.go:70-80 | for base = m * 2^a with m * max < 2^63, the wrapped shift yields min(base * 2^level, max) at every level |
| Backpressure.ProductionDelay | services/upload/main.go:64 | so it does for 1 s and 60 s |
| Backpressure.WaitsDouble | services/upload/backpressure.go:70-87 | a second after the first denial since the session's reset, doubling with each, never over a minute |
| Backpressure.DenialsSinceReset | services/upload/backpressure.go:70-87 | the denials that count are those of this session after its last reset |
| Backpressure.DelaysAreMonotone | services/upload/server.go:357-359 | delays never shrink, are never zero, and are whole seconds in the Retry-After header |
| Backpressure.CappedExponentialIff | services/upload/backpressure.go:70-80 | for all positive constants, the delay is min(base * 2^level, max) at every level iff no overflowing level below 64 wraps to a positive value below the cap |
| Backpressure.BackoffDirector.DenySession | services/upload/backpressure.go:70-80 | the delay depends on this session's denials since its own last reset only |
| Backpressure.BackoffDirector.ResetSession | services/upload/backpressure.go:83-87 | starts this session afresh and no other |
| Backpressure.GaugeIsHeldBytes | services/upload/backpressure.go:27-42 | under any interleaving of load, swap and release the gauge is the bytes held, within the ceiling |
| Backpressure.AdmissionIsExactIff | services/upload/backpressure.go:30-32 | the admission test is right iff the sum does not overflow |
| Backpressure.AdmittedIffFits | services/upload/backpressure.go:27-37 | undisturbed, a request is admitted iff its bytes fit, and the gauge grows by them |
| Backpressure.InflightGauge.TryAcquire | services/upload/backpressure.go:27-37 | the compare-and-swap loop admits iff the bytes fit in the round it settles in, whatever others do between load and swap |

## Left out

- HTTP routing, JSON and YAML decoding, tokens and sign-in, migrations, drivers and process execution: only their effect on the state above is modelled.
- UploadRequests.Server.HandleCreate: JSON decoding and the quota's own rules are inputs: the decoded body or none, allowed or not.
- UploadHandlers.ValidCreateIff: a name is a sequence of its bytes, which is what the 512 limit counts; its decoding is left out.
- UploadRequests.Server.HandlePutChunk: header texts are inputs: a checksum header is 64 hex digits or none, an unparsable index is a negative one.
- UploadServer.Server.CopyStaging: the create and complete calls of a ranged copy are folded into its first and last range; BlobStores.BlobStore.Copy has them one by one.
- Part numbers and the 10 000-part limit of object storage: part numbers are unbounded integers.
- Multipart ids are tied to the session that opened them; the second multipart of a server-side copy exists in BlobStore.dfy and is folded into the copy step in UploadHandlers.dfy.
- Reading the chunk map is one step, although the source reads the session row just before it.
- Throughput, byte counters, listeners and error texts of the browser's engine; the chunk count of a session is taken to stay as created, which is what the service does.
- UploadEngine.SlotDiscipline: states nothing about runs with a pause or a session error, in which stale PUTs still write their slot.
- UploadFile.CoherentIffTiles: division is exact, not in double precision.
- Reconnecting, closing and aborting in the event-stream reader, and UTF-8 decoding: the reader is given characters.
- Sse.RoundTripAnySplit: covers names and payloads on one line, which is what the printer is given.
- Job columns that only display (fps, speed, eta, per-output json), and the texts of failures; a failed progress write is treated as a skipped report.
- Farm.MeteringConservation: job_started events are not part of the balance, and a fault is counted per workspace rather than per job.
- The scheduler's cancel map: a worker may fail its job at any moment, which covers a delivered cancel.
- Redelivery limits and acknowledgement timeouts of the message stream: a message may be delivered at any time and any number of times.
- Landed.AtMostOneAutoJob: a failed auto-created job, or a default preset that moves, allows another one.
- Encode seconds, frame rates and percents are real numbers: rounding is not modelled. Clocks are parameters.
- One upload_completed event per upload is not claimed: a retried complete mints a new event id.
- Parsing numbers out of ffmpeg lines, and lines longer than the scanner's buffer.
- Workspaces, members, roles, API keys and the usage endpoint would only add lookups.
