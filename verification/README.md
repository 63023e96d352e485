# PhotoDrop: a verified model of uploads, cleanup and sessions

This project models the parts of PhotoDrop in which several requests and workers act on the same rows, and proves what
they keep. It also models the algorithms around them: multipart splitting, keyset paging, request hashing, rate
limiting and refresh-token rotation. Everything is checked by Dafny 4.11: `dafny verify dfyconfig.toml`.

## What is modelled

**Tables and transactions.** `Schema` has the rooms, media, upload_sessions and room_members tables with their CHECK
constraints; `Transactions` gives, for every transaction of the services, the tables after commit and the answer.
`Database` is the same in imperative form: a class whose fields are the tables, and whose methods run the transactions
statement by statement and are proved equal to those functions.

**The ledger.** `LedgerInvariant` and `LedgerTransactions` prove that every transaction keeps each room's reserved and
used counters equal to a fold over its media, whatever stale reading it started from.

**The upload protocol.** `UploadProtocol` is a step system: tables, objects, open multipart uploads and any number of
actors (Initiate, PartURLs, Complete, Abort, media Delete, room Delete, the cleanup batch), each with a program counter
and a stale snapshot. A committed transaction is one step, a store call is another and may fail, take effect without
saying so, or (prefix removal) get half-way; actors crash anywhere. `UploadSteps` proves the invariant for every step,
`UploadTheorems` draws the consequences for every run. Room limits, lifetimes and identifiers are parameters.

**What operations answer.** `CompleteAnswers`, `Initiation`, `SessionAnswers` (Abort and PartURLs), `MediaDeletion`,
`RoomDeletion`, `CleanupAnswers` and `ThumbnailAnswers` say of each operation exactly when it answers what: of every single
step, whatever runs beside it, and of the operation from start to end when it is left alone, with what it leaves in
tables and store. `Alone` has what they share; `Readiness` shows that only Complete makes media ready; `Validation` has
the inputs that Initiate accepts.

**Row locks.** `RowLocks` splits the transactions again into single lock requests, with the advisory lock, `FOR UPDATE`
and `SKIP LOCKED`. `RowLockTheorems` proves that nobody ever waits in a circle and that locked rows stay as they were
read, which is what lets `UploadProtocol` take a transaction as one step.

**Workers.** `Cleanup` has the expiry and reclaim loops on the `Database` class. `Thumbnail` runs any number of
thumbnail workers next to the upload protocol; `ThumbnailBatch` has the batch loop with its termination measure, other
workers and row changes in between.

**Lost objects.** `StoreRemovals` has which steps remove an object from the store. `MediaLoss` and `ThumbnailLoss`
prove after which steps ready media, or a published thumbnail, is without its object; `PhotoRun`, `MediaLossRun` and
`ThumbnailLossRun` are runs from an empty database in which that happens.

**Rooms.** `RoomRequest` and `RoomCreation` have the creation request, its hash and its idempotency table.

**The gallery.** `Keyset` and `Gallery` have the page query, the endpoint and a client that follows cursors while the
upload protocol runs; `Cursor`, `UuidText` and `Decimal` have the cursor's printer and parser (section 4 of RFC 9562 for
UUIDs, section 5 of RFC 4648 for base64url).

**Multipart.** `Multipart` and `PartList` have the browser's batching and slicing loops, the service's checks, and the
reassembly in the store.

**The rest.** `InitiateRequest` and `Canonical` have validation and hashing of upload requests; `RateLimit` the evicting
limiter as an exact integer bucket in nanoseconds; `Sessions` refresh-token rotation, and `RefreshClient` any number of
browser tabs, which share a refresh within a tab and only the stored session between tabs.

Assumptions: `FOR UPDATE` blocks until the lock is free and then evaluates the row again; `SKIP LOCKED` never blocks;
a statement that locks rows of two tables takes them in the order it names the tables; new UUIDs and tokens are
unique; SHA-256 is injective on the inputs considered; clock readings do not go backwards; timestamptz holds
microseconds. Room limits leave room for one more upload below the largest int64: rooms get the defaults of their
columns, 1000 files and 20 GiB. Beyond that bound the byte test of the admission check is right exactly when its sum
fits int64 (`AdmissionWithoutBounds`, with an input in `AdmissionOverflows`), which only another default could reach.

## What turned out not to hold

- A published thumbnail key does not promise its object. A worker whose UPDATE commits but is reported as failed removes
  the object it has just published; so does a late worker for the same media; an UPDATE may publish after another
  worker's clean-up took the shared object; and media Delete and the removal of a room take the object while the row is
  still ready. `PublicationIsLostExactly` says of every event whether it loses a publication, and
  `LoneWorkerLosesItsThumbnail` is a run with one worker.
- Ready media does not always have its object. Abort, the size-mismatch path and media Delete remove it without holding
  the row, and Complete commits without looking again. `OriginalIsLostExactly` says of every event whether it leaves
  ready media without its object; in the run of `AbortTakesReadyPhoto`, Complete answers "ready", Abort is refused, and
  the object is gone.
- The text hashed for a room creation does not determine the request when a name may hold a NUL:
  `CreateTextCollides` is an example, `CreateTextIsUniqueExactly` says of every acceptable request whether it is
  affected. (A PostgreSQL text column does not store a NUL, so a request whose name holds one gets no room of
  its own; under a key the other request has used, it is answered with that one's room.)
- Rate limiter eviction is invisible exactly when burst times interval is at most the idle time
  (`EvictionInvisibleExactly`). It holds for the four limiters of the router.
- A tab presents a spent refresh token exactly when the exchange of that token was never told to the tab that asked for
  it, or was done for another tab (`PresentsSpentExactly`). One lost response is enough (`LostAnswerStrandsTab`), and so
  is a second tab without any loss: it is refused and clears the stored session (`SecondTabPresentsSpent`).
- `room_creation_requests.expires_at` (24 hours) is never looked at: a creation key works as long as its room exists.

## Model

| member | source | states |
|---|---|---|
| UploadTheorems.LedgerAgreement | internal/media/service.go:194-221 | In every state any interleaving reaches, a room's reserved counters are the count and bytes of its media with a live session, its used counters those of its ready media, and a session is live exactly when its media is pending |
| UploadTheorems.QuotaSafety | migrations/00003_upload_reservations.sql:3-8 | In every reachable state used plus reserved is within the room's limits and no counter is negative |
| UploadTheorems.NoConstraintFails | migrations/00003_upload_reservations.sql:3-8 | No operation is ever answered with a constraint violation |
| UploadTheorems.GrantedCanComplete | internal/media/service.go:344-351 | A granted reservation can be completed in every reachable state without another look at capacity |
| UploadTheorems.EndIsRecorded | internal/media/service.go:337-351 | A step is noted as ending a session exactly when it takes it from live to ended |
| UploadTheorems.EndsOnce | internal/media/service.go:424-455 | In every run at most one terminal transition of a session commits, and how it ended never changes |
| UploadTheorems.AnswersAgree | internal/media/service.go:276-358 | "ready" is answered only for completed sessions, so nobody else is told aborted or size mismatch |
| UploadTheorems.AbortedMeansReleased | internal/media/service.go:360-379 | Abort succeeds, and a size mismatch is reported, only for sessions that are aborted or expired |
| UploadTheorems.CrashedCompleteRetries | internal/media/service.go:295-300 | A Complete that crashed after assembling is finished by a retry with the same resulting tables, while the object is there and the session is live and not overdue |
| UploadTheorems.RepeatedInitiate | internal/media/service.go:457-482 | With a session under the key, Initiate changes nothing and answers that session or a conflict |
| UploadTheorems.IdempotentInitiate | internal/media/service.go:146-155 | After any interleaving, while the room exists, there is one session under the key, and the step of a further Initiate with it changes neither tables nor store: an equal request goes on with that upload, another is a conflict |
| UploadTheorems.AttachedUploadIsAnswered | internal/media/service.go:381-400 | What follows changes nothing: it refuses a single upload exactly when that is over or its URL could not be signed, and answers with the upload in all other cases |
| UploadTheorems.OnlyTheSameRequestIsRepeated | internal/media/service.go:556-563 | In any later state the step of a validated Initiate under a used key is refused with a conflict exactly when its slug or a normalized field differs from the first one's |
| CompleteAnswers.ReadyHadItsObject | internal/media/service.go:304-323 | In every run, a session that was completed, and so any that a Complete called ready, had its object in the store in some earlier state, with exactly the size its media row declares |
| CompleteAnswers.MeasuringDecides | internal/media/service.go:304-319 | Under any interleaving Complete goes on to commit exactly when the store reports an object of the declared size, and discards exactly one of another size |
| CompleteAnswers.CompleteAlone | internal/media/service.go:276-358 | In any reachable state, left alone: exactly when Complete answers what, by caller, session, part list and what the store holds; "ready" completes the session, a mismatch releases the reservation and removes the object, and nothing else changes the tables |
| Readiness.OnlyCompleteCompletes | internal/media/service.go:337-351 | A session is completed only by the closing transaction of a Complete for it |
| Initiation.InitiateAlone | internal/media/service.go:127-222 | In any reachable state, left alone, a request under a new key: exactly when it is refused and why; otherwise it answers with the new upload, with exactly one pending media, its session and one reservation more |
| LedgerTransactions.RefusedExactly | internal/media/service.go:505-526 | Each refusal under the room lock has exactly its own condition, in exact integers |
| Validation.AcceptedExactly | internal/media/service.go:529-554 | An input is accepted exactly when its normalized form fits the limits, in that form, and the normalized form is accepted unchanged |
| Validation.TypeIsRead | internal/media/service.go:539-543 | A type on the list is recognized in either case, between spaces, and in front of any parameters |
| SessionAnswers.AbortAlone | internal/media/service.go:360-379 | In any reachable state, left alone: exactly when Abort answers what; a live session is released and nothing of it is left in the store |
| SessionAnswers.AbortStoreDecides | internal/media/service.go:371-377 | Parts that could not be given up keep the reservation; a single upload's object does not |
| SessionAnswers.PartsAlone | internal/media/service.go:236-274 | In any reachable state, left alone: PartURLs grants exactly batches of one to twenty different parts of the caller's open multipart upload, which is uploading afterwards |
| MediaDeletion.DeleteDecides | internal/media/gallery.go:170-194 | Under any interleaving Delete goes on to remove objects exactly for the room's owner or the uploader of ready or failed media, and each refusal has exactly its own condition |
| MediaDeletion.OfferedExactlyWhenAllowed | internal/media/gallery.go:113-113 | An item says it can be deleted exactly when Delete by that identity is not denied |
| MediaDeletion.DeleteAlone | internal/media/gallery.go:170-244 | In any reachable state, left alone: exactly when Delete answers what; the row is deleted, its objects are gone, and the room has one used file less if it was ready |
| RoomDeletion.CreatorIsOnlyOwner | internal/room/service.go:153-156 | In every reachable state exactly the creator of a room is its owner |
| RoomDeletion.RoomDeleteAlone | internal/room/service.go:411-447 | In any reachable state, left alone: exactly when room Delete answers what; an active room is then marked for deletion and closed |
| RoomDeletion.AcceptingExactly | internal/room/service.go:356-402 | Exactly the owner of an active room that is not over opens and closes it to uploads |
| CleanupAnswers.ExpiryAlone | internal/cleanup/service.go:83-151 | An overdue upload that is picked is expired, its reservation released, and nothing of it left in the store |
| CleanupAnswers.DropExactly | internal/cleanup/service.go:66-69 | A room that is deleting goes with its media, their sessions and its members, and every other row stays as it is |
| UploadTheorems.RoomRemovalIsOrdered | internal/cleanup/service.go:47-74 | A room goes from active to deleting to gone and never back, gets no media while deleting, and is gone only after its objects were removed while deleting |
| UploadTheorems.PurgeIsExact | internal/cleanup/service.go:60-64 | A successful prefix removal removes all objects of that room, which is deleting, and no other |
| UploadTheorems.ExpiryRemovesNoReadyMedia | internal/cleanup/service.go:83-102 | The expiry worker removes objects only of sessions that expired, whose media is not ready then or later |
| UploadSteps.NextKeepsWorld | internal/media/service.go:127-455 | Every step of every operation with any stale snapshot keeps the ledger, the history and what every actor in flight relies on |
| LedgerInvariant.EndKeepsLedger | internal/media/service.go:337-351 | Ending a session, whichever way, keeps all counters and row relations and lets rows only advance |
| LedgerInvariant.ReserveKeepsLedger | internal/media/service.go:194-221 | Taking a reservation that fits keeps the ledger |
| LedgerInvariant.DropKeepsLedger | internal/cleanup/service.go:66-69 | Deleting a room with its cascades keeps the ledger of all other rooms |
| LedgerTransactions.CompleteKeepsLedger | internal/media/service.go:320-357 | The closing transaction of Complete keeps the ledger and answers ready exactly when the session is completed afterwards |
| LedgerTransactions.ReleaseKeepsLedger | internal/media/service.go:424-455 | releaseReservation keeps the ledger and succeeds exactly when the session is aborted or expired afterwards |
| LedgerTransactions.ExpireKeepsLedger | internal/cleanup/service.go:104-151 | claimExpiredUpload keeps the ledger and expires exactly live sessions that are overdue |
| LedgerTransactions.DeleteMediaKeepsLedger | internal/media/gallery.go:205-243 | Media Delete keeps the ledger and succeeds exactly when the media is deleted afterwards |
| LedgerTransactions.InitiateReserves | internal/media/service.go:157-222 | A granted Initiate makes one reservation and answers the upload it created |
| LedgerTransactions.InitiateKeepsLedger | internal/media/service.go:134-222 | Initiate keeps the ledger and, with new identifiers, meets no constraint |
| LedgerTransactions.InitiateAnswers | internal/media/service.go:457-482 | An answered upload is the session of the request's key and carries the request's hash |
| LedgerTransactions.AdmittedExactly | internal/media/service.go:484-527 | In exact integers, the checks under the room lock let through exactly a member of the active, unexpired, accepting room with that slug, when one more file and its bytes fit both limits |
| LedgerTransactions.AdmissionIsExact | internal/media/service.go:523-525 | Within the bound on limits the wrapping int64 test is the mathematical one |
| LedgerTransactions.AdmissionWithoutBounds | internal/media/service.go:523-525 | For any int64 limit the byte test is right exactly when the sum fits int64 |
| LedgerTransactions.AdmissionOverflows | internal/media/service.go:523-525 | A room, with a limit no room gets today, that admits an upload that does not fit |
| Database.Database.CompleteUpload | internal/media/service.go:320-357 | The statements of Complete have the effect and the answer of its transaction |
| Database.Database.ReleaseReservation | internal/media/service.go:424-455 | The same for releaseReservation |
| Database.Database.ClaimExpiredUpload | internal/cleanup/service.go:104-151 | It expires the overdue live session with the earliest deadline, or finds that there is none |
| Database.Database.DeleteMediaRow | internal/media/gallery.go:205-243 | The same for media Delete |
| Database.Database.InitiateUpload | internal/media/service.go:134-222 | The same for Initiate |
| Database.Database.ClaimRoomRow | internal/cleanup/service.go:153-173 | It claims the reclaimable room that expires first, or finds that there is none |
| Database.Database.DeleteRoomRow | internal/cleanup/service.go:66-69 | It deletes a room that is deleting, with its rows |
| Database.Database.CreateRoom | internal/room/service.go:132-150 | It inserts the room, with its row spelled out, under the first of eight slugs that no room has, and fails exactly when all are used |
| Cleanup.Worker.ExpireUploads | internal/cleanup/service.go:83-102 | It terminates, expires exactly the overdue live sessions, and leaves none; while the store works nothing that belonged to them is left in it; in any case nothing else is removed |
| Cleanup.Worker.ReclaimRooms | internal/cleanup/service.go:51-73 | It terminates; unless the store fails it drops exactly the reclaimable rooms and leaves none of their objects; in any case it keeps the objects of every other room |
| Cleanup.Worker.RunBatch | internal/cleanup/service.go:47-74 | One batch leaves no live session past its deadline and, exactly when no room's removal fails, just the rooms that are active and not over; while the store works nothing of an overdue upload is left in it; and it removes nothing else |
| Cleanup.ExpiredRoomIsIdle | internal/media/service.go:161-165 | Without overdue sessions an expired room has no live session and zero reserved counters |
| Cleanup.ClaimedRoomIsIdle | internal/cleanup/service.go:153-173 | So a room claimed because its time is up holds no reservation |
| RowLockSteps.StepKeeps | internal/media/service.go:326-351 | Every lock request and commit keeps what each transaction holds and knows |
| RowLockTheorems.PendingMediaIsGuarded | internal/media/gallery.go:209-219 | Pending media is locked only by the holder of its session lock |
| RowLockTheorems.ExpiryNeverWaits | internal/cleanup/service.go:112-144 | The expiry worker, which locks session and room before media, never waits |
| RowLockTheorems.WaitsGoUp | internal/media/service.go:484-499 | Along waits, the wanted lock moves from advisory lock to session, media and room |
| RowLockTheorems.NoWaitCycle | internal/media/service.go:326-351 | No reachable state has a cycle of waiting transactions, for any hash of the advisory key |
| RowLockTheorems.SomeoneCanMove | internal/media/service.go:142-144 | While transactions are in flight, one of them waits for nobody |
| RowLockTheorems.LockedRowsAreStable | internal/media/service.go:424-455 | No step of another transaction changes a row while its lock is held |
| RowLockTheorems.CommitsAreAtomic | internal/media/service.go:320-357 | What a transaction decided when its locks were granted still holds at commit: run as one step there, it succeeds |
| Thumbnail.NextKeepsJobs | internal/thumbnail/service.go:83-184 | Every step of workers and uploads keeps the queue's invariant and every publication |
| Thumbnail.QueueIsConsistent | internal/thumbnail/service.go:91-125 | A key is set exactly when the job is ready and names that media's thumbnail; pending means no attempts; attempts are at most three plus the re-claims of jobs someone still had |
| Thumbnail.ReadyIsNeverLeft | internal/thumbnail/service.go:154-184 | A published thumbnail stays published whatever late workers and late markFailed calls do |
| ThumbnailAnswers.ClaimExactly | internal/thumbnail/service.go:91-125 | In every reachable state a claim takes a job exactly when its media is ready in an open room and the job is untried, failed fewer than three times, or was claimed more than ten minutes ago |
| ThumbnailAnswers.WorkerPublishes | internal/thumbnail/service.go:127-170 | A worker left alone publishes what it claims: the key is set and the object stored |
| ThumbnailAnswers.TriedThreeTimes | internal/thumbnail/service.go:97-101 | A thumbnail that cannot be made is tried three times and then left alone |
| ThumbnailAnswers.AbandonedExactly | internal/thumbnail/service.go:97-101 | A job whose worker vanished is taken on again exactly after more than ten minutes |
| StoreRemovals.PartsAreClosedExactly | internal/media/service.go:371-374 | Of all events, exactly assembly, Abort and expiry of that upload, when they take effect, close a multipart upload |
| StoreRemovals.ObjectIsRemovedExactly | internal/media/gallery.go:195-204 | Of all events of the upload service, exactly the store calls of a size mismatch, Abort, media Delete, expiry and room removal that take effect remove an object, each its own |
| MediaLoss.OnlyCompleteReadies | internal/media/service.go:344-351 | Media becomes ready only in the closing transaction of a Complete for it |
| MediaLoss.OriginalIsLostExactly | internal/media/service.go:304-323 | In every reachable state an event leaves ready media without its object exactly when it removes the object of ready media, which expiry never does, or completes a pending upload whose object went away after it was measured |
| MediaLoss.OriginalsAreKeptExactly | internal/media/service.go:360-379 | Over every run from an empty database, media has its object whenever it is ready exactly when no such event is taken |
| MediaLossRun.AbortTakesReadyPhoto | internal/media/service.go:360-379 | A run in which Complete answers ready, Abort is refused because the upload is completed, and the object is gone |
| ThumbnailLoss.UploadRemovesExactly | internal/media/gallery.go:195-204 | Among all steps of the upload service, exactly media Delete's removal for that media and the prefix removal of its room take a thumbnail away |
| ThumbnailLoss.PublicationIsLostExactly | internal/thumbnail/service.go:154-169 | In every reachable state an event leads to a ready, published thumbnail without its object exactly when it is an UPDATE for that media that is reported as failed and cleaned up after, an UPDATE whose object was already gone, or one of those two removals |
| ThumbnailLoss.PublicationsAreKeptExactly | internal/thumbnail/service.go:154-169 | Over every run from an empty database, a publication has its object throughout exactly when no such event is taken |
| ThumbnailLossRun.LoneWorkerLosesItsThumbnail | internal/thumbnail/service.go:154-165 | A run with one worker whose UPDATE commits and is reported as failed, after which the key is set and the object is gone |
| ThumbnailBatch.MeasureOfOneRow | internal/thumbnail/service.go:91-118 | A change to one row changes the batch's measure by that row's weight |
| ThumbnailBatch.Queue.Claim | internal/thumbnail/service.go:83-125 | It takes the oldest claimable row and lowers the measure, or finds that there is none |
| ThumbnailBatch.Queue.RunBatch | internal/thumbnail/service.go:62-81 | However long it takes, while nothing is added and no claim of the batch turns stale the batch terminates next to other workers, and finishes with nothing claimable exactly when no claim failed; unless marking failed, none of its claims is left in processing |
| Canonical.InstantInjective | internal/media/service.go:557-560 | Different instants print differently in UTC with nanoseconds |
| Canonical.CanonicalIsInjective | internal/media/service.go:529-563 | Two validated requests have the same canonical text exactly when slug and all normalized fields agree, even with NULs in slugs |
| RoomRequest.CreateTextIsInjective | internal/room/service.go:479-482 | With NUL-free names, creation texts are equal exactly for equal requests |
| RoomRequest.CreateTextIsUniqueExactly | internal/room/service.go:479-482 | An acceptable request shares its text with another one exactly when its secret spells out the rest of one, or its name holds the beginning of that rest |
| RoomRequest.CreateTextCollides | internal/room/service.go:479-482 | Two different acceptable requests with the same text |
| RoomCreation.NextKeepsRequests | internal/room/service.go:112-162 | Every recorded creation belongs to a room that exists and that its sender owns |
| RoomCreation.CreationExactly | internal/room/service.go:90-162 | Under a new key a room is opened under the first free slug, with its sender as owner, and refused exactly when the request is not acceptable or no slug is free |
| RoomCreation.CreationIsIdempotent | internal/room/service.go:484-514 | While its room exists, a creation key always answers with that room for the same text and with a conflict for another, and changes nothing |
| Keyset.DescendingLists | internal/media/gallery.go:94-95 | The listing holds exactly the rows, strictly from newest to oldest |
| Keyset.WalkIsDescending | internal/media/gallery.go:85-138 | Whatever happens between pages, a walk is strictly descending, so lists nothing twice |
| Keyset.WalkShowsReadyRows | internal/media/gallery.go:90-93 | Each page lists only rows that were ready when it was made |
| Keyset.WalkMissesNothing | internal/media/gallery.go:129-137 | A row ready at every page below the start of a finished walk is listed |
| Keyset.StayingRowIsListedOnce | internal/media/gallery.go:85-138 | A row that stays ready throughout a finished walk is listed exactly once |
| Keyset.FixedSetIsListed | internal/media/gallery.go:129-138 | On a fixed set of n rows a walk finishes after max(1, ceil(n / limit)) pages with all rows in order |
| Gallery.MembershipExactly | internal/media/gallery.go:246-273 | Exactly members of an active room that is not over get in, with their role; each refusal has exactly its own condition |
| Gallery.ScanRows | internal/media/gallery.go:102-125 | The loop builds one item per row in order, with permissions and thumbnail, and fails exactly when a URL cannot be signed |
| Gallery.ListPage | internal/media/gallery.go:61-138 | The endpoint's errors, each with its condition on rooms, members, deadline and cursor in their order; otherwise its items, has_more and next_cursor |
| Gallery.GalleryWalk | internal/media/gallery.go:85-138 | Over any run of the upload protocol, what is ready at the first and the last request of a walk is listed exactly once |
| Cursor.Base64RoundTrip | internal/media/gallery.go:277-281 | Unpadded base64url decodes what it encoded |
| Cursor.CursorRoundTrip | internal/media/gallery.go:275-298 | Decoding an encoded cursor gives back every int64 microsecond time and every UUID |
| Cursor.DecodedExactly | internal/media/gallery.go:280-298 | Decoding accepts exactly the base64 of an int64, one full stop and a UUID |
| Cursor.CursorEncodingIsInjective | internal/media/gallery.go:275-278 | Different cursors have different encodings, in the URL-safe alphabet |
| UuidText.ParsePrinted | internal/media/gallery.go:276-296 | Parsing the text of a UUID gives it back |
| UuidText.PlainFormExactly | internal/media/gallery.go:293-296 | Of texts of the printed length exactly those with hyphens and hexadecimal digits in their places are read |
| UuidText.PathIsInjective | internal/media/service.go:168-168 | Different objects have different paths in the store |
| UuidText.PrefixIsExact | internal/cleanup/service.go:60-61 | A room's prefix covers a path exactly when it is an original or thumbnail of that room |
| Decimal.ParseFormatted | internal/media/gallery.go:289-292 | Printed integers parse back exactly when they fit int64 |
| PartList.CompleteIsPermutation | internal/media/service.go:565-578 | A list is complete exactly when its numbers are a permutation of 1..n and its ETags are usable |
| PartList.AnswerIgnoresOrder | internal/media/service.go:565-578 | Two orders of the same parts get the same answer |
| PartList.SortParts | internal/media/service.go:569-569 | Sorting in place gives a sorted permutation |
| PartList.ValidateCompletedParts | internal/media/service.go:565-578 | It succeeds exactly for complete lists and pairs each number with its own trimmed ETag |
| Multipart.SlicesRebuildFile | frontend/src/lib/upload.ts:62-64 | The slices 1..ceil(size / partSize) put together are the file |
| Multipart.PartCountsInService | internal/media/service.go:173-184 | The service's part count is the client's, between 7 and 128 |
| Multipart.PartUrls | internal/media/service.go:250-269 | It refuses exactly batches that are empty, too long, out of range or with a repeated number |
| Multipart.Client.UploadMultipart | frontend/src/lib/upload.ts:53-73 | Its batches are acceptable and name each part once in order; every part is stored with its slice, unless the store fails |
| Multipart.FinishUpload | internal/media/service.go:288-303 | The part list of a complete upload assembles to the file exactly when its ETags are usable |
| Multipart.UploadFile | frontend/src/lib/upload.ts:75-85 | What is stored is the file, and it is stored unless a PUT failed or gave an unusable ETag |
| RateLimit.RateLimiter.AllowRequest | internal/httpapi/rate_limit.go:52-71 | The loop over visitors evicts exactly idle keys, and the decision is the bucket's |
| RateLimit.EvictionInvisible | internal/httpapi/rate_limit.go:52-71 | When a bucket refills within the idle time, all decisions are those of a limiter that never evicts |
| RateLimit.EvictionVisible | internal/httpapi/rate_limit.go:54-61 | Otherwise two bursts tell the two apart |
| RateLimit.EvictionInvisibleExactly | internal/httpapi/rate_limit.go:29-37 | Eviction is invisible for all request sequences exactly when burst times interval is at most the idle time |
| RateLimit.RouterLimitersRefill | internal/httpapi/router.go:33-36 | The router's four limiters meet that condition |
| RateLimit.PacedIsAdmitted | internal/httpapi/rate_limit.go:52-71 | A key that waits an interval between its requests is never refused, whatever others send |
| RateLimit.WindowBound | internal/httpapi/rate_limit.go:52-71 | In any window a key is admitted at most burst plus elapsed over interval times |
| Sessions.AuthService.CreateAnonymous | internal/auth/service.go:49-94 | The accepted names and clients, and the session they get |
| Sessions.AuthService.Refresh | internal/auth/service.go:137-186 | It succeeds exactly when some live session accepts the token, rotates that session only, and keeps its deadline |
| Sessions.AuthService.Revoke | internal/auth/service.go:198-205 | The session is inactive at all times afterwards, and nothing else changes |
| Sessions.NextKeepsTokens | internal/auth/service.go:156-181 | Through every step of concurrent refreshes each token is current in one session, waiting in one attempt, or spent |
| Sessions.AcceptedOnce | internal/auth/service.go:156-181 | Over every run no refresh token is accepted twice |
| Sessions.OneAcceptableToken | internal/auth/service.go:156-161 | A session accepts exactly one token until it is revoked or expires, and none afterwards |
| Sessions.RefreshAlone | internal/auth/service.go:137-186 | In any reachable state, left alone, a refresh succeeds exactly with the current token of a session that is neither revoked nor over, and then nobody accepts the old token |
| Sessions.OfTwoOneSucceeds | internal/auth/service.go:156-181 | Of two refreshes that found the same session with the same token exactly the first to take the row succeeds |
| Sessions.ActiveExactly | internal/auth/service.go:207-220 | Over every run a session is active for exactly its identity until its deadline or its own revocation |
| Sessions.ActiveMeansAccepting | internal/auth/service.go:207-220 | In every reachable state a session is active exactly when it still accepts some token |
| Sessions.DeadlineNeverMoves | internal/auth/service.go:170-175 | No run moves a session's deadline or undoes its revocation |
| RefreshClient.Tab.Api | frontend/src/lib/api.ts:74-88 | Whatever the answers and whatever runs meanwhile, a request is made once, or twice around exactly one refresh |
| RefreshClient.AnsweredExactly | internal/auth/service.go:137-186 | A tab's refresh is refused exactly when its length is out of range or no session accepts the token |
| RefreshClient.LateRequestStrandsTab | frontend/src/lib/api.ts:49-67 | A request the tab gave up on may still be handled; the tab then presents a spent token |
| RefreshClient.PresentsSpentExactly | frontend/src/lib/api.ts:49-67 | With any number of tabs, lost responses and late requests, a tab presents a spent token exactly when its exchange was never told to the tab that asked, or was done for another tab |
| RefreshClient.ReliableTabNeverPresentsSpent | frontend/src/lib/api.ts:49-67 | With reliable responses the only tab never presents a spent token |
| RefreshClient.LostAnswerStrandsTab | frontend/src/lib/api.ts:57-61 | After one lost answer the tab presents the spent token and ends up signed out |
| RefreshClient.SecondTabPresentsSpent | frontend/src/lib/api.ts:30-30 | A run without loss in which a second tab presents the token the first one exchanged and, refused, clears the stored session |

## Left out

- HTTP handlers, routing, JSON, error codes, logging, configuration, and the bodies of store, FFmpeg and SQL calls.
- Presigned URLs: a client's PUT is an event that may store any object of any size at any time.
- Claims that no orphan objects remain: a presigned PUT or a late thumbnail can land after its room was removed.
- Telegram sign-in beyond the session row it creates, switching Telegram sessions in the browser, and access tokens.
- Room previews, lists, members, passwords, and the name and access fields of room Update.
- Download: it checks membership and status like the gallery and signs one URL.
- Slug normalization: slugs enter already trimmed and in upper case. Room joining is allowed to anyone who names a room.
- The transaction is taken to read the clock once where the code reads it twice (admission check and session deadline).
- Deletion of a room row in the lock model: its cascades lock media and sessions after the room, so it can wait in a circle with Complete and is not covered by the claim of deadlock freedom.
- Foreign-key share locks in the lock model, except that joining a room is taken to lock the room row exclusively; claimRoom and the thumbnail statements are taken to wait where they skip or hold nothing.
- Which media have a thumbnail, in media Delete: whether it removes one is left open in each step.
- The put retries and their delays in the browser, progress callbacks and cancellation.
- RateLimit.RateLimiter.AllowRequest: does not model rate.Limiter's floating point, because the bucket is exact in nanoseconds.
- PartList.SortParts: sort.Slice is modelled as insertion sort; any sort gives the same result on lists that are accepted.
- UuidText.ParsePrinted: the accepted forms of UUID text and, for the cursor, of base64 are those documented for the libraries, whose source is not part of this model.
- InitiateRequest.ToLower and Text.TrimSpace follow Unicode as far as it can matter for the fixed list of MIME types and for white space.
- RoomCreation.CreationIsIdempotent: waiting for an uncommitted creation with the same key is not modelled; a creation is one step.
