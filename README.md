# Location-Tracking: the offline-durable sync pipeline in Dafny

This project models the sync pipeline of the Location-Tracking Android agent. The agent records position samples in a local table (`location_logs`). A background worker uploads them to the server in FIFO batches, and a scheduler plus a caller-side throttle decide when that worker runs. The model has ten modules, one per source file or concern:

- `Config`: the tuning constants (batch size 100, 3 attempts, 15-minute period, 5-second initial delay).
- `Entities`: the `LocationEntity` record.
- `Store`: the table as a value, and what each SQL statement of the data-access interface does to it. Rows are kept in key order, and an `AUTOINCREMENT` counter holds the largest key ever used.
- `Dao` and `Repository`: classes that update the table in place (`insert`, `markSynced`) and answer the read-only queries (`getPending`, `pendingCount`). The repository forwards every call to the data-access object.
- `Remote`: the upload request body, and an upload client whose server is a function from the call number to the outcome (`Ok`, `Http(code)`, `IOErr`, `OtherErr`). The client records every body it sends.
- `SyncSpec`: what one worker run does, written as functions. `SyncBatchFrom` is the retry loop of one batch, `Drain` is the batch loop, and `DoWorkSpec` is the whole run. The lemmas about them state what a run achieves.
- `SyncWorker`: the worker as a class whose two loops (`doWork`'s batch loop and `syncBatch`'s retry loop) are proved to follow `SyncSpec`. A run gives the same result, the same uploads in the same order, the same backoff waits (recorded in a ghost log instead of sleeping) and the same final table.
- `Scheduler` and `TrackingService`: the two unique-work slots (KEEP for the periodic job, REPLACE for the immediate one), the service's one-minute throttle on `lastSyncTime`, and how a position fix becomes a stored sample.

The environment is given as parameters:

- whether the device is online;
- the server's response to each upload call;
- whether each storage write commits;
- the wall-clock time of each clock read;
- the identifier of each built work request;
- whether the job runner accepts an enqueue.

Two behaviours of the code are worth stating up front:

- A 4xx answer ends the batch with FAILURE. The run then reports `Retry`, because any batch that did not succeed sets `hasErrors`. The worker never returns `Result.failure()`.
- `save` and `markSynced` are declared to return `Unit`, yet their callers test the result as a Boolean. Both are modelled as returning "the write took effect".

## Model

Paths are relative to the repository root.

| member | source | states |
|---|---|---|
| Entities.NewLocationEntity | app/src/main/java/com/kredily/tracking/data/local/LocationEntity.kt:11-21 | a new record has key 0 (unassigned) and `synced` false, and every other field is as given; `speed` is optional |
| Store.Unsynced | app/src/main/java/com/kredily/tracking/data/local/LocationDao.kt:19-20 | the pending query (`SELECT ... WHERE synced = 0 ORDER BY id ASC`) as a filter of the key-ordered rows; it never returns more records than the table holds |
| Store.UnsyncedMembers | app/src/main/java/com/kredily/tracking/data/local/LocationDao.kt:19-20 | the pending query returns exactly the records with `synced` false |
| Store.PendingAscending | app/src/main/java/com/kredily/tracking/data/local/LocationDao.kt:19 | the pending records come in strictly ascending key order |
| Store.CountUnsynced | app/src/main/java/com/kredily/tracking/data/local/LocationDao.kt:25-26 | the `COUNT(*)` query: the number of rows with `synced` false, at most the table's size |
| Store.CountIsPendingLength | app/src/main/java/com/kredily/tracking/data/local/LocationDao.kt:25-26 | the pending count equals the length of the pending list |
| Store.MarkAll | app/src/main/java/com/kredily/tracking/data/local/LocationDao.kt:22-23 | the `UPDATE ... SET synced = 1 WHERE id IN (:ids)` statement, row by row: same number of rows, and row i becomes row i with `synced` set exactly when its key is listed |
| Store.MarkSetsExactly | app/src/main/java/com/kredily/tracking/data/local/LocationDao.kt:22-23 | `markSynced(ids)` sets `synced` on exactly the rows whose key is listed; keys, order and every other column are unchanged |
| Store.MarkIdempotent | app/src/main/java/com/kredily/tracking/data/local/LocationDao.kt:22-23 | marking the same keys twice is marking them once |
| Store.MarkWithoutPendingKeys | app/src/main/java/com/kredily/tracking/data/local/LocationDao.kt:22-23 | keys that are absent or already synced have no effect |
| Store.MarkCompose | app/src/main/java/com/kredily/tracking/data/local/LocationDao.kt:22-23 | two updates in a row are one update with both key lists |
| Store.MarkKeepsValid | app/src/main/java/com/kredily/tracking/data/local/LocationDao.kt:22-23 | the update keeps the table well formed (ascending distinct non-zero keys, none above the counter) |
| Store.MarkGrows | app/src/main/java/com/kredily/tracking/data/local/LocationDao.kt:22-23 | the update deletes nothing and can only turn `synced` on |
| Store.GrowsTransitive | app/src/main/java/com/kredily/tracking/data/local/LocationDao.kt:13-27 | "nothing deleted, `synced` only turned on" composes across operations, so `synced` is monotone |
| Store.InsertRecord | app/src/main/java/com/kredily/tracking/data/local/LocationDao.kt:16-17 | the `@Insert` of a record into a well-formed table: it aborts only for an explicit key, and on success adds exactly one row and never lowers the `AUTOINCREMENT` counter |
| Store.InsertSorted | app/src/main/java/com/kredily/tracking/data/local/LocationDao.kt:16-17 | an explicitly keyed record is placed in key order; the result is ascending and holds the old rows plus the record |
| Store.InsertRecordEffect | app/src/main/java/com/kredily/tracking/data/local/LocationDao.kt:16-17 | an insert fails exactly on a key conflict; on success the table stays well formed, one row is added, the old rows stay, and the pending count grows by one for an unsynced record |
| Store.InsertFreshKey | app/src/main/java/com/kredily/tracking/data/local/LocationEntity.kt:13-14 | key 0 means "generate one": the insert always succeeds, the generated key is positive and unused, and the record is appended after every stored one |
| Store.InsertGrows | app/src/main/java/com/kredily/tracking/data/local/LocationDao.kt:16-17 | a successful insert deletes and changes no stored record |
| Store.MarkBatchLeavesRest | app/src/main/java/com/kredily/tracking/worker/LocationSyncWorker.kt:84 | after the first n pending records are marked, the re-read pending list is the rest of the old one, in order |
| Store.MarkNextBatch | app/src/main/java/com/kredily/tracking/worker/LocationSyncWorker.kt:56-85 | marking batch after batch equals one update over the queue prefix synced so far, and that prefix is off the pending list |
| Dao.LocationDao.Insert | app/src/main/java/com/kredily/tracking/data/local/LocationDao.kt:16-17 | succeeds exactly when the write commits and the key does not conflict; the new table is the insert's result, or the old table on failure; the table stays valid |
| Dao.LocationDao.GetPending | app/src/main/java/com/kredily/tracking/data/local/LocationDao.kt:19-20 | the unsynced rows, ascending by key |
| Dao.LocationDao.MarkSynced | app/src/main/java/com/kredily/tracking/data/local/LocationDao.kt:22-23 | marks the listed keys when the write commits, and changes nothing otherwise; it reports which of the two happened |
| Dao.LocationDao.PendingCount | app/src/main/java/com/kredily/tracking/data/local/LocationDao.kt:25-26 | the number of pending rows, equal to the length of `GetPending` |
| Repository.LocationRepository.Save | app/src/main/java/com/kredily/tracking/data/repository/LocationRepository.kt:17-20 | same effect and success flag as the data-access insert |
| Repository.LocationRepository.Pending | app/src/main/java/com/kredily/tracking/data/repository/LocationRepository.kt:22 | the data-access pending list |
| Repository.LocationRepository.MarkSynced | app/src/main/java/com/kredily/tracking/data/repository/LocationRepository.kt:24-26 | same effect as the data-access update |
| Repository.LocationRepository.PendingCount | app/src/main/java/com/kredily/tracking/data/repository/LocationRepository.kt:28 | the data-access count, equal to the length of the pending list |
| Remote.ToRequest | app/src/main/java/com/kredily/tracking/worker/LocationSyncWorker.kt:109-113 | the request built from one record carries its employee, position, accuracy, timestamp and speed unchanged |
| Remote.RequestIgnoresKey | app/src/main/java/com/kredily/tracking/worker/LocationSyncWorker.kt:109-113 | the key and the `synced` flag never reach the server: records that differ only there give the same request |
| Remote.Requests | app/src/main/java/com/kredily/tracking/worker/LocationSyncWorker.kt:109-113 | the request body has one entry per batch record, in batch order, carrying that record's columns |
| Remote.LocationApi.Upload | app/src/main/java/com/kredily/tracking/worker/LocationSyncWorker.kt:120 | the body is appended to the log of sent bodies, and the outcome is the server's answer to that call |
| SyncSpec.CalculateBackoffDelay | app/src/main/java/com/kredily/tracking/worker/LocationSyncWorker.kt:195-197 | the wait before a retry, `2^attempt * 1000` ms, is at least one second |
| SyncSpec.BackoffDoubles | app/src/main/java/com/kredily/tracking/worker/LocationSyncWorker.kt:195-197 | each further attempt waits twice as long as the one before; the loop's two waits are 2000 ms and 4000 ms |
| SyncSpec.SyncBatchFacts | app/src/main/java/com/kredily/tracking/worker/LocationSyncWorker.kt:115-187 | about `SyncBatchFrom`, the retry loop written as a recursive function over the attempt number: at most 3 uploads, and at least one; a `2^attempt`-second wait between consecutive uploads; every upload but the last failed transiently; the last decides: accepted and marked gives SUCCESS, 4xx gives FAILURE, a transient failure means the attempts ran out |
| SyncSpec.RetryStep | app/src/main/java/com/kredily/tracking/worker/LocationSyncWorker.kt:146-177 | a 5xx, I/O or other failure costs one upload and, unless it was the last attempt, one backoff wait |
| SyncSpec.TransientPrefix | app/src/main/java/com/kredily/tracking/worker/LocationSyncWorker.kt:115-180 | after k transient failures the batch continues as the retry loop from attempt k, with the uploads and waits so far added on |
| SyncSpec.BatchEndsAt | app/src/main/java/com/kredily/tracking/worker/LocationSyncWorker.kt:115-187 | how the retry loop ends after k transient failures: on an accepted upload, on a 4xx, or with the attempts used up |
| SyncSpec.ClientErrorStopsBatch | app/src/main/java/com/kredily/tracking/worker/LocationSyncWorker.kt:141-144 | a 4xx ends the batch at once: FAILURE, one upload, no wait |
| SyncSpec.AcceptedUploadIsFinal | app/src/main/java/com/kredily/tracking/worker/LocationSyncWorker.kt:120-135 | an accepted upload is never repeated: SUCCESS if the mark commits, RETRY if it does not |
| SyncSpec.TransientFailuresExhaust | app/src/main/java/com/kredily/tracking/worker/LocationSyncWorker.kt:146-187 | three transient failures give RETRY after three uploads, with waits of 2000 ms and then 4000 ms |
| SyncSpec.Take | app/src/main/java/com/kredily/tracking/worker/LocationSyncWorker.kt:57 | the batch is the first min(100, n) pending records |
| SyncSpec.Drain | app/src/main/java/com/kredily/tracking/worker/LocationSyncWorker.kt:56-85 | the batch loop written as a recursive function over the pending queue: it goes through at most one batch per queue record, and through none exactly when the queue is empty |
| SyncSpec.StepsAppend | app/src/main/java/com/kredily/tracking/worker/LocationSyncWorker.kt:56-85 | the synced total, the upload log and the wait log add up batch by batch |
| SyncSpec.DrainShape | app/src/main/java/com/kredily/tracking/worker/LocationSyncWorker.kt:56-85 | the loop goes through a batch exactly when the queue is non-empty; every batch but the last succeeded; `hasErrors` holds exactly when the last did not succeed; without errors the whole queue is synced |
| SyncSpec.DrainSyncsPrefix | app/src/main/java/com/kredily/tracking/worker/LocationSyncWorker.kt:56-85 | the records marked synced are exactly the first `totalSynced` records of the queue, in order |
| SyncSpec.DrainBatchesAreQueueHeads | app/src/main/java/com/kredily/tracking/worker/LocationSyncWorker.kt:56-85 | batch i holds the queue's records from position 100*i on, at most 100 of them |
| SyncSpec.DrainAllAccepted | app/src/main/java/com/kredily/tracking/worker/LocationSyncWorker.kt:56-85 | when every batch is accepted at once, the whole queue syncs in ceil(n/100) batches, each uploaded once |
| SyncSpec.DrainSameRuns | app/src/main/java/com/kredily/tracking/worker/LocationSyncWorker.kt:56-85 | the batch loop depends only on how each batch goes |
| SyncSpec.RunOfDrain | app/src/main/java/com/kredily/tracking/worker/LocationSyncWorker.kt:45-99 | an online run over a non-empty queue is the batch loop, its totals folded into the result and the synced prefix marked |
| SyncSpec.RunOfDrainFollowing | app/src/main/java/com/kredily/tracking/worker/LocationSyncWorker.kt:45-99 | the same, for any description of the batches that agrees with the retry loop |
| SyncSpec.ShortCircuits | app/src/main/java/com/kredily/tracking/worker/LocationSyncWorker.kt:33-49 | offline, the run reports Retry and touches neither table nor server; with nothing pending it reports Success after no upload |
| SyncSpec.Outcome | app/src/main/java/com/kredily/tracking/worker/LocationSyncWorker.kt:87-99 | the final `when`: never Failure, and Retry exactly when `hasErrors` |
| SyncSpec.DoWorkSpec | app/src/main/java/com/kredily/tracking/worker/LocationSyncWorker.kt:31-100 | the whole run as a function of connectivity, the table and the environment: never Failure, the table keeps its size, and offline nothing is uploaded or changed |
| SyncSpec.OutcomeReflectsBatches | app/src/main/java/com/kredily/tracking/worker/LocationSyncWorker.kt:87-99 | the run never reports Failure; online, it reports Success exactly when every batch it went through succeeded |
| SyncSpec.RunMarksPrefix | app/src/main/java/com/kredily/tracking/worker/LocationSyncWorker.kt:56-99 | the run marks a prefix of the pending queue and changes nothing else; the rest, the failing batch first, stays pending in order; a Success leaves nothing pending |
| SyncSpec.TwoHundredFiftyInThreeBatches | app/src/main/java/com/kredily/tracking/worker/LocationSyncWorker.kt:56-85 | 250 pending records with every upload accepted sync as batches of 100, 100 and 50, in three uploads, and the run reports Success |
| SyncSpec.RejectedFirstBatch | app/src/main/java/com/kredily/tracking/worker/LocationSyncWorker.kt:141-144 | a 4xx on the first batch: one upload, no wait, nothing marked, and the run reports Retry |
| SyncSpec.UnavailableFirstBatch | app/src/main/java/com/kredily/tracking/worker/LocationSyncWorker.kt:146-187 | three transient failures on the first batch: three uploads of the same body, waits of 2000 and 4000 ms, nothing marked, and the run reports Retry |
| SyncWorker.LocationSyncWorker.Delay | app/src/main/java/com/kredily/tracking/worker/LocationSyncWorker.kt:153 | a wait appends its length to the log of waits |
| SyncWorker.LocationSyncWorker.SyncBatch | app/src/main/java/com/kredily/tracking/worker/LocationSyncWorker.kt:102-193 | the retry loop returns the result the specification gives the batch, uploads the batch's body as many times, waits the same delays, and marks the batch exactly on SUCCESS |
| SyncWorker.LocationSyncWorker.DoWork | app/src/main/java/com/kredily/tracking/worker/LocationSyncWorker.kt:31-100 | the run's result, the final table, every body uploaded (in order) and every wait are those of `DoWorkSpec`; the table stays valid |
| SyncWorker.LocationSyncWorker.SyncQueue | app/src/main/java/com/kredily/tracking/worker/LocationSyncWorker.kt:56-85 | the `while` loop ends having gone through the batch loop's steps; `totalSynced` counts the synced records; the table, uploads and waits match those steps |
| SyncWorker.LocationSyncWorker.SyncNext | app/src/main/java/com/kredily/tracking/worker/LocationSyncWorker.kt:57-84 | one pass of the loop: after a SUCCESS the re-read pending list is shorter and the loop invariant still holds; otherwise the loop's final state is reached with `hasErrors` |
| SyncWorker.Starts | app/src/main/java/com/kredily/tracking/worker/LocationSyncWorker.kt:45-56 | before the first batch, nothing is synced and the whole pending queue is left |
| SyncWorker.Moves | app/src/main/java/com/kredily/tracking/worker/LocationSyncWorker.kt:60-84 | one pass of the loop, whatever the batch's result: SUCCESS moves the synced prefix forward and shrinks the pending list; RETRY or FAILURE reaches the loop's end with `hasErrors` |
| SyncWorker.Advances | app/src/main/java/com/kredily/tracking/worker/LocationSyncWorker.kt:62-84 | a successful batch moves the synced prefix forward by the batch and shrinks the pending list |
| SyncWorker.Halts | app/src/main/java/com/kredily/tracking/worker/LocationSyncWorker.kt:68-81 | a RETRY or FAILURE batch ends the loop with `hasErrors`, the batch left pending |
| SyncWorker.Finishes | app/src/main/java/com/kredily/tracking/worker/LocationSyncWorker.kt:56-85 | an empty re-read pending list ends the loop without errors |
| Scheduler.EnqueueUnique | app/src/main/java/com/kredily/tracking/util/SyncScheduler.kt:39-41 | the named slot ends up occupied, by its old request under KEEP when it had one, and otherwise by the new request; every other slot is unchanged |
| Scheduler.IntervalFloor | app/src/main/java/com/kredily/tracking/util/SyncScheduler.kt:52 | the period is never below 15 minutes nor below the configured one, and it is one of the two |
| Scheduler.ConfiguredInterval | app/src/main/java/com/kredily/tracking/util/Config.kt:12 | with the shipped configuration the period is 15 minutes |
| Scheduler.KeepIdempotent | app/src/main/java/com/kredily/tracking/util/SyncScheduler.kt:62-64 | a second KEEP enqueue under the same name changes nothing |
| Scheduler.ReplaceOverwrites | app/src/main/java/com/kredily/tracking/util/SyncScheduler.kt:39-41 | two REPLACE enqueues equal the second alone |
| Scheduler.ReplaceKeepsLatest | app/src/main/java/com/kredily/tracking/util/SyncScheduler.kt:39-41 | after any run of REPLACE enqueues the slot holds one request, the latest, and no other slot changed |
| Scheduler.KeepKeepsFirst | app/src/main/java/com/kredily/tracking/util/SyncScheduler.kt:62-64 | after any run of KEEP enqueues the slot holds what it held before, or the first request if it was free |
| Scheduler.ImmediateRequest | app/src/main/java/com/kredily/tracking/util/SyncScheduler.kt:29-36 | the one-time request needs a connected network, waits 5 seconds before it starts and is tagged `immediate_sync` |
| Scheduler.PeriodicRequest | app/src/main/java/com/kredily/tracking/util/SyncScheduler.kt:52-60 | the periodic request needs a connected network, repeats every 15 minutes and is tagged `periodic_sync` |
| Scheduler.WorkManager.EnqueueUniqueWork | app/src/main/java/com/kredily/tracking/util/SyncScheduler.kt:39-41 | the shared slot table becomes the table `EnqueueUnique` describes for the given name, policy and request (the REPLACE enqueue here and the KEEP one at lines 62-64) |
| Scheduler.StartOneTimeSync | app/src/main/java/com/kredily/tracking/util/SyncScheduler.kt:25-46 | the immediate slot gets a one-time request needing a network, with a 5-second delay and tag `immediate_sync`; the periodic slot is untouched; a failing job runner leaves all slots as they were |
| Scheduler.ScheduleLocationSync | app/src/main/java/com/kredily/tracking/util/SyncScheduler.kt:49-69 | a free periodic slot gets a 15-minute periodic request needing a network, tag `periodic_sync`; an occupied one is kept; the immediate slot is untouched |
| TrackingService.SampleFromFix | app/src/main/java/com/kredily/tracking/service/LocationTrackingService.kt:103-112 | a sample has employee `EMP001`, no key yet, `synced` false, the fix's position and accuracy, and no speed exactly when the fix has none |
| TrackingService.SampleIsNew | app/src/main/java/com/kredily/tracking/service/LocationTrackingService.kt:103-112 | saving a sample into a valid table cannot conflict, and it adds one pending record |
| TrackingService.SpacedApart | app/src/main/java/com/kredily/tracking/service/LocationTrackingService.kt:147-163 | when consecutive sync requests are a minute apart, requests i < j are at least (j - i) minutes apart |
| TrackingService.AtMostOnePerWindow | app/src/main/java/com/kredily/tracking/service/LocationTrackingService.kt:147-163 | no 60-second window holds two sync requests from this service |
| TrackingService.SpacedSnoc | app/src/main/java/com/kredily/tracking/service/LocationTrackingService.kt:149-162 | a request that passed the throttle keeps the requests spaced |
| TrackingService.LocationTrackingService.CheckAndTriggerSync | app/src/main/java/com/kredily/tracking/service/LocationTrackingService.kt:147-170 | a sync is requested exactly when a minute has passed since the last one and records are pending; only then is `lastSyncTime` set to now; the spacing invariant is kept |
| TrackingService.LocationTrackingService.OnLocationResult | app/src/main/java/com/kredily/tracking/service/LocationTrackingService.kt:91-120 | no fix or a failed save changes nothing; a saved sample adds one pending record and is always followed by the throttle check, which then fires whenever a minute has passed |

## Left out

- The network check (`isNetworkAvailable`) and the connectivity monitor that also calls `startOneTimeSync` are not modelled. Being online is a Boolean input to the run.
- The database, the HTTP client and the job runner are modelled only at their interfaces:
  - the table model;
  - an upload outcome per call number;
  - a commit flag per storage write;
  - the table of unique-work slots.
- The job runner's own behaviour is left out: running, finishing and retrying jobs at the outer level, and freeing a slot when a job completes. A slot is "occupied" from the moment it is filled.
- Concurrency and lifecycle are left out: coroutine launches, cancellation (including the `CancellationException` paths), overlapping worker runs, service start and stop, and the periodic check loop with its 30-second initial delay (`startPeriodicSyncCheck`). A model of that loop would only repeat `CheckAndTriggerSync`.
- Time and floating point: a `delay` is recorded as its length, not slept. Coordinates, accuracy and speed are opaque reals. The backoff is computed in integers as `2^attempt * 1000`, which equals the `Double` computation for the attempts the loop uses.
- The outer `catch` of `syncBatch` (any exception outside the retry loop gives RETRY) is not modelled. Inside the model nothing can be thrown outside the loop: building the request body cannot fail.
- Storage failures on reads are not modelled: reads are total. This covers the pending count in `checkAndTriggerSync` (caught and logged there), and also the two `dao.getPending()` calls in `doWork` (LocationSyncWorker.kt lines 45 and 84), which have no `try` around them. In the source such a failure escapes `doWork` and the job runner fails the run; in the model `GetPending` is a function and always answers.
- Logging is not modelled.
- 64-bit wrap-around of keys, timestamps and `now - lastSyncTime` is not modelled: integers are unbounded.
- Location provider setup (`requestLocationUpdates`) and the notification are not modelled.
- The rest of the application (UI, boot receiver, battery settings) is not modelled.
- Repository.LocationRepository.Save / MarkSynced: the source declares them as returning `Unit` while every caller tests the result. They are modelled as returning whether the write took effect, and a failed "mark synced" after an accepted upload ends the batch with RETRY without a second upload.
- SyncWorker.LocationSyncWorker.SyncQueue: the RETRY and FAILURE arms of the `when` do the same thing (set `hasErrors`, leave the loop), so they are written as one branch. `SyncQueue` and `SyncNext` split the body of `doWork`'s loop so that each proof stays small. The database and the client are parameters instead of being built inside `doWork`.
- TrackingService.LocationTrackingService.OnLocationResult: the sample's timestamp and the throttle's `now` are two clock reads, passed as two parameters.
