# Transfer reconciliation of the Nextcloud iOS client, in Dafny

This project models the transfer-record reconciliation of the iOS client
(`iOSClient/Networking/NCNetworking+Task.swift`). It covers two behaviours.

- **The zombie sweep (`verifyZombie`)** makes four passes over the records that
  claim an active transfer: foreground upload, the three background upload
  lanes, foreground download and background download. Each record is handled
  in one of three ways:
  - deleted: its account has no session, or it is an upload zombie without its
    local payload;
  - reset: an upload zombie with its payload goes back to `waitUpload`, and a
    download zombie goes back to `normal` with its session fields emptied;
  - left alone: a live task with its `sessionTaskIdentifier` still exists.
- **Cancellation (`cancelTask`)**, the four per-lane `cancel*Task(s)` calls in
  their single-record and bulk (`metadata == nil`) forms, and the
  `cancelAll*` compositions. Each one decides which live tasks to cancel and
  what happens to the record store.

Every operation is a pure function from a state to a state:
- the record store is a `map` keyed by `ocId`;
- the payload files that exist are a `set` of ids;
- the environment is the set of accounts that have a NextcloudKit session and
  a snapshot of every live URL-session task (account, URL session, task kind,
  identifier).

The sweep also exists as a method with the source's loops (`Zombie.VerifyZombie`).
It is proved equal to the declarative sweep.

Files:
- `wrappers.dfy`: `Option`.
- `transfers.dfy`: lanes, session strings, statuses, records, the store and the posted notifications.
- `tasks.dfy`: URL sessions, task kinds, live tasks and the environment.
- `zombie.dfy`: the sweep, its loop form, and its properties.
- `cancel.dfy`: the cancel calls and their properties.
- `interplay.dfy`: how cancellation and the sweep fit together.
- `scenarios.dfy`: concrete one-record runs.

Modelling assumptions:
- **Session strings.** A session string is `NoSession` (the empty string), one
  of the six lane identifiers, or `Unlisted`. `Unlisted` stands for any other
  non-empty string, and keeps only the answers to `contains("download")` and
  `contains("upload")`.
  - Download lane names are assumed to contain "download" and not "upload".
    Upload lane names are assumed to do the reverse.
  - `sessionUpload` (line 182) and `identifierSessionUpload` (line 88) are
    taken to be the same lane.
- **Foreground URL session.** Both foreground lanes run on the account's
  `sessionData` URL session:
  - the foreground upload pass reads only its upload tasks (line 253);
  - the foreground download pass reads only its download tasks (line 333);
  - the background passes read `allTasks` (lines 295, 360).
- **`clearMetadataSession`.** Its definition is not part of this model. It is a
  parameter `clear`. `Cancel.ClearsSession` states what is assumed of it: it
  keeps `ocId`, it empties the session, and clearing twice equals clearing
  once.
- **Primary key.** The store is keyed by `ocId`. The sweep lemmas assume that
  every row sits under its own key (`Transfers.WellKeyed`). The primary key
  guarantees this, and the cancels keep it: clearing keeps a row's `ocId`
  (`Cancel.CancelTaskKeepsKeyed`, `Cancel.CancelAllKeepsKeyed`).
- **`setMetadataSession`.** It changes exactly the named arguments of each call.
- **`fileProviderStorageExists`.** It is membership of the record's `ocId` in
  the payload set. `removeFile` removes that id from the set.
- **Background cancel store updates.** The two background cancel calls update
  the store inside the task they start for each account session (lines
  150-158, 217-228). They are modelled as one update per account session
  (`Cancel.Repeat`).
  - With no account session, no record is touched.
  - With one or more sessions, the effect equals one update. The lemmas
    `DownloadBackgroundStore` and `UploadBackgroundStore` prove this.

Behaviour of the code worth knowing:
- **Orphans.** An orphaned record (its account has no session) is deleted only
  when one of the four sweep queries selects it. That query requires
  `uploading` or `downloading` on the pass's lane. Orphaned records with any
  other status are not deleted.
- **Download cancel across accounts.** A single download cancel picks every
  download task with the record's identifier in every account session. It does
  not check that the task belongs to the record's account. The upload cancels
  do check the account (`Cancel.CancelTaskPicks`).
- **Unlisted "download" sessions.** A session containing "download" that is
  neither download lane cancels nothing and clears nothing. It still posts the
  download-cancel notification.
- **Bulk upload cancels keep payload files.** The bulk upload cancels delete
  their records (lines 183, 227) but never remove the records' payload files.
  A single `cancelTask` removes the payload (line 55), and so does the sweep
  when it deletes an orphan (line 247). `Cancel.Cancellation` therefore carries
  no payload set.

## Model

| member | source | states |
|---|---|---|
| Zombie.PassOf | iOSClient/Networking/NCNetworking+Task.swift:240-352 | The four pass queries (lane(s) and `uploading`/`downloading`) are disjoint: a record is selected by at most one pass, and `PassOf` names it |
| Zombie.TaskSessionFor | iOSClient/Networking/NCNetworking+Task.swift:284-299 | Every record the background upload query returns resolves to one of the three background URL sessions, so the nil-session delete branch is never taken; only the background download pass uses the background download session; a background upload record resolves to the URL session of its own lane |
| Tasks.LaneOfUploadSession | iOSClient/Networking/NCNetworking+Task.swift:286-292 | Each background upload URL session belongs to exactly one background upload lane: that lane maps back to the same URL session, and no other lane does |
| Zombie.FindTask | iOSClient/Networking/NCNetworking+Task.swift:250-257 | The `foundTask` loop answers true exactly when some scanned task of the record's account and URL session carries its `sessionTaskIdentifier` |
| Zombie.Repair | iOSClient/Networking/NCNetworking+Task.swift:259-267 | An upload zombie is reset exactly when its payload exists, to `waitUpload` with its session kept; a download zombie is always reset, to `normal` with an empty session; a reset record is no longer selected by any pass |
| Zombie.Judge | iOSClient/Networking/NCNetworking+Task.swift:244-249 | A record whose account has no session is deleted with its payload; a record is kept only if its account has a session; a reset keeps the primary key |
| Zombie.Sweep | iOSClient/Networking/NCNetworking+Task.swift:235-376 | The sweep never adds a record or a payload: its store keys and payloads are subsets of the ones it started with (per-record outcomes are stated by `SweepUploadZombie`, `SweepDownloadZombie`, `SweepOrphan` and `SweepKeepsOthers`) |
| Zombie.SweepPass | iOSClient/Networking/NCNetworking+Task.swift:244-268 | Handling the records of one query one at a time, each judged against the state when it is reached, gives the same state as judging them all against the state before the pass |
| Zombie.VerifyZombie | iOSClient/Networking/NCNetworking+Task.swift:235-376 | The four loops in source order compute the declarative sweep and keep every row under its own key |
| Zombie.PassComposes | iOSClient/Networking/NCNetworking+Task.swift:235-376 | Running one more pass after others equals reconciling all of them against the original state: no pass sees a record or reads a payload that an earlier pass changed |
| Zombie.SweepIsReconcile | iOSClient/Networking/NCNetworking+Task.swift:235-376 | The four sequential passes equal one simultaneous per-record reconciliation, so pass order does not matter |
| Zombie.SweepUploadZombie | iOSClient/Networking/NCNetworking+Task.swift:294-315 | An `uploading` foreground or background record of a known account with no matching live task becomes `waitUpload` with `sessionError` empty and its session unchanged if its payload exists, and is deleted otherwise |
| Zombie.SweepDownloadZombie | iOSClient/Networking/NCNetworking+Task.swift:330-374 | A `downloading` record of a known account on either download lane with no matching live task becomes `normal` with empty session, error and selector, whether or not its payload exists; the payload is kept |
| Zombie.SweepOrphan | iOSClient/Networking/NCNetworking+Task.swift:245-249 | A selected record whose account has no session is deleted and its payload removed, whatever its task state |
| Zombie.SweepKeepsOthers | iOSClient/Networking/NCNetworking+Task.swift:253-259 | A record no pass selects, or one that a live task still witnesses, stays exactly as it was, payload included |
| Zombie.SweepFrame | iOSClient/Networking/NCNetworking+Task.swift:244-249 | The sweep creates no record, keeps the store keyed by `ocId`, and removes exactly the payloads of orphaned records |
| Zombie.SweepLeavesNoZombie | iOSClient/Networking/NCNetworking+Task.swift:235-376 | After a sweep every record a pass would select again belongs to a known account and has a live task |
| Zombie.SweepIdempotent | iOSClient/Networking/NCNetworking+Task.swift:235-376 | A second sweep with the same accounts, tasks and payloads leaves the state unchanged |
| Zombie.SweepQuiet | iOSClient/Networking/NCNetworking+Task.swift:240-242 | On a store where no record is `uploading`/`downloading` on a lane, the sweep changes nothing |
| Cancel.CancelTask | iOSClient/Networking/NCNetworking+Task.swift:54-55 | The record's payload is always removed and no other payload is touched; `CancelTaskKeepsKeyed` shows every row stays under its own key |
| Cancel.CancelDownloadTasks | iOSClient/Networking/NCNetworking+Task.swift:117-137 | Only foreground download tasks of account sessions are cancelled, with a record only those carrying its identifier; no key is added or lost, and only the record, or without one only pending foreground-lane downloads, can change (`BulkCancelDownloadTasks` states the bulk effect) |
| Cancel.CancelDownloadBackgroundTask | iOSClient/Networking/NCNetworking+Task.swift:139-161 | Only background-download-session download tasks of account sessions are cancelled, with a record only those carrying its identifier; without account sessions nothing changes and nothing is cancelled (`DownloadBackgroundStore` states the store effect) |
| Cancel.CancelUploadTasks | iOSClient/Networking/NCNetworking+Task.swift:165-185 | Only foreground upload tasks of account sessions are cancelled, with a record only those of its account and identifier; no record is created or altered, the record alone is deleted, and without one every record outside the foreground upload filter stays (`BulkCancelUploadTasks` states the bulk effect) |
| Cancel.CancelUploadBackgroundTask | iOSClient/Networking/NCNetworking+Task.swift:187-231 | Only upload tasks of the three background upload sessions are cancelled, with a record only those of its account and identifier on the URL session of its own background lane; without account sessions nothing changes (`UploadBackgroundStore` states the store effect) |
| Cancel.CancelAllDownloadTask | iOSClient/Networking/NCNetworking+Task.swift:37-40 | A task is cancelled exactly when it is a live download task of an account session on the foreground or the background download session; without account sessions only the foreground-lane pending downloads are cleared (`BulkCancelDownloadTasks` and `BulkCancelDownloadBackgroundTask` state the store effect) |
| Cancel.CancelAllUploadTask | iOSClient/Networking/NCNetworking+Task.swift:42-45 | A task is cancelled exactly when it is a live upload task of an account session on the foreground or one of the three background upload sessions; no record is created, and without account sessions only the foreground-lane pending uploads are deleted (`BulkCancelUploadTasks` and `BulkCancelUploadBackgroundTask` state the store effect) |
| Cancel.CancelAllDataTask | iOSClient/Networking/NCNetworking+Task.swift:105-113 | Only live data tasks of account sessions on the foreground URL session are cancelled (`CancelAllTaskPicks` states that every such task is) |
| Cancel.CancelAllDownloadUploadTask | iOSClient/Networking/NCNetworking+Task.swift:47-50 | Only download and upload tasks of account sessions are cancelled, background ones on their own kind's session, and every foreground one is (`CancelAllLeavesNothingPending`, `CancelAllIdempotent` and `CancelAllKeepsKeyed` state the store effect) |
| Cancel.CancelAllTask | iOSClient/Networking/NCNetworking+Task.swift:31-35 | Only tasks of account sessions are cancelled, every foreground task among them, and the store is left exactly as cancelling all downloads and uploads leaves it |
| Cancel.CancelTaskNoSession | iOSClient/Networking/NCNetworking+Task.swift:57-62 | Empty session: the record is deleted, every other record is untouched, nothing is cancelled, only the reload notification is posted |
| Cancel.CancelTaskDownloadLane | iOSClient/Networking/NCNetworking+Task.swift:64-82 | Download lane (with at least one account session off the foreground lanes): the record is kept and cleared in place (its session becomes empty), every other record is untouched, one download-cancel notification carries the record's fields |
| Cancel.CancelTaskUploadSession | iOSClient/Networking/NCNetworking+Task.swift:84-102 | A session containing "upload" (with at least one account session off the foreground lanes): the record is deleted by `ocId`, every other record is untouched, and the upload-cancel notification is posted (after a download one if the string also contains "download") |
| Cancel.CancelTaskUnlisted | iOSClient/Networking/NCNetworking+Task.swift:66-72 | A session that is no lane cancels nothing; without "upload" in it the store is untouched, and with "download" in it the download-cancel notification is still posted |
| Cancel.CancelTaskWithoutAccounts | iOSClient/Networking/NCNetworking+Task.swift:139-231 | With no account session, cancelling a background download record, or a record whose session names "upload" other than the foreground upload lane, changes no record and cancels no task |
| Cancel.CancelTaskKeepsKeyed | iOSClient/Networking/NCNetworking+Task.swift:54-103 | A single cancel, given a `clearMetadataSession` that keeps the primary key, leaves every row under its own key, so the sweep lemmas apply afterwards |
| Cancel.CancelAllKeepsKeyed | iOSClient/Networking/NCNetworking+Task.swift:47-50 | Cancelling all downloads and uploads leaves every row under its own key |
| Cancel.CancelTaskPicks | iOSClient/Networking/NCNetworking+Task.swift:117-214 | With a record, a task is cancelled exactly when it is live in an account session, has the lane's URL session and task kind and the record's identifier; upload lanes also require the record's account, background upload lanes also the record's lane |
| Cancel.RepeatIdempotent | iOSClient/Networking/NCNetworking+Task.swift:140-160 | An idempotent store update run once per account session, with at least one session, equals running it once |
| Cancel.DownloadBackgroundStore | iOSClient/Networking/NCNetworking+Task.swift:139-161 | The background download cancel leaves the store unchanged without account sessions, and otherwise clears the record, or every pending background download, once |
| Cancel.UploadBackgroundStore | iOSClient/Networking/NCNetworking+Task.swift:187-231 | The background upload cancel leaves the store unchanged without account sessions, and otherwise deletes the record, or every pending background upload, once |
| Cancel.BulkCancelDownloadTasks | iOSClient/Networking/NCNetworking+Task.swift:117-137 | Bulk foreground download cancel: every foreground download task is cancelled, exactly the foreground-lane records in waitDownload/downloading/downloadError are cleared, others are untouched, and none stays pending |
| Cancel.BulkCancelDownloadBackgroundTask | iOSClient/Networking/NCNetworking+Task.swift:139-161 | Bulk background download cancel with an account session: every background download task is cancelled and exactly the pending background-download records are cleared |
| Cancel.BulkCancelUploadTasks | iOSClient/Networking/NCNetworking+Task.swift:165-185 | Bulk foreground upload cancel: every foreground upload task is cancelled and exactly the foreground-lane records in waitUpload/uploading/uploadError are deleted; the rest are untouched |
| Cancel.BulkCancelUploadBackgroundTask | iOSClient/Networking/NCNetworking+Task.swift:187-231 | Bulk background upload cancel with an account session: every upload task of the three background sessions is cancelled and exactly the pending records of the three lanes are deleted |
| Cancel.CancelAllTaskPicks | iOSClient/Networking/NCNetworking+Task.swift:31-50 | Cancelling everything picks every live foreground task of every account session, the download tasks of the background download session and the upload tasks of the three background upload sessions, and no other task |
| Cancel.CancelAllIdempotent | iOSClient/Networking/NCNetworking+Task.swift:47-50 | Cancelling all downloads and uploads twice leaves the store that doing it once leaves |
| Cancel.CancelAllLeavesNothingPending | iOSClient/Networking/NCNetworking+Task.swift:37-50 | With an account session, cancelling all downloads and uploads leaves no record pending on any lane |
| Interplay.CancelTaskAgreesWithSweep | iOSClient/Networking/NCNetworking+Task.swift:117-214 | For a record the sweep selects, the tasks its cancel picks within the record's account are exactly the sweep's witnesses of the lane's task kind |
| Interplay.CancelTaskLeavesNoZombie | iOSClient/Networking/NCNetworking+Task.swift:54-103 | After cancelling a record on a lane (with at least one account session off the foreground lanes), the sweep no longer selects it: it is deleted or its session is cleared |
| Interplay.SweepAfterCancelAll | iOSClient/Networking/NCNetworking+Task.swift:47-50 | After cancelling all downloads and uploads with an account session, a zombie sweep changes nothing |
| Scenarios.BackgroundUploadZombie | iOSClient/Networking/NCNetworking+Task.swift:294-315 | A background upload of a signed-in account with no live task is reset to `waitUpload` if its payload exists and deleted if not |
| Scenarios.BackgroundUploadAlive | iOSClient/Networking/NCNetworking+Task.swift:301-305 | The same record with an upload task of its identifier still running is left alone, payload included |
| Scenarios.SignedOutAccount | iOSClient/Networking/NCNetworking+Task.swift:324-329 | A downloading record whose account has no session is deleted and its payload removed |
| Scenarios.CancelForegroundDownload | iOSClient/Networking/NCNetworking+Task.swift:64-82 | Cancelling a foreground download cancels exactly its task, keeps the record with an empty session, removes the payload and posts one download-cancel notification |

## Left out

- `cancelAllQueue` (line 32): its definition is not part of this model, so `Cancel.CancelAllTask` covers only the data tasks and the download/upload cancels.
- Asynchrony: the `Task {}` blocks, `await` and completion handlers are left out. Each call reads a snapshot of the live tasks and then acts atomically. Interleavings between lanes and callback timing are concurrency concerns the model does not cover.
- A cancel request does not remove the task from the live set. The model returns the set of tasks asked to cancel.
- Notifications are returned as a list of events. The main-thread posting and the 0.5-second delay are left out.
- `clearMetadataSession` is a parameter. Only the properties in `ClearsSession` are assumed of it, because its definition is not part of this model.
- Whatever else `setMetadataSession` writes in the database layer is not modelled. That layer is not part of this model; only the named arguments of each call are.
- `fileProviderStorageExists` inspects the file on disk. The model uses only membership of the id in the payload set.
- The Realm persistence engine and its transactions are left out. The store is a map keyed by `ocId`.
- `iOSClient/Viewer/NCViewerMedia/NCViewerMedia+Vision.swift`, `iOSClient/Main/Menu/NCCollectionViewCommon+Menu.swift` and `iOSClient/Trash/NCTrash+Networking.swift` are left out. They are UI, image geometry, OCR and network-callback glue with no reconciliation logic.
