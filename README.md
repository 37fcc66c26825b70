# DownloadService — a Dafny model

This project models the download orchestration of the Emitron iOS app's
`DownloadService`. The service drives each download record through a state
machine: pending, urlRequested, readyForDownload or error, enqueued or
complete, inProgress and paused, and finally complete, error or failed.
It reacts to five kinds of input:

- the queue manager's "pending" and "ready" emissions;
- the network path and the wifi-only setting;
- the user's download permission;
- the UI's request, cancel and delete calls;
- the transfer engine's delegate callbacks.

The model has three modules:

- `Wrappers` (`wrappers.dfy`) holds `Option`, `Result` and `Outcome`.
- `DownloadModel` (`download_model.dfy`) holds the records and content, the
  record store's write operations and the file name `"<videoId>.mp4"`.
- `Downloads` (`download_service.dfy`) holds the `Status` rule, the
  specification functions of the orchestration, and the class
  `DownloadService`, whose methods change its state in place.

The collaborators are fields of the service object:

- `records`: the record store, a map from download id to `Download`.
  A write to an id with no record changes nothing.
- `files`: the set of local paths that exist in the downloads directory.
- `added` and `processorPaused`: the transfer engine. `added` holds the ids
  handed to it, and the flag says whether it was last told to pause.
- `videosService`, `status` and `queueSubscribed`.

A call that may throw (persisting, saving, looking up, the engine's `add`
and `cancel`, removing a file) takes a parameter that says whether it
succeeds. For `add` this is the set of ids whose `add` throws. URL
resolution runs in two steps. `RequestDownloadUrl` moves the record to
`urlRequested` and returns the request, including the copy of the record
that the completion closure captured. Later, `CompleteUrlRequest` receives
the resolution result and writes that copy back, as the source does (it
copies the record before the `urlRequested` transition). The record store
keeps one record per content item and stores each record under its own id
(`Valid()`).

## Model

| member | source | states |
|---|---|---|
| `Downloads.StatusFor` | Emitron/Emitron/Downloads/DownloadService.swift:43-48 | the status is inactive exactly when the path is expensive and expensive downloads are not allowed, and active otherwise |
| `Downloads.FirstMatch` | Emitron/Emitron/Downloads/DownloadService.swift:257 | returns no url exactly when no attachment has the configured kind; otherwise it returns the url of the first attachment of that kind |
| `Downloads.Resolved` | Emitron/Emitron/Downloads/DownloadService.swift:248-265 | the record written back keeps the captured copy's id, content, progress and file name. On success it gets the first matching url, the new validation time and readyForDownload. On failure it keeps the copy's url and time. It ends in error whenever no url is set |
| `Downloads.ResolvedOutcome` | Emitron/Emitron/Downloads/DownloadService.swift:250-265 | for a record without a url, the result is readyForDownload (with a url) exactly when resolution succeeded and some attachment has the configured quality; otherwise it is error with no url |
| `Downloads.CompletionOverwritesInterimChanges` | Emitron/Emitron/Downloads/DownloadService.swift:248-269 | the completion writes the copy taken before the urlRequested transition: the stored progress and file name become the copy's, and the state is never left at urlRequested |
| `Downloads.EnqueuedRecord` | Emitron/Emitron/Downloads/DownloadService.swift:284-315 | a record is produced exactly when the url is set, the state is readyForDownload and a video id exists. It gets file name `"<videoId>.mp4"` and is complete exactly when that file already exists, otherwise enqueued. Id, content, progress, url and validation time are unchanged |
| `Downloads.EnqueueRecoversFinishedFile` | Emitron/Emitron/Downloads/DownloadService.swift:310-315 | a ready item whose file is already on disk goes directly to complete |
| `Downloads.ResumeSelectsEnqueued` | Emitron/Emitron/Downloads/DownloadService.swift:540-550 | an id is handed to the engine exactly when some emitted item with that id is enqueued and its add succeeds; it is marked failed exactly when such an item's add throws |
| `Downloads.AfterEvent` | Emitron/Emitron/Downloads/DownloadService.swift:404-449 | each engine callback maps to one store write: start and resume set inProgress, finish sets complete, pause sets paused, fail sets error, progress sets only the progress, and cancel deletes the record. No other record changes |
| `Downloads.Replay` | Emitron/Emitron/Downloads/DownloadService.swift:404-449 | a run of callbacks never adds a record, and without a cancel it removes none |
| `Downloads.CallbacksIgnoreStateTable` | Emitron/Emitron/Downloads/DownloadService.swift:404-449 | a start callback moves a pending record straight to inProgress, and a pause callback moves a complete record to paused |
| `Downloads.PauseResumeKeepsProgress` | Emitron/Emitron/Downloads/DownloadService.swift:436-442 | a pause callback followed by a resume callback returns an inProgress record, with its progress, to exactly what it was |
| `Downloads.CancelIsFinal` | Emitron/Emitron/Downloads/DownloadService.swift:422-434 | after the cancel callback deletes a record, any later callback for that id leaves the store unchanged |
| `Downloads.CancellationsDeleteExactly` | Emitron/Emitron/Downloads/DownloadService.swift:384-388 | the cancel callbacks that follow cancelling all transfers delete exactly the records they name and leave every other record as it was |
| `Downloads.SdRenditionResolves` | Emitron/Emitron/Downloads/DownloadService.swift:215-277 | content 42 with video 7 and one SD rendition, with SD configured, goes from pending through urlRequested to readyForDownload with that rendition's url |
| `Downloads.SdRenditionDownloads` | Emitron/Emitron/Downloads/DownloadService.swift:283-325 | that ready record is enqueued with file name "7.mp4", then reaches inProgress and complete on the start and finish callbacks |
| `Downloads.NoMatchingQualityScenario` | Emitron/Emitron/Downloads/DownloadService.swift:256-265 | when only an HD rendition is returned and SD is configured, the record ends in error with no url |
| `DownloadModel.NewDownload` | Emitron/Emitron/Downloads/DownloadService.swift:162 | a created record is pending, for its content, with no url, file name or validation time |
| `DownloadModel.Update` | Emitron/Emitron/Downloads/DownloadService.swift:269 | saving a record replaces the record under its id, only if one exists; no other record changes |
| `DownloadModel.Transition` | Emitron/Emitron/Downloads/DownloadService.swift:451-459 | a transition changes only the state of that one record, and does nothing when the id is absent |
| `DownloadModel.UpdateProgress` | Emitron/Emitron/Downloads/DownloadService.swift:408-416 | a progress update changes only the progress of that one record, and does nothing when the id is absent |
| `DownloadModel.DeleteRecord` | Emitron/Emitron/Downloads/DownloadService.swift:199 | deleting removes exactly that id and reports whether a record was there |
| `DownloadModel.FileNameFor` | Emitron/Emitron/Downloads/DownloadService.swift:302 | the file name ends in ".mp4"; `FileNameForValue` states what precedes it |
| `DownloadModel.NatToStringValue` | Emitron/Emitron/Downloads/DownloadService.swift:302 | reading the decimal rendering of a natural number back gives that number |
| `DownloadModel.IntToStringValue` | Emitron/Emitron/Downloads/DownloadService.swift:302 | reading the rendering of an integer back, with its '-' sign, gives that integer |
| `DownloadModel.FileNameForValue` | Emitron/Emitron/Downloads/DownloadService.swift:302 | the file name is Swift's rendering of the video id followed by ".mp4", and that prefix reads back as the video id |
| `DownloadModel.NatToStringInjective` | Emitron/Emitron/Downloads/DownloadService.swift:302 | distinct natural numbers have distinct decimal renderings |
| `DownloadModel.IntToStringInjective` | Emitron/Emitron/Downloads/DownloadService.swift:302 | distinct integers, negative ones included, never render to the same string |
| `DownloadModel.FileNameForInjective` | Emitron/Emitron/Downloads/DownloadService.swift:301-302 | distinct video ids never share a file name |
| `DownloadModel.LocalUrl` | Emitron/Emitron/Downloads/DownloadService.swift:311 | a record has a local url exactly when it has a file name |
| `DownloadModel.LocalUrlDistinguishesVideos` | Emitron/Emitron/Downloads/DownloadService.swift:302-311 | two records named for different videos never have the same local path |
| `Downloads.DownloadService.constructor` | Emitron/Emitron/Downloads/DownloadService.swift:89-101 | the service starts inactive, with the store as found, and then applies the permission gate |
| `Downloads.DownloadService.PrepareDownloadDirectory` | Emitron/Emitron/Downloads/DownloadService.swift:327-342 | the downloads directory exists afterwards |
| `Downloads.DownloadService.DeleteExistingDownloads` | Emitron/Emitron/Downloads/DownloadService.swift:344-354 | every downloaded file is gone and the directory is recreated |
| `Downloads.DownloadService.DestroyDownloads` | Emitron/Emitron/Downloads/DownloadService.swift:384-388 | the engine holds no transfers, no file remains and the directory is recreated; records are left to the cancel callbacks |
| `Downloads.DownloadService.CheckPermissions` | Emitron/Emitron/Downloads/DownloadService.swift:364-382 | a user who may download keeps an existing videos service (or gets the provided one) and keeps files and transfers. With no user, or without permission, everything is torn down and the service is dropped |
| `Downloads.DownloadService.RequestDownload` | Emitron/Emitron/Downloads/DownloadService.swift:143-176 | returns not-permitted with no service, content-not-found when the lookup yields nothing, and request-problem when persisting fails, each with the store unchanged. Otherwise the content has a record, a pending one is created if none existed, and the result is "requested successfully" when active or "requested but queue inactive" when inactive |
| `Downloads.DownloadService.CancelDownload` | Emitron/Emitron/Downloads/DownloadService.swift:178-190 | never changes the store. With no record for the content it succeeds and does nothing. Otherwise it succeeds exactly when the engine accepts the cancel, and then the engine drops that download. A failed lookup or cancel gives unableToCancelDownload |
| `Downloads.DownloadService.DeleteFile` | Emitron/Emitron/Downloads/DownloadService.swift:356-362 | the file is removed only when the record has a local url and the file exists; it fails only when that removal fails |
| `Downloads.DownloadService.DeleteDownload` | Emitron/Emitron/Downloads/DownloadService.swift:192-210 | with no record for the content it succeeds and changes nothing. Otherwise it removes the file (when present) and then the record; any failure gives unableToDeleteDownload and keeps the record; after a success no record for the content remains |
| `Downloads.DownloadService.RequestDownloadUrl` | Emitron/Emitron/Downloads/DownloadService.swift:215-281 | a request is issued, and the record moved to urlRequested, exactly when a service exists, the url is unset, the state is pending, the content is not a collection and the video id is present and non-zero; otherwise nothing changes |
| `Downloads.DownloadService.CompleteUrlRequest` | Emitron/Emitron/Downloads/DownloadService.swift:245-277 | a successful save writes the resolved copy; a failed save transitions the record to failed instead |
| `Downloads.DownloadService.Enqueue` | Emitron/Emitron/Downloads/DownloadService.swift:283-325 | saves the enqueued record when the guards hold and the save succeeds; otherwise the store is unchanged |
| `Downloads.DownloadService.AddEnqueued` | Emitron/Emitron/Downloads/DownloadService.swift:538-551 | the engine gains exactly the enqueued items whose add succeeds, and exactly the enqueued items whose add throws are marked failed |
| `Downloads.DownloadService.OnDownloadQueue` | Emitron/Emitron/Downloads/DownloadService.swift:528-551 | an emission is acted on only while the queue subscription is live |
| `Downloads.DownloadService.PauseQueue` | Emitron/Emitron/Downloads/DownloadService.swift:518-524 | the queue subscription is cancelled and the engine is paused |
| `Downloads.DownloadService.ResumeQueue` | Emitron/Emitron/Downloads/DownloadService.swift:526-555 | the queue subscription is live, the first emission's enqueued items are added (failures marked failed) and the engine is resumed |
| `Downloads.DownloadService.CheckQueueStatus` | Emitron/Emitron/Downloads/DownloadService.swift:502-516 | stores the recomputed status. When it did not change, nothing else changes. Otherwise it resumes on becoming active and pauses on becoming inactive |
| `Downloads.DownloadService.DownloadModelFor` | Emitron/Emitron/Downloads/DownloadService.swift:393-402 | returns the stored record exactly when it exists and the fetch succeeds |
| `Downloads.DownloadService.HandleProcessorEvent` | Emitron/Emitron/Downloads/DownloadService.swift:404-449 | each callback performs exactly its store write and nothing else |
| `Downloads.DeleteTwice` | Emitron/Emitron/Downloads/DownloadService.swift:192-210 | after a successful delete, deleting the same content again succeeds and changes neither the store nor the disk |
| `Downloads.CheckQueueStatusTwice` | Emitron/Emitron/Downloads/DownloadService.swift:502-516 | a second status check on the same inputs changes neither the store, nor the engine's items and paused flag, nor the queue subscription |

Three behaviours of the code that the model keeps as written:

- Revoking permission deletes records only through the engine's cancel
  callbacks (`destroyDownloads`, lines 384-388). Records the engine never
  held, such as pending or ready ones, stay in the store:
  `DestroyDownloads` may not change `records`.
- The callbacks transition a record whatever its current state. Nothing in
  this file restricts them to the edges of the state-machine table
  (`CallbacksIgnoreStateTable`).
- A `false` from the store's delete is only logged (line 199), so
  `deleteDownload` still succeeds: `DeleteOutcome` ignores the flag that
  `DeleteRecord` returns.

## Left out

- Combine wiring (`startProcessing`, `stopProcessing`, the subscription objects): each value a stream delivers is a method call instead. The download queue subscription is reduced to the flag `queueSubscribed`.
- `DownloadQueueManager` and its limit of three simultaneous downloads: its code is not part of this model, so the limit is not claimed. The queue items are parameters.
- `NWPathMonitor` and `configureWifiObservation`: the expensive-path flag and the wifi-only setting are parameters of `CheckQueueStatus`.
- The file manager's directory handling and backup exclusion: reduced to the flag `directoryReady` and to clearing the path set. The `preconditionFailure` paths are not modelled.
- `persistContentGraph` and `createDownloads`: their code is not part of this model. They are one operation that may fail. It creates one pending record for the content, and none when a record for that content already exists (the model assumes this, which keeps one record per content). Records for a collection's children are not modelled.
- `Downloads.DownloadService.RequestDownload`: it does not model a partial persist, where the content graph is saved but creating the download then fails.
- Failures of `transitionDownload`, of the progress update and of the callback's delete: the model assumes these store writes succeed (the source only logs their errors). A write to a missing id changes nothing.
- The transfer engine's own bookkeeping after a transfer finishes, fails or is paused: `added` changes only on `add`, `cancel` and `cancelAll`.
- The UI publishers (`downloadList`, `downloadedContentSummary`, `contentSummaries`) and `backgroundSessionCompletionHandler`: they are pass-through wrappers.
- Logging (`Failure…log()`) and the `print` calls.
- `Date()`: it is an opaque timestamp parameter. `progress` is an opaque real with no arithmetic.
- `weak self` and the timing of asynchronous callbacks. The model assumes the service outlives every callback.
- `Download.localUrl`: the `Download` type's code is not part of this model. `LocalUrl` is the downloads directory followed by the file name. `LocalUrlDistinguishesVideos` depends on this choice: it would not hold for an arbitrary function of the file name that maps two names to one path.
- Swift's `Int` is 64 bits wide, and video ids here are unbounded integers. Only the decimal rendering of the id matters.
