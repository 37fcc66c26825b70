/**
 * The download orchestration of `DownloadService`: the network status rule,
 * the permission gate, URL resolution, enqueueing, pausing and resuming the
 * queue, cancelling and deleting, and the transfer engine's callbacks.
 *
 * The collaborators are small state components of the service object:
 * the record store is `records`, the file system is the set `files` of
 * existing local paths, and the transfer engine is the set `added` of
 * download ids handed to it plus a paused flag. Every call into them that
 * may throw takes a boolean (or a set of ids) saying whether it succeeds.
 */
module Downloads {
  import opened Wrappers
  import opened DownloadModel

  // ---------------------------------------------------------------------------
  // Queue status
  // ---------------------------------------------------------------------------

  datatype Status = Active | Inactive

  /** `Status.status(expensive:expensiveAllowed:)`. */
  function StatusFor(expensive: bool, expensiveAllowed: bool): (s: Status)
    ensures s == Inactive <==> expensive && !expensiveAllowed
    ensures s == Active <==> !expensive || expensiveAllowed
  {
    if expensive && !expensiveAllowed then Inactive else Active
  }

  // ---------------------------------------------------------------------------
  // Results and errors
  // ---------------------------------------------------------------------------

  datatype ServiceError = UnableToCancelDownload | UnableToDeleteDownload

  /** The messages `requestDownload` reports a problem with. */
  datatype RequestProblem = DownloadNotPermitted | DownloadContentNotFound | DownloadRequestProblem

  datatype RequestDownloadResult =
    | DownloadRequestedSuccessfully
    | DownloadRequestedButQueueInactive
    | ProblemRequestingDownload(problem: RequestProblem)

  /** The user's download capability; `None` when nobody is logged in. */
  datatype User = User(canDownload: bool)

  /** A URL resolution client, identified by the API client it was built with. */
  datatype VideosService = VideosService(client: nat)

  datatype ResolutionError = ResolutionError

  /**
   * An asynchronous `getVideoDownload` call in flight: the video asked for and
   * the copy of the record the completion closure captured.
   */
  datatype UrlRequest = UrlRequest(videoId: int, snapshot: Download)

  // ---------------------------------------------------------------------------
  // URL resolution
  // ---------------------------------------------------------------------------

  /** The guards of `requestDownloadUrl`. */
  predicate CanRequestUrl(serviceBound: bool, item: QueueItem) {
    && serviceBound
    && item.download.remoteUrl.None?
    && item.download.state == Pending
    && item.content.contentType != Collection
    && item.content.videoIdentifier.Some?
    && item.content.videoIdentifier.value != 0
  }

  /** The url of the first attachment of the given kind, if any. */
  function FirstMatch(attachments: seq<Attachment>, kind: AttachmentKind): (url: Option<Url>)
    ensures url.None? <==> forall i :: 0 <= i < |attachments| ==> attachments[i].kind != kind
    ensures url.Some? ==>
      exists i :: && 0 <= i < |attachments| && attachments[i].kind == kind && attachments[i].url == url.value
                  && forall j :: 0 <= j < i ==> attachments[j].kind != kind
  {
    if attachments == [] then None
    else if attachments[0].kind == kind then
      Some(attachments[0].url)
    else
      var rest := FirstMatch(attachments[1..], kind);
      assert rest.Some? ==> (exists i :: 0 < i < |attachments| && attachments[i].kind == kind &&
                                         attachments[i].url == rest.value &&
                                         forall j :: 0 <= j < i ==> attachments[j].kind != kind) by {
        if rest.Some? {
          var k :| 0 <= k < |attachments[1..]| && attachments[1..][k].kind == kind &&
            attachments[1..][k].url == rest.value && forall j :: 0 <= j < k ==> attachments[1..][j].kind != kind;
          assert forall j :: 0 <= j < k + 1 ==> attachments[j].kind != kind by {
            forall j | 0 <= j < k + 1 ensures attachments[j].kind != kind {
              if j > 0 { assert attachments[j] == attachments[1..][j - 1]; }
            }
          }
        }
      }
      assert rest.None? ==> forall i :: 0 <= i < |attachments| ==> attachments[i].kind != kind by {
        if rest.None? {
          forall i | 0 <= i < |attachments| ensures attachments[i].kind != kind {
            if i > 0 { assert attachments[i] == attachments[1..][i - 1]; }
          }
        }
      }
      rest
  }

  /**
   * The record the completion closure of `requestDownloadUrl` writes back: the
   * captured snapshot with the url of the configured quality, a fresh
   * validation time and `readyForDownload` on success; `error` whenever no
   * url ends up set.
   */
  function Resolved(snapshot: Download, result: Result<seq<Attachment>, ResolutionError>,
                    quality: AttachmentKind, now: Timestamp): (d: Download)
    ensures SameIdContentAndProgress(d, snapshot) && d.fileName == snapshot.fileName
    ensures result.Success? ==> d.remoteUrl == FirstMatch(result.value, quality) && d.lastValidatedAt == Some(now)
    ensures result.Failure? ==> d.remoteUrl == snapshot.remoteUrl && d.lastValidatedAt == snapshot.lastValidatedAt
    ensures d.remoteUrl.None? ==> d.state == Error
    ensures d.remoteUrl.Some? ==> d.state == if result.Success? then ReadyForDownload else snapshot.state
  {
    var d := match result
      case Failure(_) => snapshot
      case Success(attachments) =>
        snapshot.(remoteUrl := FirstMatch(attachments, quality), lastValidatedAt := Some(now), state := ReadyForDownload);
    if d.remoteUrl.None? then d.(state := Error) else d
  }

  /**
   * For a record that passed the guards (no url yet), resolution ends in
   * `readyForDownload` exactly when it succeeded with an attachment of the
   * configured quality, and in `error` otherwise.
   */
  lemma ResolvedOutcome(snapshot: Download, result: Result<seq<Attachment>, ResolutionError>,
                        quality: AttachmentKind, now: Timestamp)
    requires snapshot.remoteUrl.None?
    ensures var d := Resolved(snapshot, result, quality, now);
      && (d.state == ReadyForDownload <==>
            result.Success? && exists i :: 0 <= i < |result.value| && result.value[i].kind == quality)
      && (d.state != ReadyForDownload ==> d.state == Error && d.remoteUrl.None?)
      && (d.state == ReadyForDownload ==> d.remoteUrl.Some?)
  {
  }

  /**
   * Whatever happened to the stored record while the request was in flight
   * (the `urlRequested` transition, a progress update), the completion
   * overwrites it with the captured snapshot's fields.
   */
  lemma CompletionOverwritesInterimChanges(records: Records, req: UrlRequest,
                                           result: Result<seq<Attachment>, ResolutionError>,
                                           quality: AttachmentKind, now: Timestamp)
    requires req.snapshot.id in records && req.snapshot.remoteUrl.None?
    ensures var after := Update(records, Resolved(req.snapshot, result, quality, now));
      && after[req.snapshot.id].progress == req.snapshot.progress
      && after[req.snapshot.id].fileName == req.snapshot.fileName
      && after[req.snapshot.id].state != UrlRequested
  {
  }

  // ---------------------------------------------------------------------------
  // Enqueueing
  // ---------------------------------------------------------------------------

  /**
   * The record `enqueue` saves for a ready item, or `None` when its guards
   * fail: a file name from the video id, and `complete` when that file is
   * already on disk, else `enqueued`.
   */
  function EnqueuedRecord(item: QueueItem, files: set<Path>): (r: Option<Download>)
    ensures r.Some? <==>
      item.download.remoteUrl.Some? && item.download.state == ReadyForDownload && item.content.videoIdentifier.Some?
    ensures r.Some? ==>
      && SameIdContentAndProgress(r.value, item.download)
      && r.value.remoteUrl == item.download.remoteUrl
      && r.value.lastValidatedAt == item.download.lastValidatedAt
      && r.value.fileName == Some(FileNameFor(item.content.videoIdentifier.value))
      && (r.value.state == Complete || r.value.state == Enqueued)
      && (r.value.state == Complete <==> LocalUrl(r.value).value in files)
  {
    if item.download.remoteUrl.None? || item.download.state != ReadyForDownload then None
    else if item.content.videoIdentifier.None? then None
    else
      var download := item.download.(fileName := Some(FileNameFor(item.content.videoIdentifier.value)));
      var onDisk := LocalUrl(download).Some? && LocalUrl(download).value in files;
      Some(download.(state := if onDisk then Complete else Enqueued))
  }

  /** Restart recovery: a ready item whose file is already on disk goes straight to `complete`. */
  lemma EnqueueRecoversFinishedFile(item: QueueItem, files: set<Path>)
    requires item.download.remoteUrl.Some? && item.download.state == ReadyForDownload
    requires item.content.videoIdentifier.Some?
    requires DownloadsDirectory + FileNameFor(item.content.videoIdentifier.value) in files
    ensures EnqueuedRecord(item, files).Some? && EnqueuedRecord(item, files).value.state == Complete
  {
  }

  // ---------------------------------------------------------------------------
  // Resuming the queue: which items are handed to the transfer engine
  // ---------------------------------------------------------------------------

  /** Ids of the `enqueued` items whose `add` succeeds, in the order of `items`. */
  ghost function AddedIds(items: seq<QueueItem>, failing: set<DownloadId>): set<DownloadId>
  {
    if items == [] then {}
    else
      var last := items[|items| - 1].download;
      AddedIds(items[..|items| - 1], failing) +
        (if last.state == Enqueued && last.id !in failing then {last.id} else {})
  }

  /** Ids of the `enqueued` items whose `add` throws. */
  ghost function FailedIds(items: seq<QueueItem>, failing: set<DownloadId>): set<DownloadId>
  {
    if items == [] then {}
    else
      var last := items[|items| - 1].download;
      FailedIds(items[..|items| - 1], failing) +
        (if last.state == Enqueued && last.id in failing then {last.id} else {})
  }

  /** An item emitted as `enqueued`, whose record copy carries `id`. */
  ghost predicate EnqueuedAt(items: seq<QueueItem>, k: int, id: DownloadId) {
    0 <= k < |items| && items[k].download.state == Enqueued && items[k].download.id == id
  }

  /**
   * Only `enqueued` items reach the engine, and exactly those of them whose
   * `add` does not throw; exactly the others are marked `failed`.
   */
  lemma {:induction false} ResumeSelectsEnqueued(items: seq<QueueItem>, failing: set<DownloadId>, id: DownloadId)
    ensures id in AddedIds(items, failing) <==> id !in failing && exists k :: EnqueuedAt(items, k, id)
    ensures id in FailedIds(items, failing) <==> id in failing && exists k :: EnqueuedAt(items, k, id)
  {
    if items != [] {
      var init := items[..|items| - 1];
      ResumeSelectsEnqueued(init, failing, id);
      var last := items[|items| - 1].download;
      if last.state == Enqueued && last.id == id {
        assert EnqueuedAt(items, |items| - 1, id);
      }
      if exists k :: EnqueuedAt(init, k, id) {
        var k :| EnqueuedAt(init, k, id);
        assert EnqueuedAt(items, k, id);
      }
      if exists k :: EnqueuedAt(items, k, id) {
        var k :| EnqueuedAt(items, k, id);
        if k < |items| - 1 { assert EnqueuedAt(init, k, id); }
      }
    }
  }

  /** `after` is `before` with exactly the records in `ids` set to `failed`. */
  ghost predicate MarkedFailed(before: Records, after: Records, ids: set<DownloadId>) {
    && after.Keys == before.Keys
    && forall id :: id in after ==> after[id] == if id in ids then before[id].(state := Failed) else before[id]
  }

  // ---------------------------------------------------------------------------
  // Transfer engine callbacks
  // ---------------------------------------------------------------------------

  /** The `DownloadProcessorDelegate` callbacks, one constructor each. */
  datatype ProcessorEvent =
    | DidStart(id: DownloadId)
    | DidUpdateProgress(id: DownloadId, progress: Progress)
    | DidFinish(id: DownloadId)
    | DidCancel(id: DownloadId)
    | DidPause(id: DownloadId)
    | DidResume(id: DownloadId)
    | DidFail(id: DownloadId)

  /** The store write each callback performs. */
  function AfterEvent(records: Records, e: ProcessorEvent): (r: Records)
    ensures e.DidCancel? ==> r.Keys == records.Keys - {e.id}
    ensures !e.DidCancel? ==> r.Keys == records.Keys
    ensures forall other :: other in r && other != e.id ==> r[other] == records[other]
    ensures e.id in r && (e.DidStart? || e.DidResume?) ==> r[e.id] == records[e.id].(state := InProgress)
    ensures e.id in r && e.DidFinish? ==> r[e.id] == records[e.id].(state := Complete)
    ensures e.id in r && e.DidPause? ==> r[e.id] == records[e.id].(state := Paused)
    ensures e.id in r && e.DidFail? ==> r[e.id] == records[e.id].(state := Error)
    ensures e.id in r && e.DidUpdateProgress? ==> r[e.id] == records[e.id].(progress := e.progress)
  {
    match e
    case DidStart(id) => Transition(records, id, InProgress)
    case DidUpdateProgress(id, p) => UpdateProgress(records, id, p)
    case DidFinish(id) => Transition(records, id, Complete)
    case DidCancel(id) => DeleteRecord(records, id).0
    case DidPause(id) => Transition(records, id, Paused)
    case DidResume(id) => Transition(records, id, InProgress)
    case DidFail(id) => Transition(records, id, Error)
  }

  /**
   * The callbacks do not consult the state table: a start moves a pending
   * record straight to `inProgress`, and a pause reaches a completed one.
   */
  lemma CallbacksIgnoreStateTable()
    ensures AfterEvent(map[1 := NewDownload(1, 42)], DidStart(1))[1].state == InProgress
    ensures AfterEvent(map[1 := NewDownload(1, 42).(state := Complete)], DidPause(1))[1].state == Paused
  {
  }

  /** The store after a run of callbacks, in order. */
  function Replay(records: Records, events: seq<ProcessorEvent>): (r: Records)
    ensures (forall i :: 0 <= i < |events| ==> !events[i].DidCancel?) ==> r.Keys == records.Keys
    ensures r.Keys <= records.Keys
  {
    if events == [] then records else Replay(AfterEvent(records, events[0]), events[1..])
  }

  function Cancellations(ids: seq<DownloadId>): (events: seq<ProcessorEvent>)
    ensures |events| == |ids|
    ensures forall i :: 0 <= i < |ids| ==> events[i] == DidCancel(ids[i])
  {
    if ids == [] then [] else [DidCancel(ids[0])] + Cancellations(ids[1..])
  }

  /** A pause followed by a resume puts the record back in progress with its progress kept. */
  lemma PauseResumeKeepsProgress(records: Records, id: DownloadId)
    requires id in records && records[id].state == InProgress
    ensures Replay(records, [DidPause(id), DidResume(id)]) == records
  {
    var r1 := AfterEvent(records, DidPause(id));
    var r2 := AfterEvent(r1, DidResume(id));
    assert [DidPause(id), DidResume(id)][1..] == [DidResume(id)];
    assert Replay(records, [DidPause(id), DidResume(id)]) == Replay(r1, [DidResume(id)]);
    assert Replay(r1, [DidResume(id)]) == Replay(r2, []);
    assert r2[id] == records[id];
    assert r2 == records;
  }

  /** Once a record is deleted by a cancel callback, no later callback for it brings it back. */
  lemma CancelIsFinal(records: Records, e: ProcessorEvent)
    ensures var gone := AfterEvent(records, DidCancel(e.id));
      e.id !in gone && AfterEvent(gone, e) == gone
  {
  }

  /**
   * The cancel callbacks that follow `cancelAllDownloads` delete exactly the
   * records they name and leave every other record as it was.
   */
  lemma {:induction false} CancellationsDeleteExactly(records: Records, ids: seq<DownloadId>)
    ensures var r := Replay(records, Cancellations(ids));
      && r.Keys == records.Keys - (set i | 0 <= i < |ids| :: ids[i])
      && forall id :: id in r ==> r[id] == records[id]
  {
    if ids != [] {
      var rest := AfterEvent(records, DidCancel(ids[0]));
      assert Cancellations(ids)[1..] == Cancellations(ids[1..]);
      CancellationsDeleteExactly(rest, ids[1..]);
      var s := set i | 0 <= i < |ids| :: ids[i];
      var s' := set i | 0 <= i < |ids[1..]| :: ids[1..][i];
      assert s == {ids[0]} + s' by {
        forall x | x in s ensures x in {ids[0]} + s' {
          var i :| 0 <= i < |ids| && ids[i] == x;
          if i > 0 { assert ids[1..][i - 1] == x; }
        }
        forall x | x in s' ensures x in s {
          var i :| 0 <= i < |ids[1..]| && ids[1..][i] == x;
          assert ids[i + 1] == x;
        }
      }
    }
  }

  // ---------------------------------------------------------------------------
  // End-to-end runs of the state machine
  // ---------------------------------------------------------------------------

  /** Content 42's record once its video 7 resolved to one SD rendition while SD is configured. */
  function SdReady(now: Timestamp): Download {
    Download(1, 42, ReadyForDownload, Some("https://x/7.mp4"), None, Some(now), 0.0)
  }

  /**
   * Content 42 with video 7, resolved to one SD rendition while SD is the
   * configured quality: pending, then urlRequested, then readyForDownload.
   */
  lemma SdRenditionResolves(now: Timestamp)
    ensures
      var d0 := NewDownload(1, 42);
      var r1 := Transition(map[1 := d0], 1, UrlRequested);
      var attachments := [Attachment(SdVideoFile, "https://x/7.mp4")];
      && CanRequestUrl(true, QueueItem(d0, Content(42, Episode, Some(7))))
      && r1[1].state == UrlRequested
      && Update(r1, Resolved(d0, Success(attachments), SdVideoFile, now)) == map[1 := SdReady(now)]
  {
    var d0 := NewDownload(1, 42);
    var attachments := [Attachment(SdVideoFile, "https://x/7.mp4")];
    assert FirstMatch(attachments, SdVideoFile) == Some("https://x/7.mp4");
    assert Resolved(d0, Success(attachments), SdVideoFile, now) == SdReady(now);
  }

  /**
   * The ready record of `SdRenditionResolves` is enqueued with file name
   * "7.mp4", then goes to inProgress and complete on the engine's start and
   * finish callbacks.
   */
  lemma SdRenditionDownloads(now: Timestamp)
    ensures
      var queued := EnqueuedRecord(QueueItem(SdReady(now), Content(42, Episode, Some(7))), {});
      && queued == Some(SdReady(now).(fileName := Some("7.mp4"), state := Enqueued))
      && var r3 := map[1 := queued.value];
         && Replay(r3, [DidStart(1)])[1].state == InProgress
         && Replay(r3, [DidStart(1), DidFinish(1)])[1] == queued.value.(state := Complete)
  {
    assert IntToString(7) == "7";
    assert FileNameFor(7) == "7" + ".mp4" == "7.mp4";
    var queued := SdReady(now).(fileName := Some("7.mp4"), state := Enqueued);
    assert EnqueuedRecord(QueueItem(SdReady(now), Content(42, Episode, Some(7))), {}) == Some(queued);
    var r3 := map[1 := queued];
    var r4 := AfterEvent(r3, DidStart(1));
    assert r4 == map[1 := queued.(state := InProgress)];
    assert [DidStart(1), DidFinish(1)][1..] == [DidFinish(1)];
    assert [DidFinish(1)][1..] == [];
    assert Replay(r3, [DidStart(1)]) == Replay(r4, []) == r4;
    assert Replay(r3, [DidStart(1), DidFinish(1)]) == Replay(r4, [DidFinish(1)]);
    assert Replay(r4, [DidFinish(1)]) == Replay(AfterEvent(r4, DidFinish(1)), []);
  }

  /** Only an HD rendition while SD is configured: the record ends in `error` with no url. */
  lemma NoMatchingQualityScenario(now: Timestamp)
    ensures var d := Resolved(NewDownload(1, 42), Success([Attachment(HdVideoFile, "https://x/7.mp4")]), SdVideoFile, now);
      d.state == Error && d.remoteUrl.None?
  {
  }

  // ---------------------------------------------------------------------------
  // The service object
  // ---------------------------------------------------------------------------

  class DownloadService {
    /** The persistence store's download records. */
    var records: Records
    /** The local paths that exist on disk under the downloads directory. */
    var files: set<Path>
    /** Whether the downloads directory exists and is excluded from backup. */
    var directoryReady: bool
    /** Ids of the downloads handed to the transfer engine. */
    var added: set<DownloadId>
    /** Whether the transfer engine was last told to pause all its transfers. */
    var processorPaused: bool
    var status: Status
    var videosService: Option<VideosService>
    /** Whether the download queue subscription is live. */
    var queueSubscribed: bool

    ghost predicate Valid()
      reads this
    {
      WellFormed(records)
    }

    /** `init`: the store and disk as found, status inactive, then the permission gate. */
    constructor (stored: Records, onDisk: set<Path>, user: Option<User>, provided: VideosService)
      requires WellFormed(stored)
      ensures Valid()
      ensures records == stored && status == Inactive && !queueSubscribed && directoryReady
      ensures user.Some? && user.value.canDownload ==>
        videosService == Some(provided) && files == onDisk && added == {}
      ensures !(user.Some? && user.value.canDownload) ==> videosService.None? && files == {} && added == {}
    {
      records := stored;
      files := onDisk;
      directoryReady := false;
      added := {};
      processorPaused := false;
      status := Inactive;
      videosService := None;
      queueSubscribed := false;
      new;
      CheckPermissions(user, provided);
    }

    // --- Permission gate -----------------------------------------------------

    /** `prepareDownloadDirectory`: create the directory if missing. */
    method PrepareDownloadDirectory()
      modifies this`directoryReady
      ensures directoryReady
    {
      directoryReady := true;
    }

    /** `deleteExistingDownloads`: remove the directory with every file in it, then recreate it. */
    method DeleteExistingDownloads()
      modifies this`files, this`directoryReady
      ensures files == {} && directoryReady
    {
      files := {};
      PrepareDownloadDirectory();
    }

    /**
     * `destroyDownloads`: cancel every transfer (the engine's cancel callbacks
     * then delete the records) and wipe the downloads directory.
     */
    method DestroyDownloads()
      modifies this`added, this`files, this`directoryReady
      ensures added == {} && files == {} && directoryReady
    {
      added := {};
      DeleteExistingDownloads();
    }

    /**
     * `checkPermissions`: a user who may download keeps an existing videos
     * service (or gets `provided` when there is none); otherwise everything
     * is torn down and the service dropped. Records are left to the cancel
     * callbacks.
     */
    method CheckPermissions(user: Option<User>, provided: VideosService)
      modifies this`added, this`files, this`directoryReady, this`videosService
      ensures directoryReady
      ensures user.Some? && user.value.canDownload ==>
        && videosService == (if old(videosService).Some? then old(videosService) else Some(provided))
        && files == old(files) && added == old(added)
      ensures !(user.Some? && user.value.canDownload) ==>
        videosService.None? && files == {} && added == {}
    {
      if user.None? {
        DestroyDownloads();
        videosService := None;
        return;
      }
      if user.value.canDownload {
        PrepareDownloadDirectory();
        if videosService.None? {
          videosService := Some(provided);
        }
      } else {
        DestroyDownloads();
        videosService := None;
      }
    }

    // --- Requests from the UI ------------------------------------------------

    /**
     * `requestDownload`. `lookup` is what the content lookup yields for
     * `contentId`; the record is created for the returned content's id, as
     * the source does. `persistOk` whether persisting the content graph and
     * creating its download succeed, `newId` the UUID a new record gets.
     */
    method RequestDownload(contentId: int, lookup: Option<Content>, persistOk: bool, newId: DownloadId)
      returns (r: RequestDownloadResult)
      requires Valid()
      requires newId !in records
      modifies this`records
      ensures Valid()
      ensures videosService.None? ==>
        r == ProblemRequestingDownload(DownloadNotPermitted) && records == old(records)
      ensures videosService.Some? && lookup.None? ==>
        r == ProblemRequestingDownload(DownloadContentNotFound) && records == old(records)
      ensures videosService.Some? && lookup.Some? && !persistOk ==>
        r == ProblemRequestingDownload(DownloadRequestProblem) && records == old(records)
      ensures videosService.Some? && lookup.Some? && persistOk ==>
        && r == (if status == Active then DownloadRequestedSuccessfully else DownloadRequestedButQueueInactive)
        && (exists id :: RecordOf(records, id, lookup.value.id))
        && (if exists id :: RecordOf(old(records), id, lookup.value.id)
            then records == old(records)
            else records == old(records)[newId := NewDownload(newId, lookup.value.id)])
    {
      if videosService.None? {
        return ProblemRequestingDownload(DownloadNotPermitted);
      }
      if lookup.None? {
        return ProblemRequestingDownload(DownloadContentNotFound);
      }
      if !persistOk {
        return ProblemRequestingDownload(DownloadRequestProblem);
      }
      var content := lookup.value;
      if !exists id | id in records :: records[id].contentId == content.id {
        records := records[newId := NewDownload(newId, content.id)];
        assert RecordOf(records, newId, content.id);
      } else {
        var id :| id in records && records[id].contentId == content.id;
        assert RecordOf(records, id, content.id);
      }
      r := match status
        case Active => DownloadRequestedSuccessfully
        case Inactive => DownloadRequestedButQueueInactive;
    }

    /**
     * `cancelDownload`: ask the engine to cancel the content's download.
     * The record itself is only deleted later, by the cancel callback.
     */
    method CancelDownload(contentId: int, lookupOk: bool, cancelOk: bool) returns (r: Outcome<ServiceError>)
      requires Valid()
      modifies this`added
      ensures records == old(records)
      ensures !lookupOk ==> r == Fail(UnableToCancelDownload) && added == old(added)
      ensures lookupOk && (forall id :: id in records ==> records[id].contentId != contentId) ==>
        r == Pass && added == old(added)
      ensures lookupOk && (exists id :: RecordOf(records, id, contentId)) ==>
        && (r == Pass <==> cancelOk)
        && (r.Fail? ==> r == Fail(UnableToCancelDownload) && added == old(added))
        && (r.Pass? ==> exists id :: RecordOf(records, id, contentId) && added == old(added) - {id})
    {
      if !lookupOk {
        return Fail(UnableToCancelDownload);
      }
      if !exists id | id in records :: records[id].contentId == contentId {
        return Pass;
      }
      var id :| id in records && records[id].contentId == contentId;
      if !cancelOk {
        return Fail(UnableToCancelDownload);
      }
      added := added - {id};
      r := Pass;
    }

    /**
     * `deleteFile(for:)`: remove the download's local file if it has one and
     * it exists; `removeOk` says whether the removal succeeds.
     */
    method DeleteFile(d: Download, removeOk: bool) returns (ok: bool)
      modifies this`files
      ensures LocalUrl(d).None? || LocalUrl(d).value !in old(files) ==> ok && files == old(files)
      ensures LocalUrl(d).Some? && LocalUrl(d).value in old(files) ==>
        ok == removeOk && files == if removeOk then old(files) - {LocalUrl(d).value} else old(files)
    {
      var localUrl := LocalUrl(d);
      if localUrl.None? {
        return true;
      }
      if localUrl.value in files {
        if !removeOk {
          return false;
        }
        files := files - {localUrl.value};
      }
      ok := true;
    }

    /**
     * `deleteDownload`: remove the content's file (if any) and then its
     * record. A `false` from the store's delete is only logged.
     */
    method DeleteDownload(contentId: int, lookupOk: bool, removeOk: bool, deleteOk: bool)
      returns (r: Outcome<ServiceError>)
      requires Valid()
      modifies this`records, this`files
      ensures Valid()
      ensures r.Fail? ==> r == Fail(UnableToDeleteDownload)
      ensures !lookupOk ==> r.Fail? && records == old(records) && files == old(files)
      ensures lookupOk && (forall id :: id in old(records) ==> old(records)[id].contentId != contentId) ==>
        r == Pass && records == old(records) && files == old(files)
      ensures lookupOk && r.Pass? ==> forall id :: id in records ==> records[id].contentId != contentId
      ensures lookupOk && (exists id :: RecordOf(old(records), id, contentId)) ==>
        exists id :: RecordOf(old(records), id, contentId) &&
          DeleteOutcome(old(records), old(files), id, removeOk, deleteOk, records, files, r)
    {
      if !lookupOk {
        return Fail(UnableToDeleteDownload);
      }
      if !exists id | id in records :: records[id].contentId == contentId {
        return Pass;
      }
      var id :| id in records && records[id].contentId == contentId;
      var fileOk := DeleteFile(records[id], removeOk);
      if !fileOk || !deleteOk {
        return Fail(UnableToDeleteDownload);
      }
      var (rest, existed) := DeleteRecord(records, id);
      records := rest;
      r := Pass;
    }

    // --- URL resolution and enqueueing ---------------------------------------

    /**
     * `requestDownloadUrl`: when every guard holds, start resolving the
     * video's URLs (the returned request, holding a copy of the record) and
     * move the record to `urlRequested`; otherwise do nothing.
     */
    method RequestDownloadUrl(item: QueueItem) returns (issued: Option<UrlRequest>)
      requires Valid()
      modifies this`records
      ensures Valid()
      ensures issued.Some? <==> CanRequestUrl(videosService.Some?, item)
      ensures issued.Some? ==> issued.value == UrlRequest(item.content.videoIdentifier.value, item.download)
      ensures records == if issued.Some? then Transition(old(records), item.download.id, UrlRequested)
                         else old(records)
    {
      if videosService.None? {
        return None;
      }
      if item.download.remoteUrl.Some? || item.download.state != Pending || item.content.contentType == Collection {
        return None;
      }
      if item.content.videoIdentifier.None? || item.content.videoIdentifier.value == 0 {
        return None;
      }
      issued := Some(UrlRequest(item.content.videoIdentifier.value, item.download));
      records := Transition(records, item.download.id, UrlRequested);
    }

    /**
     * The completion closure of `requestDownloadUrl`: write back the captured
     * copy, updated from `result` with the configured `quality`; if that save
     * throws, move the record to `failed` instead.
     */
    method CompleteUrlRequest(req: UrlRequest, result: Result<seq<Attachment>, ResolutionError>,
                              quality: AttachmentKind, now: Timestamp, saveOk: bool)
      requires Valid()
      requires CopiedFromStore(records, req.snapshot)
      modifies this`records
      ensures Valid()
      ensures saveOk ==> records == Update(old(records), Resolved(req.snapshot, result, quality, now))
      ensures !saveOk ==> records == Transition(old(records), req.snapshot.id, Failed)
    {
      var download := req.snapshot;
      match result {
        case Failure(_) =>
        case Success(attachments) =>
          download := download.(remoteUrl := FirstMatch(attachments, quality),
                                lastValidatedAt := Some(now), state := ReadyForDownload);
      }
      if download.remoteUrl.None? {
        download := download.(state := Error);
      }
      if saveOk {
        records := Update(records, download);
      } else {
        records := Transition(records, download.id, Failed);
      }
    }

    /**
     * `enqueue(downloadQueueItem:)`: give a ready item its file name and move
     * it to `enqueued`, or to `complete` when the file already exists. A
     * failing save is only logged.
     */
    method Enqueue(item: QueueItem, saveOk: bool)
      requires Valid()
      requires CopiedFromStore(records, item.download)
      modifies this`records
      ensures Valid()
      ensures records == if saveOk && EnqueuedRecord(item, files).Some? then Update(old(records), EnqueuedRecord(item, files).value)
                         else old(records)
    {
      if item.download.remoteUrl.None? || item.download.state != ReadyForDownload {
        return;
      }
      if item.content.videoIdentifier.None? {
        return;
      }
      var filename := FileNameFor(item.content.videoIdentifier.value);
      var download := item.download.(fileName := Some(filename));
      var localUrl := LocalUrl(download);
      if localUrl.Some? && localUrl.value in files {
        download := download.(state := Complete);
      } else {
        download := download.(state := Enqueued);
      }
      if saveOk {
        records := Update(records, download);
      }
    }

    // --- Network status: pausing and resuming the queue ----------------------

    /**
     * The body of the download queue subscription: hand every `enqueued`
     * item to the engine; an item whose `add` throws (its id is in
     * `failing`) is moved to `failed`.
     */
    method AddEnqueued(items: seq<QueueItem>, failing: set<DownloadId>)
      requires Valid()
      modifies this`records, this`added
      ensures Valid()
      ensures added == old(added) + AddedIds(items, failing)
      ensures MarkedFailed(old(records), records, FailedIds(items, failing))
    {
      var i := 0;
      while i < |items|
        invariant 0 <= i <= |items|
        invariant Valid()
        invariant added == old(added) + AddedIds(items[..i], failing)
        invariant MarkedFailed(old(records), records, FailedIds(items[..i], failing))
      {
        var download := items[i].download;
        assert items[..i + 1][..i] == items[..i];
        if download.state == Enqueued {
          if download.id !in failing {
            added := added + {download.id};
          } else {
            records := Transition(records, download.id, Failed);
          }
        }
        i := i + 1;
      }
      assert items[..|items|] == items;
    }

    /** A later emission of the download queue; ignored once the subscription is cancelled. */
    method OnDownloadQueue(items: seq<QueueItem>, failing: set<DownloadId>)
      requires Valid()
      modifies this`records, this`added
      ensures Valid()
      ensures queueSubscribed ==>
        added == old(added) + AddedIds(items, failing) && MarkedFailed(old(records), records, FailedIds(items, failing))
      ensures !queueSubscribed ==> added == old(added) && records == old(records)
    {
      if queueSubscribed {
        AddEnqueued(items, failing);
      }
    }

    /** `pauseQueue`: cancel the queue subscription and pause every transfer. */
    method PauseQueue()
      modifies this`queueSubscribed, this`processorPaused
      ensures !queueSubscribed && processorPaused
    {
      queueSubscribed := false;
      processorPaused := true;
    }

    /**
     * `resumeQueue`: subscribe to the download queue, whose first emission
     * is `items`, then resume every transfer.
     */
    method ResumeQueue(items: seq<QueueItem>, failing: set<DownloadId>)
      requires Valid()
      modifies this`queueSubscribed, this`processorPaused, this`records, this`added
      ensures Valid()
      ensures queueSubscribed && !processorPaused
      ensures added == old(added) + AddedIds(items, failing)
      ensures MarkedFailed(old(records), records, FailedIds(items, failing))
    {
      queueSubscribed := true;
      AddEnqueued(items, failing);
      processorPaused := false;
    }

    /**
     * `checkQueueStatus`: recompute the status from the network path and the
     * wifi-only setting; act only when it changed.
     */
    method CheckQueueStatus(expensive: bool, wifiOnlyDownloads: bool,
                            items: seq<QueueItem>, failing: set<DownloadId>)
      requires Valid()
      modifies this`status, this`queueSubscribed, this`processorPaused, this`records, this`added
      ensures Valid()
      ensures status == StatusFor(expensive, !wifiOnlyDownloads)
      ensures old(status) == status ==>
        && queueSubscribed == old(queueSubscribed) && processorPaused == old(processorPaused)
        && records == old(records) && added == old(added)
      ensures old(status) != status && status == Active ==>
        && queueSubscribed && !processorPaused
        && added == old(added) + AddedIds(items, failing)
        && MarkedFailed(old(records), records, FailedIds(items, failing))
      ensures old(status) != status && status == Inactive ==>
        && !queueSubscribed && processorPaused
        && records == old(records) && added == old(added)
    {
      var newStatus := StatusFor(expensive, !wifiOnlyDownloads);
      if status == newStatus {
        return;
      }
      status := newStatus;
      match status {
        case Active => ResumeQueue(items, failing);
        case Inactive => PauseQueue();
      }
    }

    // --- Transfer engine delegate ---------------------------------------------

    /** `downloadModelForDownloadWithId`: the stored record, or none when absent or the fetch throws. */
    function DownloadModelFor(id: DownloadId, lookupOk: bool): (r: Option<Download>)
      reads this
      ensures r.Some? <==> lookupOk && id in records
      ensures r.Some? ==> r.value == records[id]
    {
      if lookupOk && id in records then Some(records[id]) else None
    }

    /** One engine callback: its store write, and nothing else. */
    method HandleProcessorEvent(e: ProcessorEvent)
      requires Valid()
      modifies this`records
      ensures Valid()
      ensures records == AfterEvent(old(records), e)
    {
      match e {
        case DidStart(id) => records := Transition(records, id, InProgress);
        case DidUpdateProgress(id, p) => records := UpdateProgress(records, id, p);
        case DidFinish(id) => records := Transition(records, id, Complete);
        case DidCancel(id) =>
          // A `false` from the store (no such record) is only logged.
          var (rest, existed) := DeleteRecord(records, id);
          records := rest;
        case DidPause(id) => records := Transition(records, id, Paused);
        case DidResume(id) => records := Transition(records, id, InProgress);
        case DidFail(id) => records := Transition(records, id, Error);
      }
    }
  }

  /** The result of `deleteDownload` on the record `id` of the old store. */
  ghost predicate DeleteOutcome(before: Records, filesBefore: set<Path>, id: DownloadId,
                                removeOk: bool, deleteOk: bool,
                                after: Records, filesAfter: set<Path>, r: Outcome<ServiceError>)
    requires id in before
  {
    var path := LocalUrl(before[id]);
    var fileThere := path.Some? && path.value in filesBefore;
    && filesAfter == (if fileThere && removeOk then filesBefore - {path.value} else filesBefore)
    && (r == Pass <==> (!fileThere || removeOk) && deleteOk)
    && after == (if r == Pass then before - {id} else before)
  }

  /** Deleting the same content twice: the second call succeeds and changes nothing. */
  method DeleteTwice(service: DownloadService, contentId: int, removeOk: bool, deleteOk: bool)
    returns (first: Outcome<ServiceError>, second: Outcome<ServiceError>,
             ghost between: Records, ghost filesBetween: set<Path>)
    requires service.Valid()
    modifies service
    ensures service.Valid()
    ensures first.Pass? ==> second == Pass && service.records == between && service.files == filesBetween
  {
    first := service.DeleteDownload(contentId, true, removeOk, deleteOk);
    between, filesBetween := service.records, service.files;
    second := service.DeleteDownload(contentId, true, removeOk, deleteOk);
  }

  /** `checkQueueStatus` is edge-triggered: a second call on the same inputs does nothing. */
  method CheckQueueStatusTwice(service: DownloadService, expensive: bool, wifiOnlyDownloads: bool,
                               items: seq<QueueItem>, failing: set<DownloadId>,
                               laterItems: seq<QueueItem>, laterFailing: set<DownloadId>)
    returns (ghost between: Records, ghost addedBetween: set<DownloadId>,
             ghost pausedBetween: bool, ghost subscribedBetween: bool)
    requires service.Valid()
    modifies service
    ensures service.Valid()
    ensures service.status == StatusFor(expensive, !wifiOnlyDownloads)
    ensures service.records == between && service.added == addedBetween
    ensures service.processorPaused == pausedBetween && service.queueSubscribed == subscribedBetween
  {
    service.CheckQueueStatus(expensive, wifiOnlyDownloads, items, failing);
    between, addedBetween := service.records, service.added;
    pausedBetween, subscribedBetween := service.processorPaused, service.queueSubscribed;
    service.CheckQueueStatus(expensive, wifiOnlyDownloads, laterItems, laterFailing);
  }
}
