/**
 * The data the download service works on: download records, the content they
 * belong to, resolved attachments, the record store's write operations and
 * the deterministic local file name of a video.
 */
module DownloadModel {
  import opened Wrappers

  /** A download's UUID, taken as an opaque number. */
  type DownloadId = nat
  type Url = string
  type Path = string
  /** The value of `Date()` when a URL was validated, taken as an opaque instant. */
  type Timestamp = nat
  /** Fractional completion; the service only stores it and does no arithmetic on it. */
  type Progress = real

  datatype State =
    | Pending
    | UrlRequested
    | ReadyForDownload
    | Enqueued
    | InProgress
    | Paused
    | Complete
    | Error
    | Failed

  /** One download record of the persistence store. */
  datatype Download = Download(
    id: DownloadId,
    contentId: int,
    state: State,
    remoteUrl: Option<Url>,
    fileName: Option<string>,
    lastValidatedAt: Option<Timestamp>,
    progress: Progress)

  /** Only the distinction between a collection and a leaf video matters here. */
  datatype ContentType = Collection | Episode | Screencast

  datatype Content = Content(id: int, contentType: ContentType, videoIdentifier: Option<int>)

  /** A download record joined with its content, as the queue manager emits it. */
  datatype QueueItem = QueueItem(download: Download, content: Content)

  /** The quality tag of a resolved rendition. */
  datatype AttachmentKind = SdVideoFile | HdVideoFile | Stream

  datatype Attachment = Attachment(kind: AttachmentKind, url: Url)

  /** The record store: download id to record. */
  type Records = map<DownloadId, Download>

  /** Every record is stored under its own id. */
  ghost predicate KeyedById(records: Records) {
    forall id :: id in records ==> records[id].id == id
  }

  /** At most one record exists per content item. */
  ghost predicate OnePerContent(records: Records) {
    forall a, b :: a in records && b in records && records[a].contentId == records[b].contentId ==> a == b
  }

  ghost predicate WellFormed(records: Records) {
    KeyedById(records) && OnePerContent(records)
  }

  /** `id` is the record for content `contentId`. */
  ghost predicate RecordOf(records: Records, id: DownloadId, contentId: int) {
    id in records && records[id].contentId == contentId
  }

  /**
   * `d` is a copy of a record read from the store earlier: queue items and
   * captured records are read from the store, and a record's content never
   * changes, so a stored record with the same id belongs to the same content.
   */
  ghost predicate CopiedFromStore(records: Records, d: Download) {
    d.id in records ==> records[d.id].contentId == d.contentId
  }

  /** The record a download created for `contentId` starts as. */
  function NewDownload(id: DownloadId, contentId: int): (d: Download)
    ensures d.id == id && d.contentId == contentId && d.state == Pending
    ensures d.remoteUrl.None? && d.fileName.None? && d.lastValidatedAt.None?
  {
    Download(id, contentId, Pending, None, None, None, 0.0)
  }

  /** `a` and `b` have the same id, content and progress; the other fields may differ. */
  predicate SameIdContentAndProgress(a: Download, b: Download) {
    a.id == b.id && a.contentId == b.contentId && a.progress == b.progress
  }

  // ---------------------------------------------------------------------------
  // Record store writes. A write to an id that has no record changes nothing.
  // ---------------------------------------------------------------------------

  /** `update(download:)`: overwrite the record stored under `d.id` with `d`. */
  function Update(records: Records, d: Download): (r: Records)
    ensures r.Keys == records.Keys
    ensures d.id in records ==> r[d.id] == d
    ensures d.id !in records ==> r == records
    ensures forall id :: id in records && id != d.id ==> r[id] == records[id]
  {
    if d.id in records then records[d.id := d] else records
  }

  /** `transitionDownload(withId:to:)`: set one record's state, nothing else. */
  function Transition(records: Records, id: DownloadId, s: State): (r: Records)
    ensures r.Keys == records.Keys
    ensures id in records ==> r[id].state == s && r[id] == records[id].(state := s)
    ensures forall other :: other in records && other != id ==> r[other] == records[other]
  {
    if id in records then records[id := records[id].(state := s)] else records
  }

  /** `updateDownload(withId:withProgress:)`: set one record's progress, nothing else. */
  function UpdateProgress(records: Records, id: DownloadId, p: Progress): (r: Records)
    ensures r.Keys == records.Keys
    ensures id in records ==> r[id].progress == p && r[id] == records[id].(progress := p)
    ensures forall other :: other in records && other != id ==> r[other] == records[other]
  {
    if id in records then records[id := records[id].(progress := p)] else records
  }

  /** `deleteDownload(withId:)`: remove a record; the flag says whether one was there. */
  function DeleteRecord(records: Records, id: DownloadId): (r: (Records, bool))
    ensures r.0.Keys == records.Keys - {id}
    ensures forall other :: other in r.0 ==> r.0[other] == records[other]
    ensures r.1 <==> id in records
  {
    (records - {id}, id in records)
  }

  // ---------------------------------------------------------------------------
  // Local file names: "\(videoId).mp4" and the path it denotes.
  // ---------------------------------------------------------------------------

  function DigitChar(d: nat): (c: char)
    requires d < 10
    ensures '0' <= c <= '9'
  {
    (('0' as int) + d) as char
  }

  /** The decimal digits of `n`, most significant first, without leading zeros. */
  function NatToString(n: nat): (s: string)
    ensures |s| >= 1
    ensures forall i :: 0 <= i < |s| ==> '0' <= s[i] <= '9'
    ensures n < 10 <==> |s| == 1
  {
    if n < 10 then [DigitChar(n)] else NatToString(n / 10) + [DigitChar(n % 10)]
  }

  /** Swift's string interpolation of an `Int`: a leading '-' for negative values. */
  function IntToString(n: int): (s: string)
    ensures |s| >= 1
    ensures s[0] == '-' <==> n < 0
  {
    if n < 0 then "-" + NatToString(-n) else NatToString(n)
  }

  /** The value of a string of decimal digits, most significant first. */
  function DigitsValue(s: string): int {
    if s == [] then 0 else 10 * DigitsValue(s[..|s| - 1]) + (s[|s| - 1] as int - '0' as int)
  }

  /** The value of a rendered integer: decimal digits after an optional leading '-'. */
  function IntValue(s: string): int {
    if |s| > 0 && s[0] == '-' then -DigitsValue(s[1..]) else DigitsValue(s)
  }

  /** The file name `enqueue` gives the video `videoId`. */
  function FileNameFor(videoId: int): (name: string)
    ensures |name| > 4 && name[|name| - 4..] == ".mp4"
  {
    IntToString(videoId) + ".mp4"
  }

  const DownloadsDirectory: Path := "downloads/"

  /** `Download.localUrl`: a function of the file name alone, absent before a name is assigned. */
  function LocalUrl(d: Download): (p: Option<Path>)
    ensures p.Some? <==> d.fileName.Some?
  {
    if d.fileName.Some? then Some(DownloadsDirectory + d.fileName.value) else None
  }

  lemma {:induction false} NatToStringInjective(a: nat, b: nat)
    requires NatToString(a) == NatToString(b)
    ensures a == b
  {
    var sa, sb := NatToString(a), NatToString(b);
    if a < 10 || b < 10 {
      assert |sa| == 1 && |sb| == 1;
      assert sa[0] == DigitChar(a) && sb[0] == DigitChar(b);
    } else {
      var pa, pb := NatToString(a / 10), NatToString(b / 10);
      assert sa == pa + [DigitChar(a % 10)];
      assert sb == pb + [DigitChar(b % 10)];
      assert |pa| == |pb|;
      assert sa[|sa| - 1] == DigitChar(a % 10) && sb[|sb| - 1] == DigitChar(b % 10);
      assert sa[..|pa|] == pa && sb[..|pb|] == pb;
      NatToStringInjective(a / 10, b / 10);
    }
  }

  /** Reading the decimal rendering of `n` back gives `n`. */
  lemma {:induction false} NatToStringValue(n: nat)
    ensures DigitsValue(NatToString(n)) == n
  {
    var s := NatToString(n);
    if n < 10 {
      assert s[..0] == [];
    } else {
      assert s[..|s| - 1] == NatToString(n / 10);
      NatToStringValue(n / 10);
    }
  }

  /** Reading Swift's rendering of `n` back gives `n`, negative values included. */
  lemma {:induction false} IntToStringValue(n: int)
    ensures IntValue(IntToString(n)) == n
  {
    var s := IntToString(n);
    if n < 0 {
      var digits := NatToString(-n);
      assert s == "-" + digits && s[1..] == digits;
      NatToStringValue(-n);
    } else {
      assert s == NatToString(n) && '0' <= s[0] <= '9';
      NatToStringValue(n);
    }
  }

  /** The file name of a video is its id, read back from the name without ".mp4". */
  lemma {:induction false} FileNameForValue(videoId: int)
    ensures var name := FileNameFor(videoId);
      && name[..|name| - 4] == IntToString(videoId)
      && IntValue(name[..|name| - 4]) == videoId
  {
    var name := FileNameFor(videoId);
    assert name[..|name| - 4] == IntToString(videoId);
    IntToStringValue(videoId);
  }

  lemma {:induction false} IntToStringInjective(a: int, b: int)
    requires IntToString(a) == IntToString(b)
    ensures a == b
  {
    var sa := IntToString(a);
    if a < 0 {
      assert b < 0;
      assert sa[1..] == NatToString(-a);
      assert IntToString(b)[1..] == NatToString(-b);
      NatToStringInjective(-a, -b);
    } else {
      assert b >= 0;
      NatToStringInjective(a, b);
    }
  }

  /** Distinct videos never share a local file name. */
  lemma {:induction false} FileNameForInjective(a: int, b: int)
    requires FileNameFor(a) == FileNameFor(b)
    ensures a == b
  {
    var na, nb := FileNameFor(a), FileNameFor(b);
    assert na[..|na| - 4] == IntToString(a);
    assert nb[..|nb| - 4] == IntToString(b);
    IntToStringInjective(a, b);
  }

  /** Two downloads of different videos never map to the same local path. */
  lemma {:induction false} LocalUrlDistinguishesVideos(d1: Download, d2: Download, v1: int, v2: int)
    requires d1.fileName == Some(FileNameFor(v1)) && d2.fileName == Some(FileNameFor(v2))
    requires LocalUrl(d1) == LocalUrl(d2)
    ensures v1 == v2
  {
    var p1, p2 := LocalUrl(d1).value, LocalUrl(d2).value;
    assert p1[|DownloadsDirectory|..] == FileNameFor(v1);
    assert p2[|DownloadsDirectory|..] == FileNameFor(v2);
    FileNameForInjective(v1, v2);
  }
}
