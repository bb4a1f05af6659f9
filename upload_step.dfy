/**
 * The upload step of a project: one CSV of prospects, a mapping of four
 * prospect fields to CSV columns, and two video slots (the first required,
 * the second optional). The React component's four `useState` hooks become
 * the four fields of `UploadSession`; every handler becomes a method whose
 * `modifies` clause names exactly the fields its setters write.
 */
module UploadStep {
  import opened Wrappers
  import Text

  /** One tokenised CSV row: its cells, as text. */
  type Row = seq<string>

  /** Number of data rows kept for the on-screen preview. */
  const PreviewSize: nat := 5

  /**
   * `CSVData`. `headers` is `None` when the parser produced no row at all:
   * `results.data[0]` is then `undefined`.
   */
  datatype CsvData = CsvData(headers: Option<Row>, data: seq<Row>, preview: seq<Row>)

  /** What `Papa.parse` hands to its callbacks, with empty lines already skipped. */
  datatype ParseResult = Parsed(rows: seq<Row>) | ParseFailed(message: string)

  /** A browser `File`: only its name and declared MIME type matter here. */
  datatype File = File(name: string, mimeType: string)

  /** A handle made by `URL.createObjectURL`. */
  datatype ObjectUrl = ObjectUrl(id: nat)

  /** `FileUpload`: one video slot. */
  datatype FileUpload = FileUpload(file: Option<File>, url: Option<ObjectUrl>, preview: Option<ObjectUrl>)

  const EmptyUpload: FileUpload := FileUpload(None, None, None)

  /** The four prospect fields a column can be chosen for. */
  datatype MappingField = FirstName | LastName | Company | WebsiteUrl

  /** `columnMapping`: the column name chosen for each field, `""` when none is. */
  datatype ColumnMapping = ColumnMapping(firstName: string, lastName: string, company: string, websiteUrl: string)
  {
    function Get(field: MappingField): string
    {
      match field
      case FirstName => firstName
      case LastName => lastName
      case Company => company
      case WebsiteUrl => websiteUrl
    }

    /** `prev => ({ ...prev, [field]: column })`: one field takes the new value, whatever it is. */
    function With(field: MappingField, column: string): (m: ColumnMapping)
      ensures m.Get(field) == column
      ensures forall other :: other != field ==> m.Get(other) == Get(other)
    {
      match field
      case FirstName => this.(firstName := column)
      case LastName => this.(lastName := column)
      case Company => this.(company := column)
      case WebsiteUrl => this.(websiteUrl := column)
    }

    /** Every field has a non-empty column name; whether it is a header of the CSV is not checked. */
    function IsComplete(): (complete: bool)
      ensures complete <==> forall field :: Get(field) != ""
    {
      assert Get(FirstName) == firstName && Get(LastName) == lastName;
      assert Get(Company) == company && Get(WebsiteUrl) == websiteUrl;
      firstName != "" && lastName != "" && company != "" && websiteUrl != ""
    }
  }

  const EmptyMapping: ColumnMapping := ColumnMapping("", "", "", "")

  /** Which slot `handleVideoUpload` is called for (the TypeScript type `1 | 2`). */
  type VideoNumber = n: int | n == 1 || n == 2 witness 1

  /** The argument of `removeFile`. */
  datatype FileKind = Csv | Video1 | Video2

  /** What the CSV handler reports (its toasts). */
  datatype CsvOutcome = NoCsvFile | CsvLoaded(rowCount: nat) | CsvReadError(message: string)

  /** What the video handler reports (its toasts). */
  datatype VideoOutcome = NoVideoFile | NotAVideo | VideoAttached(url: ObjectUrl)

  function Min(a: nat, b: nat): nat
  {
    if a <= b then a else b
  }

  /**
   * The `complete` callback's split of the parsed rows: the first row is the
   * header row, every later row is data, and the preview is the first
   * `PreviewSize` data rows.
   */
  function FromRows(rows: seq<Row>): (csv: CsvData)
    ensures |rows| == 0 ==> csv.headers == None && csv.data == []
    ensures |rows| > 0 ==> csv.headers == Some(rows[0]) && [rows[0]] + csv.data == rows
    ensures |csv.preview| == Min(PreviewSize, |csv.data|) && csv.preview <= csv.data
  {
    var headers := if |rows| > 0 then Some(rows[0]) else None;
    var data := if |rows| > 0 then rows[1..] else [];
    assert |rows| > 0 ==> [rows[0]] + data == rows;
    CsvData(headers, data, data[..Min(PreviewSize, |data|)])
  }

  /** `file.type.startsWith("video/")`: the type is "video/" followed by any subtype, the empty one included. */
  function IsVideo(file: File): (ok: bool)
    ensures ok <==> |file.mimeType| >= 6 && file.mimeType == "video/" + file.mimeType[6..]
  {
    Text.StartsWith(file.mimeType, "video/")
  }

  /** `canProceed`: it reads the CSV, the first video slot and the mapping, and nothing else. */
  function CanProceed(csv: Option<CsvData>, video1: FileUpload, mapping: ColumnMapping): (ok: bool)
    ensures ok <==> csv.Some? && video1.file.Some? && forall field :: mapping.Get(field) != ""
  {
    csv.Some? && video1.file.Some? && mapping.IsComplete()
  }

  /** The check accepts any "video/" subtype and refuses other media families and near misses. */
  lemma IsVideoExamples()
    ensures IsVideo(File("clip.mp4", "video/mp4")) && IsVideo(File("clip", "video/"))
    ensures !IsVideo(File("notes.txt", "text/plain")) && !IsVideo(File("song.mp3", "audio/mpeg"))
    ensures !IsVideo(File("clip.mp4", "Video/mp4")) && !IsVideo(File("clip", "video"))
  {
    assert "video/mp4"[..6] == "video/";
    assert "video/"[..6] == "video/";
    assert "text/plain"[..6] != "video/" by { assert "text/plain"[0] != 'v'; }
    assert "audio/mpeg"[..6] != "video/" by { assert "audio/mpeg"[0] != 'v'; }
    assert "Video/mp4"[..6] != "video/" by { assert "Video/mp4"[0] != 'v'; }
  }

  /** The handle a slot holds, as a set (empty for an empty slot). */
  function UrlsOf(slot: FileUpload): set<ObjectUrl>
  {
    if slot.url.Some? then {slot.url.value} else {}
  }

  /** A slot is empty or full, shows its own url as preview, and holds a live handle. */
  ghost predicate SlotValid(slot: FileUpload, live: set<ObjectUrl>)
  {
    && slot.preview == slot.url
    && (slot.file.Some? <==> slot.url.Some?)
    && UrlsOf(slot) <= live
  }

  /**
   * The browser's object-URL table: `createObjectURL` draws a fresh handle
   * from a counter and makes it live; `revokeObjectURL` makes it dead.
   */
  class ObjectUrls {
    var next: nat
    ghost var live: set<ObjectUrl>

    ghost predicate Valid()
      reads this
    {
      forall u :: u in live ==> u.id < next
    }

    constructor ()
      ensures Valid() && next == 0 && live == {}
    {
      next := 0;
      live := {};
    }

    /** `URL.createObjectURL(file)` */
    method Create(file: File) returns (u: ObjectUrl)
      requires Valid()
      modifies this
      ensures Valid()
      ensures u == ObjectUrl(old(next)) && next == old(next) + 1
      ensures u !in old(live) && live == old(live) + {u}
    {
      u := ObjectUrl(next);
      next := next + 1;
      live := live + {u};
    }

    /** `URL.revokeObjectURL(u)`; harmless on a handle that is already dead. */
    method Revoke(u: ObjectUrl)
      requires Valid()
      modifies this
      ensures Valid()
      ensures live == old(live) - {u} && next == old(next)
    {
      live := live - {u};
    }
  }

  class UploadSession {
    var csvData: Option<CsvData>
    var columnMapping: ColumnMapping
    var video1: FileUpload
    var video2: FileUpload
    const urls: ObjectUrls

    /** Both slots are well formed and never share a handle. */
    ghost predicate Valid()
      reads this, urls
    {
      && urls.Valid()
      && SlotValid(video1, urls.live)
      && SlotValid(video2, urls.live)
      && UrlsOf(video1) !! UrlsOf(video2)
    }

    function Slot(n: VideoNumber): FileUpload
      reads this`video1, this`video2
    {
      if n == 1 then video1 else video2
    }

    /** Live handles that no slot refers to any more: nothing can revoke them. */
    ghost function Leaked(): set<ObjectUrl>
      reads this, urls
    {
      urls.live - UrlsOf(video1) - UrlsOf(video2)
    }

    /** The component's initial state. */
    constructor (urls: ObjectUrls)
      requires urls.Valid()
      ensures Valid() && this.urls == urls
      ensures csvData == None && columnMapping == EmptyMapping
      ensures video1 == EmptyUpload && video2 == EmptyUpload
    {
      csvData := None;
      columnMapping := EmptyMapping;
      video1 := EmptyUpload;
      video2 := EmptyUpload;
      this.urls := urls;
    }

    /**
     * `handleCSVUpload`, with the parser's verdict as an input. Only a
     * successful parse writes `csvData`; the mapping is NOT reset, so column
     * names chosen for an earlier file survive.
     */
    method HandleCsvUpload(file: Option<File>, parsed: ParseResult) returns (outcome: CsvOutcome)
      requires Valid()
      modifies this`csvData
      ensures Valid()
      ensures file.None? ==> outcome == NoCsvFile && csvData == old(csvData)
      ensures file.Some? && parsed.ParseFailed? ==>
        outcome == CsvReadError(parsed.message) && csvData == old(csvData)
      ensures file.Some? && parsed.Parsed? ==>
        csvData == Some(FromRows(parsed.rows)) && outcome == CsvLoaded(|csvData.value.data|)
      ensures columnMapping == old(columnMapping) && video1 == old(video1) && video2 == old(video2)
    {
      if file.None? {
        return NoCsvFile;
      }
      match parsed
      case Parsed(rows) =>
        var csv := FromRows(rows);
        csvData := Some(csv);
        outcome := CsvLoaded(|csv.data|);
      case ParseFailed(message) =>
        outcome := CsvReadError(message);
    }

    /** One of the four `onValueChange` setters: any value is stored as given. */
    method SetMapping(field: MappingField, column: string)
      requires Valid()
      modifies this`columnMapping
      ensures Valid()
      ensures columnMapping == old(columnMapping).With(field, column)
      ensures csvData == old(csvData) && video1 == old(video1) && video2 == old(video2)
    {
      columnMapping := columnMapping.With(field, column);
    }

    /**
     * `handleVideoUpload`. A file whose type does not start with "video/" is
     * refused and nothing changes. An accepted file gets a fresh handle that
     * becomes the slot's url and preview; the slot's previous handle is not
     * revoked and stays live (it moves to `Leaked()`).
     */
    method HandleVideoUpload(file: Option<File>, n: VideoNumber) returns (outcome: VideoOutcome)
      requires Valid()
      modifies this`video1, this`video2, urls
      ensures Valid()
      ensures outcome.VideoAttached? <==> file.Some? && IsVideo(file.value)
      ensures file.None? ==> outcome == NoVideoFile
      ensures file.Some? && !IsVideo(file.value) ==> outcome == NotAVideo
      ensures !outcome.VideoAttached? ==>
        video1 == old(video1) && video2 == old(video2) && urls.live == old(urls.live) && urls.next == old(urls.next)
      ensures outcome.VideoAttached? ==>
        && outcome.url.id == old(urls.next) && urls.next == old(urls.next) + 1
        && outcome.url !in old(urls.live)
        && urls.live == old(urls.live) + {outcome.url}
        && Slot(n) == FileUpload(file, Some(outcome.url), Some(outcome.url))
        && Slot(3 - n) == old(Slot(3 - n))
        && Leaked() == old(Leaked()) + UrlsOf(old(Slot(n)))
      ensures csvData == old(csvData) && columnMapping == old(columnMapping)
    {
      if file.None? {
        return NoVideoFile;
      }
      if !IsVideo(file.value) {
        return NotAVideo;
      }
      var url := urls.Create(file.value);
      var state := FileUpload(file, Some(url), Some(url));
      if n == 1 {
        video1 := state;
      } else {
        video2 := state;
      }
      outcome := VideoAttached(url);
    }

    /**
     * `removeFile`. The CSV case clears the data and the whole mapping. A video
     * case revokes the slot's handle when it has one and empties the slot; on
     * an empty slot it revokes nothing.
     */
    method RemoveFile(kind: FileKind)
      requires Valid()
      modifies this`csvData, this`columnMapping, this`video1, this`video2, urls
      ensures Valid()
      ensures urls.next == old(urls.next)
      ensures kind == Csv ==>
        && csvData == None && columnMapping == EmptyMapping
        && video1 == old(video1) && video2 == old(video2) && urls.live == old(urls.live)
      ensures kind == Video1 ==>
        && video1 == EmptyUpload && urls.live == old(urls.live) - UrlsOf(old(video1))
        && csvData == old(csvData) && columnMapping == old(columnMapping) && video2 == old(video2)
      ensures kind == Video2 ==>
        && video2 == EmptyUpload && urls.live == old(urls.live) - UrlsOf(old(video2))
        && csvData == old(csvData) && columnMapping == old(columnMapping) && video1 == old(video1)
      ensures kind != Csv ==> Leaked() == old(Leaked())
    {
      match kind
      case Csv =>
        csvData := None;
        columnMapping := EmptyMapping;
      case Video1 =>
        if video1.url.Some? {
          urls.Revoke(video1.url.value);
        }
        video1 := EmptyUpload;
      case Video2 =>
        if video2.url.Some? {
          urls.Revoke(video2.url.value);
        }
        video2 := EmptyUpload;
    }

    /** `handleNext`: answers whether `onNext` is called, which is exactly when `canProceed` holds. */
    method HandleNext() returns (callsOnNext: bool)
      ensures callsOnNext == CanProceed(csvData, video1, columnMapping)
    {
      callsOnNext := CanProceed(csvData, video1, columnMapping);
    }
  }

  /**
   * Two accepted uploads to the same slot with no removal in between: the
   * slot ends up with the second handle and the first one is still live,
   * referenced by no slot.
   */
  method AttachTwice(session: UploadSession, first: File, second: File, n: VideoNumber)
    returns (firstUrl: ObjectUrl, secondUrl: ObjectUrl)
    requires session.Valid() && IsVideo(first) && IsVideo(second)
    modifies session`video1, session`video2, session.urls
    ensures session.Valid()
    ensures firstUrl != secondUrl
    ensures session.Slot(n).url == Some(secondUrl)
    ensures {firstUrl, secondUrl} <= session.urls.live
    ensures firstUrl in session.Leaked()
  {
    var a := session.HandleVideoUpload(Some(first), n);
    firstUrl := a.url;
    var b := session.HandleVideoUpload(Some(second), n);
    secondUrl := b.url;
  }

  /**
   * Attach, remove, attach again: the second upload gets a new handle, never
   * the revoked first one, which stays dead.
   */
  method AttachRemoveAttach(session: UploadSession, first: File, second: File, n: VideoNumber)
    returns (firstUrl: ObjectUrl, secondUrl: ObjectUrl)
    requires session.Valid() && IsVideo(first) && IsVideo(second)
    modifies session`video1, session`video2, session`csvData, session`columnMapping, session.urls
    ensures session.Valid()
    ensures firstUrl != secondUrl
    ensures session.Slot(n).url == Some(secondUrl)
    ensures firstUrl !in session.urls.live && secondUrl in session.urls.live
  {
    var a := session.HandleVideoUpload(Some(first), n);
    firstUrl := a.url;
    session.RemoveFile(if n == 1 then Video1 else Video2);
    var b := session.HandleVideoUpload(Some(second), n);
    secondUrl := b.url;
  }
}
