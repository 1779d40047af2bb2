/**
 * The download tracker of youtube_downloader.py: `active_downloads`, the
 * table of download records, and the steps that change it. `download_video`
 * registers a record, `_progress_hook` follows yt-dlp's progress events,
 * `_download_thread` finishes the download (compression, completion,
 * history, error classes), `cancel_download` and `get_download_status` look
 * a record up. The background thread is one sequential step whose outside
 * effects (what yt-dlp fetched, what ffmpeg did, whether the rate-limit retry
 * raised) are parameters.
 */
module Downloads {
  import opened Wrappers
  import opened Text
  import opened Resolutions
  import opened Naming
  import opened PostProcess
  import opened Display

  datatype Status = Starting | Downloading | Processing | Compressing | Completed | Error | Cancelled

  /** The 'size' text: 'Calculating...', `_format_size(total)`, or the same followed by ' (est.)'. */
  datatype SizeLabel = Calculating | Exact(bytes: int) | Estimated(bytes: int)

  /** The 'speed' text: '0 KB/s', or `_format_size(speed) + '/s'`. */
  datatype SpeedLabel = NoSpeed | Measured(bytesPerSecond: int)

  /** One value of `active_downloads`; `error` is `None` while the key is missing. */
  datatype Record = Record(
    status: Status,
    progress: real,
    filename: string,
    speed: SpeedLabel,
    eta: string,
    size: SizeLabel,
    downloadedBytes: int,
    totalBytes: int,
    outputPath: Option<string>,
    error: Option<string>)

  /** The `download_dir` dictionary: where videos and where audio go. */
  datatype DownloadDirs = DownloadDirs(videos: string, audio: string)

  /** The arguments of `download_video`. */
  datatype Request = Request(
    url: string,
    formatId: string,
    resolution: string,
    compression: string,
    dirs: DownloadDirs,
    cookies: Option<string>)

  /** What `download_video` hands to the background thread. */
  datatype Job = Job(id: string, url: string, selector: string, template: string, compression: string, audioOnly: bool)

  /** A file on disk: downloaded from `url`, re-encoded with `crf` when compression replaced it. */
  datatype MediaFile = MediaFile(url: string, crf: Option<int>)

  /** One entry of the download history file. */
  datatype HistoryEntry = HistoryEntry(
    id: string,
    title: string,
    container: string,
    resolution: string,
    path: string,
    date: string)

  /** The part of yt-dlp's answer the thread reads. */
  datatype DownloadInfo = DownloadInfo(title: Option<string>, height: HeightField, requestedPath: Option<string>)

  /** `extract_info(url, download=True)`: information, nothing, or an exception with its text. */
  datatype Fetch = Fetched(info: DownloadInfo) | NothingFetched | FetchRaised(message: string)

  /**
   * ffmpeg and the replacement: the compressed file was produced and renamed
   * over the download, was not produced, ffmpeg raised, or the download was
   * removed and then the rename raised (the download is gone).
   */
  datatype Compress = Compressed | NotProduced | CompressRaised | RenameRaised

  /** The second `extract_info` call on the rate-limit path returned, or raised. */
  datatype Retry = RetrySucceeded | RetryFailed

  const DownloadFailure: string := "Failed to download video"

  // ---------------------------------------------------------------- registration

  /** The record `download_video` inserts. */
  function NewRecord(filename: string): Record {
    Record(Starting, 0.0, filename, NoSpeed, "Unknown", Calculating, 0, 0, None, None)
  }

  /** The job `download_video` starts for a request, a download id, a probed title and a timestamp. */
  function JobFor(req: Request, id: string, title: Option<string>, stamp: string): Job {
    var audioOnly := req.resolution == "audio";
    Job(
      id, req.url,
      if audioOnly then "bestaudio/best" else req.formatId + "/best",
      OutputTemplate(OutputDir(req.resolution, req.dirs.audio, req.dirs.videos), OutputFilename(title, req.url, stamp)),
      req.compression,
      audioOnly)
  }

  // ---------------------------------------------------------------- progress events

  datatype Phase = DownloadingPhase | FinishedPhase | OtherPhase

  /**
   * One progress dictionary `d`; `None` for a missing key. `speed` and `eta`
   * count only when present and non-zero, as the source tests `d['speed']`.
   */
  datatype HookEvent = HookEvent(
    phase: Phase,
    totalBytes: Option<int>,
    totalBytesEstimate: Option<int>,
    downloadedBytes: Option<int>,
    speed: Option<int>,
    eta: Option<int>,
    filename: Option<string>)

  /** A 'downloading' event: the total, or else the estimate, becomes the recorded total and size. */
  function SizeStep(r: Record, e: HookEvent): Record {
    if e.totalBytes.Some? then r.(totalBytes := e.totalBytes.value, size := Exact(e.totalBytes.value))
    else if e.totalBytesEstimate.Some? then r.(totalBytes := e.totalBytesEstimate.value, size := Estimated(e.totalBytesEstimate.value))
    else r
  }

  /** The downloaded count is stored; the percentage only when the recorded total is positive. */
  function CountStep(r: Record, e: HookEvent): Record {
    if e.downloadedBytes.Some? then
      var d := e.downloadedBytes.value;
      if r.totalBytes > 0 then r.(downloadedBytes := d, progress := (d as real / r.totalBytes as real) * 100.0)
      else r.(downloadedBytes := d)
    else r
  }

  /** Speed, ETA and file name, each when the event carries it. */
  function RateStep(r: Record, e: HookEvent): Record {
    var r1 := if e.speed.Some? && e.speed.value != 0 then r.(speed := Measured(e.speed.value)) else r;
    var r2 := if e.eta.Some? && e.eta.value != 0 then r1.(eta := FormatEta(e.eta.value)) else r1;
    if e.filename.Some? then r2.(outputPath := Some(e.filename.value)) else r2
  }

  /** The record after one event. */
  function AfterHook(r: Record, e: HookEvent): Record {
    match e.phase
    case OtherPhase => r
    case FinishedPhase => r.(status := Processing, progress := 100.0)
    case DownloadingPhase => RateStep(CountStep(SizeStep(r.(status := Downloading), e), e), e)
  }

  // ---------------------------------------------------------------- the download thread

  /** `info['requested_downloads'][0]['filepath']`, or the template with the container's extension. */
  function DownloadedPath(job: Job, info: DownloadInfo): string {
    if info.requestedPath.Some? then info.requestedPath.value
    else job.template + "." + (if job.audioOnly then "mp3" else "mp4")
  }

  /** The record after the thread, from the record it finds. */
  function Finished(r: Record, job: Job, fetch: Fetch, retry: Retry): Record {
    match fetch
    case NothingFetched => r.(status := Error, error := Some(DownloadFailure))
    case Fetched(info) => r.(outputPath := Some(DownloadedPath(job, info)), status := Completed)
    case FetchRaised(message) =>
      match Classify(message)
      case RateLimited => if retry == RetrySucceeded then r else r.(status := Error, error := Some(message))
      case Challenge => r.(status := Error, error := Some(CaptchaMessage))
      case RightsProtected => r.(status := Error, error := Some(DrmMessage))
      case OtherFailure => r.(status := Error, error := Some(message))
  }

  /** The statuses the thread writes, in order. */
  function Written(job: Job, fetch: Fetch, retry: Retry): seq<Status> {
    match fetch
    case NothingFetched => [Error]
    case Fetched(_) => (if CompressionApplies(job.audioOnly, job.compression) then [Compressing] else []) + [Completed]
    case FetchRaised(message) => if Classify(message) == RateLimited && retry == RetrySucceeded then [] else [Error]
  }

  /**
   * The files on disk after the thread: the download, re-encoded in place when
   * ffmpeg produced a file, and missing when the rename after the removal raised.
   */
  function FilesAfter(files: map<string, MediaFile>, job: Job, fetch: Fetch, compress: Compress): map<string, MediaFile> {
    match fetch
    case Fetched(info) =>
      var path := DownloadedPath(job, info);
      var compressing := CompressionApplies(job.audioOnly, job.compression);
      if compressing && compress == Compressed then files[path := MediaFile(job.url, Some(Crf(job.compression)))]
      else if compressing && compress == RenameRaised then files - {path}
      else files[path := MediaFile(job.url, None)]
    case _ => files
  }

  /** The history entries the thread appends: one for a fetched download, none otherwise. */
  function HistoryAddition(job: Job, fetch: Fetch, date: string): seq<HistoryEntry> {
    match fetch
    case Fetched(info) =>
      [HistoryEntry(
        job.id,
        info.title.GetOr("Unknown Title"),
        if job.audioOnly then "mp3" else "mp4",
        if job.audioOnly then "audio" else ResolutionFromInfo(info.height),
        DownloadedPath(job, info),
        date)]
    case _ => []
  }

  /** The CRF `if`/`elif` chain of `_download_thread`, step by step. */
  method CrfValue(compression: string) returns (crfValue: int)
    ensures crfValue == Crf(compression)
    ensures 0 <= crfValue <= 51
  {
    crfValue := 23;
    if compression == "auto" {
      crfValue := 23;
    } else if compression == "high" {
      crfValue := 18;
    } else if compression == "medium" {
      crfValue := 23;
    } else if compression == "low" {
      crfValue := 28;
    } else {
      match ParseInt(compression)
      case Some(n) =>
        crfValue := n;
        if crfValue < 0 {
          crfValue := 0;
        } else if crfValue > 51 {
          crfValue := 51;
        }
      case None =>
        crfValue := 23;
    }
  }

  // ---------------------------------------------------------------- properties

  /**
   * A 'downloading' event: the status becomes 'downloading' whatever it was
   * (a cancelled record included); an exact total wins over an estimate and
   * only an estimate is labelled as one; without either the size stays.
   */
  lemma HookDownloading(r: Record, e: HookEvent)
    requires e.phase == DownloadingPhase
    ensures AfterHook(r, e).status == Downloading
    ensures e.totalBytes.Some? ==>
      AfterHook(r, e).totalBytes == e.totalBytes.value && AfterHook(r, e).size == Exact(e.totalBytes.value)
    ensures e.totalBytes.None? && e.totalBytesEstimate.Some? ==>
      AfterHook(r, e).totalBytes == e.totalBytesEstimate.value && AfterHook(r, e).size == Estimated(e.totalBytesEstimate.value)
    ensures e.totalBytes.None? && e.totalBytesEstimate.None? ==>
      AfterHook(r, e).totalBytes == r.totalBytes && AfterHook(r, e).size == r.size
    ensures AfterHook(r, e).filename == r.filename && AfterHook(r, e).error == r.error
  {
  }

  /**
   * The percentage is recomputed from the downloaded count and the total just
   * recorded, and only when that total is positive; otherwise it stays.
   */
  lemma HookProgress(r: Record, e: HookEvent)
    requires e.phase == DownloadingPhase
    ensures var t := SizeStep(r, e).totalBytes;
      if e.downloadedBytes.Some? && t > 0 then
        AfterHook(r, e).downloadedBytes == e.downloadedBytes.value
        && AfterHook(r, e).progress * t as real == e.downloadedBytes.value as real * 100.0
      else
        AfterHook(r, e).progress == r.progress
        && AfterHook(r, e).downloadedBytes == (if e.downloadedBytes.Some? then e.downloadedBytes.value else r.downloadedBytes)
  {
    var t := SizeStep(r, e).totalBytes;
    assert SizeStep(r.(status := Downloading), e).totalBytes == t;
    if e.downloadedBytes.Some? && t > 0 {
      var d := e.downloadedBytes.value as real;
      assert AfterHook(r, e).progress == (d / t as real) * 100.0;
      assert (d / t as real) * t as real == d;
    }
  }

  /** While the downloaded count does not exceed a positive total, the percentage lies in [0, 100]. */
  lemma ProgressInRange(r: Record, e: HookEvent)
    requires e.phase == DownloadingPhase && e.downloadedBytes.Some?
    requires 0 <= e.downloadedBytes.value <= SizeStep(r, e).totalBytes && SizeStep(r, e).totalBytes > 0
    ensures 0.0 <= AfterHook(r, e).progress <= 100.0
  {
    var t := SizeStep(r, e).totalBytes;
    assert SizeStep(r.(status := Downloading), e).totalBytes == t;
    var d := e.downloadedBytes.value as real;
    assert AfterHook(r, e).progress == (d / t as real) * 100.0;
    assert 0.0 <= d / t as real <= 1.0;
  }

  /** A 'finished' event sets 'processing' and 100, whatever the status was, and touches nothing else. */
  lemma HookFinished(r: Record, e: HookEvent)
    requires e.phase == FinishedPhase
    ensures AfterHook(r, e).status == Processing && AfterHook(r, e).progress == 100.0
    ensures AfterHook(r, e).(status := r.status, progress := r.progress) == r
  {
  }

  /**
   * A fetched download completes, even from a cancelled record and whatever
   * ffmpeg did. The file stays at the downloaded path, re-encoded only when
   * ffmpeg produced a file, except when the rename after the removal raised:
   * then no file is left there. Either way the one appended history entry
   * points at that path.
   */
  lemma ThreadFetched(r: Record, job: Job, info: DownloadInfo, compress: Compress, retry: Retry,
                      files: map<string, MediaFile>, date: string)
    ensures var path := DownloadedPath(job, info);
      var lost := CompressionApplies(job.audioOnly, job.compression) && compress == RenameRaised;
      && Finished(r, job, Fetched(info), retry).status == Completed
      && Finished(r, job, Fetched(info), retry).outputPath == Some(path)
      && (path in FilesAfter(files, job, Fetched(info), compress) <==> !lost)
      && (!lost ==> FilesAfter(files, job, Fetched(info), compress)[path].url == job.url)
      && (!lost && compress != Compressed ==> FilesAfter(files, job, Fetched(info), compress)[path].crf.None?)
      && |HistoryAddition(job, Fetched(info), date)| == 1
      && HistoryAddition(job, Fetched(info), date)[0].path == path
      && HistoryAddition(job, Fetched(info), date)[0].id == job.id
  {
  }

  /**
   * A raised fetch changes no file and no history. A rate limit whose retry
   * returned leaves the record as it was; every other failure sets 'error',
   * with the fixed CAPTCHA or DRM text for those classes and the exception
   * text otherwise.
   */
  lemma ThreadRaised(r: Record, job: Job, message: string, compress: Compress, retry: Retry,
                     files: map<string, MediaFile>, date: string)
    ensures FilesAfter(files, job, FetchRaised(message), compress) == files
    ensures HistoryAddition(job, FetchRaised(message), date) == []
    ensures Classify(message) == RateLimited && retry == RetrySucceeded ==>
      Finished(r, job, FetchRaised(message), retry) == r
    ensures !(Classify(message) == RateLimited && retry == RetrySucceeded) ==>
      Finished(r, job, FetchRaised(message), retry) == r.(status := Error, error := Some(
        if Classify(message) == Challenge then CaptchaMessage
        else if Classify(message) == RightsProtected then DrmMessage
        else message))
  {
  }

  /**
   * The statuses written and the final record agree: the record ends with the
   * last status written, or is untouched when none was; 'compressing' is
   * written exactly for a fetched video download whose setting is not 'none'.
   */
  lemma {:induction false} WrittenMatchesFinished(r: Record, job: Job, fetch: Fetch, retry: Retry)
    ensures var w := Written(job, fetch, retry);
      && (w != [] ==> Finished(r, job, fetch, retry).status == w[|w| - 1])
      && (w == [] ==> Finished(r, job, fetch, retry) == r)
    ensures Compressing in Written(job, fetch, retry) <==> fetch.Fetched? && CompressionApplies(job.audioOnly, job.compression)
  {
  }

  // ---------------------------------------------------------------- state

  /** The download history file and the files on disk, shared with the additional features. */
  class Storage {
    var files: map<string, MediaFile>
    var history: seq<HistoryEntry>

    constructor(files: map<string, MediaFile>, history: seq<HistoryEntry>)
      ensures this.files == files && this.history == history
    {
      this.files := files;
      this.history := history;
    }
  }

  class YouTubeDownloader {
    var active: map<string, Record>
    const storage: Storage

    constructor(storage: Storage)
      ensures active == map[] && this.storage == storage
    {
      active := map[];
      this.storage := storage;
    }

    /**
     * `download_video` up to the start of the thread. `id` is the fresh
     * uuid4, `title` what the title probe gave (`None` when it raised or
     * found no information), `stamp` the formatted current time.
     */
    method DownloadVideo(req: Request, id: string, title: Option<string>, stamp: string) returns (downloadId: string, job: Job)
      modifies this
      ensures downloadId == id && job == JobFor(req, id, title, stamp)
      ensures active == old(active)[id := NewRecord(OutputFilename(title, req.url, stamp))]
    {
      var isAudioOnly := req.resolution == "audio";
      var outputDir := if isAudioOnly then req.dirs.audio else req.dirs.videos;
      var safeTitle: string;
      if title.Some? && title.value != "" {
        safeTitle := SafeTitle(title.value);
      } else {
        safeTitle := SafeTitle(LastPart(req.url, '/'));
      }
      var outputFilename := safeTitle + "_" + stamp;
      var outputTemplate := OutputTemplate(outputDir, outputFilename);
      var selector := if isAudioOnly then "bestaudio/best" else req.formatId + "/best";
      active := active[id := Record(Starting, 0.0, outputFilename, NoSpeed, "Unknown", Calculating, 0, 0, None, None)];
      downloadId := id;
      job := Job(id, req.url, selector, outputTemplate, req.compression, isAudioOnly);
    }

    /** `_progress_hook`: the fields of the record are overwritten one at a time. */
    method ProgressHook(e: HookEvent, id: string)
      requires id in active
      modifies this
      ensures active == old(active)[id := AfterHook(old(active)[id], e)]
    {
      var rec := active[id];
      if e.phase == DownloadingPhase {
        rec := rec.(status := Downloading);
        ghost var entered := rec;
        if e.totalBytes.Some? {
          rec := rec.(totalBytes := e.totalBytes.value);
          rec := rec.(size := Exact(e.totalBytes.value));
        } else if e.totalBytesEstimate.Some? {
          rec := rec.(totalBytes := e.totalBytesEstimate.value);
          rec := rec.(size := Estimated(e.totalBytesEstimate.value));
        }
        assert rec == SizeStep(entered, e);
        ghost var sized := rec;
        if e.downloadedBytes.Some? {
          var downloadedBytes := e.downloadedBytes.value;
          rec := rec.(downloadedBytes := downloadedBytes);
          var total := rec.totalBytes;
          if total > 0 {
            var progress := (downloadedBytes as real / total as real) * 100.0;
            rec := rec.(progress := progress);
          }
        }
        assert rec == CountStep(sized, e);
        ghost var counted := rec;
        if e.speed.Some? && e.speed.value != 0 {
          rec := rec.(speed := Measured(e.speed.value));
        }
        if e.eta.Some? && e.eta.value != 0 {
          rec := rec.(eta := FormatEta(e.eta.value));
        }
        if e.filename.Some? {
          rec := rec.(outputPath := Some(e.filename.value));
        }
        assert rec == RateStep(counted, e);
      } else if e.phase == FinishedPhase {
        rec := rec.(status := Processing);
        rec := rec.(progress := 100.0);
      }
      active := active[id := rec];
    }

    /**
     * `_download_thread` as one sequential step; `written` lists the statuses
     * it stores, in order.
     */
    method DownloadThread(job: Job, fetch: Fetch, compress: Compress, retry: Retry, date: string)
      returns (written: seq<Status>)
      requires job.id in active
      modifies this, storage
      ensures active == old(active)[job.id := Finished(old(active)[job.id], job, fetch, retry)]
      ensures storage.files == FilesAfter(old(storage.files), job, fetch, compress)
      ensures storage.history == old(storage.history) + HistoryAddition(job, fetch, date)
      ensures written == Written(job, fetch, retry)
    {
      var rec := active[job.id];
      match fetch {
      case NothingFetched =>
        rec := rec.(status := Error);
        written := [Error];
        rec := rec.(error := Some(DownloadFailure));
      case Fetched(info) =>
        var downloadedFile;
        downloadedFile, written := SaveDownload(job, info, compress, date);
        rec := rec.(outputPath := Some(downloadedFile), status := Completed);
      case FetchRaised(message) =>
        var retried;
        rec, written, retried := FailedRecord(job, rec, message, retry);
        if retried {
          return;
        }
      }
      active := active[job.id := rec];
    }

    /**
     * The success branch of `_download_thread`: the downloaded file is
     * recorded, re-encoded in place when compression applies and ffmpeg
     * produced a file (the CRF chain written out as in the source), or lost
     * when the rename after the removal raised; one history entry is appended.
     */
    method SaveDownload(job: Job, info: DownloadInfo, compress: Compress, date: string)
      returns (downloadedFile: string, written: seq<Status>)
      modifies storage
      ensures downloadedFile == DownloadedPath(job, info)
      ensures storage.files == FilesAfter(old(storage.files), job, Fetched(info), compress)
      ensures storage.history == old(storage.history) + HistoryAddition(job, Fetched(info), date)
      ensures written == (if CompressionApplies(job.audioOnly, job.compression) then [Compressing] else []) + [Completed]
    {
      if info.requestedPath.Some? {
        downloadedFile := info.requestedPath.value;
      } else {
        var ext := if job.audioOnly then "mp3" else "mp4";
        downloadedFile := job.template + "." + ext;
      }
      storage.files := storage.files[downloadedFile := MediaFile(job.url, None)];
      written := [];
      if !job.audioOnly && job.compression != "none" {
        written := [Compressing];
        var crfValue := CrfValue(job.compression);
        if compress == Compressed {
          storage.files := storage.files[downloadedFile := MediaFile(job.url, Some(crfValue))];
        } else if compress == RenameRaised {
          storage.files := storage.files - {downloadedFile};
        }
      }
      written := written + [Completed];
      var fileInfo := HistoryEntry(
        job.id,
        info.title.GetOr("Unknown Title"),
        if job.audioOnly then "mp3" else "mp4",
        if job.audioOnly then "audio" else ResolutionFromInfo(info.height),
        downloadedFile,
        date);
      storage.history := storage.history + [fileInfo];
    }

    /**
     * The `except` branch of `_download_thread`: the `if`/`elif` chain over the
     * lower-cased message; `retried` says that the rate-limit retry returned,
     * in which case the thread stops without touching the record.
     */
    method FailedRecord(job: Job, rec: Record, message: string, retry: Retry)
      returns (r: Record, written: seq<Status>, retried: bool)
      ensures retried <==> Classify(message) == RateLimited && retry == RetrySucceeded
      ensures retried ==> r == rec
      ensures r == Finished(rec, job, FetchRaised(message), retry)
      ensures written == Written(job, FetchRaised(message), retry)
    {
      var errorMessage := Lower(message);
      r, retried := rec, false;
      if Contains(errorMessage, "429") || Contains(errorMessage, "too many requests") {
        if retry == RetrySucceeded {
          return rec, [], true;
        }
        r := r.(status := Error);
        r := r.(error := Some(message));
      } else if Contains(errorMessage, "captcha") {
        r := r.(status := Error);
        r := r.(error := Some(CaptchaMessage));
      } else if Contains(errorMessage, "drm") || Contains(errorMessage, "protected") {
        r := r.(status := Error);
        r := r.(error := Some(DrmMessage));
      } else {
        r := r.(status := Error);
        r := r.(error := Some(message));
      }
      written := [Error];
    }

    /** `cancel_download`: marks a known record cancelled; nothing else changes. */
    method CancelDownload(id: string) returns (found: bool)
      modifies this
      ensures found <==> id in old(active)
      ensures found ==> active == old(active)[id := old(active)[id].(status := Cancelled)]
      ensures !found ==> active == old(active)
    {
      if id in active {
        active := active[id := active[id].(status := Cancelled)];
        return true;
      }
      return false;
    }

    /** `get_download_status`: the record, or failure exactly when the id is unknown. */
    method GetDownloadStatus(id: string) returns (r: Option<Record>)
      ensures r.Some? <==> id in active
      ensures r.Some? ==> r.value == active[id]
    {
      if id in active {
        return Some(active[id]);
      }
      return None;
    }
  }
}
