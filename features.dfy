/**
 * The `AdditionalFeatures` object of additional_features.py: the
 * scheduled-download queue and its file, the batch table, and the file
 * operations that touch the download history. Each background thread is
 * one sequential method; what it cannot see (uuid4 values, the title
 * probe, the clock, what the running downloads report) is a parameter.
 */
module Features {
  import opened Wrappers
  import opened Naming
  import opened FileNames
  import opened Downloads
  import opened Scheduling
  import opened Batches
  import opened History

  class AdditionalFeatures {
    const downloader: YouTubeDownloader
    /** `scheduled_downloads`, and what the last save wrote to 'scheduled.json'. */
    var scheduled: map<string, ScheduleEntry>
    var scheduleFile: map<string, ScheduleEntry>
    /** `batch_downloads`. */
    var batches: map<string, Batch>

    /** The queue starts from what the schedule file holds. */
    constructor(downloader: YouTubeDownloader, saved: map<string, ScheduleEntry>)
      ensures this.downloader == downloader
      ensures scheduled == saved && scheduleFile == saved && batches == map[]
    {
      this.downloader := downloader;
      scheduled := saved;
      scheduleFile := saved;
      batches := map[];
    }

    // -------------------------------------------------------------- scheduler

    /** `schedule_download`: the entry is stored under the new uuid `id` and the queue saved. */
    method ScheduleDownload(req: Request, time: int, id: string) returns (downloadId: string)
      modifies this
      ensures downloadId == id
      ensures scheduled == old(scheduled)[id := ScheduleEntry(req, time)]
      ensures scheduleFile == scheduled
      ensures batches == old(batches)
    {
      downloadId := id;
      scheduled := scheduled[downloadId := ScheduleEntry(req, time)];
      scheduleFile := scheduled;
    }

    /** `cancel_scheduled_download`: only a known id is removed, and then the queue is saved. */
    method CancelScheduled(id: string) returns (found: bool)
      modifies this
      ensures found <==> id in old(scheduled)
      ensures found ==> scheduled == old(scheduled) - {id} && scheduleFile == scheduled
      ensures !found ==> scheduled == old(scheduled) && scheduleFile == old(scheduleFile)
      ensures batches == old(batches)
    {
      if id in scheduled {
        scheduled := scheduled - {id};
        scheduleFile := scheduled;
        found := true;
      } else {
        found := false;
      }
    }

    /**
     * One pass of `_scheduler_loop` at time `now`, visiting the keys in the
     * dictionary's order `order`: every due entry starts one download (with
     * the uuid, title and timestamp `launches` gives for it) and is removed;
     * the rest stay; the queue is saved only when something was removed.
     */
    method PollScheduler(now: int, order: seq<string>, launches: map<string, Launch>) returns (started: seq<string>)
      requires Enumerates(order, scheduled.Keys)
      requires DueKeys(scheduled, now) <= launches.Keys
      modifies this, downloader
      ensures started == DueInOrder(old(scheduled), now, order)
      ensures scheduled == Pending(old(scheduled), now)
      ensures downloader.active == Launched(old(downloader.active), old(scheduled), now, order, launches)
      ensures scheduleFile == if started == [] then old(scheduleFile) else scheduled
      ensures batches == old(batches)
    {
      var toRemove := StartDue(now, order, launches);
      started := toRemove;
      DueInOrderKeys(scheduled, now, order);
      ghost var afterStart := downloader.active;
      for i := 0 to |toRemove|
        invariant scheduled == old(scheduled) - Elements(toRemove[..i])
        invariant scheduleFile == old(scheduleFile) && batches == old(batches)
        invariant downloader.active == afterStart
      {
        RemoveNext(old(scheduled), toRemove, i);
        scheduled := scheduled - {toRemove[i]};
      }
      assert toRemove[..|toRemove|] == toRemove;
      PendingIsRemoval(old(scheduled), now);
      if toRemove != [] {
        scheduleFile := scheduled;
      }
    }

    /** The first loop of a pass: start every due entry and list its key. */
    method StartDue(now: int, order: seq<string>, launches: map<string, Launch>) returns (toRemove: seq<string>)
      requires forall i :: 0 <= i < |order| ==> order[i] in scheduled
      requires DueKeys(scheduled, now) <= launches.Keys
      modifies downloader
      ensures toRemove == DueInOrder(scheduled, now, order)
      ensures downloader.active == Launched(old(downloader.active), scheduled, now, order, launches)
    {
      var queue := scheduled;
      toRemove := [];
      for i := 0 to |order|
        invariant toRemove == DueInOrder(queue, now, order[..i])
        invariant downloader.active == Launched(old(downloader.active), queue, now, order[..i], launches)
      {
        assert order[..i + 1][..i] == order[..i];
        var k := order[i];
        var entry := queue[k];
        if now >= entry.time {
          assert k in DueKeys(queue, now);
          var launch := launches[k];
          var downloadId, job := downloader.DownloadVideo(entry.request, launch.downloadId, launch.title, launch.stamp);
          toRemove := toRemove + [k];
        }
      }
      assert order[..|order|] == order;
    }

    // -------------------------------------------------------------- batches

    /** `batch_download`: a new batch under the uuid `id`; its thread is `BatchDownloadThread`. */
    method BatchDownload(urls: seq<string>, id: string) returns (batchId: string)
      modifies this
      ensures batchId == id
      ensures batches == old(batches)[id := NewBatch(urls)]
      ensures scheduled == old(scheduled) && scheduleFile == old(scheduleFile)
    {
      batchId := id;
      batches := batches[batchId := NewBatch(urls)];
    }

    /**
     * `_wait_for_download`: up to 600 polls; each copies the download's
     * status into the batch, 'completed' counts a success, 'error',
     * 'cancelled', a missing id or running out of polls a failure.
     */
    method WaitForDownload(batchId: string, downloadId: string, polls: nat -> Option<Status>) returns (succeeded: bool)
      requires batchId in batches && downloadId in batches[batchId].downloads
      modifies this
      ensures var b := old(batches)[batchId];
        var end := Settle(polls, 0, b.downloads[downloadId].status);
        batches == old(batches)[batchId := Tally(b, downloadId, end)] && succeeded == end.succeeded
      ensures scheduled == old(scheduled) && scheduleFile == old(scheduleFile)
    {
      ghost var b := batches[batchId];
      ghost var last := b.downloads[downloadId].status;
      ObserveCurrent(b, downloadId);
      var checks: nat := 0;
      while checks < MaxChecks
        invariant checks <= MaxChecks
        invariant batches == old(batches)[batchId := Observe(b, downloadId, last)]
        invariant Settle(polls, 0, b.downloads[downloadId].status) == Settle(polls, checks, last)
        invariant scheduled == old(scheduled) && scheduleFile == old(scheduleFile)
        decreases MaxChecks - checks
      {
        var observed := polls(checks);
        if observed.None? {
          FailIsTally(b, downloadId, last);
          batches := batches[batchId := Fail(batches[batchId])];
          return false;
        }
        var status := observed.value;
        ObserveTwice(b, downloadId, last, Observed(status));
        batches := batches[batchId := Observe(batches[batchId], downloadId, Observed(status))];
        last := Observed(status);
        if status == Completed {
          CompleteIsTally(b, downloadId, last);
          var batch := batches[batchId];
          batches := batches[batchId := batch.(completed := batch.completed + 1)];
          return true;
        } else if status == Error || status == Cancelled {
          FailIsTally(b, downloadId, last);
          batches := batches[batchId := Fail(batches[batchId])];
          return false;
        }
        checks := checks + 1;
      }
      FailIsTally(b, downloadId, last);
      batches := batches[batchId := Fail(batches[batchId])];
      succeeded := false;
    }

    /** One URL of `_batch_download_thread`. */
    method DownloadMember(batchId: string, url: string, options: Request, run: MemberRun)
      requires batchId in batches
      modifies this, downloader
      ensures batches == old(batches)[batchId := Step(old(batches)[batchId], url, run)]
      ensures downloader.active == old(downloader.active)[run.downloadId := NewRecord(OutputFilename(run.title, url, run.stamp))]
      ensures scheduled == old(scheduled) && scheduleFile == old(scheduleFile)
    {
      ghost var before := batches[batchId];
      ghost var raised := before.(inProgress := before.inProgress + 1);
      ghost var tracked := raised.(downloads := raised.downloads[run.downloadId := Member(url, InProgress)]);
      ghost var waited := Tally(tracked, run.downloadId, Settle(run.polls, 0, InProgress));
      StepThroughCounter(before, url, run);
      var batch := batches[batchId];
      batches := batches[batchId := batch.(inProgress := batch.inProgress + 1)];
      var downloadId, job := downloader.DownloadVideo(options.(url := url), run.downloadId, run.title, run.stamp);
      batch := batches[batchId];
      batches := batches[batchId := batch.(downloads := batch.downloads[downloadId := Member(url, InProgress)])];
      assert batches == old(batches)[batchId := tracked];
      var succeeded := WaitForDownload(batchId, downloadId, run.polls);
      assert batches == old(batches)[batchId := waited];
      batch := batches[batchId];
      batches := batches[batchId := batch.(inProgress := batch.inProgress - 1)];
    }

    /**
     * `_batch_download_thread`: for every URL, `in_progress` goes up, the
     * download is registered and tracked, waited for, and `in_progress`
     * goes down; then the batch is marked completed. `options` carries the
     * other arguments of `download_video`.
     */
    method BatchDownloadThread(batchId: string, urls: seq<string>, options: Request, runs: seq<MemberRun>)
      requires batchId in batches && |runs| == |urls|
      modifies this, downloader
      ensures batches == old(batches)[batchId := RunBatch(old(batches)[batchId], urls, runs).(status := BatchCompleted)]
      ensures downloader.active == Registered(old(downloader.active), urls, runs)
      ensures scheduled == old(scheduled) && scheduleFile == old(scheduleFile)
    {
      for i := 0 to |urls|
        invariant batchId in batches
        invariant batches == old(batches)[batchId := RunBatch(old(batches)[batchId], urls[..i], runs[..i])]
        invariant downloader.active == Registered(old(downloader.active), urls[..i], runs[..i])
        invariant scheduled == old(scheduled) && scheduleFile == old(scheduleFile)
      {
        RunBatchNext(old(batches)[batchId], urls, runs, i);
        RegisteredNext(old(downloader.active), urls, runs, i);
        DownloadMember(batchId, urls[i], options, runs[i]);
      }
      assert urls[..|urls|] == urls && runs[..|runs|] == runs;
      var batch := batches[batchId];
      batches := batches[batchId := batch.(status := BatchCompleted)];
    }

    // -------------------------------------------------------------- files

    /**
     * `_update_history_filename`: entries on `oldPath` move to `newPath`
     * and take their title from the new name, one entry at a time.
     */
    method UpdateHistoryFilename(oldPath: string, newPath: string)
      modifies downloader.storage
      ensures downloader.storage.history == RenamedHistory(old(downloader.storage.history), oldPath, newPath)
      ensures downloader.storage.files == old(downloader.storage.files)
    {
      var storage := downloader.storage;
      for i := 0 to |storage.history|
        invariant |storage.history| == |old(storage.history)|
        invariant forall j :: 0 <= j < i ==> storage.history[j] == Retitled(old(storage.history)[j], oldPath, newPath)
        invariant forall j :: i <= j < |storage.history| ==> storage.history[j] == old(storage.history)[j]
        invariant storage.files == old(storage.files)
      {
        var entry := storage.history[i];
        if entry.path == oldPath {
          storage.history := storage.history[i := entry.(path := newPath, title := TitleOf(newPath))];
        }
      }
    }

    /**
     * `rename_file`: the file keeps its directory and extension under the
     * new name, and its history entries follow it. Renaming a missing file
     * fails and changes nothing.
     */
    method RenameFile(filePath: string, newName: string) returns (newPath: Option<string>)
      modifies downloader.storage
      ensures newPath.Some? <==> filePath in old(downloader.storage.files)
      ensures newPath.Some? ==>
        && newPath.value == RenamedPath(filePath, newName)
        && downloader.storage.files == Moved(old(downloader.storage.files), filePath, newPath.value)
        && downloader.storage.history == RenamedHistory(old(downloader.storage.history), filePath, newPath.value)
      ensures newPath.None? ==> unchanged(downloader.storage)
    {
      var storage := downloader.storage;
      if filePath !in storage.files {
        return None;
      }
      var target := RenamedPath(filePath, newName);
      storage.files := Moved(storage.files, filePath, target);
      UpdateHistoryFilename(filePath, target);
      newPath := Some(target);
    }
  }

  /** A poll's copy of the download's status into the batch. */
  function Observe(b: Batch, id: string, status: MemberStatus): Batch
    requires id in b.downloads
  {
    b.(downloads := b.downloads[id := b.downloads[id].(status := status)])
  }

  function Fail(b: Batch): Batch {
    b.(failed := b.failed + 1)
  }

  lemma ObserveCurrent(b: Batch, id: string)
    requires id in b.downloads
    ensures Observe(b, id, b.downloads[id].status) == b
  {
    assert b.downloads[id := b.downloads[id]] == b.downloads;
  }

  lemma ObserveTwice(b: Batch, id: string, first: MemberStatus, second: MemberStatus)
    requires id in b.downloads
    ensures Observe(Observe(b, id, first), id, second) == Observe(b, id, second)
  {
  }

  /** Counting a failure after the last observation is the tally of a failed wait. */
  lemma FailIsTally(b: Batch, id: string, last: MemberStatus)
    requires id in b.downloads
    ensures Fail(Observe(b, id, last)) == Tally(b, id, WaitEnd(false, last))
  {
  }

  /** Counting a success after the last observation is the tally of a successful wait. */
  lemma CompleteIsTally(b: Batch, id: string, last: MemberStatus)
    requires id in b.downloads
    ensures var o := Observe(b, id, last);
      o.(completed := o.completed + 1) == Tally(b, id, WaitEnd(true, last))
  {
  }

  /** Raising `in_progress` around one URL's wait leaves the step of the batch specification. */
  lemma StepThroughCounter(b: Batch, url: string, run: MemberRun)
    ensures var raised := b.(inProgress := b.inProgress + 1);
      var tracked := raised.(downloads := raised.downloads[run.downloadId := Member(url, InProgress)]);
      var waited := Tally(tracked, run.downloadId, Settle(run.polls, 0, InProgress));
      waited.(inProgress := waited.inProgress - 1) == Step(b, url, run)
  {
  }
}
