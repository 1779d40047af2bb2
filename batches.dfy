/**
 * The batch bookkeeping of additional_features.py as values: the record
 * `batch_download` creates, what `_wait_for_download` concludes from the
 * statuses it polls, and what `_batch_download_thread` makes of a whole
 * list of URLs. The concurrently running downloads are seen only through
 * the statuses each poll reads.
 */
module Batches {
  import opened Wrappers
  import opened Naming
  import opened Downloads

  datatype BatchStatus = BatchStarting | BatchCompleted

  /** A member's 'status': 'in_progress' until a poll copies the download's status. */
  datatype MemberStatus = InProgress | Observed(status: Status)

  datatype Member = Member(url: string, status: MemberStatus)

  /** One value of `batch_downloads`. */
  datatype Batch = Batch(
    status: BatchStatus,
    total: int,
    completed: int,
    failed: int,
    inProgress: int,
    downloads: map<string, Member>)

  /**
   * One URL of a batch: the uuid and probed title and timestamp its
   * `download_video` call sees, and what poll `k` reads from
   * `active_downloads` (`None` when the id is missing).
   */
  datatype MemberRun = MemberRun(downloadId: string, title: Option<string>, stamp: string, polls: nat -> Option<Status>)

  /** How a wait ends: whether the download completed, and the member status last copied. */
  datatype WaitEnd = WaitEnd(succeeded: bool, last: MemberStatus)

  const MaxChecks: nat := 600

  /** The batch `batch_download` creates for a list of URLs. */
  function NewBatch(urls: seq<string>): Batch {
    Batch(BatchStarting, |urls|, 0, 0, 0, map[])
  }

  /** 'error' and 'cancelled' end a wait as a failure. */
  predicate Failure(s: Status) {
    s == Error || s == Cancelled
  }

  /** The wait from poll `k` on, with `last` the member status so far. */
  function Settle(polls: nat -> Option<Status>, k: nat, last: MemberStatus): WaitEnd
    decreases MaxChecks - k
  {
    if k >= MaxChecks then WaitEnd(false, last)
    else
      match polls(k)
      case None => WaitEnd(false, last)
      case Some(s) =>
        if s == Completed then WaitEnd(true, Observed(s))
        else if Failure(s) then WaitEnd(false, Observed(s))
        else Settle(polls, k + 1, Observed(s))
  }

  /** The end of a wait, counted: one more completed or one more failed download. */
  function Tally(b: Batch, id: string, end: WaitEnd): (t: Batch)
    requires id in b.downloads
    ensures t.completed + t.failed == b.completed + b.failed + 1
    ensures t.total == b.total && t.inProgress == b.inProgress && t.status == b.status
    ensures t.downloads.Keys == b.downloads.Keys && t.downloads[id].url == b.downloads[id].url
  {
    var marked := b.(downloads := b.downloads[id := b.downloads[id].(status := end.last)]);
    if end.succeeded then marked.(completed := b.completed + 1) else marked.(failed := b.failed + 1)
  }

  /** One URL of the batch thread: tracked as 'in_progress', waited for, counted. */
  function Step(b: Batch, url: string, run: MemberRun): Batch {
    var tracked := b.(downloads := b.downloads[run.downloadId := Member(url, InProgress)]);
    Tally(tracked, run.downloadId, Settle(run.polls, 0, InProgress))
  }

  /** The batch after the first `|urls|` URLs. */
  function RunBatch(b: Batch, urls: seq<string>, runs: seq<MemberRun>): Batch
    requires |runs| == |urls|
  {
    if urls == [] then b
    else Step(RunBatch(b, urls[..|urls| - 1], runs[..|runs| - 1]), urls[|urls| - 1], runs[|runs| - 1])
  }

  /** How many of the runs end in a completed download. */
  function Successes(runs: seq<MemberRun>): (n: nat)
    ensures n <= |runs|
  {
    if runs == [] then 0
    else Successes(runs[..|runs| - 1]) + (if Settle(runs[|runs| - 1].polls, 0, InProgress).succeeded then 1 else 0)
  }

  /** The records the batch's `download_video` calls leave in `active_downloads`, in order. */
  function Registered(active: map<string, Record>, urls: seq<string>, runs: seq<MemberRun>): map<string, Record>
    requires |runs| == |urls|
  {
    if urls == [] then active
    else
      var n := |urls| - 1;
      Registered(active, urls[..n], runs[..n])[runs[n].downloadId := NewRecord(OutputFilename(runs[n].title, urls[n], runs[n].stamp))]
  }

  /** One more URL is one more step. */
  lemma RunBatchNext(b: Batch, urls: seq<string>, runs: seq<MemberRun>, i: nat)
    requires |runs| == |urls| && i < |urls|
    ensures RunBatch(b, urls[..i + 1], runs[..i + 1]) == Step(RunBatch(b, urls[..i], runs[..i]), urls[i], runs[i])
  {
    assert urls[..i + 1][..i] == urls[..i] && runs[..i + 1][..i] == runs[..i];
  }

  /** One more URL registers one more record. */
  lemma RegisteredNext(active: map<string, Record>, urls: seq<string>, runs: seq<MemberRun>, i: nat)
    requires |runs| == |urls| && i < |urls|
    ensures Registered(active, urls[..i + 1], runs[..i + 1])
      == Registered(active, urls[..i], runs[..i])[runs[i].downloadId := NewRecord(OutputFilename(runs[i].title, urls[i], runs[i].stamp))]
  {
    assert urls[..i + 1][..i] == urls[..i] && runs[..i + 1][..i] == runs[..i];
  }

  // ---------------------------------------------------------------- properties

  /**
   * A wait succeeds exactly when some poll before the 600th reads 'completed'
   * and every earlier poll found the download in a status that is neither
   * 'completed' nor a failure.
   */
  lemma {:induction false} SettleSucceeds(polls: nat -> Option<Status>, k: nat, last: MemberStatus)
    ensures Settle(polls, k, last).succeeded <==>
      exists c :: k <= c < MaxChecks && polls(c) == Some(Completed) &&
        forall j :: k <= j < c ==> polls(j).Some? && polls(j).value != Completed && !Failure(polls(j).value)
    decreases MaxChecks - k
  {
    if k < MaxChecks && polls(k).Some? && polls(k).value != Completed && !Failure(polls(k).value) {
      SettleSucceeds(polls, k + 1, Observed(polls(k).value));
      if Settle(polls, k, last).succeeded {
        var c :| k + 1 <= c < MaxChecks && polls(c) == Some(Completed) &&
          forall j :: k + 1 <= j < c ==> polls(j).Some? && polls(j).value != Completed && !Failure(polls(j).value);
        assert forall j :: k <= j < c ==> polls(j).Some? && polls(j).value != Completed && !Failure(polls(j).value);
      }
    }
  }

  /** Only the first 600 polls matter. */
  lemma {:induction false} SettleReadsFirstPolls(polls: nat -> Option<Status>, other: nat -> Option<Status>, k: nat, last: MemberStatus)
    requires forall j :: k <= j < MaxChecks ==> polls(j) == other(j)
    ensures Settle(polls, k, last) == Settle(other, k, last)
    decreases MaxChecks - k
  {
    if k < MaxChecks && polls(k).Some? && polls(k).value != Completed && !Failure(polls(k).value) {
      SettleReadsFirstPolls(polls, other, k + 1, Observed(polls(k).value));
    }
  }

  /** A download that never settles within 600 polls counts as failed. */
  lemma {:induction false} NeverSettles(polls: nat -> Option<Status>, k: nat, last: MemberStatus)
    requires forall j :: k <= j < MaxChecks ==> polls(j) == Some(Downloading)
    ensures Settle(polls, k, last) == if k < MaxChecks then WaitEnd(false, Observed(Downloading)) else WaitEnd(false, last)
    decreases MaxChecks - k
  {
    if k < MaxChecks {
      NeverSettles(polls, k + 1, Observed(Downloading));
    }
  }

  /**
   * Every URL adds exactly one to `completed + failed`, `completed` counting
   * the runs that end in 'completed'; `total`, `in_progress` and the status
   * are left as they were.
   */
  lemma {:induction false} BatchConservation(b: Batch, urls: seq<string>, runs: seq<MemberRun>)
    requires |runs| == |urls|
    ensures RunBatch(b, urls, runs).completed + RunBatch(b, urls, runs).failed == b.completed + b.failed + |urls|
    ensures RunBatch(b, urls, runs).completed == b.completed + Successes(runs)
    ensures RunBatch(b, urls, runs).total == b.total
    ensures RunBatch(b, urls, runs).inProgress == b.inProgress
    ensures RunBatch(b, urls, runs).status == b.status
  {
    if urls != [] {
      var n := |urls| - 1;
      BatchConservation(b, urls[..n], runs[..n]);
    }
  }

  /** The download ids of the runs. */
  function RunIds(runs: seq<MemberRun>): set<string> {
    set i | 0 <= i < |runs| :: runs[i].downloadId
  }

  lemma RunIdsSnoc(runs: seq<MemberRun>)
    requires runs != []
    ensures RunIds(runs) == RunIds(runs[..|runs| - 1]) + {runs[|runs| - 1].downloadId}
  {
    var n := |runs| - 1;
    assert forall i :: 0 <= i < n ==> runs[..n][i] == runs[i];
    forall id | id in RunIds(runs) ensures id in RunIds(runs[..n]) + {runs[n].downloadId} {
      var i :| 0 <= i < |runs| && runs[i].downloadId == id;
      if i < n {
        assert runs[..n][i].downloadId == id;
      }
    }
  }

  /** Every run's download is tracked under its id. */
  lemma {:induction false} BatchTracksEveryRun(b: Batch, urls: seq<string>, runs: seq<MemberRun>)
    requires |runs| == |urls|
    ensures RunBatch(b, urls, runs).downloads.Keys == b.downloads.Keys + RunIds(runs)
  {
    if urls != [] {
      var n := |urls| - 1;
      BatchTracksEveryRun(b, urls[..n], runs[..n]);
      RunIdsSnoc(runs);
    }
  }

  /** A run whose id no later run reuses is tracked with its own URL. */
  lemma {:induction false} BatchKeepsUrls(b: Batch, urls: seq<string>, runs: seq<MemberRun>, i: nat)
    requires |runs| == |urls| && i < |runs|
    requires forall j :: i < j < |runs| ==> runs[j].downloadId != runs[i].downloadId
    ensures runs[i].downloadId in RunBatch(b, urls, runs).downloads
    ensures RunBatch(b, urls, runs).downloads[runs[i].downloadId].url == urls[i]
  {
    var n := |urls| - 1;
    if i < n {
      BatchKeepsUrls(b, urls[..n], runs[..n], i);
    }
  }

  /**
   * A batch created for `urls` and run to the end: `completed + failed ==
   * total`, `in_progress == 0`, status 'completed'.
   */
  lemma FinishedBatch(urls: seq<string>, runs: seq<MemberRun>)
    requires |runs| == |urls|
    ensures var b := RunBatch(NewBatch(urls), urls, runs).(status := BatchCompleted);
      && b.completed + b.failed == b.total
      && b.completed == Successes(runs)
      && b.inProgress == 0
      && b.status == BatchCompleted
  {
    BatchConservation(NewBatch(urls), urls, runs);
  }

  /** Every URL's download is registered. */
  lemma {:induction false} RegisteredKeys(active: map<string, Record>, urls: seq<string>, runs: seq<MemberRun>)
    requires |runs| == |urls|
    ensures Registered(active, urls, runs).Keys == active.Keys + RunIds(runs)
    ensures forall id :: id in active && id !in RunIds(runs) ==> Registered(active, urls, runs)[id] == active[id]
  {
    if urls != [] {
      var n := |urls| - 1;
      RegisteredKeys(active, urls[..n], runs[..n]);
      RunIdsSnoc(runs);
    }
  }

  /** A run whose id no later run reuses leaves a fresh 'starting' record named after its URL's title. */
  lemma {:induction false} RegisteredRecord(active: map<string, Record>, urls: seq<string>, runs: seq<MemberRun>, i: nat)
    requires |runs| == |urls| && i < |runs|
    requires forall j :: i < j < |runs| ==> runs[j].downloadId != runs[i].downloadId
    ensures runs[i].downloadId in Registered(active, urls, runs)
    ensures Registered(active, urls, runs)[runs[i].downloadId] == NewRecord(OutputFilename(runs[i].title, urls[i], runs[i].stamp))
  {
    var n := |urls| - 1;
    if i < n {
      RegisteredRecord(active, urls[..n], runs[..n], i);
    }
  }
}
