/**
 * The scheduled-download queue of additional_features.py as values: the
 * entries `schedule_download` stores and what one pass of `_scheduler_loop`
 * does with them at a given time. Time is an integer (seconds); the ISO
 * text round trip of `scheduled_time` is not modelled.
 */
module Scheduling {
  import opened Wrappers
  import opened Naming
  import opened Downloads

  /** One value of `scheduled_downloads`: the arguments for `download_video` and the time. */
  datatype ScheduleEntry = ScheduleEntry(request: Request, time: int)

  /** What the `download_video` call of a pass sees: the uuid, the probed title, the timestamp. */
  datatype Launch = Launch(downloadId: string, title: Option<string>, stamp: string)

  /** `now >= scheduled_time`. */
  predicate Due(e: ScheduleEntry, now: int) {
    now >= e.time
  }

  /** The entries a pass starts. */
  function DueKeys(scheduled: map<string, ScheduleEntry>, now: int): set<string> {
    set k | k in scheduled && Due(scheduled[k], now)
  }

  /** The entries a pass leaves in the queue. */
  function Pending(scheduled: map<string, ScheduleEntry>, now: int): map<string, ScheduleEntry> {
    map k | k in scheduled && !Due(scheduled[k], now) :: scheduled[k]
  }

  /** `order` lists every key of the queue once: the order the dictionary is iterated in. */
  predicate Enumerates(order: seq<string>, keys: set<string>) {
    && (forall i :: 0 <= i < |order| ==> order[i] in keys)
    && (forall k :: k in keys ==> k in order)
    && (forall i, j :: 0 <= i < j < |order| ==> order[i] != order[j])
  }

  /** The keys a list holds. */
  function Elements(s: seq<string>): set<string> {
    set k | k in s
  }

  lemma ElementsSnoc(s: seq<string>)
    requires s != []
    ensures Elements(s) == Elements(s[..|s| - 1]) + {s[|s| - 1]}
  {
    assert forall k :: k in s <==> k in s[..|s| - 1] || k == s[|s| - 1];
  }

  /** Removing the keys of a list one more key at a time. */
  lemma RemoveNext(m: map<string, ScheduleEntry>, s: seq<string>, i: nat)
    requires i < |s|
    ensures m - Elements(s[..i]) - {s[i]} == m - Elements(s[..i + 1])
  {
    assert s[..i + 1][..i] == s[..i];
    ElementsSnoc(s[..i + 1]);
  }

  /** The `to_remove` list: the due keys, in iteration order. */
  function DueInOrder(scheduled: map<string, ScheduleEntry>, now: int, order: seq<string>): (due: seq<string>)
    requires forall i :: 0 <= i < |order| ==> order[i] in scheduled
    ensures forall i :: 0 <= i < |due| ==> due[i] in DueKeys(scheduled, now)
  {
    if order == [] then []
    else
      var n := |order| - 1;
      DueInOrder(scheduled, now, order[..n]) + (if Due(scheduled[order[n]], now) then [order[n]] else [])
  }

  /** Every started entry gets its own download id (uuid4 values do not repeat). */
  predicate DistinctLaunches(keys: set<string>, launches: map<string, Launch>)
    requires keys <= launches.Keys
  {
    forall j, k :: j in keys && k in keys && j != k ==> launches[j].downloadId != launches[k].downloadId
  }

  /** The record `download_video` registers for a scheduled entry. */
  function LaunchRecord(e: ScheduleEntry, launch: Launch): Record {
    NewRecord(OutputFilename(launch.title, e.request.url, launch.stamp))
  }

  /** `active_downloads` after the `download_video` calls for the due keys among `order`, in order. */
  function Launched(active: map<string, Record>, scheduled: map<string, ScheduleEntry>, now: int, order: seq<string>,
                    launches: map<string, Launch>): map<string, Record>
    requires forall i :: 0 <= i < |order| ==> order[i] in scheduled
    requires DueKeys(scheduled, now) <= launches.Keys
  {
    if order == [] then active
    else
      var n := |order| - 1;
      var before := Launched(active, scheduled, now, order[..n], launches);
      var k := order[n];
      if Due(scheduled[k], now) then
        assert k in DueKeys(scheduled, now);
        before[launches[k].downloadId := LaunchRecord(scheduled[k], launches[k])]
      else before
  }

  // ---------------------------------------------------------------- properties

  /** A pass splits the queue: every entry is either started or left exactly as it was. */
  lemma PassSplitsQueue(scheduled: map<string, ScheduleEntry>, now: int)
    ensures DueKeys(scheduled, now) !! Pending(scheduled, now).Keys
    ensures DueKeys(scheduled, now) + Pending(scheduled, now).Keys == scheduled.Keys
    ensures forall k :: k in Pending(scheduled, now) ==> Pending(scheduled, now)[k] == scheduled[k]
    ensures forall k :: k in DueKeys(scheduled, now) ==> now >= scheduled[k].time
    ensures forall k :: k in Pending(scheduled, now) ==> now < scheduled[k].time
  {
  }

  /** What a pass leaves is the queue with the started entries deleted. */
  lemma PendingIsRemoval(scheduled: map<string, ScheduleEntry>, now: int)
    ensures Pending(scheduled, now) == scheduled - DueKeys(scheduled, now)
  {
  }

  /** A second pass at the same time starts nothing and changes nothing. */
  lemma SecondPassIdle(scheduled: map<string, ScheduleEntry>, now: int)
    ensures DueKeys(Pending(scheduled, now), now) == {}
    ensures Pending(Pending(scheduled, now), now) == Pending(scheduled, now)
  {
    var p := Pending(scheduled, now);
    assert forall k :: k in p ==> !Due(p[k], now);
  }

  /** A pass and a later one leave what a single pass at the later time leaves. */
  lemma LaterPass(scheduled: map<string, ScheduleEntry>, now: int, later: int)
    requires now <= later
    ensures Pending(Pending(scheduled, now), later) == Pending(scheduled, later)
    ensures DueKeys(scheduled, now) + DueKeys(Pending(scheduled, now), later) == DueKeys(scheduled, later)
  {
    var p := Pending(scheduled, now);
    assert forall k :: k in Pending(p, later) <==> k in Pending(scheduled, later);
  }

  /** The `to_remove` list holds every due key exactly once. */
  lemma {:induction false} DueInOrderExact(scheduled: map<string, ScheduleEntry>, now: int, order: seq<string>)
    requires forall i :: 0 <= i < |order| ==> order[i] in scheduled
    requires forall i, j :: 0 <= i < j < |order| ==> order[i] != order[j]
    ensures forall k :: k in DueInOrder(scheduled, now, order) <==> k in order && Due(scheduled[k], now)
    ensures forall i, j :: 0 <= i < j < |DueInOrder(scheduled, now, order)| ==>
      DueInOrder(scheduled, now, order)[i] != DueInOrder(scheduled, now, order)[j]
  {
    if order != [] {
      var n := |order| - 1;
      DueInOrderExact(scheduled, now, order[..n]);
      assert forall k :: k in order <==> k in order[..n] || k == order[n];
    }
  }

  /** A pass over an enumeration of the queue removes exactly the due keys. */
  lemma DueInOrderKeys(scheduled: map<string, ScheduleEntry>, now: int, order: seq<string>)
    requires Enumerates(order, scheduled.Keys)
    ensures Elements(DueInOrder(scheduled, now, order)) == DueKeys(scheduled, now)
    ensures |DueInOrder(scheduled, now, order)| == |DueKeys(scheduled, now)|
  {
    DueInOrderExact(scheduled, now, order);
    DistinctCardinality(DueInOrder(scheduled, now, order));
  }

  lemma {:induction false} DistinctCardinality(s: seq<string>)
    requires forall i, j :: 0 <= i < j < |s| ==> s[i] != s[j]
    ensures |Elements(s)| == |s|
  {
    if s != [] {
      var n := |s| - 1;
      DistinctCardinality(s[..n]);
      ElementsSnoc(s);
      assert s[n] !in s[..n];
    }
  }

  /**
   * When the started entries have distinct download ids, each one's record
   * is found under its id, and every id none of them uses is left as it was.
   */
  lemma {:induction false} LaunchedRecords(active: map<string, Record>, scheduled: map<string, ScheduleEntry>, now: int,
                                           order: seq<string>, launches: map<string, Launch>)
    requires forall i :: 0 <= i < |order| ==> order[i] in scheduled
    requires DueKeys(scheduled, now) <= launches.Keys
    requires DistinctLaunches(DueKeys(scheduled, now), launches)
    ensures forall k :: k in order && Due(scheduled[k], now) ==>
      && launches[k].downloadId in Launched(active, scheduled, now, order, launches)
      && Launched(active, scheduled, now, order, launches)[launches[k].downloadId] == LaunchRecord(scheduled[k], launches[k])
    ensures forall id :: (forall k :: k in order && Due(scheduled[k], now) ==> launches[k].downloadId != id) ==>
      && (id in Launched(active, scheduled, now, order, launches) <==> id in active)
      && (id in active ==> Launched(active, scheduled, now, order, launches)[id] == active[id])
  {
    if order != [] {
      var n := |order| - 1;
      LaunchedRecords(active, scheduled, now, order[..n], launches);
      assert forall k :: k in order <==> k in order[..n] || k == order[n];
    }
  }
}
