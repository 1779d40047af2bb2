/**
 * The format list of `extract_video_info` in youtube_downloader.py: an audio
 * entry first, then one video entry per resolution label (the first stream
 * with that label wins, audio-only and height-less streams are skipped),
 * sorted by `_resolution_to_number`, highest first. Around it, the retry loop
 * that asks yt-dlp for the video information up to three times.
 */
module Extraction {
  import opened Wrappers
  import opened Text
  import opened Resolutions
  import opened Display

  /** One element of `info['formats']`; `None` stands for a missing key. */
  datatype FormatInfo = FormatInfo(vcodec: Option<string>, height: Option<int>, formatId: Option<string>)

  /** One offered format; the source's 'format' and 'ext' keys always hold the same container. */
  datatype FormatEntry = FormatEntry(resolution: string, container: string, formatId: Option<string>)

  const AudioEntry: FormatEntry := FormatEntry("audio", "mp3", Some("bestaudio/best"))

  /** The parts of yt-dlp's info dictionary that the listing reads; `None` stands for a missing key. */
  datatype MediaInfo = MediaInfo(
    title: Option<string>,
    thumbnail: Option<string>,
    duration: Option<int>,
    formats: seq<FormatInfo>)

  /** What one `extract_info(url, download=False)` call gives: the info, nothing, or an exception. */
  datatype Probe = Probed(info: MediaInfo) | NoInfo | ProbeRaised

  datatype VideoInfo = VideoInfo(title: string, thumbnail: string, duration: string, formats: seq<FormatEntry>)

  const MaxRetries: nat := 3
  const ExtractFailure: string := "Failed to extract video information after multiple attempts"

  // ---------------------------------------------------------------- building the list

  /** A stream the loop keeps: it has video, and its height is present and non-zero. */
  predicate Listed(f: FormatInfo) {
    f.vcodec != Some("none") && f.height.Some? && f.height.value != 0
  }

  function LabelOf(f: FormatInfo): string
    requires Listed(f)
  {
    HeightLabel(f.height.value)
  }

  function EntryOf(f: FormatInfo): FormatEntry
    requires Listed(f)
  {
    FormatEntry(LabelOf(f), "mp4", f.formatId)
  }

  /** The labels in `seen_resolutions` after the loop has looked at `fs`. */
  function SeenLabels(fs: seq<FormatInfo>): set<string> {
    if fs == [] then {}
    else
      var init, f := fs[..|fs| - 1], fs[|fs| - 1];
      if Listed(f) then SeenLabels(init) + {LabelOf(f)} else SeenLabels(init)
  }

  /** The video entries the loop appends after the audio entry, in order. */
  function Collect(fs: seq<FormatInfo>): seq<FormatEntry> {
    if fs == [] then []
    else
      var init, f := fs[..|fs| - 1], fs[|fs| - 1];
      if Listed(f) && LabelOf(f) !in SeenLabels(init) then Collect(init) + [EntryOf(f)]
      else Collect(init)
  }

  /** The `for f in info.get('formats', [])` loop with its `seen_resolutions` set. */
  method BuildFormats(fs: seq<FormatInfo>) returns (formats: seq<FormatEntry>)
    ensures formats == [AudioEntry] + Collect(fs)
  {
    formats := [AudioEntry];
    var seen: set<string> := {};
    for i := 0 to |fs|
      invariant seen == SeenLabels(fs[..i])
      invariant formats == [AudioEntry] + Collect(fs[..i])
    {
      assert fs[..i + 1][..i] == fs[..i];
      var f := fs[i];
      if f.vcodec != Some("none") && f.height.Some? && f.height.value != 0 {
        var resolution := HeightLabel(f.height.value);
        if resolution !in seen {
          seen := seen + {resolution};
          formats := formats + [FormatEntry(resolution, "mp4", f.formatId)];
        }
      }
    }
    assert fs[..|fs|] == fs;
  }

  /** A label is seen exactly when some kept stream carries it. */
  lemma {:induction false} SeenLabelsSpec(fs: seq<FormatInfo>, l: string)
    ensures l in SeenLabels(fs) <==> exists i :: 0 <= i < |fs| && Listed(fs[i]) && LabelOf(fs[i]) == l
  {
    if fs != [] {
      var init := fs[..|fs| - 1];
      SeenLabelsSpec(init, l);
      if exists i :: 0 <= i < |fs| && Listed(fs[i]) && LabelOf(fs[i]) == l {
        var i :| 0 <= i < |fs| && Listed(fs[i]) && LabelOf(fs[i]) == l;
        if i < |fs| - 1 {
          assert init[i] == fs[i];
        }
      }
    }
  }

  /**
   * At most one entry per label, and the labels listed are exactly the
   * labels of the kept streams.
   */
  lemma {:induction false} CollectLabels(fs: seq<FormatInfo>)
    ensures forall i, j :: 0 <= i < j < |Collect(fs)| ==> Collect(fs)[i].resolution != Collect(fs)[j].resolution
    ensures forall e :: e in Collect(fs) ==> e.resolution in SeenLabels(fs)
    ensures forall l :: l in SeenLabels(fs) ==> exists e :: e in Collect(fs) && e.resolution == l
  {
    if fs != [] {
      var init, f := fs[..|fs| - 1], fs[|fs| - 1];
      CollectLabels(init);
      if Listed(f) && LabelOf(f) !in SeenLabels(init) {
        assert Collect(fs) == Collect(init) + [EntryOf(f)];
        assert EntryOf(f) in Collect(fs);
      }
    }
  }

  /**
   * Every entry comes from a kept stream (video present, height non-zero)
   * that is the first kept stream with its label: the first one seen wins.
   */
  lemma {:induction false} CollectFirstWins(fs: seq<FormatInfo>, e: FormatEntry)
    requires e in Collect(fs)
    ensures exists i ::
      && 0 <= i < |fs| && Listed(fs[i]) && e == EntryOf(fs[i])
      && (forall j :: 0 <= j < i && Listed(fs[j]) ==> LabelOf(fs[j]) != e.resolution)
  {
    var init, f := fs[..|fs| - 1], fs[|fs| - 1];
    if e in Collect(init) {
      CollectFirstWins(init, e);
      var i :| 0 <= i < |init| && Listed(init[i]) && e == EntryOf(init[i])
        && (forall j :: 0 <= j < i && Listed(init[j]) ==> LabelOf(init[j]) != e.resolution);
      assert fs[i] == init[i];
      assert forall j :: 0 <= j < i ==> fs[j] == init[j];
    } else {
      assert Listed(f) && LabelOf(f) !in SeenLabels(init) && e == EntryOf(f);
      forall j | 0 <= j < |fs| - 1 && Listed(fs[j])
        ensures LabelOf(fs[j]) != e.resolution
      {
        assert init[j] == fs[j];
        SeenLabelsSpec(init, LabelOf(fs[j]));
      }
    }
  }

  /** Every kept stream's label is offered. */
  lemma CollectComplete(fs: seq<FormatInfo>, i: nat)
    requires i < |fs| && Listed(fs[i])
    ensures exists e :: e in Collect(fs) && e.resolution == LabelOf(fs[i])
  {
    SeenLabelsSpec(fs, LabelOf(fs[i]));
    CollectLabels(fs);
  }

  // ---------------------------------------------------------------- sorting

  predicate Rankable(e: FormatEntry) {
    ResolutionToNumber(e.resolution).Some?
  }

  predicate AllRankable(s: seq<FormatEntry>) {
    forall i :: 0 <= i < |s| ==> Rankable(s[i])
  }

  /** The sort key `_resolution_to_number(x['resolution'])`. */
  function Key(e: FormatEntry): int
    requires Rankable(e)
  {
    ResolutionToNumber(e.resolution).value
  }

  predicate NonIncreasing(s: seq<FormatEntry>)
    requires AllRankable(s)
  {
    forall i, j :: 0 <= i < j < |s| ==> Key(s[i]) >= Key(s[j])
  }

  /** Places `e` before the first element whose key is not larger, so equal keys keep their order. */
  function Insert(e: FormatEntry, s: seq<FormatEntry>): (r: seq<FormatEntry>)
    requires Rankable(e) && AllRankable(s)
    ensures AllRankable(r)
    ensures multiset(r) == multiset(s) + multiset{e}
  {
    if s == [] || Key(s[0]) <= Key(e) then [e] + s
    else
      assert s == [s[0]] + s[1..];
      [s[0]] + Insert(e, s[1..])
  }

  /** Inserting under a bound keeps every key under it. */
  lemma {:induction false} InsertBounded(e: FormatEntry, s: seq<FormatEntry>, k: int)
    requires Rankable(e) && AllRankable(s) && Key(e) <= k
    requires forall i :: 0 <= i < |s| ==> Key(s[i]) <= k
    ensures forall i :: 0 <= i < |Insert(e, s)| ==> Key(Insert(e, s)[i]) <= k
  {
    if s != [] && Key(s[0]) > Key(e) {
      InsertBounded(e, s[1..], k);
    }
  }

  lemma {:induction false} InsertNonIncreasing(e: FormatEntry, s: seq<FormatEntry>)
    requires Rankable(e) && AllRankable(s) && NonIncreasing(s)
    ensures NonIncreasing(Insert(e, s))
  {
    if s != [] && Key(s[0]) > Key(e) {
      var rest := Insert(e, s[1..]);
      InsertNonIncreasing(e, s[1..]);
      InsertBounded(e, s[1..], Key(s[0]));
      var r := [s[0]] + rest;
      forall i, j | 0 <= i < j < |r| ensures Key(r[i]) >= Key(r[j]) {
        assert r[j] == rest[j - 1];
        if i > 0 { assert r[i] == rest[i - 1]; }
      }
    }
  }

  /** `formats.sort(key=..., reverse=True)`: Python's stable sort, highest key first. */
  function SortDesc(s: seq<FormatEntry>): (r: seq<FormatEntry>)
    requires AllRankable(s)
    ensures AllRankable(r)
    ensures multiset(r) == multiset(s)
  {
    if s == [] then []
    else
      assert s == [s[0]] + s[1..];
      Insert(s[0], SortDesc(s[1..]))
  }

  lemma {:induction false} SortDescNonIncreasing(s: seq<FormatEntry>)
    requires AllRankable(s)
    ensures NonIncreasing(SortDesc(s))
  {
    if s != [] {
      SortDescNonIncreasing(s[1..]);
      InsertNonIncreasing(s[0], SortDesc(s[1..]));
    }
  }

  /** Every video entry has a ladder label, ranked 144 to 2160, and only '4K' ranks 2160. */
  lemma {:induction false} CollectRanks(fs: seq<FormatInfo>)
    ensures AllRankable(Collect(fs))
    ensures forall e :: e in Collect(fs) ==> Rankable(e) && 144 <= Key(e) <= 2160 && (Key(e) == 2160 <==> e.resolution == "4K")
  {
    if fs != [] {
      var init, f := fs[..|fs| - 1], fs[|fs| - 1];
      CollectRanks(init);
      if Listed(f) && LabelOf(f) !in SeenLabels(init) {
        LadderRank(f.height.value);
        LadderRankTop(f.height.value);
      }
    }
  }

  /** The list `extract_video_info` returns for one info dictionary. */
  function Listing(fs: seq<FormatInfo>): seq<FormatEntry> {
    CollectRanks(fs);
    SortDesc([AudioEntry] + Collect(fs))
  }

  /** In a list sorted by key whose only entry ranked below 144 is the audio entry, that entry is last. */
  lemma AudioSortsLast(s: seq<FormatEntry>, c: seq<FormatEntry>)
    requires AllRankable(s) && NonIncreasing(s)
    requires multiset(s) == multiset([AudioEntry] + c)
    requires forall e :: e in c ==> Rankable(e) && Key(e) >= 144
    ensures |s| >= 1 && s[|s| - 1] == AudioEntry
    ensures AudioEntry !in s[..|s| - 1]
  {
    assert Key(AudioEntry) == -1;
    assert AudioEntry !in c;
    assert multiset([AudioEntry] + c) == multiset{AudioEntry} + multiset(c);
    assert AudioEntry in multiset(s);
    var k :| 0 <= k < |s| && s[k] == AudioEntry;
    var last := s[|s| - 1];
    assert last in multiset(s);
    assert Key(last) <= -1;
    assert s == s[..|s| - 1] + [last];
    assert multiset(s) == multiset(s[..|s| - 1]) + multiset{last};
  }

  /** In a list sorted by key holding a '4K' entry, where only '4K' ranks 2160 or more, '4K' is first. */
  lemma FourKSortsFirst(s: seq<FormatEntry>, c: seq<FormatEntry>)
    requires AllRankable(s) && NonIncreasing(s)
    requires multiset(s) == multiset([AudioEntry] + c)
    requires forall e :: e in c ==> Rankable(e) && Key(e) <= 2160 && (Key(e) == 2160 <==> e.resolution == "4K")
    requires exists e :: e in c && e.resolution == "4K"
    ensures s[0].resolution == "4K"
  {
    var e :| e in c && e.resolution == "4K";
    assert e in multiset([AudioEntry] + c);
    assert e in multiset(s);
    var j :| 0 <= j < |s| && s[j] == e;
    assert s[0] in multiset(s);
    assert Key(AudioEntry) == -1;
    assert Key(s[0]) >= 2160;
  }

  /**
   * The listing holds the audio entry and the collected video entries, keys
   * non-increasing; the audio entry (key -1) is last, and a '4K' entry, when
   * there is one, is first.
   */
  lemma ListingOrder(fs: seq<FormatInfo>)
    ensures multiset(Listing(fs)) == multiset([AudioEntry] + Collect(fs))
    ensures AllRankable(Listing(fs)) && NonIncreasing(Listing(fs))
    ensures |Listing(fs)| >= 1 && Listing(fs)[|Listing(fs)| - 1] == AudioEntry
    ensures AudioEntry !in Listing(fs)[..|Listing(fs)| - 1]
    ensures (exists e :: e in Collect(fs) && e.resolution == "4K") ==> Listing(fs)[0].resolution == "4K"
  {
    CollectRanks(fs);
    var all := [AudioEntry] + Collect(fs);
    assert AllRankable(all);
    SortDescNonIncreasing(all);
    AudioSortsLast(Listing(fs), Collect(fs));
    if exists e :: e in Collect(fs) && e.resolution == "4K" {
      FourKSortsFirst(Listing(fs), Collect(fs));
    }
  }

  // ---------------------------------------------------------------- extract_video_info

  /** The `video_info` dictionary built from one successful answer. */
  function Describe(info: MediaInfo): VideoInfo {
    VideoInfo(
      info.title.GetOr("Unknown Title"),
      info.thumbnail.GetOr(""),
      FormatDuration(info.duration.GetOr(0)),
      Listing(info.formats))
  }

  /** The first answer, from attempt `k` on, that carries information, if one comes before the third attempt ends. */
  function FirstAnswer(answer: nat -> Probe, k: nat): Option<MediaInfo>
    decreases MaxRetries - k
  {
    if k >= MaxRetries then None
    else if answer(k).Probed? then Some(answer(k).info)
    else FirstAnswer(answer, k + 1)
  }

  /** The first informative answer is the earliest of the three attempts that gives information. */
  lemma {:induction false} FirstAnswerSpec(answer: nat -> Probe, k: nat)
    ensures FirstAnswer(answer, k).Some? <==> exists i :: k <= i < MaxRetries && answer(i).Probed?
    ensures FirstAnswer(answer, k).Some? ==> exists i ::
      && k <= i < MaxRetries && answer(i).Probed? && FirstAnswer(answer, k).value == answer(i).info
      && forall j :: k <= j < i ==> !answer(j).Probed?
    decreases MaxRetries - k
  {
    if k < MaxRetries && !answer(k).Probed? {
      FirstAnswerSpec(answer, k + 1);
    }
  }

  /**
   * The retry loop: an attempt with no information or an exception counts
   * against the three tries; the first one with information is described.
   * `answer(k)` stands for what yt-dlp gives on attempt k.
   */
  method ExtractVideoInfo(answer: nat -> Probe) returns (r: Result<VideoInfo, string>)
    ensures FirstAnswer(answer, 0).Some? ==> r == Success(Describe(FirstAnswer(answer, 0).value))
    ensures FirstAnswer(answer, 0).None? ==> r == Failure(ExtractFailure)
  {
    var retryCount: nat := 0;
    while retryCount < MaxRetries
      invariant retryCount <= MaxRetries
      invariant FirstAnswer(answer, 0) == FirstAnswer(answer, retryCount)
      decreases MaxRetries - retryCount
    {
      match answer(retryCount)
      case Probed(info) =>
        var formats := BuildFormats(info.formats);
        CollectRanks(info.formats);
        var sorted := SortDesc(formats);
        return Success(VideoInfo(
          info.title.GetOr("Unknown Title"),
          info.thumbnail.GetOr(""),
          FormatDuration(info.duration.GetOr(0)),
          sorted));
      case NoInfo =>
        retryCount := retryCount + 1;
      case ProbeRaised =>
        retryCount := retryCount + 1;
    }
    return Failure(ExtractFailure);
  }
}
