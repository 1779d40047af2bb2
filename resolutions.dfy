/**
 * Resolution labels of youtube_downloader.py: the height ladder (written twice
 * in the source, once in the format loop of extract_video_info and once in
 * _get_resolution_from_info) and _resolution_to_number, the sort key.
 */
module Resolutions {
  import opened Wrappers
  import opened Text

  /** The ladder of the format loop: the label of a stream `height` pixels high. */
  function HeightLabel(height: int): string {
    if height >= 2160 then "4K"
    else if height >= 1440 then "1440p"
    else if height >= 1080 then "1080p"
    else if height >= 720 then "720p"
    else if height >= 480 then "480p"
    else if height >= 360 then "360p"
    else if height >= 240 then "240p"
    else "144p"
  }

  /** What `info.get('height', 0)` finds: no key, a key holding None, or a number. */
  datatype HeightField = Absent | Null | Height(value: int)

  /**
   * _get_resolution_from_info: the same ladder over `info.get('height', 0)`;
   * comparing None with a number raises, and the except branch answers 'Unknown'.
   */
  function ResolutionFromInfo(h: HeightField): string {
    match h
    case Null => "Unknown"
    case _ =>
      var height := if h.Height? then h.value else 0;
      if height >= 2160 then "4K"
      else if height >= 1440 then "1440p"
      else if height >= 1080 then "1080p"
      else if height >= 720 then "720p"
      else if height >= 480 then "480p"
      else if height >= 360 then "360p"
      else if height >= 240 then "240p"
      else "144p"
  }

  /** _resolution_to_number; None where `int(resolution.replace('p', ''))` raises. */
  function ResolutionToNumber(resolution: string): Option<int> {
    if resolution == "audio" then Some(-1)
    else if resolution == "4K" then Some(2160)
    else ParseInt(RemoveAll(resolution, 'p'))
  }

  /** The heights at which the ladder changes label, highest first; 144 is the floor label. */
  const Rungs: seq<int> := [2160, 1440, 1080, 720, 480, 360, 240, 144]

  lemma NumberOfLabel(n: nat)
    ensures ResolutionToNumber(NatToString(n) + "p") == Some(n)
  {
    var digits := NatToString(n);
    var tagged := digits + "p";
    assert tagged[|tagged| - 1] == 'p';
    assert tagged != "audio" && tagged != "4K";
    assert 'p' !in digits by {
      forall i | 0 <= i < |digits| ensures digits[i] != 'p' { assert IsDigit(digits[i]); }
    }
    RemoveAllConcat(digits, "p", 'p');
    RemoveAllAbsent(digits, 'p');
    assert RemoveAll("p", 'p') == [];
    assert RemoveAll(tagged, 'p') == digits;
    ParseNatToString(n);
  }

  /** The rung a height falls on, as a number (a proof device for LadderRank). */
  function RungAtOrBelow(height: int): int {
    if height >= 2160 then 2160
    else if height >= 1440 then 1440
    else if height >= 1080 then 1080
    else if height >= 720 then 720
    else if height >= 480 then 480
    else if height >= 360 then 360
    else if height >= 240 then 240
    else 144
  }

  lemma HighLabelNumber(height: int)
    requires height >= 720
    ensures ResolutionToNumber(HeightLabel(height)) == Some(RungAtOrBelow(height))
  {
    if height >= 2160 {
    } else if height >= 1440 {
      assert HeightLabel(height) == NatToString(1440) + "p";
      NumberOfLabel(1440);
    } else if height >= 1080 {
      assert HeightLabel(height) == NatToString(1080) + "p";
      NumberOfLabel(1080);
    } else {
      assert HeightLabel(height) == NatToString(720) + "p";
      NumberOfLabel(720);
    }
  }

  lemma LowLabelNumber(height: int)
    requires height < 720
    ensures ResolutionToNumber(HeightLabel(height)) == Some(RungAtOrBelow(height))
  {
    if height >= 480 {
      assert HeightLabel(height) == NatToString(480) + "p";
      NumberOfLabel(480);
    } else if height >= 360 {
      assert HeightLabel(height) == NatToString(360) + "p";
      NumberOfLabel(360);
    } else if height >= 240 {
      assert HeightLabel(height) == NatToString(240) + "p";
      NumberOfLabel(240);
    } else {
      assert HeightLabel(height) == NatToString(144) + "p";
      NumberOfLabel(144);
    }
  }

  lemma LabelNumber(height: int)
    ensures ResolutionToNumber(HeightLabel(height)) == Some(RungAtOrBelow(height))
  {
    if height >= 720 {
      HighLabelNumber(height);
    } else {
      LowLabelNumber(height);
    }
  }

  /**
   * The sort key of a ladder label is the highest rung at or below the height
   * (144 below 240), so the label never overstates the stream.
   */
  lemma LadderRank(height: int)
    ensures ResolutionToNumber(HeightLabel(height)).Some?
    ensures var n := ResolutionToNumber(HeightLabel(height)).value;
      && n in Rungs
      && (n <= height || n == 144)
      && (forall k :: 0 <= k < |Rungs| && Rungs[k] <= height ==> Rungs[k] <= n)
  {
    LabelNumber(height);
  }

  /** A taller stream never gets a label that sorts lower. */
  lemma LadderMonotone(h1: int, h2: int)
    requires h1 <= h2
    ensures ResolutionToNumber(HeightLabel(h1)).Some? && ResolutionToNumber(HeightLabel(h2)).Some?
    ensures ResolutionToNumber(HeightLabel(h1)).value <= ResolutionToNumber(HeightLabel(h2)).value
  {
    LadderRank(h1);
    LadderRank(h2);
    var n1 := ResolutionToNumber(HeightLabel(h1)).value;
    var k :| 0 <= k < |Rungs| && Rungs[k] == n1;
    assert Rungs[7] == 144;
  }

  /** Only the 4K label has sort key 2160, and every ladder label sorts above 'audio'. */
  lemma LadderRankTop(height: int)
    ensures ResolutionToNumber(HeightLabel(height)).Some?
    ensures -1 < ResolutionToNumber(HeightLabel(height)).value <= 2160
    ensures ResolutionToNumber(HeightLabel(height)).value == 2160 <==> HeightLabel(height) == "4K"
  {
    LadderRank(height);
  }

  /**
   * The two copies of the ladder agree; a missing height reads as 0 and
   * gives '144p'; a height of None gives 'Unknown'.
   */
  lemma LaddersAgree(height: int)
    ensures ResolutionFromInfo(Height(height)) == HeightLabel(height)
    ensures ResolutionFromInfo(Absent) == HeightLabel(0) == "144p"
    ensures ResolutionFromInfo(Null) == "Unknown"
  {
  }
}
