/**
 * The integer formatters of youtube_downloader.py: _format_duration (shown
 * with each probed video) and _format_eta (the ETA shown while a download
 * runs). Python's `divmod` floors; with the positive divisors used here,
 * Dafny's `/` and `%` agree with it, negative inputs included.
 */
module Display {
  import opened Text

  /** _format_duration: 'Unknown' for 0, H:MM:SS from one hour on, M:SS below. */
  function FormatDuration(seconds: int): string {
    if seconds == 0 then "Unknown"
    else
      var minutes, secs := seconds / 60, seconds % 60;
      var hours, mins := minutes / 60, minutes % 60;
      if hours > 0 then NatToString(hours) + ":" + Pad2(mins) + ":" + Pad2(secs)
      else NatToString(mins) + ":" + Pad2(secs)
  }

  /** _format_eta: seconds below a minute, whole minutes below an hour, else hours and minutes. */
  function FormatEta(seconds: int): string {
    if seconds < 60 then IntToString(seconds) + " seconds"
    else if seconds < 3600 then
      var minutes := seconds / 60;
      NatToString(minutes) + " minute" + (if minutes != 1 then "s" else "")
    else
      NatToString(seconds / 3600) + "h " + NatToString(seconds % 3600 / 60) + "m"
  }

  /** 'Unknown' is shown exactly for a zero duration; every other duration starts with a digit. */
  lemma DurationShapes(seconds: int)
    ensures FormatDuration(seconds) == "Unknown" <==> seconds == 0
    ensures seconds != 0 ==> IsDigit(FormatDuration(seconds)[0])
  {
    if seconds != 0 {
      var minutes := seconds / 60;
      var hours, mins := minutes / 60, minutes % 60;
      var lead := if hours > 0 then NatToString(hours) else NatToString(mins);
      assert FormatDuration(seconds)[0] == lead[0];
      assert IsDigit(lead[0]);
    }
  }

  /** For a positive duration the shown fields are the hours, minutes and seconds it splits into. */
  lemma DurationFields(seconds: int)
    requires seconds > 0
    ensures seconds >= 3600 ==> exists h: nat, m: nat, s: nat ::
      && m < 60 && s < 60 && seconds == h * 3600 + m * 60 + s
      && FormatDuration(seconds) == NatToString(h) + ":" + Pad2(m) + ":" + Pad2(s)
    ensures seconds < 3600 ==> exists m: nat, s: nat ::
      && m < 60 && s < 60 && seconds == m * 60 + s
      && FormatDuration(seconds) == NatToString(m) + ":" + Pad2(s)
  {
    var minutes, secs := seconds / 60, seconds % 60;
    var hours, mins := minutes / 60, minutes % 60;
    assert seconds == hours * 3600 + mins * 60 + secs;
    if seconds >= 3600 {
      assert FormatDuration(seconds) == NatToString(hours) + ":" + Pad2(mins) + ":" + Pad2(secs);
    } else {
      assert hours == 0;
      assert FormatDuration(seconds) == NatToString(mins) + ":" + Pad2(secs);
    }
  }

  /**
   * Between one minute and one hour the ETA shows the whole minutes left,
   * singular only for exactly one minute.
   */
  lemma EtaMinutes(seconds: int)
    requires 60 <= seconds < 3600
    ensures exists m: nat ::
      && 1 <= m < 60 && m * 60 <= seconds < m * 60 + 60
      && FormatEta(seconds) == NatToString(m) + (if m == 1 then " minute" else " minutes")
  {
    var m := seconds / 60;
    assert m * 60 <= seconds < m * 60 + 60;
    assert FormatEta(seconds) == NatToString(m) + (if m == 1 then " minute" else " minutes");
  }

  /** From one hour on, the ETA drops the seconds: it shows at most 59 seconds less than is left. */
  lemma EtaHours(seconds: int)
    requires seconds >= 3600
    ensures exists h: nat, m: nat ::
      && h >= 1 && m < 60 && h * 3600 + m * 60 <= seconds < h * 3600 + m * 60 + 60
      && FormatEta(seconds) == NatToString(h) + "h " + NatToString(m) + "m"
  {
    var h, m := seconds / 3600, seconds % 3600 / 60;
    assert h * 3600 + m * 60 <= seconds < h * 3600 + m * 60 + 60;
    assert FormatEta(seconds) == NatToString(h) + "h " + NatToString(m) + "m";
  }
}
