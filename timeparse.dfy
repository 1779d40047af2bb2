/**
 * `_time_to_seconds` of additional_features.py: 'H:M:S' and 'M:S' are read
 * part by part with `int()`, anything else as a plain number, 0 when that
 * does not parse. A part that does not parse in the first two forms is not
 * caught there: the call raises, written `None` here.
 */
module TimeParse {
  import opened Wrappers
  import opened Text
  import opened Display

  function TimeToSeconds(timeStr: string): Option<int> {
    var parts := Split(timeStr, ':');
    if |parts| == 3 then
      match (ParseInt(parts[0]), ParseInt(parts[1]), ParseInt(parts[2]))
      case (Some(hours), Some(minutes), Some(seconds)) => Some(hours * 3600 + minutes * 60 + seconds)
      case _ => None
    else if |parts| == 2 then
      match (ParseInt(parts[0]), ParseInt(parts[1]))
      case (Some(minutes), Some(seconds)) => Some(minutes * 60 + seconds)
      case _ => None
    else
      Some(ParseInt(timeStr).GetOr(0))
  }

  lemma NoColonInDigits(s: string)
    requires AllDigits(s)
    ensures ':' !in s
  {
    assert forall i :: 0 <= i < |s| ==> s[i] != ':';
  }

  /** Three colon-free parts joined by ':' split back into those parts. */
  lemma SplitThree(a: string, b: string, c: string)
    requires ':' !in a && ':' !in b && ':' !in c
    ensures Split(a + ":" + b + ":" + c, ':') == [a, b, c]
  {
    assert a + ":" + b + ":" + c == a + [':'] + (b + [':'] + c);
    SplitAtSeparator(a, ':', b + [':'] + c);
    SplitAtSeparator(b, ':', c);
    SplitNoSeparator(c, ':');
  }

  lemma SplitTwo(a: string, b: string)
    requires ':' !in a && ':' !in b
    ensures Split(a + ":" + b, ':') == [a, b]
  {
    assert a + ":" + b == a + [':'] + b;
    SplitAtSeparator(a, ':', b);
    SplitNoSeparator(b, ':');
  }

  lemma ReadThree(t: string, a: string, b: string, c: string, h: int, m: int, sec: int)
    requires Split(t, ':') == [a, b, c]
    requires ParseInt(a) == Some(h) && ParseInt(b) == Some(m) && ParseInt(c) == Some(sec)
    ensures TimeToSeconds(t) == Some(h * 3600 + m * 60 + sec)
  {
  }

  lemma ReadTwo(t: string, a: string, b: string, m: int, sec: int)
    requires Split(t, ':') == [a, b]
    requires ParseInt(a) == Some(m) && ParseInt(b) == Some(sec)
    ensures TimeToSeconds(t) == Some(m * 60 + sec)
  {
  }

  /** An 'H:MM:SS' display reads back as its fields. */
  lemma ReadBackLong(h: nat, m: nat, sec: nat)
    requires m < 60 && sec < 60
    ensures TimeToSeconds(NatToString(h) + ":" + Pad2(m) + ":" + Pad2(sec)) == Some(h * 3600 + m * 60 + sec)
  {
    NoColonInDigits(NatToString(h));
    NoColonInDigits(Pad2(m));
    NoColonInDigits(Pad2(sec));
    SplitThree(NatToString(h), Pad2(m), Pad2(sec));
    ParseNatToString(h);
    ParsePad2(m);
    ParsePad2(sec);
    ReadThree(NatToString(h) + ":" + Pad2(m) + ":" + Pad2(sec), NatToString(h), Pad2(m), Pad2(sec), h, m, sec);
  }

  /** An 'M:SS' display reads back as its fields. */
  lemma ReadBackShort(m: nat, sec: nat)
    requires sec < 60
    ensures TimeToSeconds(NatToString(m) + ":" + Pad2(sec)) == Some(m * 60 + sec)
  {
    NoColonInDigits(NatToString(m));
    NoColonInDigits(Pad2(sec));
    SplitTwo(NatToString(m), Pad2(sec));
    ParseNatToString(m);
    ParsePad2(sec);
    ReadTwo(NatToString(m) + ":" + Pad2(sec), NatToString(m), Pad2(sec), m, sec);
  }

  /** The fields `divmod` gives recompose the duration. */
  lemma DivModFields(seconds: int)
    ensures seconds / 60 / 60 * 3600 + seconds / 60 % 60 * 60 + seconds % 60 == seconds
  {
    var minutes := seconds / 60;
    assert seconds == minutes * 60 + seconds % 60;
    assert minutes == minutes / 60 * 60 + minutes % 60;
    assert minutes * 60 == minutes / 60 * 3600 + minutes % 60 * 60;
  }

  /** Reading back what `_format_duration` shows gives the duration again. */
  lemma {:induction false} DurationRoundTrip(seconds: int)
    requires seconds > 0
    ensures TimeToSeconds(FormatDuration(seconds)) == Some(seconds)
  {
    var minutes, secs := seconds / 60, seconds % 60;
    var hours, mins := minutes / 60, minutes % 60;
    DivModFields(seconds);
    if hours > 0 {
      assert FormatDuration(seconds) == NatToString(hours) + ":" + Pad2(mins) + ":" + Pad2(secs);
      ReadBackLong(hours, mins, secs);
    } else {
      assert FormatDuration(seconds) == NatToString(mins) + ":" + Pad2(secs);
      ReadBackShort(mins, secs);
    }
  }

  /** 'H:M:S' counts hours, minutes and seconds, also beyond 59. */
  lemma HoursMinutesSeconds(h: nat, m: nat, s: nat)
    ensures TimeToSeconds(NatToString(h) + ":" + NatToString(m) + ":" + NatToString(s)) == Some(h * 3600 + m * 60 + s)
  {
    NoColonInDigits(NatToString(h));
    NoColonInDigits(NatToString(m));
    NoColonInDigits(NatToString(s));
    SplitThree(NatToString(h), NatToString(m), NatToString(s));
    ParseNatToString(h);
    ParseNatToString(m);
    ParseNatToString(s);
    ReadThree(NatToString(h) + ":" + NatToString(m) + ":" + NatToString(s), NatToString(h), NatToString(m), NatToString(s), h, m, s);
  }

  /** 'M:S' counts minutes and seconds. */
  lemma MinutesSeconds(m: nat, s: nat)
    ensures TimeToSeconds(NatToString(m) + ":" + NatToString(s)) == Some(m * 60 + s)
  {
    NoColonInDigits(NatToString(m));
    NoColonInDigits(NatToString(s));
    SplitTwo(NatToString(m), NatToString(s));
    ParseNatToString(m);
    ParseNatToString(s);
    ReadTwo(NatToString(m) + ":" + NatToString(s), NatToString(m), NatToString(s), m, s);
  }

  /** Text without ':' is read as a number, and 0 when `int()` refuses it. */
  lemma PlainNumber(t: string)
    requires ':' !in t
    ensures TimeToSeconds(t) == Some(ParseInt(t).GetOr(0))
  {
    SplitNoSeparator(t, ':');
  }

  /** In 'M:S', a part that `int()` refuses makes the call fail rather than give 0. */
  lemma BadPartFails(a: string, b: string)
    requires ':' !in a && ':' !in b
    requires ParseInt(a).None? || ParseInt(b).None?
    ensures TimeToSeconds(a + ":" + b) == None
  {
    SplitTwo(a, b);
  }

  /** In 'H:M:S', a part that `int()` refuses makes the call fail as well. */
  lemma BadPartFailsThree(a: string, b: string, c: string)
    requires ':' !in a && ':' !in b && ':' !in c
    requires ParseInt(a).None? || ParseInt(b).None? || ParseInt(c).None?
    ensures TimeToSeconds(a + ":" + b + ":" + c) == None
  {
    SplitThree(a, b, c);
  }
}
