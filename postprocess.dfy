/**
 * The two decisions `_download_thread` in youtube_downloader.py takes on
 * text: the CRF value a compression setting maps to, and the class of a
 * failure message (rate limit, CAPTCHA, DRM, anything else).
 */
module PostProcess {
  import opened Wrappers
  import opened Text

  /** Compression runs only for video downloads whose setting is not 'none'. */
  predicate CompressionApplies(audioOnly: bool, compression: string) {
    !audioOnly && compression != "none"
  }

  const DefaultCrf: int := 23

  /**
   * The CRF chain: 'auto' and 'medium' give 23, 'high' 18, 'low' 28; any other
   * text that `int()` accepts is clamped to [0, 51]; the rest gives 23.
   */
  function Crf(compression: string): (crf: int)
    ensures 0 <= crf <= 51
  {
    if compression == "auto" then DefaultCrf
    else if compression == "high" then 18
    else if compression == "medium" then DefaultCrf
    else if compression == "low" then 28
    else
      match ParseInt(compression)
      case None => DefaultCrf
      case Some(n) => if n < 0 then 0 else if n > 51 then 51 else n
  }

  /** A written-out number is used as the CRF, capped at 51. */
  lemma CrfOfNumber(n: nat)
    ensures Crf(NatToString(n)) == if n > 51 then 51 else n
  {
    var s := NatToString(n);
    assert s != "auto" && s != "high" && s != "medium" && s != "low" by {
      assert IsDigit(s[0]);
    }
    ParseNatToString(n);
  }

  /** A negative number is clamped to 0. */
  lemma CrfOfNegative(n: nat)
    requires n > 0
    ensures Crf("-" + NatToString(n)) == 0
  {
    ParseNegative(n);
  }

  /** Text that is neither a preset nor a number gives the balanced default. */
  lemma CrfFallback(compression: string)
    requires compression !in {"auto", "high", "medium", "low"}
    requires ParseInt(compression).None?
    ensures Crf(compression) == DefaultCrf
  {
  }

  // ---------------------------------------------------------------- failure classes

  datatype FailureKind = RateLimited | Challenge | RightsProtected | OtherFailure

  /** The `if`/`elif` chain over `str(e).lower()`, in the source's order. */
  function Classify(message: string): FailureKind {
    var m := Lower(message);
    if Contains(m, "429") || Contains(m, "too many requests") then RateLimited
    else if Contains(m, "captcha") then Challenge
    else if Contains(m, "drm") || Contains(m, "protected") then RightsProtected
    else OtherFailure
  }

  const CaptchaMessage: string := "CAPTCHA detected. Try again later or use a different URL."
  const DrmMessage: string := "This video is DRM protected and cannot be downloaded."

  lemma LowerMiddle(a: string, sub: string, b: string)
    ensures Lower(a + sub + b) == Lower(a) + Lower(sub) + Lower(b)
  {
    LowerConcat(a + sub, b);
    LowerConcat(a, sub);
  }

  /** A '429' anywhere in the message is a rate limit, whatever else the message says. */
  lemma RateLimitFirst(a: string, b: string)
    ensures Classify(a + "429" + b) == RateLimited
  {
    LowerMiddle(a, "429", b);
    assert Lower("429") == "429";
    ContainsMiddle(Lower(a), "429", Lower(b));
  }

  /** 'too many requests' written in any letter case is a rate limit. */
  lemma TooManyRequests(a: string, w: string, b: string)
    requires Lower(w) == "too many requests"
    ensures Classify(a + w + b) == RateLimited
  {
    LowerMiddle(a, w, b);
    ContainsMiddle(Lower(a), "too many requests", Lower(b));
  }

  /** 'captcha' in any letter case is detected; only a rate limit outranks it. */
  lemma CaptchaDetected(a: string, w: string, b: string)
    requires Lower(w) == "captcha"
    ensures Classify(a + w + b) in {RateLimited, Challenge}
  {
    LowerMiddle(a, w, b);
    ContainsMiddle(Lower(a), "captcha", Lower(b));
  }

  /** 'drm' in any letter case is detected; a rate limit or CAPTCHA outranks it. */
  lemma DrmDetected(a: string, w: string, b: string)
    requires Lower(w) == "drm"
    ensures Classify(a + w + b) != OtherFailure
  {
    LowerMiddle(a, w, b);
    ContainsMiddle(Lower(a), "drm", Lower(b));
  }
}
