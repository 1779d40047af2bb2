/**
 * The output name `download_video` gives a download in youtube_downloader.py:
 * a sanitised title (or the last URL segment), an underscore and a
 * timestamp, placed in the audio or the videos directory.
 */
module Naming {
  import opened Wrappers
  import opened Text
  import opened Paths

  const MaxTitleLength: nat := 50

  /** Characters a safe title keeps: alphanumerics, space, '.', '_' and '-'. */
  predicate Kept(c: char) {
    IsAlnum(c) || c == ' ' || c == '.' || c == '_' || c == '-'
  }

  function SafeChar(c: char): char {
    if Kept(c) then c else '_'
  }

  /** The safe-title comprehension, then the cut to 50 characters. */
  function SafeTitle(s: string): (r: string)
    ensures |r| == if |s| > MaxTitleLength then MaxTitleLength else |s|
    ensures forall i :: 0 <= i < |r| ==> Kept(r[i])
    ensures forall i :: 0 <= i < |r| ==> r[i] == s[i] || (!Kept(s[i]) && r[i] == '_')
    ensures '/' !in r
  {
    var cleaned := seq(|s|, i requires 0 <= i < |s| => SafeChar(s[i]));
    if |cleaned| > MaxTitleLength then cleaned[..MaxTitleLength] else cleaned
  }

  /** Sanitising a safe title changes nothing. */
  lemma SafeTitleIdempotent(s: string)
    ensures SafeTitle(SafeTitle(s)) == SafeTitle(s)
  {
    var r := SafeTitle(s);
    assert forall i :: 0 <= i < |r| ==> SafeTitle(r)[i] == r[i];
  }

  /** Only the first 50 characters of the source matter. */
  lemma SafeTitleOfPrefix(s: string)
    requires |s| > MaxTitleLength
    ensures SafeTitle(s) == SafeTitle(s[..MaxTitleLength])
  {
  }

  /**
   * The text that gets sanitised: the probed title when it is non-empty,
   * otherwise the last '/'-separated segment of the URL. `title` is `None`
   * when the probe raised or gave no information.
   */
  function TitleSource(title: Option<string>, url: string): string {
    if title.Some? && title.value != "" then title.value else LastPart(url, '/')
  }

  /** `f"{safe_title}_{timestamp}"`. */
  function OutputFilename(title: Option<string>, url: string, stamp: string): string {
    SafeTitle(TitleSource(title, url)) + "_" + stamp
  }

  /** The audio directory for the 'audio' resolution, the videos directory otherwise. */
  function OutputDir(resolution: string, audioDir: string, videosDir: string): string {
    if resolution == "audio" then audioDir else videosDir
  }

  /** `os.path.join(output_dir, output_filename)`. */
  function OutputTemplate(dir: string, filename: string): string {
    Join(dir, filename)
  }

  /**
   * With a timestamp free of '/', the output file lies directly in the chosen
   * directory and its name is the generated file name, whose title part is
   * safe and at most 50 characters long.
   */
  lemma OutputTemplatePlacement(dir: string, title: Option<string>, url: string, stamp: string)
    requires DirShape(dir) && '/' !in stamp
    ensures Basename(OutputTemplate(dir, OutputFilename(title, url, stamp))) == OutputFilename(title, url, stamp)
    ensures Dirname(OutputTemplate(dir, OutputFilename(title, url, stamp))) == dir
    ensures exists t ::
      && |t| <= MaxTitleLength && (forall i :: 0 <= i < |t| ==> Kept(t[i]))
      && OutputFilename(title, url, stamp) == t + "_" + stamp
  {
    var t := SafeTitle(TitleSource(title, url));
    var name := t + "_" + stamp;
    assert '/' !in name by {
      forall i | 0 <= i < |name| ensures name[i] != '/' {
        if i < |t| { assert name[i] == t[i]; }
        else if i > |t| { assert name[i] == stamp[i - |t| - 1]; }
      }
    }
    JoinPlainName(dir, name);
  }

  /** An empty or missing title falls back to the URL's last segment. */
  lemma TitleFallback(url: string, title: Option<string>)
    requires title.None? || title == Some("")
    ensures TitleSource(title, url) == LastPart(url, '/')
    ensures '/' !in TitleSource(title, url)
  {
  }
}
