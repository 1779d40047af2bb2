/**
 * The default output names of additional_features.py: `rename_file`,
 * `encrypt_file`, `decrypt_file` and the ffmpeg helpers `trim_video`,
 * `adjust_audio_volume` and `extract_audio`, plus `_get_audio_codec`. A
 * given output name wins when it is non-empty (`if not output_filename`).
 * Every output lands in the directory of the input.
 */
module FileNames {
  import opened Text
  import opened Paths

  /** `output_filename` when given and non-empty, else the default. */
  function Chosen(given: string, default: string): string {
    if given == "" then default else given
  }

  /** `encrypt_file`: the base name followed by '.enc'. */
  function EncryptName(base: string): string {
    base + ".enc"
  }

  /** `decrypt_file`: a trailing '.enc' removed, otherwise 'decrypted_' put in front. */
  function DecryptName(base: string): string {
    if EndsWith(base, ".enc") then base[..|base| - 4] else "decrypted_" + base
  }

  function EncryptOutput(filePath: string, given: string): string {
    Join(Dirname(filePath), Chosen(given, EncryptName(Basename(filePath))))
  }

  function DecryptOutput(filePath: string, given: string): string {
    Join(Dirname(filePath), Chosen(given, DecryptName(Basename(filePath))))
  }

  /** `rename_file`: the new name with the old extension, in the old directory. */
  function RenamedPath(filePath: string, newName: string): string {
    Join(Dirname(filePath), newName + Extension(filePath))
  }

  function TrimOutput(videoPath: string, given: string): string {
    Join(Dirname(videoPath), Chosen(given, Stem(videoPath) + "_trimmed" + Extension(videoPath)))
  }

  function VolumeOutput(videoPath: string, given: string): string {
    Join(Dirname(videoPath), Chosen(given, Stem(videoPath) + "_volume" + Extension(videoPath)))
  }

  function AudioOutput(videoPath: string, audioFormat: string, given: string): string {
    Join(Dirname(videoPath), Chosen(given, Stem(videoPath) + "." + audioFormat))
  }

  /** The codec table of `_get_audio_codec`. */
  const Codecs: map<string, string> :=
    map["mp3" := "libmp3lame", "ogg" := "libvorbis", "aac" := "aac", "wav" := "pcm_s16le", "flac" := "flac"]

  function AudioCodec(format: string): string {
    if format in Codecs then Codecs[format] else "libmp3lame"
  }

  // ---------------------------------------------------------------- properties

  /** Decrypting the name encryption gives recovers the name. */
  lemma DecryptUndoesEncrypt(base: string)
    ensures DecryptName(EncryptName(base)) == base
  {
    var e := EncryptName(base);
    assert e[|e| - 4..] == ".enc";
    assert e[..|e| - 4] == base;
  }

  /** A name without the '.enc' suffix is kept whole behind 'decrypted_'. */
  lemma DecryptPlainName(base: string)
    requires !EndsWith(base, ".enc")
    ensures DecryptName(base) == "decrypted_" + base
    ensures EndsWith(DecryptName(base), base)
  {
    var d := "decrypted_" + base;
    assert d[|d| - |base|..] == base;
  }

  lemma NoSlashConcat(a: string, b: string)
    requires '/' !in a && '/' !in b
    ensures '/' !in a + b
  {
    assert forall i :: 0 <= i < |a + b| ==> (a + b)[i] == (if i < |a| then a[i] else b[i - |a|]);
  }

  /**
   * With the default names, encrypting a file and then decrypting the result
   * names a file in the same directory with the same name.
   */
  lemma EncryptDecryptPaths(filePath: string)
    ensures Dirname(EncryptOutput(filePath, "")) == Dirname(filePath)
    ensures Basename(EncryptOutput(filePath, "")) == Basename(filePath) + ".enc"
    ensures DecryptOutput(EncryptOutput(filePath, ""), "") == Join(Dirname(filePath), Basename(filePath))
    ensures Basename(DecryptOutput(EncryptOutput(filePath, ""), "")) == Basename(filePath)
    ensures Dirname(DecryptOutput(EncryptOutput(filePath, ""), "")) == Dirname(filePath)
  {
    var dir, base := Dirname(filePath), Basename(filePath);
    DirnameShape(filePath);
    NoSlashConcat(base, ".enc");
    JoinPlainName(dir, base + ".enc");
    DecryptUndoesEncrypt(base);
    JoinPlainName(dir, base);
  }

  /** Renaming keeps the directory and puts the old extension after the new name. */
  lemma RenameKeepsDirectory(filePath: string, newName: string)
    requires '/' !in newName
    ensures Dirname(RenamedPath(filePath, newName)) == Dirname(filePath)
    ensures Basename(RenamedPath(filePath, newName)) == newName + Extension(filePath)
  {
    DirnameShape(filePath);
    NoSlashConcat(newName, Extension(filePath));
    JoinPlainName(Dirname(filePath), newName + Extension(filePath));
  }

  /** `s.rfind('.')` is the given index when `s` has a '.' there and none after it. */
  lemma LastDotAt(s: string, k: nat)
    requires k < |s| && s[k] == '.'
    requires forall i :: k < i < |s| ==> s[i] != '.'
    ensures LastDot(s) == k
  {
  }

  /**
   * The renamed file keeps the extension, as long as the new name has a
   * character other than '.', and has no '.' when there is no extension to keep.
   */
  lemma RenameKeepsExtension(filePath: string, newName: string)
    requires '/' !in newName
    requires exists j :: 0 <= j < |newName| && newName[j] != '.'
    requires Extension(filePath) == "" ==> '.' !in newName
    ensures Extension(RenamedPath(filePath, newName)) == Extension(filePath)
  {
    RenameKeepsDirectory(filePath, newName);
    var ext := Extension(filePath);
    var b := newName + ext;
    var j :| 0 <= j < |newName| && newName[j] != '.';
    assert b[j] == newName[j];
    if ext != [] {
      LastDotAt(b, |newName|);
      assert HasNonDotBefore(b, |newName|);
      assert b[|newName|..] == ext;
    } else {
      assert b == newName;
    }
  }

  /** The ffmpeg helpers write next to their input, under the derived names. */
  lemma StemNoSlash(p: string)
    ensures '/' !in Stem(p)
  {
    var stem := Stem(p);
    assert forall i :: 0 <= i < |stem| ==> stem[i] == Basename(p)[i];
  }

  /** The default trimmed video sits next to the input, named stem + '_trimmed' + extension. */
  lemma TrimName(videoPath: string)
    ensures Dirname(TrimOutput(videoPath, "")) == Dirname(videoPath)
    ensures Basename(TrimOutput(videoPath, "")) == Stem(videoPath) + "_trimmed" + Extension(videoPath)
  {
    var stem := Stem(videoPath);
    DirnameShape(videoPath);
    StemNoSlash(videoPath);
    NoSlashConcat(stem, "_trimmed");
    NoSlashConcat(stem + "_trimmed", Extension(videoPath));
    JoinPlainName(Dirname(videoPath), stem + "_trimmed" + Extension(videoPath));
  }

  /** The default volume-adjusted video sits next to the input, named stem + '_volume' + extension. */
  lemma VolumeName(videoPath: string)
    ensures Dirname(VolumeOutput(videoPath, "")) == Dirname(videoPath)
    ensures Basename(VolumeOutput(videoPath, "")) == Stem(videoPath) + "_volume" + Extension(videoPath)
  {
    var stem := Stem(videoPath);
    DirnameShape(videoPath);
    StemNoSlash(videoPath);
    NoSlashConcat(stem, "_volume");
    NoSlashConcat(stem + "_volume", Extension(videoPath));
    JoinPlainName(Dirname(videoPath), stem + "_volume" + Extension(videoPath));
  }

  /** The default extracted audio sits next to the input, named stem + '.' + format. */
  lemma AudioName(videoPath: string, audioFormat: string)
    requires '/' !in audioFormat
    ensures Dirname(AudioOutput(videoPath, audioFormat, "")) == Dirname(videoPath)
    ensures Basename(AudioOutput(videoPath, audioFormat, "")) == Stem(videoPath) + "." + audioFormat
  {
    var stem := Stem(videoPath);
    DirnameShape(videoPath);
    StemNoSlash(videoPath);
    NoSlashConcat(stem, ".");
    NoSlashConcat(stem + ".", audioFormat);
    JoinPlainName(Dirname(videoPath), stem + "." + audioFormat);
  }

  /** Every format gets a codec from the table; 'libmp3lame' exactly for 'mp3' and unknown formats. */
  lemma AudioCodecChoice(format: string)
    ensures AudioCodec(format) in Codecs.Values
    ensures AudioCodec(format) == "libmp3lame" <==> format == "mp3" || format !in Codecs
  {
    assert Codecs["mp3"] == "libmp3lame";
  }
}
