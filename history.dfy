/**
 * The history rewrite of `_update_history_filename` in additional_features.py
 * and the file move of `rename_file`, as values.
 */
module History {
  import opened Text
  import opened Paths
  import opened Downloads

  /** The title an entry gets when it follows a file to `newPath`: its base name up to the first '.'. */
  function TitleOf(newPath: string): string {
    FirstPart(Basename(newPath), '.')
  }

  /** One entry after the rewrite. */
  function Retitled(entry: HistoryEntry, oldPath: string, newPath: string): HistoryEntry {
    if entry.path == oldPath then entry.(path := newPath, title := TitleOf(newPath)) else entry
  }

  /** The whole history after the rewrite. */
  function RenamedHistory(history: seq<HistoryEntry>, oldPath: string, newPath: string): (h: seq<HistoryEntry>)
    ensures |h| == |history|
  {
    seq(|history|, i requires 0 <= i < |history| => Retitled(history[i], oldPath, newPath))
  }

  /** `os.rename`: the file leaves `oldPath` and is found at `newPath`, replacing what was there. */
  function Moved(files: map<string, MediaFile>, oldPath: string, newPath: string): map<string, MediaFile>
    requires oldPath in files
  {
    (files - {oldPath})[newPath := files[oldPath]]
  }

  // ---------------------------------------------------------------- properties

  /**
   * Entries on the old path move to the new one with the new title, keeping
   * id, container, resolution and date; every other entry is unchanged.
   */
  lemma RenamedEntries(history: seq<HistoryEntry>, oldPath: string, newPath: string)
    ensures forall i :: 0 <= i < |history| && history[i].path == oldPath ==>
      RenamedHistory(history, oldPath, newPath)[i]
        == history[i].(path := newPath, title := TitleOf(newPath))
    ensures forall i :: 0 <= i < |history| && history[i].path != oldPath ==>
      RenamedHistory(history, oldPath, newPath)[i] == history[i]
    ensures oldPath != newPath ==> forall i :: 0 <= i < |history| ==> RenamedHistory(history, oldPath, newPath)[i].path != oldPath
  {
  }

  /** The new title has no '.', and the new base name starts with it, followed by nothing or a '.'. */
  lemma TitleIsStem(newPath: string)
    ensures '.' !in TitleOf(newPath) && '/' !in TitleOf(newPath)
    ensures |TitleOf(newPath)| <= |Basename(newPath)|
    ensures Basename(newPath)[..|TitleOf(newPath)|] == TitleOf(newPath)
    ensures |TitleOf(newPath)| < |Basename(newPath)| ==> Basename(newPath)[|TitleOf(newPath)|] == '.'
  {
    FirstPartIsPrefix(Basename(newPath), '.');
  }

  /** Rewriting twice with the same paths is rewriting once. */
  lemma RenameIdempotent(history: seq<HistoryEntry>, oldPath: string, newPath: string)
    ensures RenamedHistory(RenamedHistory(history, oldPath, newPath), oldPath, newPath) == RenamedHistory(history, oldPath, newPath)
  {
    var once := RenamedHistory(history, oldPath, newPath);
    assert forall i :: 0 <= i < |once| ==> Retitled(once[i], oldPath, newPath) == once[i];
  }

  /** Renaming a file away and back restores every entry's path (titles follow the last name). */
  lemma RenameBackRestoresPaths(history: seq<HistoryEntry>, oldPath: string, newPath: string)
    requires forall i :: 0 <= i < |history| ==> history[i].path != newPath
    ensures var back := RenamedHistory(RenamedHistory(history, oldPath, newPath), newPath, oldPath);
      forall i :: 0 <= i < |history| ==> back[i].path == history[i].path
  {
  }

  /** The move keeps the file's contents and only the two paths change. */
  lemma MovedFile(files: map<string, MediaFile>, oldPath: string, newPath: string)
    requires oldPath in files
    ensures newPath in Moved(files, oldPath, newPath) && Moved(files, oldPath, newPath)[newPath] == files[oldPath]
    ensures oldPath != newPath ==> oldPath !in Moved(files, oldPath, newPath)
    ensures oldPath == newPath ==> Moved(files, oldPath, newPath) == files
    ensures forall p :: p != oldPath && p != newPath ==>
      (p in Moved(files, oldPath, newPath) <==> p in files) &&
      (p in files ==> Moved(files, oldPath, newPath)[p] == files[p])
  {
  }
}
