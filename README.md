# TasVID downloader core, modelled in Dafny

This project models the bookkeeping core of the TasVID YouTube downloader:

- **The download tracker of `youtube_downloader.py`.**
  - `active_downloads` is the table of download records.
  - `download_video` registers a record.
  - `_progress_hook` follows yt-dlp's progress events.
  - `_download_thread` finishes a download: CRF choice, the `compressing` and `completed` steps, the history entry, and the failure classes.
  - `cancel_download` and `get_download_status` look a record up.
  - The module also covers the format listing of `extract_video_info` with its retry loop, the two copies of the height ladder, `_resolution_to_number`, `_format_duration`, `_format_eta` and the safe-title sanitiser.
- **The additional features of `additional_features.py`.**
  - The scheduled-download queue: add, cancel, and one pass of the scheduler loop.
  - The batch table: creation, the batch thread and `_wait_for_download`.
  - The history rewrite behind `rename_file`.
  - `_time_to_seconds`, `_get_audio_codec` and `auto_categorize`.
  - The default output names of `rename_file`, `encrypt_file`, `decrypt_file`, `trim_video`, `adjust_audio_volume` and `extract_audio`.

The objects whose dictionaries the source updates in place are classes, and their methods change fields. These are `Downloads.YouTubeDownloader` (its `active` map), `Downloads.Storage` (the history file and the files on disk) and `Features.AdditionalFeatures` (the queue, its saved copy, and the batch table).

Each method is proved against specification functions, listed below:

| specification function | what it gives |
|---|---|
| `AfterHook` | the record after a progress event |
| `Finished`, `FilesAfter`, `HistoryAddition` | the record, the files and the new history entries after the download thread |
| `Pending`, `DueInOrder`, `Launched` | the queue, the `to_remove` list and `active_downloads` after a scheduler pass |
| `Settle`, `Tally`, `RunBatch` | the outcome of a wait, and the batch after it and after the whole thread |
| `RenamedHistory` | the history after a rename |

The lemmas state what those functions mean.

Things the code cannot see are parameters:
- a uuid4 value, the probed title and the timestamp;
- what yt-dlp answers, whether ffmpeg produced a file, and whether the rate-limit retry raised;
- the statuses a batch wait reads while downloads run concurrently;
- the iteration order of the scheduled-downloads dictionary.

Time is an integer and progress is a `real`.

Where the code and its written design disagree, the model follows the code:
- **Terminal states are not sticky.**
  - `_progress_hook` sets `downloading` or `processing` whatever the status was (`Downloads.HookDownloading`, `Downloads.HookFinished`).
  - The download thread sets `completed` after a successful fetch even on a cancelled record (`Downloads.ThreadFetched`).
  - A rate-limited download whose retry returns keeps whatever record it had (`Downloads.ThreadRaised`).
  - So nothing here claims that `completed`, `error` or `cancelled` are final.
- **`batch_download` accepts an empty URL list.** It then creates a batch with `total == 0`.
- **After a failed rate-limit retry, the record gets the original exception text.** It is not a separate error kind.

## Model

| member | source | states |
|---|---|---|
| Naming.SafeTitle | youtube_downloader.py:366-378 | the sanitised title keeps alphanumerics, space, '.', '_' and '-'; every other character becomes '_' in place; the length is min(50, len(title)); there is no '/' |
| Naming.SafeTitleIdempotent | youtube_downloader.py:367-369 | sanitising a sanitised title changes nothing |
| Naming.SafeTitleOfPrefix | youtube_downloader.py:367-369 | only the first 50 characters of the title decide the result |
| Naming.TitleFallback | youtube_downloader.py:364-378 | a missing or empty title falls back to the URL's last '/'-segment, which holds no '/' |
| Naming.OutputTemplatePlacement | youtube_downloader.py:356-384 | the output template names a file directly inside the chosen directory; its name is a safe title of at most 50 characters, then '_', then the timestamp |
| Resolutions.NumberOfLabel | youtube_downloader.py:252-259 | the sort key of 'Np' is N |
| Resolutions.LadderRank | youtube_downloader.py:186-201 | a label's sort key is the highest rung at or below the height (144 below 240), so a label never overstates the stream |
| Resolutions.LadderMonotone | youtube_downloader.py:186-201 | a taller stream never gets a label with a lower sort key |
| Resolutions.LadderRankTop | youtube_downloader.py:252-259 | every ladder label has a key in (-1, 2160], and the key is 2160 exactly for '4K' |
| Resolutions.LaddersAgree | youtube_downloader.py:629-651 | `_get_resolution_from_info` gives the same label as the format loop; a missing height gives '144p' and a height of None gives 'Unknown' |
| Extraction.BuildFormats | youtube_downloader.py:162-216 | the loop with its `seen_resolutions` set builds the audio entry followed by the first kept stream of every label, in stream order |
| Extraction.SeenLabelsSpec | youtube_downloader.py:203-207 | a label is in `seen_resolutions` exactly when a kept stream carries it |
| Extraction.CollectLabels | youtube_downloader.py:203-207 | no two video entries share a label, and the labels offered are exactly the labels seen |
| Extraction.CollectFirstWins | youtube_downloader.py:175-216 | every video entry comes from a stream with video and a non-zero height, and no earlier such stream has its label |
| Extraction.CollectComplete | youtube_downloader.py:175-216 | every stream with video and a non-zero height has its label offered |
| Extraction.CollectRanks | youtube_downloader.py:185-201 | every video entry has a key from 144 to 2160, and 2160 exactly for '4K' |
| Extraction.InsertNonIncreasing | youtube_downloader.py:218-219 | inserting into a list sorted highest first keeps it sorted |
| Extraction.SortDescNonIncreasing | youtube_downloader.py:218-219 | the sort leaves keys non-increasing |
| Extraction.AudioSortsLast | youtube_downloader.py:218-219 | after sorting, the audio entry (key -1) is last and appears nowhere else |
| Extraction.FourKSortsFirst | youtube_downloader.py:218-219 | after sorting, a '4K' entry, when there is one, is first |
| Extraction.ListingOrder | youtube_downloader.py:162-219 | the offered list is a permutation of the audio entry plus the video entries, sorted highest first, with audio last and '4K' first when present |
| Extraction.FirstAnswerSpec | youtube_downloader.py:147-159 | the described answer is the earliest of the three attempts that gives information, and there is one exactly when some attempt does |
| Extraction.ExtractVideoInfo | youtube_downloader.py:145-250 | the retry loop returns the description of the first informative answer, or the fixed failure message after three attempts without one |
| Display.DurationShapes | youtube_downloader.py:261-272 | 'Unknown' is shown exactly for a zero duration; anything else starts with a digit |
| Display.DurationFields | youtube_downloader.py:265-272 | a positive duration is shown as H:MM:SS from one hour on, otherwise as M:SS; the fields shown recompose the duration |
| Display.EtaMinutes | youtube_downloader.py:613-615 | between one minute and one hour the ETA shows the whole minutes left, singular only for exactly one |
| Display.EtaHours | youtube_downloader.py:616-619 | from one hour on the ETA shows hours and minutes, at most 59 seconds below the time left |
| PostProcess.Crf | youtube_downloader.py:466-483 | the CRF value always lies in [0, 51] |
| PostProcess.CrfOfNumber | youtube_downloader.py:476-481 | a written-out number is used as the CRF, capped at 51 |
| PostProcess.CrfOfNegative | youtube_downloader.py:476-479 | a negative number gives CRF 0 |
| PostProcess.CrfFallback | youtube_downloader.py:482-483 | text that is neither a preset nor a number gives 23 |
| PostProcess.RateLimitFirst | youtube_downloader.py:523-525 | a message containing '429' is a rate limit, whatever else it says |
| PostProcess.TooManyRequests | youtube_downloader.py:523-525 | a message containing 'too many requests', written in any letter case, is a rate limit |
| PostProcess.CaptchaDetected | youtube_downloader.py:553-557 | a message containing 'captcha', written in any letter case, is a CAPTCHA failure unless it is a rate limit |
| PostProcess.DrmDetected | youtube_downloader.py:559-563 | a message containing 'drm', written in any letter case, is never a generic failure: it is a rate limit, a CAPTCHA or a rights failure |
| Downloads.CrfValue | youtube_downloader.py:466-483 | the step-by-step CRF chain computes the CRF function, which lies in [0, 51] |
| Downloads.HookDownloading | youtube_downloader.py:571-583 | a 'downloading' event sets 'downloading' whatever the status was; an exact total wins over an estimate, and only an estimate is labelled as one |
| Downloads.HookProgress | youtube_downloader.py:584-592 | the percentage times the total equals downloaded bytes times 100 when the recorded total is positive; otherwise the percentage stays |
| Downloads.ProgressInRange | youtube_downloader.py:584-592 | while downloaded bytes do not exceed a positive total, the percentage is within [0, 100] |
| Downloads.HookFinished | youtube_downloader.py:605-607 | a 'finished' event sets 'processing' and 100 whatever the status was, and changes nothing else |
| Downloads.ThreadFetched | youtube_downloader.py:443-517 | a fetched download ends 'completed' with its output path, whatever ffmpeg did; the file stays at that path (re-encoded only when ffmpeg produced a file) unless the rename after removing the original raised, in which case no file is left there; the one appended history entry points to that path |
| Downloads.ThreadRaised | youtube_downloader.py:519-567 | a raised fetch changes no file and no history; a rate limit whose retry returned leaves the record as it was; every other failure sets 'error' with the CAPTCHA text, the DRM text or the exception text, in that order |
| Downloads.WrittenMatchesFinished | youtube_downloader.py:436-567 | the record ends in the last status the thread writes; 'compressing' is written exactly for a fetched video download whose setting is not 'none' |
| Downloads.YouTubeDownloader.DownloadVideo | youtube_downloader.py:350-434 | the returned id maps to a fresh 'starting' record (progress 0, no bytes, no output path) named after the safe title and timestamp; the rest of the table is unchanged |
| Downloads.YouTubeDownloader.ProgressHook | youtube_downloader.py:569-607 | the record of the id becomes the hook's result for the event, and no other record changes |
| Downloads.YouTubeDownloader.DownloadThread | youtube_downloader.py:436-567 | the record, the files on disk and the history become the thread's specified results, and the statuses written are the specified sequence |
| Downloads.YouTubeDownloader.SaveDownload | youtube_downloader.py:443-517 | the downloaded path is the requested path or the template plus container; the file is recorded there, re-encoded with the CRF only when compression applies and ffmpeg produced a file, and removed when the rename after the removal raised; exactly one history entry is appended |
| Downloads.YouTubeDownloader.FailedRecord | youtube_downloader.py:519-567 | the except branch stops untouched exactly for a rate limit whose retry returned; otherwise it gives the failed record and writes 'error' once |
| Downloads.YouTubeDownloader.CancelDownload | youtube_downloader.py:686-706 | a known id gets status 'cancelled' and nothing else changes; an unknown id reports failure and leaves the table unchanged |
| Downloads.YouTubeDownloader.GetDownloadStatus | youtube_downloader.py:673-684 | the lookup fails exactly when the id is absent, and otherwise returns its record |
| TimeParse.DurationRoundTrip | additional_features.py:285-299 | reading back any positive duration that `_format_duration` shows gives the duration |
| TimeParse.HoursMinutesSeconds | additional_features.py:289-291 | 'H:M:S' gives h*3600 + m*60 + s, also for fields above 59 |
| TimeParse.MinutesSeconds | additional_features.py:292-294 | 'M:S' gives m*60 + s |
| TimeParse.PlainNumber | additional_features.py:295-299 | text without ':' is read with `int()`, and gives 0 when that fails |
| TimeParse.BadPartFails | additional_features.py:292-294 | in 'M:S', a minutes or seconds part that `int()` refuses makes the conversion fail instead of giving 0 |
| TimeParse.BadPartFailsThree | additional_features.py:289-291 | in 'H:M:S', any part that `int()` refuses makes the conversion fail |
| FileNames.DecryptUndoesEncrypt | additional_features.py:613-651 | the default decrypt name of the default encrypt name is the original name |
| FileNames.DecryptPlainName | additional_features.py:647-651 | a name without '.enc' is kept whole behind 'decrypted_' |
| FileNames.EncryptDecryptPaths | additional_features.py:609-653 | with default names, encrypting then decrypting names the original file in the original directory |
| FileNames.RenameKeepsDirectory | additional_features.py:377-379 | a renamed file stays in its directory and is named the new name followed by the old extension |
| FileNames.RenameKeepsExtension | additional_features.py:377-379 | the renamed file has the old extension when the new name has a character other than '.' (and no '.' when there was no extension) |
| FileNames.TrimName | additional_features.py:251-256 | the trimmed video sits next to the input, named stem + '_trimmed' + extension |
| FileNames.VolumeName | additional_features.py:305-310 | the volume-adjusted video sits next to the input, named stem + '_volume' + extension |
| FileNames.AudioName | additional_features.py:336-341 | the extracted audio sits next to the input, named stem + '.' + format |
| FileNames.AudioCodecChoice | additional_features.py:363-372 | every format gets a codec from the table, and 'libmp3lame' exactly for 'mp3' and unknown formats |
| Categories.Winner | additional_features.py:464-473 | the argmax picks the first strictly largest positive score, or none when all scores are 0 |
| Categories.CountHits | additional_features.py:447-450 | one keyword loop adds the weight once per keyword found in the text |
| Categories.CategoryScore | additional_features.py:446-462 | the three loops give 3 per title hit, 2 per (tag, keyword) hit and 1 per description hit |
| Categories.BestIndex | additional_features.py:464-473 | the argmax loop computes the first strictly largest positive score |
| Categories.AutoCategorize | additional_features.py:422-473 | the result is the first category, in declaration order, with the strictly largest score; it is 'other' exactly when every score is 0 |
| Categories.HitsZero | additional_features.py:447-450 | no hits exactly when no keyword occurs in the text |
| Categories.ScoreZero | additional_features.py:446-462 | a category scores 0 exactly when none of its keywords occurs in the title, any tag or the description, all lower-cased |
| Categories.TitleKeywordNotOther | additional_features.py:446-473 | any category keyword in the title makes the result a real category |
| Categories.VlogTie | additional_features.py:432-473 | the title 'vlog' ties entertainment and travel, and entertainment wins |
| Scheduling.PassSplitsQueue | additional_features.py:56-77 | a pass starts exactly the entries with now >= time and leaves the others exactly as they were |
| Scheduling.SecondPassIdle | additional_features.py:53-81 | a second pass at the same time starts nothing and changes nothing |
| Scheduling.LaterPass | additional_features.py:53-81 | a pass followed by a later one starts and leaves what one pass at the later time would |
| Scheduling.DueInOrderKeys | additional_features.py:56-77 | the `to_remove` list holds every due key exactly once |
| Scheduling.LaunchedRecords | additional_features.py:56-73 | with distinct download ids, every due entry's fresh record is found under its id, and every other id is unchanged |
| Features.AdditionalFeatures.ScheduleDownload | additional_features.py:86-109 | the queue gains the entry under the new id, nothing else changes, and the file is saved |
| Features.AdditionalFeatures.CancelScheduled | additional_features.py:111-124 | a known id is removed and the file saved; an unknown id reports failure and leaves the queue and file unchanged |
| Features.AdditionalFeatures.PollScheduler | additional_features.py:53-81 | one pass starts one download per due entry in dictionary order, leaves exactly the pending entries, and saves only if something was removed |
| Features.AdditionalFeatures.StartDue | additional_features.py:56-73 | the first loop calls `download_video` for each due entry in order and lists those keys |
| Batches.Tally | additional_features.py:213-232 | the end of a wait adds exactly one to completed + failed; total, in_progress and status are unchanged |
| Batches.SettleSucceeds | additional_features.py:202-232 | a wait succeeds exactly when a poll before the 600th reads 'completed' and every earlier poll found the download running |
| Batches.SettleReadsFirstPolls | additional_features.py:204-229 | only the first 600 polls matter |
| Batches.NeverSettles | additional_features.py:207-232 | a download that stays 'downloading' for 600 polls counts as failed |
| Batches.BatchConservation | additional_features.py:164-197 | each URL adds exactly one to completed + failed, completed counts the successful waits, and total, in_progress and status are unchanged |
| Batches.BatchTracksEveryRun | additional_features.py:179-185 | every URL's download id is tracked in the batch |
| Batches.BatchKeepsUrls | additional_features.py:182-185 | each URL's download is tracked under its id with that URL, when no later URL reuses the id |
| Batches.FinishedBatch | additional_features.py:138-200 | a batch created for a URL list and run to the end has completed + failed == total, in_progress == 0 and status 'completed' |
| Batches.RegisteredKeys | additional_features.py:164-177 | the batch registers one download per URL and leaves other records unchanged |
| Batches.RegisteredRecord | additional_features.py:170-177 | each URL's download gets a fresh 'starting' record named after its title and timestamp |
| Features.AdditionalFeatures.BatchDownload | additional_features.py:133-159 | a new batch holds total = len(urls), zero counters, no downloads and status 'starting' |
| Features.AdditionalFeatures.WaitForDownload | additional_features.py:202-232 | the batch becomes the tally of the wait's outcome, with the member's last observed status, and the result says whether it completed |
| Features.AdditionalFeatures.DownloadMember | additional_features.py:164-197 | one URL raises in_progress, registers and tracks its download, waits, and lowers in_progress again |
| Features.StepThroughCounter | additional_features.py:166-197 | raising and then lowering in_progress around a wait gives the batch step |
| Features.AdditionalFeatures.BatchDownloadThread | additional_features.py:161-200 | the batch becomes the run over all URLs with status 'completed', and every URL's download is registered |
| History.RenamedEntries | additional_features.py:410-414 | entries on the old path move to the new path with the new title, and every other entry is unchanged |
| History.TitleIsStem | additional_features.py:414 | the new title is the new base name up to its first '.' |
| History.RenameIdempotent | additional_features.py:410-414 | rewriting twice with the same paths is rewriting once |
| History.RenameBackRestoresPaths | additional_features.py:410-414 | renaming away and back restores every entry's path, when no entry was already on the new path |
| History.MovedFile | additional_features.py:382 | the renamed file keeps its contents under the new path, and no other file changes |
| Features.AdditionalFeatures.UpdateHistoryFilename | additional_features.py:399-420 | the history becomes its rewrite, entry by entry |
| Features.AdditionalFeatures.RenameFile | additional_features.py:374-397 | an existing file moves to the renamed path and its history follows; a missing file fails and changes nothing |

## Left out

- **yt-dlp, ffmpeg and openssl are not modelled.** Neither are JSON file loading and saving, or `os.makedirs`; of `os.remove` and `os.rename` only the outcome of the compression replacement is modelled. What they answer is a parameter. A history file that is missing or corrupt, and save failures, are not modelled.
- **Concurrency is not modelled.** Each background thread is one sequential method. The race between `cancel_download` and a running thread is left out. A batch wait sees the concurrent download only through its poll observations.
- **`_format_size` and `_estimate_size` use floating-point formatting.** The size and speed texts are therefore kept abstract. The history entry's 'size' field, computed by `_get_file_size`, is left out for the same reason.
- **Python's `int()`, `str.isalnum` and `str.lower` are modelled on ASCII text.** Unicode digits, underscores in numbers and non-ASCII letters are not modelled.
- **The user-agent and proxy choice, and `_get_ydl_opts`, are not modelled.** Neither are the regex helpers and the bypass helpers, which are random or thin library wrappers. `start_time`, the sleeps and the clock are also not modelled: timestamps and times are parameters.
- **The `_compressed.mp4` temporary file is not modelled.** The model keeps only the end state of the downloaded path: the re-encoded file, the original, or nothing when `os.remove` succeeded and `os.rename` then raised. In that last case the compressed file left under its temporary name is not modelled.
- **After a successful rate-limit retry, the file yt-dlp wrote is not modelled.** The source records nothing about that file.
- **The batch branches for a `download_video` that reports failure or raises are not modelled.** `download_video` catches every error of its title probe, so in this model it always succeeds.
- **The ISO text of `scheduled_time` is not modelled.** Time is an integer number of seconds.
- **`auto_organize`, `upload_to_cloud`, `send_notification`, `download_playlist`, `get_batch_status` and `get_scheduled_downloads` are not modelled.** They are I/O or plain lookups outside this core. Only the output names of the ffmpeg helpers are modelled.
- Scheduling.LaunchedRecords: requires the uuid4 values of one pass to be distinct. When two collide, the later call overwrites the earlier record, and `Scheduling.Launched` models that.
- Batches.RegisteredRecord: states the record only for a download id that no later URL reuses, for the same reason.
- FileNames.RenameKeepsExtension: requires that the new name has a character other than '.'. A name of only dots changes what `os.path.splitext` treats as the extension.
