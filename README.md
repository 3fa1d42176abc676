# MangaDM, modelled in Dafny

MangaDM downloads manga chapters described by a JSON document: a manga name, a cover URL
and a list of chapters, each with a title and a list of image URLs. For every chapter it
downloads the images into a folder under the destination, resuming interrupted transfers
with an HTTP Range header. A chapter whose images all arrived is renamed into place,
optionally archived, and optionally removed from the document, which is then saved. A chapter
limit stops the run early.

The repository holds four generations of that engine, and this project models each one as
its own modules:

| generation | modules |
|---|---|
| `src/mangadm` (current) | `DownloadTypes` (the four-way result and its counts), `Sanitize` (the name translation table), `Loader` (the slide loader), `Orchestrator` (the chapter walk), `CliUtil`, `CliMain`, `Assets` |
| `mangadm/` | `LegacyUtility`, `LegacyStats`, `LegacyEngine`, `RetryDownloader` (the retrying downloader kept in `src/mangadm/core/downloader.py`, which works on this generation's statistics manager), with `Wording` for the counters' sentences |
| `manga_dm/` | `MangaDmStats`, `MangaDmUtility`, `MangaDmDownloader`, `MangaDmCore` |
| `MangaDM/` (first) | `FirstDownloader`, `FirstEngine` |
| packaging | `Setup` (`parse_requirements` of `setup.py`) |

The shared modules carry no behaviour of their own:
- `Wrappers` holds Option and Result.
- `Strings` has the Python string built-ins the code uses.
- `Json` is the parsed JSON values, with Python truthiness.
- `Ordering` has the orders and `sorted`.
- `Seqs` counts occurrences.
- `PathNames` has the `pathlib` name rules.
- `FileSystem` is the disk as a map from a path to a file or a folder.
- `Http` is a server's answer as a value: status, headers, body chunks and how the stream ended.

How the outside world enters the model:
- The network is a parameter:
  - the slide loader gets one reply per request;
  - the requests-based downloaders consume a finite list of replies, one per request sent.
- The disk is part of an explicit world value that each operation takes and returns.
- An exception that escapes is an `Err` value, as a leaving `Failure`.
- Decoding a URL into its file name is another parameter.

Where the source updates state in place, the model does too:
- the statistics managers, downloaders and orchestrators are classes whose methods change their fields;
- each method is proved equal to a specification function of the old state;
- the loops keep their invariants;
- the properties are lemmas about those functions.

Where the code departs from what it evidently intends, the model follows the code:
- In the current engine a failed chapter's result stays in the loader and fails the chapters after it (see Findings).
- In the current engine, the first chapter the loader runs removes the loader's cached spinner task, and the next chapter that reaches `loader.all()` raises KeyError there, so a run does not get past it (see Findings).
- In every generation, an entry that is not a dict, or whose title is not a string, raises out of the walk and ends the run. The model carries that exception to the end of the run.
- In the current engine the images value is never checked. A string is walked character by character and a dict key by key, each taken as a URL. A number, a boolean or a list holding a non-string raises TypeError inside `loader.all()`, after the temp folder was made.
- The current engine's constructor, as written, always raises (see Findings). The rest of the current engine's model describes the constructor as evidently intended.

## Model

| member | source | states |
|---|---|---|
| DownloadTypes.StatusOnlyResult | src/mangadm/components/types.py:19-24 | a result built from a status alone has no path, no error and no url |
| DownloadTypes.Statuses | src/mangadm/components/types.py:39-41 | the statuses of the results, position by position |
| DownloadTypes.CountIsMultiplicity | src/mangadm/components/types.py:39-41 | a status count is the number of results carrying that status |
| DownloadTypes.CountAppend | src/mangadm/components/types.py:39-41 | counting is additive over concatenated result lists |
| DownloadTypes.CountsSum | src/mangadm/components/types.py:12-16 | the four counts add up to the number of results: the status set is closed |
| DownloadTypes.NoFailedCount | src/mangadm/components/types.py:48-51 | the failed count is 0 exactly when no result FAILED |
| DownloadTypes.AllSuccessIff | src/mangadm/components/types.py:63-73 | all_success is false for no results, and otherwise holds exactly when nothing FAILED |
| DownloadTypes.AllSuccessOrderFree | src/mangadm/components/types.py:63-73 | all_success does not depend on the order the results arrived in |
| DownloadTypes.FailureSticks | src/mangadm/components/types.py:63-73 | once one result FAILED, no later results make all_success true |
| DownloadTypes.Status.constructor | src/mangadm/components/types.py:28-29 | a new Status holds no results |
| DownloadTypes.Status.Add | src/mangadm/components/types.py:31-34 | appending to the results list adds exactly that result at the end |
| DownloadTypes.Status.ClearResults | src/mangadm/components/types.py:36-37 | after clear_results every count is 0 and all_success is false |
| Sanitize.KeysAreTheTable | src/mangadm/core/mangadm.py:20-24 | the characters str.translate rewrites are exactly the twenty keys of the table |
| Sanitize.ReplacementsClean | src/mangadm/core/mangadm.py:20-24 | no replacement text holds a table key |
| Sanitize.TranslateAppend | src/mangadm/core/mangadm.py:92-94 | translation is character by character: a concatenation translates piecewise |
| Sanitize.TranslateSingle | src/mangadm/core/mangadm.py:20-24 | each entry of the table, as it acts on one character ('?' deleted, '&' to " - ", brackets to '-', '*' and '%' to a space, the rest to '_') |
| Sanitize.TranslateClean | src/mangadm/core/mangadm.py:224 | a sanitised title holds no table character |
| Sanitize.TranslateCleanFixed | src/mangadm/core/mangadm.py:224 | a title without table characters is left unchanged |
| Sanitize.TranslateIdempotent | src/mangadm/core/mangadm.py:224 | sanitising twice is sanitising once |
| Orchestrator.CheckJsonName | src/mangadm/core/mangadm.py:54-60 | the file name is accepted exactly when its lower-cased form ends in ".json"; otherwise ValueError |
| Orchestrator.CheckJsonNameIgnoresCase | src/mangadm/core/mangadm.py:56 | a name and its lower-cased form are accepted alike |
| Orchestrator.UpperCaseJsonAccepted | src/mangadm/core/mangadm.py:56 | a name ending in ".JSON" is accepted |
| Orchestrator.LoadData | src/mangadm/core/mangadm.py:139-146 | the parsed document; the empty default document when the file is missing, unreadable or not JSON; UnicodeDecodeError (a ValueError the except clause does not catch) exactly when its bytes are not UTF-8 |
| Orchestrator.CheckData | src/mangadm/core/mangadm.py:70-79 | a document is accepted exactly when it is a dict whose "details" is a dict and whose "chapters" is a list; otherwise ValueError |
| Orchestrator.AcceptedDataReadable | src/mangadm/core/mangadm.py:63-68 | an accepted document never makes the data getter raise |
| Orchestrator.DefaultDocumentAccepted | src/mangadm/core/mangadm.py:144-146 | for a missing, unreadable or non-JSON file, the fallback document loads, passes the shape check and has no chapters |
| Orchestrator.DefaultDocumentShape | src/mangadm/core/mangadm.py:146 | the fallback document is well shaped with an empty chapter list |
| Orchestrator.BaseFolder | src/mangadm/core/mangadm.py:85-97 | the base folder lies under the destination; a manganame that is not a string raises AttributeError |
| Orchestrator.Setters | src/mangadm/core/mangadm.py:38-96 | the constructor's setters in order: a bad file name raises its ValueError first, a file that is not UTF-8 then raises UnicodeDecodeError, a badly shaped parsed document raises ValueError, and accepted settings hold a well-shaped document and a base folder under the destination |
| Orchestrator.Open | src/mangadm/core/mangadm.py:37-97 | the setters, then the base folder's mkdir: a setter that raises leaves the disk unchanged; accepted settings make the base folder with its missing parents, and it is a folder afterwards unless a file holds its name |
| Orchestrator.OpenSucceeds | src/mangadm/core/mangadm.py:54-97 | a ".json" name and a well-shaped document with a string manganame open with that document, its base folder, and the base folder made on disk |
| Orchestrator.ConstructAsWritten | src/mangadm/core/mangadm.py:27-47 | as written every construction raises: once the setters succeed it is TypeError, because SlideLoader takes no `console` argument, and the base folder has already been made |
| Orchestrator.NotUtf8Raises | src/mangadm/core/mangadm.py:139-146 | a ".json" file that is not UTF-8 raises UnicodeDecodeError from the setters with the disk unchanged, and the construction as written raises the same |
| Orchestrator.ReadChapter | src/mangadm/core/mangadm.py:224-225 | reading fails with AttributeError exactly when the entry is not a dict or its title is not a string; the title is sanitised and holds no table character; the images value is taken unchecked, an empty list when absent |
| Orchestrator.LoaderUrls | src/mangadm/core/slide_loader.py:211-231 | what download_all walks: a list of strings item by item, a string character by character, a dict key by key, as many URLs as `len` counts; a number, a boolean or a list holding a non-string raises TypeError |
| Orchestrator.CreateTempFolder | src/mangadm/core/mangadm.py:158-162 | mkdir(exist_ok=True) succeeds exactly when the folder exists or its parent does; it adds only that folder and keeps every other entry; otherwise OSError |
| Orchestrator.TempFolderCreatable | src/mangadm/core/mangadm.py:158-162 | inside an existing base folder the temp folder can always be made unless a file holds its name |
| Orchestrator.IsDownloadedChapter | src/mangadm/core/mangadm.py:113-137 | an archive means downloaded; otherwise a temp folder, a missing folder or a temp-named entry all mean not downloaded |
| Orchestrator.CompleteFolderDetected | src/mangadm/core/mangadm.py:130-137 | without a temp folder, a folder without temp entries is downloaded exactly when an archive exists or its entry count equals the image count |
| Orchestrator.ArchiveIsNotTemp | src/mangadm/core/mangadm.py:122-160 | the chapter's archive paths and its temp folder are different paths |
| Orchestrator.IndexOf | src/mangadm/core/mangadm.py:179 | the position list.remove looks at: the first element structurally equal to the value (see "## Left out") |
| Orchestrator.RemoveFirst | src/mangadm/core/mangadm.py:179-183 | list.remove fails (ValueError) exactly when no element is structurally equal to the value, and otherwise drops one element |
| Orchestrator.RemoveFirstMultiset | src/mangadm/core/mangadm.py:179 | removal takes exactly one occurrence of the value out of the list's multiset |
| Orchestrator.RemoveFirstPositions | src/mangadm/core/mangadm.py:179 | elements before the removed one keep their places and later ones move up by one |
| Orchestrator.SetField | src/mangadm/core/mangadm.py:179 | assigning an existing key replaces its value in place and leaves every other key and the key order unchanged |
| Orchestrator.RemoveFromData | src/mangadm/core/mangadm.py:176-183 | removing a chapter from the document succeeds exactly when the entry is in its chapter list |
| Orchestrator.RemoveFromDataShape | src/mangadm/core/mangadm.py:176-180 | removal keeps the shape and the details and takes one entry out of the chapter list |
| Orchestrator.DroppedRemoves | src/mangadm/core/mangadm.py:176-183 | a present entry leaves the document, which keeps its shape, and the new document is saved |
| Orchestrator.NonPositiveLimitNeverStops | src/mangadm/core/mangadm.py:109-111 | a limit of 0 or below never stops processing |
| Orchestrator.SkippedNotCounted | src/mangadm/core/mangadm.py:109-111 | a SKIPPED or REPLACED result brings the limit no closer |
| Orchestrator.ChapterStepReachesLoader | src/mangadm/core/mangadm.py:238-256 | with the spinner task live, a chapter that reaches the loader is settled from the loader run into its temp folder, and the task is removed afterwards |
| Orchestrator.SpinnerGoneRaises | src/mangadm/core/slide_loader.py:207-216 | once the spinner task was removed, a chapter that reaches `loader.all()` with images that have a length raises KeyError, with no result recorded and nothing fetched |
| Orchestrator.NoImagesNoResult | src/mangadm/core/mangadm.py:227-229 | a chapter whose images value is falsy (absent, an empty list, string or dict, 0, false or null) changes nothing and records no result |
| Orchestrator.CountNotConsulted | src/mangadm/core/mangadm.py:126-137 | once the temp folder exists the check answers from the archives alone, whatever the image count |
| Orchestrator.TempFolderKeepsArchives | src/mangadm/core/mangadm.py:121-161 | making the temp folder neither makes nor hides one of the chapter's archives |
| Orchestrator.SkippedOnlyWithArchive | src/mangadm/core/mangadm.py:127-236 | because the temp folder is created before the check, a chapter is SKIPPED only when one of its archives already exists |
| Orchestrator.FolderSkippedOnlyWithArchive | src/mangadm/core/mangadm.py:231-236 | from create_temp_folder on, a SKIPPED verdict needs an archive that was already on disk |
| Orchestrator.LateTypeError | src/mangadm/core/mangadm.py:231-241 | images the loader cannot walk raise only when no archive exists, and then after the temp folder was made and the loader pointed at it, with no result recorded; with an archive the chapter is SKIPPED. The exception is TypeError, except KeyError for a list once the spinner task was removed, because the spinner update comes before the items are read |
| Orchestrator.SettleAppendsVerdict | src/mangadm/core/mangadm.py:243-255 | the bookkeeping appends exactly one result, SUCCESS or FAILED by all_success, carrying the temp folder |
| Orchestrator.SettleSuccess | src/mangadm/core/mangadm.py:164-251 | with all_success, SUCCESS is recorded and the loader cleared even when the rename refuses; an existing final path leaves disk and document untouched |
| Orchestrator.SettleFailure | src/mangadm/core/mangadm.py:252-255 | without all_success, FAILED is recorded and nothing is renamed, archived or removed |
| Orchestrator.SettleDataChange | src/mangadm/core/mangadm.py:248-251 | the document changes only after a successful rename with delete_on_success set, and then loses exactly this chapter and is saved |
| Orchestrator.SettleArchives | src/mangadm/core/mangadm.py:248-249 | the archiver runs on the renamed folder exactly after a successful rename |
| Orchestrator.ChapterStepOneResult | src/mangadm/core/mangadm.py:220-256 | each chapter appends at most one result and keeps the earlier ones |
| Orchestrator.ChapterStep | src/mangadm/core/mangadm.py:220-256 | an entry whose title cannot be read raises that exception and changes nothing; a chapter without images is passed over with nothing changed and nothing raised |
| Orchestrator.RunChapters | src/mangadm/core/mangadm.py:210-218 | the results recorded before the run are kept as a prefix, and the run adds at most one result per chapter |
| Orchestrator.CountedGrowsByOne | src/mangadm/core/mangadm.py:111 | one more result raises the SUCCESS plus FAILED count by at most one |
| Orchestrator.RunRespectsLimit | src/mangadm/core/mangadm.py:109-218 | a run never records more SUCCESS plus FAILED results than a positive limit |
| Orchestrator.SecondLoaderChapterRaises | src/mangadm/core/mangadm.py:238-256 | as written: after a chapter the loader ran, with the task live at its start, the next chapter that reaches `loader.all()` raises KeyError |
| Orchestrator.TwoLoaderChaptersRaise | src/mangadm/core/mangadm.py:210-218 | as written: two chapters in a row that both need downloading, with the limit not reached, end the run on that KeyError |
| Orchestrator.NewTaskNoKeyError | src/mangadm/core/slide_loader.py:55-62 | corrected, with the spinner task made afresh for each chapter: a chapter raises only AttributeError, OSError or TypeError |
| Orchestrator.RunNewTaskNoKeyError | src/mangadm/core/mangadm.py:210-218 | corrected: no run ends on the spinner's KeyError |
| Orchestrator.NewTaskSettles | src/mangadm/core/mangadm.py:238-256 | corrected: every chapter that reaches the loader settles and records its verdict, whatever came before it |
| Orchestrator.StickyFailure | src/mangadm/core/mangadm.py:243-255 | as written, save that the spinner task is made afresh for each chapter (without which the next chapter raises first): once the loader holds a FAILED result, every later chapter that reaches the loader is recorded FAILED |
| Orchestrator.FailedChapterLeavesFailure | src/mangadm/core/mangadm.py:252-255 | a FAILED chapter leaves its FAILED result in the loader for the next chapters |
| Orchestrator.FreshVerdict | src/mangadm/core/mangadm.py:238-255 | corrected: with the loader cleared before each chapter, the verdict is SUCCESS exactly when that chapter's own batch is all resolved |
| Orchestrator.MangaDM.constructor | src/mangadm/core/mangadm.py:37-48 | corrected: the object holds the settings Open accepted, with no results, the loader empty and its spinner task not yet removed |
| Orchestrator.MangaDM.RemoveChapter | src/mangadm/core/mangadm.py:176-183 | True exactly when the entry was in the document; the document loses it and is saved |
| Orchestrator.MangaDM.ProcessChapter | src/mangadm/core/mangadm.py:220-256 | the object's new state is the chapter step of its old state |
| Orchestrator.MangaDM.ProcessFolder | src/mangadm/core/mangadm.py:231-256 | from create_temp_folder on, the object's new state is that of the folder step: OSError from the mkdir, SKIPPED for a chapter already downloaded, or the loader's run |
| Orchestrator.MangaDM.ProcessCreated | src/mangadm/core/mangadm.py:234-256 | with the temp folder made, the object's new state is SKIPPED for a chapter already downloaded, or the loader's run |
| Orchestrator.MangaDM.LoadImages | src/mangadm/core/mangadm.py:239-256 | the loader is pointed at temp, then raises the TypeError of images without a length, the spinner's KeyError once its task is gone, or the TypeError of a non-string item, or else runs and is settled |
| Orchestrator.MangaDM.RunLoader | src/mangadm/core/mangadm.py:239-256 | for images the loader can walk: the spinner's KeyError once its task is gone, or else the run, the bookkeeping and the task's removal |
| Orchestrator.MangaDM.FinishChapter | src/mangadm/core/mangadm.py:243-256 | the bookkeeping of the old state, after which the spinner task is removed |
| Orchestrator.MangaDM.PointLoader | src/mangadm/core/mangadm.py:239 | setting save_dir makes the folder and changes nothing else of the run |
| Orchestrator.MangaDM.LoadChapter | src/mangadm/core/mangadm.py:238-241 | the loader is pointed at the temp folder and the images and run, and its results are appended; it raises the spinner's KeyError, with nothing fetched, exactly when the task was removed |
| Orchestrator.MangaDM.SettleChapter | src/mangadm/core/mangadm.py:243-255 | the object's new state is the bookkeeping of its old state |
| Orchestrator.MangaDM.ProcessChapters | src/mangadm/core/mangadm.py:210-218 | the chapters of a snapshot copy are processed in order until the limit stops the run or one raises |
| Loader.MakeName | src/mangadm/core/slide_loader.py:132-147 | with an index the name always exists (the index wins over the filename); with only a non-empty filename it is `filename.with_suffix(suffix)`; with neither, ValueError |
| Loader.MakeNameIndexParts | src/mangadm/core/slide_loader.py:139-141 | an index-derived name reads back as the two-digit zero-padded index followed by the URL's suffix |
| Loader.MakeNameFilenameParts | src/mangadm/core/slide_loader.py:144-145 | a filename-derived name keeps the filename's stem and takes the URL's suffix |
| Loader.DigitNameParts | src/mangadm/core/slide_loader.py:141 | a digit string followed by a suffix splits back into the two |
| Loader.IndexNamesDistinct | src/mangadm/core/slide_loader.py:141-221 | different indices never give the same file name, whatever the URLs |
| Loader.ResumeRequest | src/mangadm/core/slide_loader.py:162-164 | the request goes to the URL and carries `Range: bytes=k-` exactly when the temp file holds k > 0 bytes |
| Loader.Offset | src/mangadm/core/slide_loader.py:170-172 | the offset is kept, or drops to 0 exactly when it was 0 or the status is not 206 and there is no Accept-Ranges header |
| Loader.TotalSize | src/mangadm/core/slide_loader.py:174-175 | the total exists exactly with a content-length, and is that length plus the offset |
| Loader.TransferClassification | src/mangadm/core/slide_loader.py:154-205 | every transfer reports its URL and ends SUCCESS, REPLACED or FAILED, never SKIPPED; REPLACED exactly for an HTTP error status; SUCCESS carries the final path and needs a complete body, the others carry the temp path and the error |
| Loader.Transfer | src/mangadm/core/slide_loader.py:154-205 | every transfer reports its URL and is never SKIPPED; a request that gets no response leaves the disk untouched and shows no total |
| Loader.ResumeAppends | src/mangadm/core/slide_loader.py:163-188 | a resumed transfer the server honours ends SUCCESS with the final file holding the old bytes followed by the body, the temp file gone and the total the content-length plus the offset |
| Loader.RestartTruncates | src/mangadm/core/slide_loader.py:170-188 | when the server ignores ranges the temp file is truncated and the final file holds exactly the new body |
| Loader.PlaceholderOnlyWhenGone | src/mangadm/core/slide_loader.py:190-198 | an HTTP error yields REPLACED and changes the disk only for 401, 403 and 404, by writing the placeholder to the final path |
| Loader.BrokenTransferKeepsPartial | src/mangadm/core/slide_loader.py:180-205 | a body that broke off yields FAILED, keeps every byte received in the temp file, and the next request resumes from exactly that size |
| Loader.UnreachableChangesNothing | src/mangadm/core/slide_loader.py:200-205 | with no response at all the disk is unchanged and the result is FAILED with no total |
| Loader.IndexNames | src/mangadm/core/slide_loader.py:230-231 | one name per URL, from the 1-based index |
| Loader.PreCheck | src/mangadm/core/slide_loader.py:229-245 | each of the first n URLs becomes either a SKIPPED entry or a task |
| Loader.ResultUrls | src/mangadm/components/types.py:24 | the url field of each result, position by position |
| Loader.TaskUrls | src/mangadm/core/slide_loader.py:242 | the URL of each task, position by position |
| Loader.SomeUrls | src/mangadm/core/slide_loader.py:230 | the URL list lifted to optional values, position by position |
| Loader.SkipCounted | src/mangadm/core/slide_loader.py:233-241 | a SKIPPED entry for one more URL keeps the URL count balanced |
| Loader.TaskCounted | src/mangadm/core/slide_loader.py:242 | a task for one more URL keeps the URL count balanced |
| Loader.PreCheckCounts | src/mangadm/core/slide_loader.py:229-245 | the pre-check loses no URL: SKIPPED entries and tasks together hold each URL as often as the list does |
| Loader.PreCheckUrlsPresent | src/mangadm/core/slide_loader.py:234-240 | every SKIPPED entry carries its URL |
| Loader.PreCheckSkipped | src/mangadm/core/slide_loader.py:233-240 | every SKIPPED entry names a final file that exists |
| Loader.PreCheckTasks | src/mangadm/core/slide_loader.py:231-242 | every task is for a final file that does not exist, with its 1-based index and name |
| Loader.RunTasksSnoc | src/mangadm/core/slide_loader.py:247 | running one more task appends its result to those before it |
| Loader.TaskName | src/mangadm/core/slide_loader.py:221 | a task's name is the one `_make_name` gives its URL and index |
| Loader.RunTasksOnePerTask | src/mangadm/core/slide_loader.py:220-247 | each task appends exactly one result carrying its own URL, none of them SKIPPED |
| Loader.BatchOneResultPerUrl | src/mangadm/core/slide_loader.py:207-247 | download_all adds exactly one result per URL, each URL as often as in the list, and the SKIPPED ones are exactly the pre-check's |
| Loader.JoinedUrls | src/mangadm/core/slide_loader.py:227-234 | the SKIPPED entries followed by the task results hold each URL as often as the list |
| Loader.JoinedSkips | src/mangadm/core/slide_loader.py:227-234 | the SKIPPED count of the batch is the number of pre-check skips |
| Loader.BatchSkipsOnDisk | src/mangadm/core/slide_loader.py:233-240 | every SKIPPED result of the batch names a final file that was there before it started |
| Loader.BatchUrlMultiset | src/mangadm/core/slide_loader.py:247 | as a multiset of URLs the batch's results are the URL list, whatever order the transfers complete in |
| Loader.ResultUrlsAppend | src/mangadm/core/slide_loader.py:227 | the URLs of appended results are appended |
| Loader.TaskUrlsNotNone | src/mangadm/core/slide_loader.py:242 | every task has a URL |
| Loader.SomeUrlsOccurrences | src/mangadm/core/slide_loader.py:230 | lifting keeps each URL's count and adds no missing one |
| Loader.AllSkippedCount | src/mangadm/core/slide_loader.py:234-240 | a list of SKIPPED entries counts all of them SKIPPED |
| Loader.NoneCounted | src/mangadm/components/types.py:39-41 | a status with count 0 is carried by no result |
| Loader.SlideLoader.constructor | src/mangadm/core/slide_loader.py:24-53 | the loader keeps its URLs, directory and placeholder, with no results and its spinner task not removed |
| Loader.SlideLoader.RemoveSpinnerTask | src/mangadm/core/mangadm.py:256 | `remove_task` on the cached task: KeyError if it was already removed; removed afterwards, nothing else changes |
| Loader.SlideLoader.SpinnerUpdate | src/mangadm/core/slide_loader.py:211-216 | the spinner update raises KeyError exactly when the cached task was removed |
| Loader.SlideLoader.SetSaveDir | src/mangadm/core/slide_loader.py:79-85 | the directory is created with its parents and becomes the save directory |
| Loader.SlideLoader.SetUrls | src/mangadm/core/slide_loader.py:92-97 | the URLs are replaced and nothing else changes |
| Loader.SlideLoader.Download | src/mangadm/core/slide_loader.py:154-205 | one GET with the resume request for the temp file's size, and the result, total and disk of the transfer of that reply |
| Loader.SlideLoader.DownloadAll | src/mangadm/core/slide_loader.py:207-247 | the results gain exactly the batch's results and the disk becomes the batch's |
| Loader.SlideLoader.PlanTasks | src/mangadm/core/slide_loader.py:229-245 | the pre-check loop appends its SKIPPED entries and returns its tasks, each for a missing file |
| Loader.SlideLoader.PlanOne | src/mangadm/core/slide_loader.py:229-245 | one URL of the pre-check: a SKIPPED entry when its file exists, a task otherwise |
| Loader.SlideLoader.RunAll | src/mangadm/core/slide_loader.py:220-247 | the tasks run in order, each appending its transfer's result |
| Loader.SlideLoader.RunOne | src/mangadm/core/slide_loader.py:220-227 | one task appends the result of its own transfer |
| Loader.SlideLoader.All | src/mangadm/core/slide_loader.py:207-252 | with the spinner task removed, KeyError before anything is fetched; otherwise all runs the batch and returns a copy of every result so far |
| Loader.SlideLoader.One | src/mangadm/core/slide_loader.py:254-266 | a name with_suffix refuses raises with the disk untouched; otherwise one transfer, true exactly when it ended SUCCESS |
| RetryDownloader.Pow | src/mangadm/core/downloader.py:36 | `base**attempt` is at least 1 for a base of at least 1 |
| RetryDownloader.PowMonotone | src/mangadm/core/downloader.py:36 | `base**attempt` never shrinks as the attempt goes up |
| RetryDownloader.MulGrows | src/mangadm/core/downloader.py:36 | one more factor of the base does not shrink the power |
| RetryDownloader.BaseDelayMonotoneCapped | src/mangadm/core/downloader.py:35-36 | the base delay `min(base**attempt, max_delay)` never shrinks as the attempt goes up and never exceeds the cap |
| RetryDownloader.BaseDelay | src/mangadm/core/downloader.py:35-36 | the base delay is at most the cap and at most `base**attempt`, and equals one of the two |
| RetryDownloader.Delay | src/mangadm/core/downloader.py:35-40 | with the defaults the delay before jitter lies between 1 and 30 seconds |
| RetryDownloader.Send | src/mangadm/core/downloader.py:155-157 | a request is recorded and answered by the next reply; with none left it fails with a connection error |
| RetryDownloader.Content | src/mangadm/core/downloader.py:140-181 | one attempt sends exactly the resume request for the temp file's size, never sleeps and uses at most one reply |
| RetryDownloader.ContentAgreesWithSlideLoader | src/mangadm/core/downloader.py:152-179 | a completed attempt leaves the disk exactly as the current slide loader's transfer does |
| RetryDownloader.Handle | src/mangadm/core/downloader.py:60-87 | "damaged" exactly for an HTTP 401, 403 or 404; a status of 500 or more gives up; anything else is retried exactly when attempts remain |
| RetryDownloader.ExtendsPrefix | src/mangadm/core/downloader.py:100-126 | a request log that extends a longer one extends its prefix |
| RetryDownloader.DamagedWritesPlaceholder | src/mangadm/core/downloader.py:68-123 | "damaged" always leaves the placeholder image at the final path |
| RetryDownloader.ServerErrorGivesUp | src/mangadm/core/downloader.py:77-125 | a server error ends the loop at once after one request and no sleep, whatever attempts remain |
| RetryDownloader.RequestsBounded | src/mangadm/core/downloader.py:99-126 | without chunked-encoding breaks the loop sends at most max_retries - attempt + 1 requests |
| RetryDownloader.ChunkBreakRetriesSameAttempt | src/mangadm/core/downloader.py:99-112 | a body that breaks in chunked encoding uses one reply and one request, and the loop goes on at the same attempt |
| RetryDownloader.ChunkBreaksUnbounded | src/mangadm/core/downloader.py:99-112 | k chunk breaks in a row cost at least k + 1 requests, whatever max_retries is |
| RetryDownloader.SleepsGrowCapped | src/mangadm/core/downloader.py:35-112 | the sleeps never shrink and never exceed 30 seconds |
| RetryDownloader.DiskFaultUnlinks | src/mangadm/core/downloader.py:127-138 | an IOError removes the temp file and gives up |
| RetryDownloader.FileName | src/mangadm/core/downloader.py:194 | a non-empty name is used as given; otherwise the three-digit index, a dot and the extension; formatting a missing index raises |
| RetryDownloader.IndexFileNameParts | src/mangadm/core/downloader.py:194 | an index-derived name splits back into the three-digit index and the extension |
| RetryDownloader.ExistingFileSkipped | src/mangadm/core/downloader.py:48-199 | an existing final file without force returns True, counts one skipped image and sends no request |
| RetryDownloader.ForcedFileDeleted | src/mangadm/core/downloader.py:53-209 | with force an existing final file is deleted and the first request asks for the whole file |
| RetryDownloader.DownloadTallies | src/mangadm/core/downloader.py:136-209 | one download counts the image at most once, leaves the chapter counters alone, and clears all_images_downloaded exactly when it counts a failure |
| RetryDownloader.SettledTallies | src/mangadm/core/downloader.py:136-180 | how each ending of the loop counts the image: success, failure, or nothing for "damaged" |
| RetryDownloader.ImagesOnlyTrans | src/mangadm/core/downloader.py:218-222 | image-only counter changes compose over consecutive downloads |
| RetryDownloader.DownloadAllFirst | src/mangadm/core/downloader.py:218-222 | download_files takes its first image through download with index 1 further on |
| RetryDownloader.BatchTallies | src/mangadm/core/downloader.py:211-222 | a batch counts every image at most once and no chapter, and keeps all_images_downloaded set exactly when it was set and no image failed |
| RetryDownloader.Downloader.constructor | src/mangadm/core/downloader.py:21-33 | the downloader keeps its stats manager, force flag and placeholder |
| RetryDownloader.Downloader.DownloadContent | src/mangadm/core/downloader.py:140-181 | the attempt's outcome is Content's, and the success stat is counted exactly when the body completed |
| RetryDownloader.Downloader.AttemptDownload | src/mangadm/core/downloader.py:89-138 | the while loop's ending is Loop's from attempt 1, and the stats change as that ending settles |
| RetryDownloader.Loop | src/mangadm/core/downloader.py:89-138 | past max_retries the loop answers False and touches nothing; otherwise its first request is the GET resumed at the temp file's size |
| RetryDownloader.Downloader.AttemptOnce | src/mangadm/core/downloader.py:101-134 | one turn of the loop either ends it as Loop does from that attempt (returned, damaged, or a break), or leaves Loop's ending unchanged from the next world and attempt, with a reply used up or the attempt raised |
| RetryDownloader.Downloader.CheckExistingFile | src/mangadm/core/downloader.py:48-58 | an existing file without force counts a skip and returns True; with force it is removed (a directory raises); the skip message is then switched off once skips were counted |
| RetryDownloader.Downloader.Download | src/mangadm/core/downloader.py:183-209 | the name, the existing-file check and the attempts, as DownloadSpec |
| RetryDownloader.Downloader.DownloadNext | src/mangadm/core/downloader.py:218-222 | one loop turn: the first image's download, then the rest |
| RetryDownloader.Downloader.DownloadFiles | src/mangadm/core/downloader.py:211-222 | mkdir, then one download per URL with its 1-based index, as DownloadFilesSpec |
| RetryDownloader.Downloader.DownloadFile | src/mangadm/core/downloader.py:224-229 | mkdir, then one download under the given name with three retries; "damaged" is truthy |
| LegacyUtility.ExtFromName | mangadm/utils/utility.py:31-34 | the text after the basename's last '.', dot-free and a suffix of the name; the whole name when it has no dot |
| LegacyUtility.ExtOfImageName | mangadm/utils/utility.py:31-34 | the extension given to an image file is read back from its name |
| LegacyUtility.IsDownloadedChapter | mangadm/utils/utility.py:49-73 | for the folder string `os.path.join(parent, name)`: True exactly for the `.cbz` that the string's stripped basename and dirname name, or, without a temp folder, for a folder with no `_temp` entry and as many entries as images; False for a temp folder or a `_temp` entry |
| LegacyUtility.FallsThroughToNone | mangadm/utils/utility.py:71-73 | the function falls through to None exactly when there is no archive and no temp folder, and either no folder or a folder of the wrong size without temp entries |
| LegacyUtility.AgreesWithCurrentDetector | mangadm/utils/utility.py:49-73 | for a chapter name other than "" or ".", where neither temp marker occurs and no EPUB lies beside the folder, the answer read as a condition is the current engine's detector's |
| LegacyUtility.CbzPath | mangadm/utils/utility.py:52-53 | the archive lies in the parent folder: beside the chapter folder as `<name>.cbz` for an ordinary name, `<parent name>.cbz` inside the parent for "", and `..cbz` inside the parent for "." |
| LegacyUtility.CollapsedNameArchiveInside | mangadm/core/mangadm.py:114-118 | for a title of "" or ".", the joined folder is the manga folder itself, and the legacy detector's archive differs from the one the current engine's `Path` form checks |
| LegacyUtility.ImagePaths | mangadm/utils/utility.py:16-94 | exactly the paths below the folder whose lower-cased suffix is a supported image extension, in sorted order |
| LegacyUtility.UpperCaseSuffixListed | mangadm/utils/utility.py:92 | an upper-case suffix is listed too |
| LegacyUtility.LoadData | mangadm/utils/utility.py:36-47 | the parsed value; an empty list when the file is missing, unreadable or not JSON; UnicodeDecodeError exactly when its bytes are not UTF-8, since only JSONDecodeError and IOError are caught |
| LegacyStats.RemainingIgnoresFailures | mangadm/components/stats_manager.py:67-68 | failed chapters are not subtracted from the remaining ones |
| LegacyStats.RemainingDrops | mangadm/components/stats_manager.py:67-68 | each downloaded or skipped chapter lowers the remainder by one |
| LegacyStats.SkipMessageSilent | mangadm/components/stats_manager.py:47-65 | nothing is logged exactly when printing is off or nothing was skipped |
| LegacyStats.SkipMessageOrder | mangadm/components/stats_manager.py:50-65 | the chapter part comes before the image part, joined by " \| " |
| LegacyStats.Summary | mangadm/components/stats_manager.py:70-149 | eight rows, in the table's order |
| LegacyStats.SummaryInjective | mangadm/components/stats_manager.py:70-149 | the table reports every counter: different states never print the same table |
| LegacyStats.Statistics | mangadm/components/stats_manager.py:154-164 | eight keys, failure_chapter and chapter_remaining among them with their values |
| LegacyStats.StatsManager.constructor | mangadm/components/stats_manager.py:11-22 | every counter and the total at 0, both flags True |
| LegacyStats.StatsManager.UpdateStat | mangadm/components/stats_manager.py:24-32 | each flagged image counter goes up by exactly 1 and nothing else changes |
| LegacyStats.StatsManager.UpdateChapterStat | mangadm/components/stats_manager.py:34-42 | each flagged chapter counter goes up by exactly 1 and nothing else changes |
| LegacyStats.StatsManager.SetTotalChapters | mangadm/components/stats_manager.py:44-45 | only the total changes |
| LegacyStats.StatsManager.SkipMsg | mangadm/components/stats_manager.py:47-65 | the line the list of messages builds, or silence |
| Wording.PluralShape | mangadm/components/stats_manager.py:70-134 | a plural line, with its number, is not the singular one |
| Wording.SameFrame | mangadm/components/stats_manager.py:70-134 | two lines with the same frame have the same middle |
| Wording.CountLineInjective | mangadm/components/stats_manager.py:70-134 | "No ..." for 0, the singular for 1 and the plural with the number otherwise: a line determines its count |
| Wording.IntToStringNoNewline | mangadm/components/stats_manager.py:103 | a numeral holds no newline |
| Wording.CountLineNoNewline | manga_dm/utils/utility.py:163-223 | a line built from newline-free texts holds no newline |
| Wording.ImagesSucceededNoNewline | manga_dm/utils/utility.py:163-223 | the success line holds no newline |
| Wording.ImagesFailedNoNewline | manga_dm/utils/utility.py:163-223 | the failure line holds no newline |
| Wording.ImagesSkippedNoNewline | manga_dm/utils/utility.py:163-223 | the skipped-images line holds no newline |
| Wording.ChaptersCompletedNoNewline | manga_dm/utils/utility.py:163-223 | the completed-chapters line holds no newline |
| Wording.ChaptersSkippedNoNewline | manga_dm/utils/utility.py:163-223 | the skipped-chapters line holds no newline |
| Wording.LabelledInjective | mangadm/components/stats_manager.py:103-104 | "Total chapters: n" determines n |
| Wording.SummaryLinesInjective | mangadm/components/stats_manager.py:70-134 | every summary line determines the count it reports |
| MangaDmUtility.LoadData | manga_dm/utils/utility.py:93-99 | the parsed value, or [] for any exception, bytes that are not UTF-8 included |
| MangaDmUtility.LoadDataAgrees | manga_dm/utils/utility.py:93-99 | agrees with the `mangadm/` loader everywhere except on bytes that are not UTF-8, where only that loader raises |
| MangaDmUtility.UtilityStatistics | manga_dm/utils/utility.py:225-233 | get_statistics returns six keys and no `failure_chapter` |
| MangaDmUtility.StatisticsWithoutFailureChapter | manga_dm/utils/utility.py:225-233 | the dictionary is the newer manager's dictionary without its `failure_chapter` entry |
| MangaDmUtility.SplitLines | manga_dm/utils/utility.py:219-223 | newline-terminated rows that hold no newline split back into the rows and a final empty piece |
| MangaDmUtility.SummaryHasNoNewline | manga_dm/utils/utility.py:163-223 | none of the six summary rows holds a newline |
| MangaDmUtility.MessageRows | manga_dm/utils/utility.py:163-223 | the logged message holds the six summary rows, one per line, in order |
| MangaDmUtility.MessageInjective | manga_dm/utils/utility.py:163-223 | two different counter states never log the same summary message |
| MangaDmUtility.StatsManager.constructor | manga_dm/utils/utility.py:113-122 | every counter and the total start at 0; both flags start true |
| MangaDmUtility.StatsManager.UpdateSuccess | manga_dm/utils/utility.py:124-125 | adds one to the success counter and changes nothing else |
| MangaDmUtility.StatsManager.UpdateFailure | manga_dm/utils/utility.py:127-128 | adds one to the failure counter and changes nothing else |
| MangaDmUtility.StatsManager.UpdateSkipped | manga_dm/utils/utility.py:130-131 | adds one to the skipped counter and changes nothing else |
| MangaDmUtility.StatsManager.UpdateChaptersDownloaded | manga_dm/utils/utility.py:133-134 | adds one to the downloaded-chapters counter and changes nothing else |
| MangaDmUtility.StatsManager.UpdateSkippedChapters | manga_dm/utils/utility.py:136-137 | adds one to the skipped-chapters counter and changes nothing else |
| MangaDmUtility.StatsManager.SetTotalChapters | manga_dm/utils/utility.py:139-140 | sets the total and changes nothing else |
| MangaDmUtility.StatsManager.SkipMsg | manga_dm/utils/utility.py:142-161 | the logged line is the skip line of the current counters, or nothing when printing is off or nothing was skipped |
| MangaDmStats.SkipMessageSilent | manga_dm/utils/stats_manager.py:48-67 | skip_msg stays silent exactly when printing is off or neither images nor chapters were skipped |
| MangaDmStats.SkipMessageOrder | manga_dm/utils/stats_manager.py:52-67 | with both kinds skipped, the image part comes first, joined by " \| " |
| MangaDmStats.OneSkippedImage | manga_dm/utils/stats_manager.py:52-54 | one skipped image alone reads in the singular |
| MangaDmStats.Summary | manga_dm/utils/stats_manager.py:69-133 | log_download_results prints six rows |
| MangaDmStats.SummaryInjective | manga_dm/utils/stats_manager.py:69-133 | two different counter states never print the same rows |
| MangaDmStats.Statistics | manga_dm/utils/stats_manager.py:138-147 | get_statistics returns seven keys, `failure_chapter` among them with the per-chapter counter |
| MangaDmStats.StatisticsInjective | manga_dm/utils/stats_manager.py:138-147 | the dictionary determines every counter |
| MangaDmStats.StatsManager.constructor | manga_dm/utils/stats_manager.py:12-22 | every counter and the total start at 0; both flags start true |
| MangaDmStats.StatsManager.UpdateSuccess | manga_dm/utils/stats_manager.py:24-25 | adds one to the success counter and changes nothing else |
| MangaDmStats.StatsManager.UpdateFailure | manga_dm/utils/stats_manager.py:27-28 | adds one to the failure counter and changes nothing else |
| MangaDmStats.StatsManager.UpdateSkipped | manga_dm/utils/stats_manager.py:30-31 | adds one to the skipped counter and changes nothing else |
| MangaDmStats.StatsManager.UpdateChaptersDownloaded | manga_dm/utils/stats_manager.py:33-34 | adds one to the downloaded-chapters counter and changes nothing else |
| MangaDmStats.StatsManager.UpdateSkippedChapters | manga_dm/utils/stats_manager.py:36-37 | adds one to the skipped-chapters counter and changes nothing else |
| MangaDmStats.StatsManager.SetTotalChapters | manga_dm/utils/stats_manager.py:39-40 | sets the total and changes nothing else |
| MangaDmStats.StatsManager.UpdateFailureChapter | manga_dm/utils/stats_manager.py:42-43 | adds one to the per-chapter failure counter and changes nothing else |
| MangaDmStats.StatsManager.ResetFailureChapter | manga_dm/utils/stats_manager.py:45-46 | sets the per-chapter failure counter to 0 and changes nothing else |
| MangaDmStats.StatsManager.SkipMsg | manga_dm/utils/stats_manager.py:48-67 | the logged line is the skip line of the current counters, or nothing when printing is off or nothing was skipped |
| MangaDmDownloader.LocalName | manga_dm/downloader/downloader.py:34 | a non-empty name wins; otherwise the URL's basename; a truthy non-string URL raises |
| MangaDmDownloader.Fetch | manga_dm/downloader/downloader.py:53-75 | exactly one request carrying a Range header is sent for a string URL, and none for any other value |
| MangaDmDownloader.RangeAlwaysSent | manga_dm/downloader/downloader.py:53-54 | the Range header starts at the temp file's size, `bytes=0-` when there is no temp file |
| MangaDmDownloader.TotalIsLengthPlusOffset | manga_dm/downloader/downloader.py:59-60 | the total is content-length (0 when absent) plus the bytes already in the temp file |
| MangaDmDownloader.AlwaysAppended | manga_dm/downloader/downloader.py:61-75 | the old temp bytes followed by the whole body end up in the final file on success and stay in the temp file on failure; success exactly when the stream completed and the rename worked |
| MangaDmDownloader.IgnoredRangeCorrupts | manga_dm/downloader/downloader.py:53-75 | a partial temp file and a 200 reply with the whole image give a final file longer than the image |
| MangaDmDownloader.FetchCorrected | manga_dm/downloader/downloader.py:53-75 | the corrected try block sends the same single ranged request |
| MangaDmDownloader.CorrectedFileIsBody | manga_dm/downloader/downloader.py:53-75 | with the correction, the final file is the body alone after a restart and the resumed bytes plus the rest after a 206 |
| MangaDmDownloader.TempDiffers | manga_dm/downloader/downloader.py:34-37 | the temp path differs from the final path |
| MangaDmDownloader.ExistingFileSkipped | manga_dm/downloader/downloader.py:41-43 | an existing final file without force returns True, adds one skipped image and sends no request |
| MangaDmDownloader.FalsyUrlSkipped | manga_dm/downloader/downloader.py:34-43 | a falsy image entry names the folder itself and, without force, counts as skipped |
| MangaDmDownloader.ForcedFileRemoved | manga_dm/downloader/downloader.py:50-54 | with force, an existing final file is removed and the ranged request is still sent |
| MangaDmDownloader.CountedTallies | manga_dm/downloader/downloader.py:73-85 | the try block counts exactly one image: a success and True, or a failure and False |
| MangaDmDownloader.ForcedTallies | manga_dm/downloader/downloader.py:50-85 | the removal under force raises before anything is counted, or the transfer is counted once |
| MangaDmDownloader.PlacedTallies | manga_dm/downloader/downloader.py:41-85 | an existing file counts as skipped; otherwise the skip message only turns its flag off |
| MangaDmDownloader.DownloadTallies | manga_dm/downloader/downloader.py:27-85 | download moves only the image counters, by exactly one image when it returns |
| MangaDmDownloader.BatchTallies | manga_dm/downloader/downloader.py:87-95 | a batch counts every image once when nothing raised and never touches a chapter counter, the per-chapter failure counter or all_images_downloaded |
| MangaDmDownloader.Downloader.constructor | manga_dm/downloader/downloader.py:11-23 | keeps the statistics manager, the folder, the force flag and the name |
| MangaDmDownloader.Downloader.TryFetch | manga_dm/downloader/downloader.py:56-75 | the try block computes what Fetch specifies |
| MangaDmDownloader.Downloader.Download | manga_dm/downloader/downloader.py:27-85 | download leaves the answer, the statistics and the world that DownloadSpec specifies |
| MangaDmDownloader.Downloader.DownloadTo | manga_dm/downloader/downloader.py:39-85 | download from makedirs on, as Placed specifies |
| MangaDmDownloader.Downloader.RemoveAndFetch | manga_dm/downloader/downloader.py:50-85 | download from the removal under force on, as Forced specifies |
| MangaDmDownloader.Downloader.DownloadNext | manga_dm/downloader/downloader.py:91-95 | one turn of the loop: an exception ends the batch, otherwise the rest of the batch continues from the new state |
| MangaDmDownloader.Downloader.DownloadFiles | manga_dm/downloader/downloader.py:87-95 | one download per URL, in order, until one raises, as DownloadAll specifies |
| MangaDmDownloader.Downloader.DownloadFile | manga_dm/downloader/downloader.py:97-102 | True exactly when download returned True, with download's effects |
| MangaDmCore.Open | manga_dm/core.py:22-29 | a failed read (any exception, a file that is not UTF-8 included) loads as []; a top-level value without a length raises TypeError; a list yields its entries and its length as the total |
| MangaDmCore.BaseFolder | manga_dm/core.py:68-69 | the base folder lies under the destination; a first entry that is not a dict or a name that is not a string raises |
| MangaDmCore.SingleComponent | manga_dm/core.py:69 | a name without '/' (other than "" and ".") is one path component |
| MangaDmCore.PlainNameKept | manga_dm/core.py:68-69 | the manga name reaches the folder unsanitised |
| MangaDmCore.UnknownMangaFolder | manga_dm/core.py:68 | an entry without a name uses "UnknownManga" |
| MangaDmCore.ReplaceSlashes | manga_dm/core.py:82 | every '/' becomes '_' and nothing else changes |
| MangaDmCore.ReadEntry | manga_dm/core.py:77-82 | a falsy images value skips the entry; otherwise the images and the title with '/' replaced; a non-dict entry or a non-string title raises AttributeError |
| MangaDmCore.Iterated | manga_dm/core.py:89 | enumerate walks a list's items, a string's characters or a dict's keys; anything else raises TypeError |
| MangaDmCore.SettleData | manga_dm/core.py:112-120 | the bookkeeping keeps the list, or removes the entry and saves |
| MangaDmCore.ChapterStepData | manga_dm/core.py:73-89 | a turn keeps the list, or removes its entry and saves, and only with delete_on_success |
| MangaDmCore.EmptyDataProcessesNothing | manga_dm/core.py:64-66 | empty data processes nothing and changes nothing |
| MangaDmCore.FetchingStep | manga_dm/core.py:99-120 | a fetching turn runs its batch and then, if nothing raised, the bookkeeping |
| MangaDmCore.FetchingBatchTallies | manga_dm/core.py:102-108 | the chapter's batch moves only the image counters |
| MangaDmCore.DetectedChapterSkipped | manga_dm/core.py:85-87 | a chapter reported complete counts one skipped chapter and sends nothing |
| MangaDmCore.SettleFacts | manga_dm/core.py:110-120 | one downloaded chapter is counted whatever the images did; the entry is removed exactly when delete_on_success, the flag and a zero failure_chapter meet; the counter and the flag are reset |
| MangaDmCore.DownloadedChapterCounted | manga_dm/core.py:108-110 | every chapter that reaches the download step is counted downloaded, even when all its images failed |
| MangaDmCore.ChapterStepCountsOne | manga_dm/core.py:73-89 | each turn counts at most one chapter |
| MangaDmCore.WalkRespectsLimit | manga_dm/core.py:73-75 | a limit of 0 or more is never overshot |
| MangaDmCore.WalkStops | manga_dm/core.py:73-75 | the run stops exactly at a reached limit other than -1 |
| MangaDmCore.Walk | manga_dm/core.py:73-89 | the walk visits at most the entries from the index to the end of the list, starting with the one at the index, and an exception comes only from a visited entry |
| MangaDmCore.ChapterStepKeepsSettled | manga_dm/core.py:112-120 | failure_chapter stays 0 and all_images_downloaded stays set through every turn |
| MangaDmCore.CoverKeepsSettled | manga_dm/core.py:37-60 | the cover's download keeps the tallies settled |
| MangaDmCore.FailedImagesStillRemoved | manga_dm/core.py:108-117 | with delete_on_success, an entry whose images all failed is still removed |
| MangaDmCore.DownloadChapterCorrected | manga_dm/core.py:99-120 | corrected: an entry is removed only when none of its images failed |
| MangaDmCore.CorrectedRemovesComplete | manga_dm/core.py:99-120 | the corrected bookkeeping still removes a chapter whose images all arrived |
| MangaDmCore.RemovalSkipsNext | manga_dm/core.py:73-117 | after a turn removes its entry at index i, the walk visits the old entry i + 2 next and never the old entry i + 1 |
| MangaDmCore.ExampleEntryRead | manga_dm/core.py:77-82 | a one-image entry reads as that chapter |
| MangaDmCore.ExampleBatch | manga_dm/downloader/downloader.py:41-43 | an image already on disk is counted skipped and nothing is sent |
| MangaDmCore.FirstTurnRemoves | manga_dm/core.py:73-117 | on that input the first turn raises nothing and leaves only the second entry in the list |
| MangaDmCore.LiveListSkipsSecond | manga_dm/core.py:73-117 | two entries, delete_on_success and no limit: the first is removed and the second is never visited |
| MangaDmCore.SnapshotVisitsAll | manga_dm/core.py:73-89 | the corrected walk over a snapshot visits every entry when there is no limit and nothing raised |
| MangaDmCore.WalkWithoutDeletion | manga_dm/core.py:73-89 | without delete_on_success the list never changes and the live walk equals the snapshot walk |
| MangaDmCore.MangaDM.constructor | manga_dm/core.py:14-29 | fresh statistics with the total set to the length of the data |
| MangaDmCore.MangaDM.SetupCover | manga_dm/core.py:37-47 | as CoverStep specifies: an existing cover without force is kept, a falsy cover only warns |
| MangaDmCore.MangaDM.DownloadCoverImage | manga_dm/core.py:49-60 | as CoverFetch specifies: the cover through download_file under the name cover.jpg |
| MangaDmCore.MangaDM.ProcessEntry | manga_dm/core.py:77-89 | one turn of the loop, as ChapterStep specifies |
| MangaDmCore.MangaDM.DownloadChapterImages | manga_dm/core.py:99-120 | as DownloadChapter specifies |
| MangaDmCore.MangaDM.SettleChapter | manga_dm/core.py:110-120 | as Settle specifies |
| MangaDmCore.MangaDM.CountChapter | manga_dm/core.py:110-113 | one more downloaded chapter and the flag cleared when failure_chapter is non-zero |
| MangaDmCore.MangaDM.FinishChapter | manga_dm/core.py:115-120 | the removal and save, then the reset of the counter and the flag |
| MangaDmCore.MangaDM.RemoveEntry | manga_dm/core.py:116-117 | removes the first structurally equal entry and saves the list |
| MangaDmCore.MangaDM.ProcessNext | manga_dm/core.py:73-89 | a turn shortens the list by at most one and leaves the rest of the walk to go on from the next index |
| MangaDmCore.MangaDM.ProcessImages | manga_dm/core.py:62-91 | as ProcessImagesSpec specifies; the summary is logged exactly when the data was not empty and nothing raised |
| MangaDmCore.MangaDM.WalkEntries | manga_dm/core.py:73-89 | the live list by index until the limit stops the run, as Walk specifies |
| FirstDownloader.ExistingFileAnswersNone | MangaDM/downloader/downloader.py:29-32 | an existing file without force answers None, which is falsy, and sends no request |
| FirstDownloader.AnswerNamesFile | MangaDM/downloader/downloader.py:19-61 | a name answered is the local name, and it is truthy unless the destination is a file |
| FirstDownloader.PlacedNamed | MangaDM/downloader/downloader.py:29-61 | a name is answered only for a path that was free or, under force, held a file |
| FirstDownloader.RequestCarriesRange | MangaDM/downloader/downloader.py:34-41 | the one request carries `Range: bytes=<size>-` from the temp file |
| FirstDownloader.Successes | MangaDM/downloader/downloader.py:77-78 | never more truthy answers than answers |
| FirstDownloader.Failures | MangaDM/downloader/downloader.py:63-69 | never more False answers than answers |
| FirstDownloader.DownloadFromCounts | MangaDM/downloader/downloader.py:73-81 | the loop adds the truthy answers to Dsuccess and every URL to Dfailed |
| FirstDownloader.DownloadFrom | MangaDM/downloader/downloader.py:73-81 | when no exception escapes, Dfailed grows by exactly the number of URLs and Dsuccess by at most that number |
| FirstDownloader.FailedIsLength | MangaDM/downloader/downloader.py:71-81 | as written, Dfailed is the number of URLs whatever the downloads did, and Dsuccess the number of truthy answers |
| FirstDownloader.CorrectedCounts | MangaDM/downloader/downloader.py:71-81 | corrected, the pair is (truthy answers, False answers) and the loop downloads the same files |
| FirstDownloader.CountedAnswers | MangaDM/downloader/downloader.py:71-81 | the corrected pair counts at most one per URL, and every URL when no file was skipped |
| FirstDownloader.Downloader.constructor | MangaDM/downloader/downloader.py:11-17 | keeps the folder, the force flag and the name |
| FirstDownloader.Downloader.Download | MangaDM/downloader/downloader.py:19-69 | download, as DownloadSpec specifies |
| FirstDownloader.Downloader.DownloadTo | MangaDM/downloader/downloader.py:29-69 | download from the skip on, as Placed specifies |
| FirstDownloader.Downloader.DownloadFiles | MangaDM/downloader/downloader.py:71-81 | one download per URL, in order, with the two counters, as DownloadFilesSpec specifies |
| FirstDownloader.Downloader.DownloadFile | MangaDM/downloader/downloader.py:83-93 | True exactly when download answered a truthy name |
| FirstEngine.Open | MangaDM/utility/utility.py:87-94 | the data is whatever the file holds, [] when it cannot be read or decoded, bytes that are not UTF-8 included (`except Exception`); process_images does nothing for a falsy value |
| FirstEngine.CoverTouchesWorldOnly | MangaDM/mangadm.py:48-58 | the cover changes no counter and no entry, and an existing cover is never fetched again, force or not |
| FirstEngine.ReadEntry | MangaDM/mangadm.py:74-76 | the title has no '/', the images are the entry's, and a non-dict entry or a non-string title raises AttributeError |
| FirstEngine.Turning | MangaDM/mangadm.py:70-91 | no turn lengthens the list |
| FirstEngine.EmptyDataProcessesNothing | MangaDM/mangadm.py:62-64 | empty data processes nothing and changes nothing |
| FirstEngine.NotFetchingStep | MangaDM/mangadm.py:74-79 | a turn whose entry cannot be read raises before anything changes |
| FirstEngine.FetchingStep | MangaDM/mangadm.py:78-91 | a fetching turn runs its batch and, if nothing raised, the bookkeeping |
| FirstEngine.TallyFacts | MangaDM/mangadm.py:81-91 | the pair is added to the counts and one chapter counted; the flag ends set; the entry is removed exactly when delete_if_success is on and nothing was counted failed |
| FirstEngine.TallyData | MangaDM/mangadm.py:81-91 | the bookkeeping keeps the list, or removes the entry and saves, and only with delete_if_success; the list never grows |
| FirstEngine.ChapterStepData | MangaDM/mangadm.py:70-91 | a turn keeps the list, or removes its entry and saves, and only with delete_if_success |
| FirstEngine.ChapterStepCounts | MangaDM/mangadm.py:81-91 | a turn adds its batch's pair to the counts and one chapter, and leaves `downloaded` alone |
| FirstEngine.OnlyEmptyChaptersRemoved | MangaDM/mangadm.py:79-88 | as written, with delete_if_success an entry is removed exactly when its image list is empty |
| FirstEngine.CorrectedRemovesComplete | MangaDM/mangadm.py:79-88 | corrected, an entry is removed exactly when none of its downloads answered False |
| FirstEngine.WalkKeepsDownloaded | MangaDM/mangadm.py:70-91 | `downloaded` ends the walk with the value it started with |
| FirstEngine.Walk | MangaDM/mangadm.py:70-91 | for turns that never lengthen the list, the walk visits at most the entries from the index to the end, starting with the one at the index, and an exception comes only from a visited entry |
| FirstEngine.LimitDecidedOnce | MangaDM/mangadm.py:71-72 | the walk either does nothing or is the walk without a limit |
| FirstEngine.LimitIgnored | MangaDM/mangadm.py:35-72 | a positive limit is ignored, and a limit of 0 or below other than -1 stops the run before the first chapter |
| FirstEngine.ProcessImagesIgnoresLimit | MangaDM/mangadm.py:60-93 | process_images with a positive limit is process_images without one |
| FirstEngine.WalkCorrectedRespectsLimit | MangaDM/mangadm.py:70-91 | corrected, every completed chapter is counted and a limit of 0 or more is never overshot |
| FirstEngine.RemovalSkipsNext | MangaDM/mangadm.py:70-88 | after a turn removes its entry at index i, the walk visits the old entry i + 2 next and never the old entry i + 1 |
| FirstEngine.SingularOnlyForOne | MangaDM/mangadm.py:96-99 | "file" is singular exactly for a count of 1 |
| FirstEngine.LeadingDigits | MangaDM/mangadm.py:96-99 | the count is the run of digits the text starts with |
| FirstEngine.LeadingDigitsOf | MangaDM/mangadm.py:96-99 | digits followed by a non-digit: the run is exactly those digits |
| FirstEngine.DigitsThenOther | MangaDM/mangadm.py:96-99 | two digit runs followed by non-digits split the same way only when equal |
| FirstEngine.CountPartInjective | MangaDM/mangadm.py:96-99 | a half of the message determines its count and what follows it |
| FirstEngine.HalvesInjective | MangaDM/mangadm.py:96-99 | the two halves joined by a space determine both counts |
| FirstEngine.ResultsMessageInjective | MangaDM/mangadm.py:95-100 | different counts never log the same message |
| FirstEngine.ResultsMessage | MangaDM/mangadm.py:95-100 | the message opens with "Successfully downloaded " and ends in the singular " file." exactly when one download failed |
| FirstEngine.MangaDM.constructor | MangaDM/mangadm.py:15-43 | the data as loaded, every counter at 0 and the flag set |
| FirstEngine.MangaDM.InitMangaDirectory | MangaDM/mangadm.py:48-58 | as CoverStep specifies, changing the outside world only |
| FirstEngine.MangaDM.ProcessEntry | MangaDM/mangadm.py:74-91 | one turn of the loop, as ChapterStep specifies |
| FirstEngine.MangaDM.TallyChapter | MangaDM/mangadm.py:81-91 | as Tally specifies |
| FirstEngine.MangaDM.FinishChapter | MangaDM/mangadm.py:86-91 | the removal and save, the flag set again and the chapter counted |
| FirstEngine.MangaDM.RemoveEntry | MangaDM/mangadm.py:87-88 | removes the first structurally equal entry and saves the list |
| FirstEngine.MangaDM.ProcessNext | MangaDM/mangadm.py:70-91 | a turn shortens the list by at most one and leaves the rest of the walk to go on from the next index |
| FirstEngine.MangaDM.WalkEntries | MangaDM/mangadm.py:70-91 | the live list by index until the limit check stops it, as Walk specifies |
| FirstEngine.MangaDM.ProcessImages | MangaDM/mangadm.py:60-93 | as ProcessImagesSpec specifies; the message is logged exactly when the data was not empty and nothing raised |
| LegacyEngine.BaseFolder | mangadm/core/mangadm.py:55-56 | the base folder lies under the destination; a first entry that is not a dict or a name that is not a string raises AttributeError |
| LegacyEngine.Open | mangadm/core/mangadm.py:12-56 | a name not ending in ".json" and an empty load both exit; a ".json" file that is not UTF-8 raises UnicodeDecodeError from load_data instead; otherwise the data is a non-empty list whose first entry is a dict, and the base folder lies under the destination |
| LegacyEngine.UnreadableFileExits | mangadm/core/mangadm.py:21-24 | a missing, unreadable or non-JSON file exits before any download |
| LegacyEngine.NotUtf8Raises | mangadm/core/mangadm.py:17-21 | a ".json" file whose bytes are not UTF-8 raises UnicodeDecodeError instead of exiting |
| LegacyEngine.LimitEdges | mangadm/core/mangadm.py:58-62 | -1 never stops the run; any other limit of 0 or below stops it before the first chapter |
| LegacyEngine.ReadEntry | mangadm/core/mangadm.py:109-114 | an entry without images is skipped; otherwise its title is sanitised and its images are kept; a non-dict entry or a non-string title raises |
| LegacyEngine.FetchingStep | mangadm/core/mangadm.py:118-122 | a fetching chapter runs its batch and, if nothing raised, the bookkeeping |
| LegacyEngine.FetchingBatchTallies | mangadm/core/mangadm.py:86 | the chapter's batch moves only the image counters |
| LegacyEngine.NoImagesNoChange | mangadm/core/mangadm.py:109-112 | an entry without images changes nothing |
| LegacyEngine.AfterBatchFacts | mangadm/core/mangadm.py:88-99 | at most one chapter is counted, a failure exactly when the flag was cleared; the flag is set again; the list changes only by this entry's removal after a successful rename with delete_on_success |
| LegacyEngine.AfterBatchIncomplete | mangadm/core/mangadm.py:96-99 | with the flag cleared, one failed chapter is counted and nothing else changes but the flag |
| LegacyEngine.IncompleteChapterFails | mangadm/core/mangadm.py:86-99 | a batch that cleared the flag counts one failed chapter; nothing is renamed, archived or removed |
| LegacyEngine.RefusedRenameCountsNothing | mangadm/core/mangadm.py:88-90 | a complete batch whose final folder already exists changes no chapter counter |
| LegacyEngine.RemovalOnlyAfterSuccess | mangadm/core/mangadm.py:88-95 | the list changes only after a complete batch, a successful rename and with delete_on_success, and then loses exactly this entry and is saved |
| LegacyEngine.ChapterStepCountsOne | mangadm/core/mangadm.py:105-122 | each turn counts at most one chapter |
| LegacyEngine.RunChapters | mangadm/core/mangadm.py:105-122 | the total is never changed, chapters_downloaded never goes down, and the run counts at most one chapter per entry |
| LegacyEngine.RunRespectsLimit | mangadm/core/mangadm.py:105-107 | a limit of 0 or more is never overshot |
| LegacyEngine.FlagResetAfterChapter | mangadm/core/mangadm.py:99 | the flag is set again after every fetching turn that raised nothing |
| LegacyEngine.StaleFlagFailsChapter | mangadm/core/mangadm.py:76-97 | as written, the chapter after a turn that left the flag cleared is counted failed even when all its own images arrived |
| LegacyEngine.FailedCoverClearsFlag | mangadm/core/mangadm.py:76 | a cover download that gives up clears all_images_downloaded |
| LegacyEngine.CoverStepCorrected | mangadm/core/mangadm.py:64-79 | corrected, the cover leaves all_images_downloaded as it found it |
| LegacyEngine.OwnImagesDecide | mangadm/core/mangadm.py:86-97 | with the flag set on entry, a chapter is counted failed exactly when one of its own images failed |
| LegacyEngine.MangaDM.constructor | mangadm/core/mangadm.py:12-46 | fresh statistics with the total set to the number of entries and a downloader sharing them |
| LegacyEngine.ExistingCoverKept | mangadm/core/mangadm.py:68-73 | an existing cover.jpg without force is kept, changing nothing, whatever the truthy cover value is |
| LegacyEngine.CoverStepRaises | mangadm/core/mangadm.py:68-79 | the cover raises AttributeError exactly when it is truthy, not a string, and no cover.jpg is kept |
| LegacyEngine.MangaDM.SetupCover | mangadm/core/mangadm.py:64-79 | as CoverStep specifies: a falsy cover only warns, an existing cover without force is kept, whatever the cover value is |
| LegacyEngine.MangaDM.FetchCover | mangadm/core/mangadm.py:76-79 | the cover through download_file, as CoverFetch specifies |
| LegacyEngine.MangaDM.DownloadChapterImages | mangadm/core/mangadm.py:81-99 | as DownloadChapter specifies |
| LegacyEngine.MangaDM.SettleImages | mangadm/core/mangadm.py:88-99 | as AfterBatch specifies |
| LegacyEngine.MangaDM.CompleteChapter | mangadm/core/mangadm.py:89-95 | the guarded rename, the count, the archive and the removal with its save, as Completed specifies |
| LegacyEngine.MangaDM.RemoveEntry | mangadm/core/mangadm.py:94-95 | removes the first structurally equal entry and saves; a missing entry raises ValueError and changes nothing |
| LegacyEngine.MangaDM.ProcessEntry | mangadm/core/mangadm.py:106-122 | one turn of the loop, as ChapterStep specifies; the detector is given the joined folder string, so a title sanitised to "" or "." is checked against `<manga>.cbz` or `..cbz` inside the manga folder |
| LegacyEngine.MangaDM.ProcessImages | mangadm/core/mangadm.py:101-124 | the cover, then a snapshot of the list until the limit stops the run; the summary is logged exactly when nothing raised |
| FileSystem.SizeOrZero | mangadm/utils/utility.py:21-23 | the size of the file when there is one, else 0 |
| CliUtil.Listing | src/mangadm/cli/cli_util.py:27 | sorted(matches) holds exactly the matches, each once, in order |
| CliUtil.ResolveCommandName | src/mangadm/cli/cli_util.py:15-28 | the name itself when no command starts with it, the one command that does, or BadParameter listing every command that does |
| CliUtil.ResolvedNameIsInputOrCommand | src/mangadm/cli/cli_util.py:15-23 | a resolved name is the input unchanged or a registered command starting with it |
| CliUtil.UniquePrefix | src/mangadm/cli/cli_util.py:17-23 | the name resolves to c exactly when c is the only command starting with it |
| CliUtil.AmbiguousIff | src/mangadm/cli/cli_util.py:17-28 | resolution fails exactly when two different commands start with the name |
| CliUtil.ExactNameStillAmbiguous | src/mangadm/cli/cli_util.py:17-28 | a command that is a prefix of another cannot be called by its full name |
| CliUtil.SettingsRows | src/mangadm/cli/cli_util.py:136-138 | no row for `save_defaults`, and never more rows than settings |
| CliUtil.DisplaySettings | src/mangadm/cli/cli_util.py:130-139 | the loop adds the rows SettingsRows specifies |
| CliUtil.SettingsRowsAll | src/mangadm/cli/cli_util.py:136-138 | without a `save_defaults` key every setting gives its row, in order, with `str(value)` |
| CliUtil.SettingsRowsMembers | src/mangadm/cli/cli_util.py:136-138 | a row is exactly a setting other than `save_defaults` with its value shown |
| CliUtil.ConfigDir | src/mangadm/cli/cli_util.py:60-61 | `$APPDATA` when set and not empty, else `~/.config`, then `manga_dm` |
| CliUtil.ResolveConfigPath | src/mangadm/cli/cli_util.py:46-63 | `config.json` in the configuration folder, which then exists; nothing that existed changes |
| CliUtil.Load | src/mangadm/cli/cli_util.py:65-72 | a missing file loads as `{}`; an error that escapes only for text that is not UTF-8; otherwise the value the file held or `{}` |
| CliMain.FilterLimit | src/mangadm/cli/main.py:92 | -1 for "-1" and for anything that is not a digit string; never below -1 |
| CliMain.ValidLimitIff | src/mangadm/cli/main.py:90 | an answer is accepted exactly when it is "-1" or a digit string with a digit other than 0 |
| CliMain.ValidatedFilters | src/mangadm/cli/main.py:90-92 | every accepted answer filters to a positive count, or to -1 exactly for "-1" |
| CliMain.DefaultAnswerRoundTrip | src/mangadm/cli/main.py:89-92 | the prompt's default for a saved limit of -1 or above 0 is accepted and filters back to that limit |
| CliMain.LeadingZeroIgnored | src/mangadm/cli/main.py:90-92 | a leading 0 changes neither whether an answer is accepted nor, for a non-empty answer, what it filters to |
| CliMain.DownloadDefaults | src/mangadm/cli/main.py:31-60 | each option's default is the saved setting or its fallback; settings that are not a dict raise |
| CliMain.FreshDefaults | src/mangadm/cli/main.py:31-60 | with nothing saved the defaults are ".", -1, no deletion, "cbz" and no detail update |
| CliMain.AnswersDict | src/mangadm/cli/main.py:78-120 | the answers form a dict of six keys |
| CliMain.SavedSettings | src/mangadm/cli/main.py:120-128 | the answers are written exactly when `save_defaults` is truthy, and are then the settings |
| CliMain.SavedAnswersBecomeDefaults | src/mangadm/cli/main.py:31-125 | confirmed answers are saved and read back as the next download's defaults |
| CliMain.AnswersLookup | src/mangadm/cli/main.py:78-120 | each answer is found under its key |
| CliMain.AnswerKeysDistinct | src/mangadm/cli/main.py:78-120 | the six keys differ |
| CliMain.DeclinedAnswersNotSaved | src/mangadm/cli/main.py:127-128 | declined answers are not saved |
| CliMain.SavedTable | src/mangadm/cli/main.py:125 | the table after saving lists the five answers other than `save_defaults` |
| Assets.Names | src/mangadm/assets/__init__.py:27 | one name per path, in order |
| Assets.BuildChapterContent | src/mangadm/assets/__init__.py:11-31 | the header, the tags of the names, then the footer |
| Assets.AppendTags | src/mangadm/assets/__init__.py:26-28 | the loop appends each name's tag to what it started from |
| Assets.PageStartsWithHeader | src/mangadm/assets/__init__.py:13-23 | the page starts with the header |
| Assets.PageEndsWithFooter | src/mangadm/assets/__init__.py:30-31 | the page ends with `</body></html>`, and an empty list gives the header and the footer only |
| Assets.HeaderLinksStyle | src/mangadm/assets/__init__.py:13-23 | whatever style sheet is formatted in, the header is the fixed opening text, its `href`, then the fixed closing text |
| Assets.HeaderInjective | src/mangadm/assets/__init__.py:13-23 | different style sheets give different headers |
| Assets.TagsAppend | src/mangadm/assets/__init__.py:26-28 | the tags of a concatenation are the tags of its parts |
| Assets.TagsSplit | src/mangadm/assets/__init__.py:26-28 | the tags hold the i-th name's tag right after the tags of the names before it |
| Assets.TagAt | src/mangadm/assets/__init__.py:26-28 | the page holds one `<img src="images/N" alt="N" />` per path, with the name verbatim, in input order |
| Setup.Requirements | setup.py:9-11 | every entry is stripped and not empty, and there are never more entries than lines |
| Setup.ParseRequirements | setup.py:6-12 | the entries of the stripped, split text are stripped, not empty, and at most one per line |
| Setup.RequirementsAppend | setup.py:9-11 | the entries follow the line order |
| Setup.RequirementsComprehension | setup.py:9-11 | the entries are the comprehension with its filter and its map |
| Setup.ComprehensionMembers | setup.py:9-11 | a comprehension holds exactly the images of the lines that pass its filter |
| Setup.RequirementsMembers | setup.py:9-11 | an entry is exactly the stripped text of a kept line |
| Setup.IndentedCommentKept | setup.py:10 | an indented comment line is kept, because the '#' test looks at the unstripped line |
| Setup.CommentLineDropped | setup.py:10 | a line starting with '#' gives no entry |
| Setup.OneLine | setup.py:8-11 | one clean requirement is read back as itself |
| FileSystem.RenameIfFree | mangadm/utils/utility.py:176-203 | refused and nothing changes when the target exists; otherwise True exactly when the rename worked, and then the target holds what the temp path held |

## Left out

- Network transport: sessions, timeouts and chunk streaming are left out. Each server answer is a value (status, headers, chunks, how the stream ended) that the caller supplies.
- asyncio concurrency in the slide loader is left out: the semaphore, the task creation and gathering, and the cancellation in the `urls` setter. The batch runs its tasks one after another, and every property about its results is stated on counts, never on their order.
- Random jitter and `time.sleep` in `delay` are left out as floating-point values and effects; only the integer base of the backoff is modelled.
- Progress bars, spinners and their colour thresholds are left out: they are terminal output with floating-point percentages and clock readings. The one exception is the loader's spinner task. Its removal after a chapter and the KeyError of the next update are modelled, as a flag.
- Loggers and console output are left out, except where a line is what an operation produces: the summary rows, the skip message and the first engine's results message.
- Signal handlers are left out: they are process signals and class-level global state.
- Archive writers are one opaque effect, which removes the chapter folder and writes `<name>.<ext>` with bytes the caller supplies. This covers `create_cbz`, `create_epub`, the archiver component, and the reads of `image_error` and `epub_style_css`. The placeholder image bytes are a parameter.
- JSON encoding and decoding are left out. A document read is a value the caller supplies: missing, unreadable or not JSON, not UTF-8, or parsed. Every save is recorded as the document written, in order.
- Duplicate keys in a JSON object are not modelled faithfully. Python keeps the last one; the model's `Json.Get` reads the first. Documents with duplicate keys are outside what the model describes.
- JSON floating-point numbers are not modelled.
- `Orchestrator.IndexOf`: the search uses structural equality on `Json`, where `list.remove` uses Python's `==`. Two things differ. First, an object's field order counts in the model, but dicts compare equal regardless of key order. Second, `JBool(true)` differs from `JInt(1)` and `JBool(false)` from `JInt(0)`, but Python has `True == 1` and `False == 0`. So when a list holds entries that are Python-equal but not structurally equal, the model may pick a later position than Python does.
- `Orchestrator.RemoveFirst`: inherits the equality of `Orchestrator.IndexOf`. It raises ValueError only when no element is structurally equal, and removes the first structurally equal element. Python removes the first Python-equal one, which may come earlier, and raises only when no element is Python-equal. The engines' removals all go through it: `Orchestrator.RemoveFromData` (src/mangadm/core/mangadm.py:179), `LegacyEngine.MangaDM.RemoveEntry` (mangadm/core/mangadm.py:94), `FirstEngine.MangaDM.RemoveEntry` (MangaDM/mangadm.py:87) and `MangaDmCore.MangaDM.RemoveEntry` (manga_dm/core.py:116). In each of them the entry comes from the list being walked, or from the legacy engine's snapshot of it. When the list holds Python-equal entries that are not structurally equal, the model can remove a different one than Python. For example, take a list of two objects that differ only in key order, where the second one's chapter completes: Python removes the first object, the model the second.
- URL decoding (`urlparse`, `unquote`, `os.path.basename`) is a parameter that maps a URL to its decoded file name.
- `Utility.check_if_chapters_downloaded`: manga_dm/utils/utility.py's `Utility` has no such method, so if that is the class imported, the call at manga_dm/core.py:85 raises AttributeError. The model makes the completion detector a parameter instead.
- `CliMain.FilterLimit` and `CliMain.ValidLimitIff` model `str.isdigit` on ASCII digits only. This differs from Python in two ways:
  - Python's `isdigit` also holds for non-ASCII decimal digits such as "٣", and `int()` reads them. Python accepts such an answer; the model's validator rejects it and its filter maps it to -1.
  - `isdigit` also holds for digit characters that are not decimal, such as "²", "³" and "①", and `int()` raises ValueError on them. So the validator (src/mangadm/cli/main.py:90) and the filter (src/mangadm/cli/main.py:92) raise on such an answer. The model does not represent that exception.
- File-system exceptions beyond the modelled ones are left out:
  - writes never fail halfway (a disk fault ends the stream after the delivered bytes are written);
  - `os.makedirs(exist_ok=True)` and `Path.mkdir(parents=True, exist_ok=True)` over an existing file leave the file in place instead of raising;
  - `FileSystem.Rename` replaces any existing target, where POSIX refuses to put a file over a folder or a folder over a file or a non-empty folder (the engines only rename onto a free path or after removing a file);
  - permissions and case-insensitive file systems are not modelled.
- Paths are lists of components: absolute paths and `..` components are not resolved against a working directory.
- `LegacyEngine.ReadEntry`: a truthy images value other than a list of strings raises before the chapter's first download. The code does not raise there. A string is walked character by character and a dict key by key, with no exception. A number or a boolean raises only where the completion check or the downloader first takes its length or walks it. A list holding a non-string raises only when the downloader reaches that item, after the earlier images were fetched.
- `LegacyEngine.MangaDM.FetchCover` and `LegacyEngine.MangaDM.DownloadChapterImages` hand the downloader the `os.path.join` string paths of mangadm/core/mangadm.py:71-116, and the model's downloader treats them as paths. mangadm/core/downloader.py is not part of this model. The downloader that fits this generation's statistics manager, src/mangadm/core/downloader.py, calls `dest_path.mkdir` and `dest_path / name` (lines 195, 217, 227), which on a string raise AttributeError at the first cover or chapter download. The legacy findings assume a downloader that accepts the string.
- `RetryDownloader.Loop`: a ChunkedEncodingError is retried without raising the attempt count (src/mangadm/core/downloader.py:106-112), so persistent chunk breaks retry forever. The model ends only because the list of replies is finite. `RetryDownloader.ChunkBreaksUnbounded` shows that max_retries bounds nothing then, and `RetryDownloader.RequestsBounded` states its bound only for replies without chunk breaks.
- `Orchestrator.BaseFolder`: the folder name shows a `source` that is a list or a dict as "[...]" or "{...}", where the f-string writes Python's repr of it. Quoting and escaping of the repr are not modelled; scalar sources are shown as Python does.
- `CliUtil.SettingsRowsAll`: a setting whose value is a list or a dict is shown as "[...]" or "{...}", where `str(value)` writes Python's repr of it; scalar values are shown as Python does.
- `Orchestrator.MangaDM.ProcessChapter`: on the TypeError path of images the loader cannot walk, and on the spinner's KeyError path for such images, the model records the loader's new folder but not its new URL list, nor the SKIPPED results the pre-check appended for earlier images whose files exist, nor any transfer started before the event loop shut down. The chapter's own result list is exact: it gains nothing.
- `Orchestrator.MangaDM.ProcessChapters` inherits the gap of `Orchestrator.MangaDM.ProcessChapter` above; it runs on the base folder `Orchestrator.Open` made.
- `Strings.Strip`: only space, tab, newline, carriage return, vertical tab, form feed and the separators 0x1c-0x1f are stripped; `str.strip` also strips the other Unicode whitespace characters.
- `Loader.TotalSize`: a content-length header that is not a decimal number, where `int()` raises ValueError, cannot be represented, because the model's header is a natural number or absent. The same holds for every downloader that parses it: `RetryDownloader.Content` (src/mangadm/core/downloader.py:163-164), `MangaDmDownloader.Fetch` (manga_dm/downloader/downloader.py:60, where the ValueError would be caught and counted as a failure) and `FirstDownloader.Downloader.Download` (MangaDM/downloader/downloader.py:43-44).
- `FileSystem.SizeOrZero`: `os.path.getsize` of a folder returns the size of the folder entry, which the model does not represent; the model states the result only for a file and for a missing path.
- The command-line plumbing of Click, InquirerPy and trogon is left out: the command bodies of `configure`, `example`, `reset` and `view`, and `CliUtility.save`, `reset` and `show_example` are file writes and terminal output. Their decisions are modelled: the limit prompt's validator and filter, the option defaults, the save-only-if-confirmed rule and the settings table. The older CLIs' limit validators are the same expressions as `CliMain.ValidLimit`.
- src/mangadm/core/mangadm.py: `_setup_manga_metadata` (the details file) and `_download_cover_image` (a cover through the loader's `one`) are left out, with `start`, which only calls `_process_chapters`.
- mangadm/utils/utility.py: the stored-settings helpers `get_config_path`, `load_stored_settings`, `save_stored_settings` and `display_example_json` are left out. They are superseded by `CliUtil` and are I/O.
- `base_component.py` and the package `__init__` files are left out: a console holder and a lazy import.

## Findings

| source | as written | input that shows it | evidently intended | confidence | as-written member | corrected member |
|---|---|---|---|---|---|---|
| src/mangadm/core/mangadm.py:47 | the constructor builds `SlideLoader(console=..., save_dir=...)`, and SlideLoader's constructor (src/mangadm/core/slide_loader.py:24-31) has no `console` parameter | any ".json" file holding a valid document, with any destination | build the loader on the base folder alone, `SlideLoader(save_dir=self.base_folder)` | not executed | Orchestrator.ConstructAsWritten | Orchestrator.Open, Orchestrator.OpenSucceeds, Orchestrator.MangaDM.constructor |
| src/mangadm/core/mangadm.py:256 | `remove_task(spinner_task)` removes the task, but `spinner_task` is a cached_property (src/mangadm/core/slide_loader.py:55-62), so the next `spinner.update` with it (src/mangadm/core/slide_loader.py:211) raises KeyError | two chapters that both need downloading, with no limit reached after the first | the task made afresh for each chapter, so every chapter is processed | not executed | Orchestrator.SecondLoaderChapterRaises, Orchestrator.TwoLoaderChaptersRaise | Orchestrator.NewTaskNoKeyError, Orchestrator.RunNewTaskNoKeyError, Orchestrator.NewTaskSettles |
| src/mangadm/core/mangadm.py:243-255 | the loader's results are cleared only after a successful chapter; the spinner's KeyError above hides this, because the next loader chapter raises before it is judged | with the spinner task made afresh for each chapter: a chapter with one failed image, then a chapter whose images all download | each chapter is judged by its own images | not executed | Orchestrator.StickyFailure | Orchestrator.LoadedFresh, Orchestrator.FreshVerdict |
| mangadm/core/mangadm.py:76-99 | the cover's download_file can clear all_images_downloaded, and nothing sets it again before the first chapter | a cover that fails every retry, then a first chapter whose images all arrive | only a chapter's own images decide its verdict | not executed | LegacyEngine.StaleFlagFailsChapter | LegacyEngine.CoverStepCorrected, LegacyEngine.OwnImagesDecide |
| manga_dm/core.py:108-117 | failure_chapter is tested but nothing ever increments it | delete_on_success and a chapter whose every image answers 404 | remove an entry only when none of its images failed | not executed | MangaDmCore.FailedImagesStillRemoved | MangaDmCore.DownloadChapterCorrected, MangaDmCore.CorrectedRemovesComplete |
| manga_dm/core.py:73-117 | entries are removed from the list the for loop is walking | delete_on_success, no limit, two entries, the first already complete on disk | every entry is visited | not executed | MangaDmCore.RemovalSkipsNext, MangaDmCore.LiveListSkipsSecond | MangaDmCore.WalkSnapshot, MangaDmCore.SnapshotVisitsAll |
| MangaDM/mangadm.py:35-91 | the limit is tested against `downloaded`, which nothing increments | chapters_limit 1 and a document of three chapters | stop after the limit's number of chapters | not executed | FirstEngine.LimitIgnored, FirstEngine.ProcessImagesIgnoresLimit | FirstEngine.WalkCorrected, FirstEngine.WalkCorrectedRespectsLimit |
| MangaDM/downloader/downloader.py:73-81 | Dfailed is incremented for every URL, so with delete_if_success only chapters without images are ever removed | one URL that downloads, with delete_if_success | count only the downloads that answered False | not executed | FirstDownloader.FailedIsLength, FirstEngine.OnlyEmptyChaptersRemoved | FirstDownloader.DownloadFromCorrected, FirstDownloader.CorrectedCounts, FirstEngine.CorrectedRemovesComplete |
| manga_dm/downloader/downloader.py:53-75 | the temp file is always opened for append, even when the server ignores the Range header and sends the whole image with status 200 | a partial temp file of k > 0 bytes and a server that answers 200 with the whole image | start the temp file afresh when the server restarted the body, as the current engine does | not executed | MangaDmDownloader.IgnoredRangeCorrupts | MangaDmDownloader.FetchCorrected, MangaDmDownloader.CorrectedFileIsBody |
