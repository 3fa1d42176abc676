/** The orchestrator of the `mangadm/` engine (mangadm/core/mangadm.py): the JSON list of
    chapter entries is walked in order over a snapshot, each chapter's images go through the
    retry downloader into a `<title>_tamp` folder, and a chapter whose images all arrived is
    renamed into place, optionally archived and optionally removed from the list. The limit
    counts only downloaded chapters. */
module LegacyEngine {
  import opened Wrappers
  import opened Strings
  import opened Json
  import opened FileSystem
  import opened PathNames
  import opened Http
  import opened Sanitize
  import opened LegacyStats
  import opened LegacyUtility
  import opened RetryDownloader
  import Orchestrator

  // ---------------------------------------------------------------------------------------
  // The constructor's checks

  /** What the constructor settles: the file name, the chapter entries and the base folder. */
  datatype Setup = Setup(jsonFile: string, entries: seq<Json>, base: Path)

  /** `data[0].get("manganame", "UnknownManga").translate(...)` joined to dest. */
  function BaseFolder(dest: Path, first: Json): (r: Result<Path>)
    ensures r.Ok? <==> first.JObj? && GetOr(first.fields, "manganame", JStr("UnknownManga")).JStr?
    ensures r.Ok? ==> |dest| <= |r.value| && r.value[..|dest|] == dest
    ensures r.Err? ==> r.error.AttributeError?
  {
    if !first.JObj? then Err(AttributeError("object has no attribute 'get'"))
    else
      var name := GetOr(first.fields, "manganame", JStr("UnknownManga"));
      if !name.JStr? then Err(AttributeError("object has no attribute 'translate'"))
      else
        var base := dest + Components(Translate(name.s));
        assert base[..|dest|] == dest;
        Ok(base)
  }

  /** The constructor: a name that does not end in ".json" (case-sensitive) and an empty load
      both exit; a file whose bytes are not UTF-8 raises UnicodeDecodeError out of load_data;
      then the total is len(data) and the base folder comes from data[0]. Only a non-empty
      list whose first entry is a dict gets past data[0].get. */
  function Open(name: string, read: ReadOutcome, dest: Path): (r: Result<Setup>)
    ensures !EndsWith(name, ".json") ==> r.Err? && r.error.Exit?
    ensures EndsWith(name, ".json") && LoadData(read).Err? ==> r == Err(LoadData(read).error)
    ensures LoadData(read).Ok? && !Truthy(LoadData(read).value) ==> r.Err? && r.error.Exit?
    ensures read.Missing? || read.Undecodable? ==> r.Err? && r.error.Exit?
    ensures r.Ok? ==> EndsWith(name, ".json") && r.value.jsonFile == name
    ensures r.Ok? ==> LoadData(read) == Ok(JArr(r.value.entries)) && r.value.entries != []
                      && r.value.entries[0].JObj?
    ensures r.Ok? ==> |dest| <= |r.value.base| && r.value.base[..|dest|] == dest
  {
    if !EndsWith(name, ".json") then Err(Exit("Unsupported file format. Please use JSON format."))
    else match LoadData(read)
      case Err(e) => Err(e)
      case Ok(data) =>
        if !Truthy(data) then Err(Exit("No data available to process."))
        else match data
          case JArr(items) =>
            (match BaseFolder(dest, items[0])
             case Err(e) => Err(e)
             case Ok(base) => Ok(Setup(name, items, base)))
          case JObj(_) => Err(KeyError("0"))
          case JStr(_) => Err(AttributeError("'str' object has no attribute 'get'"))
          case _ => Err(TypeError("object has no len()"))
  }

  /** A missing, unreadable or non-JSON file never gets as far as a download. */
  lemma UnreadableFileExits(name: string, read: ReadOutcome, dest: Path)
    requires read.Missing? || read.Undecodable?
    ensures Open(name, read, dest).Err? && Open(name, read, dest).error.Exit?
  {
    assert LoadData(read) == Ok(JArr([]));
  }

  /** A ".json" file whose bytes are not UTF-8 does not exit: the constructor raises
      UnicodeDecodeError. */
  lemma NotUtf8Raises(name: string, dest: Path)
    requires EndsWith(name, ".json")
    ensures Open(name, NotUtf8, dest) == Err(UnicodeDecodeError)
  {
    assert LoadData(NotUtf8) == Err(UnicodeDecodeError);
  }

  // ---------------------------------------------------------------------------------------
  // The limit

  /** _should_stop_processing: a limit other than -1 reached by the downloaded chapters. */
  predicate ShouldStop(limit: int, downloaded: nat) {
    limit != -1 && downloaded >= limit
  }

  /** -1 never stops the run; any other limit of 0 or below stops it before the first chapter. */
  lemma LimitEdges(limit: int, downloaded: nat)
    ensures limit == -1 ==> !ShouldStop(limit, downloaded)
    ensures limit != -1 && limit <= 0 ==> ShouldStop(limit, downloaded)
  {
  }

  // ---------------------------------------------------------------------------------------
  // The run as a function of the state

  /** The flags the run is configured with. */
  datatype Config = Config(base: Path, limit: int, force: bool, deleteOnSuccess: bool, saveAsCbz: bool,
                           placeholder: seq<Byte>)

  /** Everything the run changes: the statistics, the outside world, the live entry list and
      the lists saved to the JSON file. */
  datatype Engine = Engine(t: Tallies, w: World, data: seq<Json>, saves: seq<seq<Json>>)

  /** The state reached and the exception that escaped, if any. */
  datatype Outcome = Outcome(error: Option<Failure>, st: Engine)

  /** create_cbz, an opaque effect on the disk. */
  type Cbz = (FS, Path) -> FS

  const CoverName: string := "cover.jpg"
  const WorkSuffix: string := "_tamp"

  /** _setup_manga_dir_with_cover: nothing for a falsy cover, nothing for an existing
      `cover.jpg` without force, otherwise one download_file into the base folder. */
  function CoverStep(cfg: Config, st: Engine, basename: Url -> string): Outcome {
    if st.data == [] then Outcome(Some(IndexError("list index out of range")), st)
    else if !st.data[0].JObj? then Outcome(Some(AttributeError("object has no attribute 'get'")), st)
    else
      var cover := Get(st.data[0].fields, "cover");
      if cover.None? || !Truthy(cover.value) then Outcome(None, st)
      else if cfg.base + [CoverName] in st.w.fs && !cfg.force then Outcome(None, st)
      else if !cover.value.JStr? then Outcome(Some(AttributeError("object has no attribute 'decode'")), st)
      else CoverFetch(cfg, st, cover.value.s, basename)
  }

  /** download_file(cover_url, base_folder, "cover.jpg"): its answer is only logged. */
  function CoverFetch(cfg: Config, st: Engine, url: Url, basename: Url -> string): Outcome {
    var s := DownloadSpec(st.t, MadeDirs(st.w, cfg.base), cfg.force, cfg.placeholder,
                          url, basename(url), cfg.base, None, Some(CoverName), 3);
    Outcome(if s.r.Err? then Some(s.r.error) else None, st.(t := s.t, w := s.w))
  }

  /** entry.get("images", []) and, for an entry with images, its sanitised title. A non-dict
      entry or a title that is not a string raises; so do image URLs that are not strings
      (see README). Ok(None) is the `continue` for an entry without images. */
  function ReadEntry(j: Json): (r: Result<Option<Orchestrator.Chapter>>)
    ensures r.Ok? && r.value.Some? ==> Clean(r.value.value.title) && r.value.value.images != []
    ensures r == Ok(None) <==> j.JObj? && !Truthy(GetOr(j.fields, "images", JArr([])))
    ensures (j.JObj? && Truthy(GetOr(j.fields, "images", JArr([])))
             && !GetOr(j.fields, "title", JStr("UnknownChapter")).JStr?) ==> r.Err?
    ensures !j.JObj? ==> r.Err?
  {
    if !j.JObj? then Err(AttributeError("object has no attribute 'get'"))
    else
      var images := GetOr(j.fields, "images", JArr([]));
      if !Truthy(images) then Ok(None)
      else
        var title := GetOr(j.fields, "title", JStr("UnknownChapter"));
        if !title.JStr? then Err(AttributeError("object has no attribute 'translate'"))
        else if images.JArr? && Orchestrator.AllStrings(images.items) then
          TranslateClean(title.s);
          Ok(Some(Orchestrator.Chapter(Translate(title.s),
            seq(|images.items|, i requires 0 <= i < |images.items| => images.items[i].s))))
        else Err(TypeError("image URLs must be strings"))
  }

  /** The working folder `<base>/<title>_tamp`. */
  function WorkFolder(base: Path, title: string): Path {
    base + [title + WorkSuffix]
  }

  /** The tail of _download_chapter_images once every image arrived: the guarded rename, and
      after a successful one the downloaded count, the archive and the removal with its save. */
  function Completed(cfg: Config, s: Engine, entry: Json, folder: Path, temp: Path, cbz: Cbz): Outcome {
    var renamed := RenameIfFree(s.w.fs, temp, folder);
    if !renamed.0 then Outcome(None, s)
    else
      var fs := if cfg.saveAsCbz then cbz(renamed.1, folder) else renamed.1;
      var s1 := s.(t := s.t.(c := s.t.c.(chaptersDownloaded := s.t.c.chaptersDownloaded + 1)),
                   w := s.w.(fs := fs));
      if !cfg.deleteOnSuccess then Outcome(None, s1)
      else match Orchestrator.RemoveFirst(s1.data, entry)
        case None => Outcome(Some(ValueError("list.remove(x): x not in list")), s1)
        case Some(d) => Outcome(None, s1.(data := d, saves := s1.saves + [d]))
  }

  /** _download_chapter_images: the batch into the working folder, then the bookkeeping, and
      all_images_downloaded set again at the end. */
  function DownloadChapter(cfg: Config, st: Engine, entry: Json, folder: Path, temp: Path, urls: seq<Url>,
                           basename: Url -> string, cbz: Cbz): Outcome {
    var b := DownloadFilesSpec(st.t, st.w, cfg.force, cfg.placeholder, urls, basename, temp);
    var s := st.(t := b.t, w := b.w);
    if b.error.Some? then Outcome(b.error, s) else AfterBatch(cfg, s, entry, folder, temp, cbz)
  }

  /** The bookkeeping after a batch that raised nothing, from the state it left. */
  function AfterBatch(cfg: Config, s: Engine, entry: Json, folder: Path, temp: Path, cbz: Cbz): Outcome {
    var after := if s.t.allImages then Completed(cfg, s, entry, folder, temp, cbz)
                 else Outcome(None, s.(t := s.t.(c := s.t.c.(failureChapters := s.t.c.failureChapters + 1))));
    if after.error.Some? then after
    else Outcome(None, after.st.(t := after.st.t.(allImages := true)))
  }

  /** One turn of process_images' loop. */
  function ChapterStep(cfg: Config, st: Engine, entry: Json, basename: Url -> string, cbz: Cbz): Outcome {
    match ReadEntry(entry)
    case Err(e) => Outcome(Some(e), st)
    case Ok(None) => Outcome(None, st)
    case Ok(Some(ch)) =>
      var folder := Orchestrator.ChapterFolder(cfg.base, ch.title);
      var temp := WorkFolder(cfg.base, ch.title);
      if IsDownloadedChapter(st.w.fs, cfg.base, ch.title, temp, |ch.images|) == Some(true) then
        Outcome(None, st.(t := st.t.(c := st.t.c.(skippedChapters := st.t.c.skippedChapters + 1))))
      else DownloadChapter(cfg, st, entry, folder, temp, ch.images, basename, cbz)
  }

  /** The loop over the entries in order until the limit stops it or an exception escapes. */
  function RunChapters(cfg: Config, st: Engine, entries: seq<Json>, basename: Url -> string, cbz: Cbz): (r: Outcome)
    ensures r.st.t.c.totalChapters == st.t.c.totalChapters
    ensures st.t.c.chaptersDownloaded <= r.st.t.c.chaptersDownloaded
    ensures Tallied(r.st.t.c) <= Tallied(st.t.c) + |entries|
    decreases |entries|
  {
    if entries == [] || ShouldStop(cfg.limit, st.t.c.chaptersDownloaded) then Outcome(None, st)
    else
      var o := ChapterStep(cfg, st, entries[0], basename, cbz);
      ChapterStepCountsOne(cfg, st, entries[0], basename, cbz);
      if o.error.Some? then o else RunChapters(cfg, o.st, entries[1..], basename, cbz)
  }

  /** process_images: the cover, then the chapters of a snapshot of the list. */
  function ProcessImagesSpec(cfg: Config, st: Engine, basename: Url -> string, cbz: Cbz): Outcome {
    var c := CoverStep(cfg, st, basename);
    if c.error.Some? then c else RunChapters(cfg, c.st, c.st.data, basename, cbz)
  }

  // ---------------------------------------------------------------------------------------
  // What a chapter does

  /** The entry has images, a title and no completed copy on disk, so its images are fetched. */
  predicate Fetches(cfg: Config, st: Engine, entry: Json) {
    && ReadEntry(entry).Ok? && ReadEntry(entry).value.Some?
    && var ch := ReadEntry(entry).value.value;
      IsDownloadedChapter(st.w.fs, cfg.base, ch.title,
                          WorkFolder(cfg.base, ch.title), |ch.images|) != Some(true)
  }

  /** The batch a fetching chapter runs. */
  function BatchFor(cfg: Config, st: Engine, entry: Json, basename: Url -> string): Batch
    requires Fetches(cfg, st, entry)
  {
    var ch := ReadEntry(entry).value.value;
    DownloadFilesSpec(st.t, st.w, cfg.force, cfg.placeholder, ch.images, basename, WorkFolder(cfg.base, ch.title))
  }

  /** A fetching chapter runs its batch and, when that raised nothing, the bookkeeping from
      the state the batch left. */
  lemma FetchingStep(cfg: Config, st: Engine, entry: Json, basename: Url -> string, cbz: Cbz)
    requires Fetches(cfg, st, entry)
    ensures var ch := ReadEntry(entry).value.value;
      var b := BatchFor(cfg, st, entry, basename);
      var s := st.(t := b.t, w := b.w);
      ChapterStep(cfg, st, entry, basename, cbz)
      == if b.error.Some? then Outcome(b.error, s)
         else AfterBatch(cfg, s, entry, Orchestrator.ChapterFolder(cfg.base, ch.title), WorkFolder(cfg.base, ch.title), cbz)
  {
  }

  /** The batch of a fetching chapter counts images only (BatchTallies). */
  lemma FetchingBatchTallies(cfg: Config, st: Engine, entry: Json, basename: Url -> string)
    requires Fetches(cfg, st, entry)
    ensures ImagesOnly(st.t, BatchFor(cfg, st, entry, basename).t, |ReadEntry(entry).value.value.images|)
  {
    var ch := ReadEntry(entry).value.value;
    BatchTallies(st.t, MadeDirs(st.w, WorkFolder(cfg.base, ch.title)), cfg.force, cfg.placeholder,
                 ch.images, basename, WorkFolder(cfg.base, ch.title), 1, 3);
  }

  /** An entry without images changes nothing. */
  lemma NoImagesNoChange(cfg: Config, st: Engine, entry: Json, basename: Url -> string, cbz: Cbz)
    requires entry.JObj? && !Truthy(GetOr(entry.fields, "images", JArr([])))
    ensures ChapterStep(cfg, st, entry, basename, cbz) == Outcome(None, st)
  {
    assert ReadEntry(entry) == Ok(None);
  }

  /** A chapter the detector reports complete counts one skipped chapter and sends nothing. */
  lemma DetectedChapterSkipped(cfg: Config, st: Engine, entry: Json, basename: Url -> string, cbz: Cbz)
    requires ReadEntry(entry).Ok? && ReadEntry(entry).value.Some?
    requires var ch := ReadEntry(entry).value.value;
      IsDownloadedChapter(st.w.fs, cfg.base, ch.title,
                          WorkFolder(cfg.base, ch.title), |ch.images|) == Some(true)
    ensures var o := ChapterStep(cfg, st, entry, basename, cbz);
      o.error.None? && o.st.w == st.w && o.st.data == st.data
      && o.st.t == st.t.(c := st.t.c.(skippedChapters := st.t.c.skippedChapters + 1))
  {
  }

  /** The chapters counted so far: downloaded, failed or skipped. */
  function Tallied(c: Counters): nat {
    c.chaptersDownloaded + c.failureChapters + c.skippedChapters
  }

  /** The chapter counters a turn can change: at most one of them, by one, and the total never. */
  predicate OneChapterCounted(c: Counters, c': Counters) {
    && c'.totalChapters == c.totalChapters
    && c.chaptersDownloaded <= c'.chaptersDownloaded
    && c.failureChapters <= c'.failureChapters
    && c.skippedChapters <= c'.skippedChapters
    && c'.chaptersDownloaded + c'.failureChapters + c'.skippedChapters
       <= c.chaptersDownloaded + c.failureChapters + c.skippedChapters + 1
  }

  /** The bookkeeping after a batch: the image counters stay, at most one chapter is counted
      (a failure exactly when all_images_downloaded was cleared), the flag is set again unless
      the removal raised, and the list changes only by the removal of this entry after a
      successful rename with delete_on_success. */
  lemma AfterBatchFacts(cfg: Config, s: Engine, entry: Json, folder: Path, temp: Path, cbz: Cbz)
    ensures var o := AfterBatch(cfg, s, entry, folder, temp, cbz);
      && OneChapterCounted(s.t.c, o.st.t.c)
      && o.st.t.c.(chaptersDownloaded := s.t.c.chaptersDownloaded, failureChapters := s.t.c.failureChapters) == s.t.c
      && o.st.t.c.skippedChapters == s.t.c.skippedChapters
      && (o.st.t.c.failureChapters == s.t.c.failureChapters + 1 <==> !s.t.allImages)
      && (o.error.None? ==> o.st.t.allImages)
      && (o.st.data != s.data ==>
            s.t.allImages && cfg.deleteOnSuccess && RenameIfFree(s.w.fs, temp, folder).0
            && Some(o.st.data) == Orchestrator.RemoveFirst(s.data, entry) && o.st.saves == s.saves + [o.st.data]
            && o.st.t.c.chaptersDownloaded == s.t.c.chaptersDownloaded + 1)
  {
    if s.t.allImages {
      var c := Completed(cfg, s, entry, folder, temp, cbz);
      assert c.st.t.c.failureChapters == s.t.c.failureChapters;
    }
  }

  /** With all_images_downloaded cleared, the bookkeeping counts one failed chapter and does
      nothing else but set the flag again. */
  lemma AfterBatchIncomplete(cfg: Config, s: Engine, entry: Json, folder: Path, temp: Path, cbz: Cbz)
    requires !s.t.allImages
    ensures AfterBatch(cfg, s, entry, folder, temp, cbz)
      == Outcome(None, s.(t := s.t.(c := s.t.c.(failureChapters := s.t.c.failureChapters + 1), allImages := true)))
  {
  }

  /** A batch that left all_images_downloaded cleared counts one failed chapter: nothing is
      renamed, archived or removed, and the flag is set again. */
  lemma IncompleteChapterFails(cfg: Config, st: Engine, entry: Json, basename: Url -> string, cbz: Cbz)
    requires Fetches(cfg, st, entry)
    requires BatchFor(cfg, st, entry, basename).error.None? && !BatchFor(cfg, st, entry, basename).t.allImages
    ensures var b := BatchFor(cfg, st, entry, basename);
      var o := ChapterStep(cfg, st, entry, basename, cbz);
      o.error.None? && o.st.w == b.w && o.st.data == st.data && o.st.saves == st.saves
      && o.st.t == b.t.(c := b.t.c.(failureChapters := b.t.c.failureChapters + 1), allImages := true)
  {
    var ch := ReadEntry(entry).value.value;
    var b := BatchFor(cfg, st, entry, basename);
    FetchingStep(cfg, st, entry, basename, cbz);
    AfterBatchIncomplete(cfg, st.(t := b.t, w := b.w), entry, Orchestrator.ChapterFolder(cfg.base, ch.title),
                         WorkFolder(cfg.base, ch.title), cbz);
  }

  /** A complete batch whose final folder already exists changes no chapter counter. */
  lemma RefusedRenameCountsNothing(cfg: Config, st: Engine, entry: Json, basename: Url -> string, cbz: Cbz)
    requires Fetches(cfg, st, entry)
    requires var b := BatchFor(cfg, st, entry, basename);
      b.error.None? && b.t.allImages
      && Orchestrator.ChapterFolder(cfg.base, ReadEntry(entry).value.value.title) in b.w.fs
    ensures var b := BatchFor(cfg, st, entry, basename);
      var o := ChapterStep(cfg, st, entry, basename, cbz);
      o == Outcome(None, st.(t := b.t.(allImages := true), w := b.w))
  {
    FetchingStep(cfg, st, entry, basename, cbz);
  }

  /** The entry list changes only after a complete batch, a successful rename and with
      delete_on_success set, and then loses exactly this entry and is saved. */
  lemma RemovalOnlyAfterSuccess(cfg: Config, st: Engine, entry: Json, basename: Url -> string, cbz: Cbz)
    requires var o := ChapterStep(cfg, st, entry, basename, cbz); o.error.None? && o.st.data != st.data
    ensures Fetches(cfg, st, entry) && cfg.deleteOnSuccess
    ensures var o := ChapterStep(cfg, st, entry, basename, cbz);
      Some(o.st.data) == Orchestrator.RemoveFirst(st.data, entry) && o.st.saves == st.saves + [o.st.data]
      && o.st.t.c.chaptersDownloaded == st.t.c.chaptersDownloaded + 1
  {
    if Fetches(cfg, st, entry) {
      var ch := ReadEntry(entry).value.value;
      var b := BatchFor(cfg, st, entry, basename);
      FetchingStep(cfg, st, entry, basename, cbz);
      FetchingBatchTallies(cfg, st, entry, basename);
      AfterBatchFacts(cfg, st.(t := b.t, w := b.w), entry, Orchestrator.ChapterFolder(cfg.base, ch.title),
                      WorkFolder(cfg.base, ch.title), cbz);
    }
  }

  /** Each turn counts at most one chapter, whatever it raised. */
  lemma ChapterStepCountsOne(cfg: Config, st: Engine, entry: Json, basename: Url -> string, cbz: Cbz)
    ensures OneChapterCounted(st.t.c, ChapterStep(cfg, st, entry, basename, cbz).st.t.c)
  {
    if Fetches(cfg, st, entry) {
      var ch := ReadEntry(entry).value.value;
      var b := BatchFor(cfg, st, entry, basename);
      FetchingStep(cfg, st, entry, basename, cbz);
      FetchingBatchTallies(cfg, st, entry, basename);
      AfterBatchFacts(cfg, st.(t := b.t, w := b.w), entry, Orchestrator.ChapterFolder(cfg.base, ch.title),
                      WorkFolder(cfg.base, ch.title), cbz);
    }
  }

  /** A limit of 0 or more (other than -1) is never overshot: each turn counts at most one
      downloaded chapter and the check comes before every turn. */
  lemma {:induction false} RunRespectsLimit(cfg: Config, st: Engine, entries: seq<Json>, basename: Url -> string, cbz: Cbz)
    requires cfg.limit >= 0 && st.t.c.chaptersDownloaded <= cfg.limit
    ensures RunChapters(cfg, st, entries, basename, cbz).st.t.c.chaptersDownloaded <= cfg.limit
    decreases |entries|
  {
    if entries != [] && !ShouldStop(cfg.limit, st.t.c.chaptersDownloaded) {
      var o := ChapterStep(cfg, st, entries[0], basename, cbz);
      ChapterStepCountsOne(cfg, st, entries[0], basename, cbz);
      if o.error.None? {
        RunRespectsLimit(cfg, o.st, entries[1..], basename, cbz);
      }
    }
  }

  /** After every fetching turn that raised nothing, all_images_downloaded is set again. */
  lemma FlagResetAfterChapter(cfg: Config, st: Engine, entry: Json, basename: Url -> string, cbz: Cbz)
    requires Fetches(cfg, st, entry) && ChapterStep(cfg, st, entry, basename, cbz).error.None?
    ensures ChapterStep(cfg, st, entry, basename, cbz).st.t.allImages
  {
    var ch := ReadEntry(entry).value.value;
    var b := BatchFor(cfg, st, entry, basename);
    FetchingStep(cfg, st, entry, basename, cbz);
    AfterBatchFacts(cfg, st.(t := b.t, w := b.w), entry, Orchestrator.ChapterFolder(cfg.base, ch.title),
                    WorkFolder(cfg.base, ch.title), cbz);
  }

  // ---------------------------------------------------------------------------------------
  // A failed cover download fails the next chapter

  /** As written: the chapter that follows a turn leaving all_images_downloaded cleared (the
      cover's download_file does so when it gives up) is counted as failed even when every
      one of its own images arrived. */
  lemma StaleFlagFailsChapter(cfg: Config, st: Engine, entry: Json, basename: Url -> string, cbz: Cbz)
    requires Fetches(cfg, st, entry) && !st.t.allImages
    requires BatchFor(cfg, st, entry, basename).error.None?
    ensures var o := ChapterStep(cfg, st, entry, basename, cbz);
      o.error.None?
      && o.st.t.c.failureChapters == st.t.c.failureChapters + 1
      && o.st.t.c.chaptersDownloaded == st.t.c.chaptersDownloaded
  {
    FetchingBatchTallies(cfg, st, entry, basename);
    IncompleteChapterFails(cfg, st, entry, basename, cbz);
  }

  /** An existing cover.jpg without force is kept and nothing is looked at or fetched, whatever
      the cover value is (a non-string one included), as long as it is truthy or absent. */
  lemma ExistingCoverKept(cfg: Config, st: Engine, basename: Url -> string)
    requires st.data != [] && st.data[0].JObj?
    requires cfg.base + [CoverName] in st.w.fs && !cfg.force
    ensures CoverStep(cfg, st, basename) == Outcome(None, st)
  {
  }

  /** Only a truthy cover that is not a string, with no cover.jpg kept, raises AttributeError;
      a string one is fetched. */
  lemma CoverStepRaises(cfg: Config, st: Engine, basename: Url -> string)
    requires st.data != [] && st.data[0].JObj?
    ensures var cover := Get(st.data[0].fields, "cover");
      var e := CoverStep(cfg, st, basename).error;
      (e.Some? && e.value.AttributeError?)
      <==> (cover.Some? && Truthy(cover.value) && !(cfg.base + [CoverName] in st.w.fs && !cfg.force) && !cover.value.JStr?)
  {
    var cover := Get(st.data[0].fields, "cover");
    if cover.Some? && cover.value.JStr? && Truthy(cover.value) && !(cfg.base + [CoverName] in st.w.fs && !cfg.force) {
      assert CoverStep(cfg, st, basename) == CoverFetch(cfg, st, cover.value.s, basename);
    }
  }

  /** A cover download that gives up clears all_images_downloaded. */
  lemma FailedCoverClearsFlag(cfg: Config, st: Engine, url: Url, basename: Url -> string)
    requires DownloadSpec(st.t, MadeDirs(st.w, cfg.base), cfg.force, cfg.placeholder, url,
                          basename(url), cfg.base, None, Some(CoverName), 3).r == Ok(ReturnedFalse)
    ensures var o := CoverFetch(cfg, st, url, basename); o.error.None? && !o.st.t.allImages
  {
    DownloadTallies(st.t, MadeDirs(st.w, cfg.base), cfg.force, cfg.placeholder,
                    url, basename(url), cfg.base, None, Some(CoverName), 3);
  }

  /** Corrected: the cover's download leaves all_images_downloaded as it found it, so only a
      chapter's own images decide its verdict. */
  function CoverStepCorrected(cfg: Config, st: Engine, basename: Url -> string): (o: Outcome)
    ensures o.st.t.allImages == st.t.allImages
  {
    var c := CoverStep(cfg, st, basename);
    Outcome(c.error, c.st.(t := c.st.t.(allImages := st.t.allImages)))
  }

  /** With the flag set on entry, a fetching chapter is counted failed exactly when one of its
      own images failed. */
  lemma OwnImagesDecide(cfg: Config, st: Engine, entry: Json, basename: Url -> string, cbz: Cbz)
    requires Fetches(cfg, st, entry) && st.t.allImages
    requires BatchFor(cfg, st, entry, basename).error.None?
    ensures var o := ChapterStep(cfg, st, entry, basename, cbz);
      var b := BatchFor(cfg, st, entry, basename);
      o.st.t.c.failureChapters == st.t.c.failureChapters + 1 <==> b.t.c.failure > st.t.c.failure
  {
    var ch := ReadEntry(entry).value.value;
    var b := BatchFor(cfg, st, entry, basename);
    FetchingStep(cfg, st, entry, basename, cbz);
    FetchingBatchTallies(cfg, st, entry, basename);
    AfterBatchFacts(cfg, st.(t := b.t, w := b.w), entry, Orchestrator.ChapterFolder(cfg.base, ch.title),
                    WorkFolder(cfg.base, ch.title), cbz);
  }

  // ---------------------------------------------------------------------------------------
  // The object

  class MangaDM {
    var data: seq<Json>
    /** The lists written back to the JSON file, in order. */
    var saves: seq<seq<Json>>
    const jsonFile: string
    const config: Config
    const stats: StatsManager
    const downloader: Downloader

    ghost predicate Valid()
      reads this
    {
      downloader.stats == stats && downloader.forceDownload == config.force
      && downloader.placeholder == config.placeholder
    }

    function Tally(): Tallies
      reads this, stats
    {
      Tallies(stats.Snapshot(), stats.allImagesDownloaded, stats.printSkipMsg)
    }

    function State(w: World): Engine
      reads this, stats
    {
      Engine(Tally(), w, data, saves)
    }

    /** The constructor once Open succeeded: fresh statistics with the total set to the number
        of entries, and a downloader sharing them. */
    constructor (s: Setup, limit: int, force: bool, deleteOnSuccess: bool, saveAsCbz: bool, placeholder: seq<Byte>)
      ensures Valid() && fresh(stats) && jsonFile == s.jsonFile
      ensures config == Config(s.base, limit, force, deleteOnSuccess, saveAsCbz, placeholder)
      ensures data == s.entries && saves == []
      ensures Tally() == Tallies(Counters(0, 0, 0, 0, 0, 0, |s.entries|), true, true)
    {
      data := s.entries;
      saves := [];
      jsonFile := s.jsonFile;
      config := Config(s.base, limit, force, deleteOnSuccess, saveAsCbz, placeholder);
      var sm := new StatsManager();
      sm.SetTotalChapters(|s.entries|);
      stats := sm;
      downloader := new Downloader(sm, force, placeholder);
    }

    predicate ShouldStopProcessing()
      reads this, stats
    {
      ShouldStop(config.limit, stats.chaptersDownloaded)
    }

    /** _setup_manga_dir_with_cover. */
    method SetupCover(w: World, basename: Url -> string) returns (err: Option<Failure>, w': World)
      requires Valid()
      modifies stats
      ensures Outcome(err, State(w')) == CoverStep(config, old(State(w)), basename)
    {
      w' := w;
      if data == [] {
        return Some(IndexError("list index out of range")), w;
      }
      if !data[0].JObj? {
        return Some(AttributeError("object has no attribute 'get'")), w;
      }
      var cover := Get(data[0].fields, "cover");
      if cover.None? || !Truthy(cover.value) {
        return None, w;
      }
      if config.base + [CoverName] in w.fs && !config.force {
        return None, w;
      }
      if !cover.value.JStr? {
        return Some(AttributeError("object has no attribute 'decode'")), w;
      }
      err, w' := FetchCover(cover.value.s, w, basename);
    }

    /** The cover's download_file, whose answer is only logged. */
    method FetchCover(url: Url, w: World, basename: Url -> string) returns (err: Option<Failure>, w': World)
      requires Valid()
      modifies stats
      ensures Outcome(err, State(w')) == CoverFetch(config, old(State(w)), url, basename)
    {
      var r;
      r, w' := downloader.DownloadFile(url, basename(url), config.base, Some(CoverName), w);
      err := if r.Err? then Some(r.error) else None;
    }

    /** _download_chapter_images. */
    method DownloadChapterImages(folder: Path, temp: Path, urls: seq<Url>, entry: Json, w: World,
                                 basename: Url -> string, cbz: Cbz)
      returns (err: Option<Failure>, w': World)
      requires Valid()
      modifies this, stats
      ensures Valid()
      ensures Outcome(err, State(w')) == DownloadChapter(config, old(State(w)), entry, folder, temp, urls, basename, cbz)
    {
      err, w' := downloader.DownloadFiles(urls, basename, temp, w);
      if err.Some? {
        return;
      }
      err, w' := SettleImages(folder, temp, entry, w', cbz);
    }

    /** The bookkeeping of _download_chapter_images after a batch that raised nothing. */
    method SettleImages(folder: Path, temp: Path, entry: Json, w: World, cbz: Cbz)
      returns (err: Option<Failure>, w': World)
      requires Valid()
      modifies this, stats
      ensures Valid()
      ensures Outcome(err, State(w')) == AfterBatch(config, old(State(w)), entry, folder, temp, cbz)
    {
      w' := w;
      err := None;
      if stats.allImagesDownloaded {
        err, w' := CompleteChapter(folder, temp, entry, w, cbz);
        if err.Some? {
          return;
        }
      } else {
        stats.UpdateChapterStat(false, true, false);
      }
      stats.allImagesDownloaded := true;
    }

    /** The branch for a batch whose images all arrived: the guarded rename, the count, the
        archive and the removal with its save. */
    method CompleteChapter(folder: Path, temp: Path, entry: Json, w: World, cbz: Cbz)
      returns (err: Option<Failure>, w': World)
      requires Valid()
      modifies this, stats
      ensures Valid()
      ensures Outcome(err, State(w')) == Completed(config, old(State(w)), entry, folder, temp, cbz)
    {
      w' := w;
      err := None;
      var renamed := RenameIfFree(w.fs, temp, folder);
      if !renamed.0 {
        return;
      }
      stats.UpdateChapterStat(true, false, false);
      w' := w'.(fs := if config.saveAsCbz then cbz(renamed.1, folder) else renamed.1);
      if config.deleteOnSuccess {
        err := RemoveEntry(entry);
      }
    }

    /** `data.remove(entry)` and the save that follows it; a missing entry raises. */
    method RemoveEntry(entry: Json) returns (err: Option<Failure>)
      modifies this
      ensures var rest := Orchestrator.RemoveFirst(old(data), entry);
        if rest.None? then err == Some(ValueError("list.remove(x): x not in list"))
                           && data == old(data) && saves == old(saves)
        else err.None? && data == rest.value && saves == old(saves) + [rest.value]
    {
      var rest := Orchestrator.RemoveFirst(data, entry);
      if rest.None? {
        return Some(ValueError("list.remove(x): x not in list"));
      }
      err := None;
      data := rest.value;
      saves := saves + [data];
    }

    /** One turn of process_images' loop. */
    method ProcessEntry(entry: Json, w: World, basename: Url -> string, cbz: Cbz)
      returns (err: Option<Failure>, w': World)
      requires Valid()
      modifies this, stats
      ensures Valid()
      ensures Outcome(err, State(w')) == ChapterStep(config, old(State(w)), entry, basename, cbz)
    {
      var read := ReadEntry(entry);
      if read.Err? {
        return Some(read.error), w;
      }
      if read.value.None? {
        return None, w;
      }
      var ch := read.value.value;
      var folder := Orchestrator.ChapterFolder(config.base, ch.title);
      var temp := WorkFolder(config.base, ch.title);
      if IsDownloadedChapter(w.fs, config.base, ch.title, temp, |ch.images|) == Some(true) {
        stats.UpdateChapterStat(false, false, true);
        return None, w;
      }
      err, w' := DownloadChapterImages(folder, temp, ch.images, entry, w, basename, cbz);
    }

    /** process_images: the cover, then each entry of a snapshot of the list until the limit
        stops the run; the summary rows are logged when nothing raised. */
    method ProcessImages(w: World, basename: Url -> string, cbz: Cbz)
      returns (err: Option<Failure>, w': World, report: Option<seq<string>>)
      requires Valid()
      modifies this, stats
      ensures Valid()
      ensures Outcome(err, State(w')) == ProcessImagesSpec(config, old(State(w)), basename, cbz)
      ensures report.Some? <==> err.None?
      ensures report.Some? ==> report.value == Summary(stats.Snapshot())
    {
      err, w' := SetupCover(w, basename);
      if err.Some? {
        return err, w', None;
      }
      var entries := data;
      ghost var cfg := config;
      ghost var whole := RunChapters(cfg, State(w'), entries, basename, cbz);
      assert entries[0..] == entries;
      var k := 0;
      while k < |entries|
        invariant 0 <= k <= |entries|
        invariant Valid() && config == cfg
        invariant whole == RunChapters(cfg, State(w'), entries[k..], basename, cbz)
      {
        if ShouldStopProcessing() {
          break;
        }
        err, w' := ProcessEntry(entries[k], w', basename, cbz);
        assert entries[k..][1..] == entries[k + 1..];
        if err.Some? {
          return err, w', None;
        }
        k := k + 1;
      }
      err := None;
      report := Some(stats.DownloadResults());
    }
  }
}
