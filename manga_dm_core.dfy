/** The orchestrator of the `manga_dm/` engine (manga_dm/core.py): the JSON list of chapter
    entries is walked by index over the LIVE list, each chapter's images go through the
    MangaDmDownloader into `<base>/<title>`, the downloaded count goes up for every chapter
    that reaches the download step, and with delete_on_success an entry is removed from the
    list (and the list saved) when all_images_downloaded holds and failure_chapter is 0. The
    limit counts only downloaded chapters. */
module MangaDmCore {
  import opened Wrappers
  import opened Json
  import opened FileSystem
  import opened PathNames
  import opened Http
  import opened MangaDmStats
  import opened MangaDmDownloader
  import Strings
  import MangaDmUtility
  import LegacyEngine
  import Orchestrator

  // ---------------------------------------------------------------------------------------
  // The constructor

  /** What the constructor leaves: the list of entries the loop walks, the total it sets
      (len(data)) and, for a top-level dict or string that is not empty, the exception
      `data[0]` raises once process_images gets that far. */
  datatype Setup = Setup(entries: seq<Json>, total: nat, unindexable: Option<Failure>)

  /** `Utility.load_data(json_file)` and `set_total_chapters(len(data))`: a failed read loads
      as []; a top-level value without a length raises TypeError in the constructor. */
  function Open(read: ReadOutcome): (r: Result<Setup>)
    ensures r.Err? <==> MangaDmUtility.LoadData(read).JNull? || MangaDmUtility.LoadData(read).JBool?
                        || MangaDmUtility.LoadData(read).JInt?
    ensures r.Err? ==> r.error.TypeError?
    ensures r.Ok? ==> (r.value.entries == [] && r.value.unindexable.None? <==> !Truthy(MangaDmUtility.LoadData(read)))
    ensures r.Ok? && r.value.entries != [] ==> MangaDmUtility.LoadData(read) == JArr(r.value.entries)
    ensures MangaDmUtility.LoadData(read).JArr? ==>
              r == Ok(Setup(MangaDmUtility.LoadData(read).items, |MangaDmUtility.LoadData(read).items|, None))
    ensures !read.Parsed? ==> r == Ok(Setup([], 0, None))
  {
    match MangaDmUtility.LoadData(read)
    case JArr(items) => Ok(Setup(items, |items|, None))
    case JObj(fields) => Ok(Setup([], |fields|, if fields == [] then None else Some(KeyError("0"))))
    case JStr(s) =>
      Ok(Setup([], |s|, if s == [] then None else Some(AttributeError("'str' object has no attribute 'get'"))))
    case _ => Err(TypeError("object has no len()"))
  }

  // ---------------------------------------------------------------------------------------
  // Folders

  /** `os.path.join(dest_path, data[0].get("manganame", "UnknownManga"))`: the name is not
      sanitised, and a name that is not a string makes the join raise. */
  function BaseFolder(dest: Path, first: Json): (r: Result<Path>)
    ensures r.Ok? <==> first.JObj? && GetOr(first.fields, "manganame", JStr("UnknownManga")).JStr?
    ensures !first.JObj? ==> r.Err? && r.error.AttributeError?
    ensures first.JObj? && r.Err? ==> r.error.TypeError?
    ensures r.Ok? ==> Under(dest, r.value)
  {
    if !first.JObj? then Err(AttributeError("object has no attribute 'get'"))
    else match GetOr(first.fields, "manganame", JStr("UnknownManga"))
      case JStr(name) =>
        var base := dest + Components(name);
        assert base[..|dest|] == dest;
        Ok(base)
      case _ => Err(TypeError("expected str, bytes or os.PathLike object"))
  }

  /** A name without '/' (other than "" and ".") is one folder below dest, kept as it is. */
  lemma SingleComponent(s: string)
    requires s != "" && s != "." && '/' !in s
    ensures Components(s) == [s]
  {
    Strings.SplitWithoutSep(s, '/');
    assert [s][..0] == [];
  }

  /** Every character of the manga name but '/' reaches the folder name: nothing is
      sanitised, and an entry without a name uses "UnknownManga". */
  lemma PlainNameKept(dest: Path, first: Json)
    requires first.JObj?
    requires var name := GetOr(first.fields, "manganame", JStr("UnknownManga"));
      name.JStr? && name.s != "" && name.s != "." && '/' !in name.s
    ensures BaseFolder(dest, first) == Ok(dest + [GetOr(first.fields, "manganame", JStr("UnknownManga")).s])
  {
    SingleComponent(GetOr(first.fields, "manganame", JStr("UnknownManga")).s);
  }

  lemma UnknownMangaFolder(dest: Path, first: Json)
    requires first.JObj? && Get(first.fields, "manganame").None?
    ensures BaseFolder(dest, first) == Ok(dest + ["UnknownManga"])
  {
    assert "UnknownManga"[0] != '/' && "UnknownManga"[1] != '/';
    PlainNameKept(dest, first);
  }

  // ---------------------------------------------------------------------------------------
  // The run as a function of the state

  /** The settings the run is configured with. */
  datatype Config = Config(dest: Path, limit: int, force: bool, deleteOnSuccess: bool)

  /** Everything the run changes: the statistics, the outside world, the live entry list and
      the lists saved to the JSON file. */
  datatype Engine = Engine(t: Tallies, w: World, data: seq<Json>, saves: seq<seq<Json>>)

  /** The state reached and the exception that escaped, if any. */
  datatype Outcome = Outcome(error: Option<Failure>, st: Engine)

  /** Utility.check_if_chapters_downloaded(folder, images), which the utility module of this
      generation does not define: a parameter. */
  type Detector = (FS, Path, Json) -> bool

  const CoverName: string := "cover.jpg"

  /** setup_manga_dir_with_cover: nothing for a falsy cover, nothing for an existing
      `cover.jpg` without force, otherwise one download_file into the base folder. */
  function CoverStep(cfg: Config, base: Path, st: Engine, basename: Url -> string): Outcome {
    if st.data == [] then Outcome(Some(IndexError("list index out of range")), st)
    else if !st.data[0].JObj? then Outcome(Some(AttributeError("object has no attribute 'get'")), st)
    else
      var cover := GetOr(st.data[0].fields, "cover", JNull);
      if !Truthy(cover) then Outcome(None, st)
      else if JoinName(base, CoverName) in st.w.fs && !cfg.force then Outcome(None, st)
      else CoverFetch(cfg, base, st, cover, basename)
  }

  /** _download_cover_image: download_file with the name "cover.jpg"; its answer is only
      logged, an exception of download escapes. */
  function CoverFetch(cfg: Config, base: Path, st: Engine, cover: Json, basename: Url -> string): Outcome {
    var s := DownloadSpec(st.t, st.w, base, cfg.force, Some(CoverName), cover, basename);
    Outcome(if s.r.Err? then Some(s.r.error) else None, st.(t := s.t, w := s.w))
  }

  /** A chapter entry with images: its title with '/' replaced, and the images value. */
  datatype Chapter = Chapter(title: string, images: Json)

  /** str.replace("/", "_"). */
  function ReplaceSlashes(s: string): (r: string)
    ensures |r| == |s| && '/' !in r
    ensures forall i :: 0 <= i < |s| ==> r[i] == if s[i] == '/' then '_' else s[i]
    ensures '/' !in s ==> r == s
  {
    if s == [] then [] else [if s[0] == '/' then '_' else s[0]] + ReplaceSlashes(s[1..])
  }

  /** `entry.get("images", [])` and, for an entry with images, `entry.get("title",
      "UnknownChapter").replace("/", "_")`. Ok(None) is the `continue` for falsy images. */
  function ReadEntry(j: Json): (r: Result<Option<Chapter>>)
    ensures !j.JObj? ==> r.Err? && r.error.AttributeError?
    ensures r == Ok(None) <==> j.JObj? && !Truthy(GetOr(j.fields, "images", JArr([])))
    ensures (j.JObj? && Truthy(GetOr(j.fields, "images", JArr([])))
             && !GetOr(j.fields, "title", JStr("UnknownChapter")).JStr?) ==> r.Err? && r.error.AttributeError?
    ensures r.Ok? && r.value.Some? ==>
      && j.JObj?
      && r.value.value.images == GetOr(j.fields, "images", JArr([])) && Truthy(r.value.value.images)
      && GetOr(j.fields, "title", JStr("UnknownChapter")).JStr?
      && r.value.value.title == ReplaceSlashes(GetOr(j.fields, "title", JStr("UnknownChapter")).s)
  {
    if !j.JObj? then Err(AttributeError("object has no attribute 'get'"))
    else
      var images := GetOr(j.fields, "images", JArr([]));
      if !Truthy(images) then Ok(None)
      else match GetOr(j.fields, "title", JStr("UnknownChapter"))
        case JStr(title) => Ok(Some(Chapter(ReplaceSlashes(title), images)))
        case _ => Err(AttributeError("object has no attribute 'replace'"))
  }

  /** What `enumerate(urls)` walks: a list's items, a string's characters, a dict's keys; any
      other value is not iterable. */
  function Iterated(images: Json): (r: Result<seq<Json>>)
    ensures r.Ok? <==> images.JArr? || images.JStr? || images.JObj?
    ensures r.Err? ==> r.error.TypeError?
    ensures images.JArr? ==> r == Ok(images.items)
    ensures images.JStr? ==> (|r.value| == |images.s| &&
              forall i :: 0 <= i < |images.s| ==> r.value[i] == JStr([images.s[i]]))
    ensures images.JObj? ==> (|r.value| == |images.fields| &&
              forall i :: 0 <= i < |images.fields| ==> r.value[i] == JStr(images.fields[i].0))
  {
    match images
    case JArr(items) => Ok(items)
    case JStr(s) => Ok(seq(|s|, i requires 0 <= i < |s| => JStr([s[i]])))
    case JObj(fields) => Ok(seq(|fields|, i requires 0 <= i < |fields| => JStr(fields[i].0)))
    case _ => Err(TypeError("object is not iterable"))
  }

  /** `data.remove(entry)` and the save_data after it; a missing entry raises. */
  function Removed(s: Engine, entry: Json): Outcome {
    match Orchestrator.RemoveFirst(s.data, entry)
    case None => Outcome(Some(ValueError("list.remove(x): x not in list")), s)
    case Some(d) => Outcome(None, s.(data := d, saves := s.saves + [d]))
  }

  /** The bookkeeping of _download_chapter_images after the batch: one more downloaded
      chapter, the flag cleared by a truthy failure_chapter, the removal, then the per-chapter
      failure counter reset and the flag set again. */
  function Settle(cfg: Config, s: Engine, entry: Json): Outcome {
    Finish(cfg, s.(t := Flagged(s.t)), entry)
  }

  /** update_chapters_downloaded, then all_images_downloaded cleared by a truthy
      failure_chapter. */
  function Flagged(t: Tallies): Tallies {
    var counted := t.(c := t.c.(chaptersDownloaded := t.c.chaptersDownloaded + 1));
    if counted.failureChapter != 0 then counted.(allImages := false) else counted
  }

  /** The removal under the flag and delete_on_success, then the reset of failure_chapter and
      the flag. */
  function Finish(cfg: Config, s: Engine, entry: Json): Outcome {
    var o := if s.t.allImages && cfg.deleteOnSuccess then Removed(s, entry) else Outcome(None, s);
    if o.error.Some? then o
    else Outcome(None, o.st.(t := o.st.t.(failureChapter := 0, allImages := true)))
  }

  /** The bookkeeping keeps the list, or removes this entry and saves. */
  lemma SettleData(cfg: Config, s: Engine, entry: Json)
    ensures var o := Settle(cfg, s, entry);
      || (o.st.data == s.data && o.st.saves == s.saves)
      || (cfg.deleteOnSuccess && Some(o.st.data) == Orchestrator.RemoveFirst(s.data, entry)
          && o.st.saves == s.saves + [o.st.data])
  {
  }

  /** _download_chapter_images: a Downloader into the chapter folder without a fixed name,
      download_files over the images, then the bookkeeping. */
  function DownloadChapter(cfg: Config, st: Engine, entry: Json, folder: Path, images: Json,
                           basename: Url -> string): Outcome {
    match Iterated(images)
    case Err(e) => Outcome(Some(e), st)
    case Ok(urls) =>
      var b := DownloadAll(st.t, st.w, folder, cfg.force, None, urls, basename);
      var s := st.(t := b.t, w := b.w);
      if b.error.Some? then Outcome(b.error, s) else Settle(cfg, s, entry)
  }

  /** One turn of process_images' loop. */
  function ChapterStep(cfg: Config, base: Path, st: Engine, entry: Json, detector: Detector,
                       basename: Url -> string): Outcome {
    match ReadEntry(entry)
    case Err(e) => Outcome(Some(e), st)
    case Ok(None) => Outcome(None, st)
    case Ok(Some(ch)) =>
      var folder := JoinName(base, ch.title);
      if detector(st.w.fs, folder, ch.images) then
        Outcome(None, st.(t := st.t.(c := st.t.c.(skippedChapters := st.t.c.skippedChapters + 1))))
      else DownloadChapter(cfg, st, entry, folder, ch.images, basename)
  }

  /** A turn keeps the list, or (with delete_on_success only) removes its entry and saves. */
  lemma ChapterStepData(cfg: Config, base: Path, st: Engine, entry: Json, detector: Detector,
                        basename: Url -> string)
    ensures var o := ChapterStep(cfg, base, st, entry, detector, basename);
      || (o.st.data == st.data && o.st.saves == st.saves)
      || (cfg.deleteOnSuccess && Some(o.st.data) == Orchestrator.RemoveFirst(st.data, entry)
          && o.st.saves == st.saves + [o.st.data])
    ensures |ChapterStep(cfg, base, st, entry, detector, basename).st.data| <= |st.data|
  {
    if Fetches(cfg, base, st, entry, detector) {
      var b := BatchFor(cfg, base, st, entry, detector, basename);
      FetchingStep(cfg, base, st, entry, detector, basename);
      if b.error.None? {
        SettleData(cfg, st.(t := b.t, w := b.w), entry);
      }
    }
  }

  /** What the walk leaves: the exception, the state and the entries it visited in order. */
  datatype Run = Run(error: Option<Failure>, st: Engine, visited: seq<Json>)

  /** `for count, entry in enumerate(self.data)` over the live list: the entry at index i of
      the list as it is now, until the index passes its end, the limit stops the run or an
      exception escapes. */
  function Walk(cfg: Config, base: Path, st: Engine, i: nat, detector: Detector,
                basename: Url -> string): (r: Run)
    ensures |r.visited| <= if i < |st.data| then |st.data| - i else 0
    ensures r.visited != [] ==> i < |st.data| && r.visited[0] == st.data[i]
    ensures r.error.Some? ==> r.visited != []
    decreases if i < |st.data| then |st.data| - i else 0
  {
    if i >= |st.data| || LegacyEngine.ShouldStop(cfg.limit, st.t.c.chaptersDownloaded) then Run(None, st, [])
    else
      var o := ChapterStep(cfg, base, st, st.data[i], detector, basename);
      ChapterStepData(cfg, base, st, st.data[i], detector, basename);
      if o.error.Some? then Run(o.error, o.st, [st.data[i]])
      else
        var r := Walk(cfg, base, o.st, i + 1, detector, basename);
        Run(r.error, r.st, [st.data[i]] + r.visited)
  }

  /** process_images: nothing without data; else the base folder, the cover, and the walk. */
  function ProcessImagesSpec(cfg: Config, unindexable: Option<Failure>, st: Engine, detector: Detector,
                             basename: Url -> string): Run {
    if unindexable.Some? then Run(unindexable, st, [])
    else if st.data == [] then Run(None, st, [])
    else match BaseFolder(cfg.dest, st.data[0])
      case Err(e) => Run(Some(e), st, [])
      case Ok(base) =>
        var c := CoverStep(cfg, base, st, basename);
        if c.error.Some? then Run(c.error, c.st, [])
        else Walk(cfg, base, c.st, 0, detector, basename)
  }

  /** With empty data nothing is processed and nothing changes. */
  lemma EmptyDataProcessesNothing(cfg: Config, st: Engine, detector: Detector, basename: Url -> string)
    requires st.data == []
    ensures ProcessImagesSpec(cfg, None, st, detector, basename) == Run(None, st, [])
  {
  }

  // ---------------------------------------------------------------------------------------
  // What a turn does

  /** The entry has images and a title, the detector does not report it complete and its
      images value can be iterated: this turn runs a batch. */
  predicate Fetches(cfg: Config, base: Path, st: Engine, entry: Json, detector: Detector) {
    && ReadEntry(entry).Ok? && ReadEntry(entry).value.Some?
    && var ch := ReadEntry(entry).value.value;
      !detector(st.w.fs, JoinName(base, ch.title), ch.images) && Iterated(ch.images).Ok?
  }

  /** The batch a fetching turn runs. */
  function BatchFor(cfg: Config, base: Path, st: Engine, entry: Json, detector: Detector,
                    basename: Url -> string): Batch
    requires Fetches(cfg, base, st, entry, detector)
  {
    var ch := ReadEntry(entry).value.value;
    DownloadAll(st.t, st.w, JoinName(base, ch.title), cfg.force, None, Iterated(ch.images).value, basename)
  }

  /** A fetching turn runs its batch and, when that raised nothing, the bookkeeping. */
  lemma FetchingStep(cfg: Config, base: Path, st: Engine, entry: Json, detector: Detector,
                     basename: Url -> string)
    requires Fetches(cfg, base, st, entry, detector)
    ensures var b := BatchFor(cfg, base, st, entry, detector, basename);
      ChapterStep(cfg, base, st, entry, detector, basename) ==
        if b.error.Some? then Outcome(b.error, st.(t := b.t, w := b.w))
        else Settle(cfg, st.(t := b.t, w := b.w), entry)
  {
  }

  /** The batch of a fetching turn counts images only. */
  lemma FetchingBatchTallies(cfg: Config, base: Path, st: Engine, entry: Json, detector: Detector,
                             basename: Url -> string)
    requires Fetches(cfg, base, st, entry, detector)
    ensures var b := BatchFor(cfg, base, st, entry, detector, basename);
      ImagesOnly(st.t, b.t, |Iterated(ReadEntry(entry).value.value.images).value|, b.error.None?)
  {
    var ch := ReadEntry(entry).value.value;
    BatchTallies(st.t, st.w, JoinName(base, ch.title), cfg.force, None, Iterated(ch.images).value, basename);
  }

  /** A chapter the detector reports complete counts one skipped chapter and sends nothing. */
  lemma DetectedChapterSkipped(cfg: Config, base: Path, st: Engine, entry: Json, detector: Detector,
                               basename: Url -> string)
    requires ReadEntry(entry).Ok? && ReadEntry(entry).value.Some?
    requires var ch := ReadEntry(entry).value.value; detector(st.w.fs, JoinName(base, ch.title), ch.images)
    ensures ChapterStep(cfg, base, st, entry, detector, basename) ==
      Outcome(None, st.(t := st.t.(c := st.t.c.(skippedChapters := st.t.c.skippedChapters + 1))))
  {
  }

  /** The bookkeeping counts one downloaded chapter whatever the images did, removes the
      entry exactly when delete_on_success, all_images_downloaded and a zero failure_chapter
      meet, and leaves failure_chapter at 0 and the flag set unless the removal raised. */
  lemma SettleFacts(cfg: Config, s: Engine, entry: Json)
    ensures var o := Settle(cfg, s, entry);
      && o.st.t.c == s.t.c.(chaptersDownloaded := s.t.c.chaptersDownloaded + 1)
      && o.st.w == s.w
      && (o.error.None? ==> o.st.t.failureChapter == 0 && o.st.t.allImages)
      && (o.st.data != s.data ==>
            cfg.deleteOnSuccess && s.t.allImages && s.t.failureChapter == 0)
      && (cfg.deleteOnSuccess && s.t.allImages && s.t.failureChapter == 0 && entry in s.data ==>
            o.error.None? && Some(o.st.data) == Orchestrator.RemoveFirst(s.data, entry)
            && o.st.saves == s.saves + [o.st.data])
      && (!(cfg.deleteOnSuccess && s.t.allImages && s.t.failureChapter == 0) ==>
            o.error.None? && o.st.data == s.data && o.st.saves == s.saves)
  {
    if cfg.deleteOnSuccess && s.t.allImages && s.t.failureChapter == 0 && entry in s.data {
      var counted := s.t.(c := s.t.c.(chaptersDownloaded := s.t.c.chaptersDownloaded + 1));
      assert Orchestrator.RemoveFirst(s.data, entry).Some?;
      assert Settle(cfg, s, entry).st.data == Removed(s.(t := counted), entry).st.data;
    }
  }

  /** Every chapter that reaches the download step is counted downloaded, even when all of
      its images failed. */
  lemma DownloadedChapterCounted(cfg: Config, base: Path, st: Engine, entry: Json, detector: Detector,
                                 basename: Url -> string)
    requires Fetches(cfg, base, st, entry, detector)
    requires BatchFor(cfg, base, st, entry, detector, basename).error.None?
    ensures ChapterStep(cfg, base, st, entry, detector, basename).st.t.c.chaptersDownloaded
            == st.t.c.chaptersDownloaded + 1
  {
    var b := BatchFor(cfg, base, st, entry, detector, basename);
    FetchingStep(cfg, base, st, entry, detector, basename);
    FetchingBatchTallies(cfg, base, st, entry, detector, basename);
    SettleFacts(cfg, st.(t := b.t, w := b.w), entry);
  }

  /** The chapter counters a turn can change: at most one of them, by one, and the total never. */
  predicate OneChapterCounted(c: Counters, c': Counters) {
    && c'.totalChapters == c.totalChapters
    && c.chaptersDownloaded <= c'.chaptersDownloaded
    && c.skippedChapters <= c'.skippedChapters
    && c'.chaptersDownloaded + c'.skippedChapters <= c.chaptersDownloaded + c.skippedChapters + 1
  }

  /** Each turn counts at most one chapter, whatever it raised. */
  lemma ChapterStepCountsOne(cfg: Config, base: Path, st: Engine, entry: Json, detector: Detector,
                             basename: Url -> string)
    ensures OneChapterCounted(st.t.c, ChapterStep(cfg, base, st, entry, detector, basename).st.t.c)
  {
    if Fetches(cfg, base, st, entry, detector) {
      var b := BatchFor(cfg, base, st, entry, detector, basename);
      FetchingStep(cfg, base, st, entry, detector, basename);
      FetchingBatchTallies(cfg, base, st, entry, detector, basename);
      SettleFacts(cfg, st.(t := b.t, w := b.w), entry);
    }
  }

  /** A limit of 0 or more is never overshot: the check comes before every turn, and each
      turn counts at most one downloaded chapter. */
  lemma {:induction false} WalkRespectsLimit(cfg: Config, base: Path, st: Engine, i: nat, detector: Detector,
                                             basename: Url -> string)
    requires cfg.limit >= 0 && st.t.c.chaptersDownloaded <= cfg.limit
    ensures Walk(cfg, base, st, i, detector, basename).st.t.c.chaptersDownloaded <= cfg.limit
    decreases if i < |st.data| then |st.data| - i else 0
  {
    if i < |st.data| && !LegacyEngine.ShouldStop(cfg.limit, st.t.c.chaptersDownloaded) {
      var o := ChapterStep(cfg, base, st, st.data[i], detector, basename);
      ChapterStepCountsOne(cfg, base, st, st.data[i], detector, basename);
      ChapterStepData(cfg, base, st, st.data[i], detector, basename);
      if o.error.None? {
        WalkRespectsLimit(cfg, base, o.st, i + 1, detector, basename);
      }
    }
  }

  /** The run stops exactly at a reached limit (other than -1); without one, it goes on to
      the entry at the index. */
  lemma WalkStops(cfg: Config, base: Path, st: Engine, i: nat, detector: Detector, basename: Url -> string)
    ensures LegacyEngine.ShouldStop(cfg.limit, st.t.c.chaptersDownloaded) ==>
              Walk(cfg, base, st, i, detector, basename) == Run(None, st, [])
    ensures !LegacyEngine.ShouldStop(cfg.limit, st.t.c.chaptersDownloaded) && i < |st.data| ==>
              Walk(cfg, base, st, i, detector, basename).visited[0] == st.data[i]
  {
  }

  // ---------------------------------------------------------------------------------------
  // failure_chapter is never counted

  /** The per-chapter failure counter is 0 and the flag is set. */
  predicate Settled(t: Tallies) {
    t.failureChapter == 0 && t.allImages
  }

  /** No turn unsettles the tallies: nothing in this generation calls update_failure_chapter,
      so failure_chapter stays 0 and all_images_downloaded stays set. */
  lemma ChapterStepKeepsSettled(cfg: Config, base: Path, st: Engine, entry: Json, detector: Detector,
                                basename: Url -> string)
    requires Settled(st.t)
    ensures Settled(ChapterStep(cfg, base, st, entry, detector, basename).st.t)
  {
    if Fetches(cfg, base, st, entry, detector) {
      var b := BatchFor(cfg, base, st, entry, detector, basename);
      FetchingStep(cfg, base, st, entry, detector, basename);
      FetchingBatchTallies(cfg, base, st, entry, detector, basename);
      SettleFacts(cfg, st.(t := b.t, w := b.w), entry);
    }
  }

  /** The cover's download keeps the tallies settled too. */
  lemma CoverKeepsSettled(cfg: Config, base: Path, st: Engine, basename: Url -> string)
    requires Settled(st.t)
    ensures Settled(CoverStep(cfg, base, st, basename).st.t)
  {
    if st.data != [] && st.data[0].JObj? {
      var cover := GetOr(st.data[0].fields, "cover", JNull);
      DownloadTallies(st.t, st.w, base, cfg.force, Some(CoverName), cover, basename);
    }
  }

  /** As written: with delete_on_success, an entry that reaches the bookkeeping is removed
      from the list even when every one of its images failed, because failure_chapter is
      never counted. */
  lemma FailedImagesStillRemoved(cfg: Config, base: Path, st: Engine, entry: Json, detector: Detector,
                                 basename: Url -> string)
    requires Settled(st.t) && cfg.deleteOnSuccess && entry in st.data
    requires Fetches(cfg, base, st, entry, detector)
    requires BatchFor(cfg, base, st, entry, detector, basename).error.None?
    ensures var o := ChapterStep(cfg, base, st, entry, detector, basename);
      o.error.None? && Some(o.st.data) == Orchestrator.RemoveFirst(st.data, entry)
  {
    var b := BatchFor(cfg, base, st, entry, detector, basename);
    FetchingStep(cfg, base, st, entry, detector, basename);
    FetchingBatchTallies(cfg, base, st, entry, detector, basename);
    SettleFacts(cfg, st.(t := b.t, w := b.w), entry);
  }

  /** Corrected: the images that failed in this chapter's batch are its failure_chapter, so
      the bookkeeping removes an entry only when none of its images failed. */
  function DownloadChapterCorrected(cfg: Config, st: Engine, entry: Json, folder: Path, images: Json,
                                    basename: Url -> string): (o: Outcome)
    ensures o.st.data != st.data ==>
      Iterated(images).Ok? &&
      DownloadAll(st.t, st.w, folder, cfg.force, None, Iterated(images).value, basename).t.c.failure == st.t.c.failure
  {
    match Iterated(images)
    case Err(e) => Outcome(Some(e), st)
    case Ok(urls) =>
      var b := DownloadAll(st.t, st.w, folder, cfg.force, None, urls, basename);
      BatchTallies(st.t, st.w, folder, cfg.force, None, urls, basename);
      var failed := b.t.c.failure - st.t.c.failure;
      var s := st.(t := b.t.(failureChapter := b.t.failureChapter + failed), w := b.w);
      if b.error.Some? then Outcome(b.error, st.(t := b.t, w := b.w))
      else
        SettleFacts(cfg, s, entry);
        Settle(cfg, s, entry)
  }

  /** The corrected bookkeeping still removes a chapter whose images all arrived. */
  lemma CorrectedRemovesComplete(cfg: Config, st: Engine, entry: Json, folder: Path, images: Json,
                                 basename: Url -> string)
    requires Settled(st.t) && cfg.deleteOnSuccess && entry in st.data && Iterated(images).Ok?
    requires var b := DownloadAll(st.t, st.w, folder, cfg.force, None, Iterated(images).value, basename);
      b.error.None? && b.t.c.failure == st.t.c.failure
    ensures var o := DownloadChapterCorrected(cfg, st, entry, folder, images, basename);
      o.error.None? && Some(o.st.data) == Orchestrator.RemoveFirst(st.data, entry)
  {
    var urls := Iterated(images).value;
    var b := DownloadAll(st.t, st.w, folder, cfg.force, None, urls, basename);
    BatchTallies(st.t, st.w, folder, cfg.force, None, urls, basename);
    SettleFacts(cfg, st.(t := b.t.(failureChapter := 0), w := b.w), entry);
  }

  // ---------------------------------------------------------------------------------------
  // The live list

  /** As written: when a turn removes its own entry (the one at index i), the walk goes on
      at index i + 1 of the shortened list, which is the old entry i + 2: the old entry
      i + 1 is never visited, and when it was the last one the run ends. */
  lemma RemovalSkipsNext(cfg: Config, base: Path, st: Engine, i: nat, detector: Detector,
                         basename: Url -> string)
    requires i + 1 < |st.data| && !LegacyEngine.ShouldStop(cfg.limit, st.t.c.chaptersDownloaded)
    requires var o := ChapterStep(cfg, base, st, st.data[i], detector, basename);
      o.error.None? && o.st.data == st.data[..i] + st.data[i + 1..]
    ensures var r := Walk(cfg, base, st, i, detector, basename);
      && r.visited != [] && r.visited[0] == st.data[i]
      && (i + 2 == |st.data| ==> r.visited == [st.data[i]])
      && (|r.visited| > 1 ==> r.visited[1] == st.data[i + 2])
  {
    var o := ChapterStep(cfg, base, st, st.data[i], detector, basename);
    ChapterStepData(cfg, base, st, st.data[i], detector, basename);
    var r := Walk(cfg, base, o.st, i + 1, detector, basename);
    if r.visited != [] {
      assert i + 1 < |o.st.data| && r.visited[0] == o.st.data[i + 1];
    }
  }

  /** The first entry of the input behind RemovalSkipsNext: a title and one image. */
  function ExampleEntry(title: string, url: Url): Json {
    JObj([("title", JStr(title)), ("images", JArr([JStr(url)]))])
  }

  lemma ExampleEntryRead(title: string, url: Url)
    requires '/' !in title
    ensures ReadEntry(ExampleEntry(title, url)) == Ok(Some(Chapter(title, JArr([JStr(url)]))))
  {
    var e := ExampleEntry(title, url);
    assert Get(e.fields, "images") == Some(JArr([JStr(url)])) by {
      assert e.fields[0].0 != "images" by {
        assert |e.fields[0].0| != |"images"|;
      }
    }
  }

  /** Its one image already exists on disk: the batch counts it skipped and sends nothing. */
  lemma ExampleBatch(t: Tallies, w: World, folder: Path, url: Url, local: string)
    requires local != "" && local != "." && folder + [local] in w.fs
    ensures DownloadAll(t, w, folder, false, None, [JStr(url)], (u: Url) => local)
            == Batch(None, t.(c := t.c.(skipped := t.c.skipped + 1)), w.(fs := MkDirs(w.fs, folder)))
  {
    var basename := (u: Url) => local;
    assert LocalName(None, JStr(url), basename) == Ok(local);
    ExistingFileSkipped(t, w, folder, None, JStr(url), basename);
    assert [JStr(url)][1..] == [];
  }

  /** The input behind RemovalSkipsNext: two entries, delete_on_success and no limit. The
      first entry's one image already exists on disk, so its chapter is complete and it is
      removed; the second entry is then never visited. */
  lemma LiveListSkipsSecond(w: World, base: Path, title: string, url: Url, local: string, second: Json)
    requires title != "" && title != "." && '/' !in title
    requires local != "" && local != "." && base + [title, local] in w.fs
    ensures var st := Engine(Tallies(Counters(0, 0, 0, 0, 0, 2), 0, true, true), w,
                             [ExampleEntry(title, url), second], []);
      Walk(Config(base, -1, false, true), base, st, 0, (fs: FS, p: Path, j: Json) => false, (u: Url) => local).visited
      == [ExampleEntry(title, url)]
  {
    var first := ExampleEntry(title, url);
    var st := Engine(Tallies(Counters(0, 0, 0, 0, 0, 2), 0, true, true), w, [first, second], []);
    var cfg := Config(base, -1, false, true);
    var detector := (fs: FS, p: Path, j: Json) => false;
    var basename := (u: Url) => local;
    FirstTurnRemoves(w, base, title, url, local, second);
    var o := ChapterStep(cfg, base, st, first, detector, basename);
    assert Walk(cfg, base, o.st, 1, detector, basename).visited == [];
    assert Walk(cfg, base, st, 0, detector, basename).visited
        == [first] + Walk(cfg, base, o.st, 1, detector, basename).visited;
  }

  /** The first turn of that input completes its chapter and removes its entry. */
  lemma FirstTurnRemoves(w: World, base: Path, title: string, url: Url, local: string, second: Json)
    requires title != "" && title != "." && '/' !in title
    requires local != "" && local != "." && base + [title, local] in w.fs
    ensures var st := Engine(Tallies(Counters(0, 0, 0, 0, 0, 2), 0, true, true), w,
                             [ExampleEntry(title, url), second], []);
      var o := ChapterStep(Config(base, -1, false, true), base, st, ExampleEntry(title, url),
                           (fs: FS, p: Path, j: Json) => false, (u: Url) => local);
      o.error.None? && o.st.data == [second]
  {
    var st := Engine(Tallies(Counters(0, 0, 0, 0, 0, 2), 0, true, true), w, [ExampleEntry(title, url), second], []);
    var cfg := Config(base, -1, false, true);
    var detector := (fs: FS, p: Path, j: Json) => false;
    var basename := (u: Url) => local;
    var first := ExampleEntry(title, url);
    var folder := base + [title];
    ExampleEntryRead(title, url);
    assert folder + [local] == base + [title, local];
    ExampleBatch(st.t, w, folder, url, local);
    assert Fetches(cfg, base, st, first, detector);
    FetchingStep(cfg, base, st, first, detector, basename);
    var b := BatchFor(cfg, base, st, first, detector, basename);
    assert Flagged(b.t).allImages;
    assert Orchestrator.RemoveFirst(st.data, first) == Some([second]) by {
      assert Orchestrator.IndexOf(st.data, first) == 0;
      assert st.data[..0] + st.data[1..] == [second];
    }
    var o := ChapterStep(cfg, base, st, first, detector, basename);
    assert o.error.None? && o.st.data == [second];
  }

  /** Corrected: the walk over a snapshot of the list, `for entry in list(self.data)`. */
  function WalkSnapshot(cfg: Config, base: Path, st: Engine, entries: seq<Json>, detector: Detector,
                        basename: Url -> string): Run
    decreases |entries|
  {
    if entries == [] || LegacyEngine.ShouldStop(cfg.limit, st.t.c.chaptersDownloaded) then Run(None, st, [])
    else
      var o := ChapterStep(cfg, base, st, entries[0], detector, basename);
      if o.error.Some? then Run(o.error, o.st, [entries[0]])
      else
        var r := WalkSnapshot(cfg, base, o.st, entries[1..], detector, basename);
        Run(r.error, r.st, [entries[0]] + r.visited)
  }

  /** The snapshot walk visits a prefix of the entries, and all of them when there is no
      limit and nothing raised, whatever was removed on the way. */
  lemma {:induction false} SnapshotVisitsAll(cfg: Config, base: Path, st: Engine, entries: seq<Json>,
                                             detector: Detector, basename: Url -> string)
    ensures var r := WalkSnapshot(cfg, base, st, entries, detector, basename);
      r.visited <= entries && (cfg.limit == -1 && r.error.None? ==> r.visited == entries)
    decreases |entries|
  {
    if entries != [] && !LegacyEngine.ShouldStop(cfg.limit, st.t.c.chaptersDownloaded) {
      var o := ChapterStep(cfg, base, st, entries[0], detector, basename);
      if o.error.None? {
        SnapshotVisitsAll(cfg, base, o.st, entries[1..], detector, basename);
        assert entries == [entries[0]] + entries[1..];
      }
    }
  }

  /** Without delete_on_success the list never changes, and the live walk from index i is
      the snapshot walk over the entries from i on. */
  lemma {:induction false} WalkWithoutDeletion(cfg: Config, base: Path, st: Engine, i: nat, detector: Detector,
                                               basename: Url -> string)
    requires !cfg.deleteOnSuccess
    ensures i <= |st.data| ==>
      Walk(cfg, base, st, i, detector, basename) == WalkSnapshot(cfg, base, st, st.data[i..], detector, basename)
    decreases if i < |st.data| then |st.data| - i else 0
  {
    if i < |st.data| && !LegacyEngine.ShouldStop(cfg.limit, st.t.c.chaptersDownloaded) {
      var o := ChapterStep(cfg, base, st, st.data[i], detector, basename);
      ChapterStepData(cfg, base, st, st.data[i], detector, basename);
      assert st.data[i..][1..] == st.data[i + 1..];
      if o.error.None? {
        WalkWithoutDeletion(cfg, base, o.st, i + 1, detector, basename);
      }
    }
  }

  // ---------------------------------------------------------------------------------------
  // The object

  class MangaDM {
    var data: seq<Json>
    /** The lists written back to the JSON file, in order. */
    var saves: seq<seq<Json>>
    const jsonFile: string
    const config: Config
    const unindexable: Option<Failure>
    const stats: StatsManager

    function State(w: World): Engine
      reads this, stats
    {
      Engine(stats.Tally(), w, data, saves)
    }

    /** The constructor once the file was read: fresh statistics with the total set to
        len(data). The session and the signal handler are not modelled. */
    constructor (jsonFile: string, s: Setup, dest: Path, limit: int, force: bool, deleteOnSuccess: bool)
      ensures fresh(stats) && this.jsonFile == jsonFile && unindexable == s.unindexable
      ensures config == Config(dest, limit, force, deleteOnSuccess)
      ensures data == s.entries && saves == []
      ensures stats.Tally() == Tallies(Counters(0, 0, 0, 0, 0, s.total), 0, true, true)
    {
      var sm := new StatsManager();
      sm.SetTotalChapters(s.total);
      this.jsonFile := jsonFile;
      data := s.entries;
      saves := [];
      config := Config(dest, limit, force, deleteOnSuccess);
      unindexable := s.unindexable;
      stats := sm;
    }

    /** _should_stop_processing. */
    predicate ShouldStopProcessing()
      reads this, stats
    {
      config.limit != -1 && stats.chaptersDownloaded >= config.limit
    }

    /** setup_manga_dir_with_cover. */
    method SetupCover(base: Path, w: World, basename: Url -> string) returns (err: Option<Failure>, w': World)
      modifies stats
      ensures Outcome(err, State(w')) == CoverStep(config, base, old(State(w)), basename)
    {
      if data == [] {
        return Some(IndexError("list index out of range")), w;
      }
      if !data[0].JObj? {
        return Some(AttributeError("object has no attribute 'get'")), w;
      }
      var cover := GetOr(data[0].fields, "cover", JNull);
      if !Truthy(cover) {
        return None, w;
      }
      if JoinName(base, CoverName) in w.fs && !config.force {
        return None, w;
      }
      err, w' := DownloadCoverImage(base, cover, w, basename);
    }

    /** _download_cover_image. */
    method DownloadCoverImage(base: Path, cover: Json, w: World, basename: Url -> string)
      returns (err: Option<Failure>, w': World)
      modifies stats
      ensures Outcome(err, State(w')) == CoverFetch(config, base, old(State(w)), cover, basename)
    {
      var downloader := new Downloader(stats, base, config.force, Some(CoverName));
      var r;
      r, w' := downloader.DownloadFile(cover, w, basename);
      err := if r.Err? then Some(r.error) else None;
    }

    /** One turn of process_images' loop. */
    method ProcessEntry(base: Path, entry: Json, w: World, detector: Detector, basename: Url -> string)
      returns (err: Option<Failure>, w': World)
      modifies this, stats
      ensures Outcome(err, State(w')) == ChapterStep(config, base, old(State(w)), entry, detector, basename)
    {
      var read := ReadEntry(entry);
      if read.Err? {
        return Some(read.error), w;
      }
      if read.value.None? {
        return None, w;
      }
      var ch := read.value.value;
      var folder := JoinName(base, ch.title);
      if detector(w.fs, folder, ch.images) {
        stats.UpdateSkippedChapters();
        return None, w;
      }
      err, w' := DownloadChapterImages(folder, ch.images, entry, w, basename);
    }

    /** _download_chapter_images. */
    method DownloadChapterImages(folder: Path, images: Json, entry: Json, w: World, basename: Url -> string)
      returns (err: Option<Failure>, w': World)
      modifies this, stats
      ensures Outcome(err, State(w')) == DownloadChapter(config, old(State(w)), entry, folder, images, basename)
    {
      var urls := Iterated(images);
      if urls.Err? {
        return Some(urls.error), w;
      }
      var downloader := new Downloader(stats, folder, config.force, None);
      err, w' := downloader.DownloadFiles(urls.value, w, basename);
      if err.Some? {
        return;
      }
      err := SettleChapter(entry, w');
    }

    /** The bookkeeping of _download_chapter_images after download_files. */
    method SettleChapter(entry: Json, ghost w: World) returns (err: Option<Failure>)
      modifies this, stats
      ensures Outcome(err, State(w)) == Settle(config, old(State(w)), entry)
    {
      CountChapter();
      err := FinishChapter(entry, w);
    }

    /** update_chapters_downloaded and the failure_chapter test. */
    method CountChapter()
      modifies stats
      ensures stats.Tally() == Flagged(old(stats.Tally()))
    {
      stats.UpdateChaptersDownloaded();
      var failed := stats.GetStatistics()["failure_chapter"];
      if failed != 0 {
        stats.allImagesDownloaded := false;
      }
    }

    /** The removal and the reset at the end of _download_chapter_images. */
    method FinishChapter(entry: Json, ghost w: World) returns (err: Option<Failure>)
      modifies this, stats
      ensures Outcome(err, State(w)) == Finish(config, old(State(w)), entry)
    {
      err := None;
      if stats.allImagesDownloaded && config.deleteOnSuccess {
        err := RemoveEntry(entry, w);
        if err.Some? {
          return;
        }
      }
      stats.ResetFailureChapter();
      stats.allImagesDownloaded := true;
    }

    /** `data.remove(entry)` and the save that follows it. */
    method RemoveEntry(entry: Json, ghost w: World) returns (err: Option<Failure>)
      modifies this
      ensures Outcome(err, State(w)) == Removed(old(State(w)), entry)
    {
      var rest := Orchestrator.RemoveFirst(data, entry);
      if rest.None? {
        return Some(ValueError("list.remove(x): x not in list"));
      }
      err := None;
      data := rest.value;
      saves := saves + [data];
    }

    /** Walk's verdict from index i on, from the state the turn leaves. */
    method ProcessNext(base: Path, i: nat, w: World, detector: Detector, basename: Url -> string)
      returns (err: Option<Failure>, w': World)
      requires i < |data| && !ShouldStopProcessing()
      modifies this, stats
      ensures |data| <= old(|data|) <= |data| + 1
      ensures var r := Walk(config, base, old(State(w)), i, detector, basename);
        if err.Some? then err == r.error && State(w') == r.st
        else (Walk(config, base, State(w'), i + 1, detector, basename).error == r.error
              && Walk(config, base, State(w'), i + 1, detector, basename).st == r.st)
    {
      ghost var st := State(w);
      ChapterStepData(config, base, st, data[i], detector, basename);
      err, w' := ProcessEntry(base, data[i], w, detector, basename);
    }

    /** process_images: the base folder and the cover, then the live list by index until the
        limit stops the run; the summary rows are logged when the data was not empty and
        nothing raised. */
    method ProcessImages(w: World, detector: Detector, basename: Url -> string)
      returns (err: Option<Failure>, w': World, report: Option<seq<string>>)
      modifies this, stats
      ensures var r := ProcessImagesSpec(config, unindexable, old(State(w)), detector, basename);
        err == r.error && State(w') == r.st
      ensures report.Some? <==> err.None? && unindexable.None? && old(data) != []
      ensures report.Some? ==> report.value == Summary(stats.Snapshot())
    {
      if unindexable.Some? {
        return unindexable, w, None;
      }
      if data == [] {
        return None, w, None;
      }
      var base := BaseFolder(config.dest, data[0]);
      if base.Err? {
        return Some(base.error), w, None;
      }
      err, w' := SetupCover(base.value, w, basename);
      if err.Some? {
        return err, w', None;
      }
      err, w' := WalkEntries(base.value, w', detector, basename);
      if err.Some? {
        return err, w', None;
      }
      report := Some(stats.DownloadResults());
    }

    /** process_images' loop: the live list by index until the limit stops the run. */
    method WalkEntries(base: Path, w: World, detector: Detector, basename: Url -> string)
      returns (err: Option<Failure>, w': World)
      modifies this, stats
      ensures var r := Walk(config, base, old(State(w)), 0, detector, basename);
        err == r.error && State(w') == r.st
    {
      w' := w;
      ghost var whole := Walk(config, base, State(w), 0, detector, basename);
      var i := 0;
      while i < |data|
        invariant i <= |data| + 1
        invariant Walk(config, base, State(w'), i, detector, basename).error == whole.error
        invariant Walk(config, base, State(w'), i, detector, basename).st == whole.st
        decreases |data| + 1 - i
      {
        if ShouldStopProcessing() {
          break;
        }
        err, w' := ProcessNext(base, i, w', detector, basename);
        if err.Some? {
          return;
        }
        i := i + 1;
      }
      err := None;
    }
  }
}
