/** The orchestrator of the first engine, MangaDM/ (MangaDM/mangadm.py): the JSON list of
    chapter entries is walked over the LIVE list, each chapter's images go through the
    FirstDownloader into `<base>/<title>`, the pair it returns is added to the success and
    failure counts, and with delete_if_success an entry is removed (and the list saved) when
    no image was counted failed. The limit is checked against `downloaded`, a counter that
    nothing increments. */
module FirstEngine {
  import opened Wrappers
  import opened Json
  import opened FileSystem
  import opened Http
  import opened FirstDownloader
  import Strings
  import Wording
  import MangaDmUtility
  import LegacyEngine
  import Orchestrator
  import MangaDmDownloader
  import MangaDmCore

  // ---------------------------------------------------------------------------------------
  // The constructor

  /** What the constructor leaves: the list the loop walks and, for a top-level value that
      is truthy but not a list, the exception `self.data[0]` raises once process_images gets
      that far. */
  datatype Loaded = Loaded(entries: seq<Json>, unindexable: Option<Failure>)

  /** `Utility.load_data(json_file)`: whatever the file holds, [] when it cannot be read or
      decoded. process_images returns at once for a falsy value. */
  function Open(read: ReadOutcome): (l: Loaded)
    ensures l.entries == [] && l.unindexable.None? <==>
            !Truthy(MangaDmUtility.LoadData(read)) || MangaDmUtility.LoadData(read) == JArr([])
    ensures l.unindexable.Some? <==> Truthy(MangaDmUtility.LoadData(read)) && !MangaDmUtility.LoadData(read).JArr?
    ensures l.unindexable.Some? ==> l.entries == []
    ensures MangaDmUtility.LoadData(read).JArr? ==> l == Loaded(MangaDmUtility.LoadData(read).items, None)
    ensures !read.Parsed? ==> l == Loaded([], None)
  {
    match MangaDmUtility.LoadData(read)
    case JArr(items) => Loaded(items, None)
    case JObj(fields) => Loaded([], if fields == [] then None else Some(KeyError("0")))
    case JStr(s) =>
      Loaded([], if s == [] then None else Some(AttributeError("'str' object has no attribute 'get'")))
    case JInt(i) => Loaded([], if i == 0 then None else Some(TypeError("'int' object is not subscriptable")))
    case JBool(b) => Loaded([], if !b then None else Some(TypeError("'bool' object is not subscriptable")))
    case JNull => Loaded([], None)
  }

  // ---------------------------------------------------------------------------------------
  // The run as a function of the state

  /** The settings every turn uses; the chapter limit is passed apart. */
  datatype Config = Config(dest: Path, force: bool, deleteIfSuccess: bool)

  /** The engine's own counters and flag. */
  datatype Counters = Counters(downloaded: nat, allImages: bool, success: nat, failure: nat,
                               chaptersDownloaded: nat)

  /** Everything the run changes: the counters, the outside world, the live entry list and
      the lists saved to the JSON file. */
  datatype Engine = Engine(c: Counters, w: World, data: seq<Json>, saves: seq<seq<Json>>)

  /** The state reached and the exception that escaped, if any. */
  datatype Outcome = Outcome(error: Option<Failure>, st: Engine)

  /** init_manga_directory: nothing for a falsy cover or an existing `cover.jpg` (force or
      not), otherwise one download_file into the base folder, without force; its answer is
      ignored and an exception of download escapes. */
  function CoverStep(base: Path, st: Engine, basename: Url -> string): Outcome {
    if st.data == [] then Outcome(Some(IndexError("list index out of range")), st)
    else if !st.data[0].JObj? then Outcome(Some(AttributeError("object has no attribute 'get'")), st)
    else
      var cover := GetOr(st.data[0].fields, "cover", JNull);
      if !Truthy(cover) then Outcome(None, st)
      else if MangaDmDownloader.JoinName(base, MangaDmCore.CoverName) in st.w.fs then Outcome(None, st)
      else
        var s := DownloadSpec(st.w, base, false, Some(MangaDmCore.CoverName), cover, basename);
        Outcome(if s.r.Err? then Some(s.r.error) else None, st.(w := s.w))
  }

  /** The cover changes the world only: no counter and no entry, and an existing cover is
      never fetched again. */
  lemma CoverTouchesWorldOnly(base: Path, st: Engine, basename: Url -> string)
    ensures var o := CoverStep(base, st, basename);
      o.st.c == st.c && o.st.data == st.data && o.st.saves == st.saves
    ensures MangaDmDownloader.JoinName(base, MangaDmCore.CoverName) in st.w.fs ==>
              CoverStep(base, st, basename).st == st
  {
  }

  /** `entry.get("title", "UnknownChapter").replace("/", "_")` and `entry.get("images", [])`,
      in that order: an entry that is not a dict, or a title that is not a string, raises. */
  function ReadEntry(j: Json): (r: Result<MangaDmCore.Chapter>)
    ensures r.Err? ==> r.error.AttributeError?
    ensures r.Ok? <==> j.JObj? && GetOr(j.fields, "title", JStr("UnknownChapter")).JStr?
    ensures r.Ok? ==> '/' !in r.value.title && r.value.images == GetOr(j.fields, "images", JArr([]))
  {
    if !j.JObj? then Err(AttributeError("object has no attribute 'get'"))
    else match GetOr(j.fields, "title", JStr("UnknownChapter"))
      case JStr(title) => Ok(MangaDmCore.Chapter(MangaDmCore.ReplaceSlashes(title), GetOr(j.fields, "images", JArr([]))))
      case _ => Err(AttributeError("object has no attribute 'replace'"))
  }

  /** `data.remove(entry)` and the save_data after it; a missing entry raises. */
  function Removed(s: Engine, entry: Json): Outcome {
    match Orchestrator.RemoveFirst(s.data, entry)
    case None => Outcome(Some(ValueError("list.remove(x): x not in list")), s)
    case Some(d) => Outcome(None, s.(data := d, saves := s.saves + [d]))
  }

  /** The bookkeeping after download_files: the pair added to the counts, the flag cleared by
      a truthy failure count, then the removal and the reset. */
  function Tally(cfg: Config, s: Engine, entry: Json, n: Counts): Outcome {
    Finish(cfg, s.(c := Added(s.c, n)), entry)
  }

  /** `success_count += success`, `failure_count += failed`, and the flag cleared when
      failed is not 0. */
  function Added(c: Counters, n: Counts): Counters {
    c.(success := c.success + n.success, failure := c.failure + n.failed,
       allImages := if n.failed != 0 then false else c.allImages)
  }

  /** The removal under the flag and delete_if_success, then the flag set again and one
      more downloaded chapter. */
  function Finish(cfg: Config, s: Engine, entry: Json): Outcome {
    var o := if s.c.allImages && cfg.deleteIfSuccess then Removed(s, entry) else Outcome(None, s);
    if o.error.Some? then o
    else Outcome(None, o.st.(c := o.st.c.(allImages := true, chaptersDownloaded := o.st.c.chaptersDownloaded + 1)))
  }

  /** The download step of one turn: the images through download_files (len() and enumerate
      raise for a value that is not a list, a string or a dict), then the bookkeeping. */
  function DownloadChapter(cfg: Config, st: Engine, entry: Json, folder: Path, images: Json,
                           basename: Url -> string): Outcome {
    match MangaDmCore.Iterated(images)
    case Err(e) => Outcome(Some(e), st)
    case Ok(urls) =>
      var b := DownloadFilesSpec(st.w, folder, cfg.force, None, urls, basename);
      match b.r
      case Err(e) => Outcome(Some(e), st.(w := b.w))
      case Ok(n) => Tally(cfg, st.(w := b.w), entry, n)
  }

  /** One turn of process_images' loop (after the limit check). */
  function ChapterStep(cfg: Config, base: Path, st: Engine, entry: Json, basename: Url -> string): Outcome {
    match ReadEntry(entry)
    case Err(e) => Outcome(Some(e), st)
    case Ok(ch) => DownloadChapter(cfg, st, entry, MangaDmDownloader.JoinName(base, ch.title), ch.images, basename)
  }

  /** What the walk leaves: the exception, the state and the entries it visited in order. */
  datatype Run = Run(error: Option<Failure>, st: Engine, visited: seq<Json>)

  /** A turn of the loop, as a function of the state and the entry. */
  type Turn = (Engine, Json) -> Outcome

  /** No turn lengthens the list. */
  ghost predicate Shrinks(turn: Turn) {
    forall s: Engine, e: Json :: |turn(s, e).st.data| <= |s.data|
  }

  /** The turns of process_images: ChapterStep in the manga's base folder. */
  function Turning(cfg: Config, base: Path, basename: Url -> string): (t: Turn)
    ensures Shrinks(t)
  {
    ChapterStepsShrink(cfg, base, basename);
    (s: Engine, e: Json) => ChapterStep(cfg, base, s, e, basename)
  }

  /** `for entry in self.data` over the live list: the entry at index i of the list as it is
      now, until the index passes its end, the limit check stops the run or an exception
      escapes. */
  function Walk(turn: Turn, limit: int, st: Engine, i: nat): (r: Run)
    requires Shrinks(turn)
    ensures |r.visited| <= if i < |st.data| then |st.data| - i else 0
    ensures r.visited != [] ==> i < |st.data| && r.visited[0] == st.data[i]
    ensures r.error.Some? ==> r.visited != []
    decreases if i < |st.data| then |st.data| - i else 0
  {
    if i >= |st.data| || LegacyEngine.ShouldStop(limit, st.c.downloaded) then Run(None, st, [])
    else
      var o := turn(st, st.data[i]);
      if o.error.Some? then Run(o.error, o.st, [st.data[i]])
      else
        var r := Walk(turn, limit, o.st, i + 1);
        Run(r.error, r.st, [st.data[i]] + r.visited)
  }

  /** process_images: nothing without data; else the base folder, the cover and the walk. */
  function ProcessImagesSpec(cfg: Config, limit: int, unindexable: Option<Failure>, st: Engine,
                             basename: Url -> string): Run {
    if unindexable.Some? then Run(unindexable, st, [])
    else if st.data == [] then Run(None, st, [])
    else match MangaDmCore.BaseFolder(cfg.dest, st.data[0])
      case Err(e) => Run(Some(e), st, [])
      case Ok(base) =>
        var c := CoverStep(base, st, basename);
        if c.error.Some? then Run(c.error, c.st, [])
        else Walk(Turning(cfg, base, basename), limit, c.st, 0)
  }

  /** With empty data nothing is processed and nothing changes. */
  lemma EmptyDataProcessesNothing(cfg: Config, limit: int, st: Engine, basename: Url -> string)
    requires st.data == []
    ensures ProcessImagesSpec(cfg, limit, None, st, basename) == Run(None, st, [])
  {
  }

  // ---------------------------------------------------------------------------------------
  // What a turn does

  /** The entry has a title and its images value can be iterated: this turn runs a batch. */
  predicate Fetches(entry: Json) {
    ReadEntry(entry).Ok? && MangaDmCore.Iterated(ReadEntry(entry).value.images).Ok?
  }

  /** The URLs of a fetching turn. */
  function UrlsOf(entry: Json): seq<Json>
    requires Fetches(entry)
  {
    MangaDmCore.Iterated(ReadEntry(entry).value.images).value
  }

  /** The folder of a turn's chapter. */
  function FolderOf(base: Path, entry: Json): Path
    requires ReadEntry(entry).Ok?
  {
    MangaDmDownloader.JoinName(base, ReadEntry(entry).value.title)
  }

  /** The batch a fetching turn runs. */
  function BatchFor(cfg: Config, base: Path, st: Engine, entry: Json, basename: Url -> string): Batch
    requires Fetches(entry)
  {
    DownloadFilesSpec(st.w, FolderOf(base, entry), cfg.force, None, UrlsOf(entry), basename)
  }

  /** A turn that does not fetch raises before anything changes. */
  lemma NotFetchingStep(cfg: Config, base: Path, st: Engine, entry: Json, basename: Url -> string)
    requires !Fetches(entry)
    ensures var o := ChapterStep(cfg, base, st, entry, basename);
      o.error.Some? && o.st == st
  {
  }

  /** A fetching turn runs its batch and, when that raised nothing, the bookkeeping. */
  lemma FetchingStep(cfg: Config, base: Path, st: Engine, entry: Json, basename: Url -> string)
    requires Fetches(entry)
    ensures var b := BatchFor(cfg, base, st, entry, basename);
      ChapterStep(cfg, base, st, entry, basename) ==
        if b.r.Err? then Outcome(Some(b.r.error), st.(w := b.w)) else Tally(cfg, st.(w := b.w), entry, b.r.value)
  {
  }

  /** The bookkeeping, from a set flag: the pair is added to the counts and one downloaded
      chapter counted (unless the removal raised), the flag stays set, the world does not
      change, and the entry is removed exactly when delete_if_success is on and no image was
      counted failed. */
  lemma TallyFacts(cfg: Config, s: Engine, entry: Json, n: Counts)
    requires s.c.allImages
    ensures var o := Tally(cfg, s, entry, n);
      && o.st.w == s.w && o.st.c.allImages && o.st.c.downloaded == s.c.downloaded
      && (o.error.None? ==>
            o.st.c == s.c.(success := s.c.success + n.success, failure := s.c.failure + n.failed,
                           chaptersDownloaded := s.c.chaptersDownloaded + 1))
      && (o.error.Some? ==> o.st.c.chaptersDownloaded == s.c.chaptersDownloaded && o.st.data == s.data)
      && (o.st.data != s.data ==> cfg.deleteIfSuccess && n.failed == 0)
      && (cfg.deleteIfSuccess && n.failed == 0 && entry in s.data ==>
            o.error.None? && Some(o.st.data) == Orchestrator.RemoveFirst(s.data, entry)
            && o.st.saves == s.saves + [o.st.data])
      && (!(cfg.deleteIfSuccess && n.failed == 0) ==>
            o.error.None? && o.st.data == s.data && o.st.saves == s.saves)
  {
    var a := s.(c := Added(s.c, n));
    assert a.c.allImages <==> n.failed == 0;
    if cfg.deleteIfSuccess && n.failed == 0 && entry in s.data {
      assert Orchestrator.RemoveFirst(s.data, entry).Some?;
      assert Tally(cfg, s, entry, n).st.data == Removed(a, entry).st.data;
    }
  }

  /** The bookkeeping keeps the list, or (with delete_if_success only) removes the entry and
      saves. */
  lemma TallyData(cfg: Config, s: Engine, entry: Json, n: Counts)
    ensures var o := Tally(cfg, s, entry, n);
      || (o.st.data == s.data && o.st.saves == s.saves)
      || (cfg.deleteIfSuccess && Some(o.st.data) == Orchestrator.RemoveFirst(s.data, entry)
          && o.st.saves == s.saves + [o.st.data])
    ensures |Tally(cfg, s, entry, n).st.data| <= |s.data|
  {
    var a := s.(c := Added(s.c, n));
    if a.c.allImages && cfg.deleteIfSuccess {
      var r := Removed(a, entry);
      assert r.st.data == a.data || Some(r.st.data) == Orchestrator.RemoveFirst(s.data, entry);
    }
  }

  /** A turn keeps the list, or (with delete_if_success only) removes its entry and saves. */
  lemma ChapterStepData(cfg: Config, base: Path, st: Engine, entry: Json, basename: Url -> string)
    ensures var o := ChapterStep(cfg, base, st, entry, basename);
      || (o.st.data == st.data && o.st.saves == st.saves)
      || (cfg.deleteIfSuccess && Some(o.st.data) == Orchestrator.RemoveFirst(st.data, entry)
          && o.st.saves == st.saves + [o.st.data])
    ensures |ChapterStep(cfg, base, st, entry, basename).st.data| <= |st.data|
  {
    if Fetches(entry) {
      var b := BatchFor(cfg, base, st, entry, basename);
      FetchingStep(cfg, base, st, entry, basename);
      if b.r.Ok? {
        TallyData(cfg, st.(w := b.w), entry, b.r.value);
      }
    }
  }

  lemma ChapterStepsShrink(cfg: Config, base: Path, basename: Url -> string)
    ensures forall s: Engine, e: Json :: |ChapterStep(cfg, base, s, e, basename).st.data| <= |s.data|
  {
    forall s: Engine, e: Json {
      ChapterStepData(cfg, base, s, e, basename);
    }
  }

  /** The counts a turn changes: `downloaded` never, the flag stays set, and one downloaded
      chapter exactly when nothing raised. */
  predicate TurnCounted(c: Counters, c': Counters, raised: bool) {
    && c'.downloaded == c.downloaded
    && (c.allImages ==> c'.allImages)
    && c'.chaptersDownloaded == c.chaptersDownloaded + (if raised then 0 else 1)
  }

  lemma ChapterStepCounts(cfg: Config, base: Path, st: Engine, entry: Json, basename: Url -> string)
    requires st.c.allImages
    ensures var o := ChapterStep(cfg, base, st, entry, basename);
      TurnCounted(st.c, o.st.c, o.error.Some?)
  {
    if Fetches(entry) {
      var b := BatchFor(cfg, base, st, entry, basename);
      FetchingStep(cfg, base, st, entry, basename);
      if b.r.Ok? {
        TallyFacts(cfg, st.(w := b.w), entry, b.r.value);
      }
    }
  }

  /** As written, the removal rule meets download_files' counting: Dfailed is the number of
      images, so with delete_if_success an entry is removed exactly when its images value is
      empty, complete chapters included. */
  lemma OnlyEmptyChaptersRemoved(cfg: Config, base: Path, st: Engine, entry: Json, basename: Url -> string)
    requires st.c.allImages
    ensures ChapterStep(cfg, base, st, entry, basename).st.data != st.data ==>
              cfg.deleteIfSuccess && Fetches(entry) && UrlsOf(entry) == []
    ensures cfg.deleteIfSuccess && Fetches(entry) && UrlsOf(entry) == [] && entry in st.data ==>
              var o := ChapterStep(cfg, base, st, entry, basename);
              o.error.None? && Some(o.st.data) == Orchestrator.RemoveFirst(st.data, entry)
  {
    if Fetches(entry) {
      var b := BatchFor(cfg, base, st, entry, basename);
      FetchingStep(cfg, base, st, entry, basename);
      FailedIsLength(st.w, FolderOf(base, entry), cfg.force, None, UrlsOf(entry), basename);
      if b.r.Ok? {
        TallyFacts(cfg, st.(w := b.w), entry, b.r.value);
      }
    }
  }

  /** Corrected: download_files counts only the False answers as failed. */
  function DownloadChapterCorrected(cfg: Config, st: Engine, entry: Json, folder: Path, images: Json,
                                    basename: Url -> string): Outcome {
    match MangaDmCore.Iterated(images)
    case Err(e) => Outcome(Some(e), st)
    case Ok(urls) =>
      var b := DownloadFromCorrected(st.w, urls, 0, 0, Downloading(folder, cfg.force, None, basename));
      match b.r
      case Err(e) => Outcome(Some(e), st.(w := b.w))
      case Ok(n) => Tally(cfg, st.(w := b.w), entry, n)
  }

  /** With the correction the entry is removed exactly when none of its downloads answered
      False: a chapter whose files were all fetched or already there is removed. */
  lemma CorrectedRemovesComplete(cfg: Config, st: Engine, entry: Json, folder: Path, images: Json,
                                 basename: Url -> string)
    requires st.c.allImages && cfg.deleteIfSuccess && entry in st.data && MangaDmCore.Iterated(images).Ok?
    requires DownloadFilesSpec(st.w, folder, cfg.force, None, MangaDmCore.Iterated(images).value, basename).r.Ok?
    ensures var o := DownloadChapterCorrected(cfg, st, entry, folder, images, basename);
      var failures := Failures(Answers(st.w, MangaDmCore.Iterated(images).value, Downloading(folder, cfg.force, None, basename)));
      o.error.None?
      && (failures == 0 ==> Some(o.st.data) == Orchestrator.RemoveFirst(st.data, entry))
      && (failures != 0 ==> o.st.data == st.data)
  {
    var urls := MangaDmCore.Iterated(images).value;
    var dl := Downloading(folder, cfg.force, None, basename);
    CorrectedCounts(st.w, urls, 0, 0, 0, dl);
    var b := DownloadFromCorrected(st.w, urls, 0, 0, dl);
    TallyFacts(cfg, st.(w := b.w), entry, b.r.value);
  }

  // ---------------------------------------------------------------------------------------
  // The limit

  /** Every turn from a set flag keeps `downloaded` and the flag, and counts one downloaded
      chapter when it raised nothing. */
  ghost predicate Counted(turn: Turn) {
    forall s: Engine, e: Json ::
      s.c.allImages ==> TurnCounted(s.c, turn(s, e).st.c, turn(s, e).error.Some?)
  }

  lemma TurningCounted(cfg: Config, base: Path, basename: Url -> string)
    ensures Counted(Turning(cfg, base, basename))
  {
    forall s: Engine, e: Json | s.c.allImages {
      ChapterStepCounts(cfg, base, s, e, basename);
    }
  }

  /** `downloaded` is never incremented: the walk ends with the value it started with. */
  lemma {:induction false} WalkKeepsDownloaded(turn: Turn, limit: int, st: Engine, i: nat)
    requires Shrinks(turn) && Counted(turn) && st.c.allImages
    ensures var r := Walk(turn, limit, st, i);
      r.st.c.downloaded == st.c.downloaded && r.st.c.allImages
    decreases if i < |st.data| then |st.data| - i else 0
  {
    if i < |st.data| && !LegacyEngine.ShouldStop(limit, st.c.downloaded) {
      var o := turn(st, st.data[i]);
      if o.error.None? {
        WalkKeepsDownloaded(turn, limit, o.st, i + 1);
      }
    }
  }

  /** The limit is decided once, before the first turn: the walk either does nothing or is
      the walk without a limit. */
  lemma {:induction false} LimitDecidedOnce(turn: Turn, limit: int, st: Engine, i: nat)
    requires Shrinks(turn) && Counted(turn) && st.c.allImages
    ensures Walk(turn, limit, st, i) ==
            if LegacyEngine.ShouldStop(limit, st.c.downloaded) then Run(None, st, [])
            else Walk(turn, -1, st, i)
    decreases if i < |st.data| then |st.data| - i else 0
  {
    if i < |st.data| && !LegacyEngine.ShouldStop(limit, st.c.downloaded) {
      var o := turn(st, st.data[i]);
      if o.error.None? {
        LimitDecidedOnce(turn, limit, o.st, i + 1);
      }
    }
  }

  /** As written: from `downloaded` at 0, a positive limit is ignored and a limit of 0 or
      below (other than -1) stops the run before the first chapter. */
  lemma LimitIgnored(cfg: Config, limit: int, base: Path, st: Engine, basename: Url -> string)
    requires st.c.allImages && st.c.downloaded == 0
    ensures var turn := Turning(cfg, base, basename);
      limit > 0 ==> Walk(turn, limit, st, 0) == Walk(turn, -1, st, 0)
    ensures limit <= 0 && limit != -1 ==> Walk(Turning(cfg, base, basename), limit, st, 0) == Run(None, st, [])
  {
    TurningCounted(cfg, base, basename);
    LimitDecidedOnce(Turning(cfg, base, basename), limit, st, 0);
  }

  /** The same for the whole of process_images: the cover does not touch `downloaded`. */
  lemma ProcessImagesIgnoresLimit(cfg: Config, limit: int, st: Engine, basename: Url -> string)
    requires st.c.allImages && st.c.downloaded == 0 && limit > 0
    ensures ProcessImagesSpec(cfg, limit, None, st, basename) == ProcessImagesSpec(cfg, -1, None, st, basename)
  {
    if st.data != [] && MangaDmCore.BaseFolder(cfg.dest, st.data[0]).Ok? {
      var base := MangaDmCore.BaseFolder(cfg.dest, st.data[0]).value;
      CoverTouchesWorldOnly(base, st, basename);
      var c := CoverStep(base, st, basename);
      LimitIgnored(cfg, limit, base, c.st, basename);
    }
  }

  /** Corrected: the limit is checked against the chapters downloaded so far. */
  function WalkCorrected(turn: Turn, limit: int, st: Engine, i: nat): Run
    requires Shrinks(turn)
    decreases if i < |st.data| then |st.data| - i else 0
  {
    if i >= |st.data| || LegacyEngine.ShouldStop(limit, st.c.chaptersDownloaded) then Run(None, st, [])
    else
      var o := turn(st, st.data[i]);
      if o.error.Some? then Run(o.error, o.st, [st.data[i]])
      else
        var r := WalkCorrected(turn, limit, o.st, i + 1);
        Run(r.error, r.st, [st.data[i]] + r.visited)
  }

  /** With the correction every chapter the walk completes is counted, and a limit of 0 or
      more is never overshot. */
  lemma {:induction false} WalkCorrectedRespectsLimit(turn: Turn, limit: int, st: Engine, i: nat)
    requires Shrinks(turn) && Counted(turn) && st.c.allImages
    ensures var r := WalkCorrected(turn, limit, st, i);
      && (r.error.None? ==> r.st.c.chaptersDownloaded == st.c.chaptersDownloaded + |r.visited|)
      && (limit >= 0 && st.c.chaptersDownloaded <= limit ==> r.st.c.chaptersDownloaded <= limit)
    decreases if i < |st.data| then |st.data| - i else 0
  {
    if i < |st.data| && !LegacyEngine.ShouldStop(limit, st.c.chaptersDownloaded) {
      var o := turn(st, st.data[i]);
      if o.error.None? {
        WalkCorrectedRespectsLimit(turn, limit, o.st, i + 1);
      }
    }
  }

  // ---------------------------------------------------------------------------------------
  // The live list

  /** When a turn removes its own entry (the one at index i), the walk goes on at index i + 1
      of the shortened list, which is the old entry i + 2: the old entry i + 1 is never
      visited, and when it was the last one the run ends. */
  lemma RemovalSkipsNext(turn: Turn, limit: int, st: Engine, i: nat)
    requires Shrinks(turn)
    requires i + 1 < |st.data| && !LegacyEngine.ShouldStop(limit, st.c.downloaded)
    requires var o := turn(st, st.data[i]);
      o.error.None? && o.st.data == st.data[..i] + st.data[i + 1..]
    ensures var r := Walk(turn, limit, st, i);
      && r.visited != [] && r.visited[0] == st.data[i]
      && (i + 2 == |st.data| ==> r.visited == [st.data[i]])
      && (|r.visited| > 1 ==> r.visited[1] == st.data[i + 2])
  {
    var o := turn(st, st.data[i]);
    var r := Walk(turn, limit, o.st, i + 1);
    if r.visited != [] {
      assert i + 1 < |o.st.data| && r.visited[0] == o.st.data[i + 1];
    }
  }

  // ---------------------------------------------------------------------------------------
  // The summary

  /** One half of log_download_results' message: "<caption><n> file." for 1, "... files."
      otherwise. */
  function CountPart(caption: string, n: nat): string {
    caption + (Strings.NatToString(n) + FileWord(n))
  }

  /** Each half starts with its caption and is longer than its word. */
  lemma CountPartStarts(caption: string, n: nat)
    ensures Strings.StartsWith(CountPart(caption, n), caption)
  {
    Strings.ConcatEnds(caption, Strings.NatToString(n) + FileWord(n));
  }

  /** " file." after a count of 1, " files." after any other. */
  function FileWord(n: nat): string {
    if n != 1 then " files." else " file."
  }

  /** log_download_results: the two halves joined by a space. */
  function ResultsMessage(success: nat, failure: nat): (m: string)
    ensures Strings.StartsWith(m, "Successfully downloaded ")
    ensures Strings.EndsWith(m, " file.") <==> failure == 1
  {
    var first := CountPart("Successfully downloaded ", success);
    var tail := CountPart("Failed to download ", failure);
    CountPartStarts("Successfully downloaded ", success);
    Strings.StartsWithFirst(first, " " + tail, "Successfully downloaded ");
    SingularOnlyForOne("Failed to download ", failure);
    Strings.EndsWithLast(first + " ", tail, " file.");
    assert first + (" " + tail) == first + " " + tail;
    first + (" " + tail)
  }

  /** The singular is used exactly for a count of 1. */
  lemma SingularOnlyForOne(caption: string, n: nat)
    ensures Strings.EndsWith(CountPart(caption, n), " file.") <==> n == 1
  {
    var p := CountPart(caption, n);
    if n != 1 {
      assert p[|p| - 6..] == "files.";
    }
  }

  /** The length of the run of digits a text starts with. */
  function LeadingDigits(s: string): (n: nat)
    ensures n <= |s|
    ensures forall k :: 0 <= k < n ==> Strings.IsDigit(s[k])
    ensures n < |s| ==> !Strings.IsDigit(s[n])
  {
    if s != [] && Strings.IsDigit(s[0]) then 1 + LeadingDigits(s[1..]) else 0
  }

  /** Digits followed by a text that does not start with one: the run is exactly the digits. */
  lemma {:induction false} LeadingDigitsOf(a: string, x: string)
    requires forall k :: 0 <= k < |a| ==> Strings.IsDigit(a[k])
    requires x == [] || !Strings.IsDigit(x[0])
    ensures LeadingDigits(a + x) == |a|
    decreases |a|
  {
    if a != [] {
      assert (a + x)[0] == a[0] && (a + x)[1..] == a[1..] + x;
      LeadingDigitsOf(a[1..], x);
    } else {
      assert a + x == x;
    }
  }

  /** Two runs of digits, each followed by a text that starts with something else, split the
      same way only when they are equal. */
  lemma DigitsThenOther(a: string, x: string, b: string, y: string)
    requires Strings.IsDigits(a) && Strings.IsDigits(b)
    requires x != [] && !Strings.IsDigit(x[0]) && y != [] && !Strings.IsDigit(y[0])
    requires a + x == b + y
    ensures a == b && x == y
  {
    LeadingDigitsOf(a, x);
    LeadingDigitsOf(b, y);
    assert a == (a + x)[..|a|] && b == (b + y)[..|b|];
    assert x == (a + x)[|a|..] && y == (b + y)[|b|..];
  }

  /** A half of the message determines its count, and what follows it. */
  lemma CountPartInjective(caption: string, n: nat, m: nat, x: string, y: string)
    requires CountPart(caption, n) + x == CountPart(caption, m) + y
    ensures n == m && x == y
  {
    var tn, tm := FileWord(n) + x, FileWord(m) + y;
    assert tn[0] == ' ' && tm[0] == ' ';
    assert CountPart(caption, n) + x == caption + (Strings.NatToString(n) + tn);
    assert CountPart(caption, m) + y == caption + (Strings.NatToString(m) + tm);
    Wording.SameFrame(caption, Strings.NatToString(n) + tn, Strings.NatToString(m) + tm, "");
    DigitsThenOther(Strings.NatToString(n), tn, Strings.NatToString(m), tm);
    Strings.NatToStringInjective(n, m);
    assert x == tn[|tn| - |x|..] && y == tm[|tm| - |y|..];
  }

  /** Two halves joined by a space determine both counts. */
  lemma HalvesInjective(c1: string, c2: string, s: nat, f: nat, s': nat, f': nat)
    requires CountPart(c1, s) + (" " + CountPart(c2, f)) == CountPart(c1, s') + (" " + CountPart(c2, f'))
    ensures s == s' && f == f'
  {
    var p, p' := CountPart(c2, f), CountPart(c2, f');
    CountPartInjective(c1, s, s', " " + p, " " + p');
    assert p == (" " + p)[1..] && p' == (" " + p')[1..];
    assert p + "" == p && p' + "" == p';
    CountPartInjective(c2, f, f', "", "");
  }

  /** The message reports both counts: different counts never log the same message. */
  lemma ResultsMessageInjective(s: nat, f: nat, s': nat, f': nat)
    requires ResultsMessage(s, f) == ResultsMessage(s', f')
    ensures s == s' && f == f'
  {
    HalvesInjective("Successfully downloaded ", "Failed to download ", s, f, s', f');
  }

  // ---------------------------------------------------------------------------------------
  // The object

  class MangaDM {
    var data: seq<Json>
    /** The lists written back to the JSON file, in order. */
    var saves: seq<seq<Json>>
    var downloaded: nat
    var allImagesDownloaded: bool
    var successCount: nat
    var failureCount: nat
    var chaptersDownloaded: nat
    const jsonFile: string
    const config: Config
    const chaptersLimit: int
    const unindexable: Option<Failure>

    function State(w: World): Engine
      reads this
    {
      Engine(Counters(downloaded, allImagesDownloaded, successCount, failureCount, chaptersDownloaded),
             w, data, saves)
    }

    /** The constructor on what the file held: the data, every counter at 0 and the flag set.
        The signal handlers are not modelled. */
    constructor (jsonFile: string, read: ReadOutcome, dest: Path, chaptersLimit: int, force: bool,
                 deleteIfSuccess: bool)
      ensures this.jsonFile == jsonFile && this.chaptersLimit == chaptersLimit
      ensures config == Config(dest, force, deleteIfSuccess)
      ensures data == Open(read).entries && unindexable == Open(read).unindexable && saves == []
      ensures downloaded == 0 && allImagesDownloaded
      ensures successCount == 0 && failureCount == 0 && chaptersDownloaded == 0
    {
      var l := Open(read);
      this.jsonFile := jsonFile;
      data := l.entries;
      unindexable := l.unindexable;
      saves := [];
      config := Config(dest, force, deleteIfSuccess);
      this.chaptersLimit := chaptersLimit;
      downloaded := 0;
      allImagesDownloaded := true;
      successCount, failureCount, chaptersDownloaded := 0, 0, 0;
    }

    /** The limit check at the head of the loop. */
    predicate LimitReached()
      reads this
    {
      chaptersLimit != -1 && downloaded >= chaptersLimit
    }

    /** init_manga_directory: it changes the outside world only. */
    method InitMangaDirectory(base: Path, w: World, basename: Url -> string) returns (err: Option<Failure>, w': World)
      ensures Outcome(err, State(w')) == CoverStep(base, State(w), basename)
    {
      if data == [] {
        return Some(IndexError("list index out of range")), w;
      }
      if !data[0].JObj? {
        return Some(AttributeError("object has no attribute 'get'")), w;
      }
      var cover := GetOr(data[0].fields, "cover", JNull);
      if !Truthy(cover) {
        return None, w;
      }
      if MangaDmDownloader.JoinName(base, MangaDmCore.CoverName) in w.fs {
        return None, w;
      }
      var downloader := new Downloader(base, false, Some(MangaDmCore.CoverName));
      var ok;
      ok, w' := downloader.DownloadFile(cover, w, basename);
      err := if ok.Err? then Some(ok.error) else None;
    }

    /** One turn of process_images' loop. */
    method ProcessEntry(base: Path, entry: Json, w: World, basename: Url -> string)
      returns (err: Option<Failure>, w': World)
      modifies this
      ensures Outcome(err, State(w')) == ChapterStep(config, base, old(State(w)), entry, basename)
    {
      var read := ReadEntry(entry);
      if read.Err? {
        return Some(read.error), w;
      }
      var folder := MangaDmDownloader.JoinName(base, read.value.title);
      var urls := MangaDmCore.Iterated(read.value.images);
      if urls.Err? {
        return Some(urls.error), w;
      }
      var downloader := new Downloader(folder, config.force, None);
      var counts;
      counts, w' := downloader.DownloadFiles(urls.value, w, basename);
      if counts.Err? {
        return Some(counts.error), w';
      }
      err := TallyChapter(entry, counts.value, w');
    }

    /** The bookkeeping after download_files. */
    method TallyChapter(entry: Json, n: Counts, ghost w: World) returns (err: Option<Failure>)
      modifies this
      ensures Outcome(err, State(w)) == Tally(config, old(State(w)), entry, n)
    {
      successCount := successCount + n.success;
      failureCount := failureCount + n.failed;
      if n.failed != 0 {
        allImagesDownloaded := false;
      }
      assert State(w) == old(State(w)).(c := Added(old(State(w)).c, n));
      err := FinishChapter(entry, w);
    }

    /** The removal, the flag set again and the chapter counted. */
    method FinishChapter(entry: Json, ghost w: World) returns (err: Option<Failure>)
      modifies this
      ensures Outcome(err, State(w)) == Finish(config, old(State(w)), entry)
    {
      err := None;
      if allImagesDownloaded && config.deleteIfSuccess {
        err := RemoveEntry(entry, w);
        if err.Some? {
          return;
        }
      }
      allImagesDownloaded := true;
      chaptersDownloaded := chaptersDownloaded + 1;
    }

    /** `self.data.remove(entry)` and the save that follows it. */
    method RemoveEntry(entry: Json, ghost w: World) returns (err: Option<Failure>)
      modifies this
      ensures Outcome(err, State(w)) == Removed(old(State(w)), entry)
    {
      var rest := Orchestrator.RemoveFirst(data, entry);
      if rest.None? {
        return Some(ValueError("list.remove(x): x not in list"));
      }
      err := None;
      data := rest.value;
      saves := saves + [data];
    }

    /** Walk's verdict from index i on, from the state the turn leaves. */
    method ProcessNext(base: Path, i: nat, w: World, basename: Url -> string)
      returns (err: Option<Failure>, w': World)
      requires i < |data| && !LimitReached()
      modifies this
      ensures |data| <= old(|data|) <= |data| + 1
      ensures var turn := Turning(config, base, basename);
        var r := Walk(turn, chaptersLimit, old(State(w)), i);
        if err.Some? then err == r.error && State(w') == r.st
        else (Walk(turn, chaptersLimit, State(w'), i + 1).error == r.error
              && Walk(turn, chaptersLimit, State(w'), i + 1).st == r.st)
    {
      ghost var st := State(w);
      ChapterStepData(config, base, st, data[i], basename);
      err, w' := ProcessEntry(base, data[i], w, basename);
    }

    /** process_images' loop: the live list by index until the limit check stops it. */
    method WalkEntries(base: Path, w: World, basename: Url -> string) returns (err: Option<Failure>, w': World)
      modifies this
      ensures var r := Walk(Turning(config, base, basename), chaptersLimit, old(State(w)), 0);
        err == r.error && State(w') == r.st
    {
      w' := w;
      ghost var turn := Turning(config, base, basename);
      ghost var whole := Walk(turn, chaptersLimit, State(w), 0);
      var i := 0;
      while i < |data|
        invariant i <= |data| + 1
        invariant Walk(turn, chaptersLimit, State(w'), i).error == whole.error
        invariant Walk(turn, chaptersLimit, State(w'), i).st == whole.st
        decreases |data| + 1 - i
      {
        if LimitReached() {
          break;
        }
        err, w' := ProcessNext(base, i, w', basename);
        if err.Some? {
          return;
        }
        i := i + 1;
      }
      err := None;
    }

    /** process_images: nothing for falsy data; else the base folder, the cover and the
        walk, and the message logged once the walk ended without an exception. */
    method ProcessImages(w: World, basename: Url -> string) returns (err: Option<Failure>, w': World, message: Option<string>)
      modifies this
      ensures var r := ProcessImagesSpec(config, chaptersLimit, unindexable, old(State(w)), basename);
        err == r.error && State(w') == r.st
      ensures message.Some? <==> err.None? && unindexable.None? && old(data) != []
      ensures message.Some? ==> message.value == ResultsMessage(successCount, failureCount)
    {
      if unindexable.Some? {
        return unindexable, w, None;
      }
      if data == [] {
        return None, w, None;
      }
      var base := MangaDmCore.BaseFolder(config.dest, data[0]);
      if base.Err? {
        return Some(base.error), w, None;
      }
      err, w' := InitMangaDirectory(base.value, w, basename);
      if err.Some? {
        return err, w', None;
      }
      err, w' := WalkEntries(base.value, w', basename);
      if err.Some? {
        return err, w', None;
      }
      message := Some(LogDownloadResults());
    }

    /** log_download_results. */
    function LogDownloadResults(): string
      reads this
    {
      ResultsMessage(successCount, failureCount)
    }
  }
}
