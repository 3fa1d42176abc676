/** The current engine's chapter orchestrator (MangaDM): it opens and validates the manga
    document, works out the base folder, and walks the chapters in document order, skipping
    the ones already on disk, handing the others to the slide loader, and on success
    renaming, archiving and optionally removing the chapter from the document. */
module Orchestrator {
  import opened Wrappers
  import opened Strings
  import opened Json
  import opened FileSystem
  import opened Http
  import opened DownloadTypes
  import opened PathNames
  import opened Sanitize
  import opened Loader

  // ---------------------------------------------------------------------------------------
  // The document: file name, loading, shape

  /** The json_file setter's format check: the name must end in ".json", in any letter case. */
  function CheckJsonName(name: string): (r: Result<string>)
    ensures r.Ok? <==> EndsWith(Lower(name), ".json")
    ensures r.Ok? ==> r.value == name
    ensures r.Err? ==> r.error.ValueError?
  {
    if EndsWith(Lower(name), ".json") then Ok(name)
    else Err(ValueError("Unsupported file format. Please use JSON format."))
  }

  /** The check ignores letter case: a name and its lower-cased form are accepted alike. */
  lemma CheckJsonNameIgnoresCase(name: string)
    ensures CheckJsonName(name).Ok? <==> CheckJsonName(Lower(name)).Ok?
  {
    LowerIdempotent(name);
  }

  /** An upper-case extension is accepted. */
  lemma UpperCaseJsonAccepted(stem: string)
    ensures CheckJsonName(stem + ".JSON").Ok?
  {
    var s := stem + ".JSON";
    var l := Lower(s);
    assert l[|l| - 5..] == ".json" by {
      assert forall i :: 0 <= i < 5 ==> l[|l| - 5 + i] == LowerChar(".JSON"[i]);
    }
  }

  /** What _load_data falls back to when the file cannot be read or decoded. */
  const DefaultDocument: Json := JObj([("details", JObj([])), ("chapters", JArr([]))])

  /** _load_data: the parsed document, or the empty default when opening or reading raises
      an IOError or the text is not JSON. Only those two are caught, so bytes that are not
      UTF-8 raise UnicodeDecodeError out of the json_file setter. */
  function LoadData(read: ReadOutcome): (r: Result<Json>)
    ensures r.Err? <==> read.NotUtf8?
    ensures r.Err? ==> r.error == UnicodeDecodeError && r.error.ValueError?
    ensures read.Parsed? ==> r == Ok(read.value)
    ensures read.Missing? || read.Undecodable? ==> r == Ok(DefaultDocument)
  {
    match read
    case Parsed(v) => Ok(v)
    case NotUtf8 => Err(UnicodeDecodeError)
    case _ => Ok(DefaultDocument)
  }

  /** The data setter's pattern `{"details": dict(), "chapters": list()}`: a mapping whose
      details is a dict and whose chapters is a list (other keys are allowed). */
  predicate WellShaped(j: Json) {
    && j.JObj?
    && Get(j.fields, "details").Some? && Get(j.fields, "details").value.JObj?
    && Get(j.fields, "chapters").Some? && Get(j.fields, "chapters").value.JArr?
  }

  /** The data setter: ValueError unless the document has the expected shape. */
  function CheckData(j: Json): (r: Result<Json>)
    ensures r.Ok? <==> WellShaped(j)
    ensures r.Ok? ==> r.value == j
    ensures r.Err? ==> r.error.ValueError?
  {
    if WellShaped(j) then Ok(j)
    else Err(ValueError("Invalid JSON structure. Expected format: { 'details': dict, 'chapters': list }"))
  }

  /** The data getter: ValueError for an empty (falsy) document. */
  function DataGetter(j: Json): Result<Json> {
    if !Truthy(j) then Err(ValueError("No manga data available")) else Ok(j)
  }

  /** A document the setter accepted never makes the getter raise. */
  lemma AcceptedDataReadable(j: Json)
    requires CheckData(j).Ok?
    ensures DataGetter(j) == Ok(j)
  {
  }

  /** The document loaded when the file is missing, unreadable or not JSON is accepted and
      has no chapters. */
  lemma DefaultDocumentAccepted(read: ReadOutcome)
    requires read.Missing? || read.Undecodable?
    ensures LoadData(read).Ok?
    ensures CheckData(LoadData(read).value).Ok? && Chapters(LoadData(read).value) == []
  {
    DefaultDocumentShape();
    assert LoadData(read) == Ok(DefaultDocument);
  }

  /** The fallback document has an empty details dict and an empty chapters list. */
  lemma DefaultDocumentShape()
    ensures WellShaped(DefaultDocument) && Chapters(DefaultDocument) == []
  {
    var fields := DefaultDocument.fields;
    assert Get(fields, "details") == Some(JObj([]));
    assert fields[1..] == [("chapters", JArr([]))];
    assert Get(fields, "chapters") == Some(JArr([]));
  }

  /** The chapters property: data.get("chapters", []). */
  function Chapters(j: Json): seq<Json> {
    if !j.JObj? then []
    else match Get(j.fields, "chapters")
      case Some(JArr(items)) => items
      case _ => []
  }

  /** The details of the document: data.get("details", {}). */
  function Details(j: Json): seq<(string, Json)> {
    if !j.JObj? then []
    else match Get(j.fields, "details")
      case Some(JObj(fields)) => fields
      case _ => []
  }

  /** The dest_path setter: `dest/"<sanitised manganame> (<source>)"`. A manganame that is not
      a string has no translate method. */
  function BaseFolder(dest: Path, details: seq<(string, Json)>): (r: Result<Path>)
    ensures r.Ok? <==> GetOr(details, "manganame", JStr("UnknownManga")).JStr?
    ensures r.Ok? ==> |dest| <= |r.value| && r.value[..|dest|] == dest
    ensures r.Err? ==> r.error.AttributeError?
  {
    var manga := GetOr(details, "manganame", JStr("UnknownManga"));
    if !manga.JStr? then Err(AttributeError("object has no attribute 'translate'"))
    else
      var source := GetOr(details, "source", JStr("unknown"));
      var folder := dest + Components(Translate(manga.s) + " (" + Show(source) + ")");
      assert folder[..|dest|] == dest;
      Ok(folder)
  }

  /** What the constructor settles before any chapter is processed. */
  datatype Settings = Settings(jsonFile: string, data: Json, base: Path)

  /** The settings the constructor reached, or the exception it raised, and the disk after it. */
  datatype Opened = Opened(result: Result<Settings>, fs: FS)

  /** The constructor's chain of setters: the file name check, loading, the shape check and
      the base folder, each of which may raise. */
  function Setters(name: string, read: ReadOutcome, dest: Path): (r: Result<Settings>)
    ensures r.Ok? ==> CheckJsonName(name).Ok? && WellShaped(r.value.data) && r.value.jsonFile == name
    ensures r.Ok? ==> |dest| <= |r.value.base| && r.value.base[..|dest|] == dest
    ensures CheckJsonName(name).Err? ==> r == Err(CheckJsonName(name).error)
    ensures CheckJsonName(name).Ok? && read.NotUtf8? ==> r == Err(UnicodeDecodeError)
    ensures read.Parsed? && CheckData(read.value).Err? ==> r.Err? && r.error.ValueError?
  {
    match CheckJsonName(name)
    case Err(e) => Err(e)
    case Ok(_) =>
      match LoadData(read)
      case Err(e) => Err(e)
      case Ok(data) =>
        match CheckData(data)
        case Err(e) => Err(e)
        case Ok(_) =>
          match BaseFolder(dest, Details(data))
          case Err(e) => Err(e)
          case Ok(base) => Ok(Settings(name, data, base))
  }

  /** The setters, then base_folder.mkdir(parents=True, exist_ok=True): a setter that raises
      leaves the disk as it was, and an accepted run has its base folder on disk (unless a
      file holds that name). */
  function Open(name: string, read: ReadOutcome, dest: Path, fs: FS): (r: Opened)
    ensures r.result == Setters(name, read, dest)
    ensures r.result.Err? ==> r.fs == fs
    ensures r.result.Ok? ==> r.fs == MkDirs(fs, r.result.value.base)
    ensures r.result.Ok? && !IsFile(fs, r.result.value.base) ==> IsDir(r.fs, r.result.value.base)
  {
    match Setters(name, read, dest)
    case Err(e) => Opened(Err(e), fs)
    case Ok(s) => Opened(Ok(s), MkDirs(fs, s.base))
  }

  /** A valid document under a ".json" name, whose manganame is a string, opens: the object
      holds that document and its base folder exists. */
  lemma OpenSucceeds(name: string, doc: Json, dest: Path, fs: FS)
    requires CheckJsonName(name).Ok? && WellShaped(doc)
    requires GetOr(Details(doc), "manganame", JStr("UnknownManga")).JStr?
    ensures var o := Open(name, Parsed(doc), dest, fs);
      o.result.Ok? && o.result.value.data == doc
      && o.result.value.base == BaseFolder(dest, Details(doc)).value
      && o.fs == MkDirs(fs, o.result.value.base)
  {
    assert LoadData(Parsed(doc)) == Ok(doc);
  }

  /** A ".json" file whose bytes are not UTF-8 raises UnicodeDecodeError from the setters,
      before the base folder is made, and the construction as written raises the same. */
  lemma NotUtf8Raises(name: string, dest: Path, fs: FS)
    requires CheckJsonName(name).Ok?
    ensures Open(name, NotUtf8, dest, fs) == Opened(Err(UnicodeDecodeError), fs)
    ensures ConstructAsWritten(name, NotUtf8, dest, fs) == Opened(Err(UnicodeDecodeError), fs)
  {
    assert Setters(name, NotUtf8, dest) == Err(UnicodeDecodeError);
  }

  /** As written, the constructor goes on to `SlideLoader(console=..., save_dir=...)`, and
      SlideLoader.__init__ has no console parameter: every construction raises (TypeError when
      the setters succeeded), and the base folder it created stays on disk. */
  function ConstructAsWritten(name: string, read: ReadOutcome, dest: Path, fs: FS): (r: Opened)
    ensures r.result.Err?
    ensures Open(name, read, dest, fs).result.Ok? ==>
      r.result.error.TypeError? && r.fs == MkDirs(fs, Open(name, read, dest, fs).result.value.base)
    ensures Open(name, read, dest, fs).result.Err? ==> r == Open(name, read, dest, fs)
  {
    var o := Open(name, read, dest, fs);
    if o.result.Err? then o
    else Opened(Err(TypeError("SlideLoader.__init__() got an unexpected keyword argument 'console'")), o.fs)
  }

  // ---------------------------------------------------------------------------------------
  // One chapter entry

  /** A chapter entry as _process_chapter reads it: its sanitised title and its images value,
      which nothing checks before the loader goes over it. */
  datatype Entry = Entry(title: string, images: Json)

  /** A chapter as the loader gets it: its sanitised title and its image URLs. */
  datatype Chapter = Chapter(title: string, images: seq<Url>)

  predicate AllStrings(items: seq<Json>) {
    forall i :: 0 <= i < |items| ==> items[i].JStr?
  }

  /** chapter.get("title", "UnknownChapter").translate(...), then chapter.get("images", []). */
  function ReadChapter(j: Json): (r: Result<Entry>)
    ensures r.Ok? <==> j.JObj? && GetOr(j.fields, "title", JStr("UnknownChapter")).JStr?
    ensures r.Ok? ==> Clean(r.value.title)
    ensures r.Ok? ==> r.value.title == Translate(GetOr(j.fields, "title", JStr("UnknownChapter")).s)
    ensures r.Ok? ==> r.value.images == GetOr(j.fields, "images", JArr([]))
    ensures r.Err? ==> r.error.AttributeError?
  {
    if !j.JObj? then Err(AttributeError("object has no attribute 'get'"))
    else
      var title := GetOr(j.fields, "title", JStr("UnknownChapter"));
      if !title.JStr? then Err(AttributeError("object has no attribute 'translate'"))
      else
        TranslateClean(title.s);
        Ok(Entry(Translate(title.s), GetOr(j.fields, "images", JArr([]))))
  }

  /** `len(images)` for a value that has a length, and 0 for a number or a boolean, which has
      none: _is_downloaded_chapter never gets as far as the count once the temp folder exists
      (CountNotConsulted). */
  function ImageCount(images: Json): nat {
    match images
    case JStr(s) => |s|
    case JArr(items) => |items|
    case JObj(fields) => |fields|
    case _ => 0
  }

  /** The URLs download_all goes over: a list's items, each of which _make_name hands to Path
      (TypeError for one that is not a string), a string's characters, or a dict's keys; `len`
      of a number or a boolean raises TypeError before any of them. */
  function LoaderUrls(images: Json): (r: Result<seq<Url>>)
    ensures r.Ok? <==> (images.JArr? && AllStrings(images.items)) || images.JStr? || images.JObj?
    ensures r.Err? ==> r.error.TypeError?
    ensures r.Ok? ==> |r.value| == ImageCount(images)
    ensures r.Ok? && images.JArr? ==> forall i :: 0 <= i < |images.items| ==> images.items[i] == JStr(r.value[i])
    ensures images.JStr? ==> r.Ok? && forall i :: 0 <= i < |images.s| ==> r.value[i] == [images.s[i]]
    ensures images.JObj? ==> r.Ok? && forall i :: 0 <= i < |images.fields| ==> r.value[i] == images.fields[i].0
  {
    match images
    case JArr(items) =>
      if AllStrings(items) then Ok(seq(|items|, i requires 0 <= i < |items| => items[i].s))
      else Err(TypeError("expected str, bytes or os.PathLike object"))
    case JStr(s) => Ok(seq(|s|, i requires 0 <= i < |s| => [s[i]]))
    case JObj(fields) => Ok(seq(|fields|, i requires 0 <= i < |fields| => fields[i].0))
    case _ => Err(TypeError("object has no len()"))
  }

  /** `base_folder / title` for a sanitised title (which holds no '/'): an empty or "." title
      names the base folder itself. */
  function ChapterFolder(base: Path, title: string): Path {
    if title == "" || title == "." then base else base + [title]
  }

  /** create_temp_folder's path: `base_folder / f"{title}_tmp"`. */
  function TempFolder(base: Path, title: string): Path {
    base + [title + TempExt]
  }

  /** create_temp_folder: mkdir(exist_ok=True), which raises when a file is in the way or the
      parent directory is missing. */
  function CreateTempFolder(fs: FS, temp: Path): (r: Result<FS>)
    ensures r.Ok? <==> IsDir(fs, temp) || (temp !in fs && IsDir(fs, Parent(temp)))
    ensures r.Ok? ==> IsDir(r.value, temp) && r.value.Keys == fs.Keys + {temp}
    ensures r.Ok? ==> forall q :: q in fs ==> r.value[q] == fs[q]
    ensures r.Err? ==> r.error.OSError?
  {
    if IsDir(fs, temp) then Ok(fs)
    else if temp in fs then Err(OSError("File exists"))
    else if !IsDir(fs, Parent(temp)) then Err(OSError("No such file or directory"))
    else Ok(fs[temp := Dir])
  }

  /** Inside an existing base folder the temp folder can always be made unless a file holds
      its name. */
  lemma TempFolderCreatable(fs: FS, base: Path, title: string)
    requires IsDir(fs, base) && !IsFile(fs, TempFolder(base, title))
    ensures CreateTempFolder(fs, TempFolder(base, title)).Ok?
  {
    assert Parent(TempFolder(base, title)) == base;
  }

  // ---------------------------------------------------------------------------------------
  // The completion detector

  /** `folder.with_name(f"{folder.name}.{ext}")`. */
  function ArchivePath(folder: Path, f: FormatType): Path {
    WithName(folder, Last(folder) + "." + f.Value())
  }

  /** An archive of the chapter in one of the supported formats exists. */
  predicate ArchiveExists(fs: FS, folder: Path) {
    IsFile(fs, ArchivePath(folder, Cbz)) || IsFile(fs, ArchivePath(folder, Epub))
  }

  /** The folder holds an entry whose name contains the loader's temp extension. */
  predicate HasTempEntry(fs: FS, folder: Path) {
    exists c :: c in Children(fs, folder) && Contains(Last(c), TempExt)
  }

  /** _is_downloaded_chapter: an archive counts as done; otherwise a temp folder means
      unfinished, and a plain folder is done when it holds as many entries as there are images
      and no temp-named one. */
  function IsDownloadedChapter(fs: FS, folder: Path, temp: Path, imageCount: nat): (r: bool)
    ensures ArchiveExists(fs, folder) ==> r
    ensures IsDir(fs, temp) ==> (r <==> ArchiveExists(fs, folder))
    ensures !IsDir(fs, folder) ==> (r <==> ArchiveExists(fs, folder))
    ensures HasTempEntry(fs, folder) ==> (r <==> ArchiveExists(fs, folder))
  {
    if ArchiveExists(fs, folder) then true
    else if IsDir(fs, temp) then false
    else if !IsDir(fs, folder) then false
    else if HasTempEntry(fs, folder) then false
    else imageCount == |Children(fs, folder)|
  }

  /** The one way to count as done without an archive: a complete folder, no temp folder. */
  lemma CompleteFolderDetected(fs: FS, folder: Path, temp: Path, imageCount: nat)
    requires !IsDir(fs, temp) && IsDir(fs, folder) && !HasTempEntry(fs, folder)
    ensures IsDownloadedChapter(fs, folder, temp, imageCount) <==>
      ArchiveExists(fs, folder) || imageCount == |Children(fs, folder)|
  {
  }

  /** The chapter's archive paths and its temp folder are different paths. */
  lemma ArchiveIsNotTemp(base: Path, title: string, f: FormatType)
    ensures ArchivePath(ChapterFolder(base, title), f) != TempFolder(base, title)
  {
    var a := ArchivePath(ChapterFolder(base, title), f);
    var t := TempFolder(base, title);
    if title == "" || title == "." {
      if base == [] {
        assert |a| == 1 && |t| == 1;
        assert a[0][|a[0]| - 1] != t[0][|t[0]| - 1];
      } else {
        assert |a| == |base| && |t| == |base| + 1;
      }
    } else {
      assert |a| == |t|;
      assert a[|a| - 1][|a[|a| - 1]| - 1] != t[|t| - 1][|t[|t| - 1]| - 1];
    }
  }

  // ---------------------------------------------------------------------------------------
  // Metadata removal

  /** list.index(x): the position of the first element equal to x. Equality is Dafny's
      structural one, so object field order counts and a boolean never equals an integer. */
  function IndexOf<T(==)>(s: seq<T>, x: T): (i: nat)
    requires x in s
    ensures i < |s| && s[i] == x && x !in s[..i]
  {
    if s[0] == x then 0
    else
      var i := IndexOf(s[1..], x);
      assert s[..i + 1] == [s[0]] + s[1..][..i];
      i + 1
  }

  /** list.remove(x): drop the first element equal to x; None (ValueError) when there is none. */
  function RemoveFirst<T(==)>(s: seq<T>, x: T): (r: Option<seq<T>>)
    ensures r.None? <==> x !in s
    ensures r.Some? ==> |r.value| + 1 == |s|
  {
    if x !in s then None
    else
      var i := IndexOf(s, x);
      Some(s[..i] + s[i + 1..])
  }

  /** Removing one occurrence takes exactly that element out of the multiset. */
  lemma RemoveFirstMultiset<T>(s: seq<T>, x: T)
    requires RemoveFirst(s, x).Some?
    ensures multiset(RemoveFirst(s, x).value) + multiset{x} == multiset(s)
  {
    var i := IndexOf(s, x);
    assert s == s[..i] + [x] + s[i + 1..];
  }

  /** The elements before the removed one are kept in place and the later ones move up by one. */
  lemma RemoveFirstPositions<T>(s: seq<T>, x: T)
    requires RemoveFirst(s, x).Some?
    ensures var r := RemoveFirst(s, x).value; var i := IndexOf(s, x);
      (forall k :: 0 <= k < i ==> r[k] == s[k]) && (forall k :: i <= k < |r| ==> r[k] == s[k + 1])
  {
  }

  /** d[key] = v on a dict whose entry for key exists: that entry's value is replaced in place. */
  function SetField(fields: seq<(string, Json)>, key: string, v: Json): (r: seq<(string, Json)>)
    ensures |r| == |fields|
    ensures forall i :: 0 <= i < |r| ==> r[i].0 == fields[i].0
    ensures Get(fields, key).Some? ==> Get(r, key) == Some(v)
    ensures forall k :: k != key ==> Get(r, k) == Get(fields, k)
  {
    if fields == [] then []
    else if fields[0].0 == key then [(key, v)] + fields[1..]
    else
      var rest := SetField(fields[1..], key, v);
      assert ([fields[0]] + rest)[1..] == rest;
      [fields[0]] + rest
  }

  /** `data["chapters"].remove(chapter)` on the document; None when the entry is not there. */
  function RemoveFromData(data: Json, chapter: Json): (r: Option<Json>)
    ensures r.Some? <==> data.JObj? && chapter in Chapters(data)
  {
    if !data.JObj? then None
    else match Get(data.fields, "chapters")
      case Some(JArr(items)) =>
        (match RemoveFirst(items, chapter)
         case None => None
         case Some(rest) => Some(JObj(SetField(data.fields, "chapters", JArr(rest)))))
      case _ => None
  }

  /** Removal keeps the document's shape and its details, and takes one entry out of the list. */
  lemma RemoveFromDataShape(data: Json, chapter: Json)
    requires WellShaped(data) && RemoveFromData(data, chapter).Some?
    ensures var d := RemoveFromData(data, chapter).value;
      WellShaped(d) && Details(d) == Details(data)
      && Some(Chapters(d)) == RemoveFirst(Chapters(data), chapter)
  {
    var rest := RemoveFirst(Get(data.fields, "chapters").value.items, chapter).value;
    var f := SetField(data.fields, "chapters", JArr(rest));
    assert RemoveFromData(data, chapter) == Some(JObj(f));
    assert Get(f, "details") == Get(data.fields, "details");
    assert Get(f, "chapters") == Some(JArr(rest));
  }

  // ---------------------------------------------------------------------------------------
  // The limit

  /** _should_stop_processing: a positive limit reached by the FAILED plus SUCCESS chapter results. */
  predicate ShouldStop(limit: int, rs: seq<DownloadResult>) {
    limit > 0 && Count(rs, FAILED) + Count(rs, SUCCESS) >= limit
  }

  /** The chapter results the limit counts. */
  function Counted(rs: seq<DownloadResult>): nat {
    Count(rs, FAILED) + Count(rs, SUCCESS)
  }

  /** A limit of 0 or below never stops the run. */
  lemma NonPositiveLimitNeverStops(limit: int, rs: seq<DownloadResult>)
    requires limit <= 0
    ensures !ShouldStop(limit, rs)
  {
  }

  /** A SKIPPED (or REPLACED) result does not bring the limit closer. */
  lemma SkippedNotCounted(limit: int, rs: seq<DownloadResult>, r: DownloadResult)
    requires r.status == SKIPPED || r.status == REPLACED
    ensures Counted(rs + [r]) == Counted(rs)
    ensures ShouldStop(limit, rs + [r]) == ShouldStop(limit, rs)
  {
    assert (rs + [r])[..|rs + [r]| - 1] == rs;
  }

  // ---------------------------------------------------------------------------------------
  // The run as a function of the state

  /** Everything a chapter can change: the orchestrator's results, the loader's results,
      directory and URLs, the disk, the document, the documents saved to its file, and whether
      the loader's cached spinner task has been removed. */
  datatype RunState = RunState(
    results: seq<DownloadResult>,
    loaderResults: seq<DownloadResult>,
    loaderDir: Path,
    loaderUrls: seq<Url>,
    fs: FS,
    data: Json,
    saves: seq<Json>,
    spinnerGone: bool)

  /** The state when a chapter or the run ended, and the exception that ended it, if any. */
  datatype RunOutcome = RunOutcome(error: Option<Failure>, state: RunState)

  /** The constructor's settings the chapters use. */
  datatype Config = Config(base: Path, limit: int, deleteOnSuccess: bool, format: FormatType, placeholder: seq<Byte>)

  /** The archiver: packs the final folder into its archive; its internals are not modelled. */
  type Archiver = (FS, Path, FormatType) -> FS

  /** The loader pointed at the temp folder, given the chapter's images and run to the end:
      its new results come after those it already held. */
  function Loaded(cfg: Config, st: RunState, temp: Path, urls: seq<Url>, fs: FS, net: Request -> Reply): RunState {
    var run := Batch(cfg.placeholder, temp, urls, MkDirs(fs, temp), net);
    st.(loaderResults := st.loaderResults + run.results, loaderDir := temp, loaderUrls := urls, fs := run.fs)
  }

  /** `_remove_chapter` followed by the save of the document. */
  function Dropped(st: RunState, chapter: Json): RunState {
    match RemoveFromData(st.data, chapter)
    case None => st
    case Some(d) => st.(data := d, saves := st.saves + [d])
  }

  /** A present entry leaves the document, which keeps its shape and is saved. */
  lemma DroppedRemoves(st: RunState, chapter: Json)
    requires WellShaped(st.data) && RemoveFromData(st.data, chapter).Some?
    ensures var d := RemoveFromData(st.data, chapter).value;
      Dropped(st, chapter) == st.(data := d, saves := st.saves + [d]) && WellShaped(d)
  {
    RemoveFromDataShape(st.data, chapter);
  }

  /** The bookkeeping after the loader ran: SUCCESS (with the loader's directory) when its
      results are all resolved, then the guarded rename, the archive and the removal; FAILED
      otherwise, with nothing renamed. */
  function Settle(cfg: Config, st: RunState, chapter: Json, temp: Path, final: Path, archive: Archiver): RunState {
    if AllSuccess(st.loaderResults) then
      var s1 := st.(loaderResults := [], results := st.results + [DownloadResult(SUCCESS, Some(temp))]);
      var renamed := RenameIfFree(st.fs, temp, final);
      if !renamed.0 then s1
      else
        var s2 := s1.(fs := archive(renamed.1, final, cfg.format));
        if cfg.deleteOnSuccess then Dropped(s2, chapter) else s2
    else st.(results := st.results + [DownloadResult(FAILED, Some(temp))])
  }

  /** _process_chapter as a function of the state. */
  function ChapterStep(cfg: Config, st: RunState, chapter: Json, net: Request -> Reply, archive: Archiver): (r: RunOutcome)
    ensures ReadChapter(chapter).Err? ==> r == RunOutcome(Some(ReadChapter(chapter).error), st)
    ensures ReadChapter(chapter).Ok? && !Truthy(ReadChapter(chapter).value.images) ==> r == RunOutcome(None, st)
  {
    match ReadChapter(chapter)
    case Err(e) => RunOutcome(Some(e), st)
    case Ok(ch) =>
      if !Truthy(ch.images) then RunOutcome(None, st)
      else FolderStep(cfg, st, chapter, ch, net, archive)
  }

  /** The rest of _process_chapter for an entry with images: the temp folder, the completion
      check, then the loader. An images value the loader cannot go over raises only inside
      loader.all(), after the temp folder was made and the loader pointed at it. */
  function FolderStep(cfg: Config, st: RunState, chapter: Json, ch: Entry, net: Request -> Reply, archive: Archiver): RunOutcome {
    var final := ChapterFolder(cfg.base, ch.title);
    var temp := TempFolder(cfg.base, ch.title);
    match CreateTempFolder(st.fs, temp)
    case Err(e) => RunOutcome(Some(e), st)
    case Ok(fs1) => CreatedStep(cfg, st, chapter, ch, final, temp, fs1, net, archive)
  }

  /** FolderStep once the temp folder exists on the disk fs1: SKIPPED when already downloaded,
      the loader otherwise. */
  function CreatedStep(cfg: Config, st: RunState, chapter: Json, ch: Entry, final: Path, temp: Path, fs1: FS,
                       net: Request -> Reply, archive: Archiver): RunOutcome {
    if IsDownloadedChapter(fs1, final, temp, ImageCount(ch.images)) then
      RunOutcome(None, st.(results := st.results + [DownloadResult(SKIPPED, Some(final))], fs := fs1))
    else LoaderStep(cfg, st, chapter, ch.images, temp, final, fs1, net, archive)
  }

  /** CreatedStep reads the disk only through fs1, never through the state's own. */
  lemma CreatedStepReadsFs1(cfg: Config, st: RunState, chapter: Json, ch: Entry, final: Path, temp: Path, fs1: FS,
                            fs0: FS, net: Request -> Reply, archive: Archiver)
    ensures CreatedStep(cfg, st.(fs := fs0), chapter, ch, final, temp, fs1, net, archive)
      == CreatedStep(cfg, st, chapter, ch, final, temp, fs1, net, archive)
  {
  }

  /** `len(images)` exists: a string, a list or a dict. */
  predicate HasLen(images: Json) {
    images.JStr? || images.JArr? || images.JObj?
  }

  /** The loader pointed at temp, given the images and run, then the bookkeeping and the removal
      of the spinner task. loader.all() raises, in this order: TypeError when the images have
      no length; KeyError from the spinner update once an earlier chapter removed the cached
      task; TypeError for an item that is not a string. */
  function LoaderStep(cfg: Config, st: RunState, chapter: Json, images: Json, temp: Path, final: Path, fs: FS,
                      net: Request -> Reply, archive: Archiver): RunOutcome {
    match LoaderUrls(images)
    case Err(e) =>
      var pointed := st.(loaderDir := temp, fs := MkDirs(fs, temp));
      if HasLen(images) && st.spinnerGone then RunOutcome(Some(SpinnerTaskGone), pointed)
      else RunOutcome(Some(e), pointed)
    case Ok(urls) => LoaderRun(cfg, st, chapter, urls, temp, final, fs, net, archive)
  }

  /** LoaderStep for images the loader can go over. */
  function LoaderRun(cfg: Config, st: RunState, chapter: Json, urls: seq<Url>, temp: Path, final: Path, fs: FS,
                     net: Request -> Reply, archive: Archiver): RunOutcome {
    if st.spinnerGone then
      RunOutcome(Some(SpinnerTaskGone), st.(loaderDir := temp, loaderUrls := urls, fs := MkDirs(fs, temp)))
    else RunOutcome(None, Settle(cfg, Loaded(cfg, st, temp, urls, fs, net), chapter, temp, final, archive).(spinnerGone := true))
  }

  /** _process_chapters: the chapters in order until the limit is reached or one raises. */
  function RunChapters(cfg: Config, st: RunState, chapters: seq<Json>, net: Request -> Reply, archive: Archiver): (r: RunOutcome)
    ensures st.results <= r.state.results && |r.state.results| <= |st.results| + |chapters|
    decreases |chapters|
  {
    if chapters == [] || ShouldStop(cfg.limit, st.results) then RunOutcome(None, st)
    else
      var o := ChapterStep(cfg, st, chapters[0], net, archive);
      ChapterStepOneResult(cfg, st, chapters[0], net, archive);
      if o.error.Some? then o else RunChapters(cfg, o.state, chapters[1..], net, archive)
  }

  // ---------------------------------------------------------------------------------------
  // What a chapter does

  /** The chapter reaches loader.all(): it reads, has images, gets its temp folder and is not
      already on disk. */
  predicate ReachesAll(cfg: Config, st: RunState, chapter: Json) {
    && ReadChapter(chapter).Ok?
    && var ch := ReadChapter(chapter).value;
      && Truthy(ch.images)
      && CreateTempFolder(st.fs, TempFolder(cfg.base, ch.title)).Ok?
      && !IsDownloadedChapter(CreateTempFolder(st.fs, TempFolder(cfg.base, ch.title)).value,
          ChapterFolder(cfg.base, ch.title), TempFolder(cfg.base, ch.title), ImageCount(ch.images))
  }

  /** The chapter reaches loader.all() and the loader can go over its images. */
  predicate ReachesLoader(cfg: Config, st: RunState, chapter: Json) {
    ReachesAll(cfg, st, chapter) && LoaderUrls(ReadChapter(chapter).value.images).Ok?
  }

  /** The loader state a chapter that reaches the loader settles from. */
  function LoadedFor(cfg: Config, st: RunState, chapter: Json, net: Request -> Reply): RunState
    requires ReachesLoader(cfg, st, chapter)
  {
    var ch := ReadChapter(chapter).value;
    var temp := TempFolder(cfg.base, ch.title);
    Loaded(cfg, st, temp, LoaderUrls(ch.images).value, CreateTempFolder(st.fs, temp).value, net)
  }

  /** With the spinner task live, a chapter that reaches the loader settles on what it fetched,
      and its task is removed afterwards. */
  lemma ChapterStepReachesLoader(cfg: Config, st: RunState, chapter: Json, net: Request -> Reply, archive: Archiver)
    requires ReachesLoader(cfg, st, chapter) && !st.spinnerGone
    ensures var ch := ReadChapter(chapter).value;
      ChapterStep(cfg, st, chapter, net, archive)
        == RunOutcome(None, Settle(cfg, LoadedFor(cfg, st, chapter, net), chapter,
             TempFolder(cfg.base, ch.title), ChapterFolder(cfg.base, ch.title), archive).(spinnerGone := true))
  {
  }

  /** As written: once the spinner task was removed, a chapter whose images have a length and
      which reaches loader.all() raises KeyError there, with no result recorded and nothing
      fetched. */
  lemma SpinnerGoneRaises(cfg: Config, st: RunState, chapter: Json, net: Request -> Reply, archive: Archiver)
    requires ReachesAll(cfg, st, chapter) && HasLen(ReadChapter(chapter).value.images) && st.spinnerGone
    ensures var o := ChapterStep(cfg, st, chapter, net, archive);
      o.error == Some(SpinnerTaskGone) && o.state.results == st.results && o.state.loaderResults == st.loaderResults
  {
  }

  /** A chapter without images changes nothing and records nothing. */
  lemma NoImagesNoResult(cfg: Config, st: RunState, chapter: Json, net: Request -> Reply, archive: Archiver)
    requires ReadChapter(chapter).Ok? && !Truthy(ReadChapter(chapter).value.images)
    ensures ChapterStep(cfg, st, chapter, net, archive) == RunOutcome(None, st)
  {
  }

  /** Once create_temp_folder has run the temp folder exists, so _is_downloaded_chapter answers
      from the archives alone and never evaluates `len(images)`. */
  lemma CountNotConsulted(fs: FS, final: Path, temp: Path, n: nat)
    requires CreateTempFolder(fs, temp).Ok?
    ensures IsDownloadedChapter(CreateTempFolder(fs, temp).value, final, temp, n)
      == ArchiveExists(CreateTempFolder(fs, temp).value, final)
  {
  }

  /** Making the temp folder does not make or hide an archive. */
  lemma TempFolderKeepsArchives(fs: FS, base: Path, title: string)
    requires CreateTempFolder(fs, TempFolder(base, title)).Ok?
    ensures ArchiveExists(CreateTempFolder(fs, TempFolder(base, title)).value, ChapterFolder(base, title))
      == ArchiveExists(fs, ChapterFolder(base, title))
  {
    ArchiveIsNotTemp(base, title, Cbz);
    ArchiveIsNotTemp(base, title, Epub);
  }

  /** A chapter is SKIPPED only when one of its archives was already on disk: the temp folder is
      created before the check, so a complete plain folder is never enough. */
  lemma SkippedOnlyWithArchive(cfg: Config, st: RunState, chapter: Json, net: Request -> Reply, archive: Archiver)
    requires ReadChapter(chapter).Ok? && Truthy(ReadChapter(chapter).value.images)
    requires var o := ChapterStep(cfg, st, chapter, net, archive);
      o.error.None? && |o.state.results| > 0 && o.state.results[|o.state.results| - 1].status == SKIPPED
    ensures ArchiveExists(st.fs, ChapterFolder(cfg.base, ReadChapter(chapter).value.title))
  {
    var ch := ReadChapter(chapter).value;
    assert ChapterStep(cfg, st, chapter, net, archive) == FolderStep(cfg, st, chapter, ch, net, archive);
    FolderSkippedOnlyWithArchive(cfg, st, chapter, ch, net, archive);
  }

  /** SkippedOnlyWithArchive from create_temp_folder on. */
  lemma FolderSkippedOnlyWithArchive(cfg: Config, st: RunState, chapter: Json, ch: Entry, net: Request -> Reply,
                                     archive: Archiver)
    requires var o := FolderStep(cfg, st, chapter, ch, net, archive);
      o.error.None? && |o.state.results| > 0 && o.state.results[|o.state.results| - 1].status == SKIPPED
    ensures ArchiveExists(st.fs, ChapterFolder(cfg.base, ch.title))
  {
    var final := ChapterFolder(cfg.base, ch.title);
    var temp := TempFolder(cfg.base, ch.title);
    var fs1 := CreateTempFolder(st.fs, temp).value;
    if IsDownloadedChapter(fs1, final, temp, ImageCount(ch.images)) {
      TempFolderKeepsArchives(st.fs, cfg.base, ch.title);
    } else if !st.spinnerGone {
      var urls := LoaderUrls(ch.images).value;
      SettleAppendsVerdict(cfg, Loaded(cfg, st, temp, urls, fs1, net), chapter, temp, final, archive);
    }
  }

  /** Images the loader cannot go over (a number, a boolean, a list holding a non-string) raise
      only after the temp folder was made and the loader pointed at it, and only when no
      archive is on disk; with an archive the chapter is SKIPPED instead. The exception is
      TypeError, except the spinner's KeyError for a list once the spinner task was removed. No
      result is recorded for the chapter that raised. */
  lemma LateTypeError(cfg: Config, st: RunState, chapter: Json, net: Request -> Reply, archive: Archiver)
    requires ReadChapter(chapter).Ok? && Truthy(ReadChapter(chapter).value.images)
    requires LoaderUrls(ReadChapter(chapter).value.images).Err?
    requires CreateTempFolder(st.fs, TempFolder(cfg.base, ReadChapter(chapter).value.title)).Ok?
    ensures var o := ChapterStep(cfg, st, chapter, net, archive);
      o.error.None? <==> ArchiveExists(st.fs, ChapterFolder(cfg.base, ReadChapter(chapter).value.title))
    ensures var o := ChapterStep(cfg, st, chapter, net, archive);
      var temp := TempFolder(cfg.base, ReadChapter(chapter).value.title);
      o.error.Some? ==> (o.state.results == st.results && IsDir(o.state.fs, temp) && o.state.loaderDir == temp)
    ensures var o := ChapterStep(cfg, st, chapter, net, archive);
      var images := ReadChapter(chapter).value.images;
      o.error.Some? ==> o.error.value == (if HasLen(images) && st.spinnerGone then SpinnerTaskGone else LoaderUrls(images).error)
    ensures var o := ChapterStep(cfg, st, chapter, net, archive);
      o.error.Some? && !(HasLen(ReadChapter(chapter).value.images) && st.spinnerGone) ==> o.error.value.TypeError?
  {
    var ch := ReadChapter(chapter).value;
    var final := ChapterFolder(cfg.base, ch.title);
    var temp := TempFolder(cfg.base, ch.title);
    var fs1 := CreateTempFolder(st.fs, temp).value;
    var o := ChapterStep(cfg, st, chapter, net, archive);
    TempFolderKeepsArchives(st.fs, cfg.base, ch.title);
    CountNotConsulted(st.fs, final, temp, ImageCount(ch.images));
    if ArchiveExists(st.fs, final) {
      assert o == RunOutcome(None, st.(results := st.results + [DownloadResult(SKIPPED, Some(final))], fs := fs1));
    } else {
      var e := if HasLen(ch.images) && st.spinnerGone then SpinnerTaskGone else LoaderUrls(ch.images).error;
      assert o == RunOutcome(Some(e), st.(loaderDir := temp, fs := MkDirs(fs1, temp)));
    }
  }

  /** The bookkeeping appends exactly one result, SUCCESS or FAILED, with the temp folder. */
  lemma SettleAppendsVerdict(cfg: Config, st: RunState, chapter: Json, temp: Path, final: Path, archive: Archiver)
    ensures var s := Settle(cfg, st, chapter, temp, final, archive);
      s.results == st.results + [DownloadResult(if AllSuccess(st.loaderResults) then SUCCESS else FAILED, Some(temp))]
  {
    var s1 := st.(loaderResults := [], results := st.results + [DownloadResult(SUCCESS, Some(temp))]);
    assert Dropped(s1.(fs := archive(RenameIfFree(st.fs, temp, final).1, final, cfg.format)), chapter).results == s1.results;
  }

  /** All resolved: SUCCESS is recorded and the loader's results are cleared, whether or not
      the rename then succeeds; when the final path already exists nothing on disk moves and
      the document is not touched. */
  lemma SettleSuccess(cfg: Config, st: RunState, chapter: Json, temp: Path, final: Path, archive: Archiver)
    requires AllSuccess(st.loaderResults)
    ensures var s := Settle(cfg, st, chapter, temp, final, archive);
      s.loaderResults == [] && s.results == st.results + [DownloadResult(SUCCESS, Some(temp))]
    ensures final in st.fs ==> (Settle(cfg, st, chapter, temp, final, archive)
      == st.(loaderResults := [], results := st.results + [DownloadResult(SUCCESS, Some(temp))]))
  {
    SettleAppendsVerdict(cfg, st, chapter, temp, final, archive);
    var s1 := st.(loaderResults := [], results := st.results + [DownloadResult(SUCCESS, Some(temp))]);
    assert Dropped(s1.(fs := archive(RenameIfFree(st.fs, temp, final).1, final, cfg.format)), chapter).loaderResults == [];
  }

  /** Not all resolved: FAILED is recorded and nothing else changes, so the temp folder stays
      for a later resume, nothing is archived and the document is kept. */
  lemma SettleFailure(cfg: Config, st: RunState, chapter: Json, temp: Path, final: Path, archive: Archiver)
    requires !AllSuccess(st.loaderResults)
    ensures Settle(cfg, st, chapter, temp, final, archive)
      == st.(results := st.results + [DownloadResult(FAILED, Some(temp))])
  {
  }

  /** The document changes only after a successful rename with delete_on_success set, and then
      loses exactly this chapter's entry, and is saved. */
  lemma SettleDataChange(cfg: Config, st: RunState, chapter: Json, temp: Path, final: Path, archive: Archiver)
    requires Settle(cfg, st, chapter, temp, final, archive).data != st.data
    ensures AllSuccess(st.loaderResults) && cfg.deleteOnSuccess && RenameIfFree(st.fs, temp, final).0
    ensures var s := Settle(cfg, st, chapter, temp, final, archive);
      Some(s.data) == RemoveFromData(st.data, chapter) && s.saves == st.saves + [s.data]
  {
  }

  /** The archiver runs exactly when the chapter settles SUCCESS and its rename succeeds. */
  lemma SettleArchives(cfg: Config, st: RunState, chapter: Json, temp: Path, final: Path, archive: Archiver)
    requires AllSuccess(st.loaderResults) && RenameIfFree(st.fs, temp, final).0 && !cfg.deleteOnSuccess
    ensures Settle(cfg, st, chapter, temp, final, archive).fs == archive(RenameIfFree(st.fs, temp, final).1, final, cfg.format)
  {
  }

  /** Each chapter appends at most one result. */
  lemma ChapterStepOneResult(cfg: Config, st: RunState, chapter: Json, net: Request -> Reply, archive: Archiver)
    ensures var s := ChapterStep(cfg, st, chapter, net, archive).state;
      s.results == st.results || (|s.results| == |st.results| + 1 && s.results[..|st.results|] == st.results)
  {
    if ReachesLoader(cfg, st, chapter) && !st.spinnerGone {
      var ch := ReadChapter(chapter).value;
      ChapterStepReachesLoader(cfg, st, chapter, net, archive);
      SettleAppendsVerdict(cfg, LoadedFor(cfg, st, chapter, net), chapter,
        TempFolder(cfg.base, ch.title), ChapterFolder(cfg.base, ch.title), archive);
    }
  }

  /** At most one result more: the counted ones grow by at most one. */
  lemma CountedGrowsByOne(rs: seq<DownloadResult>, rs': seq<DownloadResult>)
    requires rs' == rs || (|rs'| == |rs| + 1 && rs'[..|rs|] == rs)
    ensures Counted(rs') <= Counted(rs) + 1
  {
    if rs' != rs {
      assert rs' == rs + [rs'[|rs|]];
      CountAppend(rs, [rs'[|rs|]], FAILED);
      CountAppend(rs, [rs'[|rs|]], SUCCESS);
    }
  }

  /** A run never records more FAILED plus SUCCESS results than a positive limit allows. */
  lemma {:induction false} RunRespectsLimit(cfg: Config, st: RunState, chapters: seq<Json>, net: Request -> Reply, archive: Archiver)
    requires cfg.limit > 0 && Counted(st.results) <= cfg.limit
    ensures Counted(RunChapters(cfg, st, chapters, net, archive).state.results) <= cfg.limit
    decreases |chapters|
  {
    if chapters != [] && !ShouldStop(cfg.limit, st.results) {
      var o := ChapterStep(cfg, st, chapters[0], net, archive);
      ChapterStepOneResult(cfg, st, chapters[0], net, archive);
      CountedGrowsByOne(st.results, o.state.results);
      if o.error.None? {
        RunRespectsLimit(cfg, o.state, chapters[1..], net, archive);
      }
    }
  }

  // ---------------------------------------------------------------------------------------
  // The spinner task is removed after the first chapter the loader runs

  /** As written: with the spinner task live, a chapter that reaches the loader settles and
      removes the task, so the next chapter that reaches loader.all() with images that have a
      length raises KeyError there. */
  lemma SecondLoaderChapterRaises(cfg: Config, st: RunState, first: Json, second: Json, net: Request -> Reply,
                                  archive: Archiver)
    requires ReachesLoader(cfg, st, first) && !st.spinnerGone
    requires ReachesAll(cfg, ChapterStep(cfg, st, first, net, archive).state, second)
    requires HasLen(ReadChapter(second).value.images)
    ensures ChapterStep(cfg, st, first, net, archive).error.None?
    ensures var s1 := ChapterStep(cfg, st, first, net, archive).state;
      var o := ChapterStep(cfg, s1, second, net, archive);
      o.error == Some(SpinnerTaskGone) && o.state.results == s1.results
  {
    ChapterStepReachesLoader(cfg, st, first, net, archive);
    SpinnerGoneRaises(cfg, ChapterStep(cfg, st, first, net, archive).state, second, net, archive);
  }

  /** As written, over the run: two chapters that both need downloading, with the limit not
      reached after the first, end _process_chapters, and so start, on the KeyError. */
  lemma TwoLoaderChaptersRaise(cfg: Config, st: RunState, first: Json, second: Json, net: Request -> Reply,
                               archive: Archiver)
    requires ReachesLoader(cfg, st, first) && !st.spinnerGone && !ShouldStop(cfg.limit, st.results)
    requires var s1 := ChapterStep(cfg, st, first, net, archive).state;
      ReachesAll(cfg, s1, second) && HasLen(ReadChapter(second).value.images) && !ShouldStop(cfg.limit, s1.results)
    ensures RunChapters(cfg, st, [first, second], net, archive).error == Some(SpinnerTaskGone)
  {
    var s1 := ChapterStep(cfg, st, first, net, archive).state;
    SecondLoaderChapterRaises(cfg, st, first, second, net, archive);
    assert RunChapters(cfg, st, [first, second], net, archive) == RunChapters(cfg, s1, [second], net, archive);
    assert RunChapters(cfg, s1, [second], net, archive) == ChapterStep(cfg, s1, second, net, archive);
  }

  /** Corrected: the spinner task made afresh for every chapter (the cached id dropped when the
      task is removed), so each chapter meets a live task. */
  function ChapterStepNewTask(cfg: Config, st: RunState, chapter: Json, net: Request -> Reply, archive: Archiver): RunOutcome {
    ChapterStep(cfg, st.(spinnerGone := false), chapter, net, archive)
  }

  /** _process_chapters with the corrected chapter step. */
  function RunChaptersNewTask(cfg: Config, st: RunState, chapters: seq<Json>, net: Request -> Reply, archive: Archiver): RunOutcome
    decreases |chapters|
  {
    if chapters == [] || ShouldStop(cfg.limit, st.results) then RunOutcome(None, st)
    else
      var o := ChapterStepNewTask(cfg, st, chapters[0], net, archive);
      if o.error.Some? then o else RunChaptersNewTask(cfg, o.state, chapters[1..], net, archive)
  }

  /** With the correction, no chapter raises the spinner's KeyError: every exception left is one
      of the orchestrator's own (AttributeError, OSError, TypeError). */
  lemma NewTaskNoKeyError(cfg: Config, st: RunState, chapter: Json, net: Request -> Reply, archive: Archiver)
    ensures var o := ChapterStepNewTask(cfg, st, chapter, net, archive);
      o.error.Some? ==> o.error.value.AttributeError? || o.error.value.OSError? || o.error.value.TypeError?
  {
  }

  /** With the correction, a run never ends on the spinner's KeyError. */
  lemma {:induction false} RunNewTaskNoKeyError(cfg: Config, st: RunState, chapters: seq<Json>, net: Request -> Reply,
                                                archive: Archiver)
    ensures RunChaptersNewTask(cfg, st, chapters, net, archive).error != Some(SpinnerTaskGone)
    decreases |chapters|
  {
    if chapters != [] && !ShouldStop(cfg.limit, st.results) {
      var o := ChapterStepNewTask(cfg, st, chapters[0], net, archive);
      NewTaskNoKeyError(cfg, st, chapters[0], net, archive);
      if o.error.None? {
        RunNewTaskNoKeyError(cfg, o.state, chapters[1..], net, archive);
      }
    }
  }

  /** With the correction, every chapter that reaches the loader settles and records its
      verdict, whatever chapters came before it. */
  lemma NewTaskSettles(cfg: Config, st: RunState, chapter: Json, net: Request -> Reply, archive: Archiver)
    requires ReachesLoader(cfg, st, chapter)
    ensures var o := ChapterStepNewTask(cfg, st, chapter, net, archive);
      var ch := ReadChapter(chapter).value;
      var verdict := if AllSuccess(LoadedFor(cfg, st, chapter, net).loaderResults) then SUCCESS else FAILED;
      o.error.None? && o.state.results == st.results + [DownloadResult(verdict, Some(TempFolder(cfg.base, ch.title)))]
  {
    var ch := ReadChapter(chapter).value;
    var st' := st.(spinnerGone := false);
    ChapterStepReachesLoader(cfg, st', chapter, net, archive);
    SettleAppendsVerdict(cfg, LoadedFor(cfg, st', chapter, net), chapter,
      TempFolder(cfg.base, ch.title), ChapterFolder(cfg.base, ch.title), archive);
  }

  // ---------------------------------------------------------------------------------------
  // The loader results are not cleared after a failed chapter

  /** As written, save that the spinner task is re-created per chapter (without which the next
      chapter raises first): once the loader holds a FAILED result, every later chapter that
      reaches the loader is recorded FAILED, even when every one of its own images downloaded. */
  lemma StickyFailure(cfg: Config, st: RunState, chapter: Json, net: Request -> Reply, archive: Archiver)
    requires ReachesLoader(cfg, st, chapter) && Count(st.loaderResults, FAILED) > 0
    ensures var s := ChapterStepNewTask(cfg, st, chapter, net, archive).state;
      var ch := ReadChapter(chapter).value;
      s.results == st.results + [DownloadResult(FAILED, Some(TempFolder(cfg.base, ch.title)))]
  {
    var ch := ReadChapter(chapter).value;
    var st' := st.(spinnerGone := false);
    var s := LoadedFor(cfg, st', chapter, net);
    FailureSticks(st.loaderResults, s.loaderResults[|st.loaderResults|..]);
    assert s.loaderResults == st.loaderResults + s.loaderResults[|st.loaderResults|..];
    ChapterStepReachesLoader(cfg, st', chapter, net, archive);
    SettleFailure(cfg, s, chapter, TempFolder(cfg.base, ch.title), ChapterFolder(cfg.base, ch.title), archive);
  }

  /** A chapter recorded FAILED leaves a FAILED result in the loader, so the next chapters
      inherit it. */
  lemma FailedChapterLeavesFailure(cfg: Config, st: RunState, chapter: Json, net: Request -> Reply, archive: Archiver)
    requires ReachesLoader(cfg, st, chapter)
    requires !AllSuccess(LoadedFor(cfg, st, chapter, net).loaderResults)
    ensures Count(ChapterStepNewTask(cfg, st, chapter, net, archive).state.loaderResults, FAILED) > 0
  {
    var ch := ReadChapter(chapter).value;
    var st' := st.(spinnerGone := false);
    var s := LoadedFor(cfg, st', chapter, net);
    var temp := TempFolder(cfg.base, ch.title);
    var fs1 := CreateTempFolder(st.fs, temp).value;
    var urls := LoaderUrls(ch.images).value;
    BatchOneResultPerUrl(cfg.placeholder, temp, urls, MkDirs(fs1, temp), net, "");
    AllSuccessIff(s.loaderResults);
    ChapterStepReachesLoader(cfg, st', chapter, net, archive);
    SettleFailure(cfg, s, chapter, temp, ChapterFolder(cfg.base, ch.title), archive);
  }

  /** Corrected: the loader's results cleared before every chapter, so each chapter is judged
      by its own images. */
  function LoadedFresh(cfg: Config, st: RunState, temp: Path, urls: seq<Url>, fs: FS, net: Request -> Reply): RunState {
    var run := Batch(cfg.placeholder, temp, urls, MkDirs(fs, temp), net);
    st.(loaderResults := run.results, loaderDir := temp, loaderUrls := urls, fs := run.fs)
  }

  /** With the correction, a chapter's verdict is SUCCESS exactly when its own batch is all
      resolved, whatever earlier chapters left behind. */
  lemma FreshVerdict(cfg: Config, st: RunState, chapter: Json, temp: Path, final: Path, urls: seq<Url>, fs: FS,
                     net: Request -> Reply, archive: Archiver)
    ensures var s := Settle(cfg, LoadedFresh(cfg, st, temp, urls, fs, net), chapter, temp, final, archive);
      var run := Batch(cfg.placeholder, temp, urls, MkDirs(fs, temp), net);
      s.results == st.results + [DownloadResult(if AllSuccess(run.results) then SUCCESS else FAILED, Some(temp))]
  {
    SettleAppendsVerdict(cfg, LoadedFresh(cfg, st, temp, urls, fs, net), chapter, temp, final, archive);
  }

  // ---------------------------------------------------------------------------------------
  // The object

  class MangaDM {
    var jsonFile: string
    var data: Json
    /** The documents written back to the JSON file, in order. */
    var saves: seq<Json>
    const config: Config
    /** The Status mixin: the orchestrator's own chapter results. */
    const status: Status
    const loader: SlideLoader

    ghost predicate Valid()
      reads this
    {
      loader.status != status && loader.placeholder == config.placeholder && WellShaped(data)
    }

    function State(fs: FS): RunState
      reads this, status, loader, loader.status
    {
      RunState(status.results, loader.status.results, loader.saveDir, loader.urls, fs, data, saves, loader.taskRemoved)
    }

    constructor (s: Settings, limit: int, deleteOnSuccess: bool, format: FormatType, placeholder: seq<Byte>)
      requires WellShaped(s.data)
      ensures Valid() && fresh(status) && fresh(loader) && fresh(loader.status)
      ensures jsonFile == s.jsonFile && data == s.data && saves == []
      ensures config == Config(s.base, limit, deleteOnSuccess, format, placeholder)
      ensures State(map[]).results == [] && State(map[]).loaderResults == [] && !State(map[]).spinnerGone
    {
      jsonFile := s.jsonFile;
      data := s.data;
      saves := [];
      config := Config(s.base, limit, deleteOnSuccess, format, placeholder);
      status := new Status();
      loader := new SlideLoader([], s.base, placeholder);
    }

    /** _should_stop_processing on the results so far. */
    predicate ShouldStopProcessing()
      reads this, status
    {
      ShouldStop(config.limit, status.results)
    }

    /** _remove_chapter: the entry leaves the document, which is then saved; True exactly when
      the entry was there. */
    method RemoveChapter(chapter: Json) returns (removed: bool)
      requires Valid()
      modifies this
      ensures Valid() && jsonFile == old(jsonFile)
      ensures removed <==> chapter in Chapters(old(data))
      ensures data == Dropped(old(State(map[])), chapter).data
      ensures saves == Dropped(old(State(map[])), chapter).saves
    {
      ghost var st := State(map[]);
      var d := RemoveFromData(data, chapter);
      if d.None? {
        assert Dropped(st, chapter) == st;
        return false;
      }
      DroppedRemoves(st, chapter);
      data, saves := d.value, saves + [d.value];
      removed := true;
    }

    /** _process_chapter. */
    method ProcessChapter(chapter: Json, fs: FS, net: Request -> Reply, archive: Archiver)
      returns (err: Option<Failure>, fs': FS)
      requires Valid()
      modifies this, status, loader, loader.status
      ensures Valid() && jsonFile == old(jsonFile)
      ensures RunOutcome(err, State(fs')) == ChapterStep(config, old(State(fs)), chapter, net, archive)
    {
      var read := ReadChapter(chapter);
      if read.Err? {
        return Some(read.error), fs;
      }
      if !Truthy(read.value.images) {
        return None, fs;
      }
      err, fs' := ProcessFolder(chapter, read.value, fs, net, archive);
    }

    /** _process_chapter from create_temp_folder on. */
    method ProcessFolder(chapter: Json, ch: Entry, fs: FS, net: Request -> Reply, archive: Archiver)
      returns (err: Option<Failure>, fs': FS)
      requires Valid()
      modifies this, status, loader, loader.status
      ensures Valid() && jsonFile == old(jsonFile)
      ensures RunOutcome(err, State(fs')) == FolderStep(config, old(State(fs)), chapter, ch, net, archive)
    {
      var final := ChapterFolder(config.base, ch.title);
      var temp := TempFolder(config.base, ch.title);
      var created := CreateTempFolder(fs, temp);
      if created.Err? {
        return Some(created.error), fs;
      }
      CreatedStepReadsFs1(config, State(fs), chapter, ch, final, temp, created.value, created.value, net, archive);
      assert State(created.value) == State(fs).(fs := created.value);
      err, fs' := ProcessCreated(chapter, ch, final, temp, created.value, net, archive);
    }

    /** _process_chapter once the temp folder exists: _is_downloaded_chapter, then the loader. */
    method ProcessCreated(chapter: Json, ch: Entry, final: Path, temp: Path, fs: FS, net: Request -> Reply,
                          archive: Archiver) returns (err: Option<Failure>, fs': FS)
      requires Valid()
      modifies this, status, loader, loader.status
      ensures Valid() && jsonFile == old(jsonFile)
      ensures RunOutcome(err, State(fs')) == CreatedStep(config, old(State(fs)), chapter, ch, final, temp, fs, net, archive)
    {
      if IsDownloadedChapter(fs, final, temp, ImageCount(ch.images)) {
        status.Add(DownloadResult(SKIPPED, Some(final)));
        return None, fs;
      }
      err, fs' := LoadImages(chapter, ch.images, temp, final, fs, net, archive);
    }

    /** The loader's part of _process_chapter: save_dir, urls, all(), then the bookkeeping. */
    method LoadImages(chapter: Json, images: Json, temp: Path, final: Path, fs: FS, net: Request -> Reply,
                      archive: Archiver) returns (err: Option<Failure>, fs': FS)
      requires Valid()
      modifies this, status, loader, loader.status
      ensures Valid() && jsonFile == old(jsonFile)
      ensures RunOutcome(err, State(fs')) == LoaderStep(config, old(State(fs)), chapter, images, temp, final, fs, net, archive)
    {
      var urls := LoaderUrls(images);
      if urls.Ok? {
        err, fs' := RunLoader(chapter, urls.value, temp, final, fs, net, archive);
        return;
      }
      fs' := PointLoader(temp, fs);
      // all() takes len(urls), then updates the spinner, and looks at the items last.
      var update := if HasLen(images) then loader.SpinnerUpdate() else None;
      err := if update.Some? then update else Some(urls.error);
    }

    /** LoadImages for images the loader can go over, then spinner.remove_task. */
    method RunLoader(chapter: Json, urls: seq<Url>, temp: Path, final: Path, fs: FS, net: Request -> Reply,
                     archive: Archiver) returns (err: Option<Failure>, fs': FS)
      requires Valid()
      modifies this, status, loader, loader.status
      ensures Valid() && jsonFile == old(jsonFile)
      ensures RunOutcome(err, State(fs')) == LoaderRun(config, old(State(fs)), chapter, urls, temp, final, fs, net, archive)
    {
      var run;
      run, fs' := LoadChapter(temp, urls, fs, net);
      if run.Err? {
        return Some(run.error), fs';
      }
      fs' := FinishChapter(chapter, temp, final, fs', archive);
      err := None;
    }

    /** The bookkeeping, then `spinner.remove_task(spinner_task)` on the task all() just used. */
    method FinishChapter(chapter: Json, temp: Path, final: Path, fs: FS, archive: Archiver) returns (fs': FS)
      requires Valid() && loader.saveDir == temp && !loader.taskRemoved
      modifies this, status, loader, loader.status
      ensures Valid() && jsonFile == old(jsonFile)
      ensures State(fs') == Settle(config, old(State(fs)), chapter, temp, final, archive).(spinnerGone := true)
    {
      fs' := SettleChapter(chapter, temp, final, fs, archive);
      // The task is live, so the removal itself does not raise.
      var _ := loader.RemoveSpinnerTask();
    }

    /** `loader.save_dir = temp`, which makes the folder. */
    method PointLoader(temp: Path, fs: FS) returns (fs': FS)
      requires Valid()
      modifies loader
      ensures Valid()
      ensures State(fs') == old(State(fs)).(loaderDir := temp, fs := MkDirs(fs, temp))
    {
      fs' := loader.SetSaveDir(temp, fs);
    }

    /** The loader pointed at temp and the chapter's images, then run over all of them; the
        spinner's KeyError, before anything is fetched, once its task was removed. */
    method LoadChapter(temp: Path, urls: seq<Url>, fs: FS, net: Request -> Reply)
      returns (run: Result<seq<DownloadResult>>, fs': FS)
      requires Valid()
      modifies loader, loader.status
      ensures Valid() && loader.saveDir == temp && loader.taskRemoved == old(loader.taskRemoved)
      ensures run.Err? <==> loader.taskRemoved
      ensures run.Err? ==> run == Err(SpinnerTaskGone)
      ensures run.Err? ==> State(fs') == old(State(fs)).(loaderDir := temp, loaderUrls := urls, fs := MkDirs(fs, temp))
      ensures run.Ok? ==> State(fs') == Loaded(config, old(State(fs)), temp, urls, fs, net)
    {
      fs' := loader.SetSaveDir(temp, fs);
      loader.SetUrls(urls);
      run, fs' := loader.All(fs', net);
    }

    /** The second half of _process_chapter, once the loader ran into temp. */
    method SettleChapter(chapter: Json, temp: Path, final: Path, fs: FS, archive: Archiver) returns (fs': FS)
      requires Valid() && loader.saveDir == temp
      modifies this, status, loader.status
      ensures Valid() && jsonFile == old(jsonFile)
      ensures State(fs') == Settle(config, old(State(fs)), chapter, temp, final, archive)
    {
      fs' := fs;
      if loader.status.AllSuccessNow() {
        loader.status.ClearResults();
        status.Add(DownloadResult(SUCCESS, Some(loader.saveDir)));
        var renamed := RenameIfFree(fs', temp, final);
        if renamed.0 {
          fs' := archive(renamed.1, final, config.format);
          if config.deleteOnSuccess {
            var removed := RemoveChapter(chapter);
          }
        }
      } else {
        status.Add(DownloadResult(FAILED, Some(loader.saveDir)));
      }
    }

    /** _process_chapters: the chapters of a snapshot of the list, in order, until the limit
      stops the run or a chapter raises. */
    method ProcessChapters(fs: FS, net: Request -> Reply, archive: Archiver)
      returns (err: Option<Failure>, fs': FS)
      requires Valid()
      modifies this, status, loader, loader.status
      ensures Valid() && jsonFile == old(jsonFile)
      ensures RunOutcome(err, State(fs')) == RunChapters(config, old(State(fs)), old(Chapters(data)), net, archive)
    {
      var chapters := Chapters(data);
      ghost var cfg := config;
      ghost var whole := RunChapters(cfg, State(fs), chapters, net, archive);
      fs' := fs;
      var k := 0;
      while k < |chapters|
        invariant 0 <= k <= |chapters|
        invariant Valid() && jsonFile == old(jsonFile) && config == cfg
        invariant whole == RunChapters(cfg, State(fs'), chapters[k..], net, archive)
      {
        if ShouldStopProcessing() {
          break;
        }
        ghost var before := State(fs');
        err, fs' := ProcessChapter(chapters[k], fs', net, archive);
        assert chapters[k..][1..] == chapters[k + 1..];
        if err.Some? {
          return;
        }
        k := k + 1;
      }
      err := None;
    }
  }
}
