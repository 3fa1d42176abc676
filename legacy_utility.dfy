/** The helpers of the `mangadm/` engine: the extension taken from an image URL, the
    completion detector with its three answers, the image listing that feeds the archivers
    and the tolerant JSON loader. */
module LegacyUtility {
  import opened Wrappers
  import opened Strings
  import opened FileSystem
  import opened PathNames
  import opened Ordering
  import opened Json
  import Loader
  import Orchestrator
  import DownloadTypes

  // ---------------------------------------------------------------------------------------
  // File names

  /** get_ext_from_url on the decoded basename: the text after its last '.', the whole name
      when it has none. */
  function ExtFromName(basename: string): (r: string)
    ensures '.' !in r && EndsWith(basename, r)
    ensures '.' !in basename ==> r == basename
    ensures |r| < |basename| ==> basename[|basename| - |r| - 1] == '.'
  {
    if '.' !in basename then
      AfterLastMissing(basename, '.');
      AfterLast(basename, '.')
    else AfterLast(basename, '.')
  }

  /** The extension given to an image file is read back from its name. */
  lemma ExtOfImageName(stem: string, ext: string)
    requires '.' !in ext
    ensures ExtFromName(stem + "." + ext) == ext
  {
    AfterLastOfTail(stem + ".", ext);
  }

  // ---------------------------------------------------------------------------------------
  // The completion detector

  /** The engine hands the detector the string `os.path.join(parent, name)`. The directory it
      names is `parent / name`, or the parent itself for a name of "" or ".". */
  function JoinedFolder(parent: Path, name: string): Path {
    Orchestrator.ChapterFolder(parent, name)
  }

  /** The `.cbz` the detector looks for: the basename of the joined string with its trailing
      separators stripped, plus ".cbz", in the joined string's dirname. For an ordinary name
      it lies beside the folder. For "" the string ends in a separator, so both the basename
      and the dirname refer to the parent, and the archive lies inside the parent under the
      parent's own name. For "." the basename is "." and the archive is "..cbz" inside the
      parent. */
  function CbzPath(parent: Path, name: string): (p: Path)
    ensures name != "" && name != "." ==> p == WithName(JoinedFolder(parent, name), name + ".cbz")
    ensures name == "" ==> p == parent + [Last(parent) + ".cbz"]
    ensures name == "." ==> p == parent + ["..cbz"]
    ensures Parent(p) == parent
  {
    if name == "" then parent + [Last(parent) + ".cbz"]
    else if name == "." then parent + ["..cbz"]
    else parent + [name + ".cbz"]
  }

  /** The folder holds an entry whose name contains marker. */
  predicate HasMarkedEntry(fs: FS, folder: Path, marker: string) {
    exists c :: c in Children(fs, folder) && Contains(Last(c), marker)
  }

  /** is_downloaded_chapter on the folder `os.path.join(parent, name)`, with Python's None as
      the third answer when no case applies. */
  function IsDownloadedChapter(fs: FS, parent: Path, name: string, temp: Path, imageCount: nat): (r: Option<bool>)
    ensures var folder := JoinedFolder(parent, name);
      r == Some(true) <==>
      IsFile(fs, CbzPath(parent, name)) ||
      (!IsDir(fs, temp) && IsDir(fs, folder) && !HasMarkedEntry(fs, folder, "_temp")
       && imageCount == |Children(fs, folder)|)
    ensures var folder := JoinedFolder(parent, name);
      r == Some(false) <==>
      !IsFile(fs, CbzPath(parent, name)) &&
      (IsDir(fs, temp) || (IsDir(fs, folder) && HasMarkedEntry(fs, folder, "_temp")))
  {
    var folder := JoinedFolder(parent, name);
    if IsFile(fs, CbzPath(parent, name)) then Some(true)
    else if IsDir(fs, temp) then Some(false)
    else if IsDir(fs, folder) && HasMarkedEntry(fs, folder, "_temp") then Some(false)
    else if IsDir(fs, folder) && imageCount == |Children(fs, folder)| then Some(true)
    else None
  }

  /** The None answer: no archive, no temp folder, and either no folder or a folder without
      temp entries whose size does not match. */
  lemma FallsThroughToNone(fs: FS, parent: Path, name: string, temp: Path, imageCount: nat)
    ensures var folder := JoinedFolder(parent, name);
      IsDownloadedChapter(fs, parent, name, temp, imageCount).None? <==>
      !IsFile(fs, CbzPath(parent, name)) && !IsDir(fs, temp) &&
      (!IsDir(fs, folder) ||
       (!HasMarkedEntry(fs, folder, "_temp") && imageCount != |Children(fs, folder)|))
  {
    var r := IsDownloadedChapter(fs, parent, name, temp, imageCount);
    assert r.None? <==> r != Some(true) && r != Some(false);
  }

  /** Where neither generation's temp marker occurs and no EPUB lies beside the folder, the
      answer read as a condition agrees with the current engine's detector for a chapter folder
      with a name of its own. Both engines accept a `.cbz` file or a complete folder, and
      refuse a leftover temp folder. */
  lemma AgreesWithCurrentDetector(fs: FS, parent: Path, name: string, temp: Path, imageCount: nat)
    requires name != "" && name != "."
    requires var folder := JoinedFolder(parent, name);
      !IsFile(fs, Orchestrator.ArchivePath(folder, DownloadTypes.FormatType.Epub))
      && !HasMarkedEntry(fs, folder, "_temp") && !Orchestrator.HasTempEntry(fs, folder)
    ensures (IsDownloadedChapter(fs, parent, name, temp, imageCount) == Some(true)) ==
            Orchestrator.IsDownloadedChapter(fs, JoinedFolder(parent, name), temp, imageCount)
  {
    var folder := JoinedFolder(parent, name);
    assert DownloadTypes.FormatType.Cbz.Value() == "cbz";
    assert Last(folder) + "." + "cbz" == name + ".cbz";
    assert Orchestrator.ArchivePath(folder, DownloadTypes.FormatType.Cbz) == CbzPath(parent, name);
  }

  /** For a name of "" or ".", the string form puts the archive inside the parent, where the
      current engine's `Path` form (whose folder is the parent itself) looks beside it. */
  lemma CollapsedNameArchiveInside(parent: Path, name: string)
    requires name == "" || name == "."
    requires parent != []
    ensures JoinedFolder(parent, name) == parent
    ensures CbzPath(parent, name) != Orchestrator.ArchivePath(JoinedFolder(parent, name), DownloadTypes.FormatType.Cbz)
  {
    var a := Orchestrator.ArchivePath(parent, DownloadTypes.FormatType.Cbz);
    assert |a| == |parent|;
  }

  // ---------------------------------------------------------------------------------------
  // Image listing

  const SupportedImageExtensions: seq<string> := [".png", ".jpg", ".jpeg", ".gif", ".bmp", ".webp"]

  /** A name whose lower-cased suffix is one of the supported image extensions. */
  predicate IsImageName(name: string) {
    Lower(Suffix(name)) in SupportedImageExtensions
  }

  /** get_image_paths: every path below the folder (rglob lists directories too) whose name
      has a supported suffix, in sorted order. */
  function ImagePaths(fs: FS, folder: Path): (r: seq<Path>)
    ensures forall p :: p in r <==> p in Descendants(fs, folder) && IsImageName(Last(p))
    ensures SortedBy(r, PathLess)
  {
    PathLessStrictTotal();
    SortSet((set p | p in Descendants(fs, folder) && IsImageName(Last(p))), PathLess)
  }

  /** A suffix is listed whatever its case. */
  lemma UpperCaseSuffixListed(stem: string)
    requires stem != "" && '.' !in stem
    ensures IsImageName(stem + ".PNG")
  {
    SuffixAfterStem(stem, ".PNG");
    var l := Lower(".PNG");
    assert l == ".png" by {
      assert forall i :: 0 <= i < 4 ==> l[i] == LowerChar(".PNG"[i]);
    }
  }

  // ---------------------------------------------------------------------------------------
  // Loading the document

  /** load_data: the parsed value, or an empty list when the file is missing, or opening or
      reading it raises an IOError, or its text is not JSON. Only JSONDecodeError and IOError
      are caught, so bytes that are not UTF-8 raise UnicodeDecodeError to the caller. */
  function LoadData(read: ReadOutcome): (r: Result<Json>)
    ensures r.Err? <==> read.NotUtf8?
    ensures r.Err? ==> r.error == UnicodeDecodeError && r.error.ValueError?
    ensures read.Parsed? ==> r == Ok(read.value)
    ensures read.Missing? || read.Undecodable? ==> r == Ok(JArr([]))
  {
    match read
    case Parsed(v) => Ok(v)
    case NotUtf8 => Err(UnicodeDecodeError)
    case _ => Ok(JArr([]))
  }
}
