/** The downloader of the `manga_dm/` engine (manga_dm/downloader/downloader.py): one file
    per call, named by the downloader's own name or by the URL's basename, resumed by a Range
    header that is always sent, appended to a `_temp` file and renamed into place. Every
    answer that is not an exception counts one image: skipped, succeeded or failed. */
module MangaDmDownloader {
  import opened Wrappers
  import opened Strings
  import opened Json
  import opened FileSystem
  import opened Http
  import opened MangaDmStats
  import RetryDownloader
  import Loader

  /** The disk, the replies still to come, the requests sent and the sleeps taken. */
  type World = RetryDownloader.World

  const TempSuffix: string := "_temp"

  /** os.path.join(folder, name) for a name without '/': "" and "." name the folder itself. */
  function JoinName(folder: Path, name: string): Path {
    if name == "" || name == "." then folder else folder + [name]
  }

  /** `self.name or Utility.get_filename_from_url(url)`: a non-empty name wins; otherwise the
      URL's decoded basename. urlparse reads a falsy value that is not a string as "" and
      raises AttributeError for a truthy one. */
  function LocalName(name: Option<string>, url: Json, basename: Url -> string): (r: Result<string>)
    ensures name.Some? && name.value != "" ==> r == Ok(name.value)
    ensures (name.None? || name.value == "") && url.JStr? ==> r == Ok(basename(url.s))
    ensures (name.None? || name.value == "") && !url.JStr? ==>
      (r.Ok? <==> !Truthy(url)) && (r.Ok? ==> r.value == basename(""))
  {
    if name.Some? && name.value != "" then Ok(name.value)
    else if url.JStr? then Ok(basename(url.s))
    else if !Truthy(url) then Ok(basename(""))
    else Err(AttributeError("object has no attribute 'decode'"))
  }

  // ---------------------------------------------------------------------------------------
  // The try block

  /** What the try block gave: whether it reached `return True`, the total handed to the
      progress bar (None before a response) and the world afterwards. */
  datatype Transfer = Transfer(ok: bool, total: Option<nat>, w: World)

  /** The request carrying `Range: bytes=<completed>-`. */
  function RangedRequest(url: Url, completed: nat): Request {
    Request(url, Some(RangeFrom(completed)))
  }

  /** The try block of download: the ranged GET, raise_for_status (4xx and 5xx), the total,
      the temp file opened for append whatever the status, the body written, and os.rename
      once the stream completed. Every exception inside is caught and reads as failure; a URL
      that is not a string makes requests raise before anything is sent. */
  function Fetch(w: World, url: Json, temp: Path, full: Path): (f: Transfer)
    ensures f.w.sleeps == w.sleeps && |f.w.replies| <= |w.replies|
    ensures !url.JStr? ==> f == Transfer(false, None, w)
    ensures url.JStr? ==> f.w.sent == w.sent + [RangedRequest(url.s, SizeOrZero(w.fs, temp))]
  {
    if !url.JStr? then Transfer(false, None, w)
    else
      var completed := SizeOrZero(w.fs, temp);
      var sent := RetryDownloader.Send(w, RangedRequest(url.s, completed));
      var w1 := sent.1;
      match sent.0
      case Unreachable(_) => Transfer(false, None, w1)
      case Response(status, h, chunks, end) =>
        if RequestsRaises(status) then Transfer(false, None, w1)
        else
          var total := Some(h.contentLength.GetOr(0) + completed);
          if !Openable(w1.fs, temp) then Transfer(false, total, w1)
          else
            var written := Append(w1.fs, temp, Flatten(chunks));
            if !end.Complete? then Transfer(false, total, w1.(fs := written))
            else match Rename(written, temp, full)
              case None => Transfer(false, total, w1.(fs := written))
              case Some(moved) => Transfer(true, total, w1.(fs := moved))
  }

  /** Every request carries a Range header from the temp file's size, `bytes=0-` when there
      is no temp file. */
  lemma RangeAlwaysSent(w: World, url: Json, temp: Path, full: Path)
    requires url.JStr?
    ensures var sent := Fetch(w, url, temp, full).w.sent;
      |sent| == |w.sent| + 1 && sent[|w.sent|].url == url.s && sent[|w.sent|].range.Some?
    ensures temp !in w.fs ==> Fetch(w, url, temp, full).w.sent[|w.sent|].range == Some("bytes=0-")
  {
    var sent := Fetch(w, url, temp, full).w.sent;
    assert sent[|w.sent|] == RangedRequest(url.s, SizeOrZero(w.fs, temp));
    if temp !in w.fs {
      assert NatToString(0) == "0";
      assert RangeFrom(0) == "bytes=0-";
    }
  }

  /** A response that does not raise gives the total content-length (0 when absent) plus the
      bytes already in the temp file. */
  lemma TotalIsLengthPlusOffset(w: World, url: Json, temp: Path, full: Path)
    requires url.JStr? && w.replies != [] && w.replies[0].Response?
    requires !RequestsRaises(w.replies[0].status)
    ensures Fetch(w, url, temp, full).total ==
      Some(w.replies[0].headers.contentLength.GetOr(0) + SizeOrZero(w.fs, temp))
  {
    var sent := RetryDownloader.Send(w, RangedRequest(url.s, SizeOrZero(w.fs, temp)));
    assert sent.0 == w.replies[0] && sent.1.fs == w.fs;
  }

  /** The temp file is only ever appended to: after a response that does not raise, the old
      bytes followed by the whole body end up in the final file when the transfer succeeds,
      and stay in the temp file when it fails. */
  lemma AlwaysAppended(w: World, url: Json, temp: Path, full: Path)
    requires url.JStr? && w.replies != [] && w.replies[0].Response?
    requires !RequestsRaises(w.replies[0].status) && Openable(w.fs, temp) && temp != full
    ensures var f := Fetch(w, url, temp, full);
      var bytes := Contents(w.fs, temp) + Flatten(w.replies[0].chunks);
      (f.ok ==> IsFile(f.w.fs, full) && f.w.fs[full].data == bytes) &&
      (!f.ok ==> IsFile(f.w.fs, temp) && f.w.fs[temp].data == bytes)
    ensures Fetch(w, url, temp, full).ok <==>
      w.replies[0].end.Complete? && Rename(Append(w.fs, temp, Flatten(w.replies[0].chunks)), temp, full).Some?
  {
    var sent := RetryDownloader.Send(w, RangedRequest(url.s, SizeOrZero(w.fs, temp)));
    assert sent.0 == w.replies[0] && sent.1.fs == w.fs;
  }

  /** A partial temp file and a server that ignores the Range header and answers 200 with the
      whole image: the transfer succeeds and the final file is the partial bytes followed by
      the whole image, so it is longer than the image. */
  lemma IgnoredRangeCorrupts(w: World, url: Json, temp: Path, full: Path, h: Headers, image: seq<seq<Byte>>)
    requires url.JStr? && IsFile(w.fs, temp) && |w.fs[temp].data| > 0
    requires w.replies != [] && w.replies[0] == Response(200, h, image, Complete)
    requires Openable(w.fs, temp) && full !in w.fs && |full| == |temp| && full != temp
    ensures var f := Fetch(w, url, temp, full);
      f.ok && IsFile(f.w.fs, full) && |f.w.fs[full].data| > |Flatten(image)|
      && f.w.fs[full].data == w.fs[temp].data + Flatten(image)
  {
    var written := Append(w.fs, temp, Flatten(image));
    SameLengthNotNested(temp, full);
    assert Rename(written, temp, full).Some?;
    AlwaysAppended(w, url, temp, full);
  }

  /** The try block as its successors write it: when the status is not 206 and ranges are
      not advertised the server restarted the body, so the temp file is started afresh
      instead of appended to. */
  function FetchCorrected(w: World, url: Json, temp: Path, full: Path): (f: Transfer)
    ensures !url.JStr? ==> f == Transfer(false, None, w)
    ensures url.JStr? ==> f.w.sent == w.sent + [RangedRequest(url.s, SizeOrZero(w.fs, temp))]
  {
    if !url.JStr? then Transfer(false, None, w)
    else
      var completed := SizeOrZero(w.fs, temp);
      var sent := RetryDownloader.Send(w, RangedRequest(url.s, completed));
      var w1 := sent.1;
      match sent.0
      case Unreachable(_) => Transfer(false, None, w1)
      case Response(status, h, chunks, end) =>
        if RequestsRaises(status) then Transfer(false, None, w1)
        else
          var offset := Loader.Offset(completed, status, h);
          var total := Some(h.contentLength.GetOr(0) + offset);
          if !Openable(w1.fs, temp) then Transfer(false, total, w1)
          else
            var start := if offset > 0 then w1.fs else Write(w1.fs, temp, []);
            var written := Append(start, temp, Flatten(chunks));
            if !end.Complete? then Transfer(false, total, w1.(fs := written))
            else match Rename(written, temp, full)
              case None => Transfer(false, total, w1.(fs := written))
              case Some(moved) => Transfer(true, total, w1.(fs := moved))
  }

  /** With the correction the final file holds what the server meant: the body alone when it
      restarted, the resumed bytes and the rest on a 206. */
  lemma CorrectedFileIsBody(w: World, url: Json, temp: Path, full: Path)
    requires url.JStr? && w.replies != [] && w.replies[0].Response?
    requires !RequestsRaises(w.replies[0].status) && Openable(w.fs, temp) && temp != full
    ensures var f := FetchCorrected(w, url, temp, full);
      var r := w.replies[0];
      f.ok ==>
        (IsFile(f.w.fs, full)
         && (r.status != 206 && !r.headers.acceptRanges ==> f.w.fs[full].data == Flatten(r.chunks))
         && (r.status == 206 ==> f.w.fs[full].data == Contents(w.fs, temp) + Flatten(r.chunks)))
  {
    var r := w.replies[0];
    var sent := RetryDownloader.Send(w, RangedRequest(url.s, SizeOrZero(w.fs, temp)));
    assert sent.0 == r && sent.1.fs == w.fs;
    var offset := Loader.Offset(SizeOrZero(w.fs, temp), r.status, r.headers);
    if offset == 0 {
      assert Contents(Write(w.fs, temp, []), temp) + Flatten(r.chunks) == Flatten(r.chunks);
    }
  }

  // ---------------------------------------------------------------------------------------
  // download

  /** What one call of download does: its answer (Err for an exception that escapes), the
      statistics and the world afterwards. */
  datatype Step = Step(r: Result<bool>, t: Tallies, w: World)

  /** download: the names, makedirs, the skip for an existing file, the skip message shown
      once, the removal under force (os.remove raises for a directory), then the try block
      and the counter it settles on. */
  function DownloadSpec(t: Tallies, w: World, dest: Path, force: bool, name: Option<string>,
                        url: Json, basename: Url -> string): Step
  {
    match LocalName(name, url, basename)
    case Err(e) => Step(Err(e), t, w)
    case Ok(local) =>
      Placed(t, w.(fs := MkDirs(w.fs, dest)), JoinName(dest, local), JoinName(dest, local + TempSuffix),
             force, url)
  }

  /** download once the folder exists and the two paths are known. */
  function Placed(t: Tallies, w: World, full: Path, temp: Path, force: bool, url: Json): Step {
    if !force && full in w.fs then Step(Ok(true), t.(c := t.c.(skipped := t.c.skipped + 1)), w)
    else Forced(SkipShown(t), w, full, temp, force, url)
  }

  /** The skip message is shown once there is something to report, then switched off. */
  function SkipShown(t: Tallies): Tallies {
    if t.c.skipped > 0 || t.c.skippedChapters > 0 then t.(printSkip := false) else t
  }

  /** The removal under force, where os.remove raises for a directory, then the try block. */
  function Forced(t: Tallies, w: World, full: Path, temp: Path, force: bool, url: Json): Step {
    if force && IsDir(w.fs, full) then Step(Err(OSError("Is a directory")), t, w)
    else
      var w1 := if force && full in w.fs then w.(fs := Remove(w.fs, full)) else w;
      Counted(t, Fetch(w1, url, temp, full))
  }

  /** The counter the try block settles on: success and True, or failure and False. */
  function Counted(t: Tallies, f: Transfer): Step {
    if f.ok then Step(Ok(true), t.(c := t.c.(success := t.c.success + 1)), f.w)
    else Step(Ok(false), t.(c := t.c.(failure := t.c.failure + 1)), f.w)
  }

  /** The temp file's name differs from the final one. */
  lemma TempDiffers(dest: Path, local: string)
    ensures JoinName(dest, local) != JoinName(dest, local + TempSuffix)
  {
    var temp := JoinName(dest, local + TempSuffix);
    assert local + TempSuffix != "" && local + TempSuffix != "." by {
      assert |local + TempSuffix| >= 5;
    }
    if local != "" && local != "." {
      assert Last(JoinName(dest, local)) != Last(temp) by {
        assert |local| < |local + TempSuffix|;
      }
    } else {
      assert |JoinName(dest, local)| < |temp|;
    }
  }

  /** An existing final file and no force: True, one more skipped image, and no request. */
  lemma ExistingFileSkipped(t: Tallies, w: World, dest: Path, name: Option<string>, url: Json,
                            basename: Url -> string)
    requires LocalName(name, url, basename).Ok?
    requires JoinName(dest, LocalName(name, url, basename).value) in MkDirs(w.fs, dest)
    ensures var s := DownloadSpec(t, w, dest, false, name, url, basename);
      s.r == Ok(true) && s.t == t.(c := t.c.(skipped := t.c.skipped + 1))
      && s.w.sent == w.sent && s.w.replies == w.replies
  {
  }

  /** An image entry that is null, an empty string or any other falsy value names the folder
      itself, which makedirs just created: without force it counts as skipped. */
  lemma FalsyUrlSkipped(t: Tallies, w: World, dest: Path, url: Json, basename: Url -> string)
    requires !Truthy(url) && basename("") == ""
    ensures var s := DownloadSpec(t, w, dest, false, None, url, basename);
      s.r == Ok(true) && s.t.c.skipped == t.c.skipped + 1 && s.w.sent == w.sent
  {
    assert LocalName(None, url, basename) == Ok("");
    assert dest in MkDirs(w.fs, dest);
  }

  /** With force, an existing final file is removed and the ranged request is sent. */
  lemma ForcedFileRemoved(t: Tallies, w: World, dest: Path, url: Json, basename: Url -> string)
    requires url.JStr? && basename(url.s) != "" && basename(url.s) != "."
    requires IsFile(MkDirs(w.fs, dest), dest + [basename(url.s)])
    ensures var s := DownloadSpec(t, w, dest, true, None, url, basename);
      var temp := dest + [basename(url.s) + TempSuffix];
      s.r.Ok? && s.w.sent == w.sent + [RangedRequest(url.s, SizeOrZero(MkDirs(w.fs, dest), temp))]
  {
    var local := basename(url.s);
    TempDiffers(dest, local);
    var fs0 := MkDirs(w.fs, dest);
    var temp := JoinName(dest, local + TempSuffix);
    assert temp == dest + [local + TempSuffix] by {
      assert |local + TempSuffix| >= 5;
    }
    var full := JoinName(dest, local);
    assert full == dest + [local];
    var w0 := w.(fs := fs0);
    var w1 := w0.(fs := Remove(fs0, full));
    assert LocalName(None, url, basename) == Ok(local);
    assert DownloadSpec(t, w, dest, true, None, url, basename) == Placed(t, w0, full, temp, true, url);
    assert !IsDir(w0.fs, full) && full in w0.fs;
    assert Placed(t, w0, full, temp, true, url) == Counted(SkipShown(t), Fetch(w1, url, temp, full));
    assert SizeOrZero(w1.fs, temp) == SizeOrZero(fs0, temp);
  }

  /** The image counters together. */
  function ImageCount(c: Counters): nat { c.success + c.failure + c.skipped }

  /** One call counts its image exactly once when it returns and not at all when it raises;
      a failure is counted exactly when False is returned. No chapter counter, no per-chapter
      failure counter and no all_images_downloaded flag ever changes. */
  predicate CountedOnce(t: Tallies, t': Tallies, r: Result<bool>) {
    && t'.c.(success := t.c.success, failure := t.c.failure, skipped := t.c.skipped) == t.c
    && t'.failureChapter == t.failureChapter && t'.allImages == t.allImages
    && (t'.printSkip ==> t.printSkip)
    && t.c.success <= t'.c.success && t.c.failure <= t'.c.failure && t.c.skipped <= t'.c.skipped
    && ImageCount(t'.c) == ImageCount(t.c) + (if r.Ok? then 1 else 0)
    && (t'.c.failure == t.c.failure + 1 <==> r == Ok(false))
  }

  /** counted: one image, a success or a failure. */
  lemma CountedTallies(t: Tallies, f: Transfer)
    ensures CountedOnce(t, Counted(t, f).t, Counted(t, f).r)
  {
  }

  /** The removal under force raises before anything is counted, or the transfer is counted. */
  lemma ForcedTallies(t: Tallies, w: World, full: Path, temp: Path, force: bool, url: Json)
    ensures var s := Forced(t, w, full, temp, force, url);
      CountedOnce(t, s.t, s.r)
  {
    if !(force && IsDir(w.fs, full)) {
      var w1 := if force && full in w.fs then w.(fs := Remove(w.fs, full)) else w;
      CountedTallies(t, Fetch(w1, url, temp, full));
    }
  }

  /** An existing file is counted as skipped; otherwise the skip message only turns its flag
      off before the transfer. */
  lemma PlacedTallies(t: Tallies, w: World, full: Path, temp: Path, force: bool, url: Json)
    ensures var s := Placed(t, w, full, temp, force, url);
      CountedOnce(t, s.t, s.r)
  {
    if force || full !in w.fs {
      var t1 := SkipShown(t);
      assert t1.c == t.c && t1.allImages == t.allImages && t1.failureChapter == t.failureChapter;
      ForcedTallies(t1, w, full, temp, force, url);
    }
  }

  lemma DownloadTallies(t: Tallies, w: World, dest: Path, force: bool, name: Option<string>,
                        url: Json, basename: Url -> string)
    ensures var s := DownloadSpec(t, w, dest, force, name, url, basename);
      CountedOnce(t, s.t, s.r)
  {
    var local := LocalName(name, url, basename);
    if local.Ok? {
      PlacedTallies(t, w.(fs := MkDirs(w.fs, dest)), JoinName(dest, local.value),
                    JoinName(dest, local.value + TempSuffix), force, url);
    }
  }

  // ---------------------------------------------------------------------------------------
  // download_files

  /** What download_files leaves behind: the first exception, or None. */
  datatype Batch = Batch(error: Option<Failure>, t: Tallies, w: World)

  /** The URLs in order, each through download, until one raises. */
  function DownloadAll(t: Tallies, w: World, dest: Path, force: bool, name: Option<string>,
                       urls: seq<Json>, basename: Url -> string): Batch
    decreases |urls|
  {
    if urls == [] then Batch(None, t, w)
    else
      var s := DownloadSpec(t, w, dest, force, name, urls[0], basename);
      if s.r.Err? then Batch(Some(s.r.error), s.t, s.w)
      else DownloadAll(s.t, s.w, dest, force, name, urls[1..], basename)
  }

  /** DownloadAll takes its first URL through download. */
  lemma DownloadAllFirst(t: Tallies, w: World, dest: Path, force: bool, name: Option<string>,
                         urls: seq<Json>, basename: Url -> string)
    requires urls != []
    ensures var s := DownloadSpec(t, w, dest, force, name, urls[0], basename);
      DownloadAll(t, w, dest, force, name, urls, basename) ==
      if s.r.Err? then Batch(Some(s.r.error), s.t, s.w)
      else DownloadAll(s.t, s.w, dest, force, name, urls[1..], basename)
  {
  }

  /** From t to t' only image counters moved, by at most n and by exactly n when nothing
      raised. */
  predicate ImagesOnly(t: Tallies, t': Tallies, n: nat, complete: bool) {
    && t'.c.(success := t.c.success, failure := t.c.failure, skipped := t.c.skipped) == t.c
    && t'.failureChapter == t.failureChapter && t'.allImages == t.allImages
    && t.c.failure <= t'.c.failure
    && ImageCount(t'.c) <= ImageCount(t.c) + n
    && (complete ==> ImageCount(t'.c) == ImageCount(t.c) + n)
  }

  /** A batch counts every image once when nothing raised, and never touches a chapter
      counter, the per-chapter failure counter or all_images_downloaded, however many images
      failed. */
  lemma {:induction false} BatchTallies(t: Tallies, w: World, dest: Path, force: bool, name: Option<string>,
                                        urls: seq<Json>, basename: Url -> string)
    ensures var b := DownloadAll(t, w, dest, force, name, urls, basename);
      ImagesOnly(t, b.t, |urls|, b.error.None?)
    decreases |urls|
  {
    if urls != [] {
      var s := DownloadSpec(t, w, dest, force, name, urls[0], basename);
      DownloadTallies(t, w, dest, force, name, urls[0], basename);
      if s.r.Ok? {
        BatchTallies(s.t, s.w, dest, force, name, urls[1..], basename);
      }
    }
  }

  // ---------------------------------------------------------------------------------------
  // The downloader

  class Downloader {
    const stats: StatsManager
    const downloadPath: Path
    const forceDownload: bool
    const name: Option<string>

    constructor (stats: StatsManager, downloadPath: Path, forceDownload: bool, name: Option<string>)
      ensures this.stats == stats && this.downloadPath == downloadPath
      ensures this.forceDownload == forceDownload && this.name == name
    {
      this.stats := stats;
      this.downloadPath := downloadPath;
      this.forceDownload := forceDownload;
      this.name := name;
    }

    /** The try block of download. */
    static method TryFetch(url: Json, temp: Path, full: Path, w: World)
      returns (ok: bool, total: Option<nat>, w': World)
      ensures Transfer(ok, total, w') == Fetch(w, url, temp, full)
    {
      ok, total, w' := false, None, w;
      if !url.JStr? {
        return;
      }
      var completed := SizeOrZero(w.fs, temp);
      var sent := RetryDownloader.Send(w, RangedRequest(url.s, completed));
      w' := sent.1;
      match sent.0 {
        case Unreachable(_) =>
        case Response(status, h, chunks, end) =>
          if RequestsRaises(status) {
            return;
          }
          total := Some(h.contentLength.GetOr(0) + completed);
          if !Openable(w'.fs, temp) {
            return;
          }
          var fs := Append(w'.fs, temp, []);
          fs := RetryDownloader.Downloader.WriteChunks(fs, temp, chunks);
          AppendTwice(w'.fs, temp, [], Flatten(chunks));
          assert [] + Flatten(chunks) == Flatten(chunks);
          w' := w'.(fs := fs);
          if !end.Complete? {
            return;
          }
          var moved := Rename(fs, temp, full);
          if moved.Some? {
            w' := w'.(fs := moved.value);
            ok := true;
          }
      }
    }

    /** download. */
    method Download(url: Json, w: World, basename: Url -> string) returns (r: Result<bool>, w': World)
      modifies stats
      ensures Step(r, stats.Tally(), w') ==
              DownloadSpec(old(stats.Tally()), w, downloadPath, forceDownload, name, url, basename)
    {
      var local := LocalName(name, url, basename);
      if local.Err? {
        return Err(local.error), w;
      }
      var full, temp := JoinName(downloadPath, local.value), JoinName(downloadPath, local.value + TempSuffix);
      r, w' := DownloadTo(full, temp, url, w.(fs := MkDirs(w.fs, downloadPath)));
    }

    /** download from `os.makedirs` on. */
    method DownloadTo(full: Path, temp: Path, url: Json, w: World) returns (r: Result<bool>, w': World)
      modifies stats
      ensures Step(r, stats.Tally(), w') == Placed(old(stats.Tally()), w, full, temp, forceDownload, url)
    {
      if !forceDownload && full in w.fs {
        stats.UpdateSkipped();
        return Ok(true), w;
      }
      if stats.skippedCount > 0 || stats.skippedChapters > 0 {
        var logged := stats.SkipMsg();
        stats.printSkipMsg := false;
      }
      r, w' := RemoveAndFetch(full, temp, url, w);
    }

    /** download from the removal under force on. */
    method RemoveAndFetch(full: Path, temp: Path, url: Json, w: World) returns (r: Result<bool>, w': World)
      modifies stats
      ensures Step(r, stats.Tally(), w') == Forced(old(stats.Tally()), w, full, temp, forceDownload, url)
    {
      w' := w;
      if forceDownload && full in w.fs {
        if IsDir(w.fs, full) {
          return Err(OSError("Is a directory")), w;
        }
        w' := w.(fs := Remove(w.fs, full));
      }
      var ok, total;
      ok, total, w' := TryFetch(url, temp, full, w');
      if ok {
        stats.UpdateSuccess();
        r := Ok(true);
      } else {
        stats.UpdateFailure();
        r := Ok(false);
      }
    }

    /** One turn of download_files' loop: the first URL, and either the exception it raised
        or what the loop does with the rest. */
    method DownloadNext(urls: seq<Json>, w: World, basename: Url -> string)
      returns (err: Option<Failure>, w': World)
      requires urls != []
      modifies stats
      ensures err.Some? ==>
        Batch(err, stats.Tally(), w') ==
        DownloadAll(old(stats.Tally()), w, downloadPath, forceDownload, name, urls, basename)
      ensures err.None? ==>
        DownloadAll(stats.Tally(), w', downloadPath, forceDownload, name, urls[1..], basename) ==
        DownloadAll(old(stats.Tally()), w, downloadPath, forceDownload, name, urls, basename)
    {
      DownloadAllFirst(stats.Tally(), w, downloadPath, forceDownload, name, urls, basename);
      var r;
      r, w' := Download(urls[0], w, basename);
      err := if r.Err? then Some(r.error) else None;
    }

    /** download_files: one download per URL, in order; an exception leaves the loop. */
    method DownloadFiles(urls: seq<Json>, w: World, basename: Url -> string)
      returns (err: Option<Failure>, w': World)
      modifies stats
      ensures Batch(err, stats.Tally(), w') ==
              DownloadAll(old(stats.Tally()), w, downloadPath, forceDownload, name, urls, basename)
    {
      w' := w;
      var rest := urls;
      while rest != []
        invariant DownloadAll(stats.Tally(), w', downloadPath, forceDownload, name, rest, basename) ==
                  DownloadAll(old(stats.Tally()), w, downloadPath, forceDownload, name, urls, basename)
        decreases |rest|
      {
        var r;
        r, w' := DownloadNext(rest, w', basename);
        if r.Some? {
          return r, w';
        }
        rest := rest[1..];
      }
      err := None;
    }

    /** download_file: True exactly when download returned True. */
    method DownloadFile(url: Json, w: World, basename: Url -> string) returns (r: Result<bool>, w': World)
      modifies stats
      ensures Step(r, stats.Tally(), w') ==
              DownloadSpec(old(stats.Tally()), w, downloadPath, forceDownload, name, url, basename)
    {
      r, w' := Download(url, w, basename);
    }
  }
}
