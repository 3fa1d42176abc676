/** The downloader of the first engine, MangaDM/ (MangaDM/downloader/downloader.py): the
    names, makedirs, Range header, append and rename of its successor, but no statistics.
    download answers None for a file that already exists, the file's name once the transfer
    is renamed into place, and False for a caught exception; download_files counts the
    truthy answers in Dsuccess and every answer in Dfailed. */
module FirstDownloader {
  import opened Wrappers
  import opened Json
  import opened FileSystem
  import opened Http
  import MangaDmDownloader

  /** The disk, the replies still to come, the requests sent and the sleeps taken. */
  type World = MangaDmDownloader.World

  /** What download returns: None, False, or the local file name. */
  datatype Answer = NoneAnswer | FalseAnswer | Named(name: string)

  /** Python's truth value of an answer: a non-empty name. */
  predicate Succeeded(a: Answer) { a.Named? && a.name != "" }

  /** What one call of download does: its answer (Err for an exception that escapes) and the
      world afterwards. */
  datatype Step = Step(r: Result<Answer>, w: World)

  /** download: the names, makedirs, then the rest once the two paths are known. */
  function DownloadSpec(w: World, dest: Path, force: bool, name: Option<string>, url: Json,
                        basename: Url -> string): Step
  {
    match MangaDmDownloader.LocalName(name, url, basename)
    case Err(e) => Step(Err(e), w)
    case Ok(local) =>
      Placed(w.(fs := MkDirs(w.fs, dest)), local, MangaDmDownloader.JoinName(dest, local),
             MangaDmDownloader.JoinName(dest, local + MangaDmDownloader.TempSuffix), force, url)
  }

  /** The skip for an existing file without force (a bare `return`), the removal under force
      (os.remove raises for a directory, outside the try), then the try block: the name
      after the rename, False for anything it caught. */
  function Placed(w: World, local: string, full: Path, temp: Path, force: bool, url: Json): Step {
    if !force && full in w.fs then Step(Ok(NoneAnswer), w)
    else if force && IsDir(w.fs, full) then Step(Err(OSError("Is a directory")), w)
    else
      var w1 := if force && full in w.fs then w.(fs := Remove(w.fs, full)) else w;
      var f := MangaDmDownloader.Fetch(w1, url, temp, full);
      Step(Ok(if f.ok then Named(local) else FalseAnswer), f.w)
  }

  /** An existing file without force answers None, which is falsy, and sends no request. */
  lemma ExistingFileAnswersNone(w: World, dest: Path, name: Option<string>, url: Json, basename: Url -> string)
    requires MangaDmDownloader.LocalName(name, url, basename).Ok?
    requires MangaDmDownloader.JoinName(dest, MangaDmDownloader.LocalName(name, url, basename).value)
             in MkDirs(w.fs, dest)
    ensures var s := DownloadSpec(w, dest, false, name, url, basename);
      s == Step(Ok(NoneAnswer), w.(fs := MkDirs(w.fs, dest))) && !Succeeded(s.r.value)
  {
  }

  /** The answer names the file: a name is only ever the local name, and it is truthy unless
      the destination is a file. */
  lemma AnswerNamesFile(w: World, dest: Path, force: bool, name: Option<string>, url: Json,
                        basename: Url -> string)
    ensures var s := DownloadSpec(w, dest, force, name, url, basename);
      s.r.Ok? && s.r.value.Named? ==>
        && MangaDmDownloader.LocalName(name, url, basename) == Ok(s.r.value.name)
        && (!IsFile(w.fs, dest) ==> s.r.value.name != "" && s.r.value.name != "." && Succeeded(s.r.value))
  {
    var local := MangaDmDownloader.LocalName(name, url, basename);
    if local.Ok? {
      var fs := MkDirs(w.fs, dest);
      var full := MangaDmDownloader.JoinName(dest, local.value);
      PlacedNamed(w.(fs := fs), local.value, full,
                  MangaDmDownloader.JoinName(dest, local.value + MangaDmDownloader.TempSuffix), force, url);
      if (local.value == "" || local.value == ".") && !IsFile(w.fs, dest) {
        assert full == dest && IsDir(fs, dest);
      }
    }
  }

  /** A name is answered only for a path that was free or, under force, held a file. */
  lemma PlacedNamed(w: World, local: string, full: Path, temp: Path, force: bool, url: Json)
    ensures var s := Placed(w, local, full, temp, force, url);
      s.r.Ok? && s.r.value.Named? ==> s.r.value.name == local && !IsDir(w.fs, full)
  {
  }

  /** When the file is fetched, the one request carries `Range: bytes=<size>-` from the temp
      file as it was before the removal under force. */
  lemma RequestCarriesRange(w: World, dest: Path, force: bool, url: Json, basename: Url -> string)
    requires url.JStr?
    requires var local := basename(url.s);
      var full := MangaDmDownloader.JoinName(dest, local);
      (force || full !in MkDirs(w.fs, dest)) && !(force && IsDir(MkDirs(w.fs, dest), full))
    ensures var local := basename(url.s);
      var temp := MangaDmDownloader.JoinName(dest, local + MangaDmDownloader.TempSuffix);
      var s := DownloadSpec(w, dest, force, None, url, basename);
      s.r.Ok? && s.r.value != NoneAnswer
      && s.w.sent == w.sent + [MangaDmDownloader.RangedRequest(url.s, SizeOrZero(MkDirs(w.fs, dest), temp))]
  {
    var local := basename(url.s);
    var fs := MkDirs(w.fs, dest);
    var full := MangaDmDownloader.JoinName(dest, local);
    var temp := MangaDmDownloader.JoinName(dest, local + MangaDmDownloader.TempSuffix);
    MangaDmDownloader.TempDiffers(dest, local);
    assert SizeOrZero(Remove(fs, full), temp) == SizeOrZero(fs, temp) by {
      assert Contents(Remove(fs, full), temp) == Contents(fs, temp);
    }
    assert MangaDmDownloader.LocalName(None, url, basename) == Ok(local);
    var w0 := w.(fs := fs);
    var w1 := if force && full in fs then w0.(fs := Remove(fs, full)) else w0;
    assert SizeOrZero(w1.fs, temp) == SizeOrZero(fs, temp) && w1.sent == w.sent;
    var f := MangaDmDownloader.Fetch(w1, url, temp, full);
    assert DownloadSpec(w, dest, force, None, url, basename)
        == Step(Ok(if f.ok then Named(local) else FalseAnswer), f.w);
  }

  // ---------------------------------------------------------------------------------------
  // download_files

  /** The pair download_files returns. */
  datatype Counts = Counts(success: nat, failed: nat)

  /** What download_files leaves: the pair, or the exception that left the loop, and the
      world. */
  datatype Batch = Batch(r: Result<Counts>, w: World)

  /** download with its folder, force flag, name and URL decoding fixed: the answer for one
      URL in a given world. */
  type Fetcher = (World, Json) -> Step

  function Downloading(dest: Path, force: bool, name: Option<string>, basename: Url -> string): Fetcher {
    (w: World, url: Json) => DownloadSpec(w, dest, force, name, url, basename)
  }

  /** The loop of download_files from the URLs still to go, with the counters so far: Dsuccess
      goes up for a truthy answer, Dfailed for every answer. */
  function DownloadFrom(w: World, urls: seq<Json>, success: nat, failed: nat, dl: Fetcher): (b: Batch)
    ensures b.r.Ok? ==> b.r.value.failed == failed + |urls|
    ensures b.r.Ok? ==> success <= b.r.value.success <= success + |urls|
    decreases |urls|
  {
    if urls == [] then Batch(Ok(Counts(success, failed)), w)
    else
      var s := dl(w, urls[0]);
      if s.r.Err? then Batch(Err(s.r.error), s.w)
      else DownloadFrom(s.w, urls[1..], success + (if Succeeded(s.r.value) then 1 else 0), failed + 1, dl)
  }

  /** download_files over all the URLs, both counters from 0. */
  function DownloadFilesSpec(w: World, dest: Path, force: bool, name: Option<string>, urls: seq<Json>,
                             basename: Url -> string): Batch
  {
    DownloadFrom(w, urls, 0, 0, Downloading(dest, force, name, basename))
  }

  /** The answers download gives, URL by URL, up to the first exception. */
  function Answers(w: World, urls: seq<Json>, dl: Fetcher): seq<Answer>
    decreases |urls|
  {
    if urls == [] then []
    else
      var s := dl(w, urls[0]);
      if s.r.Err? then [] else [s.r.value] + Answers(s.w, urls[1..], dl)
  }

  /** The truthy answers. */
  function Successes(answers: seq<Answer>): (n: nat)
    ensures n <= |answers|
  {
    if answers == [] then 0 else (if Succeeded(answers[0]) then 1 else 0) + Successes(answers[1..])
  }

  /** The False answers. */
  function Failures(answers: seq<Answer>): (n: nat)
    ensures n <= |answers|
  {
    if answers == [] then 0 else (if answers[0] == FalseAnswer then 1 else 0) + Failures(answers[1..])
  }

  /** The loop from some counters on adds the truthy answers to Dsuccess and every URL to
      Dfailed. */
  lemma {:induction false} DownloadFromCounts(w: World, urls: seq<Json>, success: nat, failed: nat, dl: Fetcher)
    ensures var b := DownloadFrom(w, urls, success, failed, dl);
      var answers := Answers(w, urls, dl);
      b.r.Ok? ==> |answers| == |urls| && b.r.value == Counts(success + Successes(answers), failed + |urls|)
    decreases |urls|
  {
    if urls != [] {
      var s := dl(w, urls[0]);
      if s.r.Ok? {
        var inc := if Succeeded(s.r.value) then 1 else 0;
        DownloadFromCounts(s.w, urls[1..], success + inc, failed + 1, dl);
        var answers := Answers(w, urls, dl);
        assert answers[0] == s.r.value && answers[1..] == Answers(s.w, urls[1..], dl);
      }
    }
  }

  /** As written: the failure counter is the number of URLs, whatever the downloads did, and
      the success counter the number of truthy answers, so a skipped file is in Dfailed. */
  lemma FailedIsLength(w: World, dest: Path, force: bool, name: Option<string>, urls: seq<Json>,
                       basename: Url -> string)
    ensures var b := DownloadFilesSpec(w, dest, force, name, urls, basename);
      var answers := Answers(w, urls, Downloading(dest, force, name, basename));
      b.r.Ok? ==>
        && b.r.value.failed == |urls|
        && b.r.value.success == Successes(answers) <= |urls|
        && (b.r.value.failed == 0 <==> urls == [])
  {
    DownloadFromCounts(w, urls, 0, 0, Downloading(dest, force, name, basename));
  }

  /** Corrected: Dfailed counts only the downloads that answered False. */
  function DownloadFromCorrected(w: World, urls: seq<Json>, success: nat, failed: nat, dl: Fetcher): Batch
    decreases |urls|
  {
    if urls == [] then Batch(Ok(Counts(success, failed)), w)
    else
      var s := dl(w, urls[0]);
      if s.r.Err? then Batch(Err(s.r.error), s.w)
      else
        DownloadFromCorrected(s.w, urls[1..], success + (if Succeeded(s.r.value) then 1 else 0),
                              failed + (if s.r.value == FalseAnswer then 1 else 0), dl)
  }

  /** With the correction the pair is (truthy answers, False answers): skipped files count in
      neither, and the loop downloads what the loop as written downloads. */
  lemma {:induction false} CorrectedCounts(w: World, urls: seq<Json>, success: nat, failed: nat, other: nat,
                                           dl: Fetcher)
    ensures var b := DownloadFromCorrected(w, urls, success, failed, dl);
      var answers := Answers(w, urls, dl);
      (b.r.Ok? ==> |answers| == |urls| && b.r.value == Counts(success + Successes(answers), failed + Failures(answers)))
      && b.w == DownloadFrom(w, urls, success, other, dl).w
      && (b.r.Err? <==> DownloadFrom(w, urls, success, other, dl).r.Err?)
    decreases |urls|
  {
    if urls != [] {
      var s := dl(w, urls[0]);
      if s.r.Ok? {
        var inc := if Succeeded(s.r.value) then 1 else 0;
        var finc := if s.r.value == FalseAnswer then 1 else 0;
        CorrectedCounts(s.w, urls[1..], success + inc, failed + finc, other + 1, dl);
        var answers := Answers(w, urls, dl);
        assert answers[0] == s.r.value && answers[1..] == Answers(s.w, urls[1..], dl);
      }
    }
  }

  /** The corrected pair never counts more answers than there are URLs, and counts all of
      them exactly when no file was skipped. */
  lemma {:induction false} CountedAnswers(answers: seq<Answer>)
    ensures Successes(answers) + Failures(answers) <= |answers|
    ensures (forall i :: 0 <= i < |answers| ==> Succeeded(answers[i]) || answers[i] == FalseAnswer) ==>
            Successes(answers) + Failures(answers) == |answers|
  {
    if answers != [] {
      CountedAnswers(answers[1..]);
      if forall i :: 0 <= i < |answers| ==> Succeeded(answers[i]) || answers[i] == FalseAnswer {
        assert forall i :: 0 <= i < |answers[1..]| ==>
          Succeeded(answers[1..][i]) || answers[1..][i] == FalseAnswer by {
          forall i | 0 <= i < |answers[1..]| ensures Succeeded(answers[1..][i]) || answers[1..][i] == FalseAnswer {
            assert answers[1..][i] == answers[i + 1];
          }
        }
      }
    }
  }

  // ---------------------------------------------------------------------------------------
  // The downloader

  class Downloader {
    const downloadPath: Path
    const forceDownload: bool
    const name: Option<string>

    /** The session is not modelled. */
    constructor (downloadPath: Path, forceDownload: bool, name: Option<string>)
      ensures this.downloadPath == downloadPath && this.forceDownload == forceDownload && this.name == name
    {
      this.downloadPath := downloadPath;
      this.forceDownload := forceDownload;
      this.name := name;
    }

    /** download. */
    method Download(url: Json, w: World, basename: Url -> string) returns (r: Result<Answer>, w': World)
      ensures Step(r, w') == DownloadSpec(w, downloadPath, forceDownload, name, url, basename)
    {
      var local := MangaDmDownloader.LocalName(name, url, basename);
      if local.Err? {
        return Err(local.error), w;
      }
      var full := MangaDmDownloader.JoinName(downloadPath, local.value);
      var temp := MangaDmDownloader.JoinName(downloadPath, local.value + MangaDmDownloader.TempSuffix);
      r, w' := DownloadTo(local.value, full, temp, url, w.(fs := MkDirs(w.fs, downloadPath)));
    }

    /** download from the skip on. */
    method DownloadTo(local: string, full: Path, temp: Path, url: Json, w: World)
      returns (r: Result<Answer>, w': World)
      ensures Step(r, w') == Placed(w, local, full, temp, forceDownload, url)
    {
      if !forceDownload && full in w.fs {
        return Ok(NoneAnswer), w;
      }
      w' := w;
      if forceDownload && full in w.fs {
        if IsDir(w.fs, full) {
          return Err(OSError("Is a directory")), w;
        }
        w' := w.(fs := Remove(w.fs, full));
      }
      var ok, total;
      ok, total, w' := MangaDmDownloader.Downloader.TryFetch(url, temp, full, w');
      r := if ok then Ok(Named(local)) else Ok(FalseAnswer);
    }

    /** download_files: one download per URL, in order; an exception leaves the loop and the
        counters are lost with it. */
    method DownloadFiles(urls: seq<Json>, w: World, basename: Url -> string)
      returns (r: Result<Counts>, w': World)
      ensures Batch(r, w') == DownloadFilesSpec(w, downloadPath, forceDownload, name, urls, basename)
    {
      var dsuccess, dfailed := 0, 0;
      w' := w;
      var rest := urls;
      while rest != []
        invariant DownloadFrom(w', rest, dsuccess, dfailed, Downloading(downloadPath, forceDownload, name, basename)) ==
                  DownloadFilesSpec(w, downloadPath, forceDownload, name, urls, basename)
        decreases |rest|
      {
        var a;
        a, w' := Download(rest[0], w', basename);
        if a.Err? {
          return Err(a.error), w';
        }
        if Succeeded(a.value) {
          dsuccess := dsuccess + 1;
        }
        dfailed := dfailed + 1;
        rest := rest[1..];
      }
      r := Ok(Counts(dsuccess, dfailed));
    }

    /** download_file: True exactly when download answered a truthy name. */
    method DownloadFile(url: Json, w: World, basename: Url -> string) returns (r: Result<bool>, w': World)
      ensures var s := DownloadSpec(w, downloadPath, forceDownload, name, url, basename);
        w' == s.w && (r.Err? <==> s.r.Err?) && (r.Err? ==> r.error == s.r.error)
        && (r.Ok? ==> (r.value <==> Succeeded(s.r.value)))
    {
      var a;
      a, w' := Download(url, w, basename);
      if a.Err? {
        return Err(a.error), w';
      }
      r := Ok(Succeeded(a.value));
    }
  }
}
