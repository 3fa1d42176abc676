/** The `mangadm/` engine's image downloader (src/mangadm/core/downloader.py): a resumable
    transfer into a `_tmp` file, retried by an attempt counter that classifies every failure
    as retry, placeholder ("damaged") or give-up, with an exponential backoff whose base is
    capped.

    The outside world is one value: the disk, the replies the server will give to the
    requests still to come (a request past the last one finds no server), the requests sent
    and the base delays slept. */
module RetryDownloader {
  import opened Wrappers
  import opened Strings
  import opened FileSystem
  import opened Http
  import opened LegacyStats
  import opened LegacyUtility
  import Loader

  // ---------------------------------------------------------------------------------------
  // Backoff

  function Pow(b: nat, e: nat): (r: nat)
    ensures b >= 1 ==> r >= 1
  {
    if e == 0 then 1 else b * Pow(b, e - 1)
  }

  lemma {:induction false} PowMonotone(b: nat, e1: nat, e2: nat)
    requires b >= 1 && e1 <= e2
    ensures Pow(b, e1) <= Pow(b, e2)
    decreases e2
  {
    if e1 < e2 {
      PowMonotone(b, e1, e2 - 1);
      MulGrows(b, Pow(b, e2 - 1));
    }
  }

  lemma MulGrows(b: nat, p: nat)
    requires b >= 1
    ensures p <= b * p
  {
  }

  /** delay's defaults. */
  const MaxDelay: nat := 30
  const Base: nat := 2

  /** The delay before jitter: min(base ** attempt, max_delay). */
  function BaseDelay(attempt: nat, maxDelay: nat, base: nat): (d: nat)
    ensures d <= maxDelay && d <= Pow(base, attempt)
    ensures d == maxDelay || d == Pow(base, attempt)
  {
    if Pow(base, attempt) < maxDelay then Pow(base, attempt) else maxDelay
  }

  /** The base delay never exceeds the cap and never shrinks as the attempts go up. */
  lemma BaseDelayMonotoneCapped(a1: nat, a2: nat, maxDelay: nat, base: nat)
    requires base >= 1 && a1 <= a2
    ensures BaseDelay(a1, maxDelay, base) <= BaseDelay(a2, maxDelay, base) <= maxDelay
  {
    PowMonotone(base, a1, a2);
  }

  /** The delay slept before retry number `attempt`, with the defaults. */
  function Delay(attempt: nat): (d: nat)
    ensures 1 <= d <= MaxDelay
  {
    BaseDelay(attempt, MaxDelay, Base)
  }

  // ---------------------------------------------------------------------------------------
  // The outside world

  datatype World = World(fs: FS, replies: seq<Reply>, sent: seq<Request>, sleeps: seq<nat>)

  /** session.get: the next reply, or a connection error once the server has nothing left. */
  function Send(w: World, q: Request): (r: (Reply, World))
    ensures r.1 == w.(replies := r.1.replies, sent := w.sent + [q])
    ensures w.replies != [] ==> r.0 == w.replies[0] && r.1.replies == w.replies[1..]
    ensures w.replies == [] ==> r.0 == Unreachable(RequestFault) && r.1.replies == []
  {
    if w.replies == [] then (Unreachable(RequestFault), w.(sent := w.sent + [q]))
    else (w.replies[0], w.(replies := w.replies[1..], sent := w.sent + [q]))
  }

  function Slept(w: World, attempt: nat): World {
    w.(sleeps := w.sleeps + [Delay(attempt)])
  }

  // ---------------------------------------------------------------------------------------
  // One attempt: _download_content

  /** The exceptions that reach _handle_request_exception: an HTTPError from
      raise_for_status, or another requests exception (connection, timeout, ...). */
  datatype RequestError = HttpStatus(status: int) | Transport

  /** How one call of _download_content ends. */
  datatype Attempt =
    | Fetched                       // returned True
    | Chunked                       // ChunkedEncodingError
    | RequestFailed(e: RequestError)
    | LocalFailed                   // IOError on the local file
    | UnexpectedFailed              // any other exception

  /** The attempt, the total shown by the progress bar and the world afterwards. */
  datatype Fetch = Fetch(attempt: Attempt, total: Option<nat>, w: World)

  const TempSuffix: string := "_tmp"

  /** _download_content: the Range decision, raise_for_status (requests raises for 4xx and
      5xx), the restart when ranges are not honoured, the body written chunk by chunk, and on
      completion Utility.rename, whose answer is ignored. */
  function Content(w: World, url: Url, temp: Path, final: Path): (f: Fetch)
    ensures f.w.sleeps == w.sleeps
    ensures f.w.sent == w.sent + [Loader.ResumeRequest(url, SizeOrZero(w.fs, temp))]
    ensures |f.w.replies| <= |w.replies|
    ensures f.attempt.Chunked? ==> |f.w.replies| < |w.replies|
  {
    var completed := SizeOrZero(w.fs, temp);
    var sent := Send(w, Loader.ResumeRequest(url, completed));
    var w1 := sent.1;
    match sent.0
    case Unreachable(fault) =>
      Fetch(if fault.RequestFault? then RequestFailed(Transport) else UnexpectedFailed, None, w1)
    case Response(status, h, chunks, end) =>
      if RequestsRaises(status) then Fetch(RequestFailed(HttpStatus(status)), None, w1)
      else
        var offset := Loader.Offset(completed, status, h);
        var total := Loader.TotalSize(h, offset);
        if !Openable(w1.fs, temp) then Fetch(LocalFailed, total, w1)
        else
          var truncated := if offset > 0 then w1.fs else Write(w1.fs, temp, []);
          var written := Append(truncated, temp, Flatten(chunks));
          match end
          case Complete => Fetch(Fetched, total, w1.(fs := RenameIfFree(written, temp, final).1))
          case ChunkedBreak => Fetch(Chunked, total, w1.(fs := written))
          case StreamFault(fault) =>
            Fetch(if fault.RequestFault? then RequestFailed(Transport) else UnexpectedFailed, total, w1.(fs := written))
          case DiskFault => Fetch(LocalFailed, total, w1.(fs := written))
  }

  /** Where neither library raises and the final path is free, a completed attempt leaves the
      disk exactly as the current engine's slide loader does: same resume offset, same
      truncation, same bytes, same rename. */
  lemma ContentAgreesWithSlideLoader(w: World, url: Url, temp: Path, final: Path, ph: seq<Byte>)
    requires w.replies != [] && w.replies[0].Response? && w.replies[0].status < 400
    requires w.replies[0].end.Complete? && Openable(w.fs, temp)
    requires final !in w.fs && |temp| == |final| && temp != final
    ensures Content(w, url, temp, final).attempt == Fetched
    ensures Content(w, url, temp, final).w.fs ==
            Loader.Transfer(ph, w.fs, temp, final, url, w.replies[0]).fs
    ensures Content(w, url, temp, final).total ==
            Loader.Transfer(ph, w.fs, temp, final, url, w.replies[0]).total
  {
    SameLengthNotNested(temp, final);
  }

  // ---------------------------------------------------------------------------------------
  // The retry policy: _handle_request_exception and _attempt_download

  datatype Handling = Retry | GiveUp | Damaged

  /** _handle_request_exception: 401/403/404 replace the image, a status of 500 or more gives
      up at once, anything else gives up on the last attempt and is retried before it. */
  function Handle(e: RequestError, attempt: int, maxRetries: int): (h: Handling)
    ensures h == Damaged <==> e.HttpStatus? && IsGone(e.status)
    ensures e.HttpStatus? && e.status >= 500 ==> h == GiveUp
    ensures h == Retry <==>
      !(e.HttpStatus? && (IsGone(e.status) || e.status >= 500)) && attempt != maxRetries
  {
    if e.HttpStatus? && IsGone(e.status) then Damaged
    else if e.HttpStatus? && e.status >= 500 then GiveUp
    else if attempt == maxRetries then GiveUp
    else Retry
  }

  /** What download returns: True, False or the string "damaged" (which is truthy). */
  datatype Returned = ReturnedTrue | ReturnedFalse | ReturnedDamaged

  /** s begins with t. */
  predicate Extends(s: seq<Request>, t: seq<Request>) {
    |t| <= |s| && s[..|t|] == t
  }

  lemma ExtendsPrefix(s: seq<Request>, t: seq<Request>, u: seq<Request>)
    requires Extends(s, t + u)
    ensures Extends(s, t)
  {
    assert s[..|t|] == s[..|t + u|][..|t|];
  }

  /** The iterations of _attempt_download's loop from `attempt` on. A ChunkedEncodingError
      sleeps and tries again with the same attempt number; a retried request error with the
      next one; an IOError unlinks the temp file (a failing unlink is suppressed). */
  function Loop(w: World, url: Url, temp: Path, final: Path, ph: seq<Byte>, attempt: nat, maxRetries: int)
    : (r: (Returned, World))
    ensures attempt > maxRetries ==> r == (ReturnedFalse, w)
    ensures attempt <= maxRetries ==> Extends(r.1.sent, w.sent + [Loader.ResumeRequest(url, SizeOrZero(w.fs, temp))])
    decreases |w.replies|, if attempt <= maxRetries then maxRetries - attempt + 1 else 0
  {
    if attempt > maxRetries then (ReturnedFalse, w)
    else
      var f := Content(w, url, temp, final);
      match f.attempt
      case Fetched => (ReturnedTrue, f.w)
      case Chunked =>
        var r := Loop(Slept(f.w, attempt), url, temp, final, ph, attempt, maxRetries);
        ExtendsPrefix(r.1.sent, f.w.sent, [Loader.ResumeRequest(url, SizeOrZero(f.w.fs, temp))]);
        r
      case RequestFailed(e) =>
        (match Handle(e, attempt, maxRetries)
         case Damaged => (ReturnedDamaged, f.w.(fs := Write(f.w.fs, final, ph)))
         case GiveUp => (ReturnedFalse, f.w)
         case Retry =>
           var r := Loop(Slept(f.w, attempt), url, temp, final, ph, attempt + 1, maxRetries);
           if attempt + 1 <= maxRetries then
             ExtendsPrefix(r.1.sent, f.w.sent, [Loader.ResumeRequest(url, SizeOrZero(f.w.fs, temp))]); r
           else r)
      case LocalFailed =>
        (ReturnedFalse, f.w.(fs := if IsFile(f.w.fs, temp) then Remove(f.w.fs, temp) else f.w.fs))
      case UnexpectedFailed => (ReturnedFalse, f.w)
  }

  /** "damaged" always leaves the placeholder image at the final path. */
  lemma {:induction false} DamagedWritesPlaceholder(w: World, url: Url, temp: Path, final: Path, ph: seq<Byte>,
                                                    attempt: nat, maxRetries: int)
    requires Loop(w, url, temp, final, ph, attempt, maxRetries).0 == ReturnedDamaged
    ensures IsFile(Loop(w, url, temp, final, ph, attempt, maxRetries).1.fs, final)
    ensures Contents(Loop(w, url, temp, final, ph, attempt, maxRetries).1.fs, final) == ph
    decreases |w.replies|, if attempt <= maxRetries then maxRetries - attempt + 1 else 0
  {
    var f := Content(w, url, temp, final);
    if f.attempt.Chunked? {
      DamagedWritesPlaceholder(Slept(f.w, attempt), url, temp, final, ph, attempt, maxRetries);
    } else if f.attempt.RequestFailed? && Handle(f.attempt.e, attempt, maxRetries) == Retry {
      DamagedWritesPlaceholder(Slept(f.w, attempt), url, temp, final, ph, attempt + 1, maxRetries);
    }
  }

  /** A server error ends the loop at once, whatever attempts remain: one request, no sleep. */
  lemma ServerErrorGivesUp(w: World, url: Url, temp: Path, final: Path, ph: seq<Byte>,
                           attempt: nat, maxRetries: int)
    requires attempt <= maxRetries
    requires w.replies != [] && w.replies[0].Response? && 500 <= w.replies[0].status < 600
    ensures Loop(w, url, temp, final, ph, attempt, maxRetries).0 == ReturnedFalse
    ensures Loop(w, url, temp, final, ph, attempt, maxRetries).1 == Content(w, url, temp, final).w
    ensures |Loop(w, url, temp, final, ph, attempt, maxRetries).1.sent| == |w.sent| + 1
  {
    assert Content(w, url, temp, final).attempt == RequestFailed(HttpStatus(w.replies[0].status));
  }

  /** No reply breaks its chunked encoding. */
  predicate NoBrokenChunks(replies: seq<Reply>) {
    forall k :: 0 <= k < |replies| ==> !(replies[k].Response? && replies[k].end == ChunkedBreak)
  }

  /** Without chunked-encoding breaks, the loop sends at most max_retries - attempt + 1
      requests: each further request needs a retry, and each retry uses up an attempt. */
  lemma {:induction false} RequestsBounded(w: World, url: Url, temp: Path, final: Path, ph: seq<Byte>,
                                           attempt: nat, maxRetries: int)
    requires NoBrokenChunks(w.replies)
    ensures |Loop(w, url, temp, final, ph, attempt, maxRetries).1.sent| - |w.sent|
            <= if attempt <= maxRetries then maxRetries - attempt + 1 else 0
    decreases |w.replies|, if attempt <= maxRetries then maxRetries - attempt + 1 else 0
  {
    if attempt <= maxRetries {
      var f := Content(w, url, temp, final);
      if w.replies != [] {
        assert !(w.replies[0].Response? && w.replies[0].end == ChunkedBreak);
        assert forall k :: 0 <= k < |w.replies[1..]| ==> w.replies[1..][k] == w.replies[k + 1];
      }
      assert f.w.replies == [] || f.w.replies == w.replies[1..];
      if f.attempt.RequestFailed? && Handle(f.attempt.e, attempt, maxRetries) == Retry {
        RequestsBounded(Slept(f.w, attempt), url, temp, final, ph, attempt + 1, maxRetries);
      }
    }
  }

  /** A reply that gets past raise_for_status and then breaks its chunked encoding. */
  predicate BrokenChunk(r: Reply) {
    r.Response? && !RequestsRaises(r.status) && r.end == ChunkedBreak
  }

  /** A chunk break sends the request again with the same attempt number, over the partial
      temp file it left. */
  lemma ChunkBreakRetriesSameAttempt(w: World, url: Url, temp: Path, final: Path, ph: seq<Byte>,
                                     attempt: nat, maxRetries: int)
    requires attempt <= maxRetries && Openable(w.fs, temp)
    requires w.replies != [] && BrokenChunk(w.replies[0])
    ensures var f := Content(w, url, temp, final);
      f.attempt == Chunked && Openable(f.w.fs, temp) && f.w.replies == w.replies[1..]
      && |f.w.sent| == |w.sent| + 1
      && Loop(w, url, temp, final, ph, attempt, maxRetries)
         == Loop(Slept(f.w, attempt), url, temp, final, ph, attempt, maxRetries)
  {
    assert temp != [] && Parent(temp) != temp;
  }

  /** The retry count does not bound the requests: k chunk breaks in a row cost k requests,
      all at the same attempt, and the loop still sends one more. */
  lemma {:induction false} ChunkBreaksUnbounded(w: World, url: Url, temp: Path, final: Path, ph: seq<Byte>,
                                                attempt: nat, maxRetries: int, k: nat)
    requires attempt <= maxRetries && Openable(w.fs, temp)
    requires k <= |w.replies| && forall i :: 0 <= i < k ==> BrokenChunk(w.replies[i])
    ensures |Loop(w, url, temp, final, ph, attempt, maxRetries).1.sent| >= |w.sent| + k + 1
    decreases k
  {
    if k > 0 {
      ChunkBreakRetriesSameAttempt(w, url, temp, final, ph, attempt, maxRetries);
      var w1 := Slept(Content(w, url, temp, final).w, attempt);
      assert forall i :: 0 <= i < k - 1 ==> w1.replies[i] == w.replies[i + 1];
      ChunkBreaksUnbounded(w1, url, temp, final, ph, attempt, maxRetries, k - 1);
    }
  }

  predicate NonDecreasing(s: seq<nat>) {
    forall i, j :: 0 <= i <= j < |s| ==> s[i] <= s[j]
  }

  /** The sleeps so far end at or below the delay of the given attempt. */
  predicate EndsBelow(s: seq<nat>, attempt: nat) {
    s == [] || s[|s| - 1] <= Delay(attempt)
  }

  /** The backoff never shrinks and never exceeds 30 seconds: every sleep uses the current
      attempt number, which only goes up. */
  lemma {:induction false} SleepsGrowCapped(w: World, url: Url, temp: Path, final: Path, ph: seq<Byte>,
                                            attempt: nat, maxRetries: int)
    requires NonDecreasing(w.sleeps) && EndsBelow(w.sleeps, attempt)
    requires forall k :: 0 <= k < |w.sleeps| ==> w.sleeps[k] <= MaxDelay
    ensures NonDecreasing(Loop(w, url, temp, final, ph, attempt, maxRetries).1.sleeps)
    ensures forall k :: 0 <= k < |Loop(w, url, temp, final, ph, attempt, maxRetries).1.sleeps| ==>
              Loop(w, url, temp, final, ph, attempt, maxRetries).1.sleeps[k] <= MaxDelay
    decreases |w.replies|, if attempt <= maxRetries then maxRetries - attempt + 1 else 0
  {
    if attempt <= maxRetries {
      var f := Content(w, url, temp, final);
      var retried := f.attempt.RequestFailed? && Handle(f.attempt.e, attempt, maxRetries) == Retry;
      if f.attempt.Chunked? || retried {
        var next := if f.attempt.Chunked? then attempt else attempt + 1;
        var w1 := Slept(f.w, attempt);
        BaseDelayMonotoneCapped(attempt, next, MaxDelay, Base);
        assert w1.sleeps == w.sleeps + [Delay(attempt)];
        SleepsGrowCapped(w1, url, temp, final, ph, next, maxRetries);
      }
    }
  }

  /** An IOError (here a disk failure while writing the body) removes the temp file and gives
      up. */
  lemma DiskFaultUnlinks(w: World, url: Url, temp: Path, final: Path, ph: seq<Byte>,
                         attempt: nat, maxRetries: int)
    requires attempt <= maxRetries && Openable(w.fs, temp)
    requires w.replies != [] && w.replies[0].Response? && w.replies[0].status < 400
    requires w.replies[0].end == DiskFault
    ensures Loop(w, url, temp, final, ph, attempt, maxRetries).0 == ReturnedFalse
    ensures temp !in Loop(w, url, temp, final, ph, attempt, maxRetries).1.fs
  {
    var f := Content(w, url, temp, final);
    assert f.attempt == LocalFailed && IsFile(f.w.fs, temp);
  }

  // ---------------------------------------------------------------------------------------
  // download: the file name and the existing-file check

  /** `name or f"{img_count:03}.{ext}"`: a missing or empty name falls back to the index;
      formatting None with a width raises TypeError. */
  function FileName(name: Option<string>, imgCount: Option<nat>, ext: string): (r: Result<string>)
    ensures name.Some? && name.value != "" ==> r == Ok(name.value)
    ensures (name.None? || name.value == "") && imgCount.Some? ==>
              r == Ok(ZeroPad(imgCount.value, 3) + "." + ext)
    ensures r.Err? <==> (name.None? || name.value == "") && imgCount.None?
  {
    if name.Some? && name.value != "" then Ok(name.value)
    else if imgCount.Some? then Ok(ZeroPad(imgCount.value, 3) + "." + ext)
    else Err(TypeError("unsupported format string passed to NoneType.__format__"))
  }

  /** An index-derived name splits back into the three-digit index and the extension. */
  lemma IndexFileNameParts(i: nat, ext: string)
    requires '.' !in ext
    ensures var n := FileName(None, Some(i), ext).value;
      ExtFromName(n) == ext && DigitsValue(n[..|n| - |ext| - 1]) == i && |n| >= 3 + 1 + |ext|
  {
    var z := ZeroPad(i, 3);
    var n := z + "." + ext;
    assert FileName(None, Some(i), ext).value == n;
    ExtOfImageName(z, ext);
    assert |n| - |ext| - 1 == |z| >= 3;
    assert n[..|z|] == z;
  }

  /** The statistics the downloader touches: the counters and the two flags. */
  datatype Tallies = Tallies(c: Counters, allImages: bool, printSkip: bool)

  /** The last step of _attempt_download: True was counted as a success inside
      _download_content, every give-up counts a failure and clears all_images_downloaded,
      "damaged" changes nothing. */
  function Settled(t: Tallies, ret: Returned): Tallies {
    match ret
    case ReturnedTrue => t.(c := t.c.(success := t.c.success + 1))
    case ReturnedFalse => t.(c := t.c.(failure := t.c.failure + 1), allImages := false)
    case ReturnedDamaged => t
  }

  /** What one call of download does: its answer (Err for an exception that escapes), the
      statistics and the world afterwards. */
  datatype Step = Step(r: Result<Returned>, t: Tallies, w: World)

  function DownloadSpec(t: Tallies, w: World, force: bool, ph: seq<Byte>, url: Url, basename: string,
                        dest: Path, imgCount: Option<nat>, name: Option<string>, maxRetries: int): Step
  {
    match FileName(name, imgCount, ExtFromName(basename))
    case Err(e) => Step(Err(e), t, w)
    case Ok(fname) =>
      var full := dest + [fname];
      var temp := dest + [fname + TempSuffix];
      if full in w.fs && !force then Step(Ok(ReturnedTrue), t.(c := t.c.(skipped := t.c.skipped + 1)), w)
      else if IsDir(w.fs, full) then Step(Err(OSError("Is a directory")), t, w)
      else
        var w1 := if full in w.fs then w.(fs := Remove(w.fs, full)) else w;
        var t1 := if t.c.skipped > 0 || t.c.skippedChapters > 0 then t.(printSkip := false) else t;
        var run := Loop(w1, url, temp, full, ph, 1, maxRetries);
        Step(Ok(run.0), Settled(t1, run.0), run.1)
  }

  /** An existing final file without force: True, one more skipped image, and no request. */
  lemma ExistingFileSkipped(t: Tallies, w: World, ph: seq<Byte>, url: Url, basename: string,
                            dest: Path, imgCount: Option<nat>, name: Option<string>, maxRetries: int)
    requires FileName(name, imgCount, ExtFromName(basename)).Ok?
    requires dest + [FileName(name, imgCount, ExtFromName(basename)).value] in w.fs
    ensures var s := DownloadSpec(t, w, false, ph, url, basename, dest, imgCount, name, maxRetries);
      s.r == Ok(ReturnedTrue) && s.w == w && s.t.c.skipped == t.c.skipped + 1
      && s.t.c.success == t.c.success && s.t.c.failure == t.c.failure
  {
  }

  /** With force, an existing final file is deleted before the first request. */
  lemma ForcedFileDeleted(t: Tallies, w: World, ph: seq<Byte>, url: Url, basename: string,
                          dest: Path, imgCount: Option<nat>, name: Option<string>, maxRetries: int)
    requires FileName(name, imgCount, ExtFromName(basename)).Ok?
    requires IsFile(w.fs, dest + [FileName(name, imgCount, ExtFromName(basename)).value])
    requires maxRetries >= 1
    ensures var full := dest + [FileName(name, imgCount, ExtFromName(basename)).value];
      var s := DownloadSpec(t, w, true, ph, url, basename, dest, imgCount, name, maxRetries);
      s.r.Ok? && |s.w.sent| > |w.sent|
      && s.w.sent[|w.sent|] ==
         Loader.ResumeRequest(url, SizeOrZero(w.fs, dest + [FileName(name, imgCount, ExtFromName(basename)).value + TempSuffix]))
  {
    var fname := FileName(name, imgCount, ExtFromName(basename)).value;
    var full, temp := dest + [fname], dest + [fname + TempSuffix];
    var w1 := w.(fs := Remove(w.fs, full));
    assert temp != full by { assert Last(temp) != Last(full); }
    assert SizeOrZero(w1.fs, temp) == SizeOrZero(w.fs, temp);
    var s := Loop(w1, url, temp, full, ph, 1, maxRetries).1.sent;
    assert Extends(s, w.sent + [Loader.ResumeRequest(url, SizeOrZero(w.fs, temp))]);
    assert s[|w.sent|] == s[..|w.sent| + 1][|w.sent|];
  }

  /** The image counters together. */
  function ImageCount(c: Counters): nat { c.success + c.failure + c.skipped }

  /** One download counts the image at most once, touches no chapter counter, and clears
      all_images_downloaded exactly when it counts a failure. */
  lemma DownloadTallies(t: Tallies, w: World, force: bool, ph: seq<Byte>, url: Url, basename: string,
                        dest: Path, imgCount: Option<nat>, name: Option<string>, maxRetries: int)
    ensures var s := DownloadSpec(t, w, force, ph, url, basename, dest, imgCount, name, maxRetries);
      s.t.c.(success := t.c.success, failure := t.c.failure, skipped := t.c.skipped) == t.c
      && t.c.success <= s.t.c.success && t.c.failure <= s.t.c.failure && t.c.skipped <= s.t.c.skipped
      && ImageCount(s.t.c) <= ImageCount(t.c) + 1
      && (s.t.allImages <==> t.allImages && s.t.c.failure == t.c.failure)
      && (s.r == Ok(ReturnedDamaged) || s.r.Err? <==> ImageCount(s.t.c) == ImageCount(t.c))
  {
    var s := DownloadSpec(t, w, force, ph, url, basename, dest, imgCount, name, maxRetries);
    var fn := FileName(name, imgCount, ExtFromName(basename));
    if fn.Ok? {
      var full, temp := dest + [fn.value], dest + [fn.value + TempSuffix];
      if !(full in w.fs && !force) && !IsDir(w.fs, full) {
        var w1 := if full in w.fs then w.(fs := Remove(w.fs, full)) else w;
        var t1 := if t.c.skipped > 0 || t.c.skippedChapters > 0 then t.(printSkip := false) else t;
        var ret := Loop(w1, url, temp, full, ph, 1, maxRetries).0;
        assert s.r == Ok(ret) && s.t == Settled(t1, ret);
        SettledTallies(t1, ret);
      }
    }
  }

  lemma SettledTallies(t: Tallies, ret: Returned)
    ensures var t' := Settled(t, ret);
      t'.c.(success := t.c.success, failure := t.c.failure, skipped := t.c.skipped) == t.c
      && t.c.success <= t'.c.success && t.c.failure <= t'.c.failure && t.c.skipped == t'.c.skipped
      && ImageCount(t'.c) == ImageCount(t.c) + (if ret == ReturnedDamaged then 0 else 1)
      && (t'.allImages <==> t.allImages && t'.c.failure == t.c.failure)
  {
  }

  /** From t to t' at most n images were counted, no chapter was, and
      all_images_downloaded stayed set exactly when no failure was counted. */
  predicate ImagesOnly(t: Tallies, t': Tallies, n: nat) {
    t'.c.(success := t.c.success, failure := t.c.failure, skipped := t.c.skipped) == t.c
    && t.c.failure <= t'.c.failure
    && ImageCount(t'.c) <= ImageCount(t.c) + n
    && (t'.allImages <==> t.allImages && t'.c.failure == t.c.failure)
  }

  lemma ImagesOnlyTrans(t1: Tallies, t2: Tallies, t3: Tallies, n: nat, m: nat)
    requires ImagesOnly(t1, t2, n) && ImagesOnly(t2, t3, m)
    ensures ImagesOnly(t1, t3, n + m)
  {
  }

  /** What download_files leaves behind: the first exception, or None. */
  datatype Batch = Batch(error: Option<Failure>, t: Tallies, w: World)

  /** The images from index `next` on, each under its index-derived name, until one raises. */
  function DownloadAll(t: Tallies, w: World, force: bool, ph: seq<Byte>, urls: seq<Url>, basename: Url -> string,
                       dest: Path, next: nat, maxRetries: int): Batch
    decreases |urls|
  {
    if urls == [] then Batch(None, t, w)
    else
      var s := DownloadSpec(t, w, force, ph, urls[0], basename(urls[0]), dest, Some(next), None, maxRetries);
      if s.r.Err? then Batch(Some(s.r.error), s.t, s.w)
      else DownloadAll(s.t, s.w, force, ph, urls[1..], basename, dest, next + 1, maxRetries)
  }

  /** DownloadAll takes its first image through download. */
  lemma DownloadAllFirst(t: Tallies, w: World, force: bool, ph: seq<Byte>, urls: seq<Url>, basename: Url -> string,
                         dest: Path, next: nat, maxRetries: int)
    requires urls != []
    ensures var s := DownloadSpec(t, w, force, ph, urls[0], basename(urls[0]), dest, Some(next), None, maxRetries);
      DownloadAll(t, w, force, ph, urls, basename, dest, next, maxRetries) ==
      if s.r.Err? then Batch(Some(s.r.error), s.t, s.w)
      else DownloadAll(s.t, s.w, force, ph, urls[1..], basename, dest, next + 1, maxRetries)
  {
  }

  /** download_files: the folder is created, then the images are fetched with 1-based indices
      and the default three attempts. */
  function DownloadFilesSpec(t: Tallies, w: World, force: bool, ph: seq<Byte>, urls: seq<Url>,
                             basename: Url -> string, dest: Path): Batch
  {
    DownloadAll(t, MadeDirs(w, dest), force, ph, urls, basename, dest, 1, 3)
  }

  /** `dest_path.mkdir(parents=True, exist_ok=True)`. */
  function MadeDirs(w: World, dest: Path): World {
    w.(fs := MkDirs(w.fs, dest))
  }

  /** A batch counts every image at most once and no chapter, and leaves
      all_images_downloaded set exactly when it was set and no image failed. */
  lemma {:induction false} BatchTallies(t: Tallies, w: World, force: bool, ph: seq<Byte>, urls: seq<Url>,
                                        basename: Url -> string, dest: Path, next: nat, maxRetries: int)
    ensures ImagesOnly(t, DownloadAll(t, w, force, ph, urls, basename, dest, next, maxRetries).t, |urls|)
    decreases |urls|
  {
    if urls != [] {
      var s := DownloadSpec(t, w, force, ph, urls[0], basename(urls[0]), dest, Some(next), None, maxRetries);
      DownloadTallies(t, w, force, ph, urls[0], basename(urls[0]), dest, Some(next), None, maxRetries);
      var b := DownloadAll(t, w, force, ph, urls, basename, dest, next, maxRetries);
      if s.r.Err? {
        assert b == Batch(Some(s.r.error), s.t, s.w);
      } else {
        var rest := DownloadAll(s.t, s.w, force, ph, urls[1..], basename, dest, next + 1, maxRetries);
        assert b == rest;
        BatchTallies(s.t, s.w, force, ph, urls[1..], basename, dest, next + 1, maxRetries);
        ImagesOnlyTrans(t, s.t, rest.t, 1, |urls| - 1);
      }
    }
  }


  // ---------------------------------------------------------------------------------------
  // The downloader

  class Downloader {
    const stats: StatsManager
    const forceDownload: bool
    /** The bytes of the bundled "image not available" asset (image_error()). */
    const placeholder: seq<Byte>

    constructor (stats: StatsManager, forceDownload: bool, placeholder: seq<Byte>)
      ensures this.stats == stats && this.forceDownload == forceDownload && this.placeholder == placeholder
    {
      this.stats := stats;
      this.forceDownload := forceDownload;
      this.placeholder := placeholder;
    }

    function Tally(): Tallies
      reads this, stats
    {
      Tallies(stats.Snapshot(), stats.allImagesDownloaded, stats.printSkipMsg)
    }

    /** The `for chunk in response.iter_content(...)` loop: every non-empty chunk is
        written in turn, so the file grows by the whole body. */
    static method WriteChunks(fs: FS, temp: Path, chunks: seq<seq<Byte>>) returns (fs': FS)
      requires IsFile(fs, temp)
      ensures fs' == Append(fs, temp, Flatten(chunks))
    {
      fs' := fs;
      AppendNothing(fs, temp);
      var i := 0;
      while i < |chunks|
        invariant 0 <= i <= |chunks|
        invariant fs' == Append(fs, temp, Flatten(chunks[..i]))
      {
        assert chunks[..i + 1][..i] == chunks[..i];
        assert Flatten(chunks[..i + 1]) == Flatten(chunks[..i]) + chunks[i];
        if chunks[i] != [] {
          AppendTwice(fs, temp, Flatten(chunks[..i]), chunks[i]);
          fs' := Append(fs', temp, chunks[i]);
        } else {
          assert Flatten(chunks[..i]) + chunks[i] == Flatten(chunks[..i]);
        }
        i := i + 1;
      }
      assert chunks[..i] == chunks;
    }

    /** _download_content. */
    method DownloadContent(url: Url, temp: Path, final: Path, w: World) returns (a: Attempt, total: Option<nat>, w': World)
      modifies stats
      ensures Fetch(a, total, w') == Content(w, url, temp, final)
      ensures Tally() == if a.Fetched? then Settled(old(Tally()), ReturnedTrue) else old(Tally())
    {
      var completed := SizeOrZero(w.fs, temp);
      var sent := Send(w, Loader.ResumeRequest(url, completed));
      w' := sent.1;
      total := None;
      match sent.0 {
        case Unreachable(fault) =>
          a := if fault.RequestFault? then RequestFailed(Transport) else UnexpectedFailed;
        case Response(status, h, chunks, end) =>
          if RequestsRaises(status) {
            a := RequestFailed(HttpStatus(status));
            return;
          }
          if status != 206 && !h.acceptRanges {
            completed := 0;
          }
          total := Loader.TotalSize(h, completed);
          if !Openable(w'.fs, temp) {
            a := LocalFailed;
            return;
          }
          var fs := w'.fs;
          if completed == 0 {
            fs := Write(fs, temp, []);
          }
          fs := WriteChunks(fs, temp, chunks);
          match end {
            case Complete =>
              var renamed := RenameIfFree(fs, temp, final);
              w' := w'.(fs := renamed.1);
              stats.UpdateStat(true, false, false);
              a := Fetched;
            case ChunkedBreak =>
              w' := w'.(fs := fs);
              a := Chunked;
            case StreamFault(fault) =>
              w' := w'.(fs := fs);
              a := if fault.RequestFault? then RequestFailed(Transport) else UnexpectedFailed;
            case DiskFault =>
              w' := w'.(fs := fs);
              a := LocalFailed;
          }
      }
    }

    /** _attempt_download: the while loop over the attempt counter. */
    method AttemptDownload(url: Url, temp: Path, final: Path, maxRetries: int, w: World)
      returns (ret: Returned, w': World)
      modifies stats
      ensures (ret, w') == Loop(w, url, temp, final, placeholder, 1, maxRetries)
      ensures Tally() == Settled(old(Tally()), ret)
    {
      ghost var whole := Loop(w, url, temp, final, placeholder, 1, maxRetries);
      ghost var t0 := Tally();
      var attempt: nat := 1;
      w' := w;
      while attempt <= maxRetries
        invariant Loop(w', url, temp, final, placeholder, attempt, maxRetries) == whole
        invariant Tally() == t0
        decreases |w'.replies|, maxRetries - attempt + 1
      {
        var stop, r, w1, next := AttemptOnce(url, temp, final, maxRetries, attempt, w');
        if stop {
          if r != ReturnedFalse {
            return r, w1;
          }
          w' := w1;
          break;
        }
        w', attempt := w1, next;
      }
      stats.UpdateStat(false, true, false);
      stats.allImagesDownloaded := false;
      ret := ReturnedFalse;
    }

    /** One turn of the while loop at an attempt within max_retries: it returns, breaks out
        (ReturnedFalse, counted after the loop), or goes on from the next world and attempt. */
    method AttemptOnce(url: Url, temp: Path, final: Path, maxRetries: int, attempt: nat, w: World)
      returns (stop: bool, ret: Returned, w': World, next: nat)
      requires attempt <= maxRetries
      modifies stats
      ensures stop ==> Loop(w, url, temp, final, placeholder, attempt, maxRetries) == (ret, w')
      ensures stop ==> Tally() == if ret.ReturnedTrue? then Settled(old(Tally()), ret) else old(Tally())
      ensures !stop ==> Tally() == old(Tally())
      ensures !stop ==> Loop(w, url, temp, final, placeholder, attempt, maxRetries)
                        == Loop(w', url, temp, final, placeholder, next, maxRetries)
      ensures !stop ==> |w'.replies| < |w.replies| || (|w'.replies| == |w.replies| && next > attempt)
    {
      var a, total, w1 := DownloadContent(url, temp, final, w);
      stop, ret, next := true, ReturnedFalse, attempt;
      match a {
        case Fetched =>
          ret, w' := ReturnedTrue, w1;
        case Chunked =>
          stop, w' := false, Slept(w1, attempt);
        case RequestFailed(e) =>
          var h := Handle(e, attempt, maxRetries);
          if h == Damaged {
            ret, w' := ReturnedDamaged, w1.(fs := Write(w1.fs, final, placeholder));
          } else if h == GiveUp {
            w' := w1;
          } else {
            stop, w', next := false, Slept(w1, attempt), attempt + 1;
          }
        case LocalFailed =>
          w' := w1.(fs := if IsFile(w1.fs, temp) then Remove(w1.fs, temp) else w1.fs);
        case UnexpectedFailed =>
          w' := w1;
      }
    }

    /** _check_existing_file: True after counting a skip; otherwise (after deleting the file
        under force) the skip message is shown once and switched off. */
    method CheckExistingFile(full: Path, w: World) returns (r: Result<bool>, w': World)
      modifies stats
      ensures full in w.fs && !forceDownload ==>
        r == Ok(true) && w' == w && Tally() == old(Tally()).(c := old(Tally()).c.(skipped := old(stats.skippedCount) + 1))
      ensures IsDir(w.fs, full) && forceDownload ==>
        r == Err(OSError("Is a directory")) && w' == w && Tally() == old(Tally())
      ensures !(full in w.fs && !forceDownload) && !IsDir(w.fs, full) ==>
        r == Ok(false) && w' == (if full in w.fs then w.(fs := Remove(w.fs, full)) else w)
        && Tally() == (if old(stats.skippedCount) > 0 || old(stats.skippedChapters) > 0
                       then old(Tally()).(printSkip := false) else old(Tally()))
    {
      w' := w;
      if full in w.fs {
        if !forceDownload {
          stats.UpdateStat(false, false, true);
          return Ok(true), w';
        }
        if IsDir(w.fs, full) {
          return Err(OSError("Is a directory")), w';
        }
        w' := w.(fs := Remove(w.fs, full));
      }
      if stats.skippedCount > 0 || stats.skippedChapters > 0 {
        var logged := stats.SkipMsg();
        stats.printSkipMsg := false;
      }
      r := Ok(false);
    }

    /** download: name the file, check for it, then run the attempts. */
    method Download(url: Url, basename: string, dest: Path, imgCount: Option<nat>, name: Option<string>,
                    maxRetries: int, w: World)
      returns (r: Result<Returned>, w': World)
      modifies stats
      ensures Step(r, Tally(), w') ==
              DownloadSpec(old(Tally()), w, forceDownload, placeholder, url, basename, dest, imgCount, name, maxRetries)
    {
      var ext := ExtFromName(basename);
      var fname := FileName(name, imgCount, ext);
      if fname.Err? {
        return Err(fname.error), w;
      }
      var full := dest + [fname.value];
      var temp := dest + [fname.value + TempSuffix];
      var exists_;
      exists_, w' := CheckExistingFile(full, w);
      if exists_.Err? {
        return Err(exists_.error), w';
      }
      if exists_.value {
        return Ok(ReturnedTrue), w';
      }
      var ret;
      ret, w' := AttemptDownload(url, temp, full, maxRetries, w');
      r := Ok(ret);
    }

    /** One turn of download_files' loop: the first image, and either the exception it
        raised or what the loop does with the rest. */
    method DownloadNext(urls: seq<Url>, basename: Url -> string, dest: Path, next: nat, w: World)
      returns (err: Option<Failure>, w': World)
      requires urls != []
      modifies stats
      ensures err.Some? ==>
        Batch(err, Tally(), w') == DownloadAll(old(Tally()), w, forceDownload, placeholder, urls, basename, dest, next, 3)
      ensures err.None? ==>
        DownloadAll(Tally(), w', forceDownload, placeholder, urls[1..], basename, dest, next + 1, 3) ==
        DownloadAll(old(Tally()), w, forceDownload, placeholder, urls, basename, dest, next, 3)
    {
      DownloadAllFirst(Tally(), w, forceDownload, placeholder, urls, basename, dest, next, 3);
      var r;
      r, w' := Download(urls[0], basename(urls[0]), dest, Some(next), None, 3, w);
      err := if r.Err? then Some(r.error) else None;
    }

    /** download_files: mkdir, then one download per URL with its 1-based index; an exception
        leaves the loop (and the caller). */
    method DownloadFiles(urls: seq<Url>, basename: Url -> string, dest: Path, w: World)
      returns (err: Option<Failure>, w': World)
      modifies stats
      ensures Batch(err, Tally(), w') == DownloadFilesSpec(old(Tally()), w, forceDownload, placeholder, urls, basename, dest)
    {
      ghost var force, ph := forceDownload, placeholder;
      w' := MadeDirs(w, dest);
      ghost var whole := DownloadAll(Tally(), w', force, ph, urls, basename, dest, 1, 3);
      var rest, next := urls, 1;
      while rest != []
        invariant DownloadAll(Tally(), w', force, ph, rest, basename, dest, next, 3) == whole
        decreases |rest|
      {
        var r;
        r, w' := DownloadNext(rest, basename, dest, next, w');
        if r.Some? {
          return r, w';
        }
        rest, next := rest[1..], next + 1;
      }
      err := None;
    }

    /** download_file: mkdir, then one download under the given name; "damaged" is truthy. */
    method DownloadFile(url: Url, basename: string, dest: Path, name: Option<string>, w: World)
      returns (r: Result<bool>, w': World)
      modifies stats
      ensures var s := DownloadSpec(old(Tally()), MadeDirs(w, dest), forceDownload, placeholder,
                                    url, basename, dest, None, name, 3);
        Tally() == s.t && w' == s.w && (r.Ok? <==> s.r.Ok?)
        && (r.Ok? ==> (r.value <==> s.r.value != ReturnedFalse))
        && (r.Err? ==> r.error == s.r.error)
    {
      var got;
      got, w' := Download(url, basename, dest, None, name, 3, MadeDirs(w, dest));
      if got.Err? {
        return Err(got.error), w';
      }
      r := Ok(got.value != ReturnedFalse);
    }
  }
}
