/** The current engine's image loader (SlideLoader): file names derived from the URL, one
    resumable transfer into a temp file that is renamed on completion, and the batch that
    skips images already on disk. The asyncio fan-out is run one task after another; the
    order of the task results is immaterial to every property stated about them. */
module Loader {
  import opened Wrappers
  import opened Strings
  import opened PathNames
  import opened FileSystem
  import opened Http
  import opened DownloadTypes
  import opened Seqs

  const TempExt: string := "_tmp"

  /** _make_name: with an index, the two-digit index plus the URL's suffix (the index wins);
      otherwise `filename.with_suffix(suffix)`; with neither, ValueError. */
  function MakeName(url: Url, filename: Option<Name>, index: Option<nat>): (r: Result<Name>)
    ensures index.Some? ==> r.Ok?
    ensures index.None? && filename.Some? && filename.value != "" ==> r == WithSuffix(filename.value, Suffix(NameOf(url)))
    ensures index.None? && (filename.None? || filename.value == "") ==> r.Err?
  {
    var suffix := Suffix(NameOf(url));
    if index.Some? then Ok(ZeroPad(index.value, 2) + suffix)
    else if filename.Some? && filename.value != "" then WithSuffix(filename.value, suffix)
    else Err(ValueError("Either 'filename' or 'index' must be provided."))
  }

  /** The index-derived name reads back as the zero-padded index followed by the URL's suffix. */
  lemma MakeNameIndexParts(url: Url, filename: Option<Name>, i: nat)
    ensures Stem(MakeName(url, filename, Some(i)).value) == ZeroPad(i, 2)
    ensures Suffix(MakeName(url, filename, Some(i)).value) == Suffix(NameOf(url))
  {
    DigitNameParts(ZeroPad(i, 2), Suffix(NameOf(url)));
  }

  /** A filename-derived name takes the URL's suffix (when it has one) and keeps the stem. */
  lemma MakeNameFilenameParts(url: Url, filename: Name)
    requires MakeName(url, Some(filename), None).Ok? && Suffix(NameOf(url)) != ""
    ensures Suffix(MakeName(url, Some(filename), None).value) == Suffix(NameOf(url))
    ensures Stem(MakeName(url, Some(filename), None).value) == Stem(filename)
  {
    WithSuffixSuffix(filename, Suffix(NameOf(url)));
  }

  /** A digit string followed by a URL suffix (or nothing) splits back into the two. */
  lemma DigitNameParts(digits: string, suffix: string)
    requires IsDigits(digits) && (suffix == "" || ProperSuffix(suffix))
    ensures Stem(digits + suffix) == digits && Suffix(digits + suffix) == suffix
  {
    assert '.' !in digits by {
      forall k | 0 <= k < |digits| ensures digits[k] != '.' { assert IsDigit(digits[k]); }
    }
    if suffix == "" {
      assert digits + suffix == digits;
      NoDotNoSuffix(digits);
    } else {
      SuffixAfterStem(digits, suffix);
    }
  }

  /** Index-derived names never collide: two different indices give two different file
      names, whatever the URLs. */
  lemma IndexNamesDistinct(u1: Url, u2: Url, f1: Option<Name>, f2: Option<Name>, i: nat, j: nat)
    requires i != j
    ensures MakeName(u1, f1, Some(i)).value != MakeName(u2, f2, Some(j)).value
  {
    MakeNameIndexParts(u1, f1, i);
    MakeNameIndexParts(u2, f2, j);
    var a, b := ZeroPad(i, 2), ZeroPad(j, 2);
    assert DigitsValue(a) == i && DigitsValue(b) == j;
  }

  /** The temp file of a transfer: `save_dir/(filename.name + "_tmp")`. */
  function TempPath(saveDir: Path, filename: Name): Path {
    saveDir + [filename + TempExt]
  }

  /** The request sent when the temp file holds `completed` bytes: a Range header only for
      a positive offset. */
  function ResumeRequest(url: Url, completed: nat): (q: Request)
    ensures q.url == url
    ensures q.range.Some? <==> completed > 0
    ensures completed > 0 ==> q.range.value == "bytes=" + NatToString(completed) + "-"
  {
    Request(url, if completed > 0 then Some(RangeFrom(completed)) else None)
  }

  /** The offset kept after the response arrives: it drops to 0 when the status is not 206 and
      the server sends no Accept-Ranges header. */
  function Offset(completed: nat, status: int, h: Headers): (k: nat)
    ensures k == 0 || k == completed
    ensures k == 0 <==> completed == 0 || (status != 206 && !h.acceptRanges)
  {
    if status != 206 && !h.acceptRanges then 0 else completed
  }

  /** The total given to the progress bar: content-length plus the offset, None without a length. */
  function TotalSize(h: Headers, offset: nat): (t: Option<nat>)
    ensures t.Some? <==> h.contentLength.Some?
    ensures t.Some? ==> t.value - offset == h.contentLength.value
  {
    if h.contentLength.Some? then Some(h.contentLength.value + offset) else None
  }

  /** What one transfer produces: the result, the total shown (None when no progress task
      was created) and the new filesystem. */
  datatype Outcome = Outcome(result: DownloadResult, total: Option<nat>, fs: FS)

  function Failed(temp: Path, e: ErrorInfo, url: Url): DownloadResult {
    DownloadResult(FAILED, Some(temp), Some(e), Some(url))
  }

  /** The contract of `download` as a function of the filesystem and the server's reply:
      every branch of the source, from the Range decision to the rename. */
  function Transfer(placeholder: seq<Byte>, fs: FS, temp: Path, final: Path, url: Url, reply: Reply): (o: Outcome)
    ensures o.result.url == Some(url) && o.result.status != SKIPPED
    ensures reply.Unreachable? ==> o.fs == fs && o.total.None?
  {
    match reply
    case Unreachable(f) => Outcome(Failed(temp, RequestError(f), url), None, fs)
    case Response(status, h, chunks, end) =>
      if AiohttpRaises(status) then
        Outcome(DownloadResult(REPLACED, Some(temp), Some(ResponseError(status)), Some(url)), None,
                if IsGone(status) then Write(fs, final, placeholder) else fs)
      else
        var offset := Offset(SizeOrZero(fs, temp), status, h);
        var total := TotalSize(h, offset);
        if !Openable(fs, temp) then Outcome(Failed(temp, LocalError, url), total, fs)
        else
          var truncated := if offset > 0 then fs else Write(fs, temp, []);
          var written := Append(truncated, temp, Flatten(chunks));
          if !end.Complete? then Outcome(Failed(temp, EndError(end), url), total, written)
          else
            match Rename(written, temp, final)
            case None => Outcome(Failed(temp, LocalError, url), total, written)
            case Some(moved) => Outcome(DownloadResult(SUCCESS, Some(final), None, Some(url)), total, moved)
  }

  /** Every transfer reports its URL and ends SUCCESS, REPLACED or FAILED, never SKIPPED;
      REPLACED exactly for an HTTP error status; SUCCESS carries the final path, the other two
      the temp path. */
  lemma TransferClassification(ph: seq<Byte>, fs: FS, temp: Path, final: Path, url: Url, reply: Reply)
    ensures var r := Transfer(ph, fs, temp, final, url, reply).result;
      && r.url == Some(url)
      && r.status != SKIPPED
      && (r.status == REPLACED <==> reply.Response? && AiohttpRaises(reply.status))
      && (r.status == SUCCESS ==> r.path == Some(final) && r.error.None?)
      && (r.status != SUCCESS ==> r.path == Some(temp) && r.error.Some?)
      && (r.status == SUCCESS ==> reply.Response? && !AiohttpRaises(reply.status) && reply.end.Complete?)
  {
  }

  /** A resumed transfer: with k > 0 bytes already in the temp file and a server that honours
      the range, the final file is the old k bytes followed by the body, the Range header
      asked for byte k on, and the total is the content-length plus k. */
  lemma ResumeAppends(ph: seq<Byte>, fs: FS, temp: Path, final: Path, url: Url, reply: Reply)
    requires SizeOrZero(fs, temp) > 0 && Openable(fs, temp)
    requires reply.Response? && !AiohttpRaises(reply.status) && reply.end.Complete?
    requires reply.status == 206 || reply.headers.acceptRanges
    requires temp != final && !Under(temp, final) && !Under(final, temp)
    ensures var o := Transfer(ph, fs, temp, final, url, reply);
      && o.result.status == SUCCESS
      && IsFile(o.fs, final) && Contents(o.fs, final) == Contents(fs, temp) + Flatten(reply.chunks)
      && temp !in o.fs
      && (reply.headers.contentLength.Some? ==>
            o.total == Some(reply.headers.contentLength.value + SizeOrZero(fs, temp)))
  {
    var written := Append(fs, temp, Flatten(reply.chunks));
    MoveFacts(written, temp, final);
  }

  /** A restarted transfer: when the status is not 206 and ranges are not accepted, the temp
      file is truncated and the final file holds exactly the body just received. */
  lemma RestartTruncates(ph: seq<Byte>, fs: FS, temp: Path, final: Path, url: Url, reply: Reply)
    requires Openable(fs, temp)
    requires reply.Response? && !AiohttpRaises(reply.status) && reply.end.Complete?
    requires reply.status != 206 && !reply.headers.acceptRanges
    requires temp != final && !Under(temp, final) && !Under(final, temp)
    ensures var o := Transfer(ph, fs, temp, final, url, reply);
      && o.result.status == SUCCESS
      && Contents(o.fs, final) == Flatten(reply.chunks)
      && (reply.headers.contentLength.Some? ==> o.total == reply.headers.contentLength)
  {
    var written := Append(Write(fs, temp, []), temp, Flatten(reply.chunks));
    MoveFacts(written, temp, final);
  }

  /** An HTTP error changes the disk only for 401, 403 and 404, and then only by writing the
      placeholder image to the final path. */
  lemma PlaceholderOnlyWhenGone(ph: seq<Byte>, fs: FS, temp: Path, final: Path, url: Url, reply: Reply)
    requires reply.Response? && AiohttpRaises(reply.status)
    ensures var o := Transfer(ph, fs, temp, final, url, reply);
      && o.result.status == REPLACED
      && (IsGone(reply.status) ==>
            (Contents(o.fs, final) == ph && IsFile(o.fs, final)
             && forall p :: p in fs && p != final ==> p in o.fs && o.fs[p] == fs[p]))
      && (!IsGone(reply.status) ==> o.fs == fs)
  {
  }

  /** A transfer whose body broke off keeps the temp file with every byte received so far,
      so the next attempt resumes with a Range header from exactly that size. */
  lemma BrokenTransferKeepsPartial(ph: seq<Byte>, fs: FS, temp: Path, final: Path, url: Url, reply: Reply)
    requires Openable(fs, temp)
    requires reply.Response? && !AiohttpRaises(reply.status) && !reply.end.Complete?
    ensures var o := Transfer(ph, fs, temp, final, url, reply);
      var k := Offset(SizeOrZero(fs, temp), reply.status, reply.headers);
      && o.result.status == FAILED
      && IsFile(o.fs, temp)
      && Contents(o.fs, temp) == Contents(fs, temp)[..k] + Flatten(reply.chunks)
      && ResumeRequest(url, SizeOrZero(o.fs, temp)).range.Some? == (k + |Flatten(reply.chunks)| > 0)
  {
    var k := Offset(SizeOrZero(fs, temp), reply.status, reply.headers);
    if k > 0 {
      assert Contents(fs, temp)[..k] == Contents(fs, temp);
    }
  }

  /** No response at all leaves the disk as it was. */
  lemma UnreachableChangesNothing(ph: seq<Byte>, fs: FS, temp: Path, final: Path, url: Url, f: Fault)
    ensures var o := Transfer(ph, fs, temp, final, url, Unreachable(f));
      o.fs == fs && o.result.status == FAILED && o.total.None?
  {
  }

  /** The names _make_name gives the batch's images, urls[k] getting the 1-based index k + 1. */
  function IndexNames(urls: seq<Url>): (names: seq<Name>)
    ensures |names| == |urls|
  {
    seq(|urls|, k requires 0 <= k < |urls| => MakeName(urls[k], None, Some(k + 1)).value)
  }

  /** A pending transfer: the 1-based index, the URL and the file name made from them. */
  datatype Task = Task(index: nat, url: Url, name: Name)

  /** The batch's pre-check: SKIPPED for each image whose final file exists, else a task. */
  datatype Plan = Plan(skipped: seq<DownloadResult>, tasks: seq<Task>)

  /** The pre-check over the first n images, the first n iterations of its loop. */
  function PreCheck(saveDir: Path, urls: seq<Url>, names: seq<Name>, n: nat, fs: FS): (plan: Plan)
    requires n <= |urls| == |names|
    ensures |plan.skipped| + |plan.tasks| == n
  {
    if n == 0 then Plan([], [])
    else
      var p := PreCheck(saveDir, urls, names, n - 1, fs);
      var final := saveDir + [names[n - 1]];
      if final in fs then
        Plan(p.skipped + [DownloadResult(SKIPPED, Some(final), None, Some(urls[n - 1]))], p.tasks)
      else Plan(p.skipped, p.tasks + [Task(n, urls[n - 1], names[n - 1])])
  }

  /** One more URL of the pre-check. */
  lemma PreCheckNext(saveDir: Path, urls: seq<Url>, names: seq<Name>, i: nat, fs: FS)
    requires 1 <= i <= |urls| == |names|
    ensures var p := PreCheck(saveDir, urls, names, i - 1, fs);
      var final := saveDir + [names[i - 1]];
      PreCheck(saveDir, urls, names, i, fs)
        == if final in fs then Plan(p.skipped + [DownloadResult(SKIPPED, Some(final), None, Some(urls[i - 1]))], p.tasks)
           else Plan(p.skipped, p.tasks + [Task(i, urls[i - 1], names[i - 1])])
  {
  }

  /** The URLs of a list of results (None for a result without one). */
  function ResultUrls(rs: seq<DownloadResult>): (us: seq<Option<Url>>)
    ensures |us| == |rs|
  {
    if rs == [] then [] else ResultUrls(rs[..|rs| - 1]) + [rs[|rs| - 1].url]
  }

  function TaskUrls(ts: seq<Task>): (us: seq<Option<Url>>)
    ensures |us| == |ts|
  {
    if ts == [] then [] else TaskUrls(ts[..|ts| - 1]) + [Some(ts[|ts| - 1].url)]
  }

  function SomeUrls(us: seq<Url>): (r: seq<Option<Url>>)
    ensures |r| == |us|
  {
    if us == [] then [] else SomeUrls(us[..|us| - 1]) + [Some(us[|us| - 1])]
  }

  /** One more SKIPPED entry for u: counted on the side of the results. */
  lemma SkipCounted(sk: seq<DownloadResult>, ts: seq<Task>, c: seq<Url>, r: DownloadResult, u: Url, v: Url)
    requires Occurrences(ResultUrls(sk), Some(v)) + Occurrences(TaskUrls(ts), Some(v)) == Occurrences(c, v)
    requires r.url == Some(u)
    ensures Occurrences(ResultUrls(sk + [r]), Some(v)) + Occurrences(TaskUrls(ts), Some(v)) == Occurrences(c + [u], v)
  {
    assert (sk + [r])[..|sk|] == sk;
    OccurrencesSnoc(ResultUrls(sk), Some(u), Some(v));
    OccurrencesSnoc(c, u, v);
  }

  /** One more task for u: counted on the side of the tasks. */
  lemma TaskCounted(sk: seq<DownloadResult>, ts: seq<Task>, c: seq<Url>, t: Task, v: Url)
    requires Occurrences(ResultUrls(sk), Some(v)) + Occurrences(TaskUrls(ts), Some(v)) == Occurrences(c, v)
    ensures Occurrences(ResultUrls(sk), Some(v)) + Occurrences(TaskUrls(ts + [t]), Some(v)) == Occurrences(c + [t.url], v)
  {
    assert (ts + [t])[..|ts|] == ts;
    OccurrencesSnoc(TaskUrls(ts), Some(t.url), Some(v));
    OccurrencesSnoc(c, t.url, v);
  }

  /** The pre-check loses no URL: the SKIPPED entries and the tasks together hold each URL
      as often as the first n images do. */
  lemma {:induction false} PreCheckCounts(saveDir: Path, urls: seq<Url>, names: seq<Name>, n: nat, fs: FS, v: Url)
    requires n <= |urls| == |names|
    ensures Occurrences(ResultUrls(PreCheck(saveDir, urls, names, n, fs).skipped), Some(v))
          + Occurrences(TaskUrls(PreCheck(saveDir, urls, names, n, fs).tasks), Some(v))
         == Occurrences(urls[..n], v)
  {
    if n == 0 {
      assert urls[..0] == [];
    } else {
      PreCheckCounts(saveDir, urls, names, n - 1, fs, v);
      var p, q := PreCheck(saveDir, urls, names, n - 1, fs), PreCheck(saveDir, urls, names, n, fs);
      var u, c := urls[n - 1], urls[..n - 1];
      TakeSnoc(urls, n);
      var final := saveDir + [names[n - 1]];
      if final in fs {
        var r := DownloadResult(SKIPPED, Some(final), None, Some(u));
        assert q == Plan(p.skipped + [r], p.tasks);
        SkipCounted(p.skipped, p.tasks, c, r, u, v);
      } else {
        var t := Task(n, u, names[n - 1]);
        assert q == Plan(p.skipped, p.tasks + [t]);
        TaskCounted(p.skipped, p.tasks, c, t, v);
      }
    }
  }

  /** Every SKIPPED entry of the pre-check carries its URL. */
  lemma {:induction false} PreCheckUrlsPresent(saveDir: Path, urls: seq<Url>, names: seq<Name>, n: nat, fs: FS)
    requires n <= |urls| == |names|
    ensures Occurrences(ResultUrls(PreCheck(saveDir, urls, names, n, fs).skipped), None) == 0
  {
    if n > 0 {
      PreCheckUrlsPresent(saveDir, urls, names, n - 1, fs);
      var p := PreCheck(saveDir, urls, names, n - 1, fs);
      var final := saveDir + [names[n - 1]];
      if final in fs {
        var sk := p.skipped + [DownloadResult(SKIPPED, Some(final), None, Some(urls[n - 1]))];
        assert sk[..|sk| - 1] == p.skipped;
        OccurrencesSnoc(ResultUrls(p.skipped), Some(urls[n - 1]), None);
      }
    }
  }

  /** Every entry is SKIPPED and names a file already on disk. */
  predicate SkipsOnDisk(sk: seq<DownloadResult>, fs: FS) {
    forall k :: 0 <= k < |sk| ==> sk[k].status == SKIPPED && sk[k].path.Some? && sk[k].path.value in fs
  }

  /** Every task is image i <= n with its own URL and name, and its final file is missing. */
  predicate TasksMissing(saveDir: Path, urls: seq<Url>, names: seq<Name>, ts: seq<Task>, n: nat, fs: FS)
    requires n <= |urls| == |names|
  {
    forall k :: 0 <= k < |ts| ==>
      (1 <= ts[k].index <= n && ts[k].url == urls[ts[k].index - 1] && ts[k].name == names[ts[k].index - 1]
        && saveDir + [ts[k].name] !in fs)
  }

  lemma {:induction false} PreCheckSkipped(saveDir: Path, urls: seq<Url>, names: seq<Name>, n: nat, fs: FS)
    requires n <= |urls| == |names|
    ensures SkipsOnDisk(PreCheck(saveDir, urls, names, n, fs).skipped, fs)
  {
    if n > 0 {
      PreCheckSkipped(saveDir, urls, names, n - 1, fs);
    }
  }

  lemma {:induction false} PreCheckTasks(saveDir: Path, urls: seq<Url>, names: seq<Name>, n: nat, fs: FS)
    requires n <= |urls| == |names|
    ensures TasksMissing(saveDir, urls, names, PreCheck(saveDir, urls, names, n, fs).tasks, n, fs)
  {
    if n > 0 {
      PreCheckTasks(saveDir, urls, names, n - 1, fs);
    }
  }

  /** The transfers of the batch, task after task, each on the disk the previous one left. */
  datatype Run = Run(results: seq<DownloadResult>, fs: FS)

  /** One task's transfer on the disk the previous tasks left. */
  function Step(ph: seq<Byte>, saveDir: Path, fs: FS, t: Task, net: Request -> Reply): Outcome {
    var temp := TempPath(saveDir, t.name);
    Transfer(ph, fs, temp, saveDir + [t.name], t.url, net(ResumeRequest(t.url, SizeOrZero(fs, temp))))
  }

  function RunTasks(ph: seq<Byte>, saveDir: Path, tasks: seq<Task>, fs: FS, net: Request -> Reply): Run
  {
    if tasks == [] then Run([], fs)
    else
      var prev := RunTasks(ph, saveDir, tasks[..|tasks| - 1], fs, net);
      var o := Step(ph, saveDir, prev.fs, tasks[|tasks| - 1], net);
      Run(prev.results + [o.result], o.fs)
  }

  lemma RunTasksSnoc(ph: seq<Byte>, saveDir: Path, tasks: seq<Task>, k: nat, fs: FS, net: Request -> Reply)
    requires k < |tasks|
    ensures var prev := RunTasks(ph, saveDir, tasks[..k], fs, net);
      var o := Step(ph, saveDir, prev.fs, tasks[k], net);
      RunTasks(ph, saveDir, tasks[..k + 1], fs, net) == Run(prev.results + [o.result], o.fs)
  {
    assert tasks[..k + 1][..k] == tasks[..k];
  }

  /** A task's name is the one _make_name gives its URL and index. */
  lemma TaskName(saveDir: Path, urls: seq<Url>, ts: seq<Task>, fs: FS, k: nat)
    requires TasksMissing(saveDir, urls, IndexNames(urls), ts, |urls|, fs) && k < |ts|
    ensures MakeName(ts[k].url, None, Some(ts[k].index)) == Ok(ts[k].name)
  {
    var t := ts[k];
    assert 1 <= t.index <= |urls| && t.url == urls[t.index - 1] && t.name == IndexNames(urls)[t.index - 1];
    assert IndexNames(urls)[t.index - 1] == MakeName(t.url, None, Some(t.index)).value;
  }

  /** Each task appends exactly one result carrying its own URL, and none of them is SKIPPED. */
  lemma {:induction false} RunTasksOnePerTask(ph: seq<Byte>, saveDir: Path, tasks: seq<Task>, fs: FS, net: Request -> Reply)
    ensures ResultUrls(RunTasks(ph, saveDir, tasks, fs, net).results) == TaskUrls(tasks)
    ensures Count(RunTasks(ph, saveDir, tasks, fs, net).results, SKIPPED) == 0
  {
    if tasks != [] {
      var prev := RunTasks(ph, saveDir, tasks[..|tasks| - 1], fs, net);
      RunTasksOnePerTask(ph, saveDir, tasks[..|tasks| - 1], fs, net);
      var t := tasks[|tasks| - 1];
      var temp := TempPath(saveDir, t.name);
      TransferClassification(ph, prev.fs, temp, saveDir + [t.name], t.url, net(ResumeRequest(t.url, SizeOrZero(prev.fs, temp))));
      var rs := RunTasks(ph, saveDir, tasks, fs, net).results;
      assert rs[..|rs| - 1] == prev.results;
    }
  }

  /** The whole batch: the SKIPPED entries of the pre-check, then one result per task. */
  function Batch(ph: seq<Byte>, saveDir: Path, urls: seq<Url>, fs: FS, net: Request -> Reply): Run {
    var plan := PreCheck(saveDir, urls, IndexNames(urls), |urls|, fs);
    var run := RunTasks(ph, saveDir, plan.tasks, fs, net);
    Run(plan.skipped + run.results, run.fs)
  }

  /** download_all adds exactly one result per URL: each URL v occurs among the new results
      exactly as often as in the list, and every result carries its URL. The SKIPPED ones are
      exactly the pre-check's, each naming a final file that was already there. */
  lemma BatchOneResultPerUrl(ph: seq<Byte>, saveDir: Path, urls: seq<Url>, fs: FS, net: Request -> Reply, v: Url)
    ensures |Batch(ph, saveDir, urls, fs, net).results| == |urls|
    ensures Occurrences(ResultUrls(Batch(ph, saveDir, urls, fs, net).results), Some(v)) == Occurrences(urls, v)
    ensures Occurrences(ResultUrls(Batch(ph, saveDir, urls, fs, net).results), None) == 0
    ensures Count(Batch(ph, saveDir, urls, fs, net).results, SKIPPED)
         == |PreCheck(saveDir, urls, IndexNames(urls), |urls|, fs).skipped|
  {
    var names := IndexNames(urls);
    var plan := PreCheck(saveDir, urls, names, |urls|, fs);
    var run := RunTasks(ph, saveDir, plan.tasks, fs, net);
    PreCheckCounts(saveDir, urls, names, |urls|, fs, v);
    PreCheckUrlsPresent(saveDir, urls, names, |urls|, fs);
    PreCheckSkipped(saveDir, urls, names, |urls|, fs);
    RunTasksOnePerTask(ph, saveDir, plan.tasks, fs, net);
    assert urls[..|urls|] == urls;
    JoinedUrls(plan.skipped, run.results, plan.tasks, urls, v);
    JoinedSkips(plan.skipped, run.results);
  }

  /** The URLs of the SKIPPED entries followed by the task results, counted from the two parts. */
  lemma JoinedUrls(sk: seq<DownloadResult>, rs: seq<DownloadResult>, ts: seq<Task>, c: seq<Url>, v: Url)
    requires Occurrences(ResultUrls(sk), Some(v)) + Occurrences(TaskUrls(ts), Some(v)) == Occurrences(c, v)
    requires Occurrences(ResultUrls(sk), None) == 0
    requires ResultUrls(rs) == TaskUrls(ts)
    ensures Occurrences(ResultUrls(sk + rs), Some(v)) == Occurrences(c, v)
    ensures Occurrences(ResultUrls(sk + rs), None) == 0
  {
    ResultUrlsAppend(sk, rs);
    OccurrencesAppend(ResultUrls(sk), ResultUrls(rs), Some(v));
    OccurrencesAppend(ResultUrls(sk), ResultUrls(rs), None);
    TaskUrlsNotNone(ts);
  }

  /** SKIPPED entries followed by results none of which is SKIPPED: the count is the first part's length. */
  lemma JoinedSkips(sk: seq<DownloadResult>, rs: seq<DownloadResult>)
    requires forall k :: 0 <= k < |sk| ==> sk[k].status == SKIPPED
    requires Count(rs, SKIPPED) == 0
    ensures Count(sk + rs, SKIPPED) == |sk|
  {
    CountAppend(sk, rs, SKIPPED);
    AllSkippedCount(sk);
  }

  /** Every SKIPPED result of the batch names a final file that was there before it started. */
  lemma BatchSkipsOnDisk(ph: seq<Byte>, saveDir: Path, urls: seq<Url>, fs: FS, net: Request -> Reply)
    ensures forall r :: r in Batch(ph, saveDir, urls, fs, net).results && r.status == SKIPPED ==>
      r.path.Some? && r.path.value in fs
  {
    var names := IndexNames(urls);
    var plan := PreCheck(saveDir, urls, names, |urls|, fs);
    var run := RunTasks(ph, saveDir, plan.tasks, fs, net);
    PreCheckSkipped(saveDir, urls, names, |urls|, fs);
    RunTasksOnePerTask(ph, saveDir, plan.tasks, fs, net);
    forall r | r in plan.skipped + run.results && r.status == SKIPPED ensures r.path.Some? && r.path.value in fs {
      if r in run.results {
        NoneCounted(run.results, SKIPPED, r);
      }
    }
  }

  /** The finished batch, as a multiset of URLs, is the list of URLs: the order in which the
      transfers complete is immaterial. */
  lemma BatchUrlMultiset(ph: seq<Byte>, saveDir: Path, urls: seq<Url>, fs: FS, net: Request -> Reply)
    ensures multiset(ResultUrls(Batch(ph, saveDir, urls, fs, net).results)) == multiset(SomeUrls(urls))
  {
    var us := ResultUrls(Batch(ph, saveDir, urls, fs, net).results);
    forall x ensures Occurrences(us, x) == Occurrences(SomeUrls(urls), x) {
      if x.Some? {
        BatchOneResultPerUrl(ph, saveDir, urls, fs, net, x.value);
        SomeUrlsOccurrences(urls, x.value);
      } else {
        BatchOneResultPerUrl(ph, saveDir, urls, fs, net, "");
        SomeUrlsOccurrences(urls, "");
      }
    }
    SameOccurrencesSameMultiset(us, SomeUrls(urls));
  }

  lemma {:induction false} ResultUrlsAppend(a: seq<DownloadResult>, b: seq<DownloadResult>)
    ensures ResultUrls(a + b) == ResultUrls(a) + ResultUrls(b)
    decreases |b|
  {
    if b == [] {
      assert a + b == a;
    } else {
      assert (a + b)[..|a + b| - 1] == a + b[..|b| - 1];
      ResultUrlsAppend(a, b[..|b| - 1]);
    }
  }

  lemma {:induction false} TaskUrlsNotNone(ts: seq<Task>)
    ensures Occurrences(TaskUrls(ts), None) == 0
  {
    if ts != [] {
      TaskUrlsNotNone(ts[..|ts| - 1]);
      var us := TaskUrls(ts);
      assert us[..|us| - 1] == TaskUrls(ts[..|ts| - 1]);
    }
  }

  lemma {:induction false} SomeUrlsOccurrences(us: seq<Url>, v: Url)
    ensures Occurrences(SomeUrls(us), Some(v)) == Occurrences(us, v)
    ensures Occurrences(SomeUrls(us), None) == 0
  {
    if us != [] {
      SomeUrlsOccurrences(us[..|us| - 1], v);
      var r := SomeUrls(us);
      assert r[..|r| - 1] == SomeUrls(us[..|us| - 1]);
    }
  }

  lemma {:induction false} AllSkippedCount(rs: seq<DownloadResult>)
    requires forall k :: 0 <= k < |rs| ==> rs[k].status == SKIPPED
    ensures Count(rs, SKIPPED) == |rs|
  {
    if rs != [] {
      AllSkippedCount(rs[..|rs| - 1]);
    }
  }

  lemma {:induction false} NoneCounted(rs: seq<DownloadResult>, s: DownloadStatus, r: DownloadResult)
    requires Count(rs, s) == 0 && r in rs
    ensures r.status != s
  {
    var last := rs[|rs| - 1];
    if r != last {
      assert r in rs[..|rs| - 1];
      NoneCounted(rs[..|rs| - 1], s, r);
    }
  }

  /** rich's KeyError for the spinner's task id (the first task of the loader's own spinner is
      0) once remove_task has taken it off. */
  const SpinnerTaskGone: Failure := KeyError("0")

  class SlideLoader {
    var urls: seq<Url>
    var saveDir: Path
    /** spinner_task is a cached_property: once remove_task took that task off the spinner,
        the cached id names no task, and the next spinner.update with it raises. */
    var taskRemoved: bool
    /** The bytes of the bundled "image not available" asset written for 401/403/404. */
    const placeholder: seq<Byte>
    /** The Status mixin: the results list and its counts. */
    const status: Status

    constructor (urls: seq<Url>, saveDir: Path, placeholder: seq<Byte>)
      ensures this.urls == urls && this.saveDir == saveDir && this.placeholder == placeholder
      ensures fresh(status) && status.results == [] && !taskRemoved
    {
      this.urls := urls;
      this.saveDir := saveDir;
      taskRemoved := false;
      this.placeholder := placeholder;
      status := new Status();
    }

    /** The save_dir setter: the directory is created with its parents. */
    method SetSaveDir(dir: Path, fs: FS) returns (fs': FS)
      modifies this
      ensures saveDir == dir && urls == old(urls) && taskRemoved == old(taskRemoved)
      ensures fs' == MkDirs(fs, dir) && (IsDir(fs', dir) || IsFile(fs, dir))
    {
      saveDir := dir;
      fs' := MkDirs(fs, dir);
    }

    /** The urls setter (there are no running tasks to cancel in the sequential model). */
    method SetUrls(us: seq<Url>)
      modifies this
      ensures urls == us && saveDir == old(saveDir) && taskRemoved == old(taskRemoved)
    {
      urls := us;
    }

    /** spinner.remove_task(spinner_task): KeyError when the cached task was already removed;
        afterwards it is removed either way. */
    method RemoveSpinnerTask() returns (err: Option<Failure>)
      modifies this
      ensures err == (if old(taskRemoved) then Some(SpinnerTaskGone) else None)
      ensures taskRemoved && urls == old(urls) && saveDir == old(saveDir)
    {
      err := if taskRemoved then Some(SpinnerTaskGone) else None;
      taskRemoved := true;
    }

    /** download: one GET for url into `save_dir/(filename + "_tmp")`, renamed to finalPath
      once the body has arrived; the chunks are written one by one. */
    method Download(url: Url, filename: Name, finalPath: Path, fs: FS, net: Request -> Reply)
      returns (result: DownloadResult, req: Request, total: Option<nat>, fs': FS)
      ensures req == ResumeRequest(url, SizeOrZero(fs, TempPath(saveDir, filename)))
      ensures Outcome(result, total, fs') == Transfer(placeholder, fs, TempPath(saveDir, filename), finalPath, url, net(req))
    {
      var temp := TempPath(saveDir, filename);
      var completed := SizeOrZero(fs, temp);
      req := ResumeRequest(url, completed);
      var reply := net(req);
      fs' := fs;
      total := None;
      match reply {
        case Unreachable(f) =>
          result := Failed(temp, RequestError(f), url);
        case Response(code, headers, chunks, end) =>
          if AiohttpRaises(code) {
            result := DownloadResult(REPLACED, Some(temp), Some(ResponseError(code)), Some(url));
            if IsGone(code) {
              fs' := Write(fs, finalPath, placeholder);
            }
            return;
          }
          if code != 206 && !headers.acceptRanges {
            completed := 0;
          }
          total := TotalSize(headers, completed);
          if !Openable(fs, temp) {
            result := Failed(temp, LocalError, url);
            return;
          }
          if completed == 0 {
            fs' := Write(fs', temp, []);
          }
          ghost var truncated := fs';
          AppendNothing(truncated, temp);
          var i := 0;
          while i < |chunks|
            invariant 0 <= i <= |chunks|
            invariant fs' == Append(truncated, temp, Flatten(chunks[..i]))
          {
            AppendTwice(truncated, temp, Flatten(chunks[..i]), chunks[i]);
            assert chunks[..i + 1][..i] == chunks[..i];
            fs' := Append(fs', temp, chunks[i]);
            i := i + 1;
          }
          assert chunks[..i] == chunks;
          if !end.Complete? {
            result := Failed(temp, EndError(end), url);
            return;
          }
          var renamed := Rename(fs', temp, finalPath);
          if renamed.None? {
            result := Failed(temp, LocalError, url);
          } else {
            fs' := renamed.value;
            result := DownloadResult(SUCCESS, Some(finalPath), None, Some(url));
          }
      }
    }

    /** download_all: the pre-check appends SKIPPED for every final file already there and
      collects the rest as tasks; then every task appends the result of its transfer. */
    method DownloadAll(fs: FS, net: Request -> Reply) returns (fs': FS)
      modifies status
      ensures status.results == old(status.results) + Batch(placeholder, saveDir, urls, fs, net).results
      ensures fs' == Batch(placeholder, saveDir, urls, fs, net).fs
    {
      ghost var before := status.results;
      var tasks := PlanTasks(fs);
      ghost var plan := PreCheck(saveDir, urls, IndexNames(urls), |urls|, fs);
      fs' := RunAll(tasks, fs, net);
      ghost var run := RunTasks(placeholder, saveDir, tasks, fs, net);
      assert Batch(placeholder, saveDir, urls, fs, net) == Run(plan.skipped + run.results, run.fs);
      AppendAssoc(before, plan.skipped, run.results);
    }

    /** The pre-check loop of download_all over the 1-based indices. */
    method PlanTasks(fs: FS) returns (tasks: seq<Task>)
      modifies status
      ensures tasks == PreCheck(saveDir, urls, IndexNames(urls), |urls|, fs).tasks
      ensures status.results == old(status.results) + PreCheck(saveDir, urls, IndexNames(urls), |urls|, fs).skipped
      ensures TasksMissing(saveDir, urls, IndexNames(urls), tasks, |urls|, fs)
    {
      ghost var names := IndexNames(urls);
      tasks := [];
      var i := 1;
      while i <= |urls|
        invariant 1 <= i <= |urls| + 1
        invariant PreCheck(saveDir, urls, names, i - 1, fs).tasks == tasks
        invariant status.results == old(status.results) + PreCheck(saveDir, urls, names, i - 1, fs).skipped
      {
        tasks := PlanOne(i, fs, tasks, old(status.results));
        i := i + 1;
      }
      PreCheckTasks(saveDir, urls, names, |urls|, fs);
    }

    /** One turn of the pre-check loop: the i-th URL becomes a SKIPPED entry when its file
        exists, a task otherwise. */
    method PlanOne(i: nat, fs: FS, tasks: seq<Task>, ghost start: seq<DownloadResult>) returns (tasks': seq<Task>)
      requires 1 <= i <= |urls|
      requires PreCheck(saveDir, urls, IndexNames(urls), i - 1, fs).tasks == tasks
      requires status.results == start + PreCheck(saveDir, urls, IndexNames(urls), i - 1, fs).skipped
      modifies status
      ensures PreCheck(saveDir, urls, IndexNames(urls), i, fs).tasks == tasks'
      ensures status.results == start + PreCheck(saveDir, urls, IndexNames(urls), i, fs).skipped
    {
      var url := urls[i - 1];
      var filename := MakeName(url, None, Some(i)).value;
      var finalPath := saveDir + [filename];
      assert filename == IndexNames(urls)[i - 1];
      PreCheckNext(saveDir, urls, IndexNames(urls), i, fs);
      if finalPath in fs {
        var r := DownloadResult(SKIPPED, Some(finalPath), None, Some(url));
        AppendAssoc(start, PreCheck(saveDir, urls, IndexNames(urls), i - 1, fs).skipped, [r]);
        status.Add(r);
        tasks' := tasks;
      } else {
        tasks' := tasks + [Task(i, url, filename)];
      }
    }

    /** The awaited tasks of download_all, run one after another; each recomputes its file
      name from its URL and index. */
    method RunAll(tasks: seq<Task>, fs: FS, net: Request -> Reply) returns (fs': FS)
      requires TasksMissing(saveDir, urls, IndexNames(urls), tasks, |urls|, fs)
      modifies status
      ensures status.results == old(status.results) + RunTasks(placeholder, saveDir, tasks, fs, net).results
      ensures fs' == RunTasks(placeholder, saveDir, tasks, fs, net).fs
    {
      fs' := fs;
      ghost var start := status.results;
      ghost var ph, dir := placeholder, saveDir;
      var k := 0;
      while k < |tasks|
        invariant 0 <= k <= |tasks|
        invariant RunTasks(ph, dir, tasks[..k], fs, net).fs == fs'
        invariant status.results == start + RunTasks(ph, dir, tasks[..k], fs, net).results
      {
        TaskName(saveDir, urls, tasks, fs, k);
        ghost var prev := RunTasks(ph, dir, tasks[..k], fs, net);
        ghost var o := Step(ph, dir, fs', tasks[k], net);
        fs' := RunOne(tasks[k], fs', net);
        RunTasksSnoc(ph, dir, tasks, k, fs, net);
        AppendAssoc(start, prev.results, [o.result]);
        k := k + 1;
      }
      assert tasks[..k] == tasks;
    }

    /** One awaited task: its file name recomputed from its URL and index, then its transfer. */
    method RunOne(t: Task, fs: FS, net: Request -> Reply) returns (fs': FS)
      requires MakeName(t.url, None, Some(t.index)) == Ok(t.name)
      modifies status
      ensures status.results == old(status.results) + [Step(placeholder, saveDir, fs, t, net).result]
      ensures fs' == Step(placeholder, saveDir, fs, t, net).fs
    {
      var filename := MakeName(t.url, None, Some(t.index)).value;
      var result, req, total;
      result, req, total, fs' := Download(t.url, filename, saveDir + [filename], fs, net);
      status.Add(result);
    }

    /** spinner.update(spinner_task, ...): KeyError once the cached task was removed. */
    function SpinnerUpdate(): (r: Option<Failure>)
      reads this
      ensures r.Some? <==> taskRemoved
      ensures r.Some? ==> r.value == SpinnerTaskGone
    {
      if taskRemoved then Some(SpinnerTaskGone) else None
    }

    /** all: run the batch and hand back a copy of every result so far. download_all first
        updates the spinner with the cached task, which raises KeyError, before any transfer,
        once that task was removed. */
    method All(fs: FS, net: Request -> Reply) returns (rs: Result<seq<DownloadResult>>, fs': FS)
      modifies status
      ensures taskRemoved ==> rs == Err(SpinnerTaskGone) && fs' == fs && status.results == old(status.results)
      ensures !taskRemoved ==> rs == Ok(status.results)
      ensures !taskRemoved ==> status.results == old(status.results) + Batch(placeholder, saveDir, urls, fs, net).results
      ensures !taskRemoved ==> fs' == Batch(placeholder, saveDir, urls, fs, net).fs
    {
      var update := SpinnerUpdate();
      if update.Some? {
        return Err(update.value), fs;
      }
      fs' := DownloadAll(fs, net);
      rs := Ok(status.results);
    }

    /** one: a single transfer to `save_dir/filename.with_suffix(url suffix)`; true exactly
      when it ends SUCCESS. A filename that with_suffix refuses raises ValueError. */
    method One(url: Url, filename: Name, fs: FS, net: Request -> Reply) returns (r: Result<bool>, fs': FS)
      ensures MakeName(url, Some(filename), None).Err? ==> r.Err? && fs' == fs
      ensures MakeName(url, Some(filename), None).Ok? ==>
        var final := saveDir + [MakeName(url, Some(filename), None).value];
        var temp := TempPath(saveDir, filename);
        var o := Transfer(placeholder, fs, temp, final, url, net(ResumeRequest(url, SizeOrZero(fs, temp))));
        r.Ok? && (r.value <==> o.result.status == SUCCESS) && fs' == o.fs
    {
      var name := MakeName(url, Some(filename), None);
      if name.Err? {
        return Err(name.error), fs;
      }
      var result, req, total;
      result, req, total, fs' := Download(url, filename, saveDir + [name.value], fs, net);
      r := Ok(result.status == SUCCESS);
    }
  }
}
