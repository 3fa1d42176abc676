/** The download-result algebra shared by the current engine's loader and orchestrator:
    a closed four-way status, per-status counts and the all-success rule. */
module DownloadTypes {
  import opened Wrappers
  import opened FileSystem
  import opened Http

  /** The archive formats; `Value()` is the enum's string value and file extension. */
  datatype FormatType = Cbz | Epub {
    function Value(): string {
      match this
      case Cbz => "cbz"
      case Epub => "epub"
    }
  }

  /** Every format, in declaration order (iterating the enum). */
  const AllFormats: seq<FormatType> := [Cbz, Epub]

  datatype DownloadStatus = SUCCESS | FAILED | SKIPPED | REPLACED

  /** The exception a result carries: an HTTP error response (ClientResponseError), a
      failure of the HTTP library itself, a broken body stream, or a local file error. */
  datatype ErrorInfo = ResponseError(status: int) | RequestError(fault: Fault) | BrokenStream | LocalError

  /** The exception raised by a body stream that did not end normally. */
  function EndError(e: StreamEnd): ErrorInfo
    requires !e.Complete?
  {
    match e
    case ChunkedBreak => BrokenStream
    case StreamFault(f) => RequestError(f)
    case DiskFault => LocalError
  }

  /** The dataclass: path, error and url default to None. */
  datatype DownloadResult = DownloadResult(
    status: DownloadStatus,
    path: Option<Path> := None,
    error: Option<ErrorInfo> := None,
    url: Option<Url> := None)

  lemma StatusOnlyResult(s: DownloadStatus)
    ensures var r := DownloadResult(s);
      r.status == s && r.path == None && r.error == None && r.url == None
  {
  }

  /** The number of results with status s. */
  function Count(rs: seq<DownloadResult>, s: DownloadStatus): nat
  {
    if rs == [] then 0
    else Count(rs[..|rs| - 1], s) + (if rs[|rs| - 1].status == s then 1 else 0)
  }

  function Statuses(rs: seq<DownloadResult>): (ss: seq<DownloadStatus>)
    ensures |ss| == |rs| && forall i :: 0 <= i < |rs| ==> ss[i] == rs[i].status
  {
    if rs == [] then [] else Statuses(rs[..|rs| - 1]) + [rs[|rs| - 1].status]
  }

  /** A status counts as resolved unless it is FAILED. */
  predicate Resolved(s: DownloadStatus) { s == SUCCESS || s == SKIPPED || s == REPLACED }

  /** all_success: there is at least one result and every result is resolved. */
  predicate AllSuccess(rs: seq<DownloadResult>) {
    |rs| > 0 && forall i :: 0 <= i < |rs| ==> Resolved(rs[i].status)
  }

  /** Each count is the number of results carrying that status. */
  lemma {:induction false} CountIsMultiplicity(rs: seq<DownloadResult>, s: DownloadStatus)
    ensures Count(rs, s) == multiset(Statuses(rs))[s]
  {
    if rs != [] {
      CountIsMultiplicity(rs[..|rs| - 1], s);
      assert Statuses(rs) == Statuses(rs[..|rs| - 1]) + [rs[|rs| - 1].status];
    }
  }

  lemma {:induction false} CountAppend(a: seq<DownloadResult>, b: seq<DownloadResult>, s: DownloadStatus)
    ensures Count(a + b, s) == Count(a, s) + Count(b, s)
    decreases |b|
  {
    if b != [] {
      assert (a + b)[..|a + b| - 1] == a + b[..|b| - 1];
      CountAppend(a, b[..|b| - 1], s);
    } else {
      assert a + b == a;
    }
  }

  /** The four statuses are all there is: the counts add up to the number of results. */
  lemma {:induction false} CountsSum(rs: seq<DownloadResult>)
    ensures Count(rs, SUCCESS) + Count(rs, FAILED) + Count(rs, SKIPPED) + Count(rs, REPLACED) == |rs|
  {
    if rs != [] { CountsSum(rs[..|rs| - 1]); }
  }

  lemma {:induction false} NoFailedCount(rs: seq<DownloadResult>)
    ensures Count(rs, FAILED) == 0 <==> forall i :: 0 <= i < |rs| ==> rs[i].status != FAILED
  {
    if rs != [] {
      NoFailedCount(rs[..|rs| - 1]);
      assert forall i :: 0 <= i < |rs| - 1 ==> rs[..|rs| - 1][i] == rs[i];
    }
  }

  /** all_success is false without results; with results it holds exactly when nothing FAILED. */
  lemma AllSuccessIff(rs: seq<DownloadResult>)
    ensures rs == [] ==> !AllSuccess(rs)
    ensures rs != [] ==> (AllSuccess(rs) <==> Count(rs, FAILED) == 0)
  {
    NoFailedCount(rs);
  }

  /** all_success depends only on the multiset of results, not on their completion order. */
  lemma AllSuccessOrderFree(a: seq<DownloadResult>, b: seq<DownloadResult>)
    requires multiset(a) == multiset(b)
    ensures AllSuccess(a) <==> AllSuccess(b)
  {
    assert |a| == |multiset(a)| == |multiset(b)| == |b|;
    if AllSuccess(a) {
      forall j | 0 <= j < |b| ensures Resolved(b[j].status) {
        assert b[j] in multiset(a);
      }
    }
    if AllSuccess(b) {
      forall j | 0 <= j < |a| ensures Resolved(a[j].status) {
        assert a[j] in multiset(b);
      }
    }
  }

  /** One FAILED result keeps all_success false whatever is appended after it. */
  lemma FailureSticks(a: seq<DownloadResult>, b: seq<DownloadResult>)
    requires Count(a, FAILED) > 0
    ensures !AllSuccess(a + b)
  {
    CountAppend(a, b, FAILED);
    AllSuccessIff(a + b);
  }

  /** The results list of the Status mixin, with its count properties and clear_results. */
  class Status {
    var results: seq<DownloadResult>

    constructor ()
      ensures results == []
    {
      results := [];
    }

    function SuccessCount(): nat reads this { Count(results, SUCCESS) }
    function FailedCount(): nat reads this { Count(results, FAILED) }
    function SkippedCount(): nat reads this { Count(results, SKIPPED) }
    function ReplacedCount(): nat reads this { Count(results, REPLACED) }
    predicate AllSuccessNow() reads this { AllSuccess(results) }

    method Add(r: DownloadResult)
      modifies this
      ensures results == old(results) + [r]
    {
      results := results + [r];
    }

    /** clear_results: every count drops to 0 and all_success becomes false. */
    method ClearResults()
      modifies this
      ensures results == []
      ensures SuccessCount() == FailedCount() == SkippedCount() == ReplacedCount() == 0
      ensures !AllSuccessNow()
    {
      results := [];
    }
  }
}
