/** The statistics manager kept in manga_dm/utils/utility.py, an older twin of the one in
    manga_dm/utils/stats_manager.py: the same six counters and wording, but no per-chapter
    failure counter, a summary logged as one newline-terminated message, and a six-key
    statistics dictionary, and load_data, which catches every exception. (get_size of the
    same file is FileSystem.SizeOrZero.) */
module MangaDmUtility {
  import opened Wrappers
  import opened Strings
  import opened Wording
  import opened MangaDmStats
  import opened Json
  import LegacyUtility

  /** load_data: the parsed value, or [] for any exception (`except Exception`), so a
      missing file, an OSError, text that is not JSON and bytes that are not UTF-8 all load
      as an empty list. */
  function LoadData(read: ReadOutcome): (j: Json)
    ensures read.Parsed? ==> j == read.value
    ensures !read.Parsed? ==> j == JArr([])
  {
    match read
    case Parsed(v) => v
    case _ => JArr([])
  }

  /** The catch-all loader agrees with the `mangadm/` one, which catches only IOError and
      JSONDecodeError, everywhere except on bytes that are not UTF-8, where only the
      `mangadm/` one raises. */
  lemma LoadDataAgrees(read: ReadOutcome)
    ensures read.NotUtf8? <==> LegacyUtility.LoadData(read).Err?
    ensures !read.NotUtf8? ==> LegacyUtility.LoadData(read) == Ok(LoadData(read))
  {
  }

  /** get_statistics: six keys, without `failure_chapter`. */
  function UtilityStatistics(c: Counters): (m: map<string, int>)
    ensures |m.Keys| == 6
    ensures "failure_chapter" !in m
  {
    map["success" := c.success, "failure" := c.failure, "skipped" := c.skipped,
        "total_chapters" := c.totalChapters, "chapters_downloaded" := c.chaptersDownloaded,
        "skipped_chapters" := c.skippedChapters]
  }

  /** The dictionary is the newer manager's without its `failure_chapter` entry. */
  lemma StatisticsWithoutFailureChapter(c: Counters, k: nat)
    ensures UtilityStatistics(c) == Statistics(c, k) - {"failure_chapter"}
  {
    var m, n := UtilityStatistics(c), Statistics(c, k) - {"failure_chapter"};
    assert m.Keys == n.Keys;
  }

  /** Each line followed by a newline. */
  function Lines(ls: seq<string>): string {
    if ls == [] then "" else ls[0] + "\n" + Lines(ls[1..])
  }

  /** The message log_download_results logs: the six summary rows, each ending in "\n". */
  function Message(c: Counters): string {
    Lines(Summary(c))
  }

  /** Newline-terminated lines without newlines split back into the lines and a final "". */
  lemma {:induction false} SplitLines(ls: seq<string>)
    requires forall i :: 0 <= i < |ls| ==> NoNewline(ls[i])
    ensures Split(Lines(ls), '\n') == ls + [""]
    decreases |ls|
  {
    if ls != [] {
      assert NoNewline(ls[0]);
      SplitLines(ls[1..]);
      SplitAt(ls[0], '\n', Lines(ls[1..]));
      assert ls[0] + "\n" + Lines(ls[1..]) == ls[0] + ['\n'] + Lines(ls[1..]);
      assert [ls[0]] + (ls[1..] + [""]) == ls + [""];
    }
  }

  /** No summary row holds a newline. */
  lemma SummaryHasNoNewline(c: Counters)
    ensures forall i :: 0 <= i < |Summary(c)| ==> NoNewline(Summary(c)[i])
  {
    var rows := Summary(c);
    ImagesSucceededNoNewline(c.success);
    ImagesFailedNoNewline(c.failure);
    ImagesSkippedNoNewline(c.skipped);
    IntToStringNoNewline(c.totalChapters);
    assert NoNewline(rows[3]);
    ChaptersCompletedNoNewline(c.chaptersDownloaded);
    ChaptersSkippedNoNewline(c.skippedChapters);
    assert NoNewline(rows[0]) && NoNewline(rows[1]) && NoNewline(rows[2]) && NoNewline(rows[4]) && NoNewline(rows[5]);
  }

  /** The message holds the six summary rows, one per line, in order. */
  lemma MessageRows(c: Counters)
    ensures Split(Message(c), '\n') == Summary(c) + [""]
  {
    SummaryHasNoNewline(c);
    SplitLines(Summary(c));
  }

  /** The message reports every counter: different states never log the same message. */
  lemma MessageInjective(a: Counters, b: Counters)
    requires Message(a) == Message(b)
    ensures a == b
  {
    MessageRows(a);
    MessageRows(b);
    assert Summary(a) == (Summary(a) + [""])[..6];
    assert Summary(b) == (Summary(b) + [""])[..6];
    SummaryInjective(a, b);
  }

  class StatsManager {
    var successCount: nat
    var failureCount: nat
    var skippedCount: nat
    var chaptersDownloaded: nat
    var skippedChapters: nat
    var totalChapters: int
    var allImagesDownloaded: bool
    var printSkipMsg: bool

    function Snapshot(): Counters
      reads this
    {
      Counters(successCount, failureCount, skippedCount, chaptersDownloaded, skippedChapters, totalChapters)
    }

    /** Every counter and the total start at 0, both flags at true. */
    constructor ()
      ensures Snapshot() == Counters(0, 0, 0, 0, 0, 0)
      ensures allImagesDownloaded && printSkipMsg
    {
      successCount, failureCount, skippedCount := 0, 0, 0;
      chaptersDownloaded, skippedChapters, totalChapters := 0, 0, 0;
      allImagesDownloaded := true;
      printSkipMsg := true;
    }

    method UpdateSuccess()
      modifies this
      ensures Snapshot() == old(Snapshot()).(success := old(successCount) + 1)
      ensures allImagesDownloaded == old(allImagesDownloaded) && printSkipMsg == old(printSkipMsg)
    {
      successCount := successCount + 1;
    }

    method UpdateFailure()
      modifies this
      ensures Snapshot() == old(Snapshot()).(failure := old(failureCount) + 1)
      ensures allImagesDownloaded == old(allImagesDownloaded) && printSkipMsg == old(printSkipMsg)
    {
      failureCount := failureCount + 1;
    }

    method UpdateSkipped()
      modifies this
      ensures Snapshot() == old(Snapshot()).(skipped := old(skippedCount) + 1)
      ensures allImagesDownloaded == old(allImagesDownloaded) && printSkipMsg == old(printSkipMsg)
    {
      skippedCount := skippedCount + 1;
    }

    method UpdateChaptersDownloaded()
      modifies this
      ensures Snapshot() == old(Snapshot()).(chaptersDownloaded := old(chaptersDownloaded) + 1)
      ensures allImagesDownloaded == old(allImagesDownloaded) && printSkipMsg == old(printSkipMsg)
    {
      chaptersDownloaded := chaptersDownloaded + 1;
    }

    method UpdateSkippedChapters()
      modifies this
      ensures Snapshot() == old(Snapshot()).(skippedChapters := old(skippedChapters) + 1)
      ensures allImagesDownloaded == old(allImagesDownloaded) && printSkipMsg == old(printSkipMsg)
    {
      skippedChapters := skippedChapters + 1;
    }

    method SetTotalChapters(total: int)
      modifies this
      ensures Snapshot() == old(Snapshot()).(totalChapters := total)
      ensures allImagesDownloaded == old(allImagesDownloaded) && printSkipMsg == old(printSkipMsg)
    {
      totalChapters := total;
    }

    /** skip_msg: the line it logs (image part first), None when it stays silent. */
    method SkipMsg() returns (logged: Option<string>)
      ensures logged == SkipLine(SkipParts(Snapshot()), printSkipMsg)
    {
      var messages: seq<string> := [];
      if skippedCount > 0 {
        messages := messages + [if skippedCount == 1 then "Skipped downloading 1 image."
                                else "Skipped downloading " + NatToString(skippedCount) + " images."];
      }
      if skippedChapters > 0 {
        messages := messages + [if skippedChapters == 1 then "Skipped downloading 1 chapter."
                                else "Skipped downloading " + NatToString(skippedChapters) + " chapters."];
      }
      logged := if messages != [] && printSkipMsg then Some(JoinWith(messages, " | ")) else None;
    }

    /** log_download_results: the message it logs. */
    function LogDownloadResults(): string
      reads this
    {
      Message(Snapshot())
    }

    function GetStatistics(): map<string, int>
      reads this
    {
      UtilityStatistics(Snapshot())
    }
  }
}
