/** The statistics manager of the `mangadm/` engine: image and chapter counters, the
    skip message, the summary table and the statistics dictionary. */
module LegacyStats {
  import opened Wrappers
  import opened Strings
  import opened Wording

  /** The counters at one moment. */
  datatype Counters = Counters(
    success: nat, failure: nat, skipped: nat,
    chaptersDownloaded: nat, failureChapters: nat, skippedChapters: nat,
    totalChapters: int)

  /** chapter_remaining: the total less the downloaded and the skipped chapters. */
  function Remaining(c: Counters): int {
    c.totalChapters - (c.chaptersDownloaded + c.skippedChapters)
  }

  /** Chapters that failed are not subtracted from the remaining ones. */
  lemma RemainingIgnoresFailures(c: Counters, k: nat)
    ensures Remaining(c.(failureChapters := k)) == Remaining(c)
  {
  }

  /** Every downloaded or skipped chapter lowers the remainder by one. */
  lemma RemainingDrops(c: Counters)
    ensures Remaining(c.(chaptersDownloaded := c.chaptersDownloaded + 1)) == Remaining(c) - 1
    ensures Remaining(c.(skippedChapters := c.skippedChapters + 1)) == Remaining(c) - 1
  {
  }

  /** The parts skip_msg collects: the chapter part, then the image part. */
  function SkipParts(c: Counters): seq<string> {
    (if c.skippedChapters > 0 then [ChaptersSkipped(c.skippedChapters)] else []) +
    (if c.skipped > 0 then [ImagesSkipped(c.skipped)] else [])
  }

  /** skip_msg logs nothing exactly when printing is off or nothing was skipped. */
  lemma SkipMessageSilent(c: Counters, printSkipMsg: bool)
    ensures SkipLine(SkipParts(c), printSkipMsg).None? <==>
            !printSkipMsg || (c.skippedChapters == 0 && c.skipped == 0)
  {
    if c.skippedChapters > 0 {
      assert SkipParts(c)[0] == ChaptersSkipped(c.skippedChapters);
    } else if c.skipped > 0 {
      assert SkipParts(c)[0] == ImagesSkipped(c.skipped);
    }
  }

  /** With both kinds skipped, the chapter part comes first. */
  lemma SkipMessageOrder(c: Counters)
    requires c.skippedChapters > 0 && c.skipped > 0
    ensures SkipLine(SkipParts(c), true) ==
            Some(ChaptersSkipped(c.skippedChapters) + " | " + ImagesSkipped(c.skipped))
  {
    var parts := SkipParts(c);
    assert parts == [ChaptersSkipped(c.skippedChapters), ImagesSkipped(c.skipped)];
    assert parts[1..] == [ImagesSkipped(c.skipped)];
    assert JoinWith(parts, " | ") == parts[0] + " | " + JoinWith(parts[1..], " | ");
  }

  /** The eight rows of the summary table, in order (colour markup aside). */
  function Summary(c: Counters): (lines: seq<string>)
    ensures |lines| == 8
  {
    [ImagesSucceeded(c.success), ImagesFailed(c.failure), ImagesSkipped(c.skipped),
     Labelled("Total chapters: ", c.totalChapters),
     ChaptersCompleted(c.chaptersDownloaded), ChaptersIncomplete(c.failureChapters),
     ChaptersSkipped(c.skippedChapters),
     Labelled("Remaining chapters: ", Remaining(c))]
  }

  /** The summary reports every counter: two different states never print the same table. */
  lemma SummaryInjective(a: Counters, b: Counters)
    requires Summary(a) == Summary(b)
    ensures a == b
  {
    assert Summary(a)[0] == Summary(b)[0] && Summary(a)[1] == Summary(b)[1];
    assert Summary(a)[2] == Summary(b)[2] && Summary(a)[3] == Summary(b)[3];
    assert Summary(a)[4] == Summary(b)[4] && Summary(a)[5] == Summary(b)[5];
    assert Summary(a)[6] == Summary(b)[6];
    SummaryLinesInjective(a.success, b.success);
    SummaryLinesInjective(a.failure, b.failure);
    SummaryLinesInjective(a.skipped, b.skipped);
    SummaryLinesInjective(a.chaptersDownloaded, b.chaptersDownloaded);
    SummaryLinesInjective(a.failureChapters, b.failureChapters);
    SummaryLinesInjective(a.skippedChapters, b.skippedChapters);
    LabelledInjective("Total chapters: ", a.totalChapters, b.totalChapters);
  }

  /** get_statistics: eight keys, among them failure_chapter and chapter_remaining. */
  function Statistics(c: Counters): (m: map<string, int>)
    ensures |m.Keys| == 8
    ensures "failure_chapter" in m && m["failure_chapter"] == c.failureChapters
    ensures "chapter_remaining" in m && m["chapter_remaining"] == Remaining(c)
  {
    map["success" := c.success, "failure" := c.failure, "skipped" := c.skipped,
        "total_chapters" := c.totalChapters, "chapters_downloaded" := c.chaptersDownloaded,
        "failure_chapter" := c.failureChapters, "skipped_chapters" := c.skippedChapters,
        "chapter_remaining" := Remaining(c)]
  }

  function Bump(n: nat, flag: bool): nat { if flag then n + 1 else n }

  class StatsManager {
    var successCount: nat
    var failureCount: nat
    var skippedCount: nat
    var chaptersDownloaded: nat
    var failureCountChapter: nat
    var skippedChapters: nat
    var totalChapters: int
    var allImagesDownloaded: bool
    var printSkipMsg: bool

    function Snapshot(): Counters
      reads this
    {
      Counters(successCount, failureCount, skippedCount,
               chaptersDownloaded, failureCountChapter, skippedChapters, totalChapters)
    }

    /** Every counter and the total start at 0, both flags at true. */
    constructor ()
      ensures Snapshot() == Counters(0, 0, 0, 0, 0, 0, 0)
      ensures allImagesDownloaded && printSkipMsg
    {
      successCount, failureCount, skippedCount := 0, 0, 0;
      chaptersDownloaded, failureCountChapter, skippedChapters := 0, 0, 0;
      totalChapters := 0;
      allImagesDownloaded, printSkipMsg := true, true;
    }

    /** update_stat: one more for each flagged image counter, nothing else changes. */
    method UpdateStat(success: bool, failure: bool, skipped: bool)
      modifies this
      ensures Snapshot() == old(Snapshot()).(success := Bump(old(successCount), success),
                                             failure := Bump(old(failureCount), failure),
                                             skipped := Bump(old(skippedCount), skipped))
      ensures allImagesDownloaded == old(allImagesDownloaded) && printSkipMsg == old(printSkipMsg)
    {
      if success { successCount := successCount + 1; }
      if failure { failureCount := failureCount + 1; }
      if skipped { skippedCount := skippedCount + 1; }
    }

    /** update_chapter_stat: one more for each flagged chapter counter. */
    method UpdateChapterStat(downloaded: bool, failure: bool, skipped: bool)
      modifies this
      ensures Snapshot() == old(Snapshot()).(chaptersDownloaded := Bump(old(chaptersDownloaded), downloaded),
                                             failureChapters := Bump(old(failureCountChapter), failure),
                                             skippedChapters := Bump(old(skippedChapters), skipped))
      ensures allImagesDownloaded == old(allImagesDownloaded) && printSkipMsg == old(printSkipMsg)
    {
      if downloaded { chaptersDownloaded := chaptersDownloaded + 1; }
      if failure { failureCountChapter := failureCountChapter + 1; }
      if skipped { skippedChapters := skippedChapters + 1; }
    }

    method SetTotalChapters(total: int)
      modifies this
      ensures Snapshot() == old(Snapshot()).(totalChapters := total)
      ensures allImagesDownloaded == old(allImagesDownloaded) && printSkipMsg == old(printSkipMsg)
    {
      totalChapters := total;
    }

    /** skip_msg: the line it logs, None when it stays silent. */
    method SkipMsg() returns (logged: Option<string>)
      ensures logged == SkipLine(SkipParts(Snapshot()), printSkipMsg)
    {
      var messages: seq<string> := [];
      if skippedChapters > 0 {
        if skippedChapters == 1 {
          messages := messages + ["Skipped downloading 1 chapter."];
        } else {
          messages := messages + ["Skipped downloading " + NatToString(skippedChapters) + " chapters."];
        }
      }
      if skippedCount > 0 {
        if skippedCount == 1 {
          messages := messages + ["Skipped downloading 1 image."];
        } else {
          messages := messages + ["Skipped downloading " + NatToString(skippedCount) + " images."];
        }
      }
      if messages != [] && printSkipMsg {
        logged := Some(JoinWith(messages, " | "));
      } else {
        logged := None;
      }
    }

    function ChapterRemaining(): int
      reads this
    {
      Remaining(Snapshot())
    }

    /** log_download_results: the rows of the table it prints. */
    function DownloadResults(): seq<string>
      reads this
    {
      Summary(Snapshot())
    }

    function GetStatistics(): map<string, int>
      reads this
    {
      Statistics(Snapshot())
    }
  }
}
