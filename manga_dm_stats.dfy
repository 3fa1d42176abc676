/** The statistics manager of the `manga_dm/` engine (manga_dm/utils/stats_manager.py): one
    method per counter, a per-chapter failure counter with its reset, the skip message with
    the image part first, the six-row summary and a seven-key statistics dictionary. */
module MangaDmStats {
  import opened Wrappers
  import opened Strings
  import opened Wording

  /** The six counters both managers of this generation keep. */
  datatype Counters = Counters(
    success: nat, failure: nat, skipped: nat,
    chaptersDownloaded: nat, skippedChapters: nat, totalChapters: int)

  /** The state the downloader and the engine read and change: the counters, the per-chapter
      failure counter and the two flags. */
  datatype Tallies = Tallies(c: Counters, failureChapter: nat, allImages: bool, printSkip: bool)

  /** The parts skip_msg collects: the image part, then the chapter part. */
  function SkipParts(c: Counters): seq<string> {
    (if c.skipped > 0 then [ImagesSkipped(c.skipped)] else []) +
    (if c.skippedChapters > 0 then [ChaptersSkipped(c.skippedChapters)] else [])
  }

  /** skip_msg logs nothing exactly when printing is off or nothing was skipped. */
  lemma SkipMessageSilent(c: Counters, printSkipMsg: bool)
    ensures SkipLine(SkipParts(c), printSkipMsg).None? <==>
            !printSkipMsg || (c.skippedChapters == 0 && c.skipped == 0)
  {
    if c.skipped > 0 {
      assert SkipParts(c)[0] == ImagesSkipped(c.skipped);
    } else if c.skippedChapters > 0 {
      assert SkipParts(c)[0] == ChaptersSkipped(c.skippedChapters);
    }
  }

  /** With both kinds skipped, the image part comes first. */
  lemma SkipMessageOrder(c: Counters)
    requires c.skippedChapters > 0 && c.skipped > 0
    ensures SkipLine(SkipParts(c), true) ==
            Some(ImagesSkipped(c.skipped) + " | " + ChaptersSkipped(c.skippedChapters))
  {
    var parts := SkipParts(c);
    assert parts == [ImagesSkipped(c.skipped), ChaptersSkipped(c.skippedChapters)];
    assert parts[1..] == [ChaptersSkipped(c.skippedChapters)];
    assert JoinWith(parts, " | ") == parts[0] + " | " + JoinWith(parts[1..], " | ");
  }

  /** One skipped image alone reads in the singular. */
  lemma OneSkippedImage(c: Counters)
    requires c.skipped == 1 && c.skippedChapters == 0
    ensures SkipLine(SkipParts(c), true) == Some("Skipped downloading 1 image.")
  {
    assert SkipParts(c) == ["Skipped downloading 1 image."];
  }

  /** The six rows of log_download_results, in order (colour markup aside). */
  function Summary(c: Counters): (lines: seq<string>)
    ensures |lines| == 6
  {
    [ImagesSucceeded(c.success), ImagesFailed(c.failure), ImagesSkipped(c.skipped),
     Labelled("Total chapters: ", c.totalChapters),
     ChaptersCompleted(c.chaptersDownloaded), ChaptersSkipped(c.skippedChapters)]
  }

  /** The summary reports every counter: two different states never print the same rows. */
  lemma SummaryInjective(a: Counters, b: Counters)
    requires Summary(a) == Summary(b)
    ensures a == b
  {
    assert Summary(a)[0] == Summary(b)[0] && Summary(a)[1] == Summary(b)[1];
    assert Summary(a)[2] == Summary(b)[2] && Summary(a)[3] == Summary(b)[3];
    assert Summary(a)[4] == Summary(b)[4] && Summary(a)[5] == Summary(b)[5];
    SummaryLinesInjective(a.success, b.success);
    SummaryLinesInjective(a.failure, b.failure);
    SummaryLinesInjective(a.skipped, b.skipped);
    SummaryLinesInjective(a.chaptersDownloaded, b.chaptersDownloaded);
    SummaryLinesInjective(a.skippedChapters, b.skippedChapters);
    LabelledInjective("Total chapters: ", a.totalChapters, b.totalChapters);
  }

  /** get_statistics: seven keys, the per-chapter failure counter among them. */
  function Statistics(c: Counters, failureChapter: nat): (m: map<string, int>)
    ensures |m.Keys| == 7
    ensures "failure_chapter" in m && m["failure_chapter"] == failureChapter
    ensures "chapter_remaining" !in m
  {
    map["success" := c.success, "failure" := c.failure, "skipped" := c.skipped,
        "total_chapters" := c.totalChapters, "chapters_downloaded" := c.chaptersDownloaded,
        "failure_chapter" := failureChapter, "skipped_chapters" := c.skippedChapters]
  }

  /** The dictionary reports every counter. */
  lemma StatisticsInjective(a: Counters, f: nat, b: Counters, g: nat)
    requires Statistics(a, f) == Statistics(b, g)
    ensures a == b && f == g
  {
    var m, n := Statistics(a, f), Statistics(b, g);
    assert m["success"] == n["success"] && m["failure"] == n["failure"];
    assert m["skipped"] == n["skipped"] && m["total_chapters"] == n["total_chapters"];
    assert m["chapters_downloaded"] == n["chapters_downloaded"];
    assert m["skipped_chapters"] == n["skipped_chapters"];
  }

  class StatsManager {
    var successCount: nat
    var failureCount: nat
    var skippedCount: nat
    var chaptersDownloaded: nat
    var skippedChapters: nat
    var totalChapters: int
    var allImagesDownloaded: bool
    var printSkipMsg: bool
    var failureCountChapter: nat

    function Snapshot(): Counters
      reads this
    {
      Counters(successCount, failureCount, skippedCount, chaptersDownloaded, skippedChapters, totalChapters)
    }

    function Tally(): Tallies
      reads this
    {
      Tallies(Snapshot(), failureCountChapter, allImagesDownloaded, printSkipMsg)
    }

    /** Every counter and the total start at 0, both flags at true. */
    constructor ()
      ensures Tally() == Tallies(Counters(0, 0, 0, 0, 0, 0), 0, true, true)
    {
      successCount, failureCount, skippedCount := 0, 0, 0;
      chaptersDownloaded, skippedChapters, totalChapters := 0, 0, 0;
      allImagesDownloaded, printSkipMsg := true, true;
      failureCountChapter := 0;
    }

    method UpdateSuccess()
      modifies this
      ensures Tally() == old(Tally()).(c := old(Snapshot()).(success := old(successCount) + 1))
    {
      successCount := successCount + 1;
    }

    method UpdateFailure()
      modifies this
      ensures Tally() == old(Tally()).(c := old(Snapshot()).(failure := old(failureCount) + 1))
    {
      failureCount := failureCount + 1;
    }

    method UpdateSkipped()
      modifies this
      ensures Tally() == old(Tally()).(c := old(Snapshot()).(skipped := old(skippedCount) + 1))
    {
      skippedCount := skippedCount + 1;
    }

    method UpdateChaptersDownloaded()
      modifies this
      ensures Tally() == old(Tally()).(c := old(Snapshot()).(chaptersDownloaded := old(chaptersDownloaded) + 1))
    {
      chaptersDownloaded := chaptersDownloaded + 1;
    }

    method UpdateSkippedChapters()
      modifies this
      ensures Tally() == old(Tally()).(c := old(Snapshot()).(skippedChapters := old(skippedChapters) + 1))
    {
      skippedChapters := skippedChapters + 1;
    }

    method SetTotalChapters(total: int)
      modifies this
      ensures Tally() == old(Tally()).(c := old(Snapshot()).(totalChapters := total))
    {
      totalChapters := total;
    }

    /** update_failure_chapter (which nothing in this generation calls). */
    method UpdateFailureChapter()
      modifies this
      ensures Tally() == old(Tally()).(failureChapter := old(failureCountChapter) + 1)
    {
      failureCountChapter := failureCountChapter + 1;
    }

    method ResetFailureChapter()
      modifies this
      ensures Tally() == old(Tally()).(failureChapter := 0)
    {
      failureCountChapter := 0;
    }

    /** skip_msg: the line it logs, None when it stays silent. */
    method SkipMsg() returns (logged: Option<string>)
      ensures logged == SkipLine(SkipParts(Snapshot()), printSkipMsg)
    {
      var messages: seq<string> := [];
      if skippedCount > 0 {
        if skippedCount == 1 {
          messages := messages + ["Skipped downloading 1 image."];
        } else {
          messages := messages + ["Skipped downloading " + NatToString(skippedCount) + " images."];
        }
      }
      if skippedChapters > 0 {
        if skippedChapters == 1 {
          messages := messages + ["Skipped downloading 1 chapter."];
        } else {
          messages := messages + ["Skipped downloading " + NatToString(skippedChapters) + " chapters."];
        }
      }
      if messages != [] && printSkipMsg {
        logged := Some(JoinWith(messages, " | "));
      } else {
        logged := None;
      }
    }

    /** log_download_results: the rows of the table it prints. */
    function DownloadResults(): seq<string>
      reads this
    {
      Summary(Snapshot())
    }

    function GetStatistics(): map<string, int>
      reads this
    {
      Statistics(Snapshot(), failureCountChapter)
    }
  }
}
