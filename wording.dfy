/** The wording the statistics managers of the older engines use for their counters:
    "No ..." for 0, a singular sentence for 1, and the plural with the number otherwise. */
module Wording {
  import opened Wrappers
  import opened Strings

  /** One summary line for the count n. */
  function CountLine(n: nat, none: string, one: string, prefix: string, suffix: string): string {
    if n == 0 then none else if n == 1 then one else prefix + NatToString(n) + suffix
  }

  /** t cannot be read as prefix + (at least one character) + suffix. */
  predicate NotPlural(t: string, prefix: string, suffix: string) {
    !StartsWith(t, prefix) || !EndsWith(t, suffix) || |t| < |prefix| + 1 + |suffix|
  }

  /** The three forms of a line cannot be confused with one another. */
  predicate Unambiguous(none: string, one: string, prefix: string, suffix: string) {
    none != one && NotPlural(none, prefix, suffix) && NotPlural(one, prefix, suffix)
  }

  lemma PluralShape(prefix: string, x: string, suffix: string)
    requires |x| >= 1
    ensures !NotPlural(prefix + x + suffix, prefix, suffix)
  {
    var t := prefix + x + suffix;
    assert t[..|prefix|] == prefix;
    assert t[|t| - |suffix|..] == suffix;
  }

  lemma SameFrame(prefix: string, x: string, y: string, suffix: string)
    requires prefix + x + suffix == prefix + y + suffix
    ensures x == y
  {
    var t := prefix + x + suffix;
    assert t[|prefix|..|prefix| + |x|] == x;
    assert (prefix + y + suffix)[|prefix|..|prefix| + |y|] == y;
  }

  /** An unambiguous line determines its count: the summary never shows two different
      counts the same way. */
  lemma CountLineInjective(n: nat, m: nat, none: string, one: string, prefix: string, suffix: string)
    requires Unambiguous(none, one, prefix, suffix)
    requires CountLine(n, none, one, prefix, suffix) == CountLine(m, none, one, prefix, suffix)
    ensures n == m
  {
    if n >= 2 { PluralShape(prefix, NatToString(n), suffix); }
    if m >= 2 { PluralShape(prefix, NatToString(m), suffix); }
    if n >= 2 && m >= 2 {
      SameFrame(prefix, NatToString(n), NatToString(m), suffix);
      NatToStringInjective(n, m);
    }
  }

  /** No character of s is a newline. */
  predicate NoNewline(s: string) {
    forall i :: 0 <= i < |s| ==> s[i] != '\n'
  }

  /** A numeral holds no newline. */
  lemma IntToStringNoNewline(i: int)
    ensures NoNewline(IntToString(i))
  {
  }

  /** A line built from newline-free texts holds no newline. */
  lemma CountLineNoNewline(n: nat, none: string, one: string, prefix: string, suffix: string)
    requires NoNewline(none) && NoNewline(one) && NoNewline(prefix) && NoNewline(suffix)
    ensures NoNewline(CountLine(n, none, one, prefix, suffix))
  {
    IntToStringNoNewline(n);
  }

  function ImagesSucceeded(n: nat): string {
    CountLine(n, "No images were successfully downloaded.", "Successfully downloaded 1 image.",
              "Successfully downloaded ", " images.")
  }

  function ImagesFailed(n: nat): string {
    CountLine(n, "No images failed to download.", "Failed to download 1 image.",
              "Failed to download ", " images.")
  }

  function ImagesSkipped(n: nat): string {
    CountLine(n, "No images were skipped.", "Skipped downloading 1 image.",
              "Skipped downloading ", " images.")
  }

  function ChaptersCompleted(n: nat): string {
    CountLine(n, "No chapters were fully downloaded.", "Completely downloaded 1 chapter.",
              "Completely downloaded ", " chapters.")
  }

  function ChaptersIncomplete(n: nat): string {
    CountLine(n, "No chapters were not fully downloaded.", "Not fully downloaded 1 chapter.",
              "Not fully downloaded ", " chapters.")
  }

  function ChaptersSkipped(n: nat): string {
    CountLine(n, "No chapters were skipped.", "Skipped downloading 1 chapter.",
              "Skipped downloading ", " chapters.")
  }

  /** No summary line holds a newline. */
  lemma ImagesSucceededNoNewline(n: nat)
    ensures NoNewline(ImagesSucceeded(n))
  {
    CountLineNoNewline(n, "No images were successfully downloaded.", "Successfully downloaded 1 image.",
                       "Successfully downloaded ", " images.");
  }

  lemma ImagesFailedNoNewline(n: nat)
    ensures NoNewline(ImagesFailed(n))
  {
    CountLineNoNewline(n, "No images failed to download.", "Failed to download 1 image.",
                       "Failed to download ", " images.");
  }

  lemma ImagesSkippedNoNewline(n: nat)
    ensures NoNewline(ImagesSkipped(n))
  {
    CountLineNoNewline(n, "No images were skipped.", "Skipped downloading 1 image.",
                       "Skipped downloading ", " images.");
  }

  lemma ChaptersCompletedNoNewline(n: nat)
    ensures NoNewline(ChaptersCompleted(n))
  {
    CountLineNoNewline(n, "No chapters were fully downloaded.", "Completely downloaded 1 chapter.",
                       "Completely downloaded ", " chapters.");
  }

  lemma ChaptersSkippedNoNewline(n: nat)
    ensures NoNewline(ChaptersSkipped(n))
  {
    CountLineNoNewline(n, "No chapters were skipped.", "Skipped downloading 1 chapter.",
                       "Skipped downloading ", " chapters.");
  }

  /** A line "<caption><i>" for an integer that may be negative. */
  function Labelled(caption: string, i: int): string { caption + IntToString(i) }

  lemma LabelledInjective(caption: string, i: int, j: int)
    requires Labelled(caption, i) == Labelled(caption, j)
    ensures i == j
  {
    SameFrame(caption, IntToString(i), IntToString(j), "");
    IntToStringInjective(i, j);
  }

  /** Every summary line of the statistics managers determines the count it reports. */
  lemma SummaryLinesInjective(n: nat, m: nat)
    ensures ImagesSucceeded(n) == ImagesSucceeded(m) ==> n == m
    ensures ImagesFailed(n) == ImagesFailed(m) ==> n == m
    ensures ImagesSkipped(n) == ImagesSkipped(m) ==> n == m
    ensures ChaptersCompleted(n) == ChaptersCompleted(m) ==> n == m
    ensures ChaptersIncomplete(n) == ChaptersIncomplete(m) ==> n == m
    ensures ChaptersSkipped(n) == ChaptersSkipped(m) ==> n == m
  {
    if ImagesSucceeded(n) == ImagesSucceeded(m) {
      CountLineInjective(n, m, "No images were successfully downloaded.", "Successfully downloaded 1 image.",
                         "Successfully downloaded ", " images.");
    }
    if ImagesFailed(n) == ImagesFailed(m) {
      CountLineInjective(n, m, "No images failed to download.", "Failed to download 1 image.",
                         "Failed to download ", " images.");
    }
    if ImagesSkipped(n) == ImagesSkipped(m) {
      CountLineInjective(n, m, "No images were skipped.", "Skipped downloading 1 image.",
                         "Skipped downloading ", " images.");
    }
    if ChaptersCompleted(n) == ChaptersCompleted(m) {
      CountLineInjective(n, m, "No chapters were fully downloaded.", "Completely downloaded 1 chapter.",
                         "Completely downloaded ", " chapters.");
    }
    if ChaptersIncomplete(n) == ChaptersIncomplete(m) {
      CountLineInjective(n, m, "No chapters were not fully downloaded.", "Not fully downloaded 1 chapter.",
                         "Not fully downloaded ", " chapters.");
    }
    if ChaptersSkipped(n) == ChaptersSkipped(m) {
      CountLineInjective(n, m, "No chapters were skipped.", "Skipped downloading 1 chapter.",
                         "Skipped downloading ", " chapters.");
    }
  }

  /** What skip_msg logs for the parts it collected: their " | "-join, or nothing when there
      is no part or printing is switched off. */
  function SkipLine(parts: seq<string>, printSkipMsg: bool): Option<string> {
    if parts != [] && printSkipMsg then Some(JoinWith(parts, " | ")) else None
  }
}
