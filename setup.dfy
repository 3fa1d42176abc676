/** parse_requirements of setup.py, on the text of the requirements file: the text is
    stripped, split on newlines, and every line that has text and does not start with '#'
    is kept, stripped. */
module Setup {
  import opened Strings

  /** The comprehension's filter: a line is kept when its stripped text is not empty and the
      line as read (not stripped) does not start with '#'. */
  predicate KeptLine(r: string) {
    Strip(r) != "" && !StartsWith(r, "#")
  }

  /** The comprehension over the lines: each kept line, stripped, in line order. */
  function Requirements(lines: seq<string>): (rs: seq<string>)
    ensures |rs| <= |lines|
    ensures forall i :: 0 <= i < |rs| ==> rs[i] != "" && IsStripped(rs[i])
  {
    if lines == [] then []
    else
      var front := Requirements(lines[..|lines| - 1]);
      var r := lines[|lines| - 1];
      if KeptLine(r) then
        StripIsStripped(r);
        front + [Strip(r)]
      else front
  }

  /** parse_requirements on the file's text. */
  function ParseRequirements(text: string): (rs: seq<string>)
    ensures |rs| <= |Split(Strip(text), '\n')|
    ensures forall i :: 0 <= i < |rs| ==> rs[i] != "" && IsStripped(rs[i])
  {
    Requirements(Split(Strip(text), '\n'))
  }

  /** The entries follow the line order: the entries of two runs of lines are the entries of
      the first run followed by those of the second. */
  lemma {:induction false} RequirementsAppend(a: seq<string>, b: seq<string>)
    ensures Requirements(a + b) == Requirements(a) + Requirements(b)
    decreases |b|
  {
    if b == [] {
      assert a + b == a;
    } else {
      assert (a + b)[..|a + b| - 1] == a + b[..|b| - 1];
      RequirementsAppend(a, b[..|b| - 1]);
    }
  }

  /** A list comprehension `[f(r) for r in lines if keep(r)]`, for any filter and map. */
  function Comprehension(lines: seq<string>, keep: string -> bool, f: string -> string): seq<string> {
    if lines == [] then []
    else
      var r := lines[|lines| - 1];
      Comprehension(lines[..|lines| - 1], keep, f) + (if keep(r) then [f(r)] else [])
  }

  /** Requirements is the comprehension with the filter KeptLine and the map Strip. */
  lemma {:induction false} RequirementsComprehension(lines: seq<string>)
    ensures Requirements(lines) == Comprehension(lines, KeptLine, Strip)
    decreases |lines|
  {
    if lines != [] {
      RequirementsComprehension(lines[..|lines| - 1]);
    }
  }

  /** Some line of lines passes keep and maps to x. */
  ghost predicate GivenBy(lines: seq<string>, keep: string -> bool, f: string -> string, x: string) {
    exists i :: 0 <= i < |lines| && keep(lines[i]) && f(lines[i]) == x
  }

  /** A comprehension holds exactly the images of the lines that pass its filter. */
  lemma {:induction false} ComprehensionMembers(lines: seq<string>, keep: string -> bool,
                                                f: string -> string, x: string)
    ensures x in Comprehension(lines, keep, f) <==> GivenBy(lines, keep, f, x)
    decreases |lines|
  {
    if lines != [] {
      var front, r := lines[..|lines| - 1], lines[|lines| - 1];
      ComprehensionMembers(front, keep, f, x);
      if GivenBy(front, keep, f, x) {
        var i :| 0 <= i < |front| && keep(front[i]) && f(front[i]) == x;
        assert lines[i] == front[i];
      }
      if GivenBy(lines, keep, f, x) {
        var i :| 0 <= i < |lines| && keep(lines[i]) && f(lines[i]) == x;
        if i < |front| {
          assert front[i] == lines[i];
        }
      }
    }
  }

  /** An entry is exactly the stripped text of some kept line, and every kept line gives one. */
  lemma RequirementsMembers(lines: seq<string>, x: string)
    ensures x in Requirements(lines) <==> GivenBy(lines, KeptLine, Strip, x)
  {
    RequirementsComprehension(lines);
    ComprehensionMembers(lines, KeptLine, Strip, x);
  }

  /** A line that starts with a space and holds a comment is kept: the '#' test looks at the
      line before it is stripped. */
  lemma IndentedCommentKept(lines: seq<string>, i: nat)
    requires i < |lines| && lines[i] != "" && lines[i][0] == ' ' && Strip(lines[i]) != ""
    ensures Strip(lines[i]) in Requirements(lines)
  {
    assert KeptLine(lines[i]);
    assert GivenBy(lines, KeptLine, Strip, Strip(lines[i]));
    RequirementsMembers(lines, Strip(lines[i]));
  }

  /** A line that starts with '#' gives no entry of its own: with it removed, the entries are
      the same. */
  lemma CommentLineDropped(a: seq<string>, comment: string, b: seq<string>)
    requires StartsWith(comment, "#")
    ensures Requirements(a + [comment] + b) == Requirements(a) + Requirements(b)
  {
    RequirementsAppend(a + [comment], b);
    RequirementsAppend(a, [comment]);
    assert [comment][..0] == [];
  }

  /** A stripped, non-empty requirement that does not start with '#' is read back as itself. */
  lemma OneLine(req: string)
    requires req != "" && IsStripped(req) && !StartsWith(req, "#") && '\n' !in req
    ensures ParseRequirements(req) == [req]
  {
    assert Strip(req) == req by {
      assert StripLeft(req) == req;
    }
    assert Split(req, '\n') == [req] by {
      SplitWithoutSep(req, '\n');
    }
    assert [req][..0] == [];
  }
}
