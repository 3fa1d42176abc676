/** The XHTML page of one EPUB chapter (src/mangadm/assets/__init__.py): a fixed header that
    links the style sheet, one image tag per image path, and the closing tags. */
module Assets {
  import opened Strings
  import opened PathNames
  import opened Seqs

  /** The lines of the header up to the style sheet's `href`. */
  const OpeningLines: seq<string> := [
    "\n        <?xml version=\"1.0\" encoding=\"utf-8\"?>\n",
    "        <!DOCTYPE html>\n",
    "        <html xmlns=\"http://www.w3.org/1999/xhtml\" xml:lang=\"en\" lang=\"en\">\n",
    "        <head>\n",
    "            <meta charset=\"utf-8\" />\n",
    "            <meta name=\"viewport\" content=\"width=device-width, initial-scale=1.0\" />\n",
    "            <link rel=\"stylesheet\" type=\"text/css\" "]

  /** The rest of the header after the `href`. */
  const ClosingLines: seq<string> := [" />\n", "        </head>\n", "        <body>\n", "        "]

  /** The header with the style sheet's name put in by `str.format`. */
  function Header(style: string): string {
    Concat(OpeningLines + ["href=\"" + style + "\""] + ClosingLines)
  }

  const StyleSheet: string := "style.css"
  const Footer: string := "</body></html>"

  /** The tag of one image, its file name inserted verbatim (nothing is escaped). */
  function ImageTag(name: string): string {
    "<img src=\"images/" + name + "\" alt=\"" + name + "\" />"
  }

  /** The final component of every path, in order. */
  function Names(paths: seq<string>): (names: seq<string>)
    ensures |names| == |paths|
  {
    seq(|paths|, i requires 0 <= i < |paths| => NameOf(paths[i]))
  }

  /** The tags of the names, in order. */
  function Tags(names: seq<string>): string {
    if names == [] then "" else Tags(names[..|names| - 1]) + ImageTag(names[|names| - 1])
  }

  /** The page for the paths. */
  function Page(paths: seq<string>): string {
    Header(StyleSheet) + Tags(Names(paths)) + Footer
  }

  /** build_chapter_content: the header, the tag of each path's name, then the footer. */
  method BuildChapterContent(paths: seq<string>) returns (content: string)
    ensures content == Page(paths)
  {
    content := Header(StyleSheet);
    var names := Names(paths);
    content := AppendTags(content, names);
    content := content + Footer;
  }

  /** The loop of build_chapter_content: `content +=` the tag of each name. */
  method AppendTags(prefix: string, names: seq<string>) returns (content: string)
    ensures content == prefix + Tags(names)
  {
    content := prefix;
    assert content == prefix + "";
    var i := 0;
    while i < |names|
      invariant 0 <= i <= |names|
      invariant content == prefix + Tags(names[..i])
    {
      assert names[..i + 1][..i] == names[..i];
      AppendAssoc(prefix, Tags(names[..i]), ImageTag(names[i]));
      content := content + ImageTag(names[i]);
      i := i + 1;
    }
    assert names[..i] == names;
  }

  /** The page starts with the header. */
  lemma PageStartsWithHeader(paths: seq<string>)
    ensures StartsWith(Page(paths), Header(StyleSheet))
  {
    var h, t := Header(StyleSheet), Tags(Names(paths));
    assert h + t + Footer == h + (t + Footer);
    ConcatEnds(h, t + Footer);
  }

  /** The page ends with the footer; with no paths it is the header and the footer only. */
  lemma PageEndsWithFooter(paths: seq<string>)
    ensures EndsWith(Page(paths), Footer)
    ensures paths == [] ==> Page(paths) == Header(StyleSheet) + Footer
  {
    ConcatEnds(Header(StyleSheet) + Tags(Names(paths)), Footer);
  }

  /** Whatever style sheet is formatted in, the header links it, between the fixed opening and
      closing text. */
  lemma HeaderLinksStyle(style: string)
    ensures Header(style) == Concat(OpeningLines) + ("href=\"" + style + "\"") + Concat(ClosingLines)
    ensures Contains(Header(style), "href=\"" + style + "\"")
  {
    var m := "href=\"" + style + "\"";
    ConcatAppend(OpeningLines + [m], ClosingLines);
    ConcatAppend(OpeningLines, [m]);
    assert Concat([m]) == m by {
      assert [m][..0] == [];
    }
    ContainsInfix(Concat(OpeningLines), m, Concat(ClosingLines));
  }

  /** Different style sheets give different headers: the name is put in verbatim. */
  lemma HeaderInjective(a: string, b: string)
    requires Header(a) == Header(b)
    ensures a == b
  {
    HeaderLinksStyle(a);
    HeaderLinksStyle(b);
    QuotedInfixInjective(Concat(OpeningLines), Concat(ClosingLines), a, b);
  }

  /** The same text around two quoted names makes the names equal. */
  lemma QuotedInfixInjective(o: string, c: string, a: string, b: string)
    requires o + ("href=\"" + a + "\"") + c == o + ("href=\"" + b + "\"") + c
    ensures a == b
  {
    var k := |o| + 6;
    assert |a| == |b|;
    assert (o + ("href=\"" + a + "\"") + c)[k..k + |a|] == a;
    assert (o + ("href=\"" + b + "\"") + c)[k..k + |b|] == b;
  }

  /** The tags of a concatenation are the tags of its parts. */
  lemma {:induction false} TagsAppend(a: seq<string>, b: seq<string>)
    ensures Tags(a + b) == Tags(a) + Tags(b)
    decreases |b|
  {
    if b == [] {
      assert a + b == a;
    } else {
      var b', t := b[..|b| - 1], ImageTag(b[|b| - 1]);
      assert (a + b)[..|a + b| - 1] == a + b';
      TagsAppend(a, b');
      calc {
        Tags(a + b);
        Tags(a + b') + t;
        (Tags(a) + Tags(b')) + t;
        Tags(a) + (Tags(b') + t);
      }
    }
  }

  /** The tags of names hold the tag of the i-th name right after the tags of the names
      before it. */
  lemma TagsSplit(names: seq<string>, i: nat)
    requires i < |names|
    ensures Tags(names) == Tags(names[..i]) + ImageTag(names[i]) + Tags(names[i + 1..])
  {
    var p, m, q := names[..i], [names[i]], names[i + 1..];
    SplitAround(names, i);
    TagsAppend(p + m, q);
    TagsAppend(p, m);
    TagsSingle(names[i]);
    calc {
      Tags(names);
      Tags(p + m) + Tags(q);
      (Tags(p) + Tags(m)) + Tags(q);
    }
  }

  /** One name gives its own tag. */
  lemma TagsSingle(name: string)
    ensures Tags([name]) == ImageTag(name)
  {
    assert [name][..0] == [];
  }

  /** The page holds the tag of the i-th path's name right after the tags of the names
      before it, so the tags keep the input order. */
  lemma TagAt(paths: seq<string>, i: nat)
    requires i < |paths|
    ensures Tags(Names(paths)) ==
            Tags(Names(paths)[..i]) + ImageTag(NameOf(paths[i])) + Tags(Names(paths)[i + 1..])
  {
    TagsSplit(Names(paths), i);
  }
}
