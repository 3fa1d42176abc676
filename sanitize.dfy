/** The translation table the current engine applies to manga names and chapter titles
    with str.translate, and what it guarantees about a sanitised name. */
module Sanitize {
  import opened Wrappers

  /** The replacement the table lists for c, None for a character the table leaves alone. */
  function Replacement(c: char): Option<string> {
    if c in "/\\\"'$#@~|:+=" then Some("_")
    else if c == '?' then Some("")
    else if c == '*' || c == '%' then Some(" ")
    else if c in "}{[]" then Some("-")
    else if c == '&' then Some(" - ")
    else None
  }

  /** A character the table has an entry for. */
  predicate IsKey(c: char) { Replacement(c).Some? }

  /** The keys are exactly the twenty characters of the table. */
  lemma KeysAreTheTable(c: char)
    ensures IsKey(c) <==> c in "/\\\"'?*%$#@~}{|:+=[]&"
  {
  }

  /** A string none of whose characters is a table key. */
  predicate Clean(s: string) {
    forall i :: 0 <= i < |s| ==> !IsKey(s[i])
  }

  /** No replacement text contains a key. */
  lemma ReplacementsClean(c: char)
    requires IsKey(c)
    ensures Clean(Replacement(c).value)
  {
  }

  /** What str.translate writes for one character. */
  function TranslateChar(c: char): (r: string)
    ensures !IsKey(c) ==> r == [c]
    ensures IsKey(c) ==> r == Replacement(c).value
  {
    match Replacement(c)
    case Some(t) => t
    case None => [c]
  }

  /** str.translate(translation_table). */
  function Translate(s: string): string
  {
    if s == [] then [] else Translate(s[..|s| - 1]) + TranslateChar(s[|s| - 1])
  }

  /** Translating works character by character: a concatenation translates piecewise. */
  lemma {:induction false} TranslateAppend(a: string, b: string)
    ensures Translate(a + b) == Translate(a) + Translate(b)
    decreases |b|
  {
    if b == [] {
      assert a + b == a;
    } else {
      var b', c := b[..|b| - 1], b[|b| - 1];
      var t := TranslateChar(c);
      assert (a + b)[..|a + b| - 1] == a + b';
      TranslateAppend(a, b');
      calc {
        Translate(a + b);
        Translate(a + b') + t;
        (Translate(a) + Translate(b')) + t;
        Translate(a) + (Translate(b') + t);
      }
    }
  }

  /** The table's entries as they act on a single character. */
  lemma TranslateSingle(c: char)
    ensures c == '?' ==> Translate([c]) == ""
    ensures c == '&' ==> Translate([c]) == " - "
    ensures c in "[]{}" ==> Translate([c]) == "-"
    ensures c in "*%" ==> Translate([c]) == " "
    ensures c in "/\\\"'$#@~|:+=" ==> Translate([c]) == "_"
    ensures !IsKey(c) ==> Translate([c]) == [c]
  {
    assert [c][..0] == [];
  }

  /** A sanitised name contains no character of the table. */
  lemma {:induction false} TranslateClean(s: string)
    ensures Clean(Translate(s))
    decreases |s|
  {
    if s != [] {
      TranslateClean(s[..|s| - 1]);
      var c := s[|s| - 1];
      if IsKey(c) { ReplacementsClean(c); }
      var a, b := Translate(s[..|s| - 1]), TranslateChar(c);
      assert forall i :: |a| <= i < |a| + |b| ==> (a + b)[i] == b[i - |a|];
    }
  }

  /** A string without table characters is left as it is. */
  lemma {:induction false} TranslateCleanFixed(s: string)
    requires Clean(s)
    ensures Translate(s) == s
    decreases |s|
  {
    if s != [] {
      TranslateCleanFixed(s[..|s| - 1]);
      assert s[..|s| - 1] + [s[|s| - 1]] == s;
    }
  }

  /** Sanitising twice is sanitising once. */
  lemma TranslateIdempotent(s: string)
    ensures Translate(Translate(s)) == Translate(s)
  {
    TranslateClean(s);
    TranslateCleanFixed(Translate(s));
  }
}
