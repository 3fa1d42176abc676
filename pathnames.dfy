/** The name rules of Python's PurePosixPath, applied to plain strings: how a path string
    splits into components, its final name, the name's suffix and `with_suffix`. */
module PathNames {
  import opened Wrappers
  import opened Strings

  /** The parts PurePosixPath keeps: the '/'-separated pieces that are neither empty nor ".". */
  function Kept(parts: seq<string>): (cs: seq<string>)
    ensures |cs| <= |parts|
    ensures forall i :: 0 <= i < |cs| ==> cs[i] in parts && cs[i] != "" && cs[i] != "."
  {
    if parts == [] then []
    else
      var front := Kept(parts[..|parts| - 1]);
      var p := parts[|parts| - 1];
      if p == "" || p == "." then front else front + [p]
  }

  /** PurePosixPath(s).parts without the root. */
  function Components(s: string): (cs: seq<string>)
    ensures forall i :: 0 <= i < |cs| ==> cs[i] != "" && cs[i] != "." && '/' !in cs[i]
  {
    var parts := Split(s, '/');
    var cs := Kept(parts);
    assert forall i :: 0 <= i < |cs| ==> '/' !in cs[i] by {
      forall i | 0 <= i < |cs| ensures '/' !in cs[i] {
        var k :| 0 <= k < |parts| && parts[k] == cs[i];
      }
    }
    cs
  }

  /** PurePosixPath(s).name: the last component, "" when there is none. */
  function NameOf(s: string): (r: string)
    ensures '/' !in r && r != "."
  {
    var cs := Components(s);
    if cs == [] then "" else cs[|cs| - 1]
  }

  /** PurePath.suffix: from the last '.' of the name, provided that dot is neither the first
      nor the last character; "" otherwise. */
  function Suffix(name: string): (r: string)
    ensures r == "" || ProperSuffix(r)
    ensures EndsWith(name, r) && (r != "" ==> |r| < |name|)
  {
    var a := AfterLast(name, '.');
    if 1 <= |a| && |a| + 1 < |name| then
      assert name[|name| - |a| - 1..] == [name[|name| - |a| - 1]] + a;
      "." + a
    else ""
  }

  /** The name without its suffix. */
  function Stem(name: string): (r: string)
    ensures r + Suffix(name) == name
  {
    EndsWithSplit(name, Suffix(name));
    name[..|name| - |Suffix(name)|]
  }

  /** A suffix `with_suffix` accepts: no '/', and either empty or '.' followed by something. */
  predicate ValidSuffix(s: string) {
    '/' !in s && (s == "" || (s[0] == '.' && s != "."))
  }

  /** PurePath(name).with_suffix(suffix) for a single-component path: ValueError for an
      invalid suffix or an empty name (a path "." has an empty name). */
  function WithSuffix(name: string, suffix: string): (r: Result<string>)
    ensures r.Ok? <==> ValidSuffix(suffix) && name != "" && name != "."
    ensures r.Ok? ==> r.value == Stem(name) + suffix
  {
    if !ValidSuffix(suffix) then Err(ValueError("Invalid suffix"))
    else if name == "" || name == "." then Err(ValueError("has an empty name"))
    else Ok(Stem(name) + suffix)
  }

  /** A suffix as PurePath.suffix reports it: a '.' followed by at least one character, no other '.'. */
  predicate ProperSuffix(s: string) {
    |s| >= 2 && s[0] == '.' && '.' !in s[1..]
  }

  /** A name without any '.' has no suffix. */
  lemma NoDotNoSuffix(name: string)
    requires '.' !in name
    ensures Suffix(name) == "" && Stem(name) == name
  {
    AfterLastMissing(name, '.');
  }

  /** A proper suffix put after a non-empty stem is read back as the suffix, and the stem as the stem. */
  lemma SuffixAfterStem(stem: string, suffix: string)
    requires stem != "" && ProperSuffix(suffix)
    ensures Suffix(stem + suffix) == suffix && Stem(stem + suffix) == stem
  {
    var tail := suffix[1..];
    assert stem + suffix == (stem + ".") + tail;
    AfterLastOfTail(stem + ".", tail);
  }

  /** Replacing the suffix by a proper one makes that one the suffix of the result and keeps
      the stem: the suffix taken from a URL survives `with_suffix`. */
  lemma WithSuffixSuffix(name: string, suffix: string)
    requires WithSuffix(name, suffix).Ok? && ProperSuffix(suffix)
    ensures Suffix(WithSuffix(name, suffix).value) == suffix
    ensures Stem(WithSuffix(name, suffix).value) == Stem(name)
  {
    SuffixAfterStem(Stem(name), suffix);
  }

  lemma {:induction false} AfterLastMissing(s: string, c: char)
    requires c !in s
    ensures AfterLast(s, c) == s
    decreases |s|
  {
    if s != "" {
      assert s[|s| - 1] in s;
      var front := s[..|s| - 1];
      assert c !in front by {
        forall k | 0 <= k < |front| ensures front[k] != c { assert s[k] in s; }
      }
      AfterLastMissing(s[..|s| - 1], c);
      assert s[..|s| - 1] + [s[|s| - 1]] == s;
    }
  }

  /** The text after the last '.' of `front + tail`, when tail has no '.' and front ends in one. */
  lemma {:induction false} AfterLastOfTail(front: string, tail: string)
    requires front != "" && front[|front| - 1] == '.'
    requires '.' !in tail
    ensures AfterLast(front + tail, '.') == tail
    decreases |tail|
  {
    var s := front + tail;
    if tail == [] {
      assert s == front;
    } else {
      assert s[..|s| - 1] == front + tail[..|tail| - 1];
      assert tail[|tail| - 1] in tail;
      var t := tail[..|tail| - 1];
      assert '.' !in t by {
        forall k | 0 <= k < |t| ensures t[k] != '.' { assert tail[k] in tail; }
      }
      AfterLastOfTail(front, tail[..|tail| - 1]);
      assert tail[..|tail| - 1] + [tail[|tail| - 1]] == tail;
    }
  }
}
