/** Character and string helpers with the semantics of the Python built-ins they stand for
    (restricted to ASCII where Python consults Unicode tables). */
module Strings {

  predicate IsDigit(c: char) { '0' <= c <= '9' }

  /** Python's str.isdigit() on ASCII text: non-empty and every character a digit. */
  predicate IsDigits(s: string) {
    |s| > 0 && forall i :: 0 <= i < |s| ==> IsDigit(s[i])
  }

  /** The value int(s) of a string of decimal digits. */
  function DigitsValue(s: string): nat
    requires forall i :: 0 <= i < |s| ==> IsDigit(s[i])
  {
    if |s| == 0 then 0
    else
      assert IsDigit(s[|s| - 1]);
      DigitsValue(s[..|s| - 1]) * 10 + (s[|s| - 1] as int - '0' as int)
  }

  function DigitChar(d: nat): (c: char)
    requires d < 10
    ensures IsDigit(c) && c as int - '0' as int == d
  {
    ('0' as int + d) as char
  }

  /** Python's str(n) for a non-negative integer. */
  function NatToString(n: nat): (s: string)
    ensures IsDigits(s)
    ensures DigitsValue(s) == n
  {
    if n < 10 then [DigitChar(n)]
    else
      var front := NatToString(n / 10);
      var s := front + [DigitChar(n % 10)];
      assert s[..|s| - 1] == front;
      s
  }

  /** Python's str(i) for any integer. */
  function IntToString(i: int): (s: string)
    ensures i >= 0 ==> s == NatToString(i)
    ensures i < 0 ==> s == "-" + NatToString(-i)
  {
    if i >= 0 then NatToString(i) else "-" + NatToString(-i)
  }

  function Zeros(k: nat): (s: string)
    ensures |s| == k && forall i :: 0 <= i < k ==> s[i] == '0'
  {
    if k == 0 then "" else "0" + Zeros(k - 1)
  }

  /** Python's f"{n:0Wd}" for a non-negative n: zero-padded on the left to at least W characters. */
  function ZeroPad(n: nat, width: nat): (s: string)
    ensures |s| == if |NatToString(n)| < width then width else |NatToString(n)|
    ensures IsDigits(s) && DigitsValue(s) == n
  {
    var digits := NatToString(n);
    if |digits| < width then
      var s := Zeros(width - |digits|) + digits;
      ZerosPrefixValue(width - |digits|, digits);
      s
    else digits
  }

  /** A string of digits has the value 0 exactly when every digit is '0'. */
  lemma {:induction false} DigitsValueZero(s: string)
    requires forall i :: 0 <= i < |s| ==> IsDigit(s[i])
    ensures DigitsValue(s) == 0 <==> forall i :: 0 <= i < |s| ==> s[i] == '0'
    decreases |s|
  {
    if |s| > 0 {
      var f := s[..|s| - 1];
      DigitsValueZero(f);
      assert forall i :: 0 <= i < |f| ==> f[i] == s[i];
    }
  }

  lemma {:induction false} ZerosPrefixValue(k: nat, d: string)
    requires forall i :: 0 <= i < |d| ==> IsDigit(d[i])
    ensures forall i :: 0 <= i < |Zeros(k) + d| ==> IsDigit((Zeros(k) + d)[i])
    ensures DigitsValue(Zeros(k) + d) == DigitsValue(d)
    decreases k + |d|
  {
    var s := Zeros(k) + d;
    if |d| == 0 {
      assert s == Zeros(k);
      if k > 0 {
        assert s[..|s| - 1] == Zeros(k - 1) + "";
        ZerosPrefixValue(k - 1, "");
      }
    } else {
      assert s[..|s| - 1] == Zeros(k) + d[..|d| - 1];
      ZerosPrefixValue(k, d[..|d| - 1]);
    }
  }

  predicate StartsWith(s: string, prefix: string) {
    |prefix| <= |s| && s[..|prefix|] == prefix
  }

  predicate EndsWith(s: string, suffix: string) {
    |suffix| <= |s| && s[|s| - |suffix|..] == suffix
  }

  /** A string that ends with a suffix is what precedes the suffix, then the suffix. */
  lemma EndsWithSplit(s: string, suffix: string)
    requires EndsWith(s, suffix)
    ensures s[..|s| - |suffix|] + suffix == s
  {
    assert s == s[..|s| - |suffix|] + s[|s| - |suffix|..];
  }

  /** Python's `sub in s` for strings. */
  predicate Contains(s: string, sub: string)
    decreases |s|
  {
    StartsWith(s, sub) || (s != "" && Contains(s[1..], sub))
  }

  /** sub occurs in s wherever s holds it at some offset. */
  lemma {:induction false} ContainsAt(s: string, sub: string, k: nat)
    requires k + |sub| <= |s| && s[k..k + |sub|] == sub
    ensures Contains(s, sub)
    decreases k
  {
    if k > 0 {
      assert s[1..][k - 1..k - 1 + |sub|] == s[k..k + |sub|];
      ContainsAt(s[1..], sub, k - 1);
    }
  }

  function LowerChar(c: char): char {
    if 'A' <= c <= 'Z' then (c as int + 32) as char else c
  }

  /** Python's str.lower() on ASCII letters. */
  function Lower(s: string): (r: string)
    ensures |r| == |s| && forall i :: 0 <= i < |s| ==> r[i] == LowerChar(s[i])
  {
    if s == "" then "" else [LowerChar(s[0])] + Lower(s[1..])
  }

  /** Lower-casing twice is lower-casing once. */
  lemma LowerIdempotent(s: string)
    ensures Lower(Lower(s)) == Lower(s)
  {
  }

  /** The ASCII characters for which Python's str.isspace() holds. */
  predicate IsSpace(c: char) {
    c == ' ' || (9 <= c as int <= 13) || (0x1c <= c as int <= 0x1f)
  }

  function StripLeft(s: string): (r: string)
    ensures |r| <= |s| && r == s[|s| - |r|..]
    ensures r == "" || !IsSpace(r[0])
    ensures forall i :: 0 <= i < |s| - |r| ==> IsSpace(s[i])
  {
    if s != "" && IsSpace(s[0]) then
      var r := StripLeft(s[1..]);
      assert s[1..][|s| - 1 - |r|..] == s[|s| - |r|..];
      assert forall i :: 1 <= i < |s| - |r| ==> s[i] == s[1..][i - 1];
      r
    else s
  }

  function StripRight(s: string): (r: string)
    ensures |r| <= |s| && r == s[..|r|]
    ensures r == "" || !IsSpace(r[|r| - 1])
    ensures forall i :: |r| <= i < |s| ==> IsSpace(s[i])
  {
    if s != "" && IsSpace(s[|s| - 1]) then StripRight(s[..|s| - 1]) else s
  }

  /** Python's str.strip() with no argument. */
  function Strip(s: string): string {
    StripRight(StripLeft(s))
  }

  predicate IsStripped(s: string) {
    s == "" || (!IsSpace(s[0]) && !IsSpace(s[|s| - 1]))
  }

  lemma StripIsStripped(s: string)
    ensures IsStripped(Strip(s))
  {
    var l := StripLeft(s);
    var r := StripRight(l);
    if r != "" {
      assert r[0] == l[0];
    }
  }

  /** Python's s.split(sep) for a one-character separator. */
  function Split(s: string, sep: char): (parts: seq<string>)
    ensures |parts| >= 1
    ensures forall k, i :: 0 <= k < |parts| && 0 <= i < |parts[k]| ==> parts[k][i] != sep
    decreases |s|
  {
    if s == "" then [""]
    else
      var rest := Split(s[1..], sep);
      if s[0] == sep then [""] + rest
      else
        assert forall i :: 0 <= i < |[s[0]] + rest[0]| ==> ([s[0]] + rest[0])[i] != sep by {
          forall i | 0 <= i < |[s[0]] + rest[0]| ensures ([s[0]] + rest[0])[i] != sep {
            if i > 0 { assert ([s[0]] + rest[0])[i] == rest[0][i - 1]; }
          }
        }
        [[s[0]] + rest[0]] + rest[1..]
  }

  /** Python's sep.join(parts). */
  function Join(parts: seq<string>, sep: char): string {
    if |parts| == 0 then ""
    else if |parts| == 1 then parts[0]
    else parts[0] + [sep] + Join(parts[1..], sep)
  }

  /** A text without the separator splits into itself. */
  lemma {:induction false} SplitWithoutSep(s: string, sep: char)
    requires sep !in s
    ensures Split(s, sep) == [s]
    decreases |s|
  {
    if s != "" {
      SplitWithoutSep(s[1..], sep);
      assert [s[0]] + s[1..] == s;
    }
  }

  /** The first separator ends the first part. */
  lemma {:induction false} SplitAt(a: string, sep: char, b: string)
    requires sep !in a
    ensures Split(a + [sep] + b, sep) == [a] + Split(b, sep)
    decreases |a|
  {
    var s := a + [sep] + b;
    if a == [] {
      assert s == [sep] + b && s[1..] == b;
    } else {
      assert s[1..] == a[1..] + [sep] + b;
      SplitAt(a[1..], sep, b);
      assert [a[0]] + a[1..] == a;
    }
  }

  /** Splitting and joining again gives back the original text. */
  lemma {:induction false} JoinSplit(s: string, sep: char)
    ensures Join(Split(s, sep), sep) == s
    decreases |s|
  {
    if s != "" {
      var rest := Split(s[1..], sep);
      JoinSplit(s[1..], sep);
      if s[0] == sep {
        assert Split(s, sep) == [""] + rest;
        assert ([""] + rest)[1..] == rest;
        assert Join([""] + rest, sep) == "" + [sep] + Join(rest, sep);
      } else {
        var parts := [[s[0]] + rest[0]] + rest[1..];
        assert Split(s, sep) == parts;
        if |rest| == 1 {
          assert Join(parts, sep) == [s[0]] + rest[0];
          assert s == [s[0]] + s[1..];
        } else {
          assert parts[1..] == rest[1..];
          assert Join(rest, sep) == rest[0] + [sep] + Join(rest[1..], sep);
          assert Join(parts, sep) == [s[0]] + rest[0] + [sep] + Join(rest[1..], sep);
          assert s == [s[0]] + s[1..];
        }
      }
    }
  }

  /** A concatenation starts with its first part and ends with its last. */
  lemma ConcatEnds(a: string, b: string)
    ensures StartsWith(a + b, a) && EndsWith(a + b, b)
  {
    assert (a + b)[..|a|] == a;
    assert (a + b)[|a + b| - |b|..] == b;
  }

  /** A suffix no longer than the last part of a concatenation ends the whole exactly when it
      ends that part. */
  lemma EndsWithLast(a: string, b: string, suffix: string)
    requires |suffix| <= |b|
    ensures EndsWith(a + b, suffix) <==> EndsWith(b, suffix)
  {
    assert (a + b)[|a + b| - |suffix|..] == b[|b| - |suffix|..];
  }

  /** A concatenation starts with whatever its first part starts with. */
  lemma StartsWithFirst(a: string, b: string, prefix: string)
    requires StartsWith(a, prefix)
    ensures StartsWith(a + b, prefix)
  {
    assert (a + b)[..|prefix|] == a[..|prefix|];
  }

  /** The middle part of a concatenation occurs in it. */
  lemma ContainsInfix(a: string, m: string, b: string)
    ensures Contains(a + m + b, m)
  {
    assert (a + m + b)[|a|..|a| + |m|] == m;
    ContainsAt(a + m + b, m, |a|);
  }

  /** Python's "".join(parts). */
  function Concat(parts: seq<string>): string {
    if parts == [] then "" else Concat(parts[..|parts| - 1]) + parts[|parts| - 1]
  }

  lemma {:induction false} ConcatAppend(a: seq<string>, b: seq<string>)
    ensures Concat(a + b) == Concat(a) + Concat(b)
    decreases |b|
  {
    if b == [] {
      assert a + b == a;
    } else {
      var b', t := b[..|b| - 1], b[|b| - 1];
      assert (a + b)[..|a + b| - 1] == a + b';
      ConcatAppend(a, b');
      calc {
        Concat(a + b);
        Concat(a + b') + t;
        (Concat(a) + Concat(b')) + t;
        Concat(a) + (Concat(b') + t);
      }
    }
  }

  /** Python's sep.join(parts) for a separator of any length. */
  function JoinWith(parts: seq<string>, sep: string): string {
    if |parts| == 0 then ""
    else if |parts| == 1 then parts[0]
    else parts[0] + sep + JoinWith(parts[1..], sep)
  }

  /** Different numbers print differently. */
  lemma NatToStringInjective(a: nat, b: nat)
    requires NatToString(a) == NatToString(b)
    ensures a == b
  {
  }

  lemma IntToStringInjective(a: int, b: int)
    requires IntToString(a) == IntToString(b)
    ensures a == b
  {
    assert IntToString(a)[0] == '-' <==> a < 0 by {
      if a >= 0 { assert IsDigit(NatToString(a)[0]); }
    }
    assert IntToString(b)[0] == '-' <==> b < 0 by {
      if b >= 0 { assert IsDigit(NatToString(b)[0]); }
    }
    if a < 0 && b < 0 {
      assert NatToString(-a) == IntToString(a)[1..];
    }
  }

  /** The text after the last occurrence of c, or all of s when c does not occur:
      Python's s.rsplit(c)[-1]. */
  function AfterLast(s: string, c: char): (r: string)
    ensures EndsWith(s, r)
    ensures forall i :: 0 <= i < |r| ==> r[i] != c
    ensures |r| < |s| ==> s[|s| - |r| - 1] == c
  {
    if s == "" then ""
    else if s[|s| - 1] == c then ""
    else
      var front := AfterLast(s[..|s| - 1], c);
      var r := front + [s[|s| - 1]];
      assert s[|s| - |r|..] == s[..|s| - 1][|s| - 1 - |front|..] + [s[|s| - 1]];
      r
  }
}
