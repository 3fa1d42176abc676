/** Lexicographic orders on strings and paths, as Python compares str and pathlib paths,
    and sorting a finite set under such an order (Python's sorted()). */
module Ordering {

  ghost predicate StrictTotal<T(!new)>(lt: (T, T) -> bool) {
    && (forall a :: !lt(a, a))
    && (forall a, b, c :: lt(a, b) && lt(b, c) ==> lt(a, c))
    && (forall a, b :: a != b ==> lt(a, b) || lt(b, a))
  }

  /** a comes strictly before b: a is a proper prefix of b, or the first difference is smaller in a. */
  function LexLess<T(==)>(a: seq<T>, b: seq<T>, lt: (T, T) -> bool): bool
    decreases |a|
  {
    if |a| == 0 then |b| > 0
    else if |b| == 0 then false
    else if a[0] == b[0] then LexLess(a[1..], b[1..], lt)
    else lt(a[0], b[0])
  }

  lemma {:induction false} LexIrreflexive<T(!new)>(a: seq<T>, lt: (T, T) -> bool)
    ensures !LexLess(a, a, lt)
    decreases |a|
  {
    if |a| > 0 { LexIrreflexive(a[1..], lt); }
  }

  lemma {:induction false} LexTransitive<T(!new)>(a: seq<T>, b: seq<T>, c: seq<T>, lt: (T, T) -> bool)
    requires StrictTotal(lt)
    requires LexLess(a, b, lt) && LexLess(b, c, lt)
    ensures LexLess(a, c, lt)
    decreases |a|
  {
    if |a| > 0 && |b| > 0 && |c| > 0 && a[0] == b[0] && b[0] == c[0] {
      LexTransitive(a[1..], b[1..], c[1..], lt);
    }
  }

  lemma {:induction false} LexTotal<T(!new)>(a: seq<T>, b: seq<T>, lt: (T, T) -> bool)
    requires StrictTotal(lt)
    requires a != b
    ensures LexLess(a, b, lt) || LexLess(b, a, lt)
    decreases |a|
  {
    if |a| > 0 && |b| > 0 && a[0] == b[0] {
      assert a == [a[0]] + a[1..] && b == [b[0]] + b[1..];
      LexTotal(a[1..], b[1..], lt);
    }
  }

  function CharLess(a: char, b: char): bool { a < b }

  /** Python's str < str: code-point lexicographic order. */
  function StrLess(a: string, b: string): bool { LexLess(a, b, CharLess) }

  /** Python's PurePosixPath < PurePosixPath: lexicographic over the path components. */
  function PathLess(a: seq<string>, b: seq<string>): bool { LexLess(a, b, StrLess) }

  lemma StrLessStrictTotal()
    ensures StrictTotal(StrLess)
  {
    forall a: string ensures !StrLess(a, a) { LexIrreflexive(a, CharLess); }
    forall a: string, b: string, c: string | StrLess(a, b) && StrLess(b, c) ensures StrLess(a, c) {
      LexTransitive(a, b, c, CharLess);
    }
    forall a: string, b: string | a != b ensures StrLess(a, b) || StrLess(b, a) {
      LexTotal(a, b, CharLess);
    }
  }

  lemma PathLessStrictTotal()
    ensures StrictTotal(PathLess)
  {
    StrLessStrictTotal();
    forall a: seq<string> ensures !PathLess(a, a) { LexIrreflexive(a, StrLess); }
    forall a: seq<string>, b: seq<string>, c: seq<string> | PathLess(a, b) && PathLess(b, c)
      ensures PathLess(a, c)
    {
      LexTransitive(a, b, c, StrLess);
    }
    forall a: seq<string>, b: seq<string> | a != b ensures PathLess(a, b) || PathLess(b, a) {
      LexTotal(a, b, StrLess);
    }
  }

  ghost predicate SortedBy<T>(s: seq<T>, lt: (T, T) -> bool) {
    forall i, j :: 0 <= i < j < |s| ==> lt(s[i], s[j])
  }

  lemma {:induction false} MinimumExists<T(!new)>(s: set<T>, lt: (T, T) -> bool)
    requires StrictTotal(lt) && s != {}
    ensures exists m :: m in s && forall x :: x in s && x != m ==> lt(m, x)
    decreases |s|
  {
    var y :| y in s;
    if s == {y} {
      assert y in s && forall x :: x in s && x != y ==> lt(y, x);
    } else {
      MinimumExists(s - {y}, lt);
      var m :| m in s - {y} && forall x :: x in s - {y} && x != m ==> lt(m, x);
      if lt(m, y) {
        forall x | x in s && x != m ensures lt(m, x) {
          if x != y { assert x in s - {y}; }
        }
        assert m in s && forall x :: x in s && x != m ==> lt(m, x);
      } else {
        assert lt(y, m);
        forall x | x in s && x != y ensures lt(y, x) {
          if x != m {
            assert x in s - {y} && lt(m, x);
          }
        }
        assert y in s && forall x :: x in s && x != y ==> lt(y, x);
      }
    }
  }

  /** The elements of a finite set in increasing order. */
  function SortSet<T(!new)>(s: set<T>, lt: (T, T) -> bool): (r: seq<T>)
    requires StrictTotal(lt)
    ensures |r| == |s|
    ensures forall x :: x in r <==> x in s
    ensures SortedBy(r, lt)
    decreases |s|
  {
    if s == {} then []
    else
      MinimumExists(s, lt);
      var m :| m in s && forall x :: x in s && x != m ==> lt(m, x);
      var rest := SortSet(s - {m}, lt);
      PrependSmallest(m, rest, lt);
      [m] + rest
  }

  /** A sorted sequence stays sorted under an element smaller than all of its own. */
  lemma PrependSmallest<T>(m: T, rest: seq<T>, lt: (T, T) -> bool)
    requires SortedBy(rest, lt) && forall x :: x in rest ==> lt(m, x)
    ensures SortedBy([m] + rest, lt)
  {
    var r := [m] + rest;
    forall i, j | 0 <= i < j < |r| ensures lt(r[i], r[j]) {
      assert r[j] == rest[j - 1];
      if i > 0 { assert r[i] == rest[i - 1]; }
    }
  }
}
