/** Counting the occurrences of a value in a sequence, and its agreement with the multiset
    of the sequence. */
module Seqs {

  /** The number of positions of s holding x. */
  function Occurrences<T(==)>(s: seq<T>, x: T): nat
  {
    if s == [] then 0 else Occurrences(s[..|s| - 1], x) + (if s[|s| - 1] == x then 1 else 0)
  }

  /** One more element counts once more when it is x. */
  lemma OccurrencesSnoc<T>(s: seq<T>, y: T, x: T)
    ensures Occurrences(s + [y], x) == Occurrences(s, x) + (if y == x then 1 else 0)
  {
    assert (s + [y])[..|s|] == s;
  }

  lemma {:induction false} OccurrencesAppend<T>(a: seq<T>, b: seq<T>, x: T)
    ensures Occurrences(a + b, x) == Occurrences(a, x) + Occurrences(b, x)
    decreases |b|
  {
    if b == [] {
      assert a + b == a;
    } else {
      assert (a + b)[..|a + b| - 1] == a + b[..|b| - 1];
      OccurrencesAppend(a, b[..|b| - 1], x);
    }
  }

  /** Occurrences is the multiplicity in the multiset of the sequence. */
  lemma {:induction false} OccurrencesMultiset<T>(s: seq<T>, x: T)
    ensures Occurrences(s, x) == multiset(s)[x]
  {
    if s != [] {
      OccurrencesMultiset(s[..|s| - 1], x);
      assert s == s[..|s| - 1] + [s[|s| - 1]];
    }
  }

  /** Two sequences in which every value occurs equally often have the same multiset. */
  lemma SameOccurrencesSameMultiset<T>(a: seq<T>, b: seq<T>)
    requires forall x :: Occurrences(a, x) == Occurrences(b, x)
    ensures multiset(a) == multiset(b)
  {
    forall x ensures multiset(a)[x] == multiset(b)[x] {
      OccurrencesMultiset(a, x);
      OccurrencesMultiset(b, x);
    }
  }

  /** A sequence is what precedes position i, the element there, and what follows it. */
  lemma SplitAround<T>(s: seq<T>, i: nat)
    requires i < |s|
    ensures s == (s[..i] + [s[i]]) + s[i + 1..]
  {
  }

  /** The first n elements are the first n - 1 and then the n-th. */
  lemma TakeSnoc<T>(s: seq<T>, n: nat)
    requires 0 < n <= |s|
    ensures s[..n] == s[..n - 1] + [s[n - 1]]
  {
  }

  lemma AppendAssoc<T>(a: seq<T>, b: seq<T>, c: seq<T>)
    ensures (a + b) + c == a + (b + c)
  {
  }
}
