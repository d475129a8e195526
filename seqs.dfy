/**
 * Sequence operations the listing pages are built from: `Array.prototype.filter`,
 * the order-preserving subsequence relation it establishes, and the
 * first-occurrence de-duplication of `[...new Set(xs)]`.
 */
module Seqs {

  /** `s.filter(p)`: the elements of `s` that satisfy `p`, in their original order. */
  function Filter<T(==,!new)>(s: seq<T>, p: T -> bool): (r: seq<T>)
    ensures |r| <= |s|
    ensures forall x :: x in r <==> x in s && p(x)
  {
    if s == [] then [] else (if p(s[0]) then [s[0]] else []) + Filter(s[1..], p)
  }

  /** The predicate passing exactly what both `p` and `q` pass. */
  function Both<T>(p: T -> bool, q: T -> bool): T -> bool {
    x => p(x) && q(x)
  }

  /** The complement of `p`. */
  function Not<T>(p: T -> bool): T -> bool {
    x => !p(x)
  }

  /**
   * `a` is obtained from `b` by deleting elements: what is kept keeps its
   * relative order and nothing is repeated.
   */
  predicate IsSubsequence<T(==)>(a: seq<T>, b: seq<T>)
    decreases |b|
  {
    a == [] || (b != [] && ((a[0] == b[0] && IsSubsequence(a[1..], b[1..])) || IsSubsequence(a, b[1..])))
  }

  /** Filtering distributes over concatenation. */
  lemma {:induction false} FilterConcat<T(!new)>(a: seq<T>, b: seq<T>, p: T -> bool)
    ensures Filter(a + b, p) == Filter(a, p) + Filter(b, p)
  {
    if a == [] {
      assert a + b == b;
    } else {
      assert (a + b)[1..] == a[1..] + b;
      FilterConcat(a[1..], b, p);
    }
  }

  /** A filter every element passes is the identity. */
  lemma {:induction false} FilterKeepsAll<T(!new)>(s: seq<T>, p: T -> bool)
    requires forall i :: 0 <= i < |s| ==> p(s[i])
    ensures Filter(s, p) == s
  {
    if s != [] {
      FilterKeepsAll(s[1..], p);
    }
  }

  /** A filter no element passes yields the empty sequence. */
  lemma {:induction false} FilterDropsAll<T(!new)>(s: seq<T>, p: T -> bool)
    requires forall i :: 0 <= i < |s| ==> !p(s[i])
    ensures Filter(s, p) == []
  {
    if s != [] {
      FilterDropsAll(s[1..], p);
    }
  }

  /** Only the values of the predicates on the elements of `s` matter. */
  lemma {:induction false} FilterCongruent<T(!new)>(s: seq<T>, p: T -> bool, q: T -> bool)
    requires forall i :: 0 <= i < |s| ==> p(s[i]) == q(s[i])
    ensures Filter(s, p) == Filter(s, q)
  {
    if s != [] {
      FilterCongruent(s[1..], p, q);
    }
  }

  /** Two successive filters are one filter by the conjunction. */
  lemma {:induction false} FilterFilter<T(!new)>(s: seq<T>, p: T -> bool, q: T -> bool)
    ensures Filter(Filter(s, p), q) == Filter(s, Both(p, q))
  {
    if s != [] {
      var head := if p(s[0]) then [s[0]] else [];
      FilterConcat(head, Filter(s[1..], p), q);
      FilterFilter(s[1..], p, q);
    }
  }

  /** Hence the order in which two filters are applied does not matter. */
  lemma FilterCommutes<T(!new)>(s: seq<T>, p: T -> bool, q: T -> bool)
    ensures Filter(Filter(s, p), q) == Filter(Filter(s, q), p)
  {
    FilterFilter(s, p, q);
    FilterFilter(s, q, p);
    FilterCongruent(s, Both(p, q), Both(q, p));
  }

  /** What a filter returns is an order-preserving subsequence of its input. */
  lemma {:induction false} FilterIsSubsequence<T(!new)>(s: seq<T>, p: T -> bool)
    ensures IsSubsequence(Filter(s, p), s)
  {
    if s != [] {
      FilterIsSubsequence(s[1..], p);
      var a := Filter(s, p);
      if p(s[0]) {
        assert a[0] == s[0] && a[1..] == Filter(s[1..], p);
      } else {
        assert a == Filter(s[1..], p);
      }
    }
  }

  /** A subsequence repeats no element more often than the sequence it comes from. */
  lemma {:induction false} SubsequenceMultiset<T>(a: seq<T>, b: seq<T>)
    requires IsSubsequence(a, b)
    ensures multiset(a) <= multiset(b)
    decreases |b|
  {
    if a != [] {
      assert b == [b[0]] + b[1..];
      if a[0] == b[0] && IsSubsequence(a[1..], b[1..]) {
        SubsequenceMultiset(a[1..], b[1..]);
        assert a == [a[0]] + a[1..];
      } else {
        SubsequenceMultiset(a, b[1..]);
      }
    }
  }

  /** A filter and its complement split the input with nothing lost and nothing shared. */
  lemma {:induction false} FilterPartition<T(!new)>(s: seq<T>, p: T -> bool)
    ensures multiset(Filter(s, p)) + multiset(Filter(s, Not(p))) == multiset(s)
    ensures |Filter(s, p)| + |Filter(s, Not(p))| == |s|
  {
    if s != [] {
      FilterPartition(s[1..], p);
      assert s == [s[0]] + s[1..];
    }
  }

  /**
   * A filter keeps every copy of an element that passes and no copy of one
   * that does not: the counts, not just the membership, are fixed.
   */
  lemma {:induction false} FilterCount<T(!new)>(s: seq<T>, p: T -> bool)
    ensures forall x :: multiset(Filter(s, p))[x] == if p(x) then multiset(s)[x] else 0
  {
    if s != [] {
      FilterCount(s[1..], p);
      assert s == [s[0]] + s[1..];
    }
  }

  /** `[...new Set(s)]`: each element of `s` once, at its first occurrence. */
  function Distinct<T(==,!new)>(s: seq<T>): (r: seq<T>)
    ensures forall x :: x in r <==> x in s
    ensures forall x :: multiset(r)[x] <= 1
  {
    if s == [] then []
    else
      var init := Distinct(s[..|s| - 1]);
      assert s == s[..|s| - 1] + [s[|s| - 1]];
      if s[|s| - 1] in init then init else init + [s[|s| - 1]]
  }

  /** An element occurring at two positions occurs at least twice. */
  lemma TwoPositions<T>(s: seq<T>, i: int, j: int)
    requires 0 <= i < j < |s| && s[i] == s[j]
    ensures multiset(s)[s[i]] >= 2
  {
    assert s == s[..i] + [s[i]] + s[i + 1..j] + [s[j]] + s[j + 1..];
  }

  /** A sequence whose multiset has no repeated element holds no element twice. */
  lemma NoRepeats<T(!new)>(s: seq<T>)
    requires forall x :: multiset(s)[x] <= 1
    ensures forall i, j :: 0 <= i < j < |s| ==> s[i] != s[j]
  {
    forall i, j | 0 <= i < j < |s|
      ensures s[i] != s[j]
    {
      if s[i] == s[j] {
        TwoPositions(s, i, j);
      }
    }
  }
}
