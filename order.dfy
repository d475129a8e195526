/**
 * The default order of JavaScript's `Array.prototype.sort` on strings
 * (lexicographic by character, a proper prefix first) and a sort by it.
 */
module Order {

  /** `a` sorts before or equal to `b`. */
  predicate LexLe(a: string, b: string)
    decreases |a|
  {
    a == [] || (b != [] && (a[0] < b[0] || (a[0] == b[0] && LexLe(a[1..], b[1..]))))
  }

  lemma {:induction false} LexLeTotal(a: string, b: string)
    ensures LexLe(a, b) || LexLe(b, a)
    decreases |a|
  {
    if a != [] && b != [] && a[0] == b[0] {
      LexLeTotal(a[1..], b[1..]);
    }
  }

  lemma {:induction false} LexLeTransitive(a: string, b: string, c: string)
    requires LexLe(a, b) && LexLe(b, c)
    ensures LexLe(a, c)
    decreases |a|
  {
    if a != [] && a[0] == b[0] && b[0] == c[0] {
      LexLeTransitive(a[1..], b[1..], c[1..]);
    }
  }

  lemma {:induction false} LexLeAntisymmetric(a: string, b: string)
    requires LexLe(a, b) && LexLe(b, a)
    ensures a == b
    decreases |a|
  {
    if a != [] {
      LexLeAntisymmetric(a[1..], b[1..]);
      assert a == [a[0]] + a[1..] && b == [b[0]] + b[1..];
    }
  }

  predicate Sorted(s: seq<string>) {
    forall i, j :: 0 <= i < j < |s| ==> LexLe(s[i], s[j])
  }

  /** Places `x` before the first element it sorts before or equal to. */
  function Insert(x: string, s: seq<string>): (r: seq<string>)
    ensures multiset(r) == multiset(s) + multiset{x}
  {
    if s == [] || LexLe(x, s[0]) then [x] + s
    else
      assert s == [s[0]] + s[1..];
      [s[0]] + Insert(x, s[1..])
  }

  /** Insertion sort: the permutation of `s` that the default `sort()` produces. */
  function SortStrings(s: seq<string>): (r: seq<string>)
    ensures multiset(r) == multiset(s)
  {
    if s == [] then []
    else
      assert s == [s[0]] + s[1..];
      Insert(s[0], SortStrings(s[1..]))
  }

  lemma {:induction false} InsertSorted(x: string, s: seq<string>)
    requires Sorted(s)
    ensures Sorted(Insert(x, s))
  {
    if s == [] || LexLe(x, s[0]) {
      forall j | 0 <= j < |s|
        ensures LexLe(x, s[j])
      {
        if j > 0 {
          LexLeTransitive(x, s[0], s[j]);
        }
      }
    } else {
      LexLeTotal(x, s[0]);
      InsertSorted(x, s[1..]);
      var rest := Insert(x, s[1..]);
      forall k | 0 <= k < |rest|
        ensures LexLe(s[0], rest[k])
      {
        assert rest[k] in multiset(rest);
      }
    }
  }

  lemma {:induction false} SortStringsSorted(s: seq<string>)
    ensures Sorted(SortStrings(s))
  {
    if s != [] {
      SortStringsSorted(s[1..]);
      InsertSorted(s[0], SortStrings(s[1..]));
    }
  }
}
