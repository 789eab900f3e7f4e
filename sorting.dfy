/**
 * Python's ordering of `str` values (lexicographic by code point) and the
 * stable `list.sort(key=...)` that both channel resolvers use, as pure
 * functions with their ordering and permutation facts proved.
 */
module Sorting {

  /** `a <= b` on Python strings: `a` is a prefix of `b`, or at the first
      position where they differ `a` has the smaller character. */
  predicate LexLe(a: string, b: string)
    decreases |a|
  {
    |a| == 0 || (|b| > 0 && (a[0] < b[0] || (a[0] == b[0] && LexLe(a[1..], b[1..]))))
  }

  lemma {:induction false} LexLeReflexive(a: string)
    ensures LexLe(a, a)
    decreases |a|
  {
    if |a| > 0 {
      LexLeReflexive(a[1..]);
    }
  }

  lemma {:induction false} LexLeTotal(a: string, b: string)
    ensures LexLe(a, b) || LexLe(b, a)
    decreases |a|
  {
    if |a| > 0 && |b| > 0 && a[0] == b[0] {
      LexLeTotal(a[1..], b[1..]);
    }
  }

  lemma {:induction false} LexLeTransitive(a: string, b: string, c: string)
    requires LexLe(a, b) && LexLe(b, c)
    ensures LexLe(a, c)
    decreases |a|
  {
    if |a| > 0 && a[0] == b[0] && b[0] == c[0] {
      LexLeTransitive(a[1..], b[1..], c[1..]);
    }
  }

  lemma {:induction false} LexLeAntisymmetric(a: string, b: string)
    requires LexLe(a, b) && LexLe(b, a)
    ensures a == b
    decreases |a|
  {
    if |a| > 0 {
      LexLeAntisymmetric(a[1..], b[1..]);
      assert a == [a[0]] + a[1..];
      assert b == [b[0]] + b[1..];
    }
  }

  /** The keys of `s` are in non-decreasing order. */
  ghost predicate SortedBy<T>(s: seq<T>, key: T -> string) {
    forall i, j :: 0 <= i < j < |s| ==> LexLe(key(s[i]), key(s[j]))
  }

  /** Every element of `s` has a key at least `k`. */
  ghost predicate AllAtLeast<T>(s: seq<T>, key: T -> string, k: string) {
    forall i :: 0 <= i < |s| ==> LexLe(k, key(s[i]))
  }

  /** Places `x` before the first element whose key is not smaller than its own,
      so that `x` stays ahead of the elements with an equal key. */
  function Insert<T>(x: T, s: seq<T>, key: T -> string): (r: seq<T>)
    ensures multiset(r) == multiset(s) + multiset{x}
  {
    if s == [] then [x]
    else if LexLe(key(x), key(s[0])) then [x] + s
    else
      assert s == [s[0]] + s[1..];
      [s[0]] + Insert(x, s[1..], key)
  }

  /** A lower bound on the keys of `s` and of `x` bounds the keys after insertion. */
  lemma {:induction false} InsertAtLeast<T>(x: T, s: seq<T>, key: T -> string, k: string)
    requires AllAtLeast(s, key, k) && LexLe(k, key(x))
    ensures AllAtLeast(Insert(x, s, key), key, k)
  {
    if s != [] && !LexLe(key(x), key(s[0])) {
      InsertAtLeast(x, s[1..], key, k);
    }
  }

  /** Inserting into a sorted sequence keeps it sorted. */
  lemma {:induction false} InsertSorted<T>(x: T, s: seq<T>, key: T -> string)
    requires SortedBy(s, key)
    ensures SortedBy(Insert(x, s, key), key)
  {
    if s == [] {
    } else if LexLe(key(x), key(s[0])) {
      forall j | 1 < j < |s| + 1
        ensures LexLe(key(x), key(([x] + s)[j]))
      {
        LexLeTransitive(key(x), key(s[0]), key(s[j - 1]));
      }
    } else {
      LexLeTotal(key(x), key(s[0]));
      InsertSorted(x, s[1..], key);
      InsertAtLeast(x, s[1..], key, key(s[0]));
    }
  }

  /** The stable sort that `list.sort(key=...)` performs. */
  function SortBy<T>(s: seq<T>, key: T -> string): (r: seq<T>)
    ensures multiset(r) == multiset(s)
    ensures SortedBy(r, key)
  {
    if s == [] then []
    else
      assert s == [s[0]] + s[1..];
      InsertSorted(s[0], SortBy(s[1..], key), key);
      Insert(s[0], SortBy(s[1..], key), key)
  }

  /** The head of a sorted sequence has the least key. */
  lemma SortedHeadLeast<T>(a: seq<T>, key: T -> string, x: T)
    requires SortedBy(a, key) && x in a
    ensures LexLe(key(a[0]), key(x))
  {
    var k :| 0 <= k < |a| && a[k] == x;
    if k == 0 {
      LexLeReflexive(key(x));
    }
  }

  /** The tail of a sorted sequence is sorted. */
  lemma SortedTail<T>(a: seq<T>, key: T -> string)
    requires SortedBy(a, key) && a != []
    ensures SortedBy(a[1..], key)
  {
    forall i, j | 0 <= i < j < |a| - 1 ensures LexLe(key(a[1..][i]), key(a[1..][j])) {
      assert a[1..][i] == a[i + 1] && a[1..][j] == a[j + 1];
    }
  }

  /** Dropping the head removes one copy of it. */
  lemma TailMultiset<T>(a: seq<T>)
    requires a != []
    ensures multiset(a[1..]) == multiset(a) - multiset{a[0]}
  {
    assert a == [a[0]] + a[1..];
  }

  /** Two sorted permutations of one another are equal when no two distinct
      elements share a key: sorting then leaves no choice. */
  lemma {:induction false} SortedPermutationsEqual<T>(a: seq<T>, b: seq<T>, key: T -> string)
    requires multiset(a) == multiset(b)
    requires SortedBy(a, key) && SortedBy(b, key)
    requires forall x, y :: x in a && y in a && key(x) == key(y) ==> x == y
    ensures a == b
    decreases |a|
  {
    if a == [] {
      assert |b| == |multiset(b)| == 0;
    } else {
      assert a[0] in multiset(b) && b[0] in multiset(a);
      SortedHeadLeast(a, key, b[0]);
      SortedHeadLeast(b, key, a[0]);
      LexLeAntisymmetric(key(a[0]), key(b[0]));
      assert a[0] == b[0];
      assert a == [a[0]] + a[1..] && b == [b[0]] + b[1..];
      TailMultiset(a);
      TailMultiset(b);
      SortedTail(a, key);
      SortedTail(b, key);
      SortedPermutationsEqual(a[1..], b[1..], key);
    }
  }
}
