/**
 * Ordering by a descending integer key. The service sorts with Go's
 * `sort.Slice`, which is not stable; the model sorts with an insertion sort
 * but every client promises only what any correct sort gives: the output is
 * a permutation of the input and is ordered by non-increasing key. The
 * repository's queries order by two keys, the second breaking ties of the
 * first; elements equal in both may come in any order.
 */
module Sorting {

  ghost predicate SortedDesc<T>(s: seq<T>, key: T -> int)
  {
    forall i, j :: 0 <= i < j < |s| ==> key(s[i]) >= key(s[j])
  }

  /** Places `x` in front of the first element whose key does not exceed its own. */
  function Insert<T>(x: T, s: seq<T>, key: T -> int): (r: seq<T>)
    ensures multiset(r) == multiset(s) + multiset{x}
  {
    if s == [] then [x]
    else if key(x) >= key(s[0]) then [x] + s
    else
      assert s == [s[0]] + s[1..];
      [s[0]] + Insert(x, s[1..], key)
  }

  lemma {:induction false} InsertSorted<T>(x: T, s: seq<T>, key: T -> int)
    requires SortedDesc(s, key)
    ensures SortedDesc(Insert(x, s, key), key)
  {
    if s != [] && key(x) < key(s[0]) {
      var rest := Insert(x, s[1..], key);
      InsertSorted(x, s[1..], key);
      forall k | 0 <= k < |rest|
        ensures key(s[0]) >= key(rest[k])
      {
        assert rest[k] in multiset(rest);
        if rest[k] != x {
          assert rest[k] in multiset(s[1..]);
          var j :| 0 <= j < |s[1..]| && s[1..][j] == rest[k];
          assert s[1 + j] == rest[k];
        }
      }
      assert Insert(x, s, key) == [s[0]] + rest;
    }
  }

  function SortDesc<T>(s: seq<T>, key: T -> int): (r: seq<T>)
    ensures multiset(r) == multiset(s)
    ensures SortedDesc(r, key)
  {
    if s == [] then []
    else
      assert s == [s[0]] + s[1..];
      var rest := SortDesc(s[1..], key);
      InsertSorted(s[0], rest, key);
      Insert(s[0], rest, key)
  }

  /**
   * `x` may stand before `y` in a list ordered by `major`, then by `minor`,
   * both descending: `ORDER BY major DESC, minor DESC`.
   */
  predicate NotAfter<T>(x: T, y: T, major: T -> int, minor: T -> int)
  {
    major(x) > major(y) || (major(x) == major(y) && minor(x) >= minor(y))
  }

  ghost predicate SortedDescBy<T>(s: seq<T>, major: T -> int, minor: T -> int)
  {
    forall i, j :: 0 <= i < j < |s| ==> NotAfter(s[i], s[j], major, minor)
  }

  /** Places `x` in front of the first element it may stand before. */
  function InsertBy<T>(x: T, s: seq<T>, major: T -> int, minor: T -> int): (r: seq<T>)
    ensures multiset(r) == multiset(s) + multiset{x}
  {
    if s == [] then [x]
    else if NotAfter(x, s[0], major, minor) then [x] + s
    else
      assert s == [s[0]] + s[1..];
      [s[0]] + InsertBy(x, s[1..], major, minor)
  }

  lemma {:induction false} InsertSortedBy<T>(x: T, s: seq<T>, major: T -> int, minor: T -> int)
    requires SortedDescBy(s, major, minor)
    ensures SortedDescBy(InsertBy(x, s, major, minor), major, minor)
  {
    if s != [] && !NotAfter(x, s[0], major, minor) {
      var rest := InsertBy(x, s[1..], major, minor);
      InsertSortedBy(x, s[1..], major, minor);
      forall k | 0 <= k < |rest|
        ensures NotAfter(s[0], rest[k], major, minor)
      {
        assert rest[k] in multiset(rest);
        if rest[k] != x {
          assert rest[k] in multiset(s[1..]);
          var j :| 0 <= j < |s[1..]| && s[1..][j] == rest[k];
          assert s[1 + j] == rest[k];
        }
      }
      assert InsertBy(x, s, major, minor) == [s[0]] + rest;
    }
  }

  function SortDescBy<T>(s: seq<T>, major: T -> int, minor: T -> int): (r: seq<T>)
    ensures multiset(r) == multiset(s)
    ensures SortedDescBy(r, major, minor)
  {
    if s == [] then []
    else
      assert s == [s[0]] + s[1..];
      var rest := SortDescBy(s[1..], major, minor);
      InsertSortedBy(s[0], rest, major, minor);
      InsertBy(s[0], rest, major, minor)
  }

  /** A list is what lies before, at and after any of its positions. */
  lemma SplitAt<T>(b: seq<T>, j: nat)
    requires j < |b|
    ensures b == b[..j] + ([b[j]] + b[j + 1..])
    ensures b[..j] + [b[j]] + b[j + 1..] == b
  {
  }

  /** A permutation keeps the length. */
  lemma PermutationLength<T>(a: seq<T>, b: seq<T>)
    requires multiset(a) == multiset(b)
    ensures |a| == |b|
  {
    assert |multiset(a)| == |a| && |multiset(b)| == |b|;
  }

  /** A permutation keeps membership. */
  lemma PermutationMembers<T>(a: seq<T>, b: seq<T>, x: T)
    requires multiset(a) == multiset(b)
    ensures x in a <==> x in b
  {
    assert x in a <==> x in multiset(a);
    assert x in b <==> x in multiset(b);
  }

  /** No element occurs twice. */
  ghost predicate Distinct<T>(s: seq<T>)
  {
    forall i, j :: 0 <= i < j < |s| ==> s[i] != s[j]
  }

  /** The two parts of a sequence without repeats have none either, and share no element. */
  lemma DistinctAppend<T>(a: seq<T>, b: seq<T>)
    requires Distinct(a + b)
    ensures Distinct(a) && Distinct(b)
    ensures forall x :: x in a ==> x !in b
  {
    forall i, j | 0 <= i < j < |a|
      ensures a[i] != a[j]
    {
      assert (a + b)[i] == a[i] && (a + b)[j] == a[j];
    }
    forall i, j | 0 <= i < j < |b|
      ensures b[i] != b[j]
    {
      assert (a + b)[|a| + i] == b[i] && (a + b)[|a| + j] == b[j];
    }
    forall i, j | 0 <= i < |a| && 0 <= j < |b|
      ensures a[i] != b[j]
    {
      assert (a + b)[i] == a[i] && (a + b)[|a| + j] == b[j];
    }
  }

  /** In a sequence without repeats every element occurs at most once. */
  lemma {:induction false} DistinctOccursOnce<T>(s: seq<T>, x: T)
    requires Distinct(s)
    ensures multiset(s)[x] <= 1
  {
    if s != [] {
      assert s == [s[0]] + s[1..];
      DistinctOccursOnce(s[1..], x);
      if s[0] == x {
        assert x !in s[1..];
      }
    }
  }

  /** An element found at two positions occurs at least twice. */
  lemma OccursTwice<T>(s: seq<T>, i: nat, j: nat)
    requires i < j < |s| && s[i] == s[j]
    ensures multiset(s)[s[i]] >= 2
  {
    assert s == s[..j] + [s[j]] + s[j + 1..];
    assert s[i] in s[..j];
  }

  /** A permutation of a sequence without repeats has none either. */
  lemma DistinctPermutation<T>(a: seq<T>, b: seq<T>)
    requires multiset(a) == multiset(b) && Distinct(b)
    ensures Distinct(a)
  {
    forall i, j | 0 <= i < j < |a|
      ensures a[i] != a[j]
    {
      if a[i] == a[j] {
        OccursTwice(a, i, j);
        DistinctOccursOnce(b, a[i]);
      }
    }
  }
}
