/** The list orderings the pages apply before rendering: JavaScript's stable
    Array.prototype.sort with a comparator, modelled as insertion sort under a
    "may stay ahead of" relation `geq`. Element `a` keeps its place before
    `b` exactly when the comparator returns a non-positive number for (a, b),
    which for the newest-first comparators of the source means
    `geq(a, b)`. */
module Sorting {
  import opened Collections

  /** `geq` is total and transitive, as every comparator of the source is
      on well-formed data. */
  ghost predicate TotalPreorder<T(!new)>(geq: (T, T) -> bool)
  {
    && (forall a, b :: geq(a, b) || geq(b, a))
    && (forall a, b, c :: geq(a, b) && geq(b, c) ==> geq(a, c))
  }

  /** Every element may stay ahead of every later one. */
  ghost predicate SortedBy<T>(s: seq<T>, geq: (T, T) -> bool)
  {
    forall i, j :: 0 <= i < j < |s| ==> geq(s[i], s[j])
  }

  /** Puts `x` in front of the first element it may stay ahead of, so that
      among equals the earlier input stays first. */
  function Insert<T>(x: T, t: seq<T>, geq: (T, T) -> bool): seq<T>
  {
    if t == [] || geq(x, t[0]) then [x] + t
    else [t[0]] + Insert(x, t[1..], geq)
  }

  lemma {:induction false} InsertPermutes<T>(x: T, t: seq<T>, geq: (T, T) -> bool)
    ensures multiset(Insert(x, t, geq)) == multiset([x]) + multiset(t)
  {
    if t != [] && !geq(x, t[0]) {
      InsertPermutes(x, t[1..], geq);
      assert t == [t[0]] + t[1..];
    }
  }

  lemma {:induction false} InsertSorted<T(!new)>(x: T, t: seq<T>, geq: (T, T) -> bool)
    requires TotalPreorder(geq)
    requires SortedBy(t, geq)
    ensures SortedBy(Insert(x, t, geq), geq)
  {
    if t == [] {
    } else if geq(x, t[0]) {
      var r := [x] + t;
      forall i, j | 0 <= i < j < |r| ensures geq(r[i], r[j]) {
        if i == 0 && j > 1 {
          assert geq(x, t[0]) && geq(t[0], t[j - 1]);
        }
      }
    } else {
      var rest := Insert(x, t[1..], geq);
      InsertSorted(x, t[1..], geq);
      InsertPermutes(x, t[1..], geq);
      assert geq(t[0], x);
      var r := [t[0]] + rest;
      forall j | 0 < j < |r| ensures geq(t[0], r[j]) {
        assert r[j] in multiset(rest);
        assert r[j] == x || r[j] in multiset(t[1..]);
        if r[j] != x {
          var k :| 0 <= k < |t[1..]| && t[1..][k] == r[j];
          assert t[k + 1] == r[j];
        }
      }
    }
  }

  /** `s.sort(comparator)`: a permutation of `s` in which every element may
      stay ahead of every later one. */
  function SortBy<T(!new)>(s: seq<T>, geq: (T, T) -> bool): (r: seq<T>)
    requires TotalPreorder(geq)
    ensures multiset(r) == multiset(s)
    ensures SortedBy(r, geq)
  {
    if s == [] then []
    else
      var rest := SortBy(s[1..], geq);
      InsertPermutes(s[0], rest, geq);
      InsertSorted(s[0], rest, geq);
      assert s == [s[0]] + s[1..];
      Insert(s[0], rest, geq)
  }

  /** A sorted permutation has the same length and the same elements. */
  lemma SortByKeepsElements<T(!new)>(s: seq<T>, geq: (T, T) -> bool)
    requires TotalPreorder(geq)
    ensures |SortBy(s, geq)| == |s|
    ensures forall x :: x in SortBy(s, geq) <==> x in s
  {
    var r := SortBy(s, geq);
    assert |r| == |multiset(r)| == |multiset(s)| == |s|;
    forall x ensures x in r <==> x in s {
      assert x in r <==> x in multiset(r);
      assert x in s <==> x in multiset(s);
    }
  }

  /** Dropping elements from a sorted list leaves it sorted. */
  lemma {:induction false} FilterKeepsSorted<T(!new)>(s: seq<T>, p: T -> bool, geq: (T, T) -> bool)
    requires SortedBy(s, geq)
    ensures SortedBy(Filter(s, p), geq)
  {
    if s != [] {
      var rest := Filter(s[1..], p);
      assert SortedBy(s[1..], geq) by {
        forall i, j | 0 <= i < j < |s[1..]| ensures geq(s[1..][i], s[1..][j]) {
          assert s[1..][i] == s[i + 1] && s[1..][j] == s[j + 1];
        }
      }
      FilterKeepsSorted(s[1..], p, geq);
      if p(s[0]) {
        var r := [s[0]] + rest;
        forall i, j | 0 <= i < j < |r| ensures geq(r[i], r[j]) {
          if i == 0 {
            assert r[j] in rest;
            assert r[j] in s[1..];
            var k :| 0 <= k < |s[1..]| && s[1..][k] == r[j];
            assert s[k + 1] == r[j];
          } else {
            assert r[i] == rest[i - 1] && r[j] == rest[j - 1];
          }
        }
      }
    }
  }
}
