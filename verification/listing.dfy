/**
 * The store's query primitives over an in-memory collection: keep the
 * documents that match a filter, sort ascending by a numeric key, and take
 * the first document that matches.
 */
module Listing {
  import opened Wrappers

  /** The documents of `s` that satisfy `keep`, in their original order. */
  function Filter<T>(s: seq<T>, keep: T -> bool): (r: seq<T>)
    ensures |r| <= |s|
  {
    if s == [] then []
    else (if keep(s[0]) then [s[0]] else []) + Filter(s[1..], keep)
  }

  /** Filtering keeps exactly the elements that satisfy `keep`, each as often as it occurs. */
  lemma {:induction false} FilterKeeps<T(!new)>(s: seq<T>, keep: T -> bool)
    ensures forall x :: x in Filter(s, keep) <==> x in s && keep(x)
    ensures forall x :: multiset(Filter(s, keep))[x] == if keep(x) then multiset(s)[x] else 0
  {
    if s != [] {
      FilterKeeps(s[1..], keep);
      assert s == [s[0]] + s[1..];
    }
  }

  /** Filtering distributes over concatenation. */
  lemma {:induction false} FilterConcat<T>(a: seq<T>, b: seq<T>, keep: T -> bool)
    ensures Filter(a + b, keep) == Filter(a, keep) + Filter(b, keep)
  {
    if a == [] {
      assert a + b == b;
    } else {
      var head := if keep(a[0]) then [a[0]] else [];
      assert (a + b)[0] == a[0];
      assert (a + b)[1..] == a[1..] + b;
      assert Filter(a + b, keep) == head + Filter(a[1..] + b, keep);
      FilterConcat(a[1..], b, keep);
      var x, y := Filter(a[1..], keep), Filter(b, keep);
      assert head + (x + y) == (head + x) + y;
      assert Filter(a, keep) == head + x;
    }
  }

  /** Filtering by `f` and then by `g` is filtering once by their conjunction `h`. */
  lemma {:induction false} FilterFilter<T>(s: seq<T>, f: T -> bool, g: T -> bool, h: T -> bool)
    requires forall x :: h(x) == (f(x) && g(x))
    ensures Filter(Filter(s, f), g) == Filter(s, h)
  {
    if s != [] {
      FilterFilter(s[1..], f, g, h);
      var head := if f(s[0]) then [s[0]] else [];
      FilterConcat(head, Filter(s[1..], f), g);
      if f(s[0]) {
        assert Filter(head, g) == (if g(s[0]) then [s[0]] else []) + Filter([], g);
      }
    }
  }

  /** When `f` holds exactly where one of the disjoint `g` and `h` holds, its count is theirs added. */
  lemma {:induction false} FilterPartition<T>(s: seq<T>, f: T -> bool, g: T -> bool, h: T -> bool)
    requires forall x :: f(x) == (g(x) || h(x)) && !(g(x) && h(x))
    ensures |Filter(s, f)| == |Filter(s, g)| + |Filter(s, h)|
  {
    if s != [] {
      FilterPartition(s[1..], f, g, h);
    }
  }

  /** The keys of the elements of `s` that satisfy `keep`. */
  ghost function KeysOf<T(!new), K>(s: seq<T>, keep: T -> bool, key: T -> K): set<K> {
    set x | x in s && keep(x) :: key(x)
  }

  /**
   * When `key` tells the elements of `s` apart, the number of elements kept
   * is the number of distinct keys they carry.
   */
  lemma {:induction false} DistinctKeysCount<T(!new), K(!new)>(s: seq<T>, keep: T -> bool, key: T -> K)
    requires forall i, j :: 0 <= i < j < |s| ==> key(s[i]) != key(s[j])
    ensures |Filter(s, keep)| == |KeysOf(s, keep, key)|
  {
    if s == [] {
      assert KeysOf(s, keep, key) == {};
    } else {
      var t := s[1..];
      forall i, j | 0 <= i < j < |t| ensures key(t[i]) != key(t[j]) {
        assert t[i] == s[i + 1] && t[j] == s[j + 1];
      }
      DistinctKeysCount(t, keep, key);
      var rest := KeysOf(t, keep, key);
      assert key(s[0]) !in rest by {
        forall x | x in t ensures key(x) != key(s[0]) {
          var j :| 0 <= j < |t| && t[j] == x;
          assert s[j + 1] == x;
        }
      }
      assert s == [s[0]] + t;
      if keep(s[0]) {
        assert KeysOf(s, keep, key) == {key(s[0])} + rest;
      } else {
        assert KeysOf(s, keep, key) == rest;
      }
    }
  }

  /** `s` is in ascending order of `key`. */
  ghost predicate SortedBy<T>(s: seq<T>, key: T -> int) {
    forall i, j :: 0 <= i < j < |s| ==> key(s[i]) <= key(s[j])
  }

  /** Inserts `x` into sorted `s` after every element whose key is smaller than `x`'s. */
  function InsertBy<T(!new)>(x: T, s: seq<T>, key: T -> int): (r: seq<T>)
    requires SortedBy(s, key)
    ensures SortedBy(r, key)
    ensures multiset(r) == multiset(s) + multiset{x}
    ensures forall y :: y in r ==> y == x || y in s
  {
    if s == [] || key(x) <= key(s[0]) then
      LeastFirstIsSorted(x, s, key);
      [x] + s
    else
      assert s == [s[0]] + s[1..];
      var rest := InsertBy(x, s[1..], key);
      assert forall y :: y in rest ==> key(s[0]) <= key(y) by {
        forall y | y in rest ensures key(s[0]) <= key(y) {
          if y != x {
            var j :| 0 <= j < |s[1..]| && s[1..][j] == y;
            assert s[j + 1] == y;
          }
        }
      }
      LeastFirstIsSorted(s[0], rest, key);
      [s[0]] + rest
  }

  /** A sorted sequence stays sorted when an element no larger than all of it is put in front. */
  lemma LeastFirstIsSorted<T>(x: T, s: seq<T>, key: T -> int)
    requires SortedBy(s, key)
    requires forall y :: y in s ==> key(x) <= key(y)
    ensures SortedBy([x] + s, key)
  {
    var r := [x] + s;
    forall i, j | 0 <= i < j < |r| ensures key(r[i]) <= key(r[j]) {
      assert r[j] == s[j - 1];
      if i > 0 {
        assert r[i] == s[i - 1];
      }
    }
  }

  /** `s` sorted ascending by `key`; equal keys keep their relative order. */
  function SortBy<T(!new)>(s: seq<T>, key: T -> int): (r: seq<T>)
    ensures SortedBy(r, key)
    ensures multiset(r) == multiset(s)
  {
    if s == [] then []
    else
      assert s == [s[0]] + s[1..];
      InsertBy(s[0], SortBy(s[1..], key), key)
  }

  /** The first element of `s` whose id (as given by `idOf`) is `id`. */
  function FirstWithId<T(!new)>(s: seq<T>, id: string, idOf: T -> string): (r: Option<T>)
    ensures r.Some? <==> exists x :: x in s && idOf(x) == id
    ensures r.Some? ==> r.value in s && idOf(r.value) == id
  {
    if s == [] then None
    else if idOf(s[0]) == id then Some(s[0])
    else FirstWithId(s[1..], id, idOf)
  }
}
