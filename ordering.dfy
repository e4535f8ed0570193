/**
 * The store's evaluation of the list queries: a filter (`.eq(column, value)`)
 * followed by `.order(primary, { ascending: false }).order(secondary, { ascending: false })`.
 * Ordering keys are pairs of integers compared lexicographically; the result
 * is sorted by descending key and is a permutation of its input.
 */
module Ordering {

  /** `a` may come before `b` in descending order of (primary, secondary). */
  predicate KeyAtLeast(a: (int, int), b: (int, int))
  {
    a.0 > b.0 || (a.0 == b.0 && a.1 >= b.1)
  }

  ghost predicate SortedDesc<T>(s: seq<T>, key: T -> (int, int))
  {
    forall i, j :: 0 <= i < j < |s| ==> KeyAtLeast(key(s[i]), key(s[j]))
  }

  /** `.eq(...)`: the elements satisfying `keep`, in their original order. */
  function Filter<T>(s: seq<T>, keep: T -> bool): (r: seq<T>)
    ensures |r| <= |s|
    ensures forall i :: 0 <= i < |r| ==> keep(r[i]) && r[i] in s
    ensures forall i :: 0 <= i < |s| && keep(s[i]) ==> s[i] in r
  {
    if s == [] then []
    else if keep(s[0]) then [s[0]] + Filter(s[1..], keep)
    else Filter(s[1..], keep)
  }

  /** The filter keeps every element satisfying `keep` as often as it occurs, and no other element. */
  lemma {:induction false} FilterCount<T>(s: seq<T>, keep: T -> bool, x: T)
    ensures multiset(Filter(s, keep))[x] == if keep(x) then multiset(s)[x] else 0
  {
    if s != [] {
      FilterCount(s[1..], keep, x);
      assert s == [s[0]] + s[1..];
    }
  }

  /** `a` may precede every element of `s` in descending order. */
  ghost predicate BeatsAll<T>(a: T, s: seq<T>, key: T -> (int, int))
  {
    forall j :: 0 <= j < |s| ==> KeyAtLeast(key(a), key(s[j]))
  }

  /** Beating every element is a property of the multiset of elements. */
  lemma BeatsAllByMultiset<T>(a: T, t: seq<T>, u: seq<T>, key: T -> (int, int))
    requires multiset(t) <= multiset(u)
    requires BeatsAll(a, u, key)
    ensures BeatsAll(a, t, key)
  {
    forall j | 0 <= j < |t| ensures KeyAtLeast(key(a), key(t[j])) {
      assert t[j] in multiset(t);
      assert t[j] in u;
      var k :| 0 <= k < |u| && u[k] == t[j];
    }
  }

  /** Places `x` in a descending sequence after every element whose key beats it. */
  function InsertDesc<T>(x: T, s: seq<T>, key: T -> (int, int)): (r: seq<T>)
    requires SortedDesc(s, key)
    ensures SortedDesc(r, key)
    ensures multiset(r) == multiset(s) + multiset{x}
  {
    if s == [] then [x]
    else if KeyAtLeast(key(x), key(s[0])) then
      assert BeatsAll(x, s, key);
      [x] + s
    else
      var tail := InsertDesc(x, s[1..], key);
      assert s == [s[0]] + s[1..];
      assert BeatsAll(s[0], s[1..] + [x], key);
      assert multiset(s[1..] + [x]) == multiset(s[1..]) + multiset{x};
      BeatsAllByMultiset(s[0], tail, s[1..] + [x], key);
      [s[0]] + tail
  }

  /** `.order(...)` with `ascending: false` on both keys. */
  function SortDesc<T>(s: seq<T>, key: T -> (int, int)): (r: seq<T>)
    ensures SortedDesc(r, key)
    ensures multiset(r) == multiset(s)
  {
    if s == [] then []
    else
      assert s == [s[0]] + s[1..];
      InsertDesc(s[0], SortDesc(s[1..], key), key)
  }

  /** A filtered, ordered query: the elements satisfying `keep`, in descending key order. */
  function FilterSortDesc<T>(s: seq<T>, keep: T -> bool, key: T -> (int, int)): (r: seq<T>)
    ensures SortedDesc(r, key)
    ensures forall i :: 0 <= i < |r| ==> keep(r[i]) && r[i] in s
    ensures forall i :: 0 <= i < |s| && keep(s[i]) ==> s[i] in r
    ensures multiset(r) == multiset(Filter(s, keep))
  {
    var matching := Filter(s, keep);
    var r := SortDesc(matching, key);
    forall i | 0 <= i < |r| ensures keep(r[i]) && r[i] in s {
      assert r[i] in multiset(r);
      var k :| 0 <= k < |matching| && matching[k] == r[i];
    }
    forall i | 0 <= i < |s| && keep(s[i]) ensures s[i] in r {
      assert s[i] in multiset(matching);
    }
    r
  }
}
