/**
 * What the store's SQL does to a table, on sequences of rows kept in insertion (rowid) order:
 * `WHERE` filters, `UPDATE ... WHERE` rewrites, and `ORDER BY` on a TEXT column, which compares
 * strings code point by code point.
 */
module Rows {

  /** `a <= b` on TEXT values (and on Python strings): lexicographic by code point. */
  predicate TextLe(a: string, b: string)
    decreases |a|
  {
    a == [] || (b != [] && (a[0] < b[0] || (a[0] == b[0] && TextLe(a[1..], b[1..]))))
  }

  lemma {:induction false} TextLeRefl(a: string)
    ensures TextLe(a, a)
    decreases |a|
  {
    if a != [] { TextLeRefl(a[1..]); }
  }

  lemma {:induction false} TextLeTotal(a: string, b: string)
    ensures TextLe(a, b) || TextLe(b, a)
    decreases |a|
  {
    if a != [] && b != [] && a[0] == b[0] { TextLeTotal(a[1..], b[1..]); }
  }

  lemma {:induction false} TextLeTrans(a: string, b: string, c: string)
    requires TextLe(a, b) && TextLe(b, c)
    ensures TextLe(a, c)
    decreases |a|
  {
    if a != [] && a[0] == b[0] && b[0] == c[0] { TextLeTrans(a[1..], b[1..], c[1..]); }
  }

  lemma {:induction false} TextLeAntisym(a: string, b: string)
    requires TextLe(a, b) && TextLe(b, a)
    ensures a == b
    decreases |a|
  {
    if a != [] {
      TextLeAntisym(a[1..], b[1..]);
      assert a == [a[0]] + a[1..] && b == [b[0]] + b[1..];
    }
  }

  /** `SELECT ... WHERE p`: the rows satisfying `p`, in table order. */
  function Filter<T(!new)>(s: seq<T>, p: T -> bool): (r: seq<T>)
    ensures |r| <= |s|
    ensures forall x :: x in r <==> x in s && p(x)
  {
    if s == [] then []
    else if p(s[0]) then [s[0]] + Filter(s[1..], p)
    else Filter(s[1..], p)
  }

  /** `s` is strictly increasing in `key`. */
  predicate IncreasingBy<T>(s: seq<T>, key: T -> int) {
    forall i, j :: 0 <= i < j < |s| ==> key(s[i]) < key(s[j])
  }

  /** A filter never reorders: rows increasing in `key` stay increasing. */
  lemma {:induction false} FilterKeepsIncreasing<T(!new)>(s: seq<T>, p: T -> bool, key: T -> int)
    requires IncreasingBy(s, key)
    ensures IncreasingBy(Filter(s, p), key)
  {
    if s != [] {
      assert IncreasingBy(s[1..], key);
      FilterKeepsIncreasing(s[1..], p, key);
      if p(s[0]) {
        IncreasingCons(s[0], s[1..], Filter(s[1..], p), key);
      }
    }
  }

  lemma IncreasingCons<T>(h: T, tail: seq<T>, rest: seq<T>, key: T -> int)
    requires IncreasingBy([h] + tail, key) && IncreasingBy(rest, key)
    requires forall x :: x in rest ==> x in tail
    ensures IncreasingBy([h] + rest, key)
  {
    var ht := [h] + tail;
    forall x | x in rest ensures key(h) < key(x) {
      var k :| 0 <= k < |tail| && tail[k] == x;
      assert ht[0] == h && ht[k + 1] == x;
    }
    var r := [h] + rest;
    forall i, j | 0 <= i < j < |r| ensures key(r[i]) < key(r[j]) {
      if i == 0 { assert r[j] == rest[j - 1] && rest[j - 1] in rest; }
      else { assert r[i] == rest[i - 1] && r[j] == rest[j - 1]; }
    }
  }

  /** Filtering a sequence extended by one row extends the filtered sequence by that row or by nothing. */
  lemma {:induction false} FilterSnoc<T(!new)>(s: seq<T>, x: T, p: T -> bool)
    ensures Filter(s + [x], p) == Filter(s, p) + (if p(x) then [x] else [])
  {
    if s == [] {
      assert s + [x] == [x];
    } else {
      assert (s + [x])[1..] == s[1..] + [x];
      FilterSnoc(s[1..], x, p);
    }
  }

  /** No two rows of `s` share a `key` (a primary key). */
  ghost predicate DistinctBy<T, K>(s: seq<T>, key: T -> K) {
    forall i, j :: 0 <= i < j < |s| ==> key(s[i]) != key(s[j])
  }

  /** Deleting rows never creates a duplicate key. */
  lemma {:induction false} FilterKeepsDistinct<T(!new), K>(s: seq<T>, p: T -> bool, key: T -> K)
    requires DistinctBy(s, key)
    ensures DistinctBy(Filter(s, p), key)
  {
    if s != [] {
      assert DistinctBy(s[1..], key);
      FilterKeepsDistinct(s[1..], p, key);
      if p(s[0]) {
        DistinctCons(s[0], s[1..], Filter(s[1..], p), key);
      }
    }
  }

  lemma DistinctCons<T, K>(h: T, tail: seq<T>, rest: seq<T>, key: T -> K)
    requires DistinctBy([h] + tail, key) && DistinctBy(rest, key)
    requires forall x :: x in rest ==> x in tail
    ensures DistinctBy([h] + rest, key)
  {
    var ht := [h] + tail;
    forall x | x in rest ensures key(h) != key(x) {
      var k :| 0 <= k < |tail| && tail[k] == x;
      assert ht[0] == h && ht[k + 1] == x;
    }
    var r := [h] + rest;
    forall i, j | 0 <= i < j < |r| ensures key(r[i]) != key(r[j]) {
      if i == 0 { assert r[j] == rest[j - 1] && rest[j - 1] in rest; }
      else { assert r[i] == rest[i - 1] && r[j] == rest[j - 1]; }
    }
  }

  /** `UPDATE ... SET f WHERE sel`: every selected row rewritten by `f`, the others untouched. */
  function UpdateWhere<T>(s: seq<T>, sel: T -> bool, f: T -> T): (r: seq<T>)
    ensures |r| == |s|
    ensures forall i :: 0 <= i < |s| ==> r[i] == if sel(s[i]) then f(s[i]) else s[i]
  {
    seq(|s|, i requires 0 <= i < |s| => if sel(s[i]) then f(s[i]) else s[i])
  }

  /** `s` is in ascending `key` order. */
  predicate SortedBy<T>(s: seq<T>, key: T -> string) {
    forall i, j :: 0 <= i < j < |s| ==> TextLe(key(s[i]), key(s[j]))
  }

  /** Puts `x` into the sorted `s`, after every row whose key is not greater than its own. */
  function Insert<T>(x: T, s: seq<T>, key: T -> string): (r: seq<T>)
    requires SortedBy(s, key)
    ensures multiset(r) == multiset(s) + multiset{x}
    ensures SortedBy(r, key)
    ensures r[0] == x || (s != [] && r[0] == s[0])
  {
    if s == [] then [x]
    else if TextLe(key(s[0]), key(x)) then
      var rest := Insert(x, s[1..], key);
      assert s == [s[0]] + s[1..];
      InsertSortedCons(s[0], rest, s[1..], x, key);
      [s[0]] + rest
    else
      TextLeTotal(key(s[0]), key(x));
      forall j | 0 <= j < |s| ensures TextLe(key(x), key(s[j])) {
        if j > 0 { TextLeTrans(key(x), key(s[0]), key(s[j])); }
      }
      [x] + s
  }

  lemma InsertSortedCons<T>(h: T, rest: seq<T>, tail: seq<T>, x: T, key: T -> string)
    requires SortedBy([h] + tail, key) && SortedBy(rest, key)
    requires TextLe(key(h), key(x))
    requires rest != [] && (rest[0] == x || (tail != [] && rest[0] == tail[0]))
    ensures SortedBy([h] + rest, key)
  {
    var r := [h] + rest;
    forall i, j | 0 <= i < j < |r| ensures TextLe(key(r[i]), key(r[j])) {
      if i == 0 {
        assert TextLe(key(h), key(rest[0])) by {
          if rest[0] != x {
            var ht := [h] + tail;
            assert ht[0] == h && ht[1] == tail[0];
            assert TextLe(key(ht[0]), key(ht[1]));
          }
        }
        if j > 1 { TextLeTrans(key(h), key(rest[0]), key(rest[j - 1])); }
      }
    }
  }

  /** `ORDER BY key`: an insertion sort that keeps rows with equal keys in table order. */
  function SortBy<T>(s: seq<T>, key: T -> string): (r: seq<T>)
    ensures multiset(r) == multiset(s)
    ensures SortedBy(r, key)
  {
    if s == [] then []
    else
      assert s == s[..|s| - 1] + [s[|s| - 1]];
      Insert(s[|s| - 1], SortBy(s[..|s| - 1], key), key)
  }

  /** Sorting keeps exactly the rows it was given. */
  lemma SortByMembers<T>(s: seq<T>, key: T -> string)
    ensures forall x :: x in SortBy(s, key) <==> x in s
  {
    var r := SortBy(s, key);
    forall x ensures x in r <==> x in s {
      assert x in r <==> x in multiset(r);
      assert x in s <==> x in multiset(s);
    }
  }
}
