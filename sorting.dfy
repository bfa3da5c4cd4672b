/**
 * The store's `orderBy: { field: 'desc' }`: a stable insertion sort on an integer key.
 * An ascending order is the descending order on the negated key.
 */
module Sorting {
  import opened Seqs

  /** Keys never increase from left to right. */
  ghost predicate SortedDesc<T>(s: seq<T>, key: T -> int)
  {
    forall i, j :: 0 <= i < j < |s| ==> key(s[i]) >= key(s[j])
  }

  /** Puts `x` in front of the first element whose key is not greater, so `x` precedes its ties. */
  function Insert<T>(x: T, s: seq<T>, key: T -> int): (r: seq<T>)
    requires SortedDesc(s, key)
    ensures SortedDesc(r, key)
    ensures multiset(r) == multiset(s) + multiset{x}
    ensures |r| == |s| + 1
  {
    if s == [] then [x]
    else if key(s[0]) > key(x) then
      var tail := Insert(x, s[1..], key);
      assert s == [s[0]] + s[1..];
      HeadDominates(s, x, tail, key);
      [s[0]] + tail
    else
      ConsSorted(x, s, key);
      [x] + s
  }

  /** A head whose key bounds every key of a sorted tail keeps it sorted. */
  lemma ConsSorted<T>(h: T, t: seq<T>, key: T -> int)
    requires SortedDesc(t, key)
    requires |t| > 0 ==> key(h) >= key(t[0])
    ensures SortedDesc([h] + t, key)
  {
    var r := [h] + t;
    forall i, j | 0 <= i < j < |r| ensures key(r[i]) >= key(r[j]) {
      if i == 0 && j > 1 {
        assert r[j] == t[j - 1];
      }
    }
  }

  /** The head of a sorted `s`, if it dominates `x`, dominates every element of a rearrangement of `s[1..]` with `x`. */
  lemma HeadDominates<T>(s: seq<T>, x: T, tail: seq<T>, key: T -> int)
    requires SortedDesc(s, key) && |s| > 0 && key(s[0]) >= key(x)
    requires SortedDesc(tail, key)
    requires multiset(tail) == multiset(s[1..]) + multiset{x}
    ensures SortedDesc([s[0]] + tail, key)
  {
    if |tail| > 0 {
      var y := tail[0];
      assert y in multiset(tail);
      if y != x {
        assert y in multiset(s[1..]);
        var k :| 0 <= k < |s[1..]| && s[1..][k] == y;
        assert s[k + 1] == y;
      }
    }
    ConsSorted(s[0], tail, key);
  }

  /** The elements of `s`, reordered so that keys never increase. */
  function SortDesc<T>(s: seq<T>, key: T -> int): (r: seq<T>)
    ensures SortedDesc(r, key)
    ensures multiset(r) == multiset(s)
    ensures |r| == |s|
  {
    if s == [] then []
    else
      assert s == [s[0]] + s[1..];
      Insert(s[0], SortDesc(s[1..], key), key)
  }

  /** Sorting keeps exactly the elements it was given. */
  lemma SortMembers<T>(s: seq<T>, key: T -> int, x: T)
    ensures x in SortDesc(s, key) <==> x in s
  {
    assert multiset(SortDesc(s, key)) == multiset(s);
    assert x in SortDesc(s, key) <==> x in multiset(SortDesc(s, key));
  }

  /** The elements whose key is `k`. */
  function KeyIs<T>(key: T -> int, k: int): T -> bool
  {
    (x: T) => key(x) == k
  }

  /** Inserting `x` puts it ahead of every element of `s` that has the same key. */
  lemma {:induction false} InsertKeepsTies<T>(x: T, s: seq<T>, key: T -> int, k: int)
    requires SortedDesc(s, key)
    ensures Filter(Insert(x, s, key), KeyIs(key, k)) == (if key(x) == k then [x] else []) + Filter(s, KeyIs(key, k))
  {
    if s == [] {
      assert [x][1..] == [];
    } else if key(s[0]) > key(x) {
      var tail := Insert(x, s[1..], key);
      InsertKeepsTies(x, s[1..], key, k);
      assert ([s[0]] + tail)[1..] == tail;
    } else {
      assert ([x] + s)[1..] == s;
    }
  }

  /** The sort is stable: the elements sharing a key come out in the order they went in. */
  lemma {:induction false} SortKeepsTies<T>(s: seq<T>, key: T -> int, k: int)
    ensures Filter(SortDesc(s, key), KeyIs(key, k)) == Filter(s, KeyIs(key, k))
  {
    if s != [] {
      SortKeepsTies(s[1..], key, k);
      InsertKeepsTies(s[0], SortDesc(s[1..], key), key, k);
    }
  }
}
