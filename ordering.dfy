/**
 * Newest-first ordering of records by their creation time. The app sorts
 * transaction lists with the comparator `(a, b) => time(b) - time(a)`, that
 * is by descending key. JavaScript's `Array.prototype.sort` is stable; both
 * sorts here move an element only past strictly older ones, though only
 * ordering and permutation are stated as contracts.
 */
module Ordering {

  /** Every element's key is at least that of every element after it. */
  ghost predicate NewestFirst<T>(s: seq<T>, key: T -> int)
  {
    forall i, j :: 0 <= i < j < |s| ==> key(s[i]) >= key(s[j])
  }

  /** Puts `x` in front of the first element that is not newer than it. */
  function Insert<T>(x: T, s: seq<T>, key: T -> int): (r: seq<T>)
    requires NewestFirst(s, key)
    ensures NewestFirst(r, key)
    ensures multiset(r) == multiset(s) + multiset{x}
  {
    if s == [] || key(x) >= key(s[0]) then
      HeadNewest(x, s, key);
      [x] + s
    else
      var rest := Insert(x, s[1..], key);
      InsertBehindHead(x, s, rest, key);
      [s[0]] + rest
  }

  /** An element at least as new as the head of a sorted list may go in front of it. */
  lemma HeadNewest<T>(x: T, s: seq<T>, key: T -> int)
    requires NewestFirst(s, key)
    requires s == [] || key(x) >= key(s[0])
    ensures NewestFirst([x] + s, key)
  {
    forall y | y in s ensures key(x) >= key(y) {
      var k :| 0 <= k < |s| && s[k] == y;
      assert k == 0 || key(s[0]) >= key(s[k]);
    }
    ConsNewestFirst(x, s, key);
  }

  lemma InsertBehindHead<T>(x: T, s: seq<T>, rest: seq<T>, key: T -> int)
    requires NewestFirst(s, key) && s != [] && key(x) < key(s[0])
    requires NewestFirst(rest, key) && multiset(rest) == multiset(s[1..]) + multiset{x}
    ensures NewestFirst([s[0]] + rest, key)
    ensures multiset([s[0]] + rest) == multiset(s) + multiset{x}
  {
    assert s == [s[0]] + s[1..];
    forall y | y in rest ensures key(s[0]) >= key(y) {
      assert y in multiset(rest);
      if y != x {
        assert y in s[1..];
        var k :| 0 <= k < |s[1..]| && s[1..][k] == y;
        assert s[k + 1] == y;
      }
    }
    ConsNewestFirst(s[0], rest, key);
  }

  lemma ConsNewestFirst<T>(h: T, t: seq<T>, key: T -> int)
    requires NewestFirst(t, key)
    requires forall y :: y in t ==> key(h) >= key(y)
    ensures NewestFirst([h] + t, key)
  {
    var r := [h] + t;
    forall i, j | 0 <= i < j < |r| ensures key(r[i]) >= key(r[j]) {
      assert r[j] == t[j - 1];
      if i > 0 { assert r[i] == t[i - 1]; }
    }
  }

  /** A copy of `s` sorted newest first; an element is inserted in front of the first one not newer than it. */
  function SortNewestFirst<T>(s: seq<T>, key: T -> int): (r: seq<T>)
    ensures NewestFirst(r, key)
    ensures multiset(r) == multiset(s)
    ensures |r| == |s|
  {
    if s == [] then []
    else
      assert s == [s[0]] + s[1..];
      Insert(s[0], SortNewestFirst(s[1..], key), key)
  }

  /** Sorting a list that is already newest first returns it unchanged. */
  lemma {:induction false} SortSorted<T>(s: seq<T>, key: T -> int)
    requires NewestFirst(s, key)
    ensures SortNewestFirst(s, key) == s
  {
    if s != [] {
      SortSorted(s[1..], key);
      assert s == [s[0]] + s[1..];
    }
  }

  /** The first `n` elements of `a` are newest first. */
  ghost predicate SortedPrefix<T>(a: array<T>, n: int, key: T -> int)
    reads a
    requires n <= a.Length
  {
    forall p, q :: 0 <= p < q < n ==> key(a[p]) >= key(a[q])
  }

  /**
   * In-place insertion sort of `a`, newest first. Adjacent elements are
   * swapped only when the later one is strictly newer.
   */
  method SortInPlace<T>(a: array<T>, key: T -> int)
    modifies a
    ensures NewestFirst(a[..], key)
    ensures multiset(a[..]) == multiset(old(a[..]))
  {
    for i := 0 to a.Length
      invariant SortedPrefix(a, i, key)
      invariant multiset(a[..]) == multiset(old(a[..]))
    {
      SinkNewest(a, i, key);
    }
  }

  /** Moves `a[i]` left past every older element, extending the sorted prefix by one. */
  method SinkNewest<T>(a: array<T>, i: int, key: T -> int)
    requires 0 <= i < a.Length
    requires SortedPrefix(a, i, key)
    modifies a
    ensures SortedPrefix(a, i + 1, key)
    ensures multiset(a[..]) == multiset(old(a[..]))
  {
    var j := i;
    while j > 0 && key(a[j - 1]) < key(a[j])
      invariant 0 <= j <= i
      invariant multiset(a[..]) == multiset(old(a[..]))
      invariant forall p, q :: 0 <= p < q <= i && p != j && q != j ==> key(a[p]) >= key(a[q])
      invariant forall q :: j < q <= i ==> key(a[j]) > key(a[q])
    {
      SwapAdjacent(a, j - 1);
      j := j - 1;
    }
  }

  method SwapAdjacent<T>(a: array<T>, k: int)
    requires 0 <= k < a.Length - 1
    modifies a
    ensures a[k] == old(a[k + 1]) && a[k + 1] == old(a[k])
    ensures forall m :: 0 <= m < a.Length && m != k && m != k + 1 ==> a[m] == old(a[m])
    ensures multiset(a[..]) == multiset(old(a[..]))
  {
    a[k], a[k + 1] := a[k + 1], a[k];
  }
}
