/**
 * `Array.prototype.sort` with a descending comparator, as the risk views use
 * it: a stable sort (equal keys keep their input order) on a key made of a
 * whole-number rank and a real tie-breaker, followed by `slice(0, n)`.
 */
module Ranking {
  /** The sort key: compared on the first part, then on the second. */
  type Key = (int, real)

  /** `a` sorts strictly before `b` in descending order. */
  predicate Above(a: Key, b: Key) {
    a.0 > b.0 || (a.0 == b.0 && a.1 > b.1)
  }

  /** `a` may sort before `b`: it is not below it. */
  predicate AtLeast(a: Key, b: Key) {
    !Above(b, a)
  }

  predicate SortedDesc<T>(xs: seq<T>, key: T -> Key) {
    forall i, j :: 0 <= i < j < |xs| ==> AtLeast(key(xs[i]), key(xs[j]))
  }

  lemma AtLeastTrans(a: Key, b: Key, c: Key)
    requires AtLeast(a, b) && AtLeast(b, c)
    ensures AtLeast(a, c)
  {
  }

  /** Puts `x` after every element whose key is not below its own: the stable insertion step. */
  function Insert<T>(sorted: seq<T>, x: T, key: T -> Key): (r: seq<T>)
    ensures |r| == |sorted| + 1
    ensures multiset(r) == multiset(sorted) + multiset{x}
    ensures SortedDesc(sorted, key) ==> SortedDesc(r, key)
  {
    if sorted == [] || !Above(key(x), key(sorted[|sorted| - 1])) then
      InsertLastSorted(sorted, x, key);
      sorted + [x]
    else
      var init := sorted[..|sorted| - 1];
      var last := sorted[|sorted| - 1];
      assert sorted == init + [last];
      var r := Insert(init, x, key) + [last];
      InsertBeforeSorted(sorted, x, key, r);
      r
  }

  lemma InsertLastSorted<T>(sorted: seq<T>, x: T, key: T -> Key)
    requires sorted == [] || !Above(key(x), key(sorted[|sorted| - 1]))
    ensures SortedDesc(sorted, key) ==> SortedDesc(sorted + [x], key)
  {
    if SortedDesc(sorted, key) && sorted != [] {
      var r := sorted + [x];
      forall i, j | 0 <= i < j < |r|
        ensures AtLeast(key(r[i]), key(r[j]))
      {
        if j == |sorted| && i < |sorted| - 1 {
          AtLeastTrans(key(sorted[i]), key(sorted[|sorted| - 1]), key(x));
        }
      }
    }
  }

  lemma InsertBeforeSorted<T>(sorted: seq<T>, x: T, key: T -> Key, r: seq<T>)
    requires sorted != [] && Above(key(x), key(sorted[|sorted| - 1]))
    requires |sorted[..|sorted| - 1]| + 1 == |Insert(sorted[..|sorted| - 1], x, key)|
    requires multiset(Insert(sorted[..|sorted| - 1], x, key)) == multiset(sorted[..|sorted| - 1]) + multiset{x}
    requires SortedDesc(sorted[..|sorted| - 1], key) ==> SortedDesc(Insert(sorted[..|sorted| - 1], x, key), key)
    requires r == Insert(sorted[..|sorted| - 1], x, key) + [sorted[|sorted| - 1]]
    ensures SortedDesc(sorted, key) ==> SortedDesc(r, key)
  {
    if SortedDesc(sorted, key) {
      var init := sorted[..|sorted| - 1];
      var last := sorted[|sorted| - 1];
      var front := Insert(init, x, key);
      assert SortedDesc(init, key);
      forall i | 0 <= i < |front|
        ensures AtLeast(key(front[i]), key(last))
      {
        assert front[i] in multiset(front);
        if front[i] != x {
          assert front[i] in multiset(init);
          var k :| 0 <= k < |init| && init[k] == front[i];
          assert sorted[k] == init[k];
        }
      }
    }
  }

  /** The stable sort, descending by key. */
  function SortDesc<T>(xs: seq<T>, key: T -> Key): (r: seq<T>)
    ensures |r| == |xs|
    ensures multiset(r) == multiset(xs)
    ensures SortedDesc(r, key)
  {
    if xs == [] then []
    else
      var init := xs[..|xs| - 1];
      assert xs == init + [xs[|xs| - 1]];
      Insert(SortDesc(init, key), xs[|xs| - 1], key)
  }

  /** `slice(0, n)` for a whole number `n`: a negative `n` counts from the end. */
  function Slice<T>(xs: seq<T>, n: int): (r: seq<T>)
    ensures r <= xs
    ensures |r| == if n >= |xs| then |xs| else if n >= 0 then n else if |xs| + n > 0 then |xs| + n else 0
  {
    if n >= |xs| then xs
    else if n >= 0 then xs[..n]
    else if |xs| + n > 0 then xs[..|xs| + n]
    else []
  }

  /** The first `n` (at least zero) of the sorted list. */
  function Top<T>(xs: seq<T>, key: T -> Key, n: nat): seq<T> {
    Slice(SortDesc(xs, key), n)
  }

  /**
   * Any prefix of the sorted list is drawn from the input, is itself in
   * descending key order, and ranks each of its elements at least as high as
   * everything after it.
   */
  lemma SortedPrefix<T>(xs: seq<T>, key: T -> Key, t: seq<T>)
    requires t <= SortDesc(xs, key)
    ensures multiset(t) <= multiset(xs)
    ensures SortedDesc(t, key)
    ensures forall i, j :: 0 <= i < |t| <= j < |xs| ==> AtLeast(key(t[i]), key(SortDesc(xs, key)[j]))
  {
    var s := SortDesc(xs, key);
    PrefixMultiset(s, t);
    forall i, j | 0 <= i < j < |t|
      ensures AtLeast(key(t[i]), key(t[j]))
    {
      assert t[i] == s[i] && t[j] == s[j];
    }
    forall i, j | 0 <= i < |t| <= j < |xs|
      ensures AtLeast(key(t[i]), key(s[j]))
    {
      assert t[i] == s[i];
    }
  }

  lemma PrefixMultiset<T>(s: seq<T>, t: seq<T>)
    requires t <= s
    ensures multiset(t) <= multiset(s)
  {
    assert s == t + s[|t|..];
  }

  /** The top `n` are the first `n` of the input, or all of it, in descending key order. */
  lemma TopIsTop<T>(xs: seq<T>, key: T -> Key, n: nat)
    ensures var t := Top(xs, key, n);
      |t| == (if n < |xs| then n else |xs|)
      && multiset(t) <= multiset(xs)
      && SortedDesc(t, key)
      && forall i, j :: 0 <= i < |t| <= j < |xs| ==> AtLeast(key(t[i]), key(SortDesc(xs, key)[j]))
  {
    SortedPrefix(xs, key, Top(xs, key, n));
  }

  /** Every element that is left out ranks no higher than every element kept. */
  lemma LeftOutRanksLower<T>(xs: seq<T>, key: T -> Key, n: nat, y: T)
    requires y in multiset(xs) && y !in multiset(Top(xs, key, n))
    ensures forall i :: 0 <= i < |Top(xs, key, n)| ==> AtLeast(key(Top(xs, key, n)[i]), key(y))
  {
    var s := SortDesc(xs, key);
    var t := Top(xs, key, n);
    assert s == t + s[|t|..];
    assert y in multiset(s);
    var k :| 0 <= k < |s| && s[k] == y;
  }
}
