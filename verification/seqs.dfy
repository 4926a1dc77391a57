/** The JavaScript array built-ins the handlers use (`filter`, stable `sort`, `slice`),
    as functions on sequences. */
module Seqs {

  /** `Array.prototype.filter`: the elements that satisfy `p`, in their original order. */
  function Filter<T>(s: seq<T>, p: T -> bool): (r: seq<T>)
    ensures |r| <= |s|
    ensures forall i :: 0 <= i < |r| ==> p(r[i]) && r[i] in s
    ensures forall i :: 0 <= i < |s| && p(s[i]) ==> s[i] in r
    ensures multiset(r) <= multiset(s)
  {
    if s == [] then []
    else
      assert s == [s[0]] + s[1..];
      (if p(s[0]) then [s[0]] else []) + Filter(s[1..], p)
  }

  /** `filter` of one element keeps it exactly when it satisfies `p`. */
  lemma FilterSingle<T>(x: T, p: T -> bool)
    ensures Filter([x], p) == if p(x) then [x] else []
  {
    assert [x][1..] == [];
  }

  /** `filter` distributes over concatenation, so it keeps the input's order and multiplicity. */
  lemma {:induction false} FilterAppend<T>(a: seq<T>, b: seq<T>, p: T -> bool)
    ensures Filter(a + b, p) == Filter(a, p) + Filter(b, p)
  {
    if a == [] {
      assert a + b == b;
    } else {
      assert (a + b)[0] == a[0];
      assert (a + b)[1..] == a[1..] + b;
      FilterAppend(a[1..], b, p);
    }
  }

  /** `filter` passes over an element that fails the predicate, wherever it sits. */
  lemma FilterSkips<T>(a: seq<T>, x: T, b: seq<T>, p: T -> bool)
    requires !p(x)
    ensures Filter(a + [x] + b, p) == Filter(a + b, p)
  {
    FilterAppend(a + [x], b, p);
    FilterAppend(a, [x], p);
    FilterSingle(x, p);
    FilterAppend(a, b, p);
  }

  /** `a` may come before `b` in a list sorted ascending (or descending) by key. */
  predicate Precedes(a: int, b: int, descending: bool) {
    if descending then a >= b else a <= b
  }

  ghost predicate SortedBy<T>(s: seq<T>, key: T -> int, descending: bool) {
    forall i, j :: 0 <= i < j < |s| ==> Precedes(key(s[i]), key(s[j]), descending)
  }

  /** The head of a sorted list may precede every element of a list holding its tail and an
      element `x` it may precede. */
  lemma HeadPrecedesAll<T>(x: T, s: seq<T>, rest: seq<T>, key: T -> int, descending: bool)
    requires SortedBy(s, key, descending) && s != []
    requires Precedes(key(s[0]), key(x), descending)
    requires multiset(rest) == multiset(s[1..]) + multiset{x}
    ensures forall k :: 0 <= k < |rest| ==> Precedes(key(s[0]), key(rest[k]), descending)
  {
    forall k | 0 <= k < |rest|
      ensures Precedes(key(s[0]), key(rest[k]), descending)
    {
      assert rest[k] in multiset(rest);
      if rest[k] != x {
        assert rest[k] in multiset(s[1..]);
        var m :| 0 <= m < |s[1..]| && s[1..][m] == rest[k];
        assert s[m + 1] == rest[k];
      }
    }
  }

  /** Inserts `x` before the first element it may precede, so that it stays ahead of equal keys. */
  function InsertBy<T>(x: T, s: seq<T>, key: T -> int, descending: bool): (r: seq<T>)
    requires SortedBy(s, key, descending)
    ensures multiset(r) == multiset(s) + multiset{x}
    ensures SortedBy(r, key, descending)
  {
    if s == [] || Precedes(key(x), key(s[0]), descending) then [x] + s
    else
      var rest := InsertBy(x, s[1..], key, descending);
      assert s == [s[0]] + s[1..];
      HeadPrecedesAll(x, s, rest, key, descending);
      [s[0]] + rest
  }

  /** `Array.prototype.sort` with a key comparator: a stable insertion sort. */
  function SortBy<T>(s: seq<T>, key: T -> int, descending: bool): (r: seq<T>)
    ensures |r| == |s|
    ensures multiset(r) == multiset(s)
    ensures SortedBy(r, key, descending)
  {
    if s == [] then []
    else
      assert s == [s[0]] + s[1..];
      var r := InsertBy(s[0], SortBy(s[1..], key, descending), key, descending);
      assert |r| == |multiset(r)|;
      r
  }

  /** `slice(0, n)`. */
  function Take<T>(s: seq<T>, n: nat): (r: seq<T>)
    ensures |r| == if |s| <= n then |s| else n
    ensures r == s[..|r|]
  {
    if |s| <= n then s else s[..n]
  }

  /** A prefix of a permutation of `s` is drawn from `s`. */
  lemma PrefixDrawnFrom<T>(s: seq<T>, sorted: seq<T>, r: seq<T>)
    requires multiset(sorted) == multiset(s)
    requires |r| <= |sorted| && r == sorted[..|r|]
    ensures multiset(r) <= multiset(s)
    ensures forall i :: 0 <= i < |r| ==> r[i] in s
  {
    assert sorted == r + sorted[|r|..];
    assert multiset(sorted) == multiset(r) + multiset(sorted[|r|..]);
    forall i | 0 <= i < |r| ensures r[i] in s {
      assert r[i] in multiset(r) && r[i] in multiset(s);
    }
  }

  /** Nothing left out of a prefix of a newest-first permutation of `s` is newer than what the
      prefix keeps. */
  lemma PrefixKeepsNewest<T>(s: seq<T>, sorted: seq<T>, r: seq<T>, key: T -> int)
    requires multiset(sorted) == multiset(s) && SortedBy(sorted, key, true)
    requires |r| <= |sorted| && r == sorted[..|r|]
    ensures forall i, j :: 0 <= i < |s| && s[i] !in r && 0 <= j < |r| ==> key(s[i]) <= key(r[j])
  {
    forall a, b | 0 <= a < |s| && s[a] !in r && 0 <= b < |r|
      ensures key(s[a]) <= key(r[b])
    {
      assert s[a] in multiset(sorted);
      var j :| 0 <= j < |sorted| && sorted[j] == s[a];
      assert sorted[b] == r[b];
    }
  }

  /** `sort((a, b) => key(b) - key(a)).slice(0, n)`: the `n` newest elements, newest first. */
  function MostRecent<T>(s: seq<T>, key: T -> int, n: nat): (r: seq<T>)
    ensures |r| == if |s| <= n then |s| else n
    ensures SortedBy(r, key, true)
    ensures multiset(r) <= multiset(s)
    ensures forall i :: 0 <= i < |r| ==> r[i] in s
    ensures forall i, j :: 0 <= i < |s| && s[i] !in r && 0 <= j < |r| ==> key(s[i]) <= key(r[j])
  {
    var sorted := SortBy(s, key, true);
    var r := Take(sorted, n);
    PrefixDrawnFrom(s, sorted, r);
    PrefixKeepsNewest(s, sorted, r, key);
    r
  }
}
