/** The `$sort` stages with a descending key (`date: -1`, `total: -1`), as an insertion
    sort on sequences. */
module Sorting {

  ghost predicate SortedDesc<T>(s: seq<T>, key: T -> int)
  {
    forall i, j :: 0 <= i < j < |s| ==> key(s[i]) >= key(s[j])
  }

  /** Puts `x` in front of the first element whose key is smaller. */
  function Insert<T>(x: T, s: seq<T>, key: T -> int): (r: seq<T>)
    requires SortedDesc(s, key)
    ensures SortedDesc(r, key)
    ensures multiset(r) == multiset(s) + multiset{x}
    ensures |r| == |s| + 1
  {
    if s == [] then [x]
    else if key(x) >= key(s[0]) then [x] + s
    else
      SortedTail(s, key);
      var tail := Insert(x, s[1..], key);
      assert s == [s[0]] + s[1..];
      HeadBound(s[0], x, s[1..], tail, key);
      assert multiset([s[0]] + tail) == multiset{s[0]} + multiset(tail);
      [s[0]] + tail
  }

  lemma SortedTail<T>(s: seq<T>, key: T -> int)
    requires SortedDesc(s, key) && s != []
    ensures SortedDesc(s[1..], key)
    ensures forall e :: e in s[1..] ==> key(s[0]) >= key(e)
  {
    var rest := s[1..];
    forall i, j | 0 <= i < j < |rest| ensures key(rest[i]) >= key(rest[j]) {
      assert rest[i] == s[i + 1] && rest[j] == s[j + 1];
    }
    forall e | e in rest ensures key(s[0]) >= key(e) {
      var j :| 0 <= j < |rest| && rest[j] == e;
      assert s[j + 1] == e;
    }
  }

  lemma HeadBound<T>(h: T, x: T, rest: seq<T>, tail: seq<T>, key: T -> int)
    requires key(h) >= key(x) && SortedDesc(tail, key)
    requires forall e :: e in rest ==> key(h) >= key(e)
    requires multiset(tail) == multiset(rest) + multiset{x}
    ensures SortedDesc([h] + tail, key)
  {
    var r := [h] + tail;
    forall i, j | 0 <= i < j < |r| ensures key(r[i]) >= key(r[j]) {
      assert r[j] == tail[j - 1] && tail[j - 1] in multiset(tail);
      if i > 0 {
        assert r[i] == tail[i - 1];
      }
    }
  }

  /** The elements of `s` ordered by descending key. */
  function SortDesc<T>(s: seq<T>, key: T -> int): (r: seq<T>)
    ensures SortedDesc(r, key)
    ensures multiset(r) == multiset(s)
    ensures |r| == |s|
  {
    if s == [] then []
    else
      assert s == [s[0]] + s[1..];
      Insert(s[0], SortDesc(s[1..], key), key)
  }

  /** The first `k` elements of a sorted sequence are sorted, and none of the rest has a
      larger key than one of them. */
  lemma TakeSorted<T>(s: seq<T>, k: nat, key: T -> int)
    requires SortedDesc(s, key) && k <= |s|
    ensures SortedDesc(s[..k], key)
    ensures multiset(s[..k]) + multiset(s[k..]) == multiset(s)
    ensures forall x, y :: x in multiset(s[k..]) && y in s[..k] ==> key(x) <= key(y)
  {
    var top, rest := s[..k], s[k..];
    assert s == top + rest;
    forall i, j | 0 <= i < j < |top| ensures key(top[i]) >= key(top[j]) {
      assert top[i] == s[i] && top[j] == s[j];
    }
    forall x, y | x in multiset(rest) && y in top ensures key(x) <= key(y) {
      assert x in rest;
      var j :| 0 <= j < |rest| && rest[j] == x;
      var i :| 0 <= i < |top| && top[i] == y;
      assert s[k + j] == x && s[i] == y;
    }
  }

  /** Reordering keeps keys distinct: a permutation of a sequence whose elements have
      pairwise different keys has pairwise different keys. */
  lemma DistinctKeysPermuted<T, K>(a: seq<T>, b: seq<T>, f: T -> K)
    requires multiset(a) == multiset(b)
    requires forall i, j :: 0 <= i < j < |a| ==> f(a[i]) != f(a[j])
    ensures forall i, j :: 0 <= i < j < |b| ==> f(b[i]) != f(b[j])
  {
    forall i, j | 0 <= i < j < |b| ensures f(b[i]) != f(b[j]) {
      if b[i] == b[j] {
        TwiceCounted(b, i, j);
        AtMostOnce(a, b[i], f);
        assert false;
      } else {
        DifferentKeys(a, b[i], b[j], f);
      }
    }
  }

  /** With distinct keys, no element occurs twice. */
  lemma AtMostOnce<T, K>(a: seq<T>, x: T, f: T -> K)
    requires forall i, j :: 0 <= i < j < |a| ==> f(a[i]) != f(a[j])
    ensures multiset(a)[x] <= 1
  {
    if multiset(a)[x] >= 2 {
      var p, q := TwoPositions(a, x);
      assert false;
    }
  }

  /** With distinct keys, two different elements have different keys. */
  lemma DifferentKeys<T, K>(a: seq<T>, x: T, y: T, f: T -> K)
    requires forall i, j :: 0 <= i < j < |a| ==> f(a[i]) != f(a[j])
    requires x in multiset(a) && y in multiset(a) && x != y
    ensures f(x) != f(y)
  {
    var p :| 0 <= p < |a| && a[p] == x;
    var q :| 0 <= q < |a| && a[q] == y;
    if p < q {
      assert f(a[p]) != f(a[q]);
    } else {
      assert q < p;
    }
  }

  lemma TwiceCounted<T>(s: seq<T>, i: nat, j: nat)
    requires i < j < |s| && s[i] == s[j]
    ensures multiset(s)[s[i]] >= 2
  {
    assert s == s[..i] + [s[i]] + s[i + 1..j] + [s[j]] + s[j + 1..];
  }

  lemma {:induction false} TwoPositions<T>(s: seq<T>, x: T) returns (p: nat, q: nat)
    requires multiset(s)[x] >= 2
    ensures p < q < |s| && s[p] == x && s[q] == x
  {
    var init := s[..|s| - 1];
    assert s == init + [s[|s| - 1]];
    if s[|s| - 1] == x {
      assert x in multiset(init);
      p :| 0 <= p < |init| && init[p] == x;
      q := |s| - 1;
    } else {
      p, q := TwoPositions(init, x);
    }
  }
}
