/** The SQL the models run, over a table's rows in insertion order:
    `WHERE` as a filter, `fetchone` as the first match, `ORDER BY <key> DESC`
    as a stable insertion sort and `LIMIT n` as a prefix. */
module Queries {
  import opened Common

  /** Position of the first element satisfying `p`, or -1. */
  function IndexWhere<T>(s: seq<T>, p: T -> bool): (k: int)
    ensures -1 <= k < |s|
    ensures k >= 0 ==> p(s[k])
    ensures forall i :: 0 <= i < |s| && (k < 0 || i < k) ==> !p(s[i])
  {
    if s == [] then -1
    else if p(s[0]) then 0
    else
      var k := IndexWhere(s[1..], p);
      if k < 0 then -1 else k + 1
  }

  /** Two tables whose rows agree on `p` position by position have their
      first match at the same position. */
  lemma {:induction false} IndexWhereAgrees<T>(a: seq<T>, b: seq<T>, p: T -> bool)
    requires |a| == |b| && forall i :: 0 <= i < |a| ==> p(a[i]) == p(b[i])
    ensures IndexWhere(a, p) == IndexWhere(b, p)
  {
    if a != [] {
      IndexWhereAgrees(a[1..], b[1..], p);
    }
  }

  /** `SELECT ... WHERE p` followed by `fetchone()`. */
  function FirstWhere<T(!new)>(s: seq<T>, p: T -> bool): (r: Option<T>)
    ensures r.Some? ==> r.value in s && p(r.value)
    ensures r.None? <==> forall x :: x in s ==> !p(x)
  {
    var k := IndexWhere(s, p);
    if k < 0 then None else Some(s[k])
  }

  /** `SELECT ... WHERE p` followed by `fetchall()`: the matching rows in order. */
  function Filter<T(!new)>(s: seq<T>, p: T -> bool): (r: seq<T>)
    ensures forall x :: x in r <==> x in s && p(x)
    ensures |r| <= |s|
    ensures multiset(r) <= multiset(s)
  {
    if s == [] then []
    else
      assert s == [s[0]] + s[1..];
      (if p(s[0]) then [s[0]] else []) + Filter(s[1..], p)
  }

  /** The first match of a non-empty sequence: its head, or the first
      match of its tail. */
  lemma {:induction false} FirstWhereCons<T(!new)>(s: seq<T>, q: T -> bool)
    requires s != []
    ensures FirstWhere(s, q) == if q(s[0]) then Some(s[0]) else FirstWhere(s[1..], q)
  {
    if !q(s[0]) {
      var k := IndexWhere(s[1..], q);
      if k >= 0 {
        assert s[k + 1] == s[1..][k];
      }
    }
  }

  /** Dropping rows that cannot match does not change the first match. */
  lemma {:induction false} FirstWhereOfFilter<T(!new)>(s: seq<T>, p: T -> bool, q: T -> bool)
    requires forall x :: x in s && q(x) ==> p(x)
    ensures FirstWhere(Filter(s, p), q) == FirstWhere(s, q)
    decreases |s|
  {
    if s != [] {
      assert s == [s[0]] + s[1..];
      assert forall x :: x in s[1..] ==> x in s;
      FirstWhereOfFilter(s[1..], p, q);
      FirstWhereCons(s, q);
      var rest := Filter(s[1..], p);
      if p(s[0]) {
        assert Filter(s, p) == [s[0]] + rest;
        assert ([s[0]] + rest)[1..] == rest;
        FirstWhereCons([s[0]] + rest, q);
      } else {
        assert s[0] in s;
        assert Filter(s, p) == rest;
      }
    }
  }

  ghost predicate SortedDesc<T>(s: seq<T>, key: T -> int) {
    forall i, j :: 0 <= i < j < |s| ==> key(s[i]) >= key(s[j])
  }

  /** Inserts `x` before the first element whose key does not exceed its own. */
  function InsertDesc<T>(x: T, s: seq<T>, key: T -> int): (r: seq<T>)
    requires SortedDesc(s, key)
    ensures SortedDesc(r, key)
    ensures multiset(r) == multiset(s) + multiset{x}
    ensures |r| == |s| + 1
    ensures forall y :: y in r ==> y == x || y in s
  {
    if s == [] then [x]
    else if key(x) >= key(s[0]) then [x] + s
    else
      var tail := InsertDesc(x, s[1..], key);
      assert s == [s[0]] + s[1..];
      InsertBelowHead(s[0], tail, key, x, s[1..]);
      [s[0]] + tail
  }

  lemma InsertBelowHead<T>(h: T, tail: seq<T>, key: T -> int, x: T, rest: seq<T>)
    requires SortedDesc(tail, key) && SortedDesc([h] + rest, key)
    requires key(x) < key(h)
    requires forall y :: y in tail ==> y == x || y in rest
    ensures SortedDesc([h] + tail, key)
  {
    var r := [h] + tail;
    forall i, j | 0 <= i < j < |r| ensures key(r[i]) >= key(r[j]) {
      if i == 0 {
        assert r[j] == tail[j - 1];
        assert tail[j - 1] in tail;
        if r[j] != x {
          var k :| 0 <= k < |rest| && rest[k] == r[j];
          assert ([h] + rest)[k + 1] == rest[k] && ([h] + rest)[0] == h;
          assert key(h) >= key(rest[k]);
        }
        assert r[0] == h;
      } else {
        assert r[i] == tail[i - 1] && r[j] == tail[j - 1];
        assert key(tail[i - 1]) >= key(tail[j - 1]);
      }
    }
  }

  /** The rows of `s`, highest key first; rows with equal keys keep their order. */
  function SortDesc<T>(s: seq<T>, key: T -> int): (r: seq<T>)
    ensures SortedDesc(r, key)
    ensures multiset(r) == multiset(s)
    ensures |r| == |s|
  {
    if s == [] then []
    else
      assert s == [s[0]] + s[1..];
      InsertDesc(s[0], SortDesc(s[1..], key), key)
  }

  /** `LIMIT n`. */
  function Take<T>(s: seq<T>, n: nat): (r: seq<T>)
    ensures |r| <= n && |r| <= |s|
    ensures n >= |s| ==> r == s
    ensures forall i :: 0 <= i < |r| ==> r[i] == s[i]
  {
    if n >= |s| then s else s[..n]
  }

  /** The first row of a descending sort has the largest key of all rows. */
  lemma HeadIsMaximal<T>(s: seq<T>, key: T -> int, y: T)
    requires s != [] && y in s
    ensures key(SortDesc(s, key)[0]) >= key(y)
  {
    var r := SortDesc(s, key);
    assert y in multiset(s);
    assert y in multiset(r);
    var j :| 0 <= j < |r| && r[j] == y;
  }

  /** A prefix of a descending sequence holds its largest keys. */
  lemma PrefixIsTop<T>(sorted: seq<T>, key: T -> int, n: nat)
    requires SortedDesc(sorted, key)
    ensures SortedDesc(Take(sorted, n), key)
    ensures forall i, y :: 0 <= i < |Take(sorted, n)| && y in sorted && y !in Take(sorted, n)
              ==> key(y) <= key(Take(sorted, n)[i])
  {
    var r := Take(sorted, n);
    forall i, y | 0 <= i < |r| && y in sorted && y !in r ensures key(y) <= key(r[i]) {
      var j :| 0 <= j < |sorted| && sorted[j] == y;
      assert j >= |r|;
      assert r[i] == sorted[i];
    }
  }

  /** `ORDER BY key DESC LIMIT n` returns the top rows: sorted, and no row
      left out has a larger key than a row returned. */
  lemma TopRows<T>(s: seq<T>, key: T -> int, n: nat)
    ensures SortedDesc(Take(SortDesc(s, key), n), key)
    ensures |Take(SortDesc(s, key), n)| == if n < |s| then n else |s|
    ensures multiset(Take(SortDesc(s, key), n)) <= multiset(s)
    ensures forall i, y :: 0 <= i < |Take(SortDesc(s, key), n)| && y in s && y !in Take(SortDesc(s, key), n)
              ==> key(y) <= key(Take(SortDesc(s, key), n)[i])
  {
    var sorted := SortDesc(s, key);
    PrefixInMultiset(sorted, n);
    PrefixIsTop(sorted, key, n);
    assert forall y :: y in s <==> y in multiset(s);
    assert forall y :: y in sorted <==> y in multiset(sorted);
  }

  lemma PrefixInMultiset<T>(s: seq<T>, n: nat)
    ensures multiset(Take(s, n)) <= multiset(s)
  {
    if n < |s| {
      assert s == Take(s, n) + s[n..];
    }
  }
}
