/**
 * Python 3's `sorted` on the keys of a counter dict: integers by value,
 * strings by code point; keys of different kinds cannot be compared, so
 * `sorted` raises `TypeError` on a table that mixes them (a lone key of any
 * kind is never compared).
 */
module Sorting {
  import opened Text
  import opened Values

  predicate KeyLess(a: Key, b: Key) {
    match (a, b)
    case (KInt(x), KInt(y)) => x < y
    case (KStr(x), KStr(y)) => StrLess(x, y)
    case _ => false
  }

  /** `a < b` is defined in Python 3. */
  predicate Comparable(a: Key, b: Key) {
    (a.KInt? && b.KInt?) || (a.KStr? && b.KStr?)
  }

  /** `sorted` can order these keys. */
  predicate Orderable(ks: set<Key>) {
    || (forall k :: k in ks ==> k.KInt?)
    || (forall k :: k in ks ==> k.KStr?)
    || |ks| <= 1
  }

  predicate Increasing(s: seq<Key>) {
    forall i, j :: 0 <= i < j < |s| ==> KeyLess(s[i], s[j])
  }

  lemma KeyLessIrreflexive(a: Key)
    ensures !KeyLess(a, a)
  {
    if a.KStr? { StrLessIrreflexive(a.text); }
  }

  lemma KeyLessTransitive(a: Key, b: Key, c: Key)
    requires KeyLess(a, b) && KeyLess(b, c)
    ensures KeyLess(a, c)
  {
    if a.KStr? { StrLessTransitive(a.text, b.text, c.text); }
  }

  lemma KeyLessTotal(a: Key, b: Key)
    requires a != b && Comparable(a, b)
    ensures KeyLess(a, b) || KeyLess(b, a)
  {
    if a.KStr? { StrLessTotal(a.text, b.text); }
  }

  /** `k` put into its place in an increasing sequence. */
  function Insert(s: seq<Key>, k: Key): seq<Key> {
    if s == [] then [k]
    else if KeyLess(k, s[0]) then [k] + s
    else [s[0]] + Insert(s[1..], k)
  }

  lemma {:induction false} InsertIncreasing(s: seq<Key>, k: Key)
    requires Increasing(s) && k !in s
    requires forall x :: x in s ==> Comparable(x, k)
    ensures Increasing(Insert(s, k))
    ensures |Insert(s, k)| == |s| + 1
    ensures forall x :: x in Insert(s, k) <==> x in s || x == k
  {
    if s == [] {
    } else if KeyLess(k, s[0]) {
      var r := [k] + s;
      forall i, j | 0 <= i < j < |r| ensures KeyLess(r[i], r[j]) {
        if i == 0 && j > 1 { KeyLessTransitive(k, s[0], s[j - 1]); }
      }
    } else {
      assert s[0] in s;
      KeyLessTotal(k, s[0]);
      InsertIncreasing(s[1..], k);
      var tail := Insert(s[1..], k);
      var r := [s[0]] + tail;
      forall i, j | 0 <= i < j < |r| ensures KeyLess(r[i], r[j]) {
        if i == 0 {
          assert r[j] in tail;
          if r[j] != k {
            assert r[j] in s[1..];
            var m :| 0 <= m < |s[1..]| && s[1..][m] == r[j];
            assert s[m + 1] == r[j];
          }
        }
      }
    }
  }

  /** `sorted(ks)` for keys `sorted` can order. */
  method SortedKeys(ks: set<Key>) returns (r: seq<Key>)
    requires Orderable(ks)
    ensures Increasing(r)
    ensures forall k :: k in r <==> k in ks
    ensures |r| == |ks|
  {
    r := [];
    var rest := ks;
    while rest != {}
      invariant rest <= ks
      invariant Increasing(r)
      invariant forall k :: k in r <==> k in ks && k !in rest
      invariant |r| + |rest| == |ks|
      decreases |rest|
    {
      var k :| k in rest;
      forall x | x in r ensures Comparable(x, k) {
        assert x in ks && k in ks && x != k;
        assert |ks| >= 2 by {
          assert {x, k} <= ks;
          assert |{x, k}| == 2;
        }
      }
      InsertIncreasing(r, k);
      r := Insert(r, k);
      rest := rest - {k};
    }
  }

  /** Increasing sequences with the same keys are equal: the order `sorted` returns is determined. */
  lemma {:induction false} IncreasingUnique(a: seq<Key>, b: seq<Key>)
    requires Increasing(a) && Increasing(b)
    requires forall k :: k in a <==> k in b
    ensures a == b
  {
    assert a == [] <==> b == [] by {
      if a != [] { assert a[0] in a; }
      if b != [] { assert b[0] in b; }
    }
    if a != [] && b != [] {
      assert a[0] in b;
      assert b[0] in a;
      if a[0] != b[0] {
        var i :| 0 <= i < |b| && b[i] == a[0];
        var j :| 0 <= j < |a| && a[j] == b[0];
        assert KeyLess(b[0], a[0]);
        assert KeyLess(a[0], b[0]);
        KeyLessTransitive(a[0], b[0], a[0]);
        KeyLessIrreflexive(a[0]);
      } else {
        assert a == [a[0]] + a[1..];
        assert b == [b[0]] + b[1..];
        KeyLessIrreflexive(a[0]);
        forall k ensures k in a[1..] <==> k in b[1..] {
          if k in a[1..] {
            var i :| 0 <= i < |a[1..]| && a[1..][i] == k;
            assert KeyLess(a[0], a[i + 1]);
            assert k in b && k != b[0];
            assert k in [b[0]] + b[1..];
          }
          if k in b[1..] {
            var i :| 0 <= i < |b[1..]| && b[1..][i] == k;
            assert KeyLess(b[0], b[i + 1]);
            assert k in a && k != a[0];
            assert k in [a[0]] + a[1..];
          }
        }
        IncreasingUnique(a[1..], b[1..]);
      }
    }
  }
}
