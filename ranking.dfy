/** Python's stable sort in descending key order (`list.sort(key=...,
    reverse=True)` and `sorted(..., key=lambda s: -k(s))`), as an insertion
    sort on sequences, with the three facts the router relies on: the result
    is ordered, it is a permutation, and elements with equal keys keep their
    original order. */
module Ranking {
  import opened Basics

  ghost predicate SortedDesc<T>(s: seq<T>, key: T -> real) {
    forall i, j :: 0 <= i < j < |s| ==> key(s[i]) >= key(s[j])
  }

  /** `x` placed before the first element whose key is not above its own. */
  function Insert<T>(x: T, s: seq<T>, key: T -> real): (r: seq<T>)
    ensures |r| == |s| + 1
    ensures multiset(r) == multiset(s) + multiset{x}
  {
    if s == [] then [x]
    else if key(s[0]) <= key(x) then [x] + s
    else
      assert s == [s[0]] + s[1..];
      [s[0]] + Insert(x, s[1..], key)
  }

  /** Inserting an element keeps every key at or below a common bound. */
  lemma {:induction false} InsertBelow<T>(x: T, s: seq<T>, key: T -> real, b: real)
    requires key(x) <= b && forall k :: 0 <= k < |s| ==> key(s[k]) <= b
    ensures forall k :: 0 <= k < |Insert(x, s, key)| ==> key(Insert(x, s, key)[k]) <= b
  {
    if s != [] && key(s[0]) > key(x) {
      InsertBelow(x, s[1..], key, b);
      var t := Insert(x, s[1..], key);
      assert Insert(x, s, key) == [s[0]] + t;
    }
  }

  lemma {:induction false} InsertSorted<T>(x: T, s: seq<T>, key: T -> real)
    requires SortedDesc(s, key)
    ensures SortedDesc(Insert(x, s, key), key)
  {
    if s != [] {
      var r := Insert(x, s, key);
      if key(s[0]) <= key(x) {
        assert r == [x] + s;
        forall i, j | 0 <= i < j < |r| ensures key(r[i]) >= key(r[j]) {
          assert r[j] == s[j - 1];
          if i > 0 {
            assert r[i] == s[i - 1];
          }
        }
      } else {
        var t := Insert(x, s[1..], key);
        InsertSorted(x, s[1..], key);
        InsertBelow(x, s[1..], key, key(s[0]));
        assert r == [s[0]] + t;
        forall i, j | 0 <= i < j < |r| ensures key(r[i]) >= key(r[j]) {
          assert r[j] == t[j - 1];
          if i > 0 {
            assert r[i] == t[i - 1];
          }
        }
      }
    }
  }

  function SortDesc<T>(s: seq<T>, key: T -> real): (r: seq<T>)
    ensures multiset(r) == multiset(s)
    ensures |r| == |s|
    ensures SortedDesc(r, key)
  {
    if s == [] then []
    else
      assert s == [s[0]] + s[1..];
      var t := SortDesc(s[1..], key);
      InsertSorted(s[0], t, key);
      Insert(s[0], t, key)
  }

  /** The elements of `s` whose key is exactly `k`, in order. */
  function WithKey<T>(s: seq<T>, key: T -> real, k: real): seq<T> {
    if s == [] then []
    else (if key(s[0]) == k then [s[0]] else []) + WithKey(s[1..], key, k)
  }

  lemma {:induction false} InsertStable<T>(x: T, s: seq<T>, key: T -> real, k: real)
    ensures WithKey(Insert(x, s, key), key, k) == (if key(x) == k then [x] else []) + WithKey(s, key, k)
  {
    var xs: seq<T> := if key(x) == k then [x] else [];
    if s == [] {
      assert WithKey([x], key, k) == xs + WithKey([], key, k);
    } else if key(s[0]) <= key(x) {
      assert ([x] + s)[1..] == s;
      assert WithKey([x] + s, key, k) == xs + WithKey(s, key, k);
    } else {
      var t := Insert(x, s[1..], key);
      var hs: seq<T> := if key(s[0]) == k then [s[0]] else [];
      assert ([s[0]] + t)[1..] == t;
      InsertStable(x, s[1..], key, k);
      assert xs == [] || hs == [];
      calc {
        WithKey(Insert(x, s, key), key, k);
        WithKey([s[0]] + t, key, k);
        hs + WithKey(t, key, k);
        hs + (xs + WithKey(s[1..], key, k));
        xs + (hs + WithKey(s[1..], key, k));
        xs + WithKey(s, key, k);
      }
    }
  }

  /** Stability: sorting keeps the relative order of every group of
      elements with the same key. */
  lemma {:induction false} SortStable<T>(s: seq<T>, key: T -> real, k: real)
    ensures WithKey(SortDesc(s, key), key, k) == WithKey(s, key, k)
  {
    if s != [] {
      SortStable(s[1..], key, k);
      InsertStable(s[0], SortDesc(s[1..], key), key, k);
    }
  }

  /** In a sorted sequence an element with a strictly larger key comes
      first. */
  lemma LargerKeyFirst<T>(s: seq<T>, key: T -> real, i: nat, j: nat)
    requires SortedDesc(s, key)
    requires i < |s| && j < |s| && key(s[i]) > key(s[j])
    ensures i < j
  {
  }

  /** In a sorted sequence every element before a cut has at least the key
      of every element after it. */
  lemma SortedSplit<T>(s: seq<T>, key: T -> real, n: nat)
    requires SortedDesc(s, key) && n <= |s|
    ensures forall x, y :: x in s[..n] && y in s[n..] ==> key(x) >= key(y)
  {
    forall x, y | x in s[..n] && y in s[n..] ensures key(x) >= key(y) {
      var i :| 0 <= i < n && s[..n][i] == x;
      var m :| 0 <= m < |s| - n && s[n..][m] == y;
      assert s[i] == x && s[n + m] == y;
    }
  }

  /** Removing a prefix's elements from a sequence's multiset leaves the
      rest. */
  lemma PrefixRemoved<T>(s: seq<T>, n: nat)
    requires n <= |s|
    ensures multiset(s[..n]) <= multiset(s)
    ensures multiset(s) - multiset(s[..n]) == multiset(s[n..])
  {
    assert s == s[..n] + s[n..];
  }

  /** Taking a subsequence keeps a sequence sorted. */
  lemma {:induction false} SubseqSorted<T>(a: seq<T>, b: seq<T>, key: T -> real)
    requires IsSubseq(a, b) && SortedDesc(b, key)
    ensures SortedDesc(a, key)
    decreases |b|
  {
    if a != [] && b != [] {
      var a', b' := a[..|a| - 1], b[..|b| - 1];
      assert SortedDesc(b', key);
      if a[|a| - 1] == b[|b| - 1] && IsSubseq(a', b') {
        SubseqSorted(a', b', key);
        SubseqMembers(a', b');
        forall i | 0 <= i < |a'|
          ensures key(a[i]) >= key(a[|a| - 1])
        {
          assert a[i] == a'[i] && a'[i] in b';
          var m :| 0 <= m < |b'| && b'[m] == a'[i];
          assert b[m] == b'[m];
        }
      } else {
        SubseqSorted(a, b', key);
      }
    }
  }

  /** No two positions of `s` carry the same `f` value. */
  ghost predicate Injective<T, U>(s: seq<T>, f: T -> U) {
    forall i, j :: 0 <= i < j < |s| ==> f(s[i]) != f(s[j])
  }

  lemma {:induction false} SubseqInjective<T, U>(a: seq<T>, b: seq<T>, f: T -> U)
    requires IsSubseq(a, b) && Injective(b, f)
    ensures Injective(a, f)
    decreases |b|
  {
    if a != [] && b != [] {
      var a', b' := a[..|a| - 1], b[..|b| - 1];
      assert Injective(b', f);
      if a[|a| - 1] == b[|b| - 1] && IsSubseq(a', b') {
        SubseqInjective(a', b', f);
        SubseqMembers(a', b');
        forall i | 0 <= i < |a'|
          ensures f(a[i]) != f(a[|a| - 1])
        {
          assert a[i] == a'[i] && a'[i] in b';
          var m :| 0 <= m < |b'| && b'[m] == a'[i];
          assert b[m] == b'[m];
        }
      } else {
        SubseqInjective(a, b', f);
      }
    }
  }

  /** Inserting an element whose `f` value is not `v` into a sequence
      without `v` gives a sequence without `v`. */
  lemma {:induction false} InsertAvoids<T, U>(x: T, s: seq<T>, key: T -> real, f: T -> U, v: U)
    requires f(x) != v && forall k :: 0 <= k < |s| ==> f(s[k]) != v
    ensures forall k :: 0 <= k < |Insert(x, s, key)| ==> f(Insert(x, s, key)[k]) != v
  {
    if s != [] && key(s[0]) > key(x) {
      InsertAvoids(x, s[1..], key, f, v);
      assert Insert(x, s, key) == [s[0]] + Insert(x, s[1..], key);
    }
  }

  lemma {:induction false} InsertInjective<T, U>(x: T, s: seq<T>, key: T -> real, f: T -> U)
    requires Injective(s, f)
    requires forall y :: y in s ==> f(y) != f(x)
    ensures Injective(Insert(x, s, key), f)
  {
    if s != [] && key(s[0]) > key(x) {
      var t := Insert(x, s[1..], key);
      InsertInjective(x, s[1..], key, f);
      InsertAvoids(x, s[1..], key, f, f(s[0]));
      var r := [s[0]] + t;
      forall i, j | 0 <= i < j < |r| ensures f(r[i]) != f(r[j]) {
        assert r[j] == t[j - 1];
        if i > 0 {
          assert r[i] == t[i - 1];
        }
      }
    } else if s != [] {
      var r := [x] + s;
      forall i, j | 0 <= i < j < |r| ensures f(r[i]) != f(r[j]) {
        assert r[j] == s[j - 1];
        if i > 0 {
          assert r[i] == s[i - 1];
        }
      }
    }
  }

  /** Sorting keeps distinct `f` values distinct. */
  lemma {:induction false} SortInjective<T, U>(s: seq<T>, key: T -> real, f: T -> U)
    requires Injective(s, f)
    ensures Injective(SortDesc(s, key), f)
  {
    if s != [] {
      var t := SortDesc(s[1..], key);
      assert Injective(s[1..], f);
      SortInjective(s[1..], key, f);
      forall y | y in t ensures f(y) != f(s[0]) {
        assert y in multiset(t);
        assert y in multiset(s[1..]);
        var m :| 0 <= m < |s[1..]| && s[1..][m] == y;
        assert s[m + 1] == y;
      }
      InsertInjective(s[0], t, key, f);
    }
  }
}
