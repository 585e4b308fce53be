/** Small shared vocabulary: an optional value and the numeric caps used by
    every score of the router. */
module Basics {

  datatype Option<+T> = None | Some(value: T)

  /** `min(a, b)` on exact reals. */
  function Min(a: real, b: real): (r: real)
    ensures r <= a && r <= b
    ensures r == a || r == b
  {
    if a <= b then a else b
  }

  /** `max(a, b)` on exact reals. */
  function Max(a: real, b: real): (r: real)
    ensures r >= a && r >= b
    ensures r == a || r == b
  {
    if a >= b then a else b
  }

  /** `a` is `b` with some elements left out, the rest kept in order.
      Stated from the end so that appending to both sides is immediate. */
  ghost predicate IsSubseq<T>(a: seq<T>, b: seq<T>)
    decreases |b|
  {
    if a == [] then true
    else if b == [] then false
    else (a[|a| - 1] == b[|b| - 1] && IsSubseq(a[..|a| - 1], b[..|b| - 1]))
         || IsSubseq(a, b[..|b| - 1])
  }

  lemma SubseqAppendBoth<T>(a: seq<T>, b: seq<T>, x: T)
    requires IsSubseq(a, b)
    ensures IsSubseq(a + [x], b + [x])
  {
    assert (a + [x])[..|a|] == a;
    assert (b + [x])[..|b|] == b;
  }

  lemma SubseqAppendRight<T>(a: seq<T>, b: seq<T>, x: T)
    requires IsSubseq(a, b)
    ensures IsSubseq(a, b + [x])
  {
    assert (b + [x])[..|b|] == b;
  }

  /** A subsequence of `b` is a subsequence of `b` with anything in front. */
  lemma {:induction false} SubseqPrepend<T>(a: seq<T>, b: seq<T>, x: T)
    requires IsSubseq(a, b)
    ensures IsSubseq(a, [x] + b)
    decreases |b|
  {
    if a != [] {
      var b' := b[..|b| - 1];
      assert ([x] + b)[..|b|] == [x] + b';
      if a[|a| - 1] == b[|b| - 1] && IsSubseq(a[..|a| - 1], b') {
        SubseqPrepend(a[..|a| - 1], b', x);
      } else {
        SubseqPrepend(a, b', x);
      }
    }
  }

  /** Putting the same element in front of both sides keeps a subsequence. */
  lemma {:induction false} SubseqConsBoth<T>(a: seq<T>, b: seq<T>, x: T)
    requires IsSubseq(a, b)
    ensures IsSubseq([x] + a, [x] + b)
    decreases |b|
  {
    if b != [] {
      var b' := b[..|b| - 1];
      assert ([x] + b)[..|b|] == [x] + b';
      if a != [] && a[|a| - 1] == b[|b| - 1] && IsSubseq(a[..|a| - 1], b') {
        SubseqConsBoth(a[..|a| - 1], b', x);
        assert ([x] + a)[..|a|] == [x] + a[..|a| - 1];
      } else {
        assert IsSubseq(a, b');
        SubseqConsBoth(a, b', x);
      }
    } else {
      assert [x] + a == [x] + b;
      assert ([x] + a)[..0] == [];
    }
  }

  /** Every element of a subsequence is an element of the whole sequence. */
  lemma {:induction false} SubseqMembers<T>(a: seq<T>, b: seq<T>)
    requires IsSubseq(a, b)
    ensures forall x :: x in a ==> x in b
    decreases |b|
  {
    if a != [] && b != [] {
      var a', b' := a[..|a| - 1], b[..|b| - 1];
      if a[|a| - 1] == b[|b| - 1] && IsSubseq(a', b') {
        SubseqMembers(a', b');
        assert a == a' + [a[|a| - 1]];
        assert b == b' + [b[|b| - 1]];
      } else {
        SubseqMembers(a, b');
        assert b == b' + [b[|b| - 1]];
      }
    }
  }

  /** `sum(f(x) for x in s)`, added up from the front. */
  function Total<T>(s: seq<T>, f: T -> real): real
    decreases |s|
  {
    if s == [] then 0.0 else Total(s[..|s| - 1], f) + f(s[|s| - 1])
  }

  lemma BoundsStep(m: real, n: real, t: real, v: real, lo: real, hi: real)
    requires m == n + 1.0
    requires n * lo <= t <= n * hi && lo <= v <= hi
    ensures m * lo <= t + v <= m * hi
  {
    assert m * lo == n * lo + lo && m * hi == n * hi + hi;
  }

  /** Each term within `[lo, hi]` puts the sum within `|s|` times those
      bounds. */
  lemma {:induction false} TotalBounds<T>(s: seq<T>, f: T -> real, lo: real, hi: real)
    requires forall x :: x in s ==> lo <= f(x) <= hi
    ensures |s| as real * lo <= Total(s, f) <= |s| as real * hi
    decreases |s|
  {
    if s != [] {
      var init, last := s[..|s| - 1], s[|s| - 1];
      assert forall x :: x in init ==> lo <= f(x) <= hi by {
        assert forall x :: x in init ==> x in s;
      }
      assert lo <= f(last) <= hi by {
        assert last in s;
      }
      TotalBounds(init, f, lo, hi);
      assert Total(s, f) == Total(init, f) + f(last);
      BoundsStep(|s| as real, |init| as real, Total(init, f), f(last), lo, hi);
    }
  }

  /** `s[:n]` for a non-negative `n`. */
  function Prefix<T>(s: seq<T>, n: nat): (r: seq<T>)
    ensures |r| <= n && |r| <= |s|
    ensures |r| == n || r == s
    ensures forall k :: 0 <= k < |r| ==> r[k] == s[k]
  {
    if n < |s| then s[..n] else s
  }

  /** The mean of `f` over a non-empty sequence. */
  function Average<T>(s: seq<T>, f: T -> real): real
    requires |s| > 0
  {
    Total(s, f) / |s| as real
  }

  lemma QuotientBounds(t: real, n: real, lo: real, hi: real)
    requires n > 0.0 && n * lo <= t <= n * hi
    ensures lo <= t / n <= hi
  {
    var q := t / n;
    assert q * n == t;
    assert (q - lo) * n == t - n * lo;
    assert (hi - q) * n == n * hi - t;
  }

  /** The mean lies between the bounds of its terms. */
  lemma AverageBounds<T>(s: seq<T>, f: T -> real, lo: real, hi: real)
    requires |s| > 0
    requires forall x :: x in s ==> lo <= f(x) <= hi
    ensures lo <= Average(s, f) <= hi
  {
    TotalBounds(s, f, lo, hi);
    QuotientBounds(Total(s, f), |s| as real, lo, hi);
  }
}
