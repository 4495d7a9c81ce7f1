/**
 Sums of an integer weight over a sequence: frames over pages and jobs, semaphores over threads.
 A weight is a function, so one set of lemmas serves them all.
 */
module Sums {

  function Sum<T>(f: T -> int, s: seq<T>): int {
    if s == [] then 0 else f(s[0]) + Sum(f, s[1..])
  }

  lemma {:induction false} SumAppend<T>(f: T -> int, a: seq<T>, b: seq<T>)
    ensures Sum(f, a + b) == Sum(f, a) + Sum(f, b)
  {
    if a == [] {
      assert a + b == b;
    } else {
      assert (a + b)[1..] == a[1..] + b;
      SumAppend(f, a[1..], b);
    }
  }

  lemma SumSnoc<T>(f: T -> int, s: seq<T>, n: nat)
    requires n < |s|
    ensures Sum(f, s[..n + 1]) == Sum(f, s[..n]) + f(s[n])
  {
    assert s[..n + 1] == s[..n] + [s[n]];
    SumAppend(f, s[..n], [s[n]]);
    assert Sum(f, [s[n]]) == f(s[n]) + Sum(f, []);
  }

  lemma SumMiddle<T>(f: T -> int, a: seq<T>, x: T, b: seq<T>)
    ensures Sum(f, a + ([x] + b)) == Sum(f, a) + f(x) + Sum(f, b)
  {
    SumAppend(f, a, [x] + b);
    assert ([x] + b)[1..] == b;
  }

  lemma SumUpdate<T>(f: T -> int, s: seq<T>, k: nat, x: T)
    requires k < |s|
    ensures Sum(f, s[k := x]) == Sum(f, s) - f(s[k]) + f(x)
  {
    var a, b := s[..k], s[k + 1..];
    assert s == a + ([s[k]] + b);
    assert s[k := x] == a + ([x] + b);
    SumMiddle(f, a, s[k], b);
    SumMiddle(f, a, x, b);
  }

  /** One weight taken out. */
  lemma SumWithout<T>(f: T -> int, s: seq<T>, a: seq<T>, x: T, b: seq<T>)
    requires s == a + ([x] + b)
    ensures Sum(f, a + b) == Sum(f, s) - f(x)
  {
    SumMiddle(f, a, x, b);
    SumAppend(f, a, b);
  }

  lemma OneMore(x: int, n: int)
    ensures x * (n + 1) == x * n + x
  {
  }

  /** If every weight is within [lo, hi], so is the average. */
  lemma {:induction false} SumBounds<T>(f: T -> int, s: seq<T>, lo: int, hi: int)
    requires forall k :: 0 <= k < |s| ==> lo <= f(s[k]) <= hi
    ensures lo * |s| <= Sum(f, s) <= hi * |s|
  {
    if s != [] {
      var rest := s[1..];
      assert forall k :: 0 <= k < |rest| ==> rest[k] == s[k + 1];
      SumBounds(f, rest, lo, hi);
      OneMore(lo, |rest|);
      OneMore(hi, |rest|);
    }
  }

  /** With non-negative weights, any one weight is at most the sum. */
  lemma SumAtLeast<T>(f: T -> int, s: seq<T>, k: nat)
    requires forall j :: 0 <= j < |s| ==> 0 <= f(s[j])
    requires k < |s|
    ensures f(s[k]) <= Sum(f, s)
  {
    var a, b := s[..k], s[k + 1..];
    assert s == a + ([s[k]] + b);
    SumMiddle(f, a, s[k], b);
    assert forall j :: 0 <= j < |b| ==> b[j] == s[k + 1 + j];
    SumNonNegative(f, a);
    SumNonNegative(f, b);
  }

  lemma {:induction false} SumNonNegative<T>(f: T -> int, s: seq<T>)
    requires forall j :: 0 <= j < |s| ==> 0 <= f(s[j])
    ensures 0 <= Sum(f, s)
  {
    if s != [] {
      assert forall k :: 0 <= k < |s[1..]| ==> s[1..][k] == s[k + 1];
      SumNonNegative(f, s[1..]);
    }
  }

  /** With non-negative weights, two different positions weigh at most the sum. */
  lemma SumAtLeastTwo<T>(f: T -> int, s: seq<T>, j: nat, k: nat)
    requires forall m :: 0 <= m < |s| ==> 0 <= f(s[m])
    requires j < k < |s|
    ensures f(s[j]) + f(s[k]) <= Sum(f, s)
  {
    assert s == s[..k] + s[k..];
    SumAppend(f, s[..k], s[k..]);
    SumAtLeast(f, s[..k], j);
    assert forall m :: 0 <= m < |s[k..]| ==> s[k..][m] == s[k + m];
    SumAtLeast(f, s[k..], 0);
  }

  /** A positive sum has a positive weight somewhere. */
  lemma {:induction false} SumPositive<T>(f: T -> int, s: seq<T>) returns (k: nat)
    requires 0 < Sum(f, s)
    ensures k < |s| && 0 < f(s[k])
  {
    if 0 < f(s[0]) {
      k := 0;
    } else {
      var j := SumPositive(f, s[1..]);
      k := j + 1;
    }
  }
}
