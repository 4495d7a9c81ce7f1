/** The simulator's bisection of its exit and branch tables. */
module Lookup {

  predicate Ascending(keys: seq<int>, n: int)
    requires n <= |keys|
  {
    forall i, j :: 0 <= i < j < n ==> keys[i] < keys[j]
  }

  /** Bisects between lo and hi, then probes the two ends; -1 when nothing matches. */
  function Bisect(keys: seq<int>, pc: int, lo: int, hi: int): int
    requires 0 <= lo < |keys| && -1 <= hi < |keys|
    decreases hi - lo
  {
    if lo + 1 < hi then
      var mid := (lo + hi) / 2;
      if pc == keys[mid] then mid
      else if pc < keys[mid] then Bisect(keys, pc, lo, mid)
      else Bisect(keys, pc, mid, hi)
    else if pc == keys[lo] then lo
    else if 0 <= hi && pc == keys[hi] then hi
    else -1
  }

  /** Looks pc up among the first n keys. */
  function Search(keys: seq<int>, n: int, pc: int): int
    requires 0 <= n <= |keys| && 0 < |keys|
  {
    Bisect(keys, pc, 0, n - 1)
  }

  /** The first of the keys from i to n equal to pc, or -1. */
  function Scan(keys: seq<int>, n: int, pc: int, i: nat): (r: int)
    requires 0 <= n <= |keys|
    ensures r == -1 ==> forall j :: i <= j < n ==> keys[j] != pc
    ensures r != -1 ==> i <= r < n && keys[r] == pc && forall j :: i <= j < r ==> keys[j] != pc
    decreases n - i
  {
    if i >= n then -1 else if keys[i] == pc then i else Scan(keys, n, pc, i + 1)
  }

  lemma {:induction false} BisectFinds(keys: seq<int>, n: int, pc: int, lo: int, hi: int)
    requires 0 <= lo <= hi < n <= |keys| && Ascending(keys, n)
    requires forall j :: 0 <= j < n && keys[j] == pc ==> lo <= j <= hi
    ensures Bisect(keys, pc, lo, hi) == Scan(keys, n, pc, 0)
    decreases hi - lo
  {
    if lo + 1 < hi {
      var mid := (lo + hi) / 2;
      if pc < keys[mid] {
        BisectFinds(keys, n, pc, lo, mid);
      } else if pc > keys[mid] {
        BisectFinds(keys, n, pc, mid, hi);
      }
    }
  }

  /**
   On an ascending table the bisection agrees with a linear scan unless the table is empty and pc
   happens to equal the first unused cell, which the bisection probes all the same.
   */
  lemma SearchIsScanExactly(keys: seq<int>, n: int, pc: int)
    requires 0 <= n <= |keys| && 0 < |keys| && Ascending(keys, n)
    ensures Search(keys, n, pc) == Scan(keys, n, pc, 0) <==> n > 0 || pc != keys[0]
  {
    if n > 0 {
      BisectFinds(keys, n, pc, 0, n - 1);
    }
  }

  /** The loop of the simulator. */
  method SearchTable(keys: seq<int>, n: int, pc: int) returns (r: int)
    requires 0 <= n <= |keys| && 0 < |keys|
    ensures r == Search(keys, n, pc)
  {
    var min, max := 0, n - 1;
    while min + 1 < max
      invariant 0 <= min < |keys| && -1 <= max < |keys|
      invariant Bisect(keys, pc, min, max) == Search(keys, n, pc)
      decreases max - min
    {
      var mid := (min + max) / 2;
      if pc == keys[mid] {
        return mid;
      } else if pc < keys[mid] {
        max := mid;
      } else {
        min := mid;
      }
    }
    if pc == keys[min] {
      return min;
    }
    // For an empty table the source goes on to read before its start; the model stops here.
    if 0 <= max && pc == keys[max] {
      return max;
    }
    return -1;
  }
}
