/** What the queue can be: what order a pass of the shuffle can give it, and what its jobs do. */
module Shuffling {
  import opened Params
  import opened Branching
  import opened JobQueue
  import opened Control

  lemma {:induction false} ShuffledPrefix(s: seq<int>, draws: seq<nat>, all: seq<nat>, n: nat)
    requires |s| == QUEUESIZE && n <= |draws| <= |all| && all[..|draws|] == draws
    ensures Shuffled(s, all, n) == Shuffled(s, draws, n)
  {
    if n > 0 {
      var k := n - 1;
      ShuffledPrefix(s, draws, all, k);
      assert all[k] == draws[k];
    }
  }

  /** Swap number n is of place i with place j. */
  lemma SwapAt(s: seq<int>, all: seq<nat>, n: nat, n': nat, i: nat, j: nat)
    requires |s| == QUEUESIZE && n' == n + 1 <= |all| && i == n % QUEUESIZE && j == all[n] % QUEUESIZE
    ensures Shuffled(s, all, n') == Swapped(Shuffled(s, all, n), i, j)
  {
  }

  lemma PlaceInPass(pass: nat, i: nat, n: nat)
    requires n == QUEUESIZE * pass + i && i < QUEUESIZE
    ensures n % QUEUESIZE == i
  {
  }

  lemma PlaceItself(j: nat)
    requires j < QUEUESIZE
    ensures j % QUEUESIZE == j
  {
  }

  /** c and target hold the same, and agree on their first i places. */
  predicate Arranged(c: seq<int>, target: seq<int>, i: nat) {
    && |c| == |target| == QUEUESIZE && i <= QUEUESIZE
    && multiset(c) == multiset(target) && c[..i] == target[..i]
  }

  lemma SplitBag(s: seq<int>, i: nat, x: int)
    requires i <= |s|
    ensures multiset(s)[x] == multiset(s[..i])[x] + multiset(s[i..])[x]
  {
    assert s == s[..i] + s[i..];
  }

  /** What belongs in place i is there or further on. */
  lemma FindPlace(c: seq<int>, target: seq<int>, i: nat) returns (j: nat)
    requires Arranged(c, target, i) && i < QUEUESIZE
    ensures i <= j < QUEUESIZE && c[j] == target[i]
  {
    var x := target[i];
    SplitBag(c, i, x);
    SplitBag(target, i, x);
    assert x in target[i..];
    assert multiset(c[i..])[x] == multiset(target[i..])[x];
    assert x in c[i..];
    var k :| 0 <= k < |c[i..]| && c[i..][k] == target[i];
    j := i + k;
  }

  lemma SwapArranges(c: seq<int>, target: seq<int>, i: nat, j: nat, i': nat)
    requires Arranged(c, target, i) && i <= j < QUEUESIZE && c[j] == target[i] && i' == i + 1
    ensures Arranged(Swapped(c, i, j), target, i')
  {
    SwapKeeps(c, i, j);
    var r := Swapped(c, i, j);
    assert r[i] == target[i];
    assert forall k :: 0 <= k < i ==> r[k] == c[..i][k] == target[..i][k];
  }

  /** One draw more: swap i of the pass exchanges place i with the drawn one. */
  lemma DrawsOne(s: seq<int>, draws: seq<nat>, all: seq<nat>, n: nat, n': nat, i: nat, j: nat, pass: nat)
    requires |s| == QUEUESIZE && |draws| == n == QUEUESIZE * pass + i && n' == n + 1
    requires i < QUEUESIZE && j < QUEUESIZE && all == draws + [j]
    ensures Shuffled(s, all, n') == Swapped(Shuffled(s, draws, n), i, j)
  {
    ShuffledPrefix(s, draws, all, n);
    PlaceInPass(pass, i, n);
    PlaceItself(j);
    SwapAt(s, all, n, n', i, j);
  }

  /** After i swaps of the pass the first i places are as wanted; all are the draws so far. */
  lemma {:induction false} Arranges(s: seq<int>, draws: seq<nat>, pass: nat, target: seq<int>, i: nat)
    returns (all: seq<nat>)
    requires |s| == |target| == QUEUESIZE && multiset(s) == multiset(target)
    requires |draws| == QUEUESIZE * pass && i <= QUEUESIZE
    ensures |all| == |draws| + i && all[..|draws|] == draws && Arranged(Shuffled(s, all, |all|), target, i)
  {
    if i == 0 {
      all := draws;
      ShuffleKeeps(s, draws, |draws|);
    } else {
      var k := i - 1;
      var before := Arranges(s, draws, pass, target, k);
      var c := Shuffled(s, before, |before|);
      var j := FindPlace(c, target, k);
      all := before + [j];
      DrawsOne(s, before, all, |before|, |all|, k, j, pass);
      SwapArranges(c, target, k, j, i);
    }
  }

  /**
   Whatever the passes before it did, a pass of the shuffle can leave the queue in any order: for every rearrangement
   of the queue there are draws of the pass that lead to it.
   */
  lemma EveryPassReachesAll(s: seq<int>, draws: seq<nat>, pass: nat, target: seq<int>) returns (more: seq<nat>)
    requires |s| == |target| == QUEUESIZE && multiset(s) == multiset(target) && |draws| == QUEUESIZE * pass
    ensures |more| == QUEUESIZE && Shuffled(s, draws + more, QUEUESIZE * (pass + 1)) == target
  {
    var all := Arranges(s, draws, pass, target, QUEUESIZE);
    more := all[|draws|..];
    assert draws + more == all;
    var c := Shuffled(s, all, |all|);
    assert c == c[..QUEUESIZE] == target[..QUEUESIZE] == target;
  }

  /** In particular the last of the ten passes can, whatever was drawn in the first nine. */
  lemma LastPassReachesAll(first: seq<nat>, target: seq<int>) returns (last: seq<nat>)
    requires |first| == 9 * QUEUESIZE && |target| == QUEUESIZE
    requires multiset(target) == multiset(KindsInOrder(QUEUESIZE))
    ensures |last| == QUEUESIZE && Kinds(first + last) == target
  {
    last := EveryPassReachesAll(KindsInOrder(QUEUESIZE), first, 9, target);
  }

  /** Each job of the simulator's queue is of its shuffled kind, and its branches go as its own draws say. */
  lemma QueuedJobsFollowTheirDraws(kinds: seq<int>, draws: seq<seq<Draws>>, h: nat, env: seq<seq<int>>, m: int, n: nat)
    requires GoodKinds(kinds) && GoodDraws(kinds, draws) && h < QUEUESIZE && Pagings(env) && n < |env|
    requires 0 <= m < MAXBRANCHES && Hit(Before(Jobs(kinds, draws)[h], env, n)) == m
    ensures var q := Jobs(kinds, draws)[h];
      var p := Programs()[kinds[h]];
      var v := Visits(q, env, m, n);
      q.program == p && Steps(q, env, n + 1).pc
      == Goes(p, m, Before(q, env, n).pc, if m < p.nbranches then Drawn(p.branches[m], draws[h][m], v) else v % 2 == 0)
  {
    BranchesFollowTheirDraws(Programs()[kinds[h]], draws[h], env, m, n);
  }
}
