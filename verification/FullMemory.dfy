/** A draw of the simulator's own queue under which LRU fills the memory and then runs out of pages to name. */
module FullMemory {
  import opened Params
  import opened Branching
  import opened Simulator
  import opened Invariants
  import opened Lru
  import opened JobQueue
  import opened Walking
  import opened Marching
  import opened Famine

  // ---- The shuffle ------------------------------------------------------------

  /** Jobs of programs 3 and 4 among the first twenty change places with jobs of programs 0 and 1. */
  function Partner(i: nat): nat {
    if i < MAXPROCESSES && i % PROGRAMS >= 3 then i + 17 else i
  }

  /** In the first pass of the shuffle they do, and every other swap is of a place with itself. */
  function Draw(n: nat): nat {
    if n < MAXPROCESSES then Partner(n) else n % QUEUESIZE
  }

  function OneShuffle(): (draws: seq<nat>)
    ensures |draws| == 10 * QUEUESIZE && forall n :: 0 <= n < |draws| ==> draws[n] == Draw(n)
  {
    seq(10 * QUEUESIZE, n requires 0 <= n < 10 * QUEUESIZE => Draw(n))
  }

  /** After n swaps the first n places are as wanted, and the next ones and their partners still as they were. */
  predicate Sorted(s: seq<int>, n: nat) {
    && |s| == QUEUESIZE && s[0] == 0
    && (forall x :: 0 <= x < n && x < MAXPROCESSES ==> 0 <= s[x] < 3)
    && (forall x :: n <= x < MAXPROCESSES ==> s[x] == x % PROGRAMS)
    && (forall y :: n + 17 <= y < MAXPROCESSES + 17 ==> y < MAXPROCESSES || s[y] == y % PROGRAMS)
  }

  lemma PartnerKind(x: nat)
    requires x < MAXPROCESSES
    ensures if x % PROGRAMS >= 3 then 0 <= (x + 17) % PROGRAMS < 3 else Partner(x) == x
  {
  }

  lemma SwapSorts(s: seq<int>, n: nat, n': nat)
    requires n' == n + 1 <= MAXPROCESSES && Sorted(s, n)
    ensures Sorted(Swapped(s, n, Partner(n)), n')
  {
    PartnerKind(n);
  }

  lemma OneSwap(n: nat)
    requires n < 10 * QUEUESIZE
    ensures OneShuffle()[n] % QUEUESIZE == if n < MAXPROCESSES then Partner(n) else n % QUEUESIZE
    ensures n < MAXPROCESSES ==> n % QUEUESIZE == n
  {
  }

  lemma SwapSame(s: seq<int>, i: nat)
    requires i < |s|
    ensures Swapped(s, i, i) == s
  {
  }

  lemma {:induction false} ShuffleSorts(n: nat)
    requires n <= 10 * QUEUESIZE
    ensures Sorted(Shuffled(KindsInOrder(QUEUESIZE), OneShuffle(), n), n)
  {
    if n > 0 {
      var k := n - 1;
      ShuffleSorts(k);
      OneSwap(k);
      var s := Shuffled(KindsInOrder(QUEUESIZE), OneShuffle(), k);
      if k < MAXPROCESSES {
        SwapSorts(s, k, n);
      } else {
        SwapSame(s, k % QUEUESIZE);
      }
    }
  }

  // ---- The branches --------------------------------------------------------------

  /** Every IF is drawn to go its two ways in turn, beginning with straight on. */
  function SomeDraws(): (d: Draws)
    ensures |d.flips| == MAXBRINGS + 1 && |d.ints| == MAXBRINGS / 2
    ensures forall i :: 0 <= i < |d.flips| ==> d.flips[i] == (i % 2 == 1)
  {
    Draws(seq(MAXBRINGS + 1, i => i % 2 == 1), seq(MAXBRINGS / 2, _ => 19))
  }

  lemma {:induction false} AlternatingRuns(d: seq<bool>, n: nat)
    requires 1 <= n <= |d| && forall i :: 0 <= i < |d| ==> d[i] == (i % 2 == 1)
    ensures |Rle(d, n)| == n
  {
    if n > 1 {
      AlternatingRuns(d, n - 1);
    }
  }

  lemma SomeDrawsReady(b: Branch)
    ensures Ready(b, SomeDraws())
  {
    AlternatingRuns(SomeDraws().flips, MAXBRINGS + 1);
  }

  function SameDraws(): (draws: seq<seq<Draws>>)
    ensures |draws| == QUEUESIZE
    ensures forall i :: 0 <= i < |draws| ==> draws[i] == seq(MAXBRANCHES, _ => SomeDraws())
  {
    seq(QUEUESIZE, _ => seq(MAXBRANCHES, _ => SomeDraws()))
  }

  lemma SameDrawsGood(kinds: seq<int>)
    requires GoodKinds(kinds)
    ensures GoodDraws(kinds, SameDraws())
  {
    forall i | 0 <= i < QUEUESIZE ensures DrawsFor(Programs()[kinds[i]], SameDraws()[i]) {
      var p := Programs()[kinds[i]];
      forall b | 0 <= b < p.nbranches ensures Ready(p.branches[b], SameDraws()[i][b]) {
        SomeDrawsReady(p.branches[b]);
      }
    }
  }

  lemma LoadedIsStraight(k: int, d: seq<Draws>)
    requires 0 <= k < 3 && DrawsFor(Programs()[k], d) && d[0] == SomeDraws()
    ensures Straight(Load(Programs()[k], d))
  {
    var q := Load(Programs()[k], d);
    assert k == 0 ==> q.bcontexts[0] == Initialised(Cleared(), Programs()[0].branches[0], d[0]);
  }

  // ---- The run ----------------------------------------------------------------------

  function OneQueue(): (queue: seq<Process>)
  {
    SameDrawsGood(Kinds(OneShuffle()));
    Jobs(Kinds(OneShuffle()), SameDraws())
  }

  lemma QueueWalks()
    ensures Walkers(OneQueue())
  {
    var kinds := Kinds(OneShuffle());
    SameDrawsGood(kinds);
    JobsAreFresh(kinds, SameDraws());
    ShuffleSorts(10 * QUEUESIZE);
    forall i | 0 <= i < MAXPROCESSES ensures Straight(OneQueue()[i]) {
      LoadedIsStraight(kinds[i], SameDraws()[i]);
    }
  }

  lemma BootIsDrawnUp(queue: seq<Process>)
    requires Walkers(queue)
    ensures DrawnUp(Start(Boot(MAXPROCESSES, queue))) && LruInv(Start(Boot(MAXPROCESSES, queue)))
  {
    BootInv(MAXPROCESSES, queue);
    StartInv(Boot(MAXPROCESSES, queue));
  }

  /**
   The simulator itself can get there: with its own programs, one draw of its queue and all twenty processors, after
   1145 ticks LRU is refused a frame for processor 0, whose job has no page in, and pages out whatever page its
   uninitialised variable names.
   */
  lemma JunkOnARun(junks: seq<seq<int>>, junk: seq<int>)
    requires |junks| == STOP + REACH && (forall j :: j in junks ==> GoodJunk(j)) && GoodJunk(junk)
    ensures GoodDraws(Kinds(OneShuffle()), SameDraws())
    ensures var queue := Jobs(Kinds(OneShuffle()), SameDraws());
      var x := LruRun(Boot(MAXPROCESSES, queue), junks);
      var t := Ticked(x.sim);
      && FreshQueue(queue)
      && Running(t, 0) && !HasResident(t.queue[t.slots[0]])
      && Out(0, junk[0]) in NextCalls(x, junk)
  {
    QueueWalks();
    SameDrawsGood(Kinds(OneShuffle()));
    BootIsDrawnUp(OneQueue());
    WalkersStarve(Start(Boot(MAXPROCESSES, OneQueue())), junks, junk);
  }
}
