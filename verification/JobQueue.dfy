/** The simulator's programs, and the shuffled queue of jobs it makes of them. */
module JobQueue {
  import opened Params
  import opened Branching
  import opened Lookup
  import opened Simulator
  import opened Invariants

  // ---- The programs ---------------------------------------------------------

  /** An entry beyond the end of a statically initialised table. */
  const ZERO := Branch(0, 0, GOTO, 0, 0)

  function Table(used: seq<Branch>): (t: seq<Branch>)
    requires |used| < MAXBRANCHES
    ensures |t| == MAXBRANCHES && t[..|used|] == used
    ensures forall i :: |used| <= i < MAXBRANCHES ==> t[i] == ZERO
  {
    used + seq(MAXBRANCHES - |used|, _ => ZERO)
  }

  function Make(size: int, used: seq<Branch>, exit: int): (p: Program)
    requires 0 <= size < MAXPC && |used| < MAXBRANCHES
    ensures GoodProgram(p)
  {
    Program(size, |used|, Table(used), 1, [exit] + seq(MAXEXITS - 1, _ => 0))
  }

  /** The five programs that the simulator runs. */
  function Programs(): (ps: seq<Program>)
    ensures |ps| == PROGRAMS && forall i :: 0 <= i < |ps| ==> GoodProgram(ps[i])
  {
    [Make(1535, [Branch(500, 1402, IF, 0, 0), Branch(1401, 1533, GOTO, 0, 0), Branch(1533, 0, FOR, 10, 30)], 1534),
     Make(1131, [Branch(1129, 0, FOR, 20, 50)], 1130),
     Make(1685, [Branch(1682, 1166, FOR, 10, 20), Branch(1683, 0, FOR, 10, 20)], 1684),
     Make(1912, [], 1911),
     Make(505, [Branch(500, 503, IF, 0, 0), Branch(501, 0, GOTO, 0, 0), Branch(502, 503, GOTO, 0, 0),
                Branch(503, 0, FOR, 10, 20)], 504)]
  }

  /** On these programs the bisections find what a scan would, except in program 3, whose table is empty, at pc 0. */
  lemma ProgramLookups(i: int, pc: int)
    requires 0 <= i < PROGRAMS
    ensures var p := Programs()[i];
      && Search(p.exits, p.nexits, pc) == Scan(p.exits, p.nexits, pc, 0)
      && (Search(Froms(p), p.nbranches, pc) == Scan(Froms(p), p.nbranches, pc, 0) <==> i != 3 || pc != 0)
  {
    var p := Programs()[i];
    assert Ascending(Froms(p), p.nbranches) by {
      assert forall k :: 0 <= k < p.nbranches ==> Froms(p)[k] == p.branches[..p.nbranches][k].wherefrom;
    }
    SearchIsScanExactly(p.exits, p.nexits, pc);
    SearchIsScanExactly(Froms(p), p.nbranches, pc);
  }

  /** What that probe does: program 3 branches from 0 to 0 once, through a context that was only cleared. */
  lemma LinearProgramRepeatsItsFirstStep(q: Process)
    requires GoodProcess(q) && q.program == Programs()[3] && q.pc == 0 && q.active && q.pages[0] == 0
    requires q.bcontexts[0] == Cleared()
    ensures var r := StepProcess(q).0;
      r.pc == 0 && StepProcess(q).1 && StepProcess(r).0.pc == 1
  {
    var p := Programs()[3];
    assert p.exits[0] == 1911 && p.nbranches == 0 && Froms(p)[0] == 0 && p.branches[0] == ZERO;
    assert Search(p.exits, p.nexits, 0) == -1;
    assert Search(Froms(p), 0, 0) == 0;
    var r := StepProcess(q).0;
    assert r == DoBranch(q.(compute := q.compute + 1), 0);
    assert r.bcontexts[0] == Decide(Cleared()).0 && r.pages == q.pages;
  }

  // ---- The shuffle ------------------------------------------------------------

  /** The kinds of the queued jobs before the shuffle. */
  function KindsInOrder(n: nat): (k: seq<int>)
    ensures |k| == n && forall i :: 0 <= i < n ==> k[i] == i % PROGRAMS
  {
    seq(n, i requires 0 <= i < n => i % PROGRAMS)
  }

  function Swapped(s: seq<int>, i: nat, j: nat): (r: seq<int>)
    requires i < |s| && j < |s|
    ensures |r| == |s|
  {
    s[i := s[j]][j := s[i]]
  }

  /** The queue after the first n of the shuffle's swaps: each pass swaps every place with a drawn one. */
  function Shuffled(s: seq<int>, draws: seq<nat>, n: nat): (r: seq<int>)
    requires |s| == QUEUESIZE && n <= |draws|
    ensures |r| == QUEUESIZE
  {
    if n == 0 then s else Swapped(Shuffled(s, draws, n - 1), (n - 1) % QUEUESIZE, draws[n - 1] % QUEUESIZE)
  }

  lemma SwapKeeps(s: seq<int>, i: nat, j: nat)
    requires i < |s| && j < |s|
    ensures multiset(Swapped(s, i, j)) == multiset(s)
  {
  }

  lemma NextSwap(s: seq<int>, draws: seq<nat>, k: nat, n: nat) returns (i: nat, j: nat)
    requires |s| == QUEUESIZE && n == k + 1 <= |draws|
    ensures i < QUEUESIZE && j < QUEUESIZE && Shuffled(s, draws, n) == Swapped(Shuffled(s, draws, k), i, j)
  {
    i, j := k % QUEUESIZE, draws[k] % QUEUESIZE;
  }

  lemma {:induction false} ShuffleKeeps(s: seq<int>, draws: seq<nat>, n: nat)
    requires |s| == QUEUESIZE && n <= |draws|
    ensures multiset(Shuffled(s, draws, n)) == multiset(s)
  {
    if n > 0 {
      var k := n - 1;
      ShuffleKeeps(s, draws, k);
      var i, j := NextSwap(s, draws, k, n);
      SwapKeeps(Shuffled(s, draws, k), i, j);
    }
  }

  lemma EveryFifth(n: nat, k: int)
    requires n > 0 && 0 <= k < PROGRAMS
    ensures (n + PROGRAMS - 1 - k) / PROGRAMS
            == (n - 1 + PROGRAMS - 1 - k) / PROGRAMS + if (n - 1) % PROGRAMS == k then 1 else 0
  {
  }

  lemma {:induction false} KindsInOrderCount(n: nat, k: int)
    requires 0 <= k < PROGRAMS
    ensures multiset(KindsInOrder(n))[k] == (n + PROGRAMS - 1 - k) / PROGRAMS
  {
    if n > 0 {
      KindsInOrderCount(n - 1, k);
      EveryFifth(n, k);
      assert KindsInOrder(n) == KindsInOrder(n - 1) + [(n - 1) % PROGRAMS];
    }
  }

  /** However the shuffle is drawn, the queue has each kind of program the same number of times. */
  lemma EachKindEightTimes(draws: seq<nat>, n: nat, k: int)
    requires n <= |draws| && 0 <= k < PROGRAMS
    ensures multiset(Shuffled(KindsInOrder(QUEUESIZE), draws, n))[k] == QUEUESIZE / PROGRAMS == 8
  {
    ShuffleKeeps(KindsInOrder(QUEUESIZE), draws, n);
    KindsInOrderCount(QUEUESIZE, k);
  }

  lemma {:induction false} ShuffledKinds(draws: seq<nat>, n: nat)
    requires n <= |draws|
    ensures forall i :: 0 <= i < QUEUESIZE ==> 0 <= Shuffled(KindsInOrder(QUEUESIZE), draws, n)[i] < PROGRAMS
  {
    if n > 0 {
      ShuffledKinds(draws, n - 1);
    }
  }

  predicate GoodKinds(kinds: seq<int>) {
    |kinds| == QUEUESIZE && forall i :: 0 <= i < |kinds| ==> 0 <= kinds[i] < PROGRAMS
  }

  /** The kinds of the queued jobs, for any draws of the shuffle's ten passes. */
  function Kinds(shuffle: seq<nat>): (kinds: seq<int>)
    requires |shuffle| == 10 * QUEUESIZE
    ensures GoodKinds(kinds)
  {
    ShuffledKinds(shuffle, 10 * QUEUESIZE);
    Shuffled(KindsInOrder(QUEUESIZE), shuffle, 10 * QUEUESIZE)
  }

  // ---- The jobs -----------------------------------------------------------------

  predicate GoodDraws(kinds: seq<int>, draws: seq<seq<Draws>>)
    requires GoodKinds(kinds)
  {
    |draws| == QUEUESIZE && forall i :: 0 <= i < |draws| ==> DrawsFor(Programs()[kinds[i]], draws[i])
  }

  /** The queue of freshly loaded jobs. */
  function Jobs(kinds: seq<int>, draws: seq<seq<Draws>>): (jobs: seq<Process>)
    requires GoodKinds(kinds) && GoodDraws(kinds, draws)
    ensures |jobs| == QUEUESIZE
    ensures forall i :: 0 <= i < |jobs| ==> jobs[i] == Load(Programs()[kinds[i]], draws[i])
  {
    seq(QUEUESIZE, i requires 0 <= i < QUEUESIZE => Load(Programs()[kinds[i]], draws[i]))
  }

  lemma LoadIsFresh(p: Program, d: seq<Draws>)
    requires GoodProgram(p) && DrawsFor(p, d)
    ensures Fresh(Load(p, d))
  {
  }

  /** Whatever is drawn, the machine starts with a fresh queue, so every theorem about runs applies to it. */
  lemma JobsAreFresh(kinds: seq<int>, draws: seq<seq<Draws>>)
    requires GoodKinds(kinds) && GoodDraws(kinds, draws)
    ensures FreshQueue(Jobs(kinds, draws))
  {
    forall i | 0 <= i < QUEUESIZE ensures Fresh(Jobs(kinds, draws)[i]) {
      LoadIsFresh(Programs()[kinds[i]], draws[i]);
    }
  }

  // ---- The whole simulation -------------------------------------------------------

  /** No step changes what program a job runs. */
  predicate SamePrograms(s: Sim, t: Sim)
    requires Shape(s) && Shape(t)
  {
    forall k :: 0 <= k < QUEUESIZE ==> t.queue[k].program == s.queue[k].program
  }

  lemma {:induction false} AllStepPrograms(s: Sim, n: nat)
    requires Shape(s) && n <= MAXPROCESSES
    ensures SamePrograms(s, AllStep(s, n))
  {
    if n > 0 {
      AllStepPrograms(s, n - 1);
      assert SamePrograms(AllStep(s, n - 1), StepSlot(AllStep(s, n - 1), n - 1));
    }
  }

  lemma {:induction false} AllAgePrograms(s: Sim, n: nat)
    requires Shape(s) && n <= MAXPROCESSES
    ensures SamePrograms(s, AllAge(s, n))
  {
    if n > 0 {
      AllAgePrograms(s, n - 1);
      assert SamePrograms(AllAge(s, n - 1), AgeSlot(AllAge(s, n - 1), n - 1));
    }
  }

  lemma {:induction false} DoAllPrograms(s: Sim, calls: seq<Call>)
    requires Shape(s)
    ensures SamePrograms(s, DoAll(s, calls))
    decreases |calls|
  {
    if calls != [] {
      assert SamePrograms(s, Do(s, calls[0]).0);
      DoAllPrograms(Do(s, calls[0]).0, calls[1..]);
    }
  }

  lemma TickPrograms(s: Sim, calls: seq<Call>)
    requires Shape(s)
    ensures SamePrograms(s, Tick(s, calls))
  {
    AllStepPrograms(s, s.procs);
    AllAgePrograms(AllStep(s, s.procs), s.procs);
    DoAllPrograms(Ticked(s), calls);
  }

  lemma {:induction false} RunPrograms(s: Sim, script: seq<seq<Call>>)
    requires Shape(s)
    ensures SamePrograms(s, Run(s, script))
    decreases |script|
  {
    if script != [] {
      var n := |script| - 1;
      RunPrograms(s, script[..n]);
      TickPrograms(Run(s, script[..n]), script[n]);
    }
  }

  /**
   From any draws and under any pager: when the simulation ends, every job has been unloaded, the five programs have
   had eight jobs each, and all memory is free.
   */
  lemma SimulationRunsEverything(procs: int, shuffle: seq<nat>, draws: seq<seq<Draws>>, script: seq<seq<Call>>)
    requires 1 <= procs <= MAXPROCESSES && |shuffle| == 10 * QUEUESIZE && GoodDraws(Kinds(shuffle), draws)
    ensures var s := Run(Boot(procs, Jobs(Kinds(shuffle), draws)), script);
      AllDone(s) ==>
        && s.avail == PHYSICALPAGES && |s.loads| == QUEUESIZE
        && (forall k :: 0 <= k < QUEUESIZE ==>
              !s.queue[k].active && s.queue[k].program == Programs()[Kinds(shuffle)[k]])
        && forall p :: 0 <= p < PROGRAMS ==> multiset(Kinds(shuffle))[p] == 8
  {
    var jobs := Jobs(Kinds(shuffle), draws);
    JobsAreFresh(Kinds(shuffle), draws);
    EndOfRun(procs, jobs, script);
    RunPrograms(Boot(procs, jobs), script);
    forall p | 0 <= p < PROGRAMS ensures multiset(Kinds(shuffle))[p] == 8 {
      EachKindEightTimes(shuffle, 10 * QUEUESIZE, p);
    }
  }
}
