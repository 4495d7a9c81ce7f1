/** How long a page fault and a page-out take, under any pager. */
module Latency {
  import opened Params
  import opened Simulator
  import opened Invariants
  import opened Locality

  /** The counter of the page that the program counter needs. */
  function Needed(q: Process): int
    requires GoodProcess(q)
  {
    q.pages[PcPage(q)]
  }

  /** Ticks until a page with this counter can be in, at most. */
  function Rank(c: int): int {
    if c >= 0 then c else if c < -PAGEWAIT then PAGEWAIT + 1 else 2 * PAGEWAIT + 2 + c
  }

  lemma AgedCell(q: Process)
    requires GoodProcess(q) && q.active && Needed(q) != 0
    ensures StepProcess(q) == (q.(block := q.block + 1), true)
    ensures PcPage(TickedProcess(q)) == PcPage(q) && Needed(TickedProcess(q)) == AgeCell(Needed(q))
  {
  }

  /** Processor i runs job k, whose state is that of q after n more blocked ticks, apart from its pages. */
  predicate Waited(s: Sim, i: int, k: int, q: Process, n: nat)
    requires Shape(s) && 0 <= i < MAXPROCESSES
  {
    && s.slots[i] == k && k >= 0 && s.queue[k].active
    && s.queue[k] == q.(pages := s.queue[k].pages, block := q.block + n)
  }

  lemma WaitTick(s: Sim, calls: seq<Call>, i: int)
    requires Inv(s) && 0 <= i < s.procs && Running(s, i)
    requires var q := s.queue[s.slots[i]]; q.pages[PcPage(q)] > 0
    ensures var k := s.slots[i];
      var q := s.queue[k];
      var t := Tick(s, calls);
      var p := PcPage(q);
      && Inv(t) && Waited(t, i, k, q, 1)
      && (q.pages[p] > 1 || Out(i, p) !in calls ==> t.queue[k].pages[p] == q.pages[p] - 1)
  {
    var k := s.slots[i];
    var q := s.queue[k];
    var p := PcPage(q);
    var u := Ticked(s);
    TickedAt(s, i);
    TickedInv(s);
    DoAllInv(u, calls);
    assert u.queue[k] == q.(block := q.block + 1, pages := Aged(q.pages));
    DoAllKeeps(u, calls, i, p);
  }

  /** ... and its needed page has come n ticks closer. */
  predicate Closer(t: Sim, i: int, k: int, q: Process, n: nat)
    requires GoodProcess(q) && 0 <= i < MAXPROCESSES
  {
    Inv(t) && i < t.procs && Waited(t, i, k, q, n) && t.queue[k].pages[PcPage(q)] == q.pages[PcPage(q)] - n
  }

  lemma CloserTick(t: Sim, calls: seq<Call>, i: int, k: int, q: Process, n: nat)
    requires GoodProcess(q) && 0 <= i < MAXPROCESSES && Closer(t, i, k, q, n) && n < q.pages[PcPage(q)]
    ensures Inv(Tick(t, calls)) && Waited(Tick(t, calls), i, k, q, n + 1)
    ensures n + 1 < q.pages[PcPage(q)] || Out(i, PcPage(q)) !in calls ==> Closer(Tick(t, calls), i, k, q, n + 1)
  {
    WaitTick(t, calls, i);
  }

  /**
   A page-in that has c > 0 ticks to go for the page the program counter needs blocks the process for exactly
   those c ticks, whatever the pager does, with its program counter and branch contexts unchanged. Unless the
   pager's last calls page that page straight out again, the step after that computes.
   */
  lemma {:induction false} FaultBlocks(s: Sim, script: seq<seq<Call>>, i: int)
    requires Inv(s) && 0 <= i < s.procs && Running(s, i)
    requires var q := s.queue[s.slots[i]]; |script| <= q.pages[PcPage(q)]
    ensures var k := s.slots[i];
      var q := s.queue[k];
      var t := Run(s, script);
      && Inv(t) && Waited(t, i, k, q, |script|)
      && (|script| < q.pages[PcPage(q)] || (|script| > 0 && Out(i, PcPage(q)) !in script[|script| - 1]) ==>
            Closer(t, i, k, q, |script|))
    decreases |script|
  {
    var k := s.slots[i];
    var q := s.queue[k];
    if script == [] {
      assert q == q.(pages := q.pages, block := q.block + 0);
    } else {
      var n := |script| - 1;
      FaultBlocks(s, script[..n], i);
      CloserTick(Run(s, script[..n]), script[n], i, k, q, n);
    }
  }

  /** When one tick is left, the page is in by the time the pager is called. */
  lemma LastWait(s: Sim, i: int)
    requires Inv(s) && 0 <= i < s.procs && Running(s, i)
    requires var q := s.queue[s.slots[i]]; q.pages[PcPage(q)] == 1
    ensures var k := s.slots[i];
      var u := Ticked(s);
      && u.slots[i] == k && u.queue[k].active && PcPage(u.queue[k]) == PcPage(s.queue[k])
      && u.queue[k].pages[PcPage(s.queue[k])] == 0
  {
    TickedAt(s, i);
  }

  /** After those ticks the page is in if and only if the pager's last calls do not page it straight out. */
  lemma FaultEnds(s: Sim, script: seq<seq<Call>>, i: int)
    requires Inv(s) && 0 <= i < s.procs && Running(s, i) && script != []
    requires var q := s.queue[s.slots[i]]; |script| == q.pages[PcPage(q)]
    ensures var k := s.slots[i];
      var p := PcPage(s.queue[k]);
      && Waited(Run(s, script), i, k, s.queue[k], |script|)
      && (Run(s, script).queue[k].pages[p] == 0 <==> Out(i, p) !in script[|script| - 1])
  {
    var n := |script| - 1;
    var t := Run(s, script[..n]);
    FaultBlocks(s, script, i);
    FaultBlocks(s, script[..n], i);
    LastWait(t, i);
    TickedInv(t);
    DoAllResident(Ticked(t), script[n], i, PcPage(s.queue[s.slots[i]]));
  }

  /**
   A fault just started costs exactly PAGEWAIT blocked steps. Then the process computes if and only if the pager's
   last calls do not page that page straight out; otherwise it blocks again.
   */
  lemma FaultLatency(s: Sim, script: seq<seq<Call>>, i: int)
    requires Inv(s) && 0 <= i < s.procs && Running(s, i) && |script| == PAGEWAIT
    requires var q := s.queue[s.slots[i]]; q.pages[PcPage(q)] == PAGEWAIT
    ensures var k := s.slots[i];
      var q := s.queue[k];
      var r := StepProcess(Run(s, script).queue[k]).0;
      && (forall n :: 0 <= n <= PAGEWAIT ==> Waited(Run(s, script[..n]), i, k, q, n))
      && (if Out(i, PcPage(q)) !in script[PAGEWAIT - 1]
          then r.compute == q.compute + 1 && r.block == q.block + PAGEWAIT
          else r.compute == q.compute && r.block == q.block + PAGEWAIT + 1)
  {
    var k := s.slots[i];
    var q := s.queue[k];
    forall n | 0 <= n <= PAGEWAIT ensures Waited(Run(s, script[..n]), i, k, q, n) {
      FaultBlocks(s, script[..n], i);
    }
    FaultEnds(s, script, i);
    StepCounts(Run(s, script).queue[k]);
  }

  /** A step of an active process counts as computing or blocked, as its needed page is in or not. */
  lemma StepCounts(q: Process)
    requires GoodProcess(q) && q.active
    ensures var r := StepProcess(q).0;
      if q.pages[PcPage(q)] == 0
      then r.compute == q.compute + 1 && r.block == q.block
      else r.compute == q.compute && r.block == q.block + 1
  {
  }

  /** Processor i keeps job k throughout a run. */
  predicate KeepsJob(s: Sim, script: seq<seq<Call>>, i: int, k: int)
    requires Shape(s) && 0 <= i < MAXPROCESSES
  {
    forall n :: 0 <= n <= |script| ==> Run(s, script[..n]).slots[i] == k
  }

  lemma KeepsJobPrefix(s: Sim, script: seq<seq<Call>>, i: int, n: nat)
    requires Shape(s) && 0 <= i < MAXPROCESSES && n < |script| && KeepsJob(s, script, i, s.slots[i])
    ensures KeepsJob(s, script[..n], i, s.slots[i])
    ensures Run(s, script[..n + 1]).slots[i] == Run(s, script[..n]).slots[i] == s.slots[i]
  {
    assert forall m :: 0 <= m <= n ==> script[..n][..m] == script[..m];
  }

  lemma GoingTick(s: Sim, i: int, p: int)
    requires Inv(s) && 0 <= i < s.procs && Running(s, i) && 0 <= p < MAXPROCPAGES
    requires -PAGEWAIT <= Cell(s, i, p) < 0
    requires Ticked(s).slots[i] == s.slots[i]
    ensures Cell(Ticked(s), i, p) == Cell(s, i, p) - 1
  {
    TickedAt(s, i);
    if !StepProcess(s.queue[s.slots[i]]).1 {
      FreshIsAnother(s, i);
    }
  }

  /** A processor that loses its job does not get it back. */
  lemma FreshIsAnother(s: Sim, i: int)
    requires Inv(s) && 0 <= i < s.procs && Running(s, i) && !StepProcess(s.queue[s.slots[i]]).1
    ensures Ticked(s).slots[i] != s.slots[i]
  {
    AllStepLoses(s, s.procs, i);
    AllStepInv(s, s.procs);
    AllAgeAt(AllStep(s, s.procs), s.procs, i);
  }

  lemma StepLoses(t: Sim, i: int)
    requires Inv(t) && 0 <= i < t.procs && Running(t, i) && !StepProcess(t.queue[t.slots[i]]).1
    ensures StepSlot(t, i).slots[i] != t.slots[i]
  {
    assert SlotOk(t, i);
  }

  lemma {:induction false} AllStepLoses(s: Sim, n: nat, i: int)
    requires Inv(s) && n <= s.procs && 0 <= i < s.procs
    requires Running(s, i) && !StepProcess(s.queue[s.slots[i]]).1
    ensures n > i ==> AllStep(s, n).slots[i] != s.slots[i]
  {
    if n > i {
      var m := n - 1;
      AllStepInv(s, m);
      AllStepAt(s, m, i);
      var t := AllStep(s, m);
      if m == i {
        StepLoses(t, i);
      } else {
        AllStepLoses(s, m, i);
        StepElsewhere(t, m, i);
      }
    }
  }

  lemma GoingWholeTick(s: Sim, calls: seq<Call>, i: int, p: int)
    requires Inv(s) && 0 <= i < s.procs && Running(s, i) && 0 <= p < MAXPROCPAGES
    requires -PAGEWAIT < Cell(s, i, p) < 0
    requires Tick(s, calls).slots[i] == s.slots[i]
    ensures var t := Tick(s, calls);
      Inv(t) && Running(t, i) && Cell(t, i, p) == Cell(s, i, p) - 1
  {
    GoingTick(s, i, p);
    TickedInv(s);
    DoAllInv(Ticked(s), calls);
    DoAllKeeps(Ticked(s), calls, i, p);
    assert SlotOk(Tick(s, calls), i);
  }

  /**
   A page-out just started takes exactly PAGEWAIT agings under any pager, unless its process unloads first:
   before that the frame is still held, and at that tick it is free.
   */
  lemma {:induction false} PageOutLatency(s: Sim, script: seq<seq<Call>>, i: int, p: int)
    requires Inv(s) && 0 <= i < s.procs && Running(s, i) && 0 <= p < MAXPROCPAGES && Cell(s, i, p) == -1
    requires |script| < PAGEWAIT && KeepsJob(s, script, i, s.slots[i])
    ensures var t := Run(s, script);
      && Inv(t) && Running(t, i) && Cell(t, i, p) == -1 - |script|
      && (Ticked(t).slots[i] == s.slots[i] ==>
            (Cell(Ticked(t), i, p) < -PAGEWAIT <==> |script| == PAGEWAIT - 1))
    decreases |script|
  {
    var t := Run(s, script);
    if script != [] {
      var n := |script| - 1;
      assert script[..n + 1] == script;
      KeepsJobPrefix(s, script, i, n);
      PageOutLatency(s, script[..n], i, p);
      GoingWholeTick(Run(s, script[..n]), script[n], i, p);
    }
    if Ticked(t).slots[i] == s.slots[i] {
      GoingTick(t, i, p);
    }
  }
}
