/** What every step of the machine keeps, whatever the pager does: frames, cells and jobs. */
module Invariants {
  import opened Params
  import opened Sums
  import opened Simulator

  predicate AllOut(q: Process) {
    forall j :: 0 <= j < |q.pages| ==> q.pages[j] == -PAGEWAIT - 1
  }

  predicate ProcOk(q: Process) {
    && GoodProcess(q)
    && (forall j :: 0 <= j < |q.pages| ==> -PAGEWAIT - 1 <= q.pages[j] <= PAGEWAIT)
    && (!q.active ==> AllOut(q))
  }

  /** A job that no processor has touched. */
  predicate Fresh(q: Process) {
    ProcOk(q) && q.active && AllOut(q) && q.pc == 0 && q.compute == 0 && q.block == 0
  }

  /** The job queue before anything runs. */
  predicate FreshQueue(queue: seq<Process>)
    ensures FreshQueue(queue) ==> |queue| == QUEUESIZE && forall k :: 0 <= k < |queue| ==> GoodProcess(queue[k])
  {
    |queue| == QUEUESIZE && forall k :: 0 <= k < |queue| ==> Fresh(queue[k])
  }

  /** Free frames and held frames, over queued, running and finished jobs, make up the memory. */
  predicate FramesOk(s: Sim) {
    0 <= s.avail && s.avail + Sum(Held, s.queue) == PHYSICALPAGES
  }

  predicate SlotOk(s: Sim, i: int)
    requires Shape(s) && 0 <= i < MAXPROCESSES
  {
    && s.slots[i] < s.queueend
    && (s.slots[i] >= 0 ==> s.queue[s.slots[i]].active && i < s.procs)
    && (i < s.procs && s.queueend < QUEUESIZE ==> s.slots[i] >= 0)
  }

  /** Processors run distinct jobs, in queue order; what is not running is finished or untouched. */
  predicate JobsOk(s: Sim)
    requires Shape(s)
  {
    && (forall i :: 0 <= i < MAXPROCESSES ==> SlotOk(s, i))
    && (forall i, j :: 0 <= i < j < MAXPROCESSES && s.slots[i] >= 0 ==> s.slots[i] != s.slots[j])
    && (forall k :: 0 <= k < s.queueend && s.queue[k].active ==> k in s.slots)
    && (forall k :: s.queueend <= k < QUEUESIZE ==> Fresh(s.queue[k]))
    && s.loads == seq(s.queueend, i => i)
  }

  predicate Inv(s: Sim) {
    && Shape(s)
    && (forall k :: 0 <= k < |s.queue| ==> ProcOk(s.queue[k]))
    && FramesOk(s)
    && JobsOk(s)
  }

  // ---- Counting frames --------------------------------------------------

  lemma HeldBounds(q: Process)
    requires GoodProcess(q)
    ensures 0 <= Held(q) <= MAXPROCPAGES
  {
    SumBounds(HeldCell, q.pages, 0, 1);
  }

  /** Inv bounds the free frames from above too. */
  lemma AvailBounds(s: Sim)
    requires Shape(s) && FramesOk(s)
    ensures 0 <= s.avail <= PHYSICALPAGES
  {
    forall k | 0 <= k < |s.queue| ensures 0 <= Held(s.queue[k]) {
      HeldBounds(s.queue[k]);
    }
    SumNonNegative(Held, s.queue);
  }

  lemma {:induction false} NoneHeld(pages: seq<int>)
    requires forall j :: 0 <= j < |pages| ==> pages[j] < -PAGEWAIT
    ensures Sum(HeldCell, pages) == 0
  {
    if pages != [] {
      NoneHeld(pages[1..]);
    }
  }

  lemma {:induction false} AgeConserves(pages: seq<int>)
    ensures Sum(HeldCell, Aged(pages)) + Sum(FreedCell, pages) == Sum(HeldCell, pages)
  {
    if pages != [] {
      assert Aged(pages)[1..] == Aged(pages[1..]);
      AgeConserves(pages[1..]);
    }
  }

  // ---- One step at a time -----------------------------------------------

  /** Changing one handed-out job keeps the invariant when it pays for the frames it takes. */
  lemma UpdateInv(s: Sim, k: int, q: Process, avail: int)
    requires Inv(s) && 0 <= k < s.queueend
    requires ProcOk(q) && q.active == s.queue[k].active
    requires 0 <= avail && avail + Held(q) == s.avail + Held(s.queue[k])
    ensures Inv(s.(queue := s.queue[k := q], avail := avail))
  {
    SumUpdate(Held, s.queue, k, q);
    var r := s.(queue := s.queue[k := q], avail := avail);
    forall j | 0 <= j < MAXPROCESSES ensures SlotOk(r, j) {
      assert SlotOk(s, j);
    }
    assert r.slots == s.slots;
  }

  lemma StepProcessOk(q: Process)
    requires ProcOk(q)
    ensures ProcOk(StepProcess(q).0)
    ensures StepProcess(q).0.active == q.active && StepProcess(q).0.pages == q.pages
  {
  }

  lemma UnloadFrames(s: Sim, k: int)
    requires Inv(s) && 0 <= k < QUEUESIZE
    ensures var u := Unload(s, k);
      FramesOk(u) && forall h :: 0 <= h < QUEUESIZE ==> ProcOk(u.queue[h])
  {
    var q := Unload(s, k).queue[k];
    NoneHeld(q.pages);
    SumUpdate(Held, s.queue, k, q);
    HeldBounds(s.queue[k]);
  }

  /** Unloading a finished job and handing out the next one keeps the invariant. */
  lemma RetireInv(s: Sim, i: int)
    requires Inv(s) && 0 <= i < s.procs && s.slots[i] >= 0
    ensures Inv(Refill(Unload(s, s.slots[i]), i))
  {
    var k := s.slots[i];
    var u := Unload(s, k);
    UnloadFrames(s, k);
    var r := Refill(u, i);
    RetireJobs(s, i);
    assert r.queue == u.queue && r.avail == u.avail;
  }

  lemma RetireJobs(s: Sim, i: int)
    requires Inv(s) && 0 <= i < s.procs && s.slots[i] >= 0
    ensures JobsOk(Refill(Unload(s, s.slots[i]), i))
  {
    var k := s.slots[i];
    var r := Refill(Unload(s, k), i);
    assert SlotOk(s, i);
    assert forall h :: 0 <= h < QUEUESIZE && h != k ==> r.queue[h] == s.queue[h];
    RetireSlots(s, i);
    RetireKeepsHandles(s, r, i);
  }

  lemma RetireSlots(s: Sim, i: int)
    requires Inv(s) && 0 <= i < s.procs && s.slots[i] >= 0
    ensures var r := Refill(Unload(s, s.slots[i]), i);
      && (forall j :: 0 <= j < MAXPROCESSES ==> SlotOk(r, j))
      && (forall j, h :: 0 <= j < h < MAXPROCESSES && r.slots[j] >= 0 ==> r.slots[j] != r.slots[h])
  {
    var r := Refill(Unload(s, s.slots[i]), i);
    forall j | 0 <= j < MAXPROCESSES ensures SlotOk(r, j) && (j != i && r.slots[j] >= 0 ==> r.slots[j] != r.slots[i]) {
      assert SlotOk(s, j);
    }
  }

  lemma RetireKeepsHandles(s: Sim, r: Sim, i: int)
    requires Inv(s) && Shape(r) && 0 <= i < s.procs && s.slots[i] >= 0
    requires r.slots == s.slots[i := r.slots[i]] && !r.queue[s.slots[i]].active
    requires forall h :: 0 <= h < QUEUESIZE && h != s.slots[i] ==> r.queue[h] == s.queue[h]
    requires r.queueend == s.queueend || (r.queueend == s.queueend + 1 && r.slots[i] == s.queueend)
    ensures forall h :: 0 <= h < r.queueend && r.queue[h].active ==> h in r.slots
  {
    forall h | 0 <= h < r.queueend && r.queue[h].active ensures h in r.slots {
      if h < s.queueend {
        var j :| 0 <= j < |s.slots| && s.slots[j] == h;
        assert r.slots[j] == h;
      } else {
        assert r.slots[i] == h;
      }
    }
  }

  lemma StepSlotInv(s: Sim, i: int)
    requires Inv(s) && 0 <= i < s.procs
    ensures Inv(StepSlot(s, i))
  {
    assert SlotOk(s, i);
    var k := s.slots[i];
    if k < 0 {
      assert s.slots[i := -1] == s.slots;
    } else {
      StepProcessOk(s.queue[k]);
      var (q, more) := StepProcess(s.queue[k]);
      UpdateInv(s, k, q, s.avail);
      if !more {
        RetireInv(s.(queue := s.queue[k := q]), i);
      }
    }
  }

  lemma AgedOk(q: Process)
    requires ProcOk(q)
    ensures var freed := Sum(FreedCell, q.pages);
      && ProcOk(q.(pages := Aged(q.pages))) && 0 <= freed
      && Held(q.(pages := Aged(q.pages))) + freed == Held(q)
  {
    AgeConserves(q.pages);
    SumNonNegative(FreedCell, q.pages);
  }

  lemma AgeSlotInv(s: Sim, i: int)
    requires Inv(s) && 0 <= i < s.procs
    ensures Inv(AgeSlot(s, i))
  {
    if Running(s, i) {
      assert SlotOk(s, i);
      var k := s.slots[i];
      var q := s.queue[k];
      AgedOk(q);
      UpdateInv(s, k, q.(pages := Aged(q.pages)), s.avail + Sum(FreedCell, q.pages));
    }
  }

  lemma SetCellInv(s: Sim, i: int, j: int, c: int, avail: int)
    requires Inv(s) && Callable(s, i, j) && -PAGEWAIT - 1 <= c <= PAGEWAIT
    requires 0 <= avail && avail + HeldCell(c) == s.avail + HeldCell(Cell(s, i, j))
    ensures Inv(SetCell(s, i, j, c).(avail := avail))
  {
    assert SlotOk(s, i);
    var k := s.slots[i];
    var q := s.queue[k];
    SumUpdate(HeldCell, q.pages, j, c);
    UpdateInv(s, k, q.(pages := q.pages[j := c]), avail);
  }

  lemma DoInv(s: Sim, c: Call)
    requires Inv(s)
    ensures Inv(Do(s, c).0)
  {
    match c
    case In(i, j) =>
      if Callable(s, i, j) && Cell(s, i, j) < -PAGEWAIT && s.avail != 0 {
        SetCellInv(s, i, j, PAGEWAIT, s.avail - 1);
      }
    case Out(i, j) =>
      if Callable(s, i, j) && Cell(s, i, j) == 0 {
        SetCellInv(s, i, j, -1, s.avail);
      }
  }

  // ---- Whole ticks and whole runs ---------------------------------------

  lemma {:induction false} AllStepInv(s: Sim, n: nat)
    requires Inv(s) && n <= s.procs
    ensures Inv(AllStep(s, n))
  {
    if n > 0 {
      AllStepInv(s, n - 1);
      StepSlotInv(AllStep(s, n - 1), n - 1);
    }
  }

  lemma {:induction false} AllAgeInv(s: Sim, n: nat)
    requires Inv(s) && n <= s.procs
    ensures Inv(AllAge(s, n))
  {
    if n > 0 {
      AllAgeInv(s, n - 1);
      AgeSlotInv(AllAge(s, n - 1), n - 1);
    }
  }

  lemma {:induction false} DoAllInv(s: Sim, calls: seq<Call>)
    requires Inv(s)
    ensures Inv(DoAll(s, calls))
    decreases |calls|
  {
    if calls != [] {
      DoInv(s, calls[0]);
      DoAllInv(Do(s, calls[0]).0, calls[1..]);
    }
  }

  lemma TickedInv(s: Sim)
    requires Inv(s)
    ensures Inv(Ticked(s))
  {
    AllStepInv(s, s.procs);
    AllAgeInv(AllStep(s, s.procs), s.procs);
  }

  lemma {:induction false} RunInv(s: Sim, script: seq<seq<Call>>)
    requires Inv(s)
    ensures Inv(Run(s, script))
    decreases |script|
  {
    if script != [] {
      var n := |script| - 1;
      RunInv(s, script[..n]);
      TickedInv(Run(s, script[..n]));
      DoAllInv(Ticked(Run(s, script[..n])), script[n]);
    }
  }

  lemma {:induction false} AllFreshHoldNothing(queue: seq<Process>)
    requires forall k :: 0 <= k < |queue| ==> Fresh(queue[k])
    ensures Sum(Held, queue) == 0
  {
    if queue != [] {
      NoneHeld(queue[0].pages);
      AllFreshHoldNothing(queue[1..]);
    }
  }

  lemma BootInv(procs: int, queue: seq<Process>)
    requires 1 <= procs <= MAXPROCESSES && FreshQueue(queue)
    ensures Inv(Boot(procs, queue))
  {
    AllFreshHoldNothing(queue);
    var s := Boot(procs, queue);
    forall k | 0 <= k < s.queueend ensures k in s.slots {
      assert s.slots[k] == k;
    }
  }

  // ---- The theorems -------------------------------------------------------

  /**
   Frame conservation against any pager: on every run the free frames and the frames held by all jobs
   make up the physical memory, and every page counter stays within its range.
   */
  lemma FramesConserved(procs: int, queue: seq<Process>, script: seq<seq<Call>>)
    requires 1 <= procs <= MAXPROCESSES && FreshQueue(queue)
    ensures var s := Run(Boot(procs, queue), script);
      && 0 <= s.avail <= PHYSICALPAGES
      && s.avail + Sum(Held, s.queue) == PHYSICALPAGES
      && forall k, j :: 0 <= k < QUEUESIZE && 0 <= j < MAXPROCPAGES ==>
           -PAGEWAIT - 1 <= s.queue[k].pages[j] <= PAGEWAIT
  {
    BootInv(procs, queue);
    RunInv(Boot(procs, queue), script);
    AvailBounds(Run(Boot(procs, queue), script));
  }

  /** Jobs are handed out once each, in queue order, and never to two processors at a time. */
  lemma JobsLoadedOnceInOrder(procs: int, queue: seq<Process>, script: seq<seq<Call>>)
    requires 1 <= procs <= MAXPROCESSES && FreshQueue(queue)
    ensures var s := Run(Boot(procs, queue), script);
      && |s.loads| <= QUEUESIZE && (forall i :: 0 <= i < |s.loads| ==> s.loads[i] == i)
      && (forall i :: 0 <= i < MAXPROCESSES && s.slots[i] >= 0 ==> s.slots[i] in s.loads)
      && (forall i, j :: 0 <= i < j < MAXPROCESSES && s.slots[i] >= 0 ==> s.slots[i] != s.slots[j])
  {
    BootInv(procs, queue);
    RunInv(Boot(procs, queue), script);
    var s := Run(Boot(procs, queue), script);
    forall i | 0 <= i < MAXPROCESSES && s.slots[i] >= 0 ensures s.slots[i] in s.loads {
      assert SlotOk(s, i);
      assert s.loads[s.slots[i]] == s.slots[i];
    }
  }

  /** When the main loop ends every job has been loaded and unloaded and all memory is free. */
  lemma EndOfRun(procs: int, queue: seq<Process>, script: seq<seq<Call>>)
    requires 1 <= procs <= MAXPROCESSES && FreshQueue(queue)
    ensures var s := Run(Boot(procs, queue), script);
      AllDone(s) <==> |s.loads| == QUEUESIZE && s.avail == PHYSICALPAGES
                      && forall k :: 0 <= k < QUEUESIZE ==> !s.queue[k].active
  {
    BootInv(procs, queue);
    RunInv(Boot(procs, queue), script);
    var s := Run(Boot(procs, queue), script);
    if AllDone(s) {
      DoneMeansDone(s);
    }
  }

  lemma DoneMeansDone(s: Sim)
    requires Inv(s) && AllDone(s)
    ensures |s.loads| == QUEUESIZE && s.avail == PHYSICALPAGES
    ensures forall k :: 0 <= k < QUEUESIZE ==> !s.queue[k].active
  {
    assert SlotOk(s, 0) && !Running(s, 0);
    forall k | 0 <= k < QUEUESIZE ensures !s.queue[k].active {
      if s.queue[k].active {
        var i :| 0 <= i < |s.slots| && s.slots[i] == k;
        assert SlotOk(s, i) && Running(s, i);
      }
    }
    IdleHoldNothing(s.queue);
  }

  lemma {:induction false} IdleHoldNothing(queue: seq<Process>)
    requires forall k :: 0 <= k < |queue| ==> ProcOk(queue[k]) && !queue[k].active
    ensures Sum(Held, queue) == 0
  {
    if queue != [] {
      NoneHeld(queue[0].pages);
      IdleHoldNothing(queue[1..]);
    }
  }
}
