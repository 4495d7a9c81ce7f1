/** The simulation ends under the basic pager, whatever is drawn. */
module BasicEnds {
  import opened Params
  import opened Sums
  import opened Branching
  import opened Simulator
  import opened Invariants
  import opened Locality
  import opened Latency
  import opened Lru
  import opened Basic
  import opened JobQueue
  import opened JobLength

  /** Ticks for a computing step and the page fault before it. */
  const STEP := PAGEWAIT + 2

  /** Ticks of the first running processor that a job still needs, at most. */
  function Work(q: Process, k: int, m: nat): int
    requires OfKind(q, k, m)
  {
    if q.active then 1 + STEP * ToGo(q, k, m) + Rank(Needed(q)) else 0
  }

  /** Every job is of its kind, and not past its exit. */
  predicate OnCourse(q: Process, k: int, m: nat) {
    OfKind(q, k, m) && q.pc <= ExitPc(k) && ProcOk(q) && NoneGoing(q)
  }

  lemma WorkBounds(q: Process, k: int, m: nat)
    requires OnCourse(q, k, m)
    ensures 0 <= Work(q, k, m) && (q.active ==> 0 < Work(q, k, m))
    ensures Fresh(q) ==> Work(q, k, m) <= STEP * (Longest(m) + 1)
  {
    ToGoBounds(q, k, m);
  }

  // ---- One job ------------------------------------------------------------------

  /** What a tick's stepping makes of a job on a processor. */
  function StepJob(q: Process): (r: Process)
    requires GoodProcess(q)
    ensures GoodProcess(r)
  {
    var (r, more) := StepProcess(q);
    if more || !r.active then r else r.(pages := Released(r.pages), active := false)
  }

  lemma RankBounds(q: Process)
    requires ProcOk(q) && NoneGoing(q)
    ensures 0 <= Rank(Needed(q)) <= PAGEWAIT + 1
  {
  }

  /** A computing step that does not exit. */
  lemma ComputeWorks(q: Process, r: Process, k: int, m: nat)
    requires OnCourse(q, k, m) && OnCourse(r, k, m) && q.active && ToGo(r, k, m) < ToGo(q, k, m) && Needed(q) == 0
    ensures Work(r, k, m) < Work(q, k, m)
  {
    RankBounds(r);
    ToGoBounds(r, k, m);
  }

  lemma StepWorks(q: Process, k: int, m: nat)
    requires OnCourse(q, k, m)
    ensures OnCourse(StepJob(q), k, m) && Work(StepJob(q), k, m) <= Work(q, k, m)
    ensures q.active && Needed(q) == 0 ==> Work(StepJob(q), k, m) < Work(q, k, m)
  {
    StepProcessOk(q);
    if q.active && Needed(q) == 0 {
      StepGoes(q, k, m);
      if q.pc == ExitPc(k) {
        ExitWorks(q, k, m);
      } else {
        ComputeWorks(q, StepJob(q), k, m);
      }
    }
  }

  /** The step at the exit. */
  lemma ExitWorks(q: Process, k: int, m: nat)
    requires OnCourse(q, k, m) && q.active && Needed(q) == 0 && q.pc == ExitPc(k)
    ensures OnCourse(StepJob(q), k, m) && Work(StepJob(q), k, m) < Work(q, k, m)
  {
    ExitsAt(k, q.pc);
    WorkBounds(q, k, m);
  }

  function AgeJob(q: Process): (r: Process)
    requires GoodProcess(q)
    ensures GoodProcess(r)
  {
    q.(pages := Aged(q.pages))
  }

  lemma AgeWorks(q: Process, k: int, m: nat)
    requires OnCourse(q, k, m)
    ensures OnCourse(AgeJob(q), k, m) && Work(AgeJob(q), k, m) <= Work(q, k, m)
    ensures q.active && Needed(q) > 0 ==> Work(AgeJob(q), k, m) < Work(q, k, m)
  {
    assert PcPage(AgeJob(q)) == PcPage(q);
  }

  /** Starting a page-in. */
  lemma FetchWorks(q: Process, k: int, m: nat, p: int)
    requires OnCourse(q, k, m) && q.active && PageNo(p) && q.pages[p] < -PAGEWAIT
    ensures var r := q.(pages := q.pages[p := PAGEWAIT]);
      && OnCourse(r, k, m) && Work(r, k, m) <= Work(q, k, m)
      && (p == PcPage(q) ==> Work(r, k, m) < Work(q, k, m))
  {
    assert PcPage(q.(pages := q.pages[p := PAGEWAIT])) == PcPage(q);
  }

  // ---- Every job of the queue ------------------------------------------------------

  /** The jobs that processors before n run. */
  predicate RunBefore(s: Sim, n: nat, h: int)
    requires Shape(s) && n <= MAXPROCESSES
  {
    exists i :: 0 <= i < n && s.slots[i] == h
  }

  lemma StepSlotJob(t: Sim, i: int, h: int)
    requires Shape(t) && 0 <= i < MAXPROCESSES && 0 <= h < QUEUESIZE
    ensures StepSlot(t, i).queue[h] == if t.slots[i] == h then StepJob(t.queue[h]) else t.queue[h]
  {
  }

  lemma {:induction false} AllStepJob(s: Sim, n: nat, h: int)
    requires Inv(s) && n <= s.procs && 0 <= h < QUEUESIZE
    ensures AllStep(s, n).queue[h] == if RunBefore(s, n, h) then StepJob(s.queue[h]) else s.queue[h]
  {
    if n > 0 {
      var k := n - 1;
      AllStepJob(s, k, h);
      AllStepAt(s, k, k);
      StepSlotJob(AllStep(s, k), k, h);
      RunBeforeNext(s, k, n, h);
    }
  }

  lemma RunBeforeNext(s: Sim, n: nat, n': nat, h: int)
    requires Inv(s) && n' == n + 1 <= MAXPROCESSES && 0 <= h < QUEUESIZE
    ensures RunBefore(s, n', h) <==> RunBefore(s, n, h) || s.slots[n] == h
    ensures s.slots[n] == h ==> !RunBefore(s, n, h)
  {
    assert s.slots[n] == h ==> RunBefore(s, n', h);
  }

  lemma AgeSlotJob(t: Sim, i: int, h: int)
    requires Shape(t) && 0 <= i < MAXPROCESSES && 0 <= h < QUEUESIZE
    ensures AgeSlot(t, i).queue[h] == if Running(t, i) && t.slots[i] == h then AgeJob(t.queue[h]) else t.queue[h]
  {
  }

  /** Each job that is not finished is on its way. */
  predicate Course(s: Sim, kinds: seq<int>, m: nat) {
    && Shape(s) && GoodKinds(kinds)
    && forall h :: 0 <= h < QUEUESIZE ==> OnCourse(s.queue[h], kinds[h], m)
  }

  /** No job of t needs more than it did in s, and job f needs less. */
  predicate Lower(s: Sim, t: Sim, kinds: seq<int>, m: nat, f: int) {
    && Course(s, kinds, m) && Course(t, kinds, m)
    && (forall h :: 0 <= h < QUEUESIZE ==> Work(t.queue[h], kinds[h], m) <= Work(s.queue[h], kinds[h], m))
    && (0 <= f < QUEUESIZE ==> Work(t.queue[f], kinds[f], m) < Work(s.queue[f], kinds[f], m))
  }

  lemma StepLowers(s: Sim, kinds: seq<int>, m: nat)
    requires Inv(s) && Course(s, kinds, m)
    ensures Lower(s, AllStep(s, s.procs), kinds, m, -1)
  {
    var t := AllStep(s, s.procs);
    forall h | 0 <= h < QUEUESIZE
      ensures OnCourse(t.queue[h], kinds[h], m) && Work(t.queue[h], kinds[h], m) <= Work(s.queue[h], kinds[h], m)
    {
      AllStepJob(s, s.procs, h);
      StepWorks(s.queue[h], kinds[h], m);
    }
  }

  lemma AgeSlotLowers(t: Sim, i: int, kinds: seq<int>, m: nat)
    requires Course(t, kinds, m) && 0 <= i < MAXPROCESSES
    ensures Lower(t, AgeSlot(t, i), kinds, m, -1)
  {
    var u := AgeSlot(t, i);
    forall h | 0 <= h < QUEUESIZE
      ensures OnCourse(u.queue[h], kinds[h], m) && Work(u.queue[h], kinds[h], m) <= Work(t.queue[h], kinds[h], m)
    {
      AgeSlotJob(t, i, h);
      AgeWorks(t.queue[h], kinds[h], m);
    }
  }

  lemma {:induction false} AgeLowers(s: Sim, n: nat, kinds: seq<int>, m: nat)
    requires Course(s, kinds, m) && n <= MAXPROCESSES
    ensures Lower(s, AllAge(s, n), kinds, m, -1)
  {
    if n > 0 {
      var k := n - 1;
      AgeLowers(s, k, kinds, m);
      AgeSlotLowers(AllAge(s, k), k, kinds, m);
      LowerTwice(s, AllAge(s, k), AllAge(s, n), kinds, m, -1, -1);
    }
  }

  /** Up to the pager's turn. */
  lemma TickedLowers(s: Sim, kinds: seq<int>, m: nat)
    requires Inv(s) && Course(s, kinds, m)
    ensures Lower(s, Ticked(s), kinds, m, -1)
  {
    StepLowers(s, kinds, m);
    AgeLowers(AllStep(s, s.procs), s.procs, kinds, m);
  }

  /** When only job h changes. */
  lemma OneJobLowers(t: Sim, u: Sim, kinds: seq<int>, m: nat, h: int, f: int)
    requires Course(t, kinds, m) && Shape(u) && 0 <= h < QUEUESIZE && OnCourse(u.queue[h], kinds[h], m)
    requires forall k :: 0 <= k < QUEUESIZE && k != h ==> u.queue[k] == t.queue[k]
    requires Work(u.queue[h], kinds[h], m) <= Work(t.queue[h], kinds[h], m)
    requires f == -1 || (f == h && Work(u.queue[h], kinds[h], m) < Work(t.queue[h], kinds[h], m))
    ensures Lower(t, u, kinds, m, f)
  {
  }

  /** The pager's page-in. */
  lemma FetchLowers(t: Sim, i: int, p: int, kinds: seq<int>, m: nat)
    requires Inv(t) && Course(t, kinds, m)
    ensures Lower(t, Do(t, In(i, p)).0, kinds, m, -1)
    ensures Callable(t, i, p) && Cell(t, i, p) < -PAGEWAIT && p == PcPage(t.queue[t.slots[i]]) && t.avail > 0 ==>
              Lower(t, Do(t, In(i, p)).0, kinds, m, t.slots[i])
  {
    var u := Do(t, In(i, p)).0;
    if Callable(t, i, p) && Cell(t, i, p) < -PAGEWAIT && t.avail > 0 {
      var h := t.slots[i];
      FetchWorks(t.queue[h], kinds[h], m, p);
      OneJobLowers(t, u, kinds, m, h, -1);
      if p == PcPage(t.queue[h]) {
        OneJobLowers(t, u, kinds, m, h, h);
      }
    } else {
      assert u == t;
    }
  }

  lemma LowerTwice(s: Sim, t: Sim, u: Sim, kinds: seq<int>, m: nat, f: int, g: int)
    requires Lower(s, t, kinds, m, f) && Lower(t, u, kinds, m, g)
    ensures Lower(s, u, kinds, m, f) && Lower(s, u, kinds, m, g)
  {
  }

  // ---- One tick -----------------------------------------------------------------------

  /** The calls of the basic pager never cost anyone. */
  lemma CallsLower(s: Sim, kinds: seq<int>, m: nat)
    requires BasicInv(s) && Course(Ticked(s), kinds, m)
    ensures Lower(Ticked(s), Tick(s, NextBasic(s)), kinds, m, -1)
  {
    var t := Ticked(s);
    TickedBasic(s);
    ViewIsGood(t);
    CallsSucceed(t);
    var calls := NextBasic(s);
    if calls != [] {
      DoOne(t, calls[0]);
      FetchLowers(t, calls[0].slot, calls[0].page, kinds, m);
    }
  }

  lemma TickLowers(s: Sim, kinds: seq<int>, m: nat)
    requires BasicInv(s) && Course(s, kinds, m)
    ensures Lower(s, Tick(s, NextBasic(s)), kinds, m, -1)
  {
    TickedLowers(s, kinds, m);
    CallsLower(s, kinds, m);
    LowerTwice(s, Ticked(s), Tick(s, NextBasic(s)), kinds, m, -1, -1);
  }

  /** Processor i is the first that runs a job. */
  predicate First(s: Sim, i: int)
    requires Shape(s)
  {
    Running(s, i) && forall j :: 0 <= j < i ==> !Running(s, j)
  }

  /** A job with its page in computes. */
  lemma ComputingLowers(s: Sim, i: int, kinds: seq<int>, m: nat)
    requires Inv(s) && Course(s, kinds, m) && Running(s, i) && Needed(s.queue[s.slots[i]]) == 0
    ensures Lower(s, Ticked(s), kinds, m, s.slots[i])
  {
    var h := s.slots[i];
    assert SlotOk(s, i);
    StepLowers(s, kinds, m);
    AllStepJob(s, s.procs, h);
    StepWorks(s.queue[h], kinds[h], m);
    assert Lower(s, AllStep(s, s.procs), kinds, m, h);
    AgeLowers(AllStep(s, s.procs), s.procs, kinds, m);
    LowerTwice(s, AllStep(s, s.procs), Ticked(s), kinds, m, h, -1);
  }

  /** One whose page is coming waits a tick less. */
  lemma ComingLowers(s: Sim, i: int, kinds: seq<int>, m: nat)
    requires Inv(s) && Course(s, kinds, m) && Running(s, i) && Needed(s.queue[s.slots[i]]) > 0
    ensures Lower(s, Ticked(s), kinds, m, s.slots[i])
  {
    var h := s.slots[i];
    var q := s.queue[h];
    assert SlotOk(s, i);
    TickedAt(s, i);
    AgedCell(q);
    StepWorks(q, kinds[h], m);
    AgeWorks(StepJob(q), kinds[h], m);
    TickedLowers(s, kinds, m);
  }

  lemma StillFirst(s: Sim, i: int)
    requires BasicInv(s) && First(s, i) && Needed(s.queue[s.slots[i]]) < -PAGEWAIT
    ensures var t := Ticked(s);
      && t.slots[i] == s.slots[i] && Running(t, i) && FirstActive(View(t), 0) == i
      && PcPage(t.queue[t.slots[i]]) == PcPage(s.queue[s.slots[i]])
      && Needed(t.queue[t.slots[i]]) < -PAGEWAIT
  {
    var t := Ticked(s);
    assert SlotOk(s, i);
    TickedAt(s, i);
    AgedCell(s.queue[s.slots[i]]);
    forall j | 0 <= j < i ensures !View(t)[j].active {
      assert SlotOk(s, j) && !Running(s, j);
      TickedAt(s, j);
      assert View(t)[j] == Entry(t, j);
    }
    assert View(t)[i].active;
  }

  /** So it is served. */
  lemma OutServed(s: Sim, i: int)
    requires BasicInv(s) && First(s, i) && Needed(s.queue[s.slots[i]]) < -PAGEWAIT
    ensures var t := Ticked(s);
      && Inv(t) && t.avail > 0 && t.slots[i] == s.slots[i]
      && var p := PcPage(t.queue[t.slots[i]]);
         NextBasic(s) == [In(i, p)] && Callable(t, i, p) && Cell(t, i, p) < -PAGEWAIT
  {
    var t := Ticked(s);
    StillFirst(s, i);
    TickedBasic(s);
    ViewIsGood(t);
    EntryOf(t, i);
    CallsSucceed(t);
    PlentyFree(t);
  }

  /** One whose page is out is closer to its end when that page is coming. */
  lemma OutLowers(s: Sim, i: int, kinds: seq<int>, m: nat)
    requires BasicInv(s) && Course(Ticked(s), kinds, m) && First(s, i) && Needed(s.queue[s.slots[i]]) < -PAGEWAIT
    ensures Lower(Ticked(s), Tick(s, NextBasic(s)), kinds, m, s.slots[i])
  {
    var t := Ticked(s);
    OutServed(s, i);
    var p := PcPage(t.queue[t.slots[i]]);
    DoOne(t, In(i, p));
    FetchLowers(t, i, p, kinds, m);
  }

  /** Every tick, the first running processor's job comes closer to its end. */
  lemma FirstLowers(s: Sim, i: int, kinds: seq<int>, m: nat)
    requires BasicInv(s) && Course(s, kinds, m) && First(s, i)
    ensures Lower(s, Tick(s, NextBasic(s)), kinds, m, s.slots[i])
  {
    var h := s.slots[i];
    var c := Needed(s.queue[h]);
    TickedLowers(s, kinds, m);
    CallsLower(s, kinds, m);
    if c == 0 {
      ComputingLowers(s, i, kinds, m);
    } else if c > 0 {
      ComingLowers(s, i, kinds, m);
    } else {
      assert FirstHolds(s, i);
      OutLowers(s, i, kinds, m);
    }
    LowerTwice(s, Ticked(s), Tick(s, NextBasic(s)), kinds, m, if c >= 0 then h else -1, if c >= 0 then -1 else h);
  }

  // ---- The whole simulation ----------------------------------------------------------------

  /** What each job still needs. */
  function Works(s: Sim, kinds: seq<int>, m: nat): (w: seq<int>)
    requires Course(s, kinds, m)
    ensures |w| == QUEUESIZE && forall h :: 0 <= h < QUEUESIZE ==> w[h] == Work(s.queue[h], kinds[h], m)
  {
    seq(QUEUESIZE, h requires 0 <= h < QUEUESIZE => Work(s.queue[h], kinds[h], m))
  }

  /** The first n of them together. */
  function Total(w: seq<int>, n: nat): int
    requires n <= |w|
  {
    if n == 0 then 0 else Total(w, n - 1) + w[n - 1]
  }

  lemma {:induction false} TotalLowers(w: seq<int>, v: seq<int>, f: int, n: nat)
    requires |v| == |w| && n <= |w| && forall h :: 0 <= h < n ==> v[h] <= w[h] && (h == f ==> v[h] < w[h])
    ensures Total(v, n) <= Total(w, n) - if 0 <= f < n then 1 else 0
  {
    if n > 0 {
      TotalLowers(w, v, f, n - 1);
    }
  }

  lemma {:induction false} TotalZero(w: seq<int>, n: nat)
    requires n <= |w| && forall h :: 0 <= h < n ==> 0 <= w[h]
    ensures 0 <= Total(w, n) && (Total(w, n) == 0 <==> forall h :: 0 <= h < n ==> w[h] == 0)
  {
    if n > 0 {
      TotalZero(w, n - 1);
    }
  }

  lemma {:induction false} TotalAtMost(w: seq<int>, most: int, n: nat)
    requires n <= |w| && forall h :: 0 <= h < n ==> w[h] <= most
    ensures Total(w, n) <= most * n
  {
    if n > 0 {
      TotalAtMost(w, most, n - 1);
      OneMore(most, n - 1);
    }
  }

  /** What all jobs together still need. */
  function AllWork(s: Sim, kinds: seq<int>, m: nat): int
    requires Course(s, kinds, m)
  {
    Total(Works(s, kinds, m), QUEUESIZE)
  }

  lemma AllWorkLowers(s: Sim, t: Sim, kinds: seq<int>, m: nat, f: int)
    requires Lower(s, t, kinds, m, f)
    ensures AllWork(t, kinds, m) <= AllWork(s, kinds, m) - if 0 <= f < QUEUESIZE then 1 else 0
  {
    TotalLowers(Works(s, kinds, m), Works(t, kinds, m), f, QUEUESIZE);
  }

  /** There is no work exactly when no job is active. */
  lemma NoWork(s: Sim, kinds: seq<int>, m: nat)
    requires Course(s, kinds, m)
    ensures 0 <= AllWork(s, kinds, m)
    ensures AllWork(s, kinds, m) == 0 <==> forall h :: 0 <= h < QUEUESIZE ==> !s.queue[h].active
  {
    var w := Works(s, kinds, m);
    forall h | 0 <= h < QUEUESIZE ensures 0 <= w[h] && (w[h] == 0 <==> !s.queue[h].active) {
      WorkBounds(s.queue[h], kinds[h], m);
    }
    TotalZero(w, QUEUESIZE);
  }

  /** While anything runs, the work falls; and it never rises. */
  lemma TickTotal(s: Sim, kinds: seq<int>, m: nat)
    requires BasicInv(s) && Course(s, kinds, m)
    ensures var t := Tick(s, NextBasic(s));
      && BasicInv(t) && Course(t, kinds, m)
      && AllWork(t, kinds, m) <= AllWork(s, kinds, m) - if AllWork(s, kinds, m) > 0 then 1 else 0
  {
    var t := Tick(s, NextBasic(s));
    BasicTickInv(s);
    TickLowers(s, kinds, m);
    if AllDone(s) {
      AllWorkLowers(s, t, kinds, m, -1);
      DoneMeansDone(s);
      NoWork(s, kinds, m);
    } else {
      var i := FirstRunning(s);
      FirstLowers(s, i, kinds, m);
      AllWorkLowers(s, t, kinds, m, s.slots[i]);
    }
  }

  lemma FirstRunning(s: Sim) returns (i: int)
    requires Shape(s) && !AllDone(s)
    ensures First(s, i)
  {
    i := 0;
    while !Running(s, i)
      invariant 0 <= i < s.procs && forall j :: 0 <= j < i ==> !Running(s, j)
      decreases s.procs - i
    {
      assert i + 1 < s.procs;
      i := i + 1;
    }
  }

  lemma {:induction false} RunTotal(s: Sim, kinds: seq<int>, m: nat, n: nat)
    requires BasicInv(s) && Course(s, kinds, m)
    ensures var t := BasicRun(s, n);
      && BasicInv(t) && Course(t, kinds, m)
      && (AllWork(t, kinds, m) == 0 || AllWork(t, kinds, m) <= AllWork(s, kinds, m) - n)
  {
    if n > 0 {
      var k := n - 1;
      RunTotal(s, kinds, m, k);
      BasicRunStep(s, k, n);
      TickTotal(BasicRun(s, k), kinds, m);
      NoWork(BasicRun(s, n), kinds, m);
    }
  }

  /** Ticks that a job needs at most, when no IF consumes more than m flips. */
  function Most(m: nat): nat {
    STEP * (Longest(m) + 1)
  }

  /** Ticks that are enough for all jobs. */
  function Enough(m: nat): nat {
    Most(m) * QUEUESIZE
  }

  lemma EnoughTicks(s: Sim, kinds: seq<int>, m: nat, n: nat)
    requires BasicInv(s) && Course(s, kinds, m) && FreshQueue(s.queue) && n >= Enough(m)
    ensures AllDone(BasicRun(s, n))
  {
    var w := Works(s, kinds, m);
    forall h | 0 <= h < QUEUESIZE ensures w[h] <= Most(m) {
      WorkBounds(s.queue[h], kinds[h], m);
    }
    TotalAtMost(w, Most(m), QUEUESIZE);
    RunTotal(s, kinds, m, n);
    NoWork(BasicRun(s, n), kinds, m);
  }

  lemma JobsOnCourse(procs: int, kinds: seq<int>, draws: seq<seq<Draws>>, m: nat)
    requires 1 <= procs <= MAXPROCESSES && GoodKinds(kinds) && GoodDraws(kinds, draws)
    requires forall h, i :: 0 <= h < |draws| && 0 <= i < |draws[h]| ==> |draws[h][i].flips| <= m
    ensures FreshQueue(Jobs(kinds, draws)) && Course(Boot(procs, Jobs(kinds, draws)), kinds, m)
  {
    JobsAreFresh(kinds, draws);
    forall h | 0 <= h < QUEUESIZE ensures OnCourse(Jobs(kinds, draws)[h], kinds[h], m) {
      LoadedOfKind(kinds[h], draws[h], m);
      assert Fresh(Jobs(kinds, draws)[h]);
    }
  }

  /**
   Under the basic pager the simulation ends, for any number of processors, any shuffle and any draws: after
   Enough(m) ticks everything has been run and all memory is free.
   */
  lemma SimulationEnds(procs: int, shuffle: seq<nat>, draws: seq<seq<Draws>>, m: nat, n: nat)
    requires 1 <= procs <= MAXPROCESSES && |shuffle| == 10 * QUEUESIZE && GoodDraws(Kinds(shuffle), draws)
    requires forall h, i :: 0 <= h < |draws| && 0 <= i < |draws[h]| ==> |draws[h][i].flips| <= m
    requires n >= Enough(m)
    ensures var s := BasicRun(Boot(procs, Jobs(Kinds(shuffle), draws)), n);
      AllDone(s) && s.avail == PHYSICALPAGES && |s.loads| == QUEUESIZE
  {
    var queue := Jobs(Kinds(shuffle), draws);
    JobsOnCourse(procs, Kinds(shuffle), draws, m);
    BootBasic(procs, queue);
    EnoughTicks(Boot(procs, queue), Kinds(shuffle), m, n);
    EndOfRun(procs, queue, BasicScript(Boot(procs, queue), n));
  }
}
