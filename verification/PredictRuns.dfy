/** The predictive pager in the machine, over whole runs. */
module PredictRuns {
  import opened Params
  import opened Simulator
  import opened Invariants
  import opened Locality
  import L = Lru
  import opened Predict

  /** A machine under this pager: ms is what the pager knows; views and script are histories. */
  datatype State = State(sim: Sim, ms: seq<Memory>, views: seq<seq<Pentry>>, script: seq<seq<Call>>)

  predicate GoodState(x: State) {
    && Shape(x.sim) && GoodMemories(x.ms)
    && forall v :: v in x.views ==> L.GoodView(v)
  }

  function Start(s: Sim): (x: State)
    requires Shape(s)
    ensures GoodState(x)
  {
    State(s, seq(MAXPROCESSES, _ => Blank()), [], [])
  }

  function NextCalls(x: State, fars: seq<Beyond>): seq<Call>
    requires GoodState(x) && GoodFars(fars)
  {
    L.ViewIsGood(Ticked(x.sim));
    PredictCalls(x.ms, View(Ticked(x.sim)), fars, MAXPROCESSES)
  }

  function Turn(x: State, fars: seq<Beyond>): (r: State)
    requires GoodState(x) && GoodFars(fars)
    ensures GoodState(r)
  {
    var t := Ticked(x.sim);
    L.ViewIsGood(t);
    var calls := NextCalls(x, fars);
    State(DoAll(t, calls), Learnt(x.ms, View(t), MAXPROCESSES), x.views + [View(t)], x.script + [calls])
  }

  /** Any number of ticks, whatever lies beyond the rows that the searches read. */
  function Turns(x: State, fars: seq<seq<Beyond>>): (r: State)
    requires GoodState(x) && forall f :: f in fars ==> GoodFars(f)
    ensures GoodState(r)
    decreases |fars|
  {
    if fars == [] then x
    else
      var n := |fars| - 1;
      Turn(Turns(x, fars[..n]), fars[n])
  }

  function PredictRun(s: Sim, fars: seq<seq<Beyond>>): (x: State)
    requires Shape(s) && forall f :: f in fars ==> GoodFars(f)
    ensures GoodState(x)
  {
    Turns(Start(s), fars)
  }

  // ---- The invariant --------------------------------------------------------

  /** Frames and jobs are consistent, and the pager knows what it was shown. */
  predicate PredictInv(x: State) {
    GoodState(x) && Inv(x.sim) && x.ms == LearntAll(x.views)
  }

  lemma LearntAllSnoc(views: seq<seq<Pentry>>, v: seq<Pentry>)
    requires (forall u :: u in views ==> L.GoodView(u)) && L.GoodView(v)
    ensures LearntAll(views + [v]) == Learnt(LearntAll(views), v, MAXPROCESSES)
  {
    assert (views + [v])[..|views|] == views;
  }

  lemma TurnInv(x: State, fars: seq<Beyond>)
    requires PredictInv(x) && GoodFars(fars)
    ensures PredictInv(Turn(x, fars))
  {
    var t := Ticked(x.sim);
    L.ViewIsGood(t);
    TickedInv(x.sim);
    DoAllInv(t, NextCalls(x, fars));
    LearntAllSnoc(x.views, View(t));
  }

  lemma {:induction false} TurnsInv(x: State, fars: seq<seq<Beyond>>)
    requires PredictInv(x) && forall f :: f in fars ==> GoodFars(f)
    ensures PredictInv(Turns(x, fars))
    decreases |fars|
  {
    if fars != [] {
      var n := |fars| - 1;
      TurnsInv(x, fars[..n]);
      TurnInv(Turns(x, fars[..n]), fars[n]);
    }
  }

  lemma PredictRunInv(procs: int, queue: seq<Process>, fars: seq<seq<Beyond>>)
    requires 1 <= procs <= MAXPROCESSES && FreshQueue(queue) && forall f :: f in fars ==> GoodFars(f)
    ensures PredictInv(PredictRun(Boot(procs, queue), fars))
  {
    BootInv(procs, queue);
    TurnsInv(Start(Boot(procs, queue)), fars);
  }

  /** A run under this pager is one of the runs that any pager may cause. */
  lemma {:induction false} PredictRunIsRun(s: Sim, fars: seq<seq<Beyond>>)
    requires Shape(s) && forall f :: f in fars ==> GoodFars(f)
    ensures var x := PredictRun(s, fars);
      x.sim == Run(s, x.script) && |x.script| == |fars|
    decreases |fars|
  {
    if fars != [] {
      var n := |fars| - 1;
      PredictRunIsRun(s, fars[..n]);
      var x := PredictRun(s, fars[..n]);
      RunSnoc(s, x.script, NextCalls(x, fars[n]));
    }
  }

  // ---- The theorems -----------------------------------------------------------

  /**
   On every run: the pager's counts are the moves that it was shown, they balance, and a search starts from a page
   number if and only if fewer than MAXPROCPAGES moves from that page to page 0 were shown.
   */
  lemma CountsOnRuns(procs: int, queue: seq<Process>, fars: seq<seq<Beyond>>, i: int, p: int, q: int)
    requires 1 <= procs <= MAXPROCESSES && FreshQueue(queue) && forall f :: f in fars ==> GoodFars(f)
    requires 0 <= i < MAXPROCESSES && PageNo(p) && -1 <= q < MAXPROCPAGES
    ensures var x := PredictRun(Boot(procs, queue), fars);
      var h := History(x.views, i);
      && x.ms[i].freq[q + 1][p] == Moves(h, q, p)
      && Into(x.ms[i].freq, p) - OutOf(x.ms[i], p) == (if h != [] && h[|h| - 1] == p then 1 else 0)
      && (PageNo(Seed(x.ms[i], p)) <==> Moves(h, p, 0) < MAXPROCPAGES)
  {
    PredictRunInv(procs, queue, fars);
    var x := PredictRun(Boot(procs, queue), fars);
    CountsAreExactAndBalance(x.views, i, p, q);
    LearntIsHistory(x.views, i);
    SeedInRangeExactly(History(x.views, i), p);
  }

  /** After every tick of every run a running processor has at most three pages in. */
  lemma ThreeResidentOnRuns(procs: int, queue: seq<Process>, fars: seq<seq<Beyond>>, i: int)
    requires 1 <= procs <= MAXPROCESSES && FreshQueue(queue) && forall f :: f in fars ==> GoodFars(f)
    requires 0 <= i < MAXPROCESSES
    ensures var s := PredictRun(Boot(procs, queue), fars).sim;
      Running(s, i) ==> |Residents(s.queue[s.slots[i]])| <= 3
  {
    if fars == [] {
      BootInv(procs, queue);
      NoneResident(Boot(procs, queue), i);
    } else {
      var n := |fars| - 1;
      PredictRunInv(procs, queue, fars[..n]);
      TurnLeavesThree(PredictRun(Boot(procs, queue), fars[..n]), fars[n], i);
    }
  }

  lemma NoneResident(s: Sim, i: int)
    requires Shape(s) && 0 <= i < MAXPROCESSES
    requires Running(s, i) ==> AllOut(s.queue[s.slots[i]])
    ensures Running(s, i) ==> |Residents(s.queue[s.slots[i]])| <= 3
  {
    if Running(s, i) {
      assert Residents(s.queue[s.slots[i]]) == {};
    }
  }

  lemma TurnLeavesThree(x: State, fars: seq<Beyond>, i: int)
    requires PredictInv(x) && GoodFars(fars) && 0 <= i < MAXPROCESSES
    ensures var s := Turn(x, fars).sim;
      Running(s, i) ==> |Residents(s.queue[s.slots[i]])| <= 3
  {
    var t := Ticked(x.sim);
    TickedInv(x.sim);
    L.ViewIsGood(t);
    if Running(Turn(x, fars).sim, i) {
      assert SlotOk(t, i);
      AtMostThreeResident(t, x.ms, fars, i);
    }
  }

  /** The pager never pages out the page that a program counter needs. */
  lemma NeverEvictsNeeded(x: State, fars: seq<Beyond>, i: int)
    requires PredictInv(x) && GoodFars(fars) && 0 <= i < MAXPROCESSES && Running(Ticked(x.sim), i)
    ensures var t := Ticked(x.sim);
      Out(i, PcPage(t.queue[t.slots[i]])) !in NextCalls(x, fars)
  {
    var t := Ticked(x.sim);
    TickedInv(x.sim);
    L.ViewIsGood(t);
    EntryOf(t, i);
    OutsOfSlot(x.ms, View(t), fars, MAXPROCESSES, i, PcPage(t.queue[t.slots[i]]));
  }
}
