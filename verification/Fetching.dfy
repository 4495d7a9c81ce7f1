/** One processor under the predictive pager: its job always gets the page it needs, and goes on. */
module Fetching {
  import opened Params
  import opened Simulator
  import opened Invariants
  import opened Locality
  import opened Latency
  import opened Basic
  import opened Predict
  import opened PredictRuns
  import opened Prefetch

  /** The only job that was handed out and is not finished runs on processor 0. */
  predicate Alone(t: Sim) {
    Inv(t) && t.procs == 1 && t.slots[0] >= 0
  }

  lemma OneHolder(t: Sim)
    requires Alone(t)
    ensures t.avail > 0
  {
    forall i | 0 < i < MAXPROCESSES ensures t.slots[i] < 0 {
      assert SlotOk(t, i);
    }
    forall h | 0 <= h < |t.queue| && h != t.slots[0] ensures AllOut(t.queue[h]) {
      assert h !in t.slots;
    }
    SumOfOne(t.queue, t.slots[0]);
  }

  /** Calls keep it alone. */
  lemma StaysAlone(t: Sim, calls: seq<Call>)
    requires Alone(t)
    ensures Alone(DoAll(t, calls))
  {
    DoAllInv(t, calls);
  }

  /** The page that is needed and out is asked for, and comes. */
  lemma NeededComes(t: Sim, ms: seq<Memory>, fars: seq<Beyond>)
    requires Alone(t) && GoodMemories(ms) && GoodFars(fars) && L.GoodView(View(t))
    requires var q := t.queue[t.slots[0]]; q.pages[PcPage(q)] < -PAGEWAIT
    ensures var q := t.queue[t.slots[0]];
      Cell(DoAll(t, PredictCalls(ms, View(t), fars, MAXPROCESSES)), 0, PcPage(q)) == PAGEWAIT
  {
    assert SlotOk(t, 0);
    EntryOf(t, 0);
    StaysAlone(t, PredictCalls(ms, View(t), fars, MAXPROCESSES));
    OneHolder(DoAll(t, PredictCalls(ms, View(t), fars, MAXPROCESSES)));
    CellBecomes(t, ms, fars, 0, PcPage(t.queue[t.slots[0]]));
  }

  // ---- One tick ---------------------------------------------------------------

  function Job(x: State): (q: Process)
    requires Shape(x.sim) && x.sim.slots[0] >= 0
    ensures GoodProcess(q)
  {
    x.sim.queue[x.sim.slots[0]]
  }

  /** The pages that the pager was shown, and where the job is. */
  predicate Follows(h: seq<int>, q: Process)
    requires GoodProcess(q)
  {
    if h == [] then q.pc == 0 else h[|h| - 1] == PcPage(q)
  }

  predicate Going(x: State) {
    PredictInv(x) && Alone(x.sim) && Follows(History(x.views, 0), Job(x))
  }

  lemma HistorySnoc(views: seq<seq<Pentry>>, v: seq<Pentry>)
    requires (forall u :: u in views ==> L.GoodView(u)) && L.GoodView(v) && v[0].active
    ensures History(views + [v], 0) == History(views, 0) + [L.Needs(v[0])]
  {
    assert (views + [v])[..|views|] == views;
  }

  /** A tick takes one step of the job, and shows the pager the page it needs then. */
  lemma OneTick(x: State, fars: seq<Beyond>)
    requires Going(x) && GoodFars(fars) && StepProcess(Job(x)).1
    ensures var y := Turn(x, fars);
      && Going(y) && y.sim.slots[0] == x.sim.slots[0]
      && Job(y) == StepProcess(Job(x)).0.(pages := Job(y).pages)
      && History(y.views, 0) == History(x.views, 0) + [PcPage(Job(y))]
  {
    var t := Ticked(x.sim);
    TickedAt(x.sim, 0);
    TickedInv(x.sim);
    TurnInv(x, fars);
    L.ViewIsGood(t);
    StaysAlone(t, NextCalls(x, fars));
    DoAllKeeps(t, NextCalls(x, fars), 0, 0);
    EntryOf(t, 0);
    HistorySnoc(x.views, View(t));
  }

  lemma AgedNeeded(x: State)
    requires Going(x) && Needed(Job(x)) != 0
    ensures var t := Ticked(x.sim);
      var q := t.queue[x.sim.slots[0]];
      && StepProcess(Job(x)).1 && Alone(t) && t.slots[0] == x.sim.slots[0] && Running(t, 0)
      && PcPage(q) == PcPage(Job(x)) && Needed(q) == AgeCell(Needed(Job(x)))
  {
    assert SlotOk(x.sim, 0);
    TickedAt(x.sim, 0);
    TickedInv(x.sim);
    assert SlotOk(Ticked(x.sim), 0);
    AgedCell(Job(x));
  }

  /** What the pager makes of the needed page. */
  lemma CellAfter(x: State, fars: seq<Beyond>, p: int)
    requires PredictInv(x) && GoodFars(fars) && Alone(Ticked(x.sim)) && Running(Ticked(x.sim), 0)
    requires p == PcPage(Ticked(x.sim).queue[Ticked(x.sim).slots[0]])
    ensures var c := Cell(Ticked(x.sim), 0, p);
      Cell(DoAll(Ticked(x.sim), NextCalls(x, fars)), 0, p) == if c < -PAGEWAIT then PAGEWAIT else c
  {
    var t := Ticked(x.sim);
    L.ViewIsGood(t);
    NeverEvictsNeeded(x, fars, 0);
    if Cell(t, 0, p) < -PAGEWAIT {
      NeededComes(t, x.ms, fars);
    } else {
      DoAllKeeps(t, NextCalls(x, fars), 0, p);
    }
  }

  lemma NeededAfter(x: State, fars: seq<Beyond>)
    requires Going(x) && GoodFars(fars) && Needed(Job(x)) != 0
    ensures Ticked(x.sim).slots[0] == x.sim.slots[0]
    ensures var c := AgeCell(Needed(Job(x)));
      Cell(DoAll(Ticked(x.sim), NextCalls(x, fars)), 0, PcPage(Job(x))) == if c < -PAGEWAIT then PAGEWAIT else c
  {
    AgedNeeded(x);
    CellAfter(x, fars, PcPage(Job(x)));
  }

  /** While its page is not in, the job stays where it is and the page comes closer. */
  lemma WaitingTick(x: State, fars: seq<Beyond>)
    requires Going(x) && GoodFars(fars) && Needed(Job(x)) != 0
    ensures var y := Turn(x, fars);
      && Going(y) && y.sim.slots[0] == x.sim.slots[0]
      && Job(y) == Job(x).(pages := Job(y).pages, block := Job(y).block)
      && History(y.views, 0) == History(x.views, 0) + [PcPage(Job(x))]
      && Rank(Needed(Job(y))) < Rank(Needed(Job(x)))
  {
    assert SlotOk(x.sim, 0);
    AgedCell(Job(x));
    OneTick(x, fars);
    NeededAfter(x, fars);
  }
}
