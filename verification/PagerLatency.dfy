/**
 Exact fault latency under the pagers that never page out the page a program counter needs.
 Under any pager the last tick of a page-in could be undone at once; these three do not.
 */
module PagerLatency {
  import opened Params
  import opened Simulator
  import opened Invariants
  import opened Latency
  import opened Lru
  import opened Basic
  import P = Predict
  import R = PredictRuns

  /** Processor i has just started a page-in of the page its job needs. */
  predicate JustFaulted(s: Sim, i: int)
    requires Shape(s) && 0 <= i < MAXPROCESSES
  {
    Running(s, i) && var q := s.queue[s.slots[i]]; q.pages[PcPage(q)] == PAGEWAIT
  }

  lemma CloserAtOnce(s: Sim, i: int)
    requires Inv(s) && 0 <= i < MAXPROCESSES && Running(s, i)
    ensures Closer(s, i, s.slots[i], s.queue[s.slots[i]], 0)
  {
    var q := s.queue[s.slots[i]];
    assert SlotOk(s, i);
    assert q == q.(pages := q.pages, block := q.block + 0);
  }

  /** With the page there, the next step computes, and all the waiting has been counted. */
  lemma ArrivedComputes(t: Sim, i: int, k: int, q: Process, n: nat)
    requires GoodProcess(q) && 0 <= i < MAXPROCESSES && Closer(t, i, k, q, n) && n == q.pages[PcPage(q)]
    ensures var r := StepProcess(t.queue[k]).0;
      r.compute == q.compute + 1 && r.block == q.block + n
  {
    StepCounts(t.queue[k]);
  }

  // ---- LRU ------------------------------------------------------------------

  lemma LruKeepsNeeded(x: State, junk: seq<int>, i: int)
    requires LruInv(x) && GoodJunk(junk) && 0 <= i < MAXPROCESSES && Running(x.sim, i)
    requires var q := x.sim.queue[x.sim.slots[i]]; q.pages[PcPage(q)] == 1
    ensures Out(i, PcPage(x.sim.queue[x.sim.slots[i]])) !in NextCalls(x, junk)
  {
    var p := PcPage(x.sim.queue[x.sim.slots[i]]);
    assert SlotOk(x.sim, i);
    if Out(i, p) in NextCalls(x, junk) {
      EvictionFrom(x, junk, Out(i, p));
      LastWait(x.sim, i);
      assert false;
    }
  }

  lemma LruCloser(x: State, junk: seq<int>, i: int, k: int, q: Process, n: nat)
    requires LruInv(x) && GoodJunk(junk) && 0 <= i < MAXPROCESSES && GoodProcess(q)
    requires Closer(x.sim, i, k, q, n) && n < q.pages[PcPage(q)]
    ensures LruInv(Turn(x, junk)) && Closer(Turn(x, junk).sim, i, k, q, n + 1)
  {
    TurnInv(x, junk);
    CloserTick(x.sim, NextCalls(x, junk), i, k, q, n);
    if n + 1 == q.pages[PcPage(q)] {
      LruKeepsNeeded(x, junk, i);
    }
  }

  /** Under LRU a page-in with c ticks to go blocks its process for exactly the next c steps. */
  lemma {:induction false} LruWaits(x: State, junks: seq<seq<int>>, i: int)
    requires LruInv(x) && 0 <= i < MAXPROCESSES && Running(x.sim, i) && forall j :: j in junks ==> GoodJunk(j)
    requires var q := x.sim.queue[x.sim.slots[i]]; |junks| <= q.pages[PcPage(q)]
    ensures LruInv(Turns(x, junks))
    ensures Closer(Turns(x, junks).sim, i, x.sim.slots[i], x.sim.queue[x.sim.slots[i]], |junks|)
    decreases |junks|
  {
    var k := x.sim.slots[i];
    if junks == [] {
      CloserAtOnce(x.sim, i);
    } else {
      var n := |junks| - 1;
      LruWaits(x, junks[..n], i);
      LruCloser(Turns(x, junks[..n]), junks[n], i, k, x.sim.queue[k], n);
    }
  }

  /** After a page-in starts, LRU's next PAGEWAIT steps of that process block and the one after them computes. */
  lemma LruFaultLatency(x: State, junks: seq<seq<int>>, i: int)
    requires LruInv(x) && 0 <= i < MAXPROCESSES && JustFaulted(x.sim, i)
    requires |junks| == PAGEWAIT && forall j :: j in junks ==> GoodJunk(j)
    ensures var k := x.sim.slots[i];
      var q := x.sim.queue[k];
      var r := StepProcess(Turns(x, junks).sim.queue[k]).0;
      && (forall n :: 0 <= n <= PAGEWAIT ==> Waited(Turns(x, junks[..n]).sim, i, k, q, n))
      && r.compute == q.compute + 1 && r.block == q.block + PAGEWAIT
  {
    var k := x.sim.slots[i];
    var q := x.sim.queue[k];
    forall n | 0 <= n <= PAGEWAIT ensures Waited(Turns(x, junks[..n]).sim, i, k, q, n) {
      LruWaits(x, junks[..n], i);
    }
    LruWaits(x, junks, i);
    ArrivedComputes(Turns(x, junks).sim, i, k, q, PAGEWAIT);
  }

  // ---- Basic ----------------------------------------------------------------

  lemma BasicCloser(s: Sim, i: int, k: int, q: Process, n: nat, n': nat)
    requires BasicInv(s) && 0 <= i < MAXPROCESSES && GoodProcess(q) && n' == n + 1
    requires Closer(s, i, k, q, n) && n < q.pages[PcPage(q)]
    ensures BasicInv(Tick(s, NextBasic(s))) && Closer(Tick(s, NextBasic(s)), i, k, q, n')
  {
    BasicTickInv(s);
    TickedBasic(s);
    ViewIsGood(Ticked(s));
    CallsSucceed(Ticked(s));
    CloserTick(s, NextBasic(s), i, k, q, n);
  }

  lemma {:induction false} BasicWaits(s: Sim, n: nat, i: int)
    requires BasicInv(s) && 0 <= i < MAXPROCESSES && Running(s, i)
    requires var q := s.queue[s.slots[i]]; n <= q.pages[PcPage(q)]
    ensures BasicInv(BasicRun(s, n)) && Closer(BasicRun(s, n), i, s.slots[i], s.queue[s.slots[i]], n)
  {
    if n == 0 {
      CloserAtOnce(s, i);
    } else {
      var m := n - 1;
      BasicWaits(s, m, i);
      BasicRunStep(s, m, n);
      BasicCloser(BasicRun(s, m), i, s.slots[i], s.queue[s.slots[i]], m, n);
    }
  }

  lemma BasicFaultLatency(s: Sim, i: int)
    requires BasicInv(s) && 0 <= i < MAXPROCESSES && JustFaulted(s, i)
    ensures var k := s.slots[i];
      var q := s.queue[k];
      var r := StepProcess(BasicRun(s, PAGEWAIT).queue[k]).0;
      && (forall n :: 0 <= n <= PAGEWAIT ==> Waited(BasicRun(s, n), i, k, q, n))
      && r.compute == q.compute + 1 && r.block == q.block + PAGEWAIT
  {
    var k := s.slots[i];
    var q := s.queue[k];
    forall n | 0 <= n <= PAGEWAIT ensures Waited(BasicRun(s, n), i, k, q, n) {
      BasicWaits(s, n, i);
    }
    BasicWaits(s, PAGEWAIT, i);
    ArrivedComputes(BasicRun(s, PAGEWAIT), i, k, q, PAGEWAIT);
  }

  // ---- Predict --------------------------------------------------------------

  lemma PredictKeepsNeeded(x: R.State, fars: seq<P.Beyond>, i: int)
    requires R.PredictInv(x) && P.GoodFars(fars) && 0 <= i < MAXPROCESSES && Running(x.sim, i)
    requires var q := x.sim.queue[x.sim.slots[i]]; q.pages[PcPage(q)] == 1
    ensures Out(i, PcPage(x.sim.queue[x.sim.slots[i]])) !in R.NextCalls(x, fars)
  {
    assert SlotOk(x.sim, i);
    LastWait(x.sim, i);
    R.NeverEvictsNeeded(x, fars, i);
  }

  lemma PredictCloser(x: R.State, fars: seq<P.Beyond>, i: int, k: int, q: Process, n: nat)
    requires R.PredictInv(x) && P.GoodFars(fars) && 0 <= i < MAXPROCESSES && GoodProcess(q)
    requires Closer(x.sim, i, k, q, n) && n < q.pages[PcPage(q)]
    ensures R.PredictInv(R.Turn(x, fars)) && Closer(R.Turn(x, fars).sim, i, k, q, n + 1)
  {
    R.TurnInv(x, fars);
    CloserTick(x.sim, R.NextCalls(x, fars), i, k, q, n);
    if n + 1 == q.pages[PcPage(q)] {
      PredictKeepsNeeded(x, fars, i);
    }
  }

  lemma {:induction false} PredictWaits(x: R.State, fars: seq<seq<P.Beyond>>, i: int)
    requires R.PredictInv(x) && 0 <= i < MAXPROCESSES && Running(x.sim, i) && forall f :: f in fars ==> P.GoodFars(f)
    requires var q := x.sim.queue[x.sim.slots[i]]; |fars| <= q.pages[PcPage(q)]
    ensures R.PredictInv(R.Turns(x, fars))
    ensures Closer(R.Turns(x, fars).sim, i, x.sim.slots[i], x.sim.queue[x.sim.slots[i]], |fars|)
    decreases |fars|
  {
    var k := x.sim.slots[i];
    if fars == [] {
      CloserAtOnce(x.sim, i);
    } else {
      var n := |fars| - 1;
      PredictWaits(x, fars[..n], i);
      PredictCloser(R.Turns(x, fars[..n]), fars[n], i, k, x.sim.queue[k], n);
    }
  }

  /** The same under the predictive pager. */
  lemma PredictFaultLatency(x: R.State, fars: seq<seq<P.Beyond>>, i: int)
    requires R.PredictInv(x) && 0 <= i < MAXPROCESSES && JustFaulted(x.sim, i)
    requires |fars| == PAGEWAIT && forall f :: f in fars ==> P.GoodFars(f)
    ensures var k := x.sim.slots[i];
      var q := x.sim.queue[k];
      var r := StepProcess(R.Turns(x, fars).sim.queue[k]).0;
      && (forall n :: 0 <= n <= PAGEWAIT ==> Waited(R.Turns(x, fars[..n]).sim, i, k, q, n))
      && r.compute == q.compute + 1 && r.block == q.block + PAGEWAIT
  {
    var k := x.sim.slots[i];
    var q := x.sim.queue[k];
    forall n | 0 <= n <= PAGEWAIT ensures Waited(R.Turns(x, fars[..n]).sim, i, k, q, n) {
      PredictWaits(x, fars[..n], i);
    }
    PredictWaits(x, fars, i);
    ArrivedComputes(R.Turns(x, fars).sim, i, k, q, PAGEWAIT);
  }
}
