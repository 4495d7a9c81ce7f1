/** Twenty walkers in step: under LRU they take all the memory there is, page by page. */
module Marching {
  import opened Params
  import opened Sums
  import opened Simulator
  import opened Invariants
  import opened Locality
  import opened Lru
  import opened Walking

  /** Every processor i runs job i, and the other jobs hold nothing. */
  predicate InPlace(t: Sim) {
    && Inv(t) && t.procs == MAXPROCESSES
    && (forall i :: 0 <= i < MAXPROCESSES ==> t.slots[i] == i && t.queue[i].active)
    && (forall h :: MAXPROCESSES <= h < QUEUESIZE ==> AllOut(t.queue[h]))
  }

  lemma OthersHoldNothing(t: Sim)
    requires Inv(t) && forall i :: 0 <= i < MAXPROCESSES ==> t.slots[i] == i
    ensures forall h :: MAXPROCESSES <= h < QUEUESIZE ==> AllOut(t.queue[h])
  {
    forall h | MAXPROCESSES <= h < QUEUESIZE ensures AllOut(t.queue[h]) {
      assert h !in t.slots;
    }
  }

  /** All are r ticks into leg k; the first n have had their turn with the pager. */
  predicate Column(t: Sim, k: nat, r: nat, n: nat) {
    && InPlace(t)
    && forall i :: 0 <= i < MAXPROCESSES ==> if i < n then Walks(t.queue[i], k, r) else Arrives(t.queue[i], k, r)
  }

  // ---- Frames -----------------------------------------------------------------

  /** The first a jobs hold at most c frames each, and the others none. */
  lemma {:induction false} HeldAtMost(queue: seq<Process>, a: nat, c: nat)
    requires forall h :: 0 <= h < |queue| ==> GoodProcess(queue[h])
    requires forall h :: 0 <= h < |queue| ==> if h < a then Held(queue[h]) <= c else Held(queue[h]) == 0
    ensures Sum(Held, queue) <= a * c
  {
    if queue != [] {
      HeldAtMost(queue[1..], if a == 0 then 0 else a - 1, c);
      assert a > 0 ==> a * c == (a - 1) * c + c;
    }
  }

  /** If job j is one below that, so is the sum. */
  lemma {:induction false} HeldBelow(queue: seq<Process>, a: nat, c: nat, j: nat)
    requires j < a <= |queue| && forall h :: 0 <= h < |queue| ==> GoodProcess(queue[h])
    requires forall h :: 0 <= h < |queue| ==> if h < a then Held(queue[h]) <= c else Held(queue[h]) == 0
    requires Held(queue[j]) < c
    ensures Sum(Held, queue) < a * c
  {
    assert a * c == (a - 1) * c + c;
    if j == 0 {
      HeldAtMost(queue[1..], a - 1, c);
    } else {
      HeldBelow(queue[1..], a - 1, c, j - 1);
    }
  }

  lemma ColumnHolds(t: Sim, k: nat, r: nat, n: nat, i: nat)
    requires k < REACH && r < LEG && n <= MAXPROCESSES && Column(t, k, r, n) && i < QUEUESIZE
    ensures if i >= MAXPROCESSES then Held(t.queue[i]) == 0
            else if r == 0 && i >= n then Held(t.queue[i]) == k
            else Held(t.queue[i]) == k + 1
  {
    if i < n {
      ReachedHolds(t.queue[i], k, Wait(r));
    } else if i < MAXPROCESSES {
      ReachedHolds(t.queue[i], k, if r == 0 then -PAGEWAIT - 1 else Wait(r));
    } else {
      NoneHeld(t.queue[i].pages);
    }
  }

  /** While someone still has to be served there is a frame for it. */
  lemma SpareFrame(t: Sim, k: nat, n: nat)
    requires k < REACH && n < MAXPROCESSES && Column(t, k, 0, n)
    ensures t.avail > 0
  {
    forall h | 0 <= h < |t.queue|
      ensures if h < MAXPROCESSES then Held(t.queue[h]) <= REACH else Held(t.queue[h]) == 0
    {
      ColumnHolds(t, k, 0, n, h);
    }
    ColumnHolds(t, k, 0, n, n);
    HeldBelow(t.queue, MAXPROCESSES, REACH, n);
  }

  // ---- One turn of the pager ------------------------------------------------------

  lemma OneServed(t: Sim, u: Sim, k: nat, r: nat, n: nat)
    requires n < MAXPROCESSES && Column(t, k, r, n) && Inv(u) && u.procs == t.procs && u.slots == t.slots
    requires Walks(u.queue[n], k, r) && forall i :: 0 <= i < MAXPROCESSES && i != n ==> SameJob(t, u, i)
    ensures Column(u, k, r, n + 1)
  {
    forall i | 0 <= i < MAXPROCESSES
      ensures u.slots[i] == i && if i < n + 1 then Walks(u.queue[i], k, r) else Arrives(u.queue[i], k, r)
    {
      assert t.slots[i] == i;
      if i != n {
        assert SameJob(t, u, i);
      }
    }
    OthersHoldNothing(u);
  }

  lemma ColumnTurn(t: Sim, row: seq<int>, junk: int, k: nat, r: nat, n: nat)
    requires k < REACH && r < LEG && n < MAXPROCESSES && Column(t, k, r, n) && GoodRow(row) && PageNo(junk)
    ensures var u := DoAll(t, SlotCalls(t, Entry(t, n), row, n, junk));
      && Column(u, k, r, n + 1)
      && forall i :: 0 <= i < MAXPROCESSES && i != n ==> SameJob(t, u, i)
  {
    if r == 0 {
      SpareFrame(t, k, n);
    }
    var calls := SlotCalls(t, Entry(t, n), row, n, junk);
    var u := DoAll(t, calls);
    WalkTurn(t, row, n, junk, k, r);
    DoAllInv(t, calls);
    forall i | 0 <= i < MAXPROCESSES && i != n ensures SameJob(t, u, i) {
      DoAllElsewhere(t, calls, i);
    }
    OneServed(t, u, k, r, n);
  }

  /** In t, reached from s, the first n have had their turn and the others are as they were. */
  predicate Served(s: Sim, t: Sim, k: nat, r: nat, n: nat)
    requires Shape(s)
  {
    Column(t, k, r, n) && forall i :: n <= i < MAXPROCESSES ==> SameJob(s, t, i)
  }

  lemma ServedStep(s: Sim, t: Sim, row: seq<int>, junk: int, k: nat, r: nat, n: nat, n': nat)
    requires Shape(s) && k < REACH && r < LEG && n < n' <= MAXPROCESSES && n' == n + 1 && GoodRow(row) && PageNo(junk)
    requires Served(s, t, k, r, n)
    ensures Served(s, DoAll(t, SlotCalls(t, Entry(s, n), row, n, junk)), k, r, n')
  {
    SameJobEntry(s, t, n);
    ColumnTurn(t, row, junk, k, r, n);
    var u := DoAll(t, SlotCalls(t, Entry(t, n), row, n, junk));
    forall i | n + 1 <= i < MAXPROCESSES ensures SameJob(s, u, i) {
      assert SameJob(s, t, i) && SameJob(t, u, i);
    }
  }

  lemma {:induction false} ColumnCalls(s: Sim, stamps: seq<seq<int>>, tick: int, junk: seq<int>, k: nat, r: nat, n: nat)
    requires k < REACH && r < LEG && n <= MAXPROCESSES && Column(s, k, r, 0)
    requires GoodView(View(s)) && GoodStamps(stamps) && GoodJunk(junk)
    ensures Served(s, DoAll(s, PageIt(s, View(s), stamps, tick, junk, n).0), k, r, n)
  {
    if n > 0 {
      var m := n - 1;
      ColumnCalls(s, stamps, tick, junk, k, r, m);
      var (calls, st) := PageIt(s, View(s), stamps, tick, junk, m);
      var t := DoAll(s, calls);
      var mine := SlotCalls(t, View(s)[m], st[m], m, junk[m]);
      assert DoAll(s, calls + mine) == DoAll(t, mine) by { DoAllAppend(s, calls, mine); }
      ServedStep(s, t, st[m], junk[m], k, r, m, n);
    }
  }

  // ---- One tick ---------------------------------------------------------------------

  /** A tick after r ticks of leg k. */
  predicate NextLeg(k: nat, r: nat, k': nat, r': nat) {
    if r + 1 == LEG then k' == k + 1 && r' == 0 else k' == k && r' == r + 1
  }

  lemma ColumnTicks(s: Sim, k: nat, r: nat, k': nat, r': nat)
    requires k < REACH && r < LEG && NextLeg(k, r, k', r') && Column(s, k, r, MAXPROCESSES)
    ensures Column(Ticked(s), k', r', 0)
  {
    var t := Ticked(s);
    TickedInv(s);
    forall i | 0 <= i < MAXPROCESSES ensures t.slots[i] == i && Arrives(t.queue[i], k', r') {
      TickedAt(s, i);
      WalkTicks(s.queue[i], k, r);
    }
    OthersHoldNothing(t);
  }

  lemma ColumnTurns(x: State, junk: seq<int>, k: nat, r: nat)
    requires GoodState(x) && GoodJunk(junk) && k < REACH && r < LEG && Column(Ticked(x.sim), k, r, 0)
    ensures Column(Turn(x, junk).sim, k, r, MAXPROCESSES)
  {
    ViewIsGood(Ticked(x.sim));
    ColumnCalls(Ticked(x.sim), x.stamps, x.tick, junk, k, r, MAXPROCESSES);
  }

  // ---- Start ------------------------------------------------------------------------

  /** The first jobs of the queue, one for each processor, are walkers. */
  predicate Walkers(queue: seq<Process>) {
    FreshQueue(queue) && forall i :: 0 <= i < MAXPROCESSES ==> Straight(queue[i])
  }

  lemma MarchBegins(s: Sim)
    requires Inv(s) && s.procs == MAXPROCESSES && Walkers(s.queue)
    requires forall i :: 0 <= i < MAXPROCESSES ==> s.slots[i] == i
    ensures Column(Ticked(s), 0, 0, 0)
  {
    var t := Ticked(s);
    TickedInv(s);
    forall i | 0 <= i < MAXPROCESSES ensures t.slots[i] == i && Arrives(t.queue[i], 0, 0) {
      TickedAt(s, i);
      assert Fresh(s.queue[i]);
      WalkBegins(s.queue[i]);
    }
    OthersHoldNothing(t);
  }

  /** A machine about to run walkers. */
  predicate DrawnUp(x: State) {
    && GoodState(x) && Inv(x.sim) && x.sim.procs == MAXPROCESSES && Walkers(x.sim.queue)
    && forall i :: 0 <= i < MAXPROCESSES ==> x.sim.slots[i] == i
  }

  /** The jobs before n are r ticks into leg k. */
  predicate AllWalk(t: Sim, k: nat, r: nat, n: nat) {
    n == 0 || (n <= |t.queue| && Walks(t.queue[n - 1], k, r) && AllWalk(t, k, r, n - 1))
  }

  lemma {:induction false} AllWalkAt(t: Sim, k: nat, r: nat, n: nat, i: nat)
    requires AllWalk(t, k, r, n) && i < n
    ensures i < |t.queue| && Walks(t.queue[i], k, r)
  {
    if i + 1 < n {
      AllWalkAt(t, k, r, n - 1, i);
    }
  }

  lemma {:induction false} AllWalkIf(t: Sim, k: nat, r: nat, n: nat)
    requires n <= |t.queue| && forall i :: 0 <= i < n ==> Walks(t.queue[i], k, r)
    ensures AllWalk(t, k, r, n)
  {
    if n > 0 {
      AllWalkIf(t, k, r, n - 1);
    }
  }

  /** In step: leg k, r ticks in. */
  predicate InStep(x: State, k: nat, r: nat) {
    GoodState(x) && InPlace(x.sim) && AllWalk(x.sim, k, r, x.sim.procs)
  }

  lemma InStepIf(x: State, k: nat, r: nat)
    requires GoodState(x) && Column(x.sim, k, r, MAXPROCESSES)
    ensures InStep(x, k, r)
  {
    AllWalkIf(x.sim, k, r, x.sim.procs);
  }

  lemma InStepColumn(x: State, k: nat, r: nat)
    requires InStep(x, k, r)
    ensures Column(x.sim, k, r, MAXPROCESSES)
  {
    forall i | 0 <= i < MAXPROCESSES ensures Walks(x.sim.queue[i], k, r) {
      AllWalkAt(x.sim, k, r, x.sim.procs, i);
    }
  }

  lemma FirstTurn(x: State, junk: seq<int>, y: State, k: nat, r: nat)
    requires DrawnUp(x) && Next(x, junk, y) && k == 0 && r == 0
    ensures InStep(y, k, r)
  {
    MarchBegins(x.sim);
    ColumnTurns(x, junk, k, r);
    InStepIf(y, k, r);
  }

  lemma NextTurn(x: State, junk: seq<int>, y: State, k: nat, r: nat, k': nat, r': nat)
    requires Next(x, junk, y) && r < LEG && InStep(x, k, r) && NextLeg(k, r, k', r') && k' < REACH
    ensures InStep(y, k', r')
  {
    InStepColumn(x, k, r);
    ColumnTicks(x.sim, k, r, k', r');
    ColumnTurns(x, junk, k', r');
    InStepIf(y, k', r');
  }

  lemma MarchOn(s: seq<State>, junks: seq<seq<int>>, m: nat, n: nat, k0: nat, r0: nat, k: nat, r: nat)
    requires Trace(s, junks) && m < n < |s| && n == m + 1 && k < REACH && r0 < LEG && NextLeg(k0, r0, k, r)
    requires InStep(s[m], k0, r0)
    ensures InStep(s[n], k, r)
  {
    NextIn(s, junks, m, n);
    NextTurn(s[m], junks[m], s[n], k0, r0, k, r);
  }

  lemma MarchStarts(s: seq<State>, junks: seq<seq<int>>, n: nat, k: nat, r: nat)
    requires Trace(s, junks) && DrawnUp(s[0]) && n < |s| && n == 1 && k == 0 && r == 0
    ensures InStep(s[n], k, r)
  {
    NextIn(s, junks, 0, n);
    FirstTurn(s[0], junks[0], s[n], k, r);
  }

  /** The leg that the walkers are in at tick n, and how far into it. */
  function LegOf(n: nat): (nat, nat) {
    if n <= 1 then (0, 0)
    else
      var (k, r) := LegOf(n - 1);
      if r + 1 == LEG then (k + 1, 0) else (k, r + 1)
  }

  lemma {:induction false} LegIs(n: nat)
    requires n > 0
    ensures var (k, r) := LegOf(n);
      n == LEG * k + r + 1 && r < LEG
  {
    if n > 1 {
      LegIs(n - 1);
    }
  }

  lemma LegNext(m: nat, n: nat) returns (k: nat, r: nat, k': nat, r': nat)
    requires 0 < m && n == m + 1 <= LEG * REACH
    ensures (k, r) == LegOf(m) && (k', r') == LegOf(n) && NextLeg(k, r, k', r') && k' < REACH && r < LEG
  {
    k, r, k', r' := LegOf(m).0, LegOf(m).1, LegOf(n).0, LegOf(n).1;
    LegIs(m);
    LegIs(n);
  }

  lemma LegAtLast(n: nat)
    requires n == LEG * REACH
    ensures LegOf(n) == (REACH - 1, LEG - 1)
  {
    LegIs(n);
  }

  predicate OnTime(x: State, n: nat) {
    InStep(x, LegOf(n).0, LegOf(n).1)
  }

  lemma OnTimeNext(s: seq<State>, junks: seq<seq<int>>, m: nat, n: nat)
    requires Trace(s, junks) && 0 < m < n < |s| && n == m + 1 <= LEG * REACH && OnTime(s[m], m)
    ensures OnTime(s[n], n)
  {
    var k, r, k', r' := LegNext(m, n);
    MarchOn(s, junks, m, n, k, r, k', r');
  }

  /** Until every frame is taken, the walkers are in step. */
  lemma {:induction false} Marched(s: seq<State>, junks: seq<seq<int>>, n: nat)
    requires Trace(s, junks) && DrawnUp(s[0]) && 0 < n < |s| && n <= LEG * REACH
    ensures OnTime(s[n], n)
  {
    if n == 1 {
      MarchStarts(s, junks, n, LegOf(n).0, LegOf(n).1);
    } else {
      var m := n - 1;
      Marched(s, junks, m);
      OnTimeNext(s, junks, m, n);
    }
  }
}
