/** LRU once the walkers have taken all the memory: they starve, and the pager runs out of pages to name. */
module Famine {
  import opened Params
  import opened Sums
  import opened Simulator
  import opened Invariants
  import opened Locality
  import opened Lru
  import opened Walking
  import opened Marching
  import opened Starved

  /** Stopped at its next page, with its first pages in or at most d ticks on their way out. */
  predicate Starving(q: Process, d: nat) {
    && GoodProcess(q) && q.active && q.pc == REACH * PAGESIZE
    && forall p :: 0 <= p < |q.pages| ==>
         if p < REACH then q.pages[p] <= 0 <= q.pages[p] + d else q.pages[p] == -PAGEWAIT - 1
  }

  /** The jobs before n do. */
  predicate FirstStarving(t: Sim, d: nat, n: nat) {
    n == 0 || (n <= |t.queue| && Starving(t.queue[n - 1], d) && FirstStarving(t, d, n - 1))
  }

  predicate Starve(t: Sim, d: nat) {
    InPlace(t) && FirstStarving(t, d, t.procs)
  }

  lemma {:induction false} FirstStarvingAt(t: Sim, d: nat, n: nat, i: nat)
    requires i < n && FirstStarving(t, d, n)
    ensures i < |t.queue| && Starving(t.queue[i], d)
  {
    if i < n - 1 {
      FirstStarvingAt(t, d, n - 1, i);
    }
  }

  lemma {:induction false} FirstStarvingIf(t: Sim, d: nat, n: nat)
    requires n <= |t.queue| && forall i :: 0 <= i < n ==> Starving(t.queue[i], d)
    ensures FirstStarving(t, d, n)
  {
    if n > 0 {
      FirstStarvingIf(t, d, n - 1);
    }
  }

  lemma StarvingHolds(q: Process, d: nat)
    requires d <= PAGEWAIT && Starving(q, d)
    ensures Held(q) == REACH && PcPage(q) == REACH && q.pages[REACH] < -PAGEWAIT
  {
    HeldPrefix(q.pages, REACH);
  }

  /** The first a jobs hold at least c frames each. */
  lemma {:induction false} HeldAtLeast(queue: seq<Process>, a: nat, c: nat)
    requires a <= |queue| && forall h :: 0 <= h < |queue| ==> GoodProcess(queue[h])
    requires forall h :: 0 <= h < a ==> Held(queue[h]) >= c
    ensures Sum(Held, queue) >= a * c
  {
    if queue != [] {
      HeldBounds(queue[0]);
      HeldAtLeast(queue[1..], if a == 0 then 0 else a - 1, c);
      assert a > 0 ==> a * c == (a - 1) * c + c;
    }
  }

  /** All the memory is held. */
  lemma NoFrames(t: Sim, d: nat)
    requires d <= PAGEWAIT && Starve(t, d)
    ensures t.avail == 0
  {
    forall i | 0 <= i < MAXPROCESSES ensures Held(t.queue[i]) >= REACH {
      FirstStarvingAt(t, d, t.procs, i);
      StarvingHolds(t.queue[i], d);
    }
    HeldAtLeast(t.queue, MAXPROCESSES, REACH);
  }

  // ---- Nothing helps --------------------------------------------------------------

  /** Whatever a pager calls, they starve on. */
  lemma StarveCall(t: Sim, c: Call, d: nat)
    requires 1 <= d <= PAGEWAIT && Starve(t, d)
    ensures Starve(Do(t, c).0, d)
  {
    var u := Do(t, c).0;
    NoFrames(t, d);
    DoInv(t, c);
    forall i | 0 <= i < MAXPROCESSES ensures Starving(u.queue[i], d) {
      FirstStarvingAt(t, d, t.procs, i);
      StarvingCall(t, c, i, d);
    }
    FirstStarvingIf(u, d, u.procs);
    OthersHoldNothing(u);
  }

  lemma StarvingCall(t: Sim, c: Call, i: int, d: nat)
    requires Inv(t) && t.avail == 0 && 0 <= i < MAXPROCESSES && t.slots[i] == i
    requires 1 <= d && Starving(t.queue[i], d)
    ensures Starving(Do(t, c).0.queue[i], d)
  {
    DoKeeps(t, c, i);
    if c.In? {
      assert Do(t, c).0 == t;
    }
  }

  lemma {:induction false} StarveCalls(t: Sim, calls: seq<Call>, d: nat)
    requires 1 <= d <= PAGEWAIT && Starve(t, d)
    ensures Starve(DoAll(t, calls), d)
    decreases |calls|
  {
    if calls != [] {
      StarveCall(t, calls[0], d);
      StarveCalls(Do(t, calls[0]).0, calls[1..], d);
    }
  }

  lemma StarvingTicks(q: Process, d: nat)
    requires d < PAGEWAIT && Starving(q, d)
    ensures StepProcess(q).1 && Starving(TickedProcess(q), d + 1) && Residents(TickedProcess(q)) == Residents(q)
  {
    StarvingHolds(q, d);
    var r := TickedProcess(q);
    assert r.pages == Aged(q.pages);
    assert forall p :: 0 <= p < MAXPROCPAGES ==> (r.pages[p] == 0 <==> q.pages[p] == 0);
  }

  lemma StarveTicks(s: Sim, d: nat, d': nat)
    requires d < d' <= PAGEWAIT && d' == d + 1 && Starve(s, d)
    ensures Starve(Ticked(s), d') && Residents(Ticked(s).queue[0]) == Residents(s.queue[0])
  {
    var t := Ticked(s);
    TickedInv(s);
    forall i | 0 <= i < MAXPROCESSES
      ensures t.slots[i] == i && Starving(t.queue[i], d') && Residents(t.queue[i]) == Residents(s.queue[i])
    {
      TickedAt(s, i);
      FirstStarvingAt(s, d, s.procs, i);
      StarvingTicks(s.queue[i], d);
    }
    FirstStarvingIf(t, d', t.procs);
    OthersHoldNothing(t);
  }

  // ---- How it comes to this -----------------------------------------------------------

  lemma StarvingBegins(q: Process)
    requires Arrives(q, REACH, 0)
    ensures Starving(q, 1) && |Residents(q)| == REACH
  {
    FirstPages(Residents(q), REACH);
  }

  lemma {:induction false} FirstPages(s: set<int>, n: nat)
    requires forall p :: p in s <==> 0 <= p < n
    ensures |s| == n
  {
    if n > 0 {
      FirstPages(s - {n - 1}, n - 1);
    } else {
      assert forall p :: p !in s;
    }
  }

  lemma StarveBegins(s: Sim, k: nat, r: nat)
    requires k == REACH - 1 && r == LEG - 1 && Column(s, k, r, MAXPROCESSES)
    ensures Starve(Ticked(s), 1) && |Residents(Ticked(s).queue[0])| == REACH
  {
    var t := Ticked(s);
    ColumnTicks(s, k, r, REACH, 0);
    forall i | 0 <= i < MAXPROCESSES ensures Starving(t.queue[i], 1) && |Residents(t.queue[i])| == REACH {
      assert Arrives(t.queue[i], REACH, 0);
      StarvingBegins(t.queue[i]);
    }
    FirstStarvingIf(t, 1, t.procs);
  }

  // ---- Five refused ticks --------------------------------------------------------------

  /** About to be refused, d ticks into the famine, with m of the first job's pages in. */
  predicate Doomed(x: State, m: nat, d: nat) {
    LruInv(x) && Starve(Ticked(x.sim), d) && |Residents(Ticked(x.sim).queue[0])| == m
  }

  lemma StarvingIsHungry(t: Sim, d: nat)
    requires 1 <= d <= PAGEWAIT && Starve(t, d)
    ensures Hungry(t, |Residents(t.queue[0])|)
  {
    NoFrames(t, d);
    FirstStarvingAt(t, d, t.procs, 0);
    StarvingHolds(t.queue[0], d);
    EntryOf(t, 0);
  }

  /** A turn costs a page, and the famine is a tick older. */
  lemma DoomedTurn(x: State, junk: seq<int>, m: nat, d: nat, m': nat, d': nat)
    requires GoodJunk(junk) && 1 <= d < d' <= PAGEWAIT && d' == d + 1 && m == m' + 1 && Doomed(x, m, d)
    ensures Doomed(Turn(x, junk), m', d')
  {
    var t := Ticked(x.sim);
    StarvingIsHungry(t, d);
    RefusedTick(x, junk, m);
    StarveCalls(t, NextCalls(x, junk), d);
    TurnInv(x, junk);
    StarveTicks(Turn(x, junk).sim, d, d');
  }

  /** The next eviction is of whatever page the junk says. */
  predicate NamesJunk(x: State, junk: seq<int>) {
    && GoodState(x) && GoodJunk(junk)
    && var t := Ticked(x.sim);
       Running(t, 0) && !HasResident(t.queue[t.slots[0]]) && Out(0, junk[0]) in NextCalls(x, junk)
  }

  /** With none left, the pager names its junk. */
  lemma JunkIsNamed(x: State, junk: seq<int>, d: nat)
    requires GoodJunk(junk) && 1 <= d <= PAGEWAIT && Doomed(x, 0, d)
    ensures NamesJunk(x, junk)
  {
    var t := Ticked(x.sim);
    StarvingIsHungry(t, d);
    RefusedTick(x, junk, 0);
    NoneIn(t.queue[0]);
  }

  lemma NoneIn(q: Process)
    requires GoodProcess(q) && |Residents(q)| == 0
    ensures !HasResident(q)
  {
    forall p | 0 <= p < |q.pages| ensures q.pages[p] != 0 {
      assert p !in Residents(q);
    }
  }

  // ---- From the start ------------------------------------------------------------------

  /** Tick at which the walkers stop. */
  const STOP := LEG * REACH

  lemma FamineBegins(x: State, k: nat, r: nat)
    requires LruInv(x) && k == REACH - 1 && r == LEG - 1 && InStep(x, k, r)
    ensures Doomed(x, REACH, 1)
  {
    InStepColumn(x, k, r);
    StarveBegins(x.sim, k, r);
  }

  lemma MarchEnds(s: seq<State>, junks: seq<seq<int>>, n: nat)
    requires Trace(s, junks) && DrawnUp(s[0]) && LruInv(s[0]) && n == STOP < |s|
    ensures Doomed(s[n], REACH, 1)
  {
    Marched(s, junks, n);
    TraceInv(s, junks, n);
    LegAtLast(n);
    FamineBegins(s[n], LegOf(n).0, LegOf(n).1);
  }

  lemma {:induction false} TraceInv(s: seq<State>, junks: seq<seq<int>>, n: nat)
    requires Trace(s, junks) && LruInv(s[0]) && n < |s|
    ensures LruInv(s[n])
  {
    if n > 0 {
      var m := n - 1;
      TraceInv(s, junks, m);
      NextIn(s, junks, m, n);
      TurnInv(s[m], junks[m]);
    }
  }

  lemma DoomedNext(a: State, j: seq<int>, b: State, m: nat, d: nat, m': nat, d': nat)
    requires Next(a, j, b) && 1 <= d < d' <= PAGEWAIT && d' == d + 1 && m == m' + 1 && Doomed(a, m, d)
    ensures Doomed(b, m', d')
  {
    DoomedTurn(a, j, m, d, m', d');
  }

  /** Each tick costs a page, and there are five. */
  lemma FiveTicks(s: seq<State>, j: seq<seq<int>>, a: nat, b: nat, c: nat, d: nat, e: nat, f: nat, junk: seq<int>)
    requires a < |s| == |j| + 1 && f == e + 1 == d + 2 == c + 3 == b + 4 == a + 5 < |s| && GoodJunk(junk)
    requires Next(s[a], j[a], s[b]) && Next(s[b], j[b], s[c]) && Next(s[c], j[c], s[d])
    requires Next(s[d], j[d], s[e]) && Next(s[e], j[e], s[f])
    requires Doomed(s[a], 5, 1)
    ensures NamesJunk(s[f], junk)
  {
    DoomedNext(s[a], j[a], s[b], 5, 1, 4, 2);
    DoomedNext(s[b], j[b], s[c], 4, 2, 3, 3);
    DoomedNext(s[c], j[c], s[d], 3, 3, 2, 4);
    DoomedNext(s[d], j[d], s[e], 2, 4, 1, 5);
    DoomedNext(s[e], j[e], s[f], 1, 5, 0, 6);
    JunkIsNamed(s[f], junk, 6);
  }

  lemma FamineEnds(s: seq<State>, j: seq<seq<int>>, a: nat, b: nat, c: nat, d: nat, e: nat, f: nat, junk: seq<int>)
    requires a < |s| == |j| + 1 && f == e + 1 == d + 2 == c + 3 == b + 4 == a + 5 < |s| && GoodJunk(junk)
    requires Trace(s, j)
    requires Doomed(s[a], 5, 1)
    ensures NamesJunk(s[f], junk)
  {
    NextIn(s, j, a, b);
    NextIn(s, j, b, c);
    NextIn(s, j, c, d);
    NextIn(s, j, d, e);
    NextIn(s, j, e, f);
    FiveTicks(s, j, a, b, c, d, e, f, junk);
  }

  /** Walkers bring LRU to a refused turn for a processor with no page in, and to naming the junk in its variable. */
  lemma WalkersStarve(x: State, junks: seq<seq<int>>, junk: seq<int>)
    requires DrawnUp(x) && LruInv(x) && |junks| == STOP + REACH && GoodJunk(junk)
    requires forall j :: j in junks ==> GoodJunk(j)
    ensures NamesJunk(Turns(x, junks), junk)
  {
    var s := TraceOf(x, junks);
    var n, last := STOP, STOP + REACH;
    MarchEnds(s, junks, n);
    FamineEnds(s, junks, n, n + 1, n + 2, n + 3, n + 4, last, junk);
  }
}
