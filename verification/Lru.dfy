/** The least-recently-used pager; junk is what the variable its search leaves uninitialised happens to hold. */
module Lru {
  import opened Params
  import opened Simulator
  import opened Invariants
  import opened Locality

  // ---- One call of the pager --------------------------------------------

  predicate GoodEntry(e: Pentry) {
    |e.pages| == MAXPROCPAGES && 0 <= e.pc < MAXPC
  }

  predicate GoodRow(row: seq<int>) {
    |row| == MAXPROCPAGES
  }

  predicate GoodJunk(junk: seq<int>) {
    |junk| == MAXPROCESSES && forall i :: 0 <= i < |junk| ==> 0 <= junk[i] < MAXPROCPAGES
  }

  /** The page that the program counter of e needs. */
  function Needs(e: Pentry): (p: int)
    requires GoodEntry(e)
    ensures 0 <= p < MAXPROCPAGES
  {
    e.pc / PAGESIZE
  }

  /** The first resident page from k on, or the junk the variable held. */
  function FirstResident(pages: seq<bool>, k: nat, junk: int): (r: int)
    requires |pages| == MAXPROCPAGES
    ensures (exists j :: k <= j < MAXPROCPAGES && pages[j]) ==> PageNo(r) && pages[r]
    ensures !(exists j :: k <= j < MAXPROCPAGES && pages[j]) ==> r == junk
    decreases MAXPROCPAGES - k
  {
    if k >= MAXPROCPAGES then junk else if pages[k] then k else FirstResident(pages, k + 1, junk)
  }

  /** The search for the smallest stamp among the first n resident pages, starting from best. */
  function Oldest(pages: seq<bool>, row: seq<int>, best: int, n: nat): (r: int)
    requires |pages| == MAXPROCPAGES && GoodRow(row) && n <= MAXPROCPAGES
    requires PageNo(best) || forall j :: 0 <= j < MAXPROCPAGES ==> !pages[j]
    ensures r == best || (PageNo(r) && pages[r])
    ensures PageNo(best) ==> row[r] <= row[best] && forall j :: 0 <= j < n && pages[j] ==> row[r] <= row[j]
  {
    if n == 0 then best
    else
      var b := Oldest(pages, row, best, n - 1);
      if pages[n - 1] && row[n - 1] < row[b] then n - 1 else b
  }

  /** The page that the two searches end at; junk is what their variable held, a page number or not. */
  function Victim(pages: seq<bool>, row: seq<int>, junk: int): (r: int)
    requires |pages| == MAXPROCPAGES && GoodRow(row)
    ensures (exists j :: 0 <= j < MAXPROCPAGES && pages[j]) ==>
              PageNo(r) && pages[r] && forall j :: 0 <= j < MAXPROCPAGES && pages[j] ==> row[r] <= row[j]
    ensures !(exists j :: 0 <= j < MAXPROCPAGES && pages[j]) ==> r == junk
  {
    Oldest(pages, row, FirstResident(pages, 0, junk), MAXPROCPAGES)
  }

  /** Whether processor i's turn asks for a page and cannot have it. */
  predicate Evicts(s: Sim, e: Pentry, i: int)
    requires Shape(s) && GoodEntry(e)
  {
    e.active && !e.pages[Needs(e)] && !PageIn(s, i, Needs(e)).1
  }

  /** The calls of processor i's turn, in machine s. */
  function SlotCalls(s: Sim, e: Pentry, row: seq<int>, i: int, junk: int): seq<Call>
    requires Shape(s) && GoodEntry(e) && GoodRow(row) && 0 <= junk < MAXPROCPAGES
  {
    if !e.active || e.pages[Needs(e)] then []
    else if Evicts(s, e, i) then [In(i, Needs(e)), Out(i, Victim(e.pages, row, junk))]
    else [In(i, Needs(e))]
  }

  /** The stamps of processor i after its turn. */
  function SlotRow(s: Sim, e: Pentry, row: seq<int>, i: int, junk: int, tick: int): (r: seq<int>)
    requires Shape(s) && GoodEntry(e) && GoodRow(row) && 0 <= junk < MAXPROCPAGES
    ensures GoodRow(r)
  {
    if !e.active then row
    else (if Evicts(s, e, i) then row[Victim(e.pages, row, junk) := 0] else row)[Needs(e) := tick]
  }

  predicate GoodStamps(stamps: seq<seq<int>>) {
    |stamps| == MAXPROCESSES && forall i :: 0 <= i < |stamps| ==> GoodRow(stamps[i])
  }

  predicate GoodView(view: seq<Pentry>) {
    |view| == MAXPROCESSES && forall i :: 0 <= i < |view| ==> GoodEntry(view[i])
  }

  /** The calls and the stamps after the turns of processors 0..n, called in machine s. */
  function PageIt(s: Sim, view: seq<Pentry>, stamps: seq<seq<int>>, tick: int, junk: seq<int>, n: nat)
    : (r: (seq<Call>, seq<seq<int>>))
    requires Shape(s) && GoodView(view) && GoodStamps(stamps) && GoodJunk(junk) && n <= MAXPROCESSES
    ensures GoodStamps(r.1)
  {
    if n == 0 then ([], stamps)
    else
      var (calls, st) := PageIt(s, view, stamps, tick, junk, n - 1);
      var i := n - 1;
      var t := DoAll(s, calls);
      (calls + SlotCalls(t, view[i], st[i], i, junk[i]),
       st[i := SlotRow(t, view[i], st[i], i, junk[i], tick)])
  }

  // ---- The pager in the machine -------------------------------------------

  /** The pages that the program counters were seen in, -1 for an idle processor. */
  function Seen(view: seq<Pentry>): (r: seq<int>)
    requires GoodView(view)
    ensures |r| == MAXPROCESSES
  {
    seq(MAXPROCESSES, i requires 0 <= i < MAXPROCESSES => if view[i].active then Needs(view[i]) else -1)
  }

  /** Reference history: the last time, counting from 1, that processor i was seen in page p; 0 for never. */
  function LastSeen(seen: seq<seq<int>>, i: int, p: int): (t: nat)
    requires 0 <= i < MAXPROCESSES && forall v :: v in seen ==> |v| == MAXPROCESSES
    ensures t <= |seen|
  {
    if seen == [] then 0
    else
      var n := |seen| - 1;
      if seen[n][i] == p then n + 1 else LastSeen(seen[..n], i, p)
  }

  /** The last reference is a reference, and there is none after it. */
  lemma {:induction false} LastSeenIsLast(seen: seq<seq<int>>, i: int, p: int)
    requires 0 <= i < MAXPROCESSES && forall v :: v in seen ==> |v| == MAXPROCESSES
    ensures var t := LastSeen(seen, i, p);
      && (t > 0 ==> seen[t - 1][i] == p)
      && forall u :: t <= u < |seen| ==> seen[u][i] != p
  {
    if seen != [] {
      LastSeenIsLast(seen[..|seen| - 1], i, p);
    }
  }

  lemma LastSeenDistinct(seen: seq<seq<int>>, i: int, p: int, r: int)
    requires 0 <= i < MAXPROCESSES && forall v :: v in seen ==> |v| == MAXPROCESSES
    requires p != r && LastSeen(seen, i, p) > 0
    ensures LastSeen(seen, i, p) != LastSeen(seen, i, r)
  {
    LastSeenIsLast(seen, i, p);
    LastSeenIsLast(seen, i, r);
  }

  /** A machine under this pager: stamps are the pager's, seen and script are histories. */
  datatype State = State(sim: Sim, tick: int, stamps: seq<seq<int>>, seen: seq<seq<int>>, script: seq<seq<Call>>)

  predicate GoodState(x: State) {
    && Shape(x.sim) && GoodStamps(x.stamps)
    && forall v :: v in x.seen ==> |v| == MAXPROCESSES
  }

  function Start(s: Sim): (x: State)
    requires Shape(s)
    ensures GoodState(x)
  {
    State(s, 1, seq(MAXPROCESSES, _ => seq(MAXPROCPAGES, _ => 0)), [], [])
  }

  lemma ViewIsGood(s: Sim)
    requires Shape(s)
    ensures GoodView(View(s))
  {
  }

  function Turn(x: State, junk: seq<int>): (r: State)
    requires GoodState(x) && GoodJunk(junk)
    ensures GoodState(r)
  {
    var t := Ticked(x.sim);
    ViewIsGood(t);
    var (calls, stamps) := PageIt(t, View(t), x.stamps, x.tick, junk, MAXPROCESSES);
    State(DoAll(t, calls), x.tick + 1, stamps, x.seen + [Seen(View(t))], x.script + [calls])
  }

  /** Any number of ticks, with any junk in the uninitialised variable. */
  function Turns(x: State, junks: seq<seq<int>>): (r: State)
    requires GoodState(x) && forall j :: j in junks ==> GoodJunk(j)
    ensures GoodState(r)
    decreases |junks|
  {
    if junks == [] then x
    else
      var n := |junks| - 1;
      Turn(Turns(x, junks[..n]), junks[n])
  }

  lemma TurnsNext(x: State, junks: seq<seq<int>>, n: nat)
    requires GoodState(x) && (forall j :: j in junks ==> GoodJunk(j)) && n < |junks|
    ensures (forall j :: j in junks[..n] ==> GoodJunk(j)) && GoodJunk(junks[n])
    ensures Turns(x, junks[..n + 1]) == Turn(Turns(x, junks[..n]), junks[n])
  {
    assert junks[..n + 1][..n] == junks[..n];
  }

  /** State y is a tick after state x. */
  predicate Next(x: State, junk: seq<int>, y: State) {
    GoodState(x) && GoodJunk(junk) && y == Turn(x, junk)
  }

  /** Step n of a trace. */
  predicate Steps(states: seq<State>, junks: seq<seq<int>>, n: int)
    requires 0 <= n < |states| - 1 && n < |junks|
  {
    Next(states[n], junks[n], states[n + 1])
  }

  predicate Trace(states: seq<State>, junks: seq<seq<int>>) {
    |states| == |junks| + 1 && forall n :: 0 <= n < |junks| ==> Steps(states, junks, n)
  }

  lemma NextIn(states: seq<State>, junks: seq<seq<int>>, m: nat, n: nat)
    requires Trace(states, junks) && m < n < |states| && n == m + 1
    ensures Next(states[m], junks[m], states[n])
  {
    assert Steps(states, junks, m);
  }

  /** The states that a run goes through. */
  lemma TraceOf(x: State, junks: seq<seq<int>>) returns (states: seq<State>)
    requires GoodState(x) && forall j :: j in junks ==> GoodJunk(j)
    ensures Trace(states, junks) && states[0] == x && states[|junks|] == Turns(x, junks)
  {
    var last := |junks|;
    states := seq(last + 1, n requires 0 <= n <= last => Turns(x, junks[..n]));
    forall n | 0 <= n < last ensures Steps(states, junks, n) {
      TurnsNext(x, junks, n);
    }
    assert junks[..last] == junks;
  }

  function LruRun(s: Sim, junks: seq<seq<int>>): (x: State)
    requires Shape(s) && forall j :: j in junks ==> GoodJunk(j)
    ensures GoodState(x)
  {
    Turns(Start(s), junks)
  }

  // ---- The invariant ------------------------------------------------------

  /** A process under LRU: only the needed page may be coming, and what is in or coming is stamped exactly. */
  predicate Exact(q: Process, row: seq<int>, seen: seq<seq<int>>, i: int)
    requires GoodProcess(q) && GoodRow(row)
    requires 0 <= i < MAXPROCESSES && forall v :: v in seen ==> |v| == MAXPROCESSES
  {
    && (forall p :: 0 <= p < MAXPROCPAGES && q.pages[p] > 0 ==> p == PcPage(q))
    && (forall p :: 0 <= p < MAXPROCPAGES && q.pages[p] >= 0 ==> row[p] == LastSeen(seen, i, p) > 0)
  }

  /** Processor i is idle or exact. */
  predicate SlotExact(s: Sim, stamps: seq<seq<int>>, seen: seq<seq<int>>, i: int)
    requires Shape(s) && GoodStamps(stamps) && 0 <= i < MAXPROCESSES
    requires forall v :: v in seen ==> |v| == MAXPROCESSES
  {
    s.slots[i] < 0 || Exact(s.queue[s.slots[i]], stamps[i], seen, i)
  }

  predicate LruInv(x: State) {
    && GoodState(x) && Inv(x.sim)
    && x.tick == |x.seen| + 1
    && forall i :: 0 <= i < MAXPROCESSES ==> SlotExact(x.sim, x.stamps, x.seen, i)
  }

  lemma TickedExact(x: State, i: int)
    requires LruInv(x) && 0 <= i < MAXPROCESSES
    ensures Inv(Ticked(x.sim)) && SlotExact(Ticked(x.sim), x.stamps, x.seen, i)
  {
    TickedInv(x.sim);
    assert SlotExact(x.sim, x.stamps, x.seen, i);
    assert SlotOk(Ticked(x.sim), i);
    if i < x.sim.procs {
      TickedAt(x.sim, i);
      var k := x.sim.slots[i];
      if k >= 0 && StepProcess(x.sim.queue[k]).1 {
        TickedProcessExact(x.sim.queue[k], x.stamps[i], x.seen, i);
      }
    }
  }

  lemma TickedProcessExact(q: Process, row: seq<int>, seen: seq<seq<int>>, i: int)
    requires ProcOk(q) && GoodRow(row) && 0 <= i < MAXPROCESSES
    requires forall v :: v in seen ==> |v| == MAXPROCESSES
    requires Exact(q, row, seen, i)
    ensures Exact(TickedProcess(q), row, seen, i)
  {
    StepProcessOk(q);
    var r := TickedProcess(q);
    if !q.active || q.pages[PcPage(q)] != 0 {
      assert PcPage(r) == PcPage(q);
    }
    forall p | 0 <= p < MAXPROCPAGES ensures r.pages[p] == AgeCell(q.pages[p]) {}
  }

  /** Seeing one more view moves only the page that was seen. */
  lemma LastSeenSnoc(seen: seq<seq<int>>, v: seq<int>, i: int, p: int)
    requires 0 <= i < MAXPROCESSES && |v| == MAXPROCESSES
    requires forall u :: u in seen ==> |u| == MAXPROCESSES
    ensures LastSeen(seen + [v], i, p) == if v[i] == p then |seen| + 1 else LastSeen(seen, i, p)
  {
    assert (seen + [v])[..|seen|] == seen;
  }

  /** The cells of processor i's process after its turn. */
  function TurnPages(s: Sim, e: Pentry, row: seq<int>, i: int, junk: int, pages: seq<int>): (r: seq<int>)
    requires Shape(s) && GoodEntry(e) && GoodRow(row) && 0 <= junk < MAXPROCPAGES && |pages| == MAXPROCPAGES
    ensures |r| == MAXPROCPAGES
  {
    if !e.active || e.pages[Needs(e)] then pages
    else if !Evicts(s, e, i) then (if pages[Needs(e)] >= 0 then pages else pages[Needs(e) := PAGEWAIT])
    else
      var l := Victim(e.pages, row, junk);
      if pages[l] == 0 then pages[l := -1] else pages
  }

  /** A turn changes the needed page's cell, to coming, or a resident victim's, to going, and nothing else. */
  lemma SlotEffect(s: Sim, row: seq<int>, i: int, junk: int)
    requires Inv(s) && GoodRow(row) && 0 <= i < MAXPROCESSES && s.slots[i] >= 0 && 0 <= junk < MAXPROCPAGES
    ensures var e := Entry(s, i);
      var k := s.slots[i];
      var q := s.queue[k];
      DoAll(s, SlotCalls(s, e, row, i, junk)).queue[k] == q.(pages := TurnPages(s, e, row, i, junk, q.pages))
  {
    var e := Entry(s, i);
    var q := s.queue[s.slots[i]];
    EntryOf(s, i);
    var need := Needs(e);
    if e.pages[need] {
      assert SlotCalls(s, e, row, i, junk) == [];
      assert q.(pages := q.pages) == q;
    } else {
      InEffect(s, i, need);
      if Evicts(s, e, i) {
        var l := Victim(e.pages, row, junk);
        OutEffect(s, i, l);
        DoTwo(s, In(i, need), Out(i, l));
      } else {
        DoOne(s, In(i, need));
      }
    }
  }

  lemma TurnPagesExact(s: Sim, row: seq<int>, seen: seq<seq<int>>, i: int, junk: int, v: seq<int>)
    requires Inv(s) && GoodRow(row) && 0 <= i < MAXPROCESSES && s.slots[i] >= 0 && 0 <= junk < MAXPROCPAGES
    requires forall u :: u in seen ==> |u| == MAXPROCESSES
    requires |v| == MAXPROCESSES && v[i] == Needs(Entry(s, i))
    requires Exact(s.queue[s.slots[i]], row, seen, i)
    ensures var e := Entry(s, i);
      var q := s.queue[s.slots[i]];
      Exact(q.(pages := TurnPages(s, e, row, i, junk, q.pages)), SlotRow(s, e, row, i, junk, |seen| + 1), seen + [v], i)
  {
    var e := Entry(s, i);
    var q := s.queue[s.slots[i]];
    EntryOf(s, i);
    var now := |seen| + 1;
    var pages := TurnPages(s, e, row, i, junk, q.pages);
    var row' := SlotRow(s, e, row, i, junk, now);
    forall p | 0 <= p < MAXPROCPAGES && pages[p] >= 0
      ensures row'[p] == LastSeen(seen + [v], i, p) > 0
    {
      LastSeenSnoc(seen, v, i, p);
      TurnPage(s, e, row, i, junk, q.pages, now, p);
    }
  }

  /** A page that is in or coming after the turn, and is not the needed one, keeps its cell and its stamp. */
  lemma TurnPage(s: Sim, e: Pentry, row: seq<int>, i: int, junk: int, pages: seq<int>, now: int, p: int)
    requires Shape(s) && GoodEntry(e) && GoodRow(row) && 0 <= junk < MAXPROCPAGES && |pages| == MAXPROCPAGES
    requires e.active && 0 <= p < MAXPROCPAGES && forall j :: 0 <= j < MAXPROCPAGES ==> e.pages[j] == (pages[j] == 0)
    requires (pages[p] > 0 ==> p == Needs(e)) && TurnPages(s, e, row, i, junk, pages)[p] >= 0
    ensures SlotRow(s, e, row, i, junk, now)[p] == if p == Needs(e) then now else row[p]
    ensures p != Needs(e) ==> pages[p] == TurnPages(s, e, row, i, junk, pages)[p]
  {
  }

  /** Processor i's turn keeps its process exact. */
  lemma TurnExact(s: Sim, stamps: seq<seq<int>>, seen: seq<seq<int>>, i: int, junk: int, v: seq<int>)
    requires Inv(s) && GoodStamps(stamps) && 0 <= i < MAXPROCESSES && 0 <= junk < MAXPROCPAGES
    requires forall u :: u in seen ==> |u| == MAXPROCESSES
    requires |v| == MAXPROCESSES && v[i] == (if Entry(s, i).active then Needs(Entry(s, i)) else -1)
    requires SlotExact(s, stamps, seen, i)
    ensures var e := Entry(s, i);
      var row := SlotRow(s, e, stamps[i], i, junk, |seen| + 1);
      SlotExact(DoAll(s, SlotCalls(s, e, stamps[i], i, junk)), stamps[i := row], seen + [v], i)
  {
    assert SlotOk(s, i);
    if s.slots[i] >= 0 {
      SlotEffect(s, stamps[i], i, junk);
      TurnPagesExact(s, stamps[i], seen, i, junk, v);
    }
  }

  /** In t, reached from s, processors 0..n have had their turn and the others have not. */
  predicate Progress(s: Sim, t: Sim, stamps: seq<seq<int>>, st: seq<seq<int>>, seen: seq<seq<int>>, v: seq<int>, n: nat)
    requires Shape(s) && GoodStamps(stamps) && n <= MAXPROCESSES
    requires |v| == MAXPROCESSES && forall u :: u in seen ==> |u| == MAXPROCESSES
  {
    && Inv(t) && GoodStamps(st)
    && (forall i :: 0 <= i < n ==> SlotExact(t, st, seen + [v], i))
    && (forall i :: n <= i < MAXPROCESSES ==> SameJob(s, t, i) && st[i] == stamps[i])
  }

  lemma SameJobExact(s: Sim, t: Sim, stamps: seq<seq<int>>, st: seq<seq<int>>, seen: seq<seq<int>>, i: int)
    requires Shape(s) && Shape(t) && GoodStamps(stamps) && GoodStamps(st) && 0 <= i < MAXPROCESSES
    requires forall u :: u in seen ==> |u| == MAXPROCESSES
    requires SameJob(s, t, i) && st[i] == stamps[i] && SlotExact(s, stamps, seen, i)
    ensures SlotExact(t, st, seen, i)
  {
  }

  lemma ProgressStep(s: Sim, t: Sim, stamps: seq<seq<int>>, st: seq<seq<int>>, seen: seq<seq<int>>, v: seq<int>,
                     n: nat, junk: int)
    requires Inv(s) && GoodStamps(stamps) && n < MAXPROCESSES && 0 <= junk < MAXPROCPAGES
    requires |v| == MAXPROCESSES && forall u :: u in seen ==> |u| == MAXPROCESSES
    requires v[n] == (if Entry(s, n).active then Needs(Entry(s, n)) else -1)
    requires SlotExact(s, stamps, seen, n)
    requires Progress(s, t, stamps, st, seen, v, n)
    ensures var e := Entry(s, n);
      Progress(s, DoAll(t, SlotCalls(t, e, st[n], n, junk)), stamps,
               st[n := SlotRow(t, e, st[n], n, junk, |seen| + 1)], seen, v, n + 1)
  {
    assert SameJob(s, t, n);
    SameJobEntry(s, t, n);
    SameJobExact(s, t, stamps, st, seen, n);
    TurnExact(t, st, seen, n, junk, v);
    var mine := SlotCalls(t, Entry(s, n), st[n], n, junk);
    DoAllInv(t, mine);
    forall j | 0 <= j < MAXPROCESSES && j != n ensures SameJob(t, DoAll(t, mine), j) {
      DoAllElsewhere(t, mine, j);
    }
    var row := SlotRow(t, Entry(s, n), st[n], n, junk, |seen| + 1);
    ProgressFrame(s, t, DoAll(t, mine), stamps, st, st[n := row], seen, v, n);
  }

  lemma ProgressFrame(s: Sim, t: Sim, u: Sim, stamps: seq<seq<int>>, st: seq<seq<int>>, st': seq<seq<int>>,
                      seen: seq<seq<int>>, v: seq<int>, n: nat)
    requires Inv(s) && GoodStamps(stamps) && n < MAXPROCESSES && Inv(u) && GoodStamps(st')
    requires |v| == MAXPROCESSES && forall u :: u in seen ==> |u| == MAXPROCESSES
    requires Progress(s, t, stamps, st, seen, v, n)
    requires forall j :: 0 <= j < MAXPROCESSES && j != n ==> SameJob(t, u, j) && st'[j] == st[j]
    requires SlotExact(u, st', seen + [v], n)
    ensures Progress(s, u, stamps, st', seen, v, n + 1)
  {
    forall j | 0 <= j < n ensures SlotExact(u, st', seen + [v], j) {
      SameJobExact(t, u, st, st', seen + [v], j);
    }
    forall j | n < j < MAXPROCESSES ensures SameJob(s, u, j) {
      assert SameJob(s, t, j) && SameJob(t, u, j);
    }
  }

  /** The turns of processors 0..n leave those processors exact for the longer history, and the others alone. */
  lemma {:induction false} PageItExact(s: Sim, stamps: seq<seq<int>>, seen: seq<seq<int>>, junk: seq<int>, n: nat)
    requires Inv(s) && GoodStamps(stamps) && GoodJunk(junk) && n <= MAXPROCESSES
    requires GoodView(View(s)) && forall u :: u in seen ==> |u| == MAXPROCESSES
    requires forall i :: 0 <= i < MAXPROCESSES ==> SlotExact(s, stamps, seen, i)
    ensures var (calls, st) := PageIt(s, View(s), stamps, |seen| + 1, junk, n);
      Progress(s, DoAll(s, calls), stamps, st, seen, Seen(View(s)), n)
  {
    if n > 0 {
      var m := n - 1;
      PageItExact(s, stamps, seen, junk, m);
      var (calls, st) := PageIt(s, View(s), stamps, |seen| + 1, junk, m);
      var t := DoAll(s, calls);
      var mine := SlotCalls(t, View(s)[m], st[m], m, junk[m]);
      assert DoAll(s, calls + mine) == DoAll(t, mine) by { DoAllAppend(s, calls, mine); }
      ProgressStep(s, t, stamps, st, seen, Seen(View(s)), m, junk[m]);
    }
  }

  lemma TurnInv(x: State, junk: seq<int>)
    requires LruInv(x) && GoodJunk(junk)
    ensures LruInv(Turn(x, junk))
  {
    var t := Ticked(x.sim);
    forall i | 0 <= i < MAXPROCESSES ensures Inv(t) && SlotExact(t, x.stamps, x.seen, i) {
      TickedExact(x, i);
    }
    assert SlotExact(t, x.stamps, x.seen, 0);
    ViewIsGood(t);
    PageItExact(t, x.stamps, x.seen, junk, MAXPROCESSES);
    var r := Turn(x, junk);
    assert Progress(t, r.sim, x.stamps, r.stamps, x.seen, Seen(View(t)), MAXPROCESSES);
  }

  lemma StartInv(s: Sim)
    requires Inv(s) && forall i :: 0 <= i < MAXPROCESSES && s.slots[i] >= 0 ==> AllOut(s.queue[s.slots[i]])
    ensures LruInv(Start(s))
  {
  }

  lemma {:induction false} TurnsInv(x: State, junks: seq<seq<int>>)
    requires LruInv(x) && forall j :: j in junks ==> GoodJunk(j)
    ensures LruInv(Turns(x, junks))
    decreases |junks|
  {
    if junks != [] {
      var n := |junks| - 1;
      TurnsInv(x, junks[..n]);
      TurnInv(Turns(x, junks[..n]), junks[n]);
    }
  }

  lemma LruRunInv(procs: int, queue: seq<Process>, junks: seq<seq<int>>)
    requires 1 <= procs <= MAXPROCESSES && FreshQueue(queue) && forall j :: j in junks ==> GoodJunk(j)
    ensures LruInv(LruRun(Boot(procs, queue), junks))
  {
    BootInv(procs, queue);
    StartInv(Boot(procs, queue));
    TurnsInv(Start(Boot(procs, queue)), junks);
  }

  /** The calls that the pager makes next in state x. */
  function NextCalls(x: State, junk: seq<int>): seq<Call>
    requires GoodState(x) && GoodJunk(junk)
  {
    ViewIsGood(Ticked(x.sim));
    PageIt(Ticked(x.sim), View(Ticked(x.sim)), x.stamps, x.tick, junk, MAXPROCESSES).0
  }

  /** A run under this pager is one of the runs that any pager may cause. */
  lemma {:induction false} LruRunIsRun(s: Sim, junks: seq<seq<int>>)
    requires Shape(s) && forall j :: j in junks ==> GoodJunk(j)
    ensures var x := LruRun(s, junks);
      x.sim == Run(s, x.script) && |x.script| == |junks|
    decreases |junks|
  {
    if junks != [] {
      var n := |junks| - 1;
      LruRunIsRun(s, junks[..n]);
      var x := LruRun(s, junks[..n]);
      RunSnoc(s, x.script, NextCalls(x, junks[n]));
    }
  }

  // ---- The theorems -------------------------------------------------------

  /**
   LRU stamps are exact on every run: a resident page's stamp is the last time its processor's program
   counter was seen in it, so it is positive and no two resident pages of a processor share one.
   */
  lemma StampsAreLastReferences(procs: int, queue: seq<Process>, junks: seq<seq<int>>, i: int)
    requires 1 <= procs <= MAXPROCESSES && FreshQueue(queue) && 0 <= i < MAXPROCESSES
    requires forall j :: j in junks ==> GoodJunk(j)
    ensures var x := LruRun(Boot(procs, queue), junks);
      Running(x.sim, i) ==>
        && (forall p :: 0 <= p < MAXPROCPAGES && Cell(x.sim, i, p) == 0 ==>
              x.stamps[i][p] == LastSeen(x.seen, i, p) > 0)
        && (forall p, r :: 0 <= p < r < MAXPROCPAGES && Cell(x.sim, i, p) == 0 && Cell(x.sim, i, r) == 0 ==>
              x.stamps[i][p] != x.stamps[i][r])
  {
    LruRunInv(procs, queue, junks);
    var x := LruRun(Boot(procs, queue), junks);
    assert SlotExact(x.sim, x.stamps, x.seen, i);
    if Running(x.sim, i) {
      forall p, r | 0 <= p < r < MAXPROCPAGES && Cell(x.sim, i, p) == 0 && Cell(x.sim, i, r) == 0
        ensures x.stamps[i][p] != x.stamps[i][r]
      {
        LastSeenDistinct(x.seen, i, p, r);
      }
    }
  }

  /** Every page-out that PageIt asks for is the victim of an active processor that lacks its needed page. */
  lemma {:induction false} OutsAreVictims(s: Sim, view: seq<Pentry>, stamps: seq<seq<int>>, tick: int,
                                          junk: seq<int>, n: nat, c: Call)
    requires Shape(s) && GoodView(view) && GoodStamps(stamps) && GoodJunk(junk) && n <= MAXPROCESSES
    requires c.Out? && c in PageIt(s, view, stamps, tick, junk, n).0
    ensures 0 <= c.slot < n
    ensures var e := view[c.slot];
      e.active && !e.pages[Needs(e)] && c.page == Victim(e.pages, stamps[c.slot], junk[c.slot])
  {
    var m := n - 1;
    if c in PageIt(s, view, stamps, tick, junk, m).0 {
      OutsAreVictims(s, view, stamps, tick, junk, m, c);
    } else {
      LaterRowsUntouched(s, view, stamps, tick, junk, m, m);
    }
  }

  lemma {:induction false} LaterRowsUntouched(s: Sim, view: seq<Pentry>, stamps: seq<seq<int>>, tick: int,
                                              junk: seq<int>, n: nat, i: int)
    requires Shape(s) && GoodView(view) && GoodStamps(stamps) && GoodJunk(junk) && n <= i < MAXPROCESSES
    ensures PageIt(s, view, stamps, tick, junk, n).1[i] == stamps[i]
  {
    if n > 0 {
      LaterRowsUntouched(s, view, stamps, tick, junk, n - 1, i);
    }
  }

  /** Page l of processor i's process is resident and least recently referenced among the resident pages. */
  predicate LeastRecent(q: Process, seen: seq<seq<int>>, i: int, l: int)
    requires GoodProcess(q) && 0 <= i < MAXPROCESSES && 0 <= l < MAXPROCPAGES
    requires forall u :: u in seen ==> |u| == MAXPROCESSES
  {
    && q.pages[l] == 0
    && forall p :: 0 <= p < MAXPROCPAGES && p != l && q.pages[p] == 0 ==> LastSeen(seen, i, l) < LastSeen(seen, i, p)
  }

  predicate HasResident(q: Process) {
    exists p :: 0 <= p < |q.pages| && q.pages[p] == 0
  }

  lemma VictimIsOldest(q: Process, pages: seq<bool>, row: seq<int>, seen: seq<seq<int>>, i: int, junk: int)
    requires GoodProcess(q) && GoodRow(row) && 0 <= i < MAXPROCESSES
    requires forall u :: u in seen ==> |u| == MAXPROCESSES
    requires Exact(q, row, seen, i) && HasResident(q)
    requires |pages| == MAXPROCPAGES && forall p :: 0 <= p < MAXPROCPAGES ==> pages[p] == (q.pages[p] == 0)
    ensures LeastRecent(q, seen, i, Victim(pages, row, junk))
  {
    var w :| 0 <= w < MAXPROCPAGES && q.pages[w] == 0;
    assert pages[w];
    var l := Victim(pages, row, junk);
    assert pages[l];
    forall p | 0 <= p < MAXPROCPAGES && p != l && q.pages[p] == 0
      ensures LastSeen(seen, i, l) < LastSeen(seen, i, p)
    {
      assert pages[p] && row[l] <= row[p];
      LastSeenDistinct(seen, i, p, l);
    }
  }

  /** With no page in, the searches find nothing and the variable keeps its junk. */
  lemma NoVictim(q: Process, pages: seq<bool>, row: seq<int>, junk: int)
    requires GoodProcess(q) && GoodRow(row) && !HasResident(q)
    requires |pages| == MAXPROCPAGES && forall p :: 0 <= p < MAXPROCPAGES ==> pages[p] == (q.pages[p] == 0)
    ensures Victim(pages, row, junk) == junk
  {
  }

  lemma EvictionFrom(x: State, junk: seq<int>, c: Call)
    requires LruInv(x) && GoodJunk(junk) && c.Out? && c in NextCalls(x, junk)
    ensures var t := Ticked(x.sim);
      && Running(t, c.slot) && 0 <= c.page < MAXPROCPAGES
      && var q := t.queue[t.slots[c.slot]];
      q.pages[PcPage(q)] != 0
         && (if HasResident(q) then c.page != PcPage(q) && LeastRecent(q, x.seen, c.slot, c.page)
             else c.page == junk[c.slot])
  {
    var t := Ticked(x.sim);
    ViewIsGood(t);
    OutsAreVictims(t, View(t), x.stamps, x.tick, junk, MAXPROCESSES, c);
    TickedExact(x, c.slot);
    EntryOf(t, c.slot);
    var q := t.queue[t.slots[c.slot]];
    if HasResident(q) {
      VictimIsOldest(q, Entry(t, c.slot).pages, x.stamps[c.slot], x.seen, c.slot, junk[c.slot]);
    } else {
      NoVictim(q, Entry(t, c.slot).pages, x.stamps[c.slot], junk[c.slot]);
    }
  }

  /**
   Every eviction is exact: on every run, the pager pages out only for a running processor whose needed page
   is not in. If that processor has a resident page at all, the page it evicts is resident and was referenced
   less recently than every other resident page of that processor; if it has none, the page named is the junk.
   */
  lemma EvictsLeastRecentlyUsed(procs: int, queue: seq<Process>, junks: seq<seq<int>>, junk: seq<int>, c: Call)
    requires 1 <= procs <= MAXPROCESSES && FreshQueue(queue)
    requires (forall j :: j in junks ==> GoodJunk(j)) && GoodJunk(junk)
    requires c.Out? && c in NextCalls(LruRun(Boot(procs, queue), junks), junk)
    ensures var x := LruRun(Boot(procs, queue), junks);
      var t := Ticked(x.sim);
      && Running(t, c.slot) && 0 <= c.page < MAXPROCPAGES
      && var q := t.queue[t.slots[c.slot]];
      q.pages[PcPage(q)] != 0
         && (if HasResident(q) then c.page != PcPage(q) && LeastRecent(q, x.seen, c.slot, c.page)
             else c.page == junk[c.slot])
  {
    LruRunInv(procs, queue, junks);
    EvictionFrom(LruRun(Boot(procs, queue), junks), junk, c);
  }
}
