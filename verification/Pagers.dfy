/**
 The pagers as they run: searches and bookkeeping by loops, and calls into the running simulator.
 Every call is made when the source makes it, on the machine as the calls before it left it.
 */
module Pagers {
  import opened Params
  import opened Simulator
  import M = Machine
  import L = Lru
  import B = Basic
  import P = Predict
  import R = PredictRuns
  import opened Invariants
  import opened Locality

  // ---- LRU ------------------------------------------------------------------

  class LruPager {
    var tick: int
    var timestamps: array<seq<int>>

    ghost predicate Valid()
      reads this, timestamps
    {
      timestamps.Length == MAXPROCESSES && L.GoodStamps(timestamps[..])
    }

    /** The pager before its first call. */
    constructor ()
      ensures Valid() && fresh(timestamps)
      ensures tick == 1 && timestamps[..] == seq(MAXPROCESSES, _ => seq(MAXPROCPAGES, _ => 0))
    {
      tick := 1;
      var blank := seq(MAXPROCPAGES, _ => 0);
      timestamps := new seq<int>[MAXPROCESSES](_ => blank);
      new;
      assert timestamps[..] == seq(MAXPROCESSES, _ => seq(MAXPROCPAGES, _ => 0));
    }

    /** The two searches for the page to evict; lrupage is whatever the variable held. */
    method FindVictim(pages: seq<bool>, row: seq<int>, junk: int) returns (lrupage: int)
      requires |pages| == MAXPROCPAGES && L.GoodRow(row)
      ensures lrupage == L.Victim(pages, row, junk)
    {
      lrupage := junk;
      var k := 0;
      while k < MAXPROCPAGES && !pages[k]
        invariant 0 <= k <= MAXPROCPAGES
        invariant L.FirstResident(pages, 0, junk) == L.FirstResident(pages, k, junk)
      {
        k := k + 1;
      }
      if k < MAXPROCPAGES {
        lrupage := k;
      }
      ghost var first := lrupage;
      for j := 0 to MAXPROCPAGES
        invariant lrupage == L.Oldest(pages, row, first, j)
      {
        if pages[j] && row[j] < row[lrupage] {
          lrupage := j;
        }
      }
    }

    /** Asks for the page that processor i lacks, and makes room if it cannot have it. */
    method Serve(m: M.Simulator, e: Pentry, i: int, junk: int)
      requires Valid() && m.Valid() && L.GoodEntry(e) && 0 <= i < MAXPROCESSES && 0 <= junk < MAXPROCPAGES
      requires e.active && !e.pages[L.Needs(e)]
      modifies timestamps, m`pagesavail, m.queue
      ensures Valid() && m.Valid()
      ensures m.State() == DoAll(old(m.State()), L.SlotCalls(old(m.State()), e, old(timestamps[i]), i, junk))
      ensures timestamps[..] == if !L.Evicts(old(m.State()), e, i) then old(timestamps[..])
              else old(timestamps[..])[i := old(timestamps[i])[L.Victim(e.pages, old(timestamps[i]), junk) := 0]]
    {
      ghost var s := m.State();
      var page := e.pc / PAGESIZE;
      var ok := m.PageIn(i, page);
      if ok {
        DoOne(s, In(i, page));
      } else {
        var lrupage := FindVictim(e.pages, timestamps[i], junk);
        timestamps[i] := timestamps[i][lrupage := 0];
        ok := m.PageOut(i, lrupage);
        DoTwo(s, In(i, page), Out(i, lrupage));
      }
    }

    /** The turn of processor i. */
    method Turn(m: M.Simulator, e: Pentry, i: int, junk: int)
      requires Valid() && m.Valid() && L.GoodEntry(e) && 0 <= i < MAXPROCESSES && 0 <= junk < MAXPROCPAGES
      modifies timestamps, m`pagesavail, m.queue
      ensures Valid() && m.Valid()
      ensures m.State() == DoAll(old(m.State()), L.SlotCalls(old(m.State()), e, old(timestamps[i]), i, junk))
      ensures timestamps[..]
              == old(timestamps[..])[i := L.SlotRow(old(m.State()), e, old(timestamps[i]), i, junk, tick)]
    {
      ghost var st := timestamps[..];
      if e.active {
        var page := e.pc / PAGESIZE;
        if !e.pages[page] {
          Serve(m, e, i, junk);
        }
        timestamps[i] := timestamps[i][page := tick];
      }
      assert timestamps[..] == st[i := timestamps[i]];
    }

    method PageIt(m: M.Simulator, q: seq<Pentry>, junk: seq<int>)
      requires Valid() && m.Valid() && L.GoodView(q) && L.GoodJunk(junk)
      modifies this`tick, timestamps, m`pagesavail, m.queue
      ensures Valid() && m.Valid() && tick == old(tick) + 1
      ensures var r := L.PageIt(old(m.State()), q, old(timestamps[..]), old(tick), junk, MAXPROCESSES);
        m.State() == DoAll(old(m.State()), r.0) && timestamps[..] == r.1
    {
      ghost var calls: seq<Call> := [];
      ghost var s, st := m.State(), timestamps[..];
      for i := 0 to MAXPROCESSES
        invariant Valid() && m.Valid() && tick == old(tick)
        invariant (calls, timestamps[..]) == L.PageIt(s, q, st, tick, junk, i)
        invariant m.State() == DoAll(s, calls)
      {
        ghost var mine := L.SlotCalls(m.State(), q[i], timestamps[i], i, junk[i]);
        Turn(m, q[i], i, junk[i]);
        DoAllAppend(s, calls, mine);
        calls := calls + mine;
      }
      tick := tick + 1;
    }
  }

  /** One turn of the main loop around the LRU pager, on the machine and pager that x describes. */
  method LruTick(m: M.Simulator, p: LruPager, junk: seq<int>, ghost x: L.State)
    requires m.Valid() && p.Valid() && L.GoodJunk(junk) && L.GoodState(x)
    requires x.sim == m.State() && x.tick == p.tick && x.stamps == p.timestamps[..]
    modifies m, m.queue, m.processes, p`tick, p.timestamps
    ensures m.Valid() && p.Valid()
    ensures m.State() == L.Turn(x, junk).sim
    ensures p.tick == L.Turn(x, junk).tick && p.timestamps[..] == L.Turn(x, junk).stamps
  {
    m.AllStep();
    m.AllAge();
    var view := m.CallYou();
    L.ViewIsGood(m.State());
    p.PageIt(m, view, junk);
  }

  // ---- Basic ----------------------------------------------------------------

  /** The machine after swapping out pages of processor i from page j on, until one page-out is accepted. */
  function Tried(s: Sim, i: int, page: int, j: nat): Sim
    requires Shape(s)
    decreases MAXPROCPAGES - j, s
  {
    if j >= MAXPROCPAGES then s
    else if j != page && PageOut(s, i, j).1 then PageOut(s, i, j).0
    else Tried(s, i, page, j + 1)
  }

  lemma {:induction false} TriedIsOuts(s: Sim, i: int, page: int, j: nat)
    requires Shape(s)
    ensures Tried(s, i, page, j) == DoAll(s, B.Outs(s, i, page, j))
    decreases MAXPROCPAGES - j
  {
    if j < MAXPROCPAGES {
      TriedIsOuts(s, i, page, j + 1);
      DoAllAppend(s, [Out(i, j)], B.Outs(s, i, page, j + 1));
      DoOne(s, Out(i, j));
    }
  }

  /** Where the attempts from page j on stop: at the first page but the needed one that is not coming. */
  lemma {:induction false} TriedFrom(s: Sim, i: int, page: int, j: nat) returns (p: nat)
    requires Shape(s) && 0 <= i < s.procs && Running(s, i) && j <= MAXPROCPAGES
    ensures j <= p <= MAXPROCPAGES && forall k :: j <= k < p && k != page ==> Cell(s, i, k) > 0
    ensures p < MAXPROCPAGES ==> p != page && Cell(s, i, p) <= 0
    ensures Tried(s, i, page, j) == if p < MAXPROCPAGES && Cell(s, i, p) == 0 then SetCell(s, i, p, -1) else s
    decreases MAXPROCPAGES - j
  {
    p := j;
    if j < MAXPROCPAGES && (j == page || Cell(s, i, j) > 0) {
      p := TriedFrom(s, i, page, j + 1);
    }
  }

  /**
   The basic pager's page-outs stop at the first page other than the needed one that is in, going or out: if that is in,
   it is paged out, and otherwise nothing is.
   */
  lemma TriedFirst(s: Sim, i: int, page: int) returns (p: nat)
    requires Shape(s) && 0 <= i < s.procs && Running(s, i)
    ensures p <= MAXPROCPAGES && forall k :: 0 <= k < p && k != page ==> Cell(s, i, k) > 0
    ensures p < MAXPROCPAGES ==> p != page && Cell(s, i, p) <= 0
    ensures Tried(s, i, page, 0) == if p < MAXPROCPAGES && Cell(s, i, p) == 0 then SetCell(s, i, p, -1) else s
  {
    p := TriedFrom(s, i, page, 0);
  }

  /** What a turn of the basic pager comes to when processor i is the first that runs; p is where its page-outs stop. */
  predicate BasicTurned(s: Sim, t: Sim, i: int, p: nat)
    requires Shape(s) && Shape(t) && 0 <= i < s.procs && Running(s, i) && t.slots == s.slots && p <= MAXPROCPAGES
  {
    var need := PcPage(s.queue[s.slots[i]]);
    if Cell(s, i, need) >= 0 then t == s
    else if Cell(s, i, need) < -PAGEWAIT && s.avail > 0 then
      t == SetCell(s, i, need, PAGEWAIT).(avail := s.avail - 1)
    else
      && (forall k :: 0 <= k < p && k != need ==> Cell(s, i, k) > 0)
      && (p < MAXPROCPAGES ==> p != need && Cell(s, i, p) <= 0)
      && t == if p < MAXPROCPAGES && Cell(s, i, p) == 0 then SetCell(s, i, p, -1) else s
  }

  lemma BasicAsks(s: Sim, i: int, need: int)
    requires Inv(s) && 0 <= i < s.procs && Running(s, i) && PageNo(need)
    ensures var r := PageIn(s, i, need);
      if Cell(s, i, need) >= 0 then r == (s, true)
      else if Cell(s, i, need) < -PAGEWAIT && s.avail > 0 then
        r == (SetCell(s, i, need, PAGEWAIT).(avail := s.avail - 1), true)
      else r == (s, false)
  {
  }

  /**
   In any machine: with nobody running the basic pager does nothing, and otherwise serves the first running processor,
   by its page-in if that can be had and by the first possible page-out if not.
   */
  lemma BasicTurn(s: Sim) returns (i: int, p: nat)
    requires Inv(s) && L.GoodView(View(s))
    ensures 0 <= i <= MAXPROCESSES && p <= MAXPROCPAGES && forall j :: 0 <= j < i ==> !Running(s, j)
    ensures var t := DoAll(s, B.BasicCalls(s, View(s)));
      if i == MAXPROCESSES then t == s else i < s.procs && Running(s, i) && BasicTurned(s, t, i, p)
  {
    i, p := B.FirstActive(View(s), 0), 0;
    forall j | 0 <= j < i ensures !Running(s, j) {
      assert !View(s)[j].active && View(s)[j] == Entry(s, j);
    }
    if i < MAXPROCESSES {
      assert View(s)[i].active && View(s)[i] == Entry(s, i);
      p := BasicServes(s, i);
    }
  }

  lemma BasicServes(s: Sim, i: int) returns (p: nat)
    requires Inv(s) && L.GoodView(View(s)) && i == B.FirstActive(View(s), 0) && 0 <= i < MAXPROCESSES && Running(s, i)
    ensures i < s.procs && p <= MAXPROCPAGES && BasicTurned(s, DoAll(s, B.BasicCalls(s, View(s))), i, p)
  {
    EntryOf(s, i);
    var need := PcPage(s.queue[s.slots[i]]);
    BasicAsks(s, i, need);
    p := TriedFirst(s, i, need);
    BasicCallsEnd(s, i, need);
  }

  lemma BasicCallsEnd(s: Sim, i: int, need: int)
    requires Inv(s) && L.GoodView(View(s)) && i == B.FirstActive(View(s), 0) && 0 <= i < s.procs && Running(s, i)
    requires need == PcPage(s.queue[s.slots[i]])
    ensures DoAll(s, B.BasicCalls(s, View(s)))
            == if Cell(s, i, need) == 0 then s
               else if PageIn(s, i, need).1 then PageIn(s, i, need).0 else Tried(s, i, need, 0)
  {
    EntryOf(s, i);
    assert View(s)[i] == Entry(s, i);
    DoOne(s, In(i, need));
    InEffect(s, i, need);
    DoAllAppend(s, [In(i, need)], B.Outs(s, i, need, 0));
    TriedIsOuts(s, i, need, 0);
  }

  /** Swaps out pages of processor i until one page-out is accepted. */
  method TryOuts(m: M.Simulator, i: int, page: int)
    requires m.Valid()
    modifies m`pagesavail, m.queue
    ensures m.Valid() && m.State() == Tried(old(m.State()), i, page, 0)
  {
    ghost var s := m.State();
    var oldpage: nat := 0;
    while oldpage < MAXPROCPAGES
      invariant m.Valid() && m.State() == s && oldpage <= MAXPROCPAGES
      invariant Tried(s, i, page, 0) == Tried(s, i, page, oldpage)
    {
      if oldpage != page {
        var ok := m.PageOut(i, oldpage);
        if ok { return; }
      }
      oldpage := oldpage + 1;
    }
  }

  method BasicPageIt(m: M.Simulator, q: seq<Pentry>)
    requires m.Valid() && L.GoodView(q)
    modifies m`pagesavail, m.queue
    ensures m.Valid() && m.State() == DoAll(old(m.State()), B.BasicCalls(old(m.State()), q))
  {
    var proc := 0;
    while proc < MAXPROCESSES && !q[proc].active
      invariant 0 <= proc <= MAXPROCESSES && B.FirstActive(q, 0) == B.FirstActive(q, proc)
    {
      proc := proc + 1;
    }
    if proc < MAXPROCESSES {
      var page := q[proc].pc / PAGESIZE;
      if !q[proc].pages[page] {
        ghost var s := m.State();
        var ok := m.PageIn(proc, page);
        DoOne(s, In(proc, page));
        if !ok {
          DoAllAppend(s, [In(proc, page)], B.Outs(s, proc, page, 0));
          TriedIsOuts(s, proc, page, 0);
          TryOuts(m, proc, page);
        }
      }
    }
  }

  // ---- Predict --------------------------------------------------------------

  lemma EvictionsNext(s: Sim, e: Pentry, i: int, a: int, b: int, j: nat, j': nat)
    requires Shape(s) && L.GoodEntry(e) && j < MAXPROCPAGES && j' == j + 1
    ensures var t := DoAll(s, P.Evictions(e, i, a, b, j));
      DoAll(s, P.Evictions(e, i, a, b, j'))
      == if j == L.Needs(e) || j == a || j == b || !e.pages[j] then t else Do(t, Out(i, j)).0
  {
    DoAllAppend(s, P.Evictions(e, i, a, b, j), [Out(i, j)]);
    DoOne(DoAll(s, P.Evictions(e, i, a, b, j)), Out(i, j));
  }

  class PredictPager {
    var freqArray: array<seq<seq<int>>>
    var pastAccessed: array<int>

    ghost function Mem(i: int): P.Memory
      requires 0 <= i < freqArray.Length && i < pastAccessed.Length
      reads this, freqArray, pastAccessed
    {
      P.Memory(freqArray[i], pastAccessed[i])
    }

    ghost predicate Valid()
      reads this, freqArray, pastAccessed
    {
      && freqArray.Length == MAXPROCESSES && pastAccessed.Length == MAXPROCESSES
      && forall i :: 0 <= i < MAXPROCESSES ==> P.GoodMemory(Mem(i))
    }

    /** Whether the pager's memory is ms. */
    ghost predicate Remembers(ms: seq<P.Memory>)
      reads this, freqArray, pastAccessed
    {
      Valid() && P.GoodMemories(ms) && forall i :: 0 <= i < MAXPROCESSES ==> Mem(i) == ms[i]
    }

    /** The pager before its first call. */
    constructor ()
      ensures Valid() && fresh(freqArray) && fresh(pastAccessed)
      ensures forall i :: 0 <= i < MAXPROCESSES ==> Mem(i) == P.Blank()
    {
      var blank := seq(MAXPROCPAGES + 1, _ => seq(MAXPROCPAGES, _ => 0));
      freqArray := new seq<seq<int>>[MAXPROCESSES](_ => blank);
      pastAccessed := new int[MAXPROCESSES](_ => -1);
      new;
      assert blank == P.Blank().freq;
    }

    /** The search for the most probable next page; past the row it reads far. */
    method FindBest(row: seq<int>, seed: int, far: P.Beyond) returns (next: int)
      requires |row| == MAXPROCPAGES
      ensures next == P.Best(row, seed, far, MAXPROCPAGES)
    {
      next := seed;
      for p := 0 to MAXPROCPAGES
        invariant next == P.Best(row, seed, far, p)
      {
        if row[p] > P.At(row, next, far) { next := p; }
      }
    }

    /** The search for the second most probable one. */
    method FindSecond(row: seq<int>, seed: int, best: int, far: P.Beyond) returns (next: int)
      requires |row| == MAXPROCPAGES
      ensures next == P.Second(row, seed, best, far, MAXPROCPAGES)
    {
      next := seed;
      for p := 0 to MAXPROCPAGES
        invariant next == P.Second(row, seed, best, far, p)
      {
        if row[p] > P.At(row, next, far) {
          if p != best { next := p; }
        }
      }
    }

    /** Pages out what is neither needed nor predicted. */
    method EvictOthers(m: M.Simulator, e: Pentry, i: int, next1: int, next2: int)
      requires m.Valid() && L.GoodEntry(e)
      modifies m`pagesavail, m.queue
      ensures m.Valid()
      ensures m.State() == DoAll(old(m.State()), P.Evictions(e, i, next1, next2, MAXPROCPAGES))
    {
      ghost var s := m.State();
      var page := e.pc / PAGESIZE;
      var j: nat := 0;
      while j < MAXPROCPAGES
        invariant j <= MAXPROCPAGES
        invariant m.Valid() && m.State() == DoAll(s, P.Evictions(e, i, next1, next2, j))
      {
        ghost var before := j;
        if j != page && j != next1 && j != next2 && e.pages[j] {
          var ok := m.PageOut(i, j);
        }
        j := j + 1;
        EvictionsNext(s, e, i, next1, next2, before, j);
      }
    }

    method FetchPage(m: M.Simulator, e: Pentry, i: int, p: int, far: P.Beyond)
      requires m.Valid() && L.GoodEntry(e)
      modifies m`pagesavail, m.queue
      ensures m.Valid() && m.State() == DoAll(old(m.State()), P.Fetch(e, i, p, far))
    {
      var resident := if PageNo(p) then e.pages[p] else far.resident;
      if !resident {
        DoOne(m.State(), In(i, p));
        var ok := m.PageIn(i, p);
      }
    }

    /** The paging of processor i's turn. */
    method Act(m: M.Simulator, e: Pentry, i: int, next1: int, next2: int, far: P.Beyond)
      requires m.Valid() && L.GoodEntry(e)
      modifies m`pagesavail, m.queue
      ensures m.Valid() && m.State() == DoAll(old(m.State()), P.Acts(e, i, next1, next2, far))
    {
      ghost var s := m.State();
      var page := e.pc / PAGESIZE;
      ghost var a := P.Evictions(e, i, next1, next2, MAXPROCPAGES);
      EvictOthers(m, e, i, next1, next2);
      FetchPage(m, e, i, page, far);
      DoAllAppend(s, a, P.Fetch(e, i, page, far));
      FetchPage(m, e, i, next1, far);
      DoAllAppend(s, a + P.Fetch(e, i, page, far), P.Fetch(e, i, next1, far));
      FetchPage(m, e, i, next2, far);
      DoAllAppend(s, a + P.Fetch(e, i, page, far) + P.Fetch(e, i, next1, far), P.Fetch(e, i, next2, far));
    }

    /** Counts the move of processor i to a page, and remembers the page. */
    method Count(i: int, page: int)
      requires Valid() && 0 <= i < MAXPROCESSES && PageNo(page)
      modifies freqArray, pastAccessed
      ensures Valid() && Mem(i) == P.Note(old(Mem(i)), page)
      ensures forall j :: 0 <= j < MAXPROCESSES && j != i ==> Mem(j) == old(Mem(j))
    {
      ghost var known := Mem(i);
      assert P.GoodMemory(known);
      var past := pastAccessed[i];
      if past != page {
        var row := freqArray[i][past + 1];
        freqArray[i] := freqArray[i][past + 1 := row[page := row[page] + 1]];
      }
      pastAccessed[i] := page;
      assert Mem(i) == P.Note(known, page);
      forall j | 0 <= j < MAXPROCESSES && j != i ensures Mem(j) == old(Mem(j)) && P.GoodMemory(Mem(j)) {
        assert P.GoodMemory(old(Mem(j)));
      }
    }

    /** Learns from seeing processor i in a page, and predicts. */
    method Learn(i: int, page: int, far: P.Beyond) returns (next1: int, next2: int)
      requires Valid() && 0 <= i < MAXPROCESSES && PageNo(page)
      modifies freqArray, pastAccessed
      ensures Valid() && Mem(i) == P.Note(old(Mem(i)), page)
      ensures forall j :: 0 <= j < MAXPROCESSES && j != i ==> Mem(j) == old(Mem(j))
      ensures (next1, next2) == P.Predictions(old(Mem(i)), page, far)
    {
      assert P.GoodMemory(Mem(i));
      var seed := freqArray[i][page + 1][0];
      Count(i, page);
      assert P.GoodMemory(Mem(i));
      var row := freqArray[i][page + 1];
      next1 := FindBest(row, seed, far);
      next2 := FindSecond(row, seed, next1, far);
    }

    /** The turn of processor i: learn, choose, act. */
    method Turn(m: M.Simulator, e: Pentry, i: int, far: P.Beyond)
      requires Valid() && m.Valid() && L.GoodEntry(e) && 0 <= i < MAXPROCESSES
      requires pastAccessed != m.processes
      modifies freqArray, pastAccessed, m`pagesavail, m.queue
      ensures Valid() && m.Valid()
      ensures m.State() == DoAll(old(m.State()), P.SlotMoves(old(Mem(i)), e, i, far))
      ensures Mem(i) == if e.active then P.Note(old(Mem(i)), L.Needs(e)) else old(Mem(i))
      ensures forall j :: 0 <= j < MAXPROCESSES && j != i ==> Mem(j) == old(Mem(j))
    {
      if e.active {
        var next1, next2 := Learn(i, e.pc / PAGESIZE, far);
        Act(m, e, i, next1, next2, far);
      }
    }

    /** The same turn, as a step from one memory of all processors to the next. */
    method TurnFrom(m: M.Simulator, e: Pentry, i: int, far: P.Beyond, ghost ms: seq<P.Memory>)
      requires Remembers(ms) && m.Valid() && L.GoodEntry(e) && 0 <= i < MAXPROCESSES
      requires pastAccessed != m.processes
      modifies freqArray, pastAccessed, m`pagesavail, m.queue
      ensures m.Valid() && m.State() == DoAll(old(m.State()), P.SlotMoves(ms[i], e, i, far))
      ensures Remembers(if e.active then ms[i := P.Note(ms[i], L.Needs(e))] else ms)
    {
      assert Mem(i) == ms[i];
      Turn(m, e, i, far);
    }

    method PageIt(m: M.Simulator, q: seq<Pentry>, fars: seq<P.Beyond>, ghost ms: seq<P.Memory>)
      requires Remembers(ms) && m.Valid() && L.GoodView(q) && P.GoodFars(fars)
      requires pastAccessed != m.processes
      modifies freqArray, pastAccessed, m`pagesavail, m.queue
      ensures m.Valid() && m.State() == DoAll(old(m.State()), P.PredictCalls(ms, q, fars, MAXPROCESSES))
      ensures Remembers(P.Learnt(ms, q, MAXPROCESSES))
    {
      ghost var s := m.State();
      for i := 0 to MAXPROCESSES
        invariant m.Valid() && m.State() == DoAll(s, P.PredictCalls(ms, q, fars, i))
        invariant Remembers(P.Learnt(ms, q, i))
      {
        ghost var known := P.Learnt(ms, q, i);
        assert known[i] == ms[i];
        DoAllAppend(s, P.PredictCalls(ms, q, fars, i), P.SlotMoves(ms[i], q[i], i, fars[i]));
        TurnFrom(m, q[i], i, fars[i], known);
      }
    }
  }

  /** One turn of the main loop around the predictive pager, on the machine and pager that x describes. */
  method PredictTick(m: M.Simulator, p: PredictPager, fars: seq<P.Beyond>, ghost x: R.State)
    requires m.Valid() && R.GoodState(x) && P.GoodFars(fars) && x.sim == m.State() && p.Remembers(x.ms)
    requires p.pastAccessed != m.processes
    modifies m, m.queue, m.processes, p.freqArray, p.pastAccessed
    ensures m.Valid() && m.State() == R.Turn(x, fars).sim && p.Remembers(R.Turn(x, fars).ms)
  {
    m.AllStep();
    m.AllAge();
    var view := m.CallYou();
    L.ViewIsGood(m.State());
    p.PageIt(m, view, fars, x.ms);
  }
}
