/** What LRU does to a process that keeps being refused a frame. */
module Starved {
  import opened Params
  import opened Simulator
  import opened Invariants
  import opened Locality
  import opened Lru

  /** r is q after a refused turn with its variable holding junk. */
  ghost predicate Refused(q: Process, r: Process, seen: seq<seq<int>>, i: int, junk: int, c: Call)
    requires GoodProcess(q) && GoodProcess(r) && 0 <= i < MAXPROCESSES
    requires forall u :: u in seen ==> |u| == MAXPROCESSES
  {
    if HasResident(q)
    then PageNo(c.page) && LeastRecent(q, seen, i, c.page) && Residents(r) == Residents(q) - {c.page}
    else c.page == junk && r == q
  }

  lemma RefusedCells(q: Process, seen: seq<seq<int>>, i: int, junk: int, l: int)
    requires GoodProcess(q) && 0 <= i < MAXPROCESSES && PageNo(l)
    requires forall u :: u in seen ==> |u| == MAXPROCESSES
    requires if HasResident(q) then LeastRecent(q, seen, i, l) else l == junk
    ensures Refused(q, q.(pages := if q.pages[l] == 0 then q.pages[l := -1] else q.pages), seen, i, junk, Out(i, l))
  {
    assert q == q.(pages := q.pages);
    assert q.pages[l] == 0 ==> HasResident(q);
  }

  /**
   A refused turn costs a process its least recently referenced resident page, and only that one; when it has none,
   the pager names the junk in its variable and the process stays as it is.
   */
  lemma RefusedTurnCostsAPage(s: Sim, row: seq<int>, seen: seq<seq<int>>, i: int, junk: int)
    requires Inv(s) && GoodRow(row) && 0 <= i < MAXPROCESSES && s.slots[i] >= 0 && PageNo(junk)
    requires forall u :: u in seen ==> |u| == MAXPROCESSES
    requires Exact(s.queue[s.slots[i]], row, seen, i) && Evicts(s, Entry(s, i), i)
    ensures var calls := SlotCalls(s, Entry(s, i), row, i, junk);
      && |calls| == 2 && calls[1].Out? && calls[1].slot == i
      && Refused(s.queue[s.slots[i]], DoAll(s, calls).queue[s.slots[i]], seen, i, junk, calls[1])
  {
    var q := s.queue[s.slots[i]];
    var e := Entry(s, i);
    EntryOf(s, i);
    SlotEffect(s, row, i, junk);
    if HasResident(q) {
      VictimIsOldest(q, e.pages, row, seen, i, junk);
    } else {
      NoVictim(q, e.pages, row, junk);
    }
    RefusedCells(q, seen, i, junk, Victim(e.pages, row, junk));
  }

  // ---- One processor's turn among all -------------------------------------------

  /** Each processor's turn adds its own calls. */
  lemma TurnAdds(s: Sim, view: seq<Pentry>, stamps: seq<seq<int>>, tick: int, junk: seq<int>, n: nat, n': nat)
    returns (mine: seq<Call>)
    requires Shape(s) && GoodView(view) && GoodStamps(stamps) && GoodJunk(junk) && n' == n + 1 <= MAXPROCESSES
    ensures PageIt(s, view, stamps, tick, junk, n').0 == PageIt(s, view, stamps, tick, junk, n).0 + mine
    ensures forall c :: c in mine ==> c.slot == n
  {
    var (calls, st) := PageIt(s, view, stamps, tick, junk, n);
    mine := SlotCalls(DoAll(s, calls), view[n], st[n], n, junk[n]);
  }

  lemma {:induction false} EarlierTurns(s: Sim, view: seq<Pentry>, stamps: seq<seq<int>>, tick: int,
                                        junk: seq<int>, n: nat)
    requires Shape(s) && GoodView(view) && GoodStamps(stamps) && GoodJunk(junk) && n <= MAXPROCESSES
    ensures forall c :: c in PageIt(s, view, stamps, tick, junk, n).0 ==> c.slot < n
  {
    if n > 0 {
      var k := n - 1;
      EarlierTurns(s, view, stamps, tick, junk, k);
      var mine := TurnAdds(s, view, stamps, tick, junk, k, n);
    }
  }

  /** What processor i's turn adds to the calls and makes of its stamps, after those before it. */
  predicate OwnTurn(s: Sim, view: seq<Pentry>, stamps: seq<seq<int>>, tick: int, junk: seq<int>, i: nat,
                    before: seq<Call>, after: seq<Call>, all: (seq<Call>, seq<seq<int>>))
    requires Shape(s) && GoodView(view) && GoodStamps(stamps) && GoodJunk(junk) && i < MAXPROCESSES
  {
    && all.0 == before + SlotCalls(DoAll(s, before), view[i], stamps[i], i, junk[i]) + after
    && GoodStamps(all.1) && all.1[i] == SlotRow(DoAll(s, before), view[i], stamps[i], i, junk[i], tick)
    && (forall c :: c in before ==> c.slot != i) && (forall c :: c in after ==> c.slot != i)
  }

  lemma OwnTurnAtOnce(s: Sim, view: seq<Pentry>, stamps: seq<seq<int>>, tick: int, junk: seq<int>, i: nat, n: nat)
    returns (before: seq<Call>)
    requires Shape(s) && GoodView(view) && GoodStamps(stamps) && GoodJunk(junk) && n == i + 1 <= MAXPROCESSES
    ensures before == PageIt(s, view, stamps, tick, junk, i).0
    ensures OwnTurn(s, view, stamps, tick, junk, i, before, [], PageIt(s, view, stamps, tick, junk, n))
  {
    EarlierTurns(s, view, stamps, tick, junk, i);
    LaterRowsUntouched(s, view, stamps, tick, junk, i, i);
    before := PageIt(s, view, stamps, tick, junk, i).0;
    var st := PageIt(s, view, stamps, tick, junk, i).1;
    var mine := SlotCalls(DoAll(s, before), view[i], stamps[i], i, junk[i]);
    var row := SlotRow(DoAll(s, before), view[i], stamps[i], i, junk[i], tick);
    assert PageIt(s, view, stamps, tick, junk, n) == (before + mine, st[i := row]);
    assert before + mine + [] == before + mine;
  }

  lemma AddsUp(all: seq<Call>, first: seq<Call>, after: seq<Call>, mine: seq<Call>)
    requires all == first + after
    ensures all + mine == first + (after + mine)
  {
  }

  lemma {:induction false} TurnAmongAll(s: Sim, view: seq<Pentry>, stamps: seq<seq<int>>, tick: int, junk: seq<int>,
                                        i: nat, n: nat) returns (before: seq<Call>, after: seq<Call>)
    requires Shape(s) && GoodView(view) && GoodStamps(stamps) && GoodJunk(junk) && i < n <= MAXPROCESSES
    ensures before == PageIt(s, view, stamps, tick, junk, i).0
    ensures OwnTurn(s, view, stamps, tick, junk, i, before, after, PageIt(s, view, stamps, tick, junk, n))
  {
    var k := n - 1;
    if k == i {
      before := OwnTurnAtOnce(s, view, stamps, tick, junk, i, n);
      after := [];
    } else {
      var rest;
      before, rest := TurnAmongAll(s, view, stamps, tick, junk, i, k);
      var mine := TurnAdds(s, view, stamps, tick, junk, k, n);
      after := rest + mine;
      AddsUp(PageIt(s, view, stamps, tick, junk, k).0,
             before + SlotCalls(DoAll(s, before), view[i], stamps[i], i, junk[i]), rest, mine);
    }
  }

  // ---- What a processor gets --------------------------------------------------------

  /** Processor i's job is q before its turn and r after it; these are the calls for i. */
  ghost predicate Attended(q: Process, r: Process, seen: seq<seq<int>>, i: int, junk: int, calls: seq<Call>)
    requires GoodProcess(q) && GoodProcess(r) && 0 <= i < MAXPROCESSES
    requires forall u :: u in seen ==> |u| == MAXPROCESSES
  {
    var need := PcPage(q);
    if q.pages[need] == 0 then
      calls == [] && r == q
    else if r.pages[need] >= 0 then
      calls == [In(i, need)] && r == q.(pages := q.pages[need := if q.pages[need] > 0 then q.pages[need] else PAGEWAIT])
    else
      && |calls| == 2 && calls[0] == In(i, need) && calls[1] == Out(i, calls[1].page)
      && Refused(q, r, seen, i, junk, calls[1])
  }

  /** In machine m, when its turn comes. */
  lemma TurnAttends(m: Sim, row: seq<int>, seen: seq<seq<int>>, i: int, junk: int)
    requires Inv(m) && GoodRow(row) && 0 <= i < MAXPROCESSES && m.slots[i] >= 0 && PageNo(junk)
    requires forall u :: u in seen ==> |u| == MAXPROCESSES
    requires Exact(m.queue[m.slots[i]], row, seen, i)
    ensures var mine := SlotCalls(m, Entry(m, i), row, i, junk);
      Attended(m.queue[m.slots[i]], DoAll(m, mine).queue[m.slots[i]], seen, i, junk, mine)
  {
    EntryOf(m, i);
    if Evicts(m, Entry(m, i), i) {
      RefusedAttends(m, row, seen, i, junk);
    } else {
      GrantedAttends(m, row, seen, i, junk);
    }
  }

  lemma GrantedAttends(m: Sim, row: seq<int>, seen: seq<seq<int>>, i: int, junk: int)
    requires Inv(m) && GoodRow(row) && 0 <= i < MAXPROCESSES && m.slots[i] >= 0 && PageNo(junk)
    requires (forall u :: u in seen ==> |u| == MAXPROCESSES) && !Evicts(m, Entry(m, i), i)
    ensures var mine := SlotCalls(m, Entry(m, i), row, i, junk);
      Attended(m.queue[m.slots[i]], DoAll(m, mine).queue[m.slots[i]], seen, i, junk, mine)
  {
    var q := m.queue[m.slots[i]];
    EntryOf(m, i);
    SlotEffect(m, row, i, junk);
    assert q.(pages := q.pages) == q && q.pages[PcPage(q) := q.pages[PcPage(q)]] == q.pages;
  }

  lemma RefusedAttends(m: Sim, row: seq<int>, seen: seq<seq<int>>, i: int, junk: int)
    requires Inv(m) && GoodRow(row) && 0 <= i < MAXPROCESSES && m.slots[i] >= 0 && PageNo(junk)
    requires (forall u :: u in seen ==> |u| == MAXPROCESSES) && Exact(m.queue[m.slots[i]], row, seen, i)
    requires Evicts(m, Entry(m, i), i)
    ensures var mine := SlotCalls(m, Entry(m, i), row, i, junk);
      Attended(m.queue[m.slots[i]], DoAll(m, mine).queue[m.slots[i]], seen, i, junk, mine)
  {
    EntryOf(m, i);
    SlotEffect(m, row, i, junk);
    RefusedTurnCostsAPage(m, row, seen, i, junk);
  }

  lemma SlotCallsAreMine(s: Sim, e: Pentry, row: seq<int>, i: int, junk: int)
    requires Shape(s) && GoodEntry(e) && GoodRow(row) && 0 <= junk < MAXPROCPAGES
    ensures forall c :: c in SlotCalls(s, e, row, i, junk) ==> c.slot == i
  {
  }

  /** The calls that the pager makes before processor i's turn, in it and after it. */
  lemma CallsAround(x: State, junk: seq<int>, i: nat) returns (before: seq<Call>, mine: seq<Call>, after: seq<Call>)
    requires GoodState(x) && GoodJunk(junk) && i < MAXPROCESSES
    ensures i == 0 ==> before == []
    ensures NextCalls(x, junk) == before + mine + after
    ensures (forall c :: c in before ==> c.slot != i) && (forall c :: c in after ==> c.slot != i)
    ensures forall c :: c in mine ==> c.slot == i
    ensures var t := Ticked(x.sim);
      && GoodEntry(Entry(t, i))
      && mine == SlotCalls(DoAll(t, before), Entry(t, i), x.stamps[i], i, junk[i])
      && Turn(x, junk).stamps[i] == SlotRow(DoAll(t, before), Entry(t, i), x.stamps[i], i, junk[i], x.tick)
  {
    var t := Ticked(x.sim);
    ViewIsGood(t);
    before, after := TurnAmongAll(t, View(t), x.stamps, x.tick, junk, i, MAXPROCESSES);
    assert View(t)[i] == Entry(t, i);
    mine := SlotCalls(DoAll(t, before), Entry(t, i), x.stamps[i], i, junk[i]);
    SlotCallsAreMine(DoAll(t, before), Entry(t, i), x.stamps[i], i, junk[i]);
  }

  /** Before and after its own turn, a processor's job is left alone. */
  lemma OwnTurnCounts(t: Sim, before: seq<Call>, mine: seq<Call>, after: seq<Call>, i: int)
    requires Inv(t) && 0 <= i < MAXPROCESSES
    requires (forall c :: c in before ==> c.slot != i) && (forall c :: c in after ==> c.slot != i)
    ensures var m := DoAll(t, before);
      && Inv(m) && SameJob(t, m, i) && Entry(m, i) == Entry(t, i)
      && SameJob(DoAll(m, mine), DoAll(t, before + mine + after), i)
  {
    var m := DoAll(t, before);
    DoAllInv(t, before);
    DoAllElsewhere(t, before, i);
    SameJobEntry(t, m, i);
    DoAllInv(m, mine);
    DoAllElsewhere(DoAll(m, mine), after, i);
    DoAllAppend(t, before + mine, after);
    DoAllAppend(t, before, mine);
  }

  lemma OnlyMine(before: seq<Call>, mine: seq<Call>, after: seq<Call>, c: Call)
    requires (forall d :: d in before ==> d.slot != c.slot) && (forall d :: d in after ==> d.slot != c.slot)
    ensures c in before + mine + after <==> c in mine
  {
  }

  lemma OwnTurnAttends(t: Sim, before: seq<Call>, after: seq<Call>, row: seq<int>, seen: seq<seq<int>>, i: int,
                       junk: int)
    requires Inv(t) && GoodRow(row) && 0 <= i < MAXPROCESSES && t.slots[i] >= 0 && PageNo(junk)
    requires forall u :: u in seen ==> |u| == MAXPROCESSES
    requires Exact(t.queue[t.slots[i]], row, seen, i)
    requires (forall c :: c in before ==> c.slot != i) && (forall c :: c in after ==> c.slot != i)
    ensures GoodEntry(Entry(t, i))
    ensures var mine := SlotCalls(DoAll(t, before), Entry(t, i), row, i, junk);
      Attended(t.queue[t.slots[i]], DoAll(t, before + mine + after).queue[t.slots[i]], seen, i, junk, mine)
  {
    EntryOf(t, i);
    var m := DoAll(t, before);
    OwnTurnCounts(t, before, SlotCalls(m, Entry(t, i), row, i, junk), after, i);
    TurnAttends(m, row, seen, i, junk);
  }

  lemma RunningExact(x: State, i: nat)
    requires LruInv(x) && i < MAXPROCESSES
    ensures Inv(Ticked(x.sim))
    ensures var t := Ticked(x.sim);
      t.slots[i] >= 0 ==> Exact(t.queue[t.slots[i]], x.stamps[i], x.seen, i)
  {
    TickedExact(x, i);
  }

  /** One tick: what is called for processor i, and what it gets. */
  lemma TickAttends(x: State, junk: seq<int>, i: nat)
    requires LruInv(x) && GoodJunk(junk) && i < MAXPROCESSES
    ensures var t := Ticked(x.sim);
      var y := Turn(x, junk).sim;
      var mine := CallsFor(NextCalls(x, junk), i);
      if Running(t, i)
      then y.slots[i] == t.slots[i]
           && Attended(t.queue[t.slots[i]], y.queue[t.slots[i]], x.seen, i, junk[i], mine)
      else mine == []
  {
    var t := Ticked(x.sim);
    RunningExact(x, i);
    var before, mine, after := CallsAround(x, junk, i);
    CallsForMiddle(before, mine, after, i);
    if Running(t, i) {
      OwnTurnAttends(t, before, after, x.stamps[i], x.seen, i, junk[i]);
    }
  }

  /**
   On every run, for every processor: the pager calls nothing for it while its page is in, and asks for that page
   otherwise. If the page is then neither in nor coming, and only then, it makes exactly one page-out for that
   processor, which costs the job its least recently referenced page, and only that one.
   */
  lemma EvictsExactlyWhenRefused(procs: int, queue: seq<Process>, junks: seq<seq<int>>, junk: seq<int>, i: nat)
    requires 1 <= procs <= MAXPROCESSES && FreshQueue(queue) && i < MAXPROCESSES
    requires (forall j :: j in junks ==> GoodJunk(j)) && GoodJunk(junk)
    ensures var x := LruRun(Boot(procs, queue), junks);
      var t := Ticked(x.sim);
      var y := Turn(x, junk).sim;
      var mine := CallsFor(NextCalls(x, junk), i);
      if Running(t, i)
      then y.slots[i] == t.slots[i]
           && Attended(t.queue[t.slots[i]], y.queue[t.slots[i]], x.seen, i, junk[i], mine)
      else mine == []
  {
    LruRunInv(procs, queue, junks);
    TickAttends(LruRun(Boot(procs, queue), junks), junk, i);
  }

  // ---- The first processor ------------------------------------------------------------

  /** A tick of LRU on the first processor, whose job lacks its page and is refused: m of its pages are in before. */
  predicate Hungry(t: Sim, m: nat) {
    && Inv(t) && t.slots[0] >= 0 && Evicts(t, Entry(t, 0), 0)
    && |Residents(t.queue[t.slots[0]])| == m
  }

  /** What is left of the first processor's pages after its refused turn. */
  lemma RefusedTick(x: State, junk: seq<int>, m: nat)
    requires LruInv(x) && GoodJunk(junk) && Hungry(Ticked(x.sim), m)
    ensures var t := Ticked(x.sim);
      var r := Turn(x, junk).sim;
      && r.slots[0] == t.slots[0]
      && |Residents(r.queue[t.slots[0]])| == (if m == 0 then 0 else m - 1)
      && (m == 0 ==> Out(0, junk[0]) in NextCalls(x, junk))
  {
    var before, mine, after := CallsAround(x, junk, 0);
    RunningExact(x, 0);
    OwnTurnCounts(Ticked(x.sim), before, mine, after, 0);
    RefusedFirst(Ticked(x.sim), x.stamps[0], x.seen, junk[0], mine, m);
    OnlyMine(before, mine, after, Out(0, junk[0]));
  }

  lemma RefusedFirst(t: Sim, row: seq<int>, seen: seq<seq<int>>, junk: int, mine: seq<Call>, m: nat)
    requires Hungry(t, m) && GoodRow(row) && PageNo(junk) && forall u :: u in seen ==> |u| == MAXPROCESSES
    requires Exact(t.queue[t.slots[0]], row, seen, 0) && mine == SlotCalls(t, Entry(t, 0), row, 0, junk)
    ensures |Residents(DoAll(t, mine).queue[t.slots[0]])| == (if m == 0 then 0 else m - 1)
    ensures m == 0 ==> Out(0, junk) in mine
  {
    RefusedTurnCostsAPage(t, row, seen, 0, junk);
    RefusedCount(t.queue[t.slots[0]], DoAll(t, mine).queue[t.slots[0]], seen, 0, junk, mine[1]);
    assert mine[1] in mine;
  }

  lemma RefusedCount(q: Process, r: Process, seen: seq<seq<int>>, i: int, junk: int, c: Call)
    requires GoodProcess(q) && GoodProcess(r) && 0 <= i < MAXPROCESSES
    requires forall u :: u in seen ==> |u| == MAXPROCESSES
    requires Refused(q, r, seen, i, junk, c)
    ensures |Residents(q)| == 0 ==> c.page == junk && |Residents(r)| == 0
    ensures |Residents(q)| > 0 ==> |Residents(r)| == |Residents(q)| - 1
  {
    if HasResident(q) {
      assert c.page in Residents(q);
    } else {
      assert Residents(q) == {};
    }
  }
}
