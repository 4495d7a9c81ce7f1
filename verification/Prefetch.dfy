/** What the predictive pager asks for, processor by processor, and what becomes of it. */
module Prefetch {
  import opened Params
  import opened Simulator
  import opened Invariants
  import opened Locality
  import opened Predict
  import opened PredictRuns

  // ---- The calls for one processor --------------------------------------------

  lemma {:induction false} CallsAreSlotMoves(ms: seq<Memory>, view: seq<Pentry>, fars: seq<Beyond>, n: nat, i: nat)
    requires GoodMemories(ms) && L.GoodView(view) && GoodFars(fars) && n <= MAXPROCESSES && i < MAXPROCESSES
    ensures CallsFor(PredictCalls(ms, view, fars, n), i)
            == if i < n then SlotMoves(ms[i], view[i], i, fars[i]) else []
  {
    if n > 0 {
      var k := n - 1;
      CallsAreSlotMoves(ms, view, fars, k, i);
      var mine := SlotMoves(ms[k], view[k], k, fars[k]);
      CallsForAppend(PredictCalls(ms, view, fars, k), mine, i);
      if k == i {
        CallsForAll(mine, i);
        assert [] + mine == mine;
      } else {
        CallsForOthers(mine, i);
        assert CallsFor(PredictCalls(ms, view, fars, k), i) + [] == CallsFor(PredictCalls(ms, view, fars, k), i);
      }
    }
  }

  /** The order in which pages are asked for: the needed page, the first prediction, the second. */
  function OrderOf(need: int, a: int, p: int): int {
    if p == need then 0 else if p == a then 1 else 2
  }

  /** A page is asked for in its place, or it was asked for already. */
  predicate InOrder(ins: seq<Call>, need: int, a: int) {
    forall j, k :: 0 <= j < k < |ins| ==>
      OrderOf(need, a, ins[j].page) <= OrderOf(need, a, ins[k].page) || ins[k] in ins[..j]
  }

  /** The calls for a running processor, of which the first outs are page-outs; a and b are the predictions. */
  predicate Planned(calls: seq<Call>, e: Pentry, i: int, a: int, b: int, outs: nat)
    requires L.GoodEntry(e)
  {
    && outs <= |calls|
    && (forall j :: 0 <= j < |calls| ==> calls[j].slot == i && (calls[j].Out? <==> j < outs))
    && (forall p :: 0 <= p < MAXPROCPAGES ==>
          && (Out(i, p) in calls <==> e.pages[p] && p != L.Needs(e) && p != a && p != b)
          && (In(i, p) in calls <==> !e.pages[p] && (p == L.Needs(e) || p == a || p == b)))
    && InOrder(calls[outs..], L.Needs(e), a)
  }

  lemma FetchIs(e: Pentry, i: int, p: int, far: Beyond)
    requires L.GoodEntry(e)
    ensures Fetch(e, i, p, far) == [] || Fetch(e, i, p, far) == [In(i, p)]
    ensures PageNo(p) ==> (Fetch(e, i, p, far) == [] <==> e.pages[p])
  {
  }

  lemma AskedInOrder(x: seq<Call>, y: seq<Call>, z: seq<Call>, need: int, a: int, b: int, i: int)
    requires (x == [] || x == [In(i, need)]) && (y == [] || y == [In(i, a)]) && (z == [] || z == [In(i, b)])
    requires (a == need ==> x == y) && (b == need ==> x == z) && (b == a ==> y == z)
    ensures InOrder(x + y + z, need, a)
  {
    var ins := x + y + z;
    forall j, k | 0 <= j < k < |ins| && OrderOf(need, a, ins[j].page) > OrderOf(need, a, ins[k].page)
      ensures ins[k] in ins[..j]
    {
      assert ins[k].page == need ==> x == [ins[k]];
      assert ins[0] in ins[..j];
    }
  }

  lemma InOneOf(first: seq<Call>, x: seq<Call>, y: seq<Call>, z: seq<Call>, c: Call)
    ensures c in first + x + y + z <==> c in first || c in x || c in y || c in z
  {
  }

  lemma ActsArePlanned(e: Pentry, i: int, a: int, b: int, far: Beyond) returns (outs: nat)
    requires L.GoodEntry(e)
    ensures Planned(Acts(e, i, a, b, far), e, i, a, b, outs)
  {
    var need := L.Needs(e);
    var first := Evictions(e, i, a, b, MAXPROCPAGES);
    outs := |first|;
    var x, y, z := Fetch(e, i, need, far), Fetch(e, i, a, far), Fetch(e, i, b, far);
    FetchIs(e, i, need, far);
    FetchIs(e, i, a, far);
    FetchIs(e, i, b, far);
    AskedInOrder(x, y, z, need, a, b, i);
    PlanOf(first, x, y, z, Acts(e, i, a, b, far), i);
    forall p | 0 <= p < MAXPROCPAGES
      ensures Out(i, p) in Acts(e, i, a, b, far) <==> e.pages[p] && p != need && p != a && p != b
      ensures In(i, p) in Acts(e, i, a, b, far) <==> !e.pages[p] && (p == need || p == a || p == b)
    {
      InOneOf(first, x, y, z, Out(i, p));
      InOneOf(first, x, y, z, In(i, p));
    }
  }

  /** Page-outs and then page-ins. */
  lemma PlanOf(first: seq<Call>, x: seq<Call>, y: seq<Call>, z: seq<Call>, calls: seq<Call>, i: int)
    requires calls == first + x + y + z && forall c :: c in first ==> c.slot == i && c.Out?
    requires forall c :: c in x || c in y || c in z ==> c.slot == i && c.In?
    ensures |first| <= |calls| && calls[|first|..] == x + y + z
    ensures forall j :: 0 <= j < |calls| ==> calls[j].slot == i && (calls[j].Out? <==> j < |first|)
  {
    var ins := x + y + z;
    assert calls == first + ins;
    forall j | 0 <= j < |calls| ensures calls[j].slot == i && (calls[j].Out? <==> j < |first|) {
      if j < |first| {
        assert calls[j] == first[j] && first[j] in first;
      } else {
        assert calls[j] == ins[j - |first|] && ins[j - |first|] in ins;
      }
    }
  }

  /**
   The pager pages out exactly the resident pages that are neither needed nor predicted, asks exactly for the pages that
   are needed or predicted and not resident, in this order, the needed page first and then the likelier prediction; for
   an idle processor it calls nothing.
   */
  lemma CallsArePlanned(ms: seq<Memory>, view: seq<Pentry>, fars: seq<Beyond>, i: nat) returns (outs: nat)
    requires GoodMemories(ms) && L.GoodView(view) && GoodFars(fars) && i < MAXPROCESSES
    ensures var mine := CallsFor(PredictCalls(ms, view, fars, MAXPROCESSES), i);
      if view[i].active
      then var (a, b) := Predictions(ms[i], L.Needs(view[i]), fars[i]); Planned(mine, view[i], i, a, b, outs)
      else mine == []
  {
    outs := 0;
    CallsAreSlotMoves(ms, view, fars, MAXPROCESSES, i);
    if view[i].active {
      var (a, b) := Predictions(ms[i], L.Needs(view[i]), fars[i]);
      outs := ActsArePlanned(view[i], i, a, b, fars[i]);
    }
  }

  lemma {:induction false} CallsForHas(calls: seq<Call>, c: Call)
    ensures c in CallsFor(calls, c.slot) <==> c in calls
  {
    if calls != [] {
      CallsForHas(calls[1..], c);
      InCons(c, calls);
    }
  }

  /** Which pages are asked for, and which are paged out. */
  lemma CallsOfPage(ms: seq<Memory>, view: seq<Pentry>, fars: seq<Beyond>, i: nat, p: int)
    requires GoodMemories(ms) && L.GoodView(view) && GoodFars(fars) && i < MAXPROCESSES && PageNo(p)
    ensures var calls := PredictCalls(ms, view, fars, MAXPROCESSES);
      var keep := KeepsPage(ms[i], view[i], fars[i], p);
      && (In(i, p) in calls <==> view[i].active && !view[i].pages[p] && keep)
      && (Out(i, p) in calls <==> view[i].active && view[i].pages[p] && !keep)
  {
    var outs := CallsArePlanned(ms, view, fars, i);
    CallsForHas(PredictCalls(ms, view, fars, MAXPROCESSES), In(i, p));
    CallsForHas(PredictCalls(ms, view, fars, MAXPROCESSES), Out(i, p));
  }

  // ---- What becomes of calls --------------------------------------------------------

  /** How many of the calls are page-ins. */
  function Ins(calls: seq<Call>): nat {
    if calls == [] then 0 else (if calls[0].In? then 1 else 0) + Ins(calls[1..])
  }

  lemma {:induction false} InsAppend(a: seq<Call>, b: seq<Call>)
    ensures Ins(a + b) == Ins(a) + Ins(b)
  {
    if a == [] {
      assert a + b == b;
    } else {
      assert (a + b)[1..] == a[1..] + b;
      InsAppend(a[1..], b);
    }
  }

  lemma DoAvail(s: Sim, c: Call)
    requires Inv(s)
    ensures s.avail - (if c.In? then 1 else 0) <= Do(s, c).0.avail <= s.avail
  {
  }

  lemma {:induction false} DoAllAvail(s: Sim, calls: seq<Call>)
    requires Inv(s)
    ensures DoAll(s, calls).avail <= s.avail
    decreases |calls|
  {
    if calls != [] {
      DoAvail(s, calls[0]);
      DoInv(s, calls[0]);
      DoAllAvail(Do(s, calls[0]).0, calls[1..]);
    }
  }

  /** A page that is out starts to come when it is asked for, unless no frame is left. */
  lemma AskedOnce(s: Sim, i: int, p: int)
    requires Inv(s) && 0 <= i < MAXPROCESSES && s.slots[i] >= 0 && PageNo(p) && Cell(s, i, p) < -PAGEWAIT
    ensures var u := Do(s, In(i, p)).0;
      Cell(u, i, p) == if s.avail > 0 then PAGEWAIT else Cell(s, i, p)
  {
    assert SlotOk(s, i);
  }

  lemma StaysOut(s: Sim, c: Call, i: int, p: int)
    requires Inv(s) && 0 <= i < MAXPROCESSES && s.slots[i] >= 0 && PageNo(p) && Cell(s, i, p) < -PAGEWAIT
    requires c != In(i, p)
    ensures Cell(Do(s, c).0, i, p) == Cell(s, i, p)
  {
    DoKeeps(s, c, i);
  }

  lemma {:induction false} AskedComes(s: Sim, calls: seq<Call>, i: int, p: int)
    requires Inv(s) && 0 <= i < MAXPROCESSES && s.slots[i] >= 0 && PageNo(p) && Cell(s, i, p) < -PAGEWAIT
    ensures var u := DoAll(s, calls);
      && (Cell(u, i, p) == Cell(s, i, p) || (In(i, p) in calls && Cell(u, i, p) == PAGEWAIT))
      && (In(i, p) in calls && (u.avail > 0 || s.avail >= Ins(calls)) ==> Cell(u, i, p) == PAGEWAIT)
    decreases |calls|
  {
    if calls != [] {
      var c := calls[0];
      var r := Do(s, c).0;
      InCons(In(i, p), calls);
      DoInv(s, c);
      DoAvail(s, c);
      DoAllAvail(r, calls[1..]);
      if c == In(i, p) {
        AskedOnce(s, i, p);
      } else {
        StaysOut(s, c, i, p);
      }
      if Cell(r, i, p) == PAGEWAIT {
        DoAllKeeps(r, calls[1..], i, p);
      } else {
        AskedComes(r, calls[1..], i, p);
      }
    }
  }

  /** A resident page that is paged out is on its way. */
  lemma {:induction false} PagedOutGoes(s: Sim, calls: seq<Call>, i: int, p: int)
    requires Inv(s) && 0 <= i < MAXPROCESSES && s.slots[i] >= 0 && PageNo(p) && Cell(s, i, p) == 0
    ensures Cell(DoAll(s, calls), i, p) == if Out(i, p) in calls then -1 else 0
    decreases |calls|
  {
    if calls != [] {
      var r := Do(s, calls[0]).0;
      InCons(Out(i, p), calls);
      DoInv(s, calls[0]);
      DoKeeps(s, calls[0], i);
      DoResident(s, calls[0], i, p);
      if Cell(r, i, p) == 0 {
        PagedOutGoes(r, calls[1..], i, p);
      } else {
        DoAllKeeps(r, calls[1..], i, p);
      }
    }
  }

  // ---- What becomes of the pager's ----------------------------------------------------

  lemma {:induction false} OutsOnly(calls: seq<Call>)
    requires forall c :: c in calls ==> c.Out?
    ensures Ins(calls) == 0
  {
    if calls != [] {
      assert calls[0] in calls;
      OutsOnly(calls[1..]);
    }
  }

  lemma InsOfOne(m: Memory, e: Pentry, i: int, far: Beyond)
    requires GoodMemory(m) && L.GoodEntry(e)
    ensures Ins(SlotMoves(m, e, i, far)) <= 3
  {
    if e.active {
      var (a, b) := Predictions(m, L.Needs(e), far);
      var first := Evictions(e, i, a, b, MAXPROCPAGES);
      var x, y, z := Fetch(e, i, L.Needs(e), far), Fetch(e, i, a, far), Fetch(e, i, b, far);
      OutsOnly(first);
      InsAppend(first + x + y, z);
      InsAppend(first + x, y);
      InsAppend(first, x);
    }
  }

  lemma {:induction false} InsOfAll(ms: seq<Memory>, view: seq<Pentry>, fars: seq<Beyond>, n: nat)
    requires GoodMemories(ms) && L.GoodView(view) && GoodFars(fars) && n <= MAXPROCESSES
    ensures Ins(PredictCalls(ms, view, fars, n)) <= 3 * n
  {
    if n > 0 {
      var k := n - 1;
      InsOfAll(ms, view, fars, k);
      InsAppend(PredictCalls(ms, view, fars, k), SlotMoves(ms[k], view[k], k, fars[k]));
      InsOfOne(ms[k], view[k], k, fars[k]);
    }
  }

  /** Frames that a turn of the pager can ask for. */
  const ENOUGH := 3 * MAXPROCESSES

  /** A cell is c while free frames are free, and d after the turn with left frames free; keep says if it was kept. */
  predicate Becomes(c: int, d: int, keep: bool, free: int, left: int) {
    if c == 0 then d == if keep then 0 else -1
    else if c >= -PAGEWAIT || !keep then d == c
    else d == PAGEWAIT || (d == c && left == 0 && free < ENOUGH)
  }

  lemma CellBecomes(t: Sim, ms: seq<Memory>, fars: seq<Beyond>, i: nat, p: int)
    requires Inv(t) && GoodMemories(ms) && L.GoodView(View(t)) && GoodFars(fars)
    requires i < MAXPROCESSES && Running(t, i) && PageNo(p)
    ensures var u := DoAll(t, PredictCalls(ms, View(t), fars, MAXPROCESSES));
      Becomes(Cell(t, i, p), Cell(u, i, p), KeepsPage(ms[i], View(t)[i], fars[i], p), t.avail, u.avail)
  {
    var calls := PredictCalls(ms, View(t), fars, MAXPROCESSES);
    EntryOf(t, i);
    DoAllInv(t, calls);
    CallsOfPage(ms, View(t), fars, i, p);
    if Cell(t, i, p) == 0 {
      PagedOutGoes(t, calls, i, p);
    } else if Cell(t, i, p) >= -PAGEWAIT {
      DoAllKeeps(t, calls, i, p);
    } else {
      InsOfAll(ms, View(t), fars, MAXPROCESSES);
      AskedComes(t, calls, i, p);
    }
  }

  /**
   On every run, after every turn of the pager: a resident page of a running processor stays if it is needed or
   predicted and is on its way out if not; a moving page goes on moving; and a page that is out is on its way in if and
   only if it is needed or predicted, unless memory was short and no frame is left.
   */
  lemma CellsOnRuns(procs: int, queue: seq<Process>, fars: seq<seq<Beyond>>, far: seq<Beyond>, i: nat, p: int)
    requires 1 <= procs <= MAXPROCESSES && FreshQueue(queue) && i < MAXPROCESSES && PageNo(p)
    requires (forall f :: f in fars ==> GoodFars(f)) && GoodFars(far)
    ensures var x := PredictRun(Boot(procs, queue), fars);
      var t := Ticked(x.sim);
      var u := Turn(x, far).sim;
      Running(t, i) ==>
        Becomes(Cell(t, i, p), Cell(u, i, p), KeepsPage(x.ms[i], View(t)[i], far[i], p), t.avail, u.avail)
  {
    PredictRunInv(procs, queue, fars);
    var x := PredictRun(Boot(procs, queue), fars);
    TickedInv(x.sim);
    L.ViewIsGood(Ticked(x.sim));
    if Running(Ticked(x.sim), i) {
      CellBecomes(Ticked(x.sim), x.ms, far, i, p);
    }
  }
}
