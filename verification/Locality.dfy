/**
 A tick as one processor sees it: the others do not disturb its job.
 What a tick does to processor i is said by relating the state before it to the state after it, so the theorems
 about pagers need no induction over processors of their own.
 */
module Locality {
  import opened Params
  import opened Simulator
  import opened Invariants

  /** The job of processor i is the same, unchanged, in s and t. */
  predicate SameJob(s: Sim, t: Sim, i: int)
    requires Shape(s) && Shape(t) && 0 <= i < MAXPROCESSES
  {
    s.slots[i] == t.slots[i] && (s.slots[i] >= 0 ==> s.queue[s.slots[i]] == t.queue[s.slots[i]])
  }

  /** Processor i runs the same job, now in state q. */
  predicate Runs(t: Sim, i: int, k: int, q: Process)
    requires Shape(t) && 0 <= i < MAXPROCESSES
  {
    0 <= k < QUEUESIZE && t.slots[i] == k && t.queue[k] == q
  }

  /** Processor i is idle or has just been given a new job. */
  predicate Reloaded(t: Sim, i: int)
    requires Shape(t) && 0 <= i < MAXPROCESSES
  {
    t.slots[i] < 0 || Fresh(t.queue[t.slots[i]])
  }

  /** What stepping does to processor i. */
  predicate SteppedTo(s: Sim, t: Sim, i: int)
    requires Shape(s) && Shape(t) && 0 <= i < MAXPROCESSES
  {
    var k := s.slots[i];
    if k < 0 then t.slots[i] < 0
    else if StepProcess(s.queue[k]).1 then Runs(t, i, k, StepProcess(s.queue[k]).0)
    else Reloaded(t, i)
  }

  lemma StepElsewhere(s: Sim, i: int, j: int)
    requires Inv(s) && 0 <= i < s.procs && 0 <= j < MAXPROCESSES && i != j
    ensures SameJob(s, StepSlot(s, i), j)
  {
    assert SlotOk(s, i) && SlotOk(s, j);
    assert s.slots[i] >= 0 ==> s.slots[i] != s.slots[j];
  }

  lemma StepHere(s: Sim, i: int)
    requires Inv(s) && 0 <= i < s.procs
    ensures SteppedTo(s, StepSlot(s, i), i)
  {
    assert SlotOk(s, i);
  }

  /** ... once processors 0..n have stepped. */
  predicate SteppedBy(s: Sim, t: Sim, n: nat, i: int)
    requires Shape(s) && Shape(t) && 0 <= i < MAXPROCESSES
  {
    if n <= i then SameJob(s, t, i) else SteppedTo(s, t, i)
  }

  lemma StepNext(s: Sim, t: Sim, n: nat, n': nat, i: int)
    requires Shape(s) && Inv(t) && n' == n + 1 <= t.procs && 0 <= i < t.procs
    requires SteppedBy(s, t, n, i)
    ensures SteppedBy(s, StepSlot(t, n), n', i)
  {
    if n == i {
      StepHere(t, i);
    } else {
      StepElsewhere(t, n, i);
    }
  }

  lemma {:induction false} AllStepAt(s: Sim, n: nat, i: int)
    requires Inv(s) && n <= s.procs && 0 <= i < s.procs
    ensures SteppedBy(s, AllStep(s, n), n, i)
  {
    if n > 0 {
      var m := n - 1;
      AllStepAt(s, m, i);
      AllStepInv(s, m);
      StepNext(s, AllStep(s, m), m, n, i);
    }
  }

  lemma AgeElsewhere(s: Sim, i: int, j: int)
    requires Inv(s) && 0 <= i < s.procs && 0 <= j < MAXPROCESSES && i != j
    ensures SameJob(s, AgeSlot(s, i), j)
  {
    assert s.slots[i] >= 0 ==> s.slots[i] != s.slots[j];
  }

  /** What ageing does to processor i. */
  predicate AgedTo(s: Sim, t: Sim, i: int)
    requires Shape(s) && Shape(t) && 0 <= i < MAXPROCESSES
  {
    var k := s.slots[i];
    if k < 0 then t.slots[i] < 0 else Runs(t, i, k, s.queue[k].(pages := Aged(s.queue[k].pages)))
  }

  lemma AgeHere(s: Sim, i: int)
    requires Inv(s) && 0 <= i < s.procs
    ensures AgedTo(s, AgeSlot(s, i), i)
  {
    assert SlotOk(s, i);
  }

  /** ... once it has been done to processors 0..n. */
  predicate AgedBy(s: Sim, t: Sim, n: nat, i: int)
    requires Shape(s) && Shape(t) && 0 <= i < MAXPROCESSES
  {
    if n <= i then SameJob(s, t, i) else AgedTo(s, t, i)
  }

  lemma AgeNext(s: Sim, t: Sim, n: nat, n': nat, i: int)
    requires Shape(s) && Inv(t) && n' == n + 1 <= t.procs && 0 <= i < t.procs
    requires AgedBy(s, t, n, i)
    ensures AgedBy(s, AgeSlot(t, n), n', i)
  {
    if n == i {
      AgeHere(t, i);
    } else {
      AgeElsewhere(t, n, i);
    }
  }

  lemma {:induction false} AllAgeAt(s: Sim, n: nat, i: int)
    requires Inv(s) && n <= s.procs && 0 <= i < s.procs
    ensures AgedBy(s, AllAge(s, n), n, i)
  {
    if n > 0 {
      var m := n - 1;
      AllAgeAt(s, m, i);
      AllAgeInv(s, m);
      AgeNext(s, AllAge(s, m), m, n, i);
    }
  }

  /** The state of a running job after it has stepped and aged. */
  function TickedProcess(q: Process): (r: Process)
    requires GoodProcess(q)
    ensures GoodProcess(r)
  {
    var p := StepProcess(q).0;
    p.(pages := Aged(p.pages))
  }

  /** What a tick, up to the pager, does to processor i. */
  predicate TickedTo(s: Sim, t: Sim, i: int)
    requires Shape(s) && Shape(t) && 0 <= i < MAXPROCESSES
  {
    var k := s.slots[i];
    if k < 0 then t.slots[i] < 0
    else if StepProcess(s.queue[k]).1 then Runs(t, i, k, TickedProcess(s.queue[k]))
    else Reloaded(t, i)
  }

  lemma TickedAt(s: Sim, i: int)
    requires Inv(s) && 0 <= i < s.procs
    ensures TickedTo(s, Ticked(s), i)
  {
    AllStepAt(s, s.procs, i);
    AllStepInv(s, s.procs);
    var u := AllStep(s, s.procs);
    AllAgeAt(u, s.procs, i);
    if u.slots[i] >= 0 && Fresh(u.queue[u.slots[i]]) {
      FreshAges(u.queue[u.slots[i]]);
    }
  }

  lemma FreshAges(q: Process)
    requires Fresh(q)
    ensures Fresh(q.(pages := Aged(q.pages)))
  {
  }

  lemma DoElsewhere(s: Sim, c: Call, i: int)
    requires Inv(s) && 0 <= i < MAXPROCESSES && c.slot != i
    ensures SameJob(s, Do(s, c).0, i)
  {
    if 0 <= c.slot < MAXPROCESSES && s.slots[c.slot] >= 0 {
      assert s.slots[c.slot] != s.slots[i];
    }
  }

  lemma {:induction false} DoAllElsewhere(s: Sim, calls: seq<Call>, i: int)
    requires Inv(s) && 0 <= i < MAXPROCESSES && forall c :: c in calls ==> c.slot != i
    ensures SameJob(s, DoAll(s, calls), i)
    decreases |calls|
  {
    if calls != [] {
      DoElsewhere(s, calls[0], i);
      DoInv(s, calls[0]);
      DoAllElsewhere(Do(s, calls[0]).0, calls[1..], i);
    }
  }

  lemma SameJobEntry(s: Sim, t: Sim, i: int)
    requires Shape(s) && Shape(t) && 0 <= i < MAXPROCESSES && SameJob(s, t, i)
    ensures Entry(s, i) == Entry(t, i)
  {
  }

  /** What a page-in does to the process it is for. */
  lemma InEffect(s: Sim, i: int, p: int)
    requires Inv(s) && Callable(s, i, p)
    ensures var q := s.queue[s.slots[i]];
      var (t, ok) := PageIn(s, i, p);
      && (q.pages[p] >= 0 ==> ok && t == s)
      && (q.pages[p] < 0 && !ok ==> t == s)
      && (q.pages[p] < 0 && ok ==> t.queue[s.slots[i]] == q.(pages := q.pages[p := PAGEWAIT]))
  {
  }

  /** What a page-out does to the process it is for. */
  lemma OutEffect(s: Sim, i: int, p: int)
    requires Inv(s) && Callable(s, i, p)
    ensures var q := s.queue[s.slots[i]];
      var (t, ok) := PageOut(s, i, p);
      && (q.pages[p] == 0 ==> ok && t.queue[s.slots[i]] == q.(pages := q.pages[p := -1]))
      && (q.pages[p] != 0 ==> t == s && (ok <==> q.pages[p] < 0))
  {
  }

  /**
   What the answers say: a page-in succeeds if and only if the page is then in or coming, a page-out if and only if it
   is then going or out. They change something only for a page that is out, while a frame is free, and for one that is
   in.
   */
  lemma AnswersTell(s: Sim, i: int, p: int)
    requires Inv(s) && 0 <= i < s.procs && Running(s, i) && PageNo(p)
    ensures var (t, ok) := PageIn(s, i, p);
      && (ok <==> Cell(t, i, p) >= 0)
      && (t != s <==> Cell(s, i, p) < -PAGEWAIT && s.avail > 0) && (t != s ==> ok && t.avail == s.avail - 1)
    ensures var (t, ok) := PageOut(s, i, p);
      && (ok <==> Cell(t, i, p) < 0)
      && (t != s <==> Cell(s, i, p) == 0) && (t != s ==> ok) && t.avail == s.avail
  {
  }

  lemma EntryOf(s: Sim, i: int)
    requires Inv(s) && 0 <= i < MAXPROCESSES && s.slots[i] >= 0
    ensures var q := s.queue[s.slots[i]];
      && Entry(s, i) == Pentry(true, q.pc, MAXPROCPAGES, Entry(s, i).pages)
      && i < s.procs
      && forall p :: 0 <= p < MAXPROCPAGES ==> Entry(s, i).pages[p] == (q.pages[p] == 0)
  {
    assert SlotOk(s, i);
  }

  lemma DoOne(s: Sim, c: Call)
    requires Shape(s)
    ensures DoAll(s, [c]) == Do(s, c).0
  {
    assert DoAll(s, [c]) == DoAll(Do(s, c).0, [c][1..]);
  }

  lemma DoTwo(s: Sim, c: Call, d: Call)
    requires Shape(s)
    ensures DoAll(s, [c, d]) == Do(Do(s, c).0, d).0
  {
    assert [c, d][1..] == [d];
    DoOne(Do(s, c).0, d);
  }

  /** A call moves no cell but the one it names, and that one only from out to coming or from in to going. */
  lemma DoKeeps(s: Sim, c: Call, i: int)
    requires Inv(s) && 0 <= i < MAXPROCESSES && s.slots[i] >= 0
    ensures var q := s.queue[s.slots[i]];
      var r := Do(s, c).0.queue[s.slots[i]];
      && r == q.(pages := r.pages) && |r.pages| == MAXPROCPAGES
      && forall p :: 0 <= p < MAXPROCPAGES && r.pages[p] != q.pages[p] ==>
           || (q.pages[p] < -PAGEWAIT && c == In(i, p) && r.pages[p] == PAGEWAIT)
           || (q.pages[p] == 0 && c == Out(i, p) && r.pages[p] == -1)
  {
    var q := s.queue[s.slots[i]];
    assert q == q.(pages := q.pages);
    if c.slot != i {
      DoElsewhere(s, c, i);
    }
  }

  /** A coming or going cell outlasts any calls; a resident one outlasts calls that do not page it out. */
  lemma {:induction false} DoAllKeeps(s: Sim, calls: seq<Call>, i: int, p: int)
    requires Inv(s) && 0 <= i < MAXPROCESSES && s.slots[i] >= 0 && 0 <= p < MAXPROCPAGES
    ensures var q := s.queue[s.slots[i]];
      var r := DoAll(s, calls).queue[s.slots[i]];
      && r == q.(pages := r.pages) && |r.pages| == MAXPROCPAGES
      && (q.pages[p] != 0 && q.pages[p] >= -PAGEWAIT ==> r.pages[p] == q.pages[p])
      && (q.pages[p] == 0 && Out(i, p) !in calls ==> r.pages[p] == 0)
    decreases |calls|
  {
    var q := s.queue[s.slots[i]];
    assert q == q.(pages := q.pages);
    if calls != [] {
      DoKeeps(s, calls[0], i);
      DoInv(s, calls[0]);
      DoAllKeeps(Do(s, calls[0]).0, calls[1..], i, p);
    }
  }

  lemma DoResident(s: Sim, c: Call, i: int, p: int)
    requires Inv(s) && 0 <= i < MAXPROCESSES && s.slots[i] >= 0 && 0 <= p < MAXPROCPAGES
    ensures Do(s, c).0.queue[s.slots[i]].pages[p] == 0 <==>
              s.queue[s.slots[i]].pages[p] == 0 && c != Out(i, p)
  {
    DoKeeps(s, c, i);
    assert SlotOk(s, i);
    if c == Out(i, p) {
      OutEffect(s, i, p);
    }
  }

  lemma InCons(c: Call, calls: seq<Call>)
    requires calls != []
    ensures c in calls <==> c == calls[0] || c in calls[1..]
  {
    assert calls == [calls[0]] + calls[1..];
  }

  /** Calls leave a page of processor i in exactly when it was in and none of them pages it out. */
  lemma {:induction false} DoAllResident(s: Sim, calls: seq<Call>, i: int, p: int)
    requires Inv(s) && 0 <= i < MAXPROCESSES && s.slots[i] >= 0 && 0 <= p < MAXPROCPAGES
    ensures DoAll(s, calls).queue[s.slots[i]].pages[p] == 0 <==>
              s.queue[s.slots[i]].pages[p] == 0 && Out(i, p) !in calls
    decreases |calls|
  {
    if calls != [] {
      DoResident(s, calls[0], i, p);
      DoInv(s, calls[0]);
      DoAllResident(Do(s, calls[0]).0, calls[1..], i, p);
      InCons(Out(i, p), calls);
    }
  }

  // ---- Calls by processor ---------------------------------------------------

  /** The calls for processor i, in order. */
  function CallsFor(calls: seq<Call>, i: int): (mine: seq<Call>)
    ensures forall c :: c in mine ==> c in calls && c.slot == i
  {
    if calls == [] then []
    else (if calls[0].slot == i then [calls[0]] else []) + CallsFor(calls[1..], i)
  }

  lemma {:induction false} CallsForAppend(a: seq<Call>, b: seq<Call>, i: int)
    ensures CallsFor(a + b, i) == CallsFor(a, i) + CallsFor(b, i)
  {
    if a == [] {
      assert a + b == b;
    } else {
      assert (a + b)[1..] == a[1..] + b;
      CallsForAppend(a[1..], b, i);
    }
  }

  lemma {:induction false} CallsForOthers(calls: seq<Call>, i: int)
    requires forall c :: c in calls ==> c.slot != i
    ensures CallsFor(calls, i) == []
  {
    if calls != [] {
      CallsForOthers(calls[1..], i);
    }
  }

  lemma {:induction false} CallsForAll(calls: seq<Call>, i: int)
    requires forall c :: c in calls ==> c.slot == i
    ensures CallsFor(calls, i) == calls
  {
    if calls != [] {
      CallsForAll(calls[1..], i);
    }
  }

  /** Calls for i in the middle of calls for others. */
  lemma CallsForMiddle(before: seq<Call>, mine: seq<Call>, after: seq<Call>, i: int)
    requires (forall c :: c in before ==> c.slot != i) && (forall c :: c in after ==> c.slot != i)
    requires forall c :: c in mine ==> c.slot == i
    ensures CallsFor(before + mine + after, i) == mine
  {
    CallsForAppend(before + mine, after, i);
    CallsForAppend(before, mine, i);
    CallsForOthers(before, i);
    CallsForAll(mine, i);
    CallsForOthers(after, i);
  }
}
