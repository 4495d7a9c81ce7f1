/** The basic pager: it serves the first active processor only. */
module Basic {
  import opened Params
  import opened Sums
  import opened Simulator
  import opened Invariants
  import opened Locality
  import opened Lru

  /** The first active processor from i on, MAXPROCESSES if there is none. */
  function FirstActive(view: seq<Pentry>, i: nat): (r: int)
    requires |view| == MAXPROCESSES && i <= MAXPROCESSES
    ensures i <= r <= MAXPROCESSES
    ensures r < MAXPROCESSES ==> view[r].active
    ensures forall j :: i <= j < r ==> !view[j].active
    decreases MAXPROCESSES - i
  {
    if i == MAXPROCESSES || view[i].active then i else FirstActive(view, i + 1)
  }

  /** Page-outs tried from page j on, until one is accepted; the needed page is passed over. */
  function Outs(s: Sim, i: int, need: int, j: nat): seq<Call>
    requires Shape(s)
    decreases MAXPROCPAGES - j
  {
    if j >= MAXPROCPAGES then []
    else if j == need then Outs(s, i, need, j + 1)
    else if PageOut(s, i, j).1 then [Out(i, j)]
    else [Out(i, j)] + Outs(s, i, need, j + 1)
  }

  /** The calls of one invocation. */
  function BasicCalls(s: Sim, view: seq<Pentry>): seq<Call>
    requires Shape(s) && GoodView(view)
  {
    var i := FirstActive(view, 0);
    if i == MAXPROCESSES || view[i].pages[Needs(view[i])] then []
    else if PageIn(s, i, Needs(view[i])).1 then [In(i, Needs(view[i]))]
    else [In(i, Needs(view[i]))] + Outs(s, i, Needs(view[i]), 0)
  }

  /** The calls that the pager makes when machine s ticks next. */
  function NextBasic(s: Sim): seq<Call>
    requires Shape(s)
  {
    ViewIsGood(Ticked(s));
    BasicCalls(Ticked(s), View(Ticked(s)))
  }

  /** The history of calls over n ticks under this pager. */
  function BasicScript(s: Sim, n: nat): (script: seq<seq<Call>>)
    requires Shape(s)
    ensures |script| == n
  {
    if n == 0 then [] else BasicScript(s, n - 1) + [NextBasic(Run(s, BasicScript(s, n - 1)))]
  }

  /** The machine after n ticks under this pager. */
  function BasicRun(s: Sim, n: nat): (t: Sim)
    requires Shape(s)
    ensures Shape(t) && t.procs == s.procs
  {
    Run(s, BasicScript(s, n))
  }

  lemma BasicRunStep(s: Sim, n: nat, n': nat)
    requires Shape(s) && n' == n + 1
    ensures BasicRun(s, n') == Tick(BasicRun(s, n), NextBasic(BasicRun(s, n)))
  {
    assert BasicScript(s, n')[..n] == BasicScript(s, n);
  }

  predicate NoneGoing(q: Process) {
    forall p :: 0 <= p < |q.pages| ==> q.pages[p] >= 0 || q.pages[p] < -PAGEWAIT
  }

  /** Processor i holds frames only if no processor before it is running, and none of them is on its way out. */
  predicate FirstHolds(s: Sim, i: int)
    requires Shape(s) && 0 <= i < MAXPROCESSES
  {
    s.slots[i] >= 0 ==>
      && NoneGoing(s.queue[s.slots[i]])
      && forall j :: 0 <= j < i && s.slots[j] >= 0 ==> AllOut(s.queue[s.slots[i]])
  }

  predicate BasicInv(s: Sim) {
    Inv(s) && forall i :: 0 <= i < MAXPROCESSES ==> FirstHolds(s, i)
  }

  lemma TickedFirstHolds(s: Sim, i: int)
    requires BasicInv(s) && 0 <= i < MAXPROCESSES
    ensures FirstHolds(Ticked(s), i)
  {
    var t := Ticked(s);
    TickedInv(s);
    assert SlotOk(t, i) && FirstHolds(s, i);
    if t.slots[i] >= 0 {
      TickedAt(s, i);
      StepProcessOk(s.queue[s.slots[i]]);
      forall j | 0 <= j < i && t.slots[j] >= 0 ensures AllOut(t.queue[t.slots[i]]) {
        TickedAt(s, j);
      }
    }
  }

  lemma TickedBasic(s: Sim)
    requires BasicInv(s)
    ensures BasicInv(Ticked(s))
  {
    TickedInv(s);
    forall i | 0 <= i < MAXPROCESSES ensures FirstHolds(Ticked(s), i) {
      TickedFirstHolds(s, i);
    }
  }

  /** A sum with a single non-zero term. */
  lemma {:induction false} SumOfOne(queue: seq<Process>, k: int)
    requires forall j :: 0 <= j < |queue| ==> GoodProcess(queue[j])
    requires forall j :: 0 <= j < |queue| && j != k ==> AllOut(queue[j])
    ensures 0 <= Sum(Held, queue) <= MAXPROCPAGES
    ensures !(0 <= k < |queue|) ==> Sum(Held, queue) == 0
  {
    if queue != [] {
      SumOfOne(queue[1..], k - 1);
      if k == 0 {
        HeldBounds(queue[0]);
      } else {
        NoneHeld(queue[0].pages);
      }
    }
  }

  /** At least PHYSICALPAGES - MAXPROCPAGES frames are always free. */
  lemma PlentyFree(s: Sim)
    requires BasicInv(s)
    ensures s.avail >= PHYSICALPAGES - MAXPROCPAGES
  {
    var f := FirstActive(View(s), 0);
    var k := if f < MAXPROCESSES then s.slots[f] else -1;
    forall h | 0 <= h < QUEUESIZE && h != k ensures AllOut(s.queue[h]) {
      if h < s.queueend && s.queue[h].active {
        var i :| 0 <= i < |s.slots| && s.slots[i] == h;
        assert SlotOk(s, i) && FirstHolds(s, i);
        assert View(s)[i].active && f < i;
        assert View(s)[f].active;
      }
    }
    SumOfOne(s.queue, k);
  }

  /** With frames to spare and nothing on its way out, a needed page that is not in can be had. */
  lemma NeededIsGranted(s: Sim, i: int)
    requires Inv(s) && 0 <= i < MAXPROCESSES && s.slots[i] >= 0 && s.avail > 0
    requires NoneGoing(s.queue[s.slots[i]])
    ensures PageIn(s, i, Needs(Entry(s, i))).1
  {
    EntryOf(s, i);
    assert Callable(s, i, Needs(Entry(s, i)));
  }

  /** The pager only ever asks for the needed page of the first active processor, and gets it. */
  lemma CallsSucceed(s: Sim)
    requires BasicInv(s) && GoodView(View(s))
    ensures var calls := BasicCalls(s, View(s));
      var i := FirstActive(View(s), 0);
      && (calls == [] || (i < MAXPROCESSES && calls == [In(i, Needs(View(s)[i]))] && Do(s, calls[0]).1))
  {
    var i := FirstActive(View(s), 0);
    if i < MAXPROCESSES {
      PlentyFree(s);
      assert FirstHolds(s, i) && View(s)[i].active;
      NeededIsGranted(s, i);
    }
  }

  lemma CallsKeep(s: Sim)
    requires BasicInv(s) && GoodView(View(s))
    ensures BasicInv(DoAll(s, BasicCalls(s, View(s))))
  {
    CallsSucceed(s);
    var calls := BasicCalls(s, View(s));
    DoAllInv(s, calls);
    if calls != [] {
      var f := FirstActive(View(s), 0);
      DoOne(s, calls[0]);
      var t := DoAll(s, calls);
      forall i | 0 <= i < MAXPROCESSES ensures FirstHolds(t, i) {
        assert FirstHolds(s, i);
        if i != f {
          DoElsewhere(s, calls[0], i);
        } else {
          EntryOf(s, f);
          InEffect(s, f, Needs(View(s)[f]));
          forall j | 0 <= j < f ensures s.slots[j] < 0 {
            assert !View(s)[j].active && SlotOk(s, j);
          }
        }
      }
    }
  }

  lemma BasicTickInv(s: Sim)
    requires BasicInv(s)
    ensures BasicInv(Tick(s, NextBasic(s)))
  {
    TickedBasic(s);
    ViewIsGood(Ticked(s));
    CallsKeep(Ticked(s));
  }

  lemma {:induction false} BasicRunInv(s: Sim, n: nat)
    requires BasicInv(s)
    ensures BasicInv(BasicRun(s, n))
  {
    if n > 0 {
      var k := n - 1;
      BasicRunInv(s, k);
      BasicRunStep(s, k, n);
      BasicTickInv(BasicRun(s, k));
    }
  }

  lemma BootBasic(procs: int, queue: seq<Process>)
    requires 1 <= procs <= MAXPROCESSES && FreshQueue(queue)
    ensures BasicInv(Boot(procs, queue))
  {
    BootInv(procs, queue);
  }

  /**
   The basic pager never evicts: on every run its next calls are nothing, or one page-in that is granted; only
   the first active processor holds frames, and all the others' frames stay free.
   */
  lemma BasicNeverEvicts(procs: int, queue: seq<Process>, n: nat)
    requires 1 <= procs <= MAXPROCESSES && FreshQueue(queue)
    ensures var s := BasicRun(Boot(procs, queue), n);
      var t := Ticked(s);
      && s.avail >= PHYSICALPAGES - MAXPROCPAGES && t.avail >= PHYSICALPAGES - MAXPROCPAGES
      && (forall i, j :: 0 <= i < j < MAXPROCESSES && Running(s, i) && Running(s, j) ==> AllOut(s.queue[s.slots[j]]))
      && (forall c :: c in NextBasic(s) ==> c.In? && Do(t, c).1)
      && |NextBasic(s)| <= 1
  {
    BootBasic(procs, queue);
    BasicRunInv(Boot(procs, queue), n);
    var s := BasicRun(Boot(procs, queue), n);
    PlentyFree(s);
    TickedBasic(s);
    PlentyFree(Ticked(s));
    ViewIsGood(Ticked(s));
    CallsSucceed(Ticked(s));
    forall i, j | 0 <= i < j < MAXPROCESSES && Running(s, i) && Running(s, j) ensures AllOut(s.queue[s.slots[j]]) {
      assert FirstHolds(s, j);
    }
  }
}
