/**
 The simulator as it runs: globals updated in place, processors stepped and aged by loops.
 Every method's new state is a function of the old one; what is proved about runs is proved about those functions.
 */
module Machine {
  import opened Params
  import opened Sums
  import opened Branching
  import opened BranchEngines
  import opened Lookup
  import S = Simulator
  import opened JobQueue

  /** One pass of the shuffle: every place is swapped with a drawn one. */
  method ShufflePass(queuetype: array<int>, draws: seq<nat>, repeats: nat)
    requires queuetype.Length == QUEUESIZE && (repeats + 1) * QUEUESIZE <= |draws|
    requires queuetype[..] == Shuffled(KindsInOrder(QUEUESIZE), draws, repeats * QUEUESIZE)
    modifies queuetype
    ensures queuetype[..] == Shuffled(KindsInOrder(QUEUESIZE), draws, (repeats + 1) * QUEUESIZE)
  {
    for i := 0 to QUEUESIZE
      invariant queuetype[..] == Shuffled(KindsInOrder(QUEUESIZE), draws, repeats * QUEUESIZE + i)
    {
      ghost var before := queuetype[..];
      PassPlace(repeats, i);
      var j := draws[repeats * QUEUESIZE + i] % QUEUESIZE;
      var temp := queuetype[i];
      queuetype[i] := queuetype[j];
      queuetype[j] := temp;
      assert queuetype[..] == Swapped(before, i, j);
    }
  }

  lemma PassPlace(repeats: nat, i: nat)
    requires i < QUEUESIZE
    ensures (repeats * QUEUESIZE + i) % QUEUESIZE == i
  {
  }

  /** Lays out the kinds of the jobs and shuffles them. */
  method ShuffleKinds(queuetype: array<int>, draws: seq<nat>)
    requires queuetype.Length == QUEUESIZE && |draws| == 10 * QUEUESIZE
    modifies queuetype
    ensures queuetype[..] == Kinds(draws)
  {
    for i := 0 to QUEUESIZE
      invariant forall k :: 0 <= k < i ==> queuetype[k] == k % PROGRAMS
    {
      queuetype[i] := i % PROGRAMS;
    }
    assert queuetype[..] == KindsInOrder(QUEUESIZE);
    for repeats := 0 to 10
      invariant queuetype[..] == Shuffled(KindsInOrder(QUEUESIZE), draws, repeats * QUEUESIZE)
    {
      ShufflePass(queuetype, draws, repeats);
    }
  }

  /** Loads every job of the queue. */
  method LoadJobs(kinds: seq<int>, draws: seq<seq<Draws>>) returns (jobs: array<S.Process>)
    requires GoodKinds(kinds) && GoodDraws(kinds, draws)
    ensures fresh(jobs) && jobs.Length == QUEUESIZE && jobs[..] == Jobs(kinds, draws)
  {
    var blank := S.Process(Programs()[0], [], 0, [], false, 0, 0);
    jobs := new S.Process[QUEUESIZE](_ => blank);
    for i := 0 to QUEUESIZE
      invariant forall k :: 0 <= k < i ==> jobs[k] == Jobs(kinds, draws)[k]
    {
      jobs[i] := ProcessLoad(Programs()[kinds[i]], draws[i]);
    }
  }

  /** Draws one branch context. */
  method LoadBranch(b: Branch, d: Draws) returns (c: Bcontext)
    requires Ready(b, d)
    ensures c == Initialised(Cleared(), b, d)
  {
    var engine := new BranchEngine();
    engine.Clear();
    assert engine.Value() == Cleared();
    engine.Init(b, d);
    c := Bcontext(engine.boffset, engine.bsize, engine.bvalue, engine.bcount, engine.brings[..]);
  }

  /** Loads a program into a process. */
  method ProcessLoad(p: S.Program, d: seq<Draws>) returns (q: S.Process)
    requires S.GoodProgram(p) && S.DrawsFor(p, d)
    ensures q == S.Load(p, d)
  {
    var contexts := seq(MAXBRANCHES, _ => Cleared());
    for i := 0 to p.nbranches
      invariant |contexts| == MAXBRANCHES
      invariant forall k :: 0 <= k < i ==> contexts[k] == S.LoadContext(p, d, k)
      invariant forall k :: i <= k < MAXBRANCHES ==> contexts[k] == Cleared()
    {
      var c := LoadBranch(p.branches[i], d[i]);
      contexts := contexts[i := c];
    }
    assert contexts == S.Load(p, d).bcontexts;
    q := S.Process(p, contexts, 0, seq(MAXPROCPAGES, _ => -PAGEWAIT - 1), true, 0, 0);
  }

  /** Hands the first jobs of the queue to the processors. */
  method FirstJobs(procs: int) returns (slots: array<int>)
    requires 1 <= procs <= MAXPROCESSES
    ensures fresh(slots) && slots.Length == MAXPROCESSES
    ensures forall k :: 0 <= k < MAXPROCESSES ==> slots[k] == if k < procs then k else -1
  {
    slots := new int[MAXPROCESSES](_ => -1);
    for i := 0 to procs
      invariant forall k :: 0 <= k < MAXPROCESSES ==> slots[k] == if k < i then k else -1
    {
      slots[i] := i;
    }
  }

  class Simulator {
    const procs: int
    var pagesavail: int
    var queue: array<S.Process>
    var processes: array<int>
    var queueend: int
    ghost var loads: seq<int>

    ghost function State(): S.Sim
      reads this, queue, processes
    {
      S.Sim(procs, pagesavail, queue[..], processes[..], queueend, loads)
    }

    ghost predicate Valid()
      reads this, queue, processes
    {
      S.Shape(State())
    }

    /** Makes the job queue and hands out the first jobs. */
    constructor (procs: int, shuffle: seq<nat>, draws: seq<seq<Draws>>)
      requires 1 <= procs <= MAXPROCESSES && |shuffle| == 10 * QUEUESIZE
      requires GoodDraws(Kinds(shuffle), draws)
      ensures Valid() && fresh(queue) && fresh(processes)
      ensures State() == S.Boot(procs, Jobs(Kinds(shuffle), draws))
    {
      var queuetype := new int[QUEUESIZE](_ => 0);
      ShuffleKinds(queuetype, shuffle);
      var jobs := LoadJobs(queuetype[..], draws);
      var slots := FirstJobs(procs);
      this.procs := procs;
      pagesavail := PHYSICALPAGES;
      queue, processes := jobs, slots;
      queueend := procs;
      loads := seq(procs, i => i);
      new;
      ghost var boot := S.Boot(procs, queue[..]);
      assert processes[..] == boot.slots && loads == boot.loads;
      assert State() == boot;
    }

    // ---- What a pager may call ------------------------------------------------

    method PageOut(process: int, page: int) returns (ok: bool)
      requires Valid()
      modifies queue
      ensures Valid() && (State(), ok) == S.PageOut(old(State()), process, page)
    {
      if process < 0 || process >= procs || processes[process] < 0 || !queue[processes[process]].active
         || page < 0 || page >= MAXPROCPAGES {
        return false;
      }
      var k := processes[process];
      var c := queue[k].pages[page];
      if c < 0 { return true; }   // on its way out
      if c > 0 { return false; }  // not available to swap out
      queue[k] := queue[k].(pages := queue[k].pages[page := -1]);
      assert queue[..] == S.SetCell(old(State()), process, page, -1).queue;
      return true;
    }

    method PageIn(process: int, page: int) returns (ok: bool)
      requires Valid()
      modifies this`pagesavail, queue
      ensures Valid() && (State(), ok) == S.PageIn(old(State()), process, page)
    {
      if process < 0 || process >= procs || processes[process] < 0 || !queue[processes[process]].active
         || page < 0 || page >= MAXPROCPAGES {
        return false;
      }
      var k := processes[process];
      var c := queue[k].pages[page];
      if c >= 0 { return true; }           // on its way
      if pagesavail == 0 { return false; }
      if c >= -PAGEWAIT { return false; }  // not yet out
      queue[k] := queue[k].(pages := queue[k].pages[page := PAGEWAIT]);
      pagesavail := pagesavail - 1;
      assert queue[..] == S.SetCell(old(State()), process, page, PAGEWAIT).queue;
      return true;
    }

    // ---- Stepping ---------------------------------------------------------------

    method ProcessDoBranch(k: int, m: int)
      requires Valid() && 0 <= k < QUEUESIZE && 0 <= m < MAXBRANCHES
      modifies queue
      ensures queue[..] == old(queue[..])[k := S.DoBranch(old(queue[k]), m)]
    {
      var q := queue[k];
      var (c, branch) := Decide(q.bcontexts[m]);
      q := q.(bcontexts := q.bcontexts[m := c]);
      if branch {
        q := q.(pc := q.program.branches[m].whereto);
      } else {
        q := q.(pc := q.pc + 1);
      }
      if q.pc < 0 || q.pc >= q.program.size {
        q := q.(pc := 0); // start over
      }
      queue[k] := q;
    }

    method ProcessStep(k: int) returns (more: bool)
      requires Valid() && 0 <= k < QUEUESIZE
      modifies queue
      ensures queue[..] == old(queue[..])[k := S.StepProcess(old(queue[k])).0]
      ensures more == S.StepProcess(old(queue[k])).1
    {
      var q := queue[k];
      if !q.active {
        assert queue[..] == old(queue[..])[k := q];
        return false;
      }
      if q.pages[q.pc / PAGESIZE] != 0 {
        queue[k] := q.(block := q.block + 1);
        return true;
      }
      queue[k] := q.(compute := q.compute + 1);
      var exit := SearchTable(q.program.exits, q.program.nexits, q.pc);
      if exit >= 0 {
        return false;
      }
      var m := SearchTable(S.Froms(q.program), q.program.nbranches, q.pc);
      if 0 <= m < MAXBRANCHES {
        ProcessDoBranch(k, m);
        return true;
      }
      var pc := q.pc + 1;
      queue[k] := queue[k].(pc := if pc < 0 || pc > q.program.size then 0 else pc);
      return true;
    }

    method ProcessUnload(k: int)
      requires Valid() && 0 <= k < QUEUESIZE
      modifies this`pagesavail, queue
      ensures Valid() && State() == S.Unload(old(State()), k)
    {
      ghost var was, jobs, avail := queue[k], queue[..], pagesavail;
      for i := 0 to MAXPROCPAGES
        invariant queue[..] == jobs[k := was.(pages := queue[k].pages)]
        invariant |queue[k].pages| == MAXPROCPAGES
        invariant forall j :: 0 <= j < MAXPROCPAGES ==>
                    queue[k].pages[j] == if j < i then S.ReleaseCell(was.pages[j]) else was.pages[j]
        invariant pagesavail == avail + Sum(S.HeldCell, was.pages[..i])
      {
        SumSnoc(S.HeldCell, was.pages, i);
        if queue[k].pages[i] >= -PAGEWAIT {
          pagesavail := pagesavail + 1;
          queue[k] := queue[k].(pages := queue[k].pages[i := -PAGEWAIT - 1]);
        }
      }
      queue[k] := queue[k].(active := false);
      assert was.pages[..MAXPROCPAGES] == was.pages;
      assert queue[k].pages == S.Released(was.pages);
    }

    method Refill(i: int)
      requires Valid() && 0 <= i < MAXPROCESSES
      modifies this`queueend, this`loads, processes
      ensures Valid() && State() == S.Refill(old(State()), i)
    {
      processes[i] := -1;
      if queueend < QUEUESIZE {
        processes[i] := queueend;
        loads := loads + [queueend];
        queueend := queueend + 1;
      }
    }

    method StepOne(i: int)
      requires Valid() && 0 <= i < MAXPROCESSES
      modifies this, queue, processes
      ensures Valid() && queue == old(queue) && processes == old(processes)
      ensures State() == S.StepSlot(old(State()), i)
    {
      var k := processes[i];
      var more := false;
      if k >= 0 {
        more := ProcessStep(k);
      }
      if !more {
        if k >= 0 && queue[k].active {
          ProcessUnload(k);
        }
        Refill(i);
      }
    }

    method AllStep()
      requires Valid()
      modifies this, queue, processes
      ensures Valid() && queue == old(queue) && processes == old(processes)
      ensures State() == S.AllStep(old(State()), procs)
    {
      for i := 0 to procs
        invariant Valid() && queue == old(queue) && processes == old(processes)
        invariant State() == S.AllStep(old(State()), i)
      {
        StepOne(i);
      }
    }

    // ---- Ageing -------------------------------------------------------------------

    method AgeOne(i: int)
      requires Valid() && 0 <= i < MAXPROCESSES
      modifies this`pagesavail, queue
      ensures Valid() && State() == S.AgeSlot(old(State()), i)
    {
      if processes[i] >= 0 && queue[processes[i]].active {
        var k := processes[i];
        ghost var was, jobs, avail := queue[k], queue[..], pagesavail;
        for j := 0 to MAXPROCPAGES
          invariant queue[..] == jobs[k := was.(pages := queue[k].pages)]
          invariant |queue[k].pages| == MAXPROCPAGES
          invariant forall h :: 0 <= h < MAXPROCPAGES ==>
                      queue[k].pages[h] == if h < j then S.AgeCell(was.pages[h]) else was.pages[h]
          invariant pagesavail == avail + Sum(S.FreedCell, was.pages[..j])
        {
          SumSnoc(S.FreedCell, was.pages, j);
          var c := queue[k].pages[j];
          if c == 0 || c < -PAGEWAIT {
          } else if c > 0 {
            queue[k] := queue[k].(pages := queue[k].pages[j := c - 1]);
          } else {
            queue[k] := queue[k].(pages := queue[k].pages[j := c - 1]);
            if c - 1 < -PAGEWAIT {
              pagesavail := pagesavail + 1;
            }
          }
        }
        assert was.pages[..MAXPROCPAGES] == was.pages;
        assert queue[k].pages == S.Aged(was.pages);
      }
    }

    method AllAge()
      requires Valid()
      modifies this`pagesavail, queue
      ensures Valid() && State() == S.AllAge(old(State()), procs)
    {
      for i := 0 to procs
        invariant Valid() && State() == S.AllAge(old(State()), i)
      {
        AgeOne(i);
      }
    }

    // ---- The main loop ----------------------------------------------------------

    method AllDone() returns (done: bool)
      requires Valid()
      ensures done == S.AllDone(State())
    {
      for i := 0 to procs
        invariant forall j :: 0 <= j < i ==> !S.Running(State(), j)
      {
        if processes[i] >= 0 && queue[processes[i]].active {
          assert S.Running(State(), i);
          return false;
        }
      }
      return true;
    }

    /** The view of the machine that is handed to the pager. */
    method CallYou() returns (view: seq<S.Pentry>)
      requires Valid()
      ensures view == S.View(State())
    {
      view := [];
      for i := 0 to MAXPROCESSES
        invariant |view| == i && forall j :: 0 <= j < i ==> view[j] == S.Entry(State(), j)
      {
        var e := EntryOf(i);
        view := view + [e];
      }
    }

    method EntryOf(i: int) returns (e: S.Pentry)
      requires Valid() && 0 <= i < MAXPROCESSES
      ensures e == S.Entry(State(), i)
    {
      var k := processes[i];
      if k < 0 {
        return S.Pentry(false, 0, 0, seq(MAXPROCPAGES, _ => false));
      }
      var resident := [];
      for j := 0 to MAXPROCPAGES
        invariant |resident| == j && forall h :: 0 <= h < j ==> resident[h] == (queue[k].pages[h] == 0)
      {
        resident := resident + [queue[k].pages[j] == 0];
      }
      e := S.Pentry(queue[k].active, queue[k].pc, MAXPROCPAGES, resident);
    }

    /** A pager that makes these calls, whatever they answer. */
    method Obey(calls: seq<S.Call>)
      requires Valid()
      modifies this`pagesavail, queue
      ensures Valid() && State() == S.DoAll(old(State()), calls)
    {
      for i := 0 to |calls|
        invariant Valid() && S.DoAll(old(State()), calls) == S.DoAll(State(), calls[i..])
      {
        assert calls[i..][0] == calls[i] && calls[i..][1..] == calls[i + 1..];
        var ok: bool;
        match calls[i]
        case In(p, j) => ok := PageIn(p, j);
        case Out(p, j) => ok := PageOut(p, j);
      }
    }

    method TickOnce(calls: seq<S.Call>)
      requires Valid()
      modifies this, queue, processes
      ensures Valid() && queue == old(queue) && processes == old(processes)
      ensures State() == S.Tick(old(State()), calls)
    {
      AllStep();
      AllAge();
      Obey(calls);
    }

    /** The main loop around any pager, for as many ticks as the script lasts: it stops as soon as all is done. */
    method Loop(script: seq<seq<S.Call>>) returns (ticks: nat)
      requires Valid()
      modifies this, queue, processes
      ensures Valid() && ticks <= |script| && State() == S.Run(old(State()), script[..ticks])
      ensures ticks < |script| ==> S.AllDone(State())
      ensures forall n :: 0 <= n < ticks ==> !DoneAfter(old(State()), script, n)
    {
      ghost var states := [State()];
      ticks := 0;
      var done := AllDone();
      while !done && ticks < |script|
        invariant Valid() && queue == old(queue) && processes == old(processes)
        invariant 0 <= ticks <= |script| && |states| == ticks + 1
        invariant states[0] == old(State()) && State() == states[ticks]
        invariant done == S.AllDone(State())
        invariant forall n :: 0 <= n < ticks ==> Follows(states, script, n)
        decreases |script| - ticks
      {
        TickOnce(script[ticks]);
        FollowsLonger(states, script, State());
        states := states + [State()];
        ticks := ticks + 1;
        done := AllDone();
      }
      TraceIsRun(states, script, ticks);
    }
  }

  predicate DoneAfter(s: S.Sim, script: seq<seq<S.Call>>, n: int)
    requires S.Shape(s) && 0 <= n <= |script|
  {
    S.AllDone(S.Run(s, script[..n]))
  }

  /** State n was not the last, and the next one is a tick away. */
  predicate Follows(states: seq<S.Sim>, script: seq<seq<S.Call>>, n: int)
    requires 0 <= n < |states| - 1 && n < |script|
  {
    S.Shape(states[n]) && !S.AllDone(states[n]) && states[n + 1] == S.Tick(states[n], script[n])
  }

  lemma FollowsLonger(states: seq<S.Sim>, script: seq<seq<S.Call>>, t: S.Sim)
    requires states != [] && |states| <= |script|
    requires S.Shape(states[|states| - 1]) && !S.AllDone(states[|states| - 1])
    requires t == S.Tick(states[|states| - 1], script[|states| - 1])
    requires forall n :: 0 <= n < |states| - 1 ==> Follows(states, script, n)
    ensures forall n :: 0 <= n < |states| ==> Follows(states + [t], script, n)
  {
    forall n | 0 <= n < |states| ensures Follows(states + [t], script, n) {
      if n < |states| - 1 { assert Follows(states, script, n); }
    }
  }

  lemma {:induction false} TraceAt(states: seq<S.Sim>, script: seq<seq<S.Call>>, n: nat)
    requires n < |states| <= |script| + 1 && S.Shape(states[0])
    requires forall m :: 0 <= m < |states| - 1 ==> Follows(states, script, m)
    ensures states[n] == S.Run(states[0], script[..n])
  {
    if n > 0 {
      TraceAt(states, script, n - 1);
      assert Follows(states, script, n - 1);
      S.RunPrefix(states[0], script, n - 1);
    }
  }

  /** A trace of unfinished states is a run that did not stop early. */
  lemma TraceIsRun(states: seq<S.Sim>, script: seq<seq<S.Call>>, ticks: nat)
    requires |states| == ticks + 1 && ticks <= |script| && S.Shape(states[0])
    requires forall n :: 0 <= n < ticks ==> Follows(states, script, n)
    ensures states[ticks] == S.Run(states[0], script[..ticks])
    ensures forall n :: 0 <= n < ticks ==> !DoneAfter(states[0], script, n)
  {
    TraceAt(states, script, ticks);
    forall n | 0 <= n < ticks ensures !DoneAfter(states[0], script, n) {
      TraceAt(states, script, n);
      assert Follows(states, script, n);
    }
  }
}
