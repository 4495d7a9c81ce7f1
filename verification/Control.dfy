/** Where a job's control goes: every branch of its program replays its own decisions, visit by visit. */
module Control {
  import opened Params
  import opened Branching
  import opened Lookup
  import opened Simulator
  import opened Invariants
  import opened Locality
  import opened Latency

  /** The branch that q's next step goes through, -1 for none. */
  function Hit(q: Process): (m: int)
    requires GoodProcess(q)
    ensures -1 <= m < MAXBRANCHES
  {
    if !q.active || q.pages[PcPage(q)] != 0 || Search(q.program.exits, q.program.nexits, q.pc) >= 0 then -1
    else
      var m := Search(Froms(q.program), q.program.nbranches, q.pc);
      if 0 <= m < MAXBRANCHES then m else -1
  }

  /** What the rest of the machine makes of a process's pages before each of its steps. */
  predicate Pagings(env: seq<seq<int>>) {
    forall i :: 0 <= i < |env| ==> |env[i]| == MAXPROCPAGES
  }

  /** The process about to take step n. */
  function Before(q: Process, env: seq<seq<int>>, n: nat): (r: Process)
    requires GoodProcess(q) && Pagings(env) && n < |env|
    ensures GoodProcess(r)
    decreases n, 1
  {
    Steps(q, env, n).(pages := env[n])
  }

  /** The process after n steps. */
  function Steps(q: Process, env: seq<seq<int>>, n: nat): (r: Process)
    requires GoodProcess(q) && Pagings(env) && n <= |env|
    ensures GoodProcess(r)
    decreases n, 0
  {
    if n == 0 then q else StepProcess(Before(q, env, n - 1)).0
  }

  /** How many of the first n steps went through branch m. */
  function Visits(q: Process, env: seq<seq<int>>, m: int, n: nat): nat
    requires GoodProcess(q) && Pagings(env) && n <= |env|
  {
    if n == 0 then 0 else Visits(q, env, m, n - 1) + if Hit(Before(q, env, n - 1)) == m then 1 else 0
  }

  /** How many of the first n steps found their page not in. */
  function Stalls(q: Process, env: seq<seq<int>>, n: nat): nat
    requires GoodProcess(q) && Pagings(env) && n <= |env|
  {
    if n == 0 then 0
    else
      var r := Before(q, env, n - 1);
      Stalls(q, env, n - 1) + if r.pages[PcPage(r)] != 0 then 1 else 0
  }

  /** The two counters of a job tell how many of its steps were blocked, and how many computed. */
  lemma {:induction false} StepsAreCounted(q: Process, env: seq<seq<int>>, n: nat)
    requires GoodProcess(q) && q.active && Pagings(env) && n <= |env|
    ensures var r := Steps(q, env, n);
      && r.active && r.block == q.block + Stalls(q, env, n)
      && r.compute + r.block == q.compute + q.block + n
  {
    if n > 0 {
      var k := n - 1;
      StepsAreCounted(q, env, k);
      CountersMove(Before(q, env, k));
    }
  }

  lemma CountersMove(q: Process)
    requires GoodProcess(q) && q.active
    ensures var r := StepProcess(q).0;
      && r.active && r.compute + r.block == q.compute + q.block + 1
      && r.block == q.block + if q.pages[PcPage(q)] != 0 then 1 else 0
  {
  }

  lemma StepContext(q: Process, m: int)
    requires GoodProcess(q) && 0 <= m < MAXBRANCHES
    ensures StepProcess(q).0.bcontexts[m] == if Hit(q) == m then Decide(q.bcontexts[m]).0 else q.bcontexts[m]
    ensures StepProcess(q).0.program == q.program
  {
  }

  lemma AfterOneMore(c: Bcontext, n: nat)
    requires ValidContext(c)
    ensures After(c, n + 1) == Decide(After(c, n)).0
  {
    AfterSum(c, n, 1);
    assert After(After(c, n), 1) == After(Decide(After(c, n)).0, 0);
  }

  /** r is what n visits to branch m, and anything else, have made of q. */
  predicate Replayed(q: Process, r: Process, m: int, n: nat)
    requires GoodProcess(q) && GoodProcess(r) && 0 <= m < MAXBRANCHES
  {
    r.program == q.program && r.bcontexts[m] == After(q.bcontexts[m], n)
  }

  lemma StepReplays(q: Process, r: Process, m: int, n: nat, n': nat)
    requires GoodProcess(q) && GoodProcess(r) && 0 <= m < MAXBRANCHES && Replayed(q, r, m, n)
    requires n' == n + if Hit(r) == m then 1 else 0
    ensures Replayed(q, StepProcess(r).0, m, n')
  {
    StepContext(r, m);
    AfterOneMore(q.bcontexts[m], n);
  }

  /** A branch's context moves with the visits to that branch alone. */
  lemma {:induction false} ContextsReplay(q: Process, env: seq<seq<int>>, m: int, n: nat)
    requires GoodProcess(q) && Pagings(env) && n <= |env| && 0 <= m < MAXBRANCHES
    ensures Replayed(q, Steps(q, env, n), m, Visits(q, env, m, n))
  {
    if n > 0 {
      var k := n - 1;
      ContextsReplay(q, env, m, k);
      StepReplays(q, Before(q, env, k), m, Visits(q, env, m, k), Visits(q, env, m, n));
    }
  }

  /** Control never rests outside the program. */
  function Landing(p: Program, pc: int): int {
    if pc < 0 || pc >= p.size then 0 else pc
  }

  /** Where branch m at pc leads: to its target or to the next pc, and to 0 from there if that is no pc. */
  function Goes(p: Program, m: int, pc: int, taken: bool): int
    requires GoodProgram(p) && 0 <= m < MAXBRANCHES
  {
    Landing(p, if taken then p.branches[m].whereto else pc + 1)
  }

  lemma BranchStep(q: Process, m: int)
    requires GoodProcess(q) && Hit(q) == m >= 0
    ensures StepProcess(q).0.pc == Goes(q.program, m, q.pc, Decide(q.bcontexts[m]).1)
  {
  }

  /** Whatever the paging, visit number v to branch m takes it exactly when decision v of its context says so. */
  lemma VisitTakesDecision(q: Process, env: seq<seq<int>>, m: int, n: nat)
    requires GoodProcess(q) && Pagings(env) && n < |env| && 0 <= m < MAXBRANCHES
    requires Hit(Before(q, env, n)) == m
    ensures Steps(q, env, n + 1).pc
            == Goes(q.program, m, Before(q, env, n).pc, Nth(q.bcontexts[m], Visits(q, env, m, n)))
  {
    ContextsReplay(q, env, m, n);
    BranchStep(Before(q, env, n), m);
  }

  /** Flip v of an IF, round and round over those its table stands for. */
  function FlipAt(flips: seq<bool>, v: nat): bool
    requires flips != [] && |Rle(flips, |flips|)| > MAXBRINGS
  {
    flips[v % (Stop(flips) - 1)]
  }

  /** Decision v of a loop: its laps as they were drawn, round and round. */
  function LoopAt(b: Branch, d: Draws, v: nat): bool
    requires (b.btype == FOR || b.btype == NFOR) && Ready(b, d)
  {
    var laps := Laps(DrawnLaps(b, d), b.btype == FOR);
    LoopGoesRound(b, d, v);
    laps[v % |laps|]
  }

  /** Decision v of a branch in a job loaded with these draws. */
  function Drawn(b: Branch, d: Draws, v: nat): bool
    requires Ready(b, d)
  {
    match b.btype
    case GOTO => (v / 0x7fffffff) % 2 == 0
    case IF => FlipAt(d.flips, v)
    case _ => LoopAt(b, d, v)
  }

  lemma LoadedDecides(p: Program, d: seq<Draws>, m: int, v: nat)
    requires GoodProgram(p) && DrawsFor(p, d) && 0 <= m < MAXBRANCHES
    ensures Nth(Load(p, d).bcontexts[m], v)
            == if m < p.nbranches then Drawn(p.branches[m], d[m], v) else v % 2 == 0
  {
    if m < p.nbranches {
      match p.branches[m].btype
      case GOTO => GotoBranchesExactlyWhen(p.branches[m], d[m], v);
      case IF => IfReplaysItsDraws(p.branches[m], d[m], v);
      case _ => LoopGoesRound(p.branches[m], d[m], v);
    } else {
      ClearedContextAlternates(v);
    }
  }

  /**
   In a freshly loaded job every branch goes, visit by visit, as its draws say: an IF as its flips fell, a FOR or NFOR
   by its drawn laps, a GOTO for 0x7fffffff visits; and what is taken for a branch of an empty table every second time.
   */
  lemma BranchesFollowTheirDraws(p: Program, d: seq<Draws>, env: seq<seq<int>>, m: int, n: nat)
    requires GoodProgram(p) && DrawsFor(p, d) && Pagings(env) && n < |env|
    requires 0 <= m < MAXBRANCHES && Hit(Before(Load(p, d), env, n)) == m
    ensures var q := Load(p, d);
      var v := Visits(q, env, m, n);
      Steps(q, env, n + 1).pc
      == Goes(p, m, Before(q, env, n).pc, if m < p.nbranches then Drawn(p.branches[m], d[m], v) else v % 2 == 0)
  {
    var q := Load(p, d);
    VisitTakesDecision(q, env, m, n);
    LoadedDecides(p, d, m, Visits(q, env, m, n));
  }

  /** In particular an IF goes the way its flips fell. */
  lemma IfFollowsItsFlips(p: Program, d: seq<Draws>, env: seq<seq<int>>, m: int, n: nat)
    requires GoodProgram(p) && DrawsFor(p, d) && Pagings(env) && n < |env|
    requires 0 <= m < p.nbranches && p.branches[m].btype == IF && Hit(Before(Load(p, d), env, n)) == m
    ensures var q := Load(p, d);
      Steps(q, env, n + 1).pc == Goes(p, m, Before(q, env, n).pc, FlipAt(d[m].flips, Visits(q, env, m, n)))
  {
    BranchesFollowTheirDraws(p, d, env, m, n);
  }

  // ---- In the machine -----------------------------------------------------

  lemma JobTick(s: Sim, calls: seq<Call>, i: int)
    requires Inv(s) && 0 <= i < s.procs && Running(s, i) && Tick(s, calls).slots[i] == s.slots[i]
    ensures var k := s.slots[i];
      var r := Tick(s, calls).queue[k];
      && Inv(Tick(s, calls)) && Running(Tick(s, calls), i)
      && r == StepProcess(s.queue[k]).0.(pages := r.pages)
  {
    var k := s.slots[i];
    TickedAt(s, i);
    TickedInv(s);
    if !StepProcess(s.queue[k]).1 {
      FreshIsAnother(s, i);
      assert false;
    }
    DoAllInv(Ticked(s), calls);
    DoAllKeeps(Ticked(s), calls, i, 0);
    assert SlotOk(Tick(s, calls), i);
  }

  lemma StepsPrefix(q: Process, env: seq<seq<int>>, pages: seq<int>, n: nat)
    requires GoodProcess(q) && Pagings(env) && |pages| == MAXPROCPAGES && n <= |env|
    ensures Pagings(env + [pages]) && Steps(q, env, n) == Steps(q, env + [pages], n)
  {
    if n > 0 {
      StepsPrefix(q, env, pages, n - 1);
    }
  }

  /** r is q after one step for each of the pagings env, apart from its pages. */
  predicate Stepped(q: Process, env: seq<seq<int>>, r: Process)
    requires GoodProcess(q)
  {
    Pagings(env) && |r.pages| == MAXPROCPAGES && r == Steps(q, env, |env|).(pages := r.pages)
  }

  lemma SteppedOnce(q: Process, env: seq<seq<int>>, r: Process, t: Process)
    requires GoodProcess(q) && GoodProcess(r) && Stepped(q, env, r)
    requires |t.pages| == MAXPROCPAGES && t == StepProcess(r).0.(pages := t.pages)
    ensures Stepped(q, env + [r.pages], t)
  {
    StepsPrefix(q, env, r.pages, |env|);
    assert Before(q, env + [r.pages], |env|) == r;
  }

  /** The pages of job k before each tick of a run. */
  function PagesSeen(s: Sim, script: seq<seq<Call>>, k: int): (env: seq<seq<int>>)
    requires Shape(s) && 0 <= k < QUEUESIZE
    ensures |env| == |script| && Pagings(env)
  {
    if script == [] then []
    else
      var before := script[..|script| - 1];
      PagesSeen(s, before, k) + [Run(s, before).queue[k].pages]
  }

  lemma KeptAtEnd(s: Sim, script: seq<seq<Call>>, i: int)
    requires Shape(s) && 0 <= i < MAXPROCESSES && KeepsJob(s, script, i, s.slots[i])
    ensures Run(s, script).slots[i] == s.slots[i]
  {
    assert script[..|script|] == script;
  }

  /** Under any pager, for as long as a processor keeps a job the job takes one such step each tick. */
  lemma {:induction false} JobTakesSteps(s: Sim, script: seq<seq<Call>>, i: int)
    requires Inv(s) && 0 <= i < s.procs && Running(s, i) && KeepsJob(s, script, i, s.slots[i])
    ensures var k := s.slots[i];
      && Inv(Run(s, script)) && Running(Run(s, script), i)
      && Stepped(s.queue[k], PagesSeen(s, script, k), Run(s, script).queue[k])
    decreases |script|
  {
    var k := s.slots[i];
    var q := s.queue[k];
    if script == [] {
      assert q == q.(pages := q.pages);
    } else {
      var n := |script| - 1;
      var before := script[..n];
      KeepsJobPrefix(s, script, i, n);
      KeptAtEnd(s, script, i);
      KeptAtEnd(s, before, i);
      JobTakesSteps(s, before, i);
      var u := Run(s, before);
      JobTick(u, script[n], i);
      SteppedOnce(q, PagesSeen(s, before, k), u.queue[k], Run(s, script).queue[k]);
    }
  }
}
