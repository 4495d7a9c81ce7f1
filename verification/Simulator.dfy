/**
 The paging simulator as a state and its steps. Pointers into the job queue are indices, and NULL is -1.
 A process's pages are signed counters: above 0 coming in, 0 in, -PAGEWAIT..-1 going out, below that out.
 Each function here is what a method of the running machine does.
 */
module Simulator {
  import opened Params
  import opened Sums
  import opened Branching
  import opened Lookup

  // ---- Programs and processes -----------------------------------------

  /** Tables are fixed arrays of which the first nbranches and nexits entries are in use. */
  datatype Program = Program(size: int, nbranches: int, branches: seq<Branch>, nexits: int, exits: seq<int>)

  predicate GoodProgram(p: Program) {
    && 0 <= p.size < MAXPC
    && |p.branches| == MAXBRANCHES && 0 <= p.nbranches < MAXBRANCHES
    && |p.exits| == MAXEXITS && 0 <= p.nexits <= MAXEXITS
  }

  datatype Process = Process(program: Program, bcontexts: seq<Bcontext>, pc: int, pages: seq<int>,
                             active: bool, compute: nat, block: nat)

  predicate GoodProcess(q: Process) {
    && GoodProgram(q.program)
    && |q.bcontexts| == MAXBRANCHES
    && (forall i :: 0 <= i < |q.bcontexts| ==> ValidContext(q.bcontexts[i]))
    && 0 <= q.pc <= q.program.size
    && |q.pages| == MAXPROCPAGES
  }

  function Froms(p: Program): (f: seq<int>)
    ensures |f| == |p.branches| && forall i :: 0 <= i < |f| ==> f[i] == p.branches[i].wherefrom
  {
    seq(|p.branches|, i requires 0 <= i < |p.branches| => p.branches[i].wherefrom)
  }

  predicate PageNo(p: int) {
    0 <= p < MAXPROCPAGES
  }

  /** The pages that a process has in. */
  function Residents(q: Process): set<int>
    requires GoodProcess(q)
  {
    set p | 0 <= p < MAXPROCPAGES && q.pages[p] == 0
  }

  /** The page that the program counter needs. */
  function PcPage(q: Process): (p: int)
    requires GoodProcess(q)
    ensures 0 <= p < MAXPROCPAGES
  {
    q.pc / PAGESIZE
  }

  /** Takes branch m, or not, as its context decides. */
  function DoBranch(q: Process, m: int): (r: Process)
    requires GoodProcess(q) && 0 <= m < MAXBRANCHES
    ensures GoodProcess(r)
  {
    var (c, branch) := Decide(q.bcontexts[m]);
    var pc := if branch then q.program.branches[m].whereto else q.pc + 1;
    q.(bcontexts := q.bcontexts[m := c], pc := if pc < 0 || pc >= q.program.size then 0 else pc)
  }

  /** One step of a process, and whether it keeps running. */
  function StepProcess(q: Process): (r: (Process, bool))
    requires GoodProcess(q)
    ensures GoodProcess(r.0)
  {
    if !q.active then (q, false)
    else if q.pages[PcPage(q)] != 0 then (q.(block := q.block + 1), true)
    else
      var q := q.(compute := q.compute + 1);
      if Search(q.program.exits, q.program.nexits, q.pc) >= 0 then (q, false)
      else
        var m := Search(Froms(q.program), q.program.nbranches, q.pc);
        if 0 <= m < MAXBRANCHES then (DoBranch(q, m), true)
        else (q.(pc := if q.pc + 1 > q.program.size then 0 else q.pc + 1), true)
  }

  // ---- The machine ----------------------------------------------------

  /**
   The simulator's globals. Entry i of slots is the job processor i runs; loads is the history of
   jobs handed to processors.
   */
  datatype Sim = Sim(procs: int, avail: int, queue: seq<Process>, slots: seq<int>, queueend: int, loads: seq<int>)

  predicate Shape(s: Sim) {
    && 1 <= s.procs <= MAXPROCESSES
    && |s.slots| == MAXPROCESSES && |s.queue| == QUEUESIZE
    && (forall i :: 0 <= i < |s.slots| ==> -1 <= s.slots[i] < QUEUESIZE)
    && (forall k :: 0 <= k < |s.queue| ==> GoodProcess(s.queue[k]))
    && 0 <= s.queueend <= QUEUESIZE
  }

  predicate Running(s: Sim, i: int)
    requires Shape(s)
  {
    0 <= i < MAXPROCESSES && s.slots[i] >= 0 && s.queue[s.slots[i]].active
  }

  function HeldCell(c: int): int {
    if c >= -PAGEWAIT then 1 else 0
  }

  /** Frames that a process holds. */
  function Held(q: Process): int {
    Sum(HeldCell, q.pages)
  }

  function ReleaseCell(c: int): int {
    if c >= -PAGEWAIT then -PAGEWAIT - 1 else c
  }

  function Released(pages: seq<int>): (r: seq<int>)
    ensures |r| == |pages| && forall j :: 0 <= j < |r| ==> r[j] == ReleaseCell(pages[j])
  {
    seq(|pages|, j requires 0 <= j < |pages| => ReleaseCell(pages[j]))
  }

  /** Unloads job k and releases its frames. */
  function Unload(s: Sim, k: int): (r: Sim)
    requires Shape(s) && 0 <= k < QUEUESIZE
    ensures Shape(r)
  {
    var q := s.queue[k];
    s.(queue := s.queue[k := q.(pages := Released(q.pages), active := false)], avail := s.avail + Held(q))
  }

  /** Gives processor i the next queued job, if there is one. */
  function Refill(s: Sim, i: int): (r: Sim)
    requires Shape(s) && 0 <= i < MAXPROCESSES
    ensures Shape(r)
  {
    if s.queueend >= QUEUESIZE then s.(slots := s.slots[i := -1])
    else s.(slots := s.slots[i := s.queueend], queueend := s.queueend + 1, loads := s.loads + [s.queueend])
  }

  /** Processor i's part of a tick: step its process; when it is done, unload it and load another. */
  function StepSlot(s: Sim, i: int): (r: Sim)
    requires Shape(s) && 0 <= i < MAXPROCESSES
    ensures Shape(r) && r.procs == s.procs
  {
    var k := s.slots[i];
    if k < 0 then Refill(s, i)
    else
      var (q, more) := StepProcess(s.queue[k]);
      var s1 := s.(queue := s.queue[k := q]);
      if more then s1
      else Refill(if q.active then Unload(s1, k) else s1, i)
  }

  /** The steps of processors 0..n. */
  function AllStep(s: Sim, n: nat): (r: Sim)
    requires Shape(s) && n <= MAXPROCESSES
    ensures Shape(r) && r.procs == s.procs
  {
    if n == 0 then s else StepSlot(AllStep(s, n - 1), n - 1)
  }

  function AgeCell(c: int): int {
    if c == 0 || c < -PAGEWAIT then c else c - 1
  }

  function Aged(pages: seq<int>): (r: seq<int>)
    ensures |r| == |pages| && forall j :: 0 <= j < |r| ==> r[j] == AgeCell(pages[j])
  {
    seq(|pages|, j requires 0 <= j < |pages| => AgeCell(pages[j]))
  }

  /** Whether ageing a cell frees its frame. */
  function FreedCell(c: int): int {
    if c == -PAGEWAIT then 1 else 0
  }

  function AgeSlot(s: Sim, i: int): (r: Sim)
    requires Shape(s) && 0 <= i < MAXPROCESSES
    ensures Shape(r) && r.procs == s.procs
  {
    if !Running(s, i) then s
    else
      var k := s.slots[i];
      var q := s.queue[k];
      s.(queue := s.queue[k := q.(pages := Aged(q.pages))], avail := s.avail + Sum(FreedCell, q.pages))
  }

  /** Ages the pages of processors 0..n. */
  function AllAge(s: Sim, n: nat): (r: Sim)
    requires Shape(s) && n <= MAXPROCESSES
    ensures Shape(r) && r.procs == s.procs
  {
    if n == 0 then s else AgeSlot(AllAge(s, n - 1), n - 1)
  }

  // ---- What a pager may do --------------------------------------------

  datatype Call = In(slot: int, page: int) | Out(slot: int, page: int)

  predicate Callable(s: Sim, i: int, j: int)
    requires Shape(s)
  {
    0 <= i < s.procs && Running(s, i) && 0 <= j < MAXPROCPAGES
  }

  function Cell(s: Sim, i: int, j: int): int
    requires Shape(s) && 0 <= i < MAXPROCESSES && s.slots[i] >= 0 && 0 <= j < MAXPROCPAGES
  {
    s.queue[s.slots[i]].pages[j]
  }

  function SetCell(s: Sim, i: int, j: int, c: int): (r: Sim)
    requires Shape(s) && 0 <= i < MAXPROCESSES && s.slots[i] >= 0 && 0 <= j < MAXPROCPAGES
    ensures Shape(r)
  {
    var k := s.slots[i];
    s.(queue := s.queue[k := s.queue[k].(pages := s.queue[k].pages[j := c])])
  }

  function PageOut(s: Sim, i: int, j: int): (r: (Sim, bool))
    requires Shape(s)
    ensures Shape(r.0)
  {
    if !Callable(s, i, j) then (s, false)
    else if Cell(s, i, j) < 0 then (s, true)
    else if Cell(s, i, j) > 0 then (s, false)
    else (SetCell(s, i, j, -1), true)
  }

  function PageIn(s: Sim, i: int, j: int): (r: (Sim, bool))
    requires Shape(s)
    ensures Shape(r.0)
  {
    if !Callable(s, i, j) then (s, false)
    else if Cell(s, i, j) >= 0 then (s, true)
    else if s.avail == 0 then (s, false)
    else if Cell(s, i, j) >= -PAGEWAIT then (s, false)
    else (SetCell(s, i, j, PAGEWAIT).(avail := s.avail - 1), true)
  }

  function Do(s: Sim, c: Call): (r: (Sim, bool))
    requires Shape(s)
    ensures Shape(r.0) && r.0.procs == s.procs && r.0.slots == s.slots
  {
    match c
    case In(i, j) => PageIn(s, i, j)
    case Out(i, j) => PageOut(s, i, j)
  }

  /** The effect of a pager's calls, in order. */
  function DoAll(s: Sim, calls: seq<Call>): (r: Sim)
    requires Shape(s)
    ensures Shape(r) && r.procs == s.procs && r.slots == s.slots
    decreases |calls|
  {
    if calls == [] then s else DoAll(Do(s, calls[0]).0, calls[1..])
  }

  lemma {:induction false} DoAllAppend(s: Sim, a: seq<Call>, b: seq<Call>)
    requires Shape(s)
    ensures DoAll(s, a + b) == DoAll(DoAll(s, a), b)
    decreases |a|
  {
    if a == [] {
      assert a + b == b;
    } else {
      assert (a + b)[1..] == a[1..] + b;
      DoAllAppend(Do(s, a[0]).0, a[1..], b);
    }
  }

  /** The state a pager is called in: every processor has stepped, every timer has aged. */
  function Ticked(s: Sim): (r: Sim)
    requires Shape(s)
    ensures Shape(r) && r.procs == s.procs
  {
    AllAge(AllStep(s, s.procs), s.procs)
  }

  /** One turn of the main loop around a pager that makes these calls. */
  function Tick(s: Sim, calls: seq<Call>): (r: Sim)
    requires Shape(s)
    ensures Shape(r) && r.procs == s.procs
  {
    DoAll(Ticked(s), calls)
  }

  /** Any number of turns of the main loop, around any pager: one list of calls for each tick. */
  function Run(s: Sim, script: seq<seq<Call>>): (r: Sim)
    requires Shape(s)
    ensures Shape(r) && r.procs == s.procs
    decreases |script|
  {
    if script == [] then s
    else
      var n := |script| - 1;
      Tick(Run(s, script[..n]), script[n])
  }

  lemma RunPrefix(s: Sim, script: seq<seq<Call>>, n: nat)
    requires Shape(s) && n < |script|
    ensures Run(s, script[..n + 1]) == Tick(Run(s, script[..n]), script[n])
  {
    assert script[..n + 1][..n] == script[..n];
  }

  lemma RunSnoc(s: Sim, script: seq<seq<Call>>, calls: seq<Call>)
    requires Shape(s)
    ensures Run(s, script + [calls]) == Tick(Run(s, script), calls)
  {
    assert (script + [calls])[..|script|] == script;
  }

  predicate AllDone(s: Sim)
    requires Shape(s)
  {
    forall i :: 0 <= i < s.procs ==> !Running(s, i)
  }

  // ---- What a pager sees ----------------------------------------------

  datatype Pentry = Pentry(active: bool, pc: int, npages: int, pages: seq<bool>)

  function Entry(s: Sim, i: int): (e: Pentry)
    requires Shape(s) && 0 <= i < MAXPROCESSES
    ensures |e.pages| == MAXPROCPAGES && 0 <= e.pc < MAXPC && (e.active <==> Running(s, i))
  {
    var k := s.slots[i];
    if k < 0 then Pentry(false, 0, 0, seq(MAXPROCPAGES, _ => false))
    else
      var q := s.queue[k];
      Pentry(q.active, q.pc, MAXPROCPAGES, seq(MAXPROCPAGES, j requires 0 <= j < MAXPROCPAGES => q.pages[j] == 0))
  }

  function View(s: Sim): (v: seq<Pentry>)
    requires Shape(s)
    ensures |v| == MAXPROCESSES && forall i :: 0 <= i < |v| ==> v[i] == Entry(s, i)
  {
    seq(MAXPROCESSES, i requires 0 <= i < MAXPROCESSES => Entry(s, i))
  }

  // ---- Start ------------------------------------------------------------

  /** Context i of a freshly loaded job: contexts beyond the branch table are only cleared. */
  function LoadContext(p: Program, d: seq<Draws>, i: int): (c: Bcontext)
    requires GoodProgram(p) && DrawsFor(p, d) && 0 <= i < MAXBRANCHES
    ensures ValidContext(c)
  {
    if i < p.nbranches then Initialised(Cleared(), p.branches[i], d[i]) else Cleared()
  }

  /** A job as process_clear and process_load leave it. */
  function Load(p: Program, d: seq<Draws>): (q: Process)
    requires GoodProgram(p) && DrawsFor(p, d)
    ensures GoodProcess(q)
  {
    Process(p, seq(MAXBRANCHES, i requires 0 <= i < MAXBRANCHES => LoadContext(p, d, i)),
            0, seq(MAXPROCPAGES, _ => -PAGEWAIT - 1), true, 0, 0)
  }

  predicate DrawsFor(p: Program, d: seq<Draws>)
    requires GoodProgram(p)
  {
    |d| == MAXBRANCHES && forall i :: 0 <= i < p.nbranches ==> Ready(p.branches[i], d[i])
  }

  /** The machine once the first procs jobs of the queue are handed out. */
  function Boot(procs: int, queue: seq<Process>): (s: Sim)
    requires 1 <= procs <= MAXPROCESSES && |queue| == QUEUESIZE
    requires forall k :: 0 <= k < |queue| ==> GoodProcess(queue[k])
    ensures Shape(s)
  {
    Sim(procs, PHYSICALPAGES, queue, seq(MAXPROCESSES, i => if i < procs then i else -1),
        procs, seq(procs, i => i))
  }
}
