/** A draw of the simulator's own queue under which the predictor comes to start its searches past a row. */
module SeedRun {
  import opened Params
  import opened Branching
  import opened Lookup
  import opened Simulator
  import opened Invariants
  import opened Latency
  import opened JobQueue
  import opened Predict
  import opened PredictRuns
  import opened Fetching
  import F = FullMemory

  // ---- Program 0 --------------------------------------------------------------

  /** Laps of the outer loop that one run of its table stands for. */
  const LAPS := 29

  /** A job of program 0 in its outer loop, which was taken back lap times so far. */
  predicate InLoop(q: Process, lap: nat) {
    && GoodProcess(q) && q.program == Programs()[0] && q.active && q.pc <= 1533
    && var c := q.bcontexts[2];
       c.bvalue && c.boffset == 0 && c.brings[0] == LAPS && c.bcount == lap < LAPS
  }

  lemma LoopKeys(pc: int)
    requires 0 <= pc <= 1533
    ensures Search(Programs()[0].exits, Programs()[0].nexits, pc) == -1
    ensures Search(Froms(Programs()[0]), Programs()[0].nbranches, pc)
            == if pc == 500 then 0 else if pc == 1401 then 1 else if pc == 1533 then 2 else -1
  {
    var keys := Froms(Programs()[0]);
    assert keys[0] == 500 && keys[1] == 1401 && keys[2] == 1533;
    assert Programs()[0].exits[0] == 1534;
  }

  /** Below 1533 it goes forward, whichever way its branches go; at 1533 it goes back, but for the last lap. */
  lemma LoopStep(q: Process, lap: nat)
    requires InLoop(q, lap) && q.pages[PcPage(q)] == 0 && (q.pc == 1533 ==> lap + 1 < LAPS)
    ensures var (r, more) := StepProcess(q);
      more && if q.pc < 1533 then InLoop(r, lap) && r.pc > q.pc else InLoop(r, lap + 1) && r.pc == 0
  {
    LoopKeys(q.pc);
    var p := Programs()[0];
    assert p.branches[0].whereto == 1402 && p.branches[1].whereto == 1533 && p.branches[2].whereto == 0;
  }

  // ---- Under the pager ----------------------------------------------------------

  /** The job in its loop, and the pager has counted every lap as a move from page 11 to page 0. */
  predicate Looping(x: State, lap: nat) {
    Going(x) && InLoop(Job(x), lap) && Moves(History(x.views, 0), 11, 0) >= lap
  }

  lemma WaitInLoop(x: State, lap: nat, fars: seq<Beyond>)
    requires GoodFars(fars) && Looping(x, lap) && Needed(Job(x)) != 0
    ensures var y := Turn(x, fars);
      Looping(y, lap) && Job(y).pc == Job(x).pc && Rank(Needed(Job(y))) < Rank(Needed(Job(x)))
  {
    WaitingTick(x, fars);
    MovesOfSnoc(History(x.views, 0), PcPage(Job(x)), 11, 0);
  }

  lemma StepInLoop(x: State, lap: nat, fars: seq<Beyond>)
    requires GoodFars(fars) && Looping(x, lap) && Needed(Job(x)) == 0 && Job(x).pc < 1533
    ensures Looping(Turn(x, fars), lap) && Job(Turn(x, fars)).pc > Job(x).pc
  {
    LoopStep(Job(x), lap);
    OneTick(x, fars);
    MovesOfSnoc(History(x.views, 0), PcPage(Job(Turn(x, fars))), 11, 0);
  }

  lemma LapInLoop(x: State, lap: nat, fars: seq<Beyond>)
    requires GoodFars(fars) && Looping(x, lap) && Needed(Job(x)) == 0 && Job(x).pc == 1533 && lap + 1 < LAPS
    ensures Looping(Turn(x, fars), lap + 1)
  {
    LoopStep(Job(x), lap);
    OneTick(x, fars);
    assert PcPage(Job(x)) == 11 && PcPage(Job(Turn(x, fars))) == 0;
    MovesOfSnoc(History(x.views, 0), 0, 11, 0);
  }

  function Same(fars: seq<Beyond>, n: nat): (s: seq<seq<Beyond>>)
    requires GoodFars(fars)
    ensures |s| == n && (forall i :: 0 <= i < n ==> s[i] == fars) && forall f :: f in s ==> GoodFars(f)
  {
    seq(n, _ => fars)
  }

  /** n ticks, with the same beyond the rows each time. */
  function RunFor(x: State, fars: seq<Beyond>, n: nat): (r: State)
    requires GoodState(x) && GoodFars(fars)
    ensures GoodState(r)
  {
    Turns(x, Same(fars, n))
  }

  lemma RunForNext(x: State, fars: seq<Beyond>, n: nat, n': nat)
    requires GoodState(x) && GoodFars(fars) && n' == n + 1
    ensures RunFor(x, fars, n') == Turn(RunFor(x, fars, n), fars)
  {
    assert Same(fars, n')[..n] == Same(fars, n);
  }

  /** Ticks that the lap still takes, at most: one for each step and those that its page may take. */
  function Ahead(pc: int, rank: int): int { (2 * PAGEWAIT + 2) * (1533 - pc) + rank }

  /** In the loop, with n ticks of the lap left at most. */
  predicate LapLeft(y: State, lap: nat, n: nat) {
    Looping(y, lap) && Ahead(Job(y).pc, Rank(Needed(Job(y)))) <= n
  }

  lemma InLoopAhead(x: State, lap: nat)
    requires Looping(x, lap)
    ensures 0 <= Rank(Needed(Job(x))) <= 2 * PAGEWAIT + 1
    ensures 0 <= Ahead(Job(x).pc, Rank(Needed(Job(x))))
  {
  }

  lemma StepAhead(pc: int, rank: int, pc': int, rank': int)
    requires pc < pc' && 0 <= rank && rank' <= 2 * PAGEWAIT + 1
    ensures Ahead(pc', rank') < Ahead(pc, rank)
  {
  }

  /** One tick of the loop: a lap is over, or less of it is left. */
  lemma TickInLoop(y: State, lap: nat, n: nat, z: State, fars: seq<Beyond>) returns (lap': nat, n': nat)
    requires GoodFars(fars) && LapLeft(y, lap, n) && lap + 1 < LAPS && z == Turn(y, fars)
    ensures LapLeft(z, lap', n') && (lap' == lap + 1 || (lap' == lap && n' < n))
  {
    lap' := lap;
    if Needed(Job(y)) != 0 {
      WaitInLoop(y, lap, fars);
    } else if Job(y).pc < 1533 {
      StepInLoop(y, lap, fars);
      InLoopAhead(y, lap);
      InLoopAhead(z, lap);
      StepAhead(Job(y).pc, Rank(Needed(Job(y))), Job(z).pc, Rank(Needed(Job(z))));
    } else {
      LapInLoop(y, lap, fars);
      lap' := lap + 1;
    }
    InLoopAhead(z, lap');
    n' := Ahead(Job(z).pc, Rank(Needed(Job(z))));
  }

  /** From y on, which k ticks lead to, every lap up to the last but one is reached. */
  lemma {:induction false} LapIsReached(x: State, k: nat, y: State, lap: nat, left: nat, goal: nat,
      fars: seq<Beyond>) returns (n: nat)
    requires GoodFars(fars) && GoodState(x) && y == RunFor(x, fars, k)
    requires LapLeft(y, lap, left) && lap <= goal < LAPS
    ensures Looping(RunFor(x, fars, n), goal)
    decreases goal - lap, left
  {
    if lap == goal {
      n := k;
    } else {
      var k' := k + 1;
      RunForNext(x, fars, k, k');
      var z := RunFor(x, fars, k');
      var lap', left' := TickInLoop(y, lap, left, z, fars);
      n := LapIsReached(x, k', z, lap', left', goal, fars);
    }
  }

  // ---- The run ------------------------------------------------------------------

  lemma FirstJobLoops(d: seq<Draws>)
    requires DrawsFor(Programs()[0], d) && d[2] == F.SomeDraws()
    ensures InLoop(Load(Programs()[0], d), 0)
  {
    var q := Load(Programs()[0], d);
    var b := Programs()[0].branches[2];
    assert q.bcontexts[2] == Initialised(Cleared(), b, d[2]);
    assert LoopRun(b, d[2], 0) == LAPS;
  }

  lemma BootLoops(queue: seq<Process>)
    requires FreshQueue(queue) && InLoop(queue[0], 0)
    ensures Looping(Start(Boot(1, queue)), 0)
  {
    BootInv(1, queue);
    assert Fresh(queue[0]);
  }

  lemma ManyLaps(x: State)
    requires Looping(x, MAXPROCPAGES)
    ensures !PageNo(Seed(x.ms[0], 11))
  {
    LearntIsHistory(x.views, 0);
    SeedInRangeExactly(History(x.views, 0), 11);
  }

  lemma QueueLoops()
    ensures FreshQueue(F.OneQueue()) && InLoop(F.OneQueue()[0], 0)
  {
    F.QueueWalks();
    F.ShuffleSorts(10 * QUEUESIZE);
    F.SameDrawsGood(Kinds(F.OneShuffle()));
    var d := F.SameDraws()[0];
    assert F.OneQueue()[0] == Load(Programs()[0], d) by {
      assert Kinds(F.OneShuffle())[0] == 0;
    }
    FirstJobLoops(d);
  }

  /**
   The simulator itself gets there: with its own programs, one draw of its queue and one processor, the predictor
   comes to a state in which its searches for page 11 start from no page number, whatever lies beyond its rows.
   */
  lemma SeedLeavesRange(fars: seq<Beyond>) returns (n: nat)
    requires GoodFars(fars)
    ensures GoodDraws(Kinds(F.OneShuffle()), F.SameDraws())
    ensures var queue := Jobs(Kinds(F.OneShuffle()), F.SameDraws());
      && FreshQueue(queue)
      && !PageNo(Seed(PredictRun(Boot(1, queue), Same(fars, n)).ms[0], 11))
  {
    F.SameDrawsGood(Kinds(F.OneShuffle()));
    QueueLoops();
    var x := Start(Boot(1, F.OneQueue()));
    BootLoops(F.OneQueue());
    assert RunFor(x, fars, 0) == x;
    InLoopAhead(x, 0);
    n := LapIsReached(x, 0, x, 0, Ahead(Job(x).pc, Rank(Needed(Job(x)))), MAXPROCPAGES, fars);
    ManyLaps(RunFor(x, fars, n));
  }
}
