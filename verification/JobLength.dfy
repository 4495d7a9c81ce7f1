/** How long the five programs can go on: every computing step brings a job closer to its exit. */
module JobLength {
  import opened Params
  import opened Branching
  import opened Lookup
  import opened Simulator
  import opened JobQueue

  // ---- One context ---------------------------------------------------------------

  /** No run of the table is longer than m, and the current one is not over. */
  predicate Bounded(c: Bcontext, m: nat) {
    && ValidContext(c) && c.bcount < Eff(c.brings[c.boffset])
    && forall k :: 0 <= k < c.bsize ==> Eff(c.brings[k]) <= m
  }

  /** How many decisions v are to come before one of the other kind. */
  function Left(c: Bcontext, v: bool): int
    requires ValidContext(c)
  {
    if c.bvalue == v then Eff(c.brings[c.boffset]) - c.bcount else 0
  }

  lemma LeftBounds(c: Bcontext, m: nat, v: bool)
    requires Bounded(c, m)
    ensures 0 <= Left(c, v) <= m && (Left(c, v) == 0 <==> c.bvalue != v)
  {
  }

  /** A decision v is one fewer to come; any other starts afresh, within bounds. */
  lemma DecideLeft(c: Bcontext, m: nat, v: bool)
    requires Bounded(c, m)
    ensures var (d, b) := Decide(c);
      && b == c.bvalue && Bounded(d, m)
      && (b == v ==> Left(d, v) == Left(c, v) - 1)
  {
  }

  // ---- The programs ----------------------------------------------------------------

  /** The longest run of a loop in any of the programs. */
  const LOOP := 49

  /** What job kind k's contexts are like; m bounds the runs of the IF that program 4 turns on. */
  predicate Contexts(k: int, cs: seq<Bcontext>, m: nat)
    requires |cs| == MAXBRANCHES && forall i :: 0 <= i < |cs| ==> ValidContext(cs[i])
  {
    match k
    case 0 => Bounded(cs[2], LOOP)
    case 1 => Bounded(cs[0], LOOP)
    case 2 => Bounded(cs[0], LOOP) && Bounded(cs[1], LOOP)
    case 3 => ValidContext(cs[0]) && cs[0].bsize == 1 && cs[0].brings[0] == 1 && cs[0].bcount == 0
    case _ => Bounded(cs[0], m) && Bounded(cs[3], LOOP)
  }

  predicate OfKind(q: Process, k: int, m: nat) {
    GoodProcess(q) && 0 <= k < PROGRAMS && q.program == Programs()[k] && Contexts(k, q.bcontexts, m)
  }

  function ExitPc(k: int): int
    requires 0 <= k < PROGRAMS
  {
    match k
    case 0 => 1534
    case 1 => 1130
    case 2 => 1684
    case 3 => 1911
    case _ => 504
  }

  lemma ExitsAt(k: int, pc: int)
    requires 0 <= k < PROGRAMS
    ensures Search(Programs()[k].exits, Programs()[k].nexits, pc) == if pc == ExitPc(k) then 0 else -1
  {
    assert Programs()[k].exits[0] == ExitPc(k);
  }

  /** Computing steps until the exit, at most. */
  function ToGo(q: Process, k: int, m: nat): int
    requires OfKind(q, k, m)
  {
    if q.pc >= ExitPc(k) then 0
    else
      match k
      case 0 => 1 + 1535 * Left(q.bcontexts[2], true) + (1533 - q.pc)
      case 1 => 1 + 1131 * Left(q.bcontexts[0], true) + (1129 - q.pc)
      case 2 =>
        1 + INNER * Left(q.bcontexts[1], true)
        + if q.pc == 1683 then 0 else 1 + 1700 * Left(q.bcontexts[0], true) + (1682 - q.pc)
      case 3 => 1 + 2 * (1910 - q.pc) + if q.pc == 0 && q.bcontexts[0].bvalue then 1 else 0
      case _ =>
        1 + Lap4(m) * Left(q.bcontexts[3], true)
        + (if q.pc == 503 then 0
           else if q.pc == 502 then 1
           else if q.pc == 501 then 3 + 600 * Left(q.bcontexts[0], false) + 550
           else 3 + 600 * Left(q.bcontexts[0], false) + (500 - q.pc))
  }

  /** More than one outer lap of program 2 can take. */
  const INNER := 1700 * (LOOP + 2)

  /** More than one lap of program 4's loop can take. */
  function Lap4(m: nat): nat {
    600 * (m + 2)
  }

  /** What a computing step does to such a job. */
  predicate Closer(q: Process, k: int, m: nat)
    requires OfKind(q, k, m) && q.active && q.pages[PcPage(q)] == 0
  {
    var (r, more) := StepProcess(q);
    if q.pc == ExitPc(k) then !more
    else more && r.pc <= ExitPc(k) && OfKind(r, k, m) && ToGo(r, k, m) < ToGo(q, k, m)
  }

  lemma Keys(k: int, pc: int)
    requires 0 <= k < PROGRAMS && 0 <= pc < ExitPc(k)
    ensures var m := Search(Froms(Programs()[k]), Programs()[k].nbranches, pc);
      match k
      case 0 => m == if pc == 500 then 0 else if pc == 1401 then 1 else if pc == 1533 then 2 else -1
      case 1 => m == if pc == 1129 then 0 else -1
      case 2 => m == if pc == 1682 then 0 else if pc == 1683 then 1 else -1
      case 3 => m == if pc == 0 then 0 else -1
      case _ => m == if pc == 500 then 0 else if pc == 501 then 1 else if pc == 502 then 2
                     else if pc == 503 then 3 else -1
  {
    var p := Programs()[k];
    var keys := Froms(p);
    assert forall i :: 0 <= i < p.nbranches ==> keys[i] == p.branches[..p.nbranches][i].wherefrom;
    if k == 3 {
      assert keys[0] == 0;
    }
  }

  // ---- Program by program ---------------------------------------------------------------

  lemma Goes0(q: Process, m: nat)
    requires OfKind(q, 0, m) && q.active && q.pages[PcPage(q)] == 0 && q.pc <= ExitPc(0)
    ensures Closer(q, 0, m)
  {
    ExitsAt(0, q.pc);
    if q.pc < ExitPc(0) {
      Keys(0, q.pc);
      var p := Programs()[0];
      assert p.branches[0].whereto == 1402 && p.branches[1].whereto == 1533 && p.branches[2].whereto == 0;
      DecideLeft(q.bcontexts[2], LOOP, true);
      LeftBounds(q.bcontexts[2], LOOP, true);
    }
  }

  lemma Goes1(q: Process, m: nat)
    requires OfKind(q, 1, m) && q.active && q.pages[PcPage(q)] == 0 && q.pc <= ExitPc(1)
    ensures Closer(q, 1, m)
  {
    ExitsAt(1, q.pc);
    if q.pc < ExitPc(1) {
      Keys(1, q.pc);
      assert Programs()[1].branches[0].whereto == 0;
      DecideLeft(q.bcontexts[0], LOOP, true);
      LeftBounds(q.bcontexts[0], LOOP, true);
    }
  }

  lemma Goes2(q: Process, m: nat)
    requires OfKind(q, 2, m) && q.active && q.pages[PcPage(q)] == 0 && q.pc <= ExitPc(2)
    ensures Closer(q, 2, m)
  {
    ExitsAt(2, q.pc);
    if q.pc < ExitPc(2) {
      Keys(2, q.pc);
      LeftBounds(q.bcontexts[0], LOOP, true);
      LeftBounds(q.bcontexts[1], LOOP, true);
      if q.pc == 1683 { Outer2(q, m); } else if q.pc == 1682 { Inner2(q, m); }
    }
  }

  lemma Inner2(q: Process, m: nat)
    requires OfKind(q, 2, m) && q.active && q.pages[PcPage(q)] == 0 && q.pc == 1682
    ensures Closer(q, 2, m)
  {
    Keys(2, q.pc);
    assert Programs()[2].branches[0].whereto == 1166;
    DecideLeft(q.bcontexts[0], LOOP, true);
    LeftBounds(q.bcontexts[0], LOOP, true);
  }

  lemma Outer2(q: Process, m: nat)
    requires OfKind(q, 2, m) && q.active && q.pages[PcPage(q)] == 0 && q.pc == 1683
    ensures Closer(q, 2, m)
  {
    Keys(2, q.pc);
    assert Programs()[2].branches[1].whereto == 0;
    DecideLeft(q.bcontexts[1], LOOP, true);
    LeftBounds(q.bcontexts[1], LOOP, true);
    LeftBounds(q.bcontexts[0], LOOP, true);
  }

  lemma Goes3(q: Process, m: nat)
    requires OfKind(q, 3, m) && q.active && q.pages[PcPage(q)] == 0 && q.pc <= ExitPc(3)
    ensures Closer(q, 3, m)
  {
    ExitsAt(3, q.pc);
    if q.pc < ExitPc(3) {
      Keys(3, q.pc);
      assert Programs()[3].branches[0] == ZERO;
    }
  }

  lemma Lap4Less(m: nat, r: int)
    ensures Lap4(m) * (r - 1) == Lap4(m) * r - Lap4(m)
  {
  }

  lemma Loop4(q: Process, m: nat)
    requires OfKind(q, 4, m) && q.active && q.pages[PcPage(q)] == 0 && q.pc == 503
    ensures Closer(q, 4, m)
  {
    ExitsAt(4, q.pc);
    Keys(4, q.pc);
    assert Programs()[4].branches[3].whereto == 0;
    LeftBounds(q.bcontexts[0], m, false);
    DecideLeft(q.bcontexts[3], LOOP, true);
    LeftBounds(q.bcontexts[3], LOOP, true);
    Lap4Less(m, Left(q.bcontexts[3], true));
  }

  lemma Branch4(q: Process, m: nat)
    requires OfKind(q, 4, m) && q.active && q.pages[PcPage(q)] == 0 && 500 <= q.pc < 503
    ensures Closer(q, 4, m)
  {
    ExitsAt(4, q.pc);
    Keys(4, q.pc);
    var p := Programs()[4];
    assert p.branches[0].whereto == 503 && p.branches[1].whereto == 0 && p.branches[2].whereto == 503;
    LeftBounds(q.bcontexts[0], m, false);
    DecideLeft(q.bcontexts[0], m, false);
    assert StepProcess(q).0.bcontexts[3] == q.bcontexts[3];
  }

  lemma Goes4(q: Process, m: nat)
    requires OfKind(q, 4, m) && q.active && q.pages[PcPage(q)] == 0 && q.pc <= ExitPc(4)
    ensures Closer(q, 4, m)
  {
    ExitsAt(4, q.pc);
    if q.pc < 500 {
      Keys(4, q.pc);
    } else if q.pc < 503 {
      Branch4(q, m);
    } else if q.pc == 503 {
      Loop4(q, m);
    }
  }

  /** A computing step ends the job at its exit, and brings it closer to it anywhere else. */
  lemma StepGoes(q: Process, k: int, m: nat)
    requires OfKind(q, k, m) && q.active && q.pages[PcPage(q)] == 0 && q.pc <= ExitPc(k)
    ensures Closer(q, k, m)
  {
    match k
    case 0 => Goes0(q, m);
    case 1 => Goes1(q, m);
    case 2 => Goes2(q, m);
    case 3 => Goes3(q, m);
    case _ => Goes4(q, m);
  }

  // ---- Bounds ---------------------------------------------------------------------------------

  /** No job has more computing steps to go. */
  function Longest(m: nat): nat {
    INNER * (LOOP + 1) + Lap4(m) * (LOOP + 1)
  }

  lemma ToGoBounds(q: Process, k: int, m: nat)
    requires OfKind(q, k, m) && q.pc <= ExitPc(k)
    ensures 0 <= ToGo(q, k, m) <= Longest(m)
    ensures q.pc < ExitPc(k) ==> ToGo(q, k, m) > 0
  {
    match k
    case 0 => LeftBounds(q.bcontexts[2], LOOP, true);
    case 1 => LeftBounds(q.bcontexts[0], LOOP, true);
    case 2 => ToGoBounds2(q, m);
    case 3 =>
    case _ => ToGoBounds4(q, m);
  }

  lemma ToGoBounds2(q: Process, m: nat)
    requires OfKind(q, 2, m) && q.pc <= ExitPc(2)
    ensures 0 <= ToGo(q, 2, m) <= Longest(m)
    ensures q.pc < ExitPc(2) ==> ToGo(q, 2, m) > 0
  {
    LeftBounds(q.bcontexts[0], LOOP, true);
    LeftBounds(q.bcontexts[1], LOOP, true);
  }

  lemma ToGoBounds4(q: Process, m: nat)
    requires OfKind(q, 4, m) && q.pc <= ExitPc(4)
    ensures 0 <= ToGo(q, 4, m) <= Longest(m)
    ensures q.pc < ExitPc(4) ==> ToGo(q, 4, m) > 0
  {
    LeftBounds(q.bcontexts[0], m, false);
    LeftBounds(q.bcontexts[3], LOOP, true);
    LapsBound(m, Left(q.bcontexts[3], true));
  }

  lemma LapsBound(m: nat, r: int)
    requires 0 <= r <= LOOP
    ensures 0 <= Lap4(m) * r <= Lap4(m) * LOOP
  {
  }

  // ---- Freshly loaded jobs ----------------------------------------------------------------------

  lemma LoopBounded(b: Branch, d: Draws)
    requires b.btype == FOR && Ready(b, d) && 1 <= b.min < b.max <= LOOP + 1
    ensures Bounded(Initialised(Cleared(), b, d), LOOP)
  {
    var c := Initialised(Cleared(), b, d);
    forall k | 0 <= k < c.bsize ensures Eff(c.brings[k]) <= LOOP {
      assert c.brings[k] == LoopRun(b, d, k);
    }
  }

  lemma {:induction false} RunsAtMost(d: seq<bool>, n: nat)
    requires 1 <= n <= |d|
    ensures forall k :: 0 <= k < |Rle(d, n)| ==> 1 <= Rle(d, n)[k] <= n
  {
    if n > 1 {
      RunsAtMost(d, n - 1);
    }
  }

  /** A run of an IF is no longer than its flips are many. */
  lemma IfBounded(b: Branch, d: Draws, m: nat)
    requires b.btype == IF && Ready(b, d) && |d.flips| <= m
    ensures Bounded(Initialised(Cleared(), b, d), m)
  {
    var runs := Rle(d.flips, Stop(d.flips));
    RunsAtMost(d.flips, Stop(d.flips));
    var c := Initialised(Cleared(), b, d);
    assert Restarted(runs, 1) == runs;
    forall k | 0 <= k < c.bsize ensures Eff(c.brings[k]) <= m {
      assert c.brings[k] == runs[k];
    }
  }

  lemma LoadedContexts(k: int, p: Program, d: seq<Draws>, cs: seq<Bcontext>, m: nat)
    requires 0 <= k < PROGRAMS && p == Programs()[k] && DrawsFor(p, d)
    requires |cs| == MAXBRANCHES && forall i :: 0 <= i < |cs| ==> ValidContext(cs[i])
    requires forall i :: 0 <= i < p.nbranches ==> cs[i] == Initialised(Cleared(), p.branches[i], d[i])
    requires p.nbranches == 0 ==> cs[0] == Cleared()
    requires forall i :: 0 <= i < |d| ==> |d[i].flips| <= m
    ensures Contexts(k, cs, m)
  {
    match k
    case 0 => LoopBounded(p.branches[2], d[2]);
    case 1 => LoopBounded(p.branches[0], d[0]);
    case 2 =>
      LoopBounded(p.branches[0], d[0]);
      LoopBounded(p.branches[1], d[1]);
    case 3 =>
    case _ =>
      IfBounded(p.branches[0], d[0], m);
      LoopBounded(p.branches[3], d[3]);
  }

  lemma LoadedOfKind(k: int, d: seq<Draws>, m: nat)
    requires 0 <= k < PROGRAMS && DrawsFor(Programs()[k], d)
    requires forall i :: 0 <= i < |d| ==> |d[i].flips| <= m
    ensures OfKind(Load(Programs()[k], d), k, m)
  {
    var q := Load(Programs()[k], d);
    LoadedContexts(k, q.program, d, q.bcontexts, m);
  }
}
