/** The step of a process with its tables scanned from the start, and when the simulator's bisections agree with it. */
module StepByScan {
  import opened Params
  import opened Lookup
  import opened Simulator

  /** What a step means: stop at an exit, take or pass the branch written at pc, or go on. */
  function ScanStep(q: Process): (Process, bool)
    requires GoodProcess(q)
  {
    var p := q.program;
    if !q.active then (q, false)
    else if q.pages[PcPage(q)] != 0 then (q.(block := q.block + 1), true)
    else
      var q := q.(compute := q.compute + 1);
      if Scan(p.exits, p.nexits, q.pc, 0) >= 0 then (q, false)
      else
        var m := Scan(Froms(p), p.nbranches, q.pc, 0);
        if 0 <= m < MAXBRANCHES then (DoBranch(q, m), true)
        else (q.(pc := if q.pc + 1 > p.size then 0 else q.pc + 1), true)
  }

  predicate SortedTables(p: Program)
    requires GoodProgram(p)
  {
    Ascending(p.exits, p.nexits) && Ascending(Froms(p), p.nbranches)
  }

  /** Neither probe of an empty table can be mistaken for a hit. */
  predicate NoFalseHit(q: Process)
    requires GoodProcess(q)
  {
    var p := q.program;
    && (p.nexits > 0 || q.pc != p.exits[0])
    && (p.nbranches > 0 || q.pc != p.branches[0].wherefrom)
  }

  /** With sorted tables the step is the scanning step, at the same table entries, unless an empty table is hit. */
  lemma StepRefinesScan(q: Process)
    requires GoodProcess(q) && SortedTables(q.program) && NoFalseHit(q)
    ensures StepProcess(q) == ScanStep(q)
  {
    var p := q.program;
    SearchIsScanExactly(p.exits, p.nexits, q.pc);
    SearchIsScanExactly(Froms(p), p.nbranches, q.pc);
  }

  /** Control stays in the program and on one of its pages, and only a computing step moves it. */
  lemma ControlInRange(q: Process)
    requires GoodProcess(q)
    ensures var r := StepProcess(q).0;
      && 0 <= r.pc <= q.program.size && 0 <= r.pc / PAGESIZE < MAXPROCPAGES
      && (r.pc != q.pc ==> q.active && q.pages[PcPage(q)] == 0 && r.compute == q.compute + 1 && r.block == q.block)
      && r.program == q.program && r.pages == q.pages && r.active == q.active
  {
    var r := StepProcess(q).0;
    assert GoodProcess(r);
  }
}
