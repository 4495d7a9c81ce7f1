/** A job that walks straight through its first pages under LRU, one page fault after another. */
module Walking {
  import opened Params
  import opened Sums
  import opened Lookup
  import opened Simulator
  import opened Invariants
  import opened Locality
  import opened Lru
  import opened JobQueue

  /** Pages that a walker gets before it is stopped. */
  const REACH := 5

  /** Ticks from one page fault of a walker to the next. */
  const LEG := PAGEWAIT + PAGESIZE

  // ---- The code -------------------------------------------------------------

  /** A job of program 0, 1 or 2 that passes its branch at 500 by, if it has one. */
  predicate Straight(q: Process) {
    && GoodProcess(q)
    && ((q.program == Programs()[0] && (q.pc <= 500 ==> !q.bcontexts[0].bvalue))
        || q.program == Programs()[1] || q.program == Programs()[2])
  }

  lemma NoExitYet(i: int, pc: int)
    requires 0 <= i < 3 && 0 <= pc < REACH * PAGESIZE
    ensures Search(Programs()[i].exits, Programs()[i].nexits, pc) == -1
  {
    assert Programs()[i].exits[0] >= 1130;
  }

  lemma OnlyBranch(i: int, pc: int)
    requires 0 <= i < 3 && 0 <= pc < REACH * PAGESIZE
    ensures Search(Froms(Programs()[i]), Programs()[i].nbranches, pc) == if i == 0 && pc == 500 then 0 else -1
  {
    var p := Programs()[i];
    var keys := Froms(p);
    assert p.branches[..p.nbranches][0] == p.branches[0];
    if i == 0 {
      assert keys[0] == 500 && keys[1] == 1401 && keys[2] == 1533;
      assert Bisect(keys, pc, 0, 2) == Bisect(keys, pc, 0, 1);
    } else if i == 1 {
      assert keys[0] == 1129;
    } else {
      assert keys[0] == 1682 && keys[1] == 1683;
    }
  }

  /** A computing step of such a job goes on to the next pc. */
  lemma StraightStep(q: Process)
    requires Straight(q) && q.active && q.pc < REACH * PAGESIZE && q.pages[PcPage(q)] == 0
    ensures var (r, more) := StepProcess(q);
      more && Straight(r) && r.active && r.pc == q.pc + 1 && r.pages == q.pages
  {
    var i := if q.program == Programs()[0] then 0 else if q.program == Programs()[1] then 1 else 2;
    NoExitYet(i, q.pc);
    OnlyBranch(i, q.pc);
  }

  // ---- The walk ---------------------------------------------------------------

  function Wait(r: int): int {
    if r < PAGEWAIT then PAGEWAIT - r else 0
  }

  function Place(k: int, r: int): int {
    PAGESIZE * k + if r < PAGEWAIT then 0 else r - PAGEWAIT
  }

  /** Pages before k are in, page k's counter is c, and the later pages are out. */
  predicate Reached(pages: seq<int>, k: int, c: int) {
    && |pages| == MAXPROCPAGES
    && forall p :: 0 <= p < |pages| ==> pages[p] == if p < k then 0 else if p == k then c else -PAGEWAIT - 1
  }

  /** r ticks after its page fault for page k, once the pager has had its turn. */
  predicate Walks(q: Process, k: nat, r: nat) {
    Straight(q) && q.active && q.pc == Place(k, r) && Reached(q.pages, k, Wait(r))
  }

  /** The same before the pager's turn: the fault itself has not been served. */
  predicate Arrives(q: Process, k: nat, r: nat) {
    Straight(q) && q.active && q.pc == Place(k, r) && Reached(q.pages, k, if r == 0 then -PAGEWAIT - 1 else Wait(r))
  }

  lemma PlacePage(q: Process, k: nat, r: nat)
    requires GoodProcess(q) && k <= REACH && r < LEG && q.pc == Place(k, r)
    ensures PcPage(q) == k
  {
  }

  lemma AgedReached(pages: seq<int>, k: nat, c: int)
    requires k <= REACH && Reached(pages, k, c)
    ensures Reached(Aged(pages), k, AgeCell(c))
  {
  }

  /** What a tick makes of a walker, up to the pager. */
  lemma WalkTicks(q: Process, k: nat, r: nat)
    requires k < REACH && r < LEG && Walks(q, k, r)
    ensures StepProcess(q).1
    ensures if r + 1 == LEG then Arrives(TickedProcess(q), k + 1, 0) else Arrives(TickedProcess(q), k, r + 1)
  {
    PlacePage(q, k, r);
    AgedReached(q.pages, k, Wait(r));
    if r >= PAGEWAIT {
      StraightStep(q);
    }
  }

  /** A fresh job faults at once. */
  lemma WalkBegins(q: Process)
    requires Fresh(q) && Straight(q)
    ensures StepProcess(q).1 && Arrives(TickedProcess(q), 0, 0)
  {
    assert q.pages[PcPage(q)] != 0;
  }

  lemma {:induction false} HeldPrefix(pages: seq<int>, h: nat)
    requires h <= |pages|
    requires forall p :: 0 <= p < |pages| ==> if p < h then pages[p] >= -PAGEWAIT else pages[p] < -PAGEWAIT
    ensures Sum(HeldCell, pages) == h
  {
    if pages != [] {
      HeldPrefix(pages[1..], if h == 0 then 0 else h - 1);
    }
  }

  lemma ReachedHolds(q: Process, k: nat, c: int)
    requires GoodProcess(q) && k < REACH && Reached(q.pages, k, c)
    ensures Held(q) == if c >= -PAGEWAIT then k + 1 else k
  {
    HeldPrefix(q.pages, if c >= -PAGEWAIT then k + 1 else k);
  }

  /** With a frame to be had, the pager's turn serves the fault and leaves the rest of the walk alone. */
  lemma WalkTurn(t: Sim, row: seq<int>, i: int, junk: int, k: nat, r: nat)
    requires Inv(t) && GoodRow(row) && 0 <= i < MAXPROCESSES && t.slots[i] >= 0 && PageNo(junk)
    requires k < REACH && r < LEG && Arrives(t.queue[t.slots[i]], k, r) && (r == 0 ==> t.avail > 0)
    ensures Walks(DoAll(t, SlotCalls(t, Entry(t, i), row, i, junk)).queue[t.slots[i]], k, r)
  {
    var q := t.queue[t.slots[i]];
    EntryOf(t, i);
    PlacePage(q, k, r);
    SlotEffect(t, row, i, junk);
    assert Callable(t, i, k);
  }
}
