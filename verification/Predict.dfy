/** The predictive pager; row 0 of its tables stands for the source's row -1, and row p + 1 for page p. */
module Predict {
  import opened Params
  import opened Sums
  import opened Simulator
  import opened Invariants
  import opened Locality
  import opened Lru

  // ---- Learning -----------------------------------------------------------

  /** One processor's transition counts and the last page it was seen in, -1 for none. */
  datatype Memory = Memory(freq: seq<seq<int>>, past: int)

  predicate GoodMemory(m: Memory) {
    && |m.freq| == MAXPROCPAGES + 1
    && (forall r :: 0 <= r < |m.freq| ==> |m.freq[r]| == MAXPROCPAGES)
    && -1 <= m.past < MAXPROCPAGES
  }

  function Blank(): (m: Memory)
    ensures GoodMemory(m)
  {
    Memory(seq(MAXPROCPAGES + 1, _ => seq(MAXPROCPAGES, _ => 0)), -1)
  }

  /** Counts a change of page. */
  function Note(m: Memory, page: int): (r: Memory)
    requires GoodMemory(m) && PageNo(page)
    ensures GoodMemory(r) && r.past == page
  {
    if m.past == page then m
    else
      var row := m.freq[m.past + 1];
      Memory(m.freq[m.past + 1 := row[page := row[page] + 1]], page)
  }

  /** The memory after a processor was seen in these pages, one for each tick it was active. */
  function NoteAll(h: seq<int>): (m: Memory)
    requires forall p :: p in h ==> PageNo(p)
    ensures GoodMemory(m) && m.past == (if h == [] then -1 else h[|h| - 1])
  {
    if h == [] then Blank() else Note(NoteAll(h[..|h| - 1]), h[|h| - 1])
  }

  /** Reference count: how often h goes from page a (-1: from nothing) straight to another page b. */
  function Moves(h: seq<int>, a: int, b: int): nat {
    if h == [] then 0
    else
      var n := |h| - 1;
      var before := if n == 0 then -1 else h[n - 1];
      Moves(h[..n], a, b) + if before == a && h[n] == b && a != b then 1 else 0
  }

  /** The tables count exactly the moves of the history. */
  lemma {:induction false} FreqCountsMoves(h: seq<int>, a: int, b: int)
    requires (forall p :: p in h ==> PageNo(p)) && -1 <= a < MAXPROCPAGES && PageNo(b)
    ensures NoteAll(h).freq[a + 1][b] == Moves(h, a, b)
    decreases |h|
  {
    if h != [] {
      FreqCountsMoves(h[..|h| - 1], a, b);
    }
  }

  /** Counts into page p. */
  function Into(freq: seq<seq<int>>, p: int): int
    requires PageNo(p) && forall r :: 0 <= r < |freq| ==> |freq[r]| == MAXPROCPAGES
  {
    if freq == [] then 0 else freq[0][p] + Into(freq[1..], p)
  }

  function Count(c: int): int { c }

  /** Counts out of page p. */
  function OutOf(m: Memory, p: int): int
    requires GoodMemory(m) && PageNo(p)
  {
    Sum(Count, m.freq[p + 1])
  }

  lemma {:induction false} IntoUpdate(freq: seq<seq<int>>, r: nat, page: int, p: int)
    requires PageNo(p) && PageNo(page) && r < |freq| && forall r :: 0 <= r < |freq| ==> |freq[r]| == MAXPROCPAGES
    ensures Into(freq[r := freq[r][page := freq[r][page] + 1]], p) == Into(freq, p) + if p == page then 1 else 0
  {
    var freq' := freq[r := freq[r][page := freq[r][page] + 1]];
    if r == 0 {
      assert freq'[1..] == freq[1..];
    } else {
      assert freq'[1..] == freq[1..][r - 1 := freq[1..][r - 1][page := freq[1..][r - 1][page] + 1]];
      IntoUpdate(freq[1..], r - 1, page, p);
    }
  }

  predicate Balanced(m: Memory, p: int)
    requires GoodMemory(m) && PageNo(p)
  {
    Into(m.freq, p) - OutOf(m, p) == if m.past == p then 1 else 0
  }

  lemma NoteBalanced(m: Memory, page: int, p: int)
    requires GoodMemory(m) && PageNo(page) && PageNo(p) && Balanced(m, p)
    ensures Balanced(Note(m, page), p)
  {
    if m.past != page {
      var row := m.freq[m.past + 1];
      IntoUpdate(m.freq, m.past + 1, page, p);
      SumUpdate(Count, row, page, row[page] + 1);
    }
  }

  lemma {:induction false} BlankBalanced(freq: seq<seq<int>>, p: int)
    requires PageNo(p) && forall r :: 0 <= r < |freq| ==> freq[r] == seq(MAXPROCPAGES, _ => 0)
    ensures Into(freq, p) == 0
  {
    if freq != [] {
      BlankBalanced(freq[1..], p);
    }
  }

  /**
   Transition counts balance after any history: a page is entered once more than it is left exactly when it is
   the page the processor was last seen in.
   */
  lemma {:induction false} TransitionsBalance(h: seq<int>, p: int)
    requires (forall q :: q in h ==> PageNo(q)) && PageNo(p)
    ensures Into(NoteAll(h).freq, p) - OutOf(NoteAll(h), p) == if h != [] && h[|h| - 1] == p then 1 else 0
    decreases |h|
  {
    if h == [] {
      BlankBalanced(Blank().freq, p);
      SumBounds(Count, Blank().freq[p + 1], 0, 0);
    } else {
      var n := |h| - 1;
      TransitionsBalance(h[..n], p);
      NoteBalanced(NoteAll(h[..n]), h[n], p);
    }
  }

  // ---- Choosing -----------------------------------------------------------

  /**
   The two searches start from a count that is read as if it were a page number. When it is none, the source reads
   past a row of counts and past an entry's pages; what it finds there can be anything, and is the same each time.
   */
  datatype Beyond = Beyond(count: int, resident: bool)

  /** The count at page p of a row, or what lies beyond it. */
  function At(row: seq<int>, p: int, far: Beyond): int
    requires |row| == MAXPROCPAGES
  {
    if PageNo(p) then row[p] else far.count
  }

  /** The search for the largest count among the first n, starting from b. */
  function Best(row: seq<int>, b: int, far: Beyond, n: nat): (r: int)
    requires |row| == MAXPROCPAGES && n <= MAXPROCPAGES
    ensures r == b || (0 <= r < n && At(row, b, far) < row[r] && forall p :: 0 <= p < r ==> row[p] < row[r])
    ensures forall p :: 0 <= p < n ==> row[p] <= At(row, r, far)
  {
    if n == 0 then b
    else
      var r := Best(row, b, far, n - 1);
      if row[n - 1] > At(row, r, far) then n - 1 else r
  }

  /** The search for the second largest: the best page is passed over, but not as a starting point. */
  function Second(row: seq<int>, b: int, best: int, far: Beyond, n: nat): (r: int)
    requires |row| == MAXPROCPAGES && n <= MAXPROCPAGES
    ensures r == b || (0 <= r < n && r != best && At(row, b, far) < row[r]
                       && forall p :: 0 <= p < r && p != best ==> row[p] < row[r])
    ensures forall p :: 0 <= p < n && p != best ==> row[p] <= At(row, r, far)
  {
    if n == 0 then b
    else
      var r := Second(row, b, best, far, n - 1);
      if row[n - 1] > At(row, r, far) && n - 1 != best then n - 1 else r
  }

  /** Where the searches start. */
  function Seed(m: Memory, page: int): int
    requires GoodMemory(m) && PageNo(page)
  {
    m.freq[page + 1][0]
  }

  /** The two predictions on seeing page with memory m. */
  function Predictions(m: Memory, page: int, far: Beyond): (int, int)
    requires GoodMemory(m) && PageNo(page)
  {
    var row := Note(m, page).freq[page + 1];
    var best := Best(row, Seed(m, page), far, MAXPROCPAGES);
    (best, Second(row, Seed(m, page), best, far, MAXPROCPAGES))
  }

  /**
   What the predictions are worth. From a seed that is a page number the first is a page with the largest count and
   the second is no worse than any page but the first; they differ exactly when the seed is not itself a best. Among
   pages as good as each other the seed comes first, and then the lowest. From a seed that is no page number the first
   is a page if and only if some count exceeds the one that lies beyond the row.
   */
  lemma PredictionsAreBest(m: Memory, page: int, far: Beyond)
    requires GoodMemory(m) && PageNo(page)
    ensures var (a, b) := Predictions(m, page, far);
      var row := m.freq[page + 1];
      var seed := Seed(m, page);
      && (forall p :: PageNo(p) ==> row[p] <= At(row, a, far))
      && (forall p :: PageNo(p) && p != a ==> row[p] <= At(row, b, far))
      && (a != b <==> At(row, seed, far) < At(row, a, far))
      && (a == seed || (PageNo(a) && forall p :: 0 <= p < a ==> row[p] < row[a]))
      && (b == seed || (PageNo(b) && forall p :: 0 <= p < b && p != a ==> row[p] < row[b]))
      && (PageNo(a) <==> PageNo(seed) || exists p :: PageNo(p) && row[p] > far.count)
  {
    assert Note(m, page).freq[page + 1] == m.freq[page + 1];
    var row := m.freq[page + 1];
    var a := Best(row, Seed(m, page), far, MAXPROCPAGES);
    assert Predictions(m, page, far) == (a, Second(row, Seed(m, page), a, far, MAXPROCPAGES));
  }

  /** The pages of program 0 on n laps of its outer loop: up to pc 500, on to 1402, and from 1533 back to 0. */
  function OuterLoop(n: nat): (h: seq<int>)
    ensures |h| == 6 * n + 1 && h[6 * n] == 0 && forall p :: p in h ==> PageNo(p)
  {
    if n == 0 then [0] else OuterLoop(n - 1) + [1, 2, 3, 10, 11, 0]
  }

  lemma {:induction false} MovesOfSnoc(h: seq<int>, x: int, a: int, b: int)
    ensures Moves(h + [x], a, b)
            == Moves(h, a, b) + if (if h == [] then -1 else h[|h| - 1]) == a && x == b && a != b then 1 else 0
  {
    assert (h + [x])[..|h|] == h;
  }

  lemma {:induction false} OuterLoopMoves(n: nat)
    ensures Moves(OuterLoop(n), 11, 0) == n
  {
    if n == 0 {
      MovesOfSnoc([], 0, 11, 0);
      assert [] + [0] == [0];
    } else {
      OuterLoopMoves(n - 1);
      var h := OuterLoop(n - 1);
      LapMoves(h);
    }
  }

  lemma LapMoves(h: seq<int>)
    requires h != [] && h[|h| - 1] == 0
    ensures Moves(h + [1, 2, 3, 10, 11, 0], 11, 0) == Moves(h, 11, 0) + 1
  {
    MovesOfSnoc(h, 1, 11, 0);
    MovesOfSnoc(h + [1], 2, 11, 0);
    MovesOfSnoc(h + [1] + [2], 3, 11, 0);
    MovesOfSnoc(h + [1] + [2] + [3], 10, 11, 0);
    MovesOfSnoc(h + [1] + [2] + [3] + [10], 11, 11, 0);
    MovesOfSnoc(h + [1] + [2] + [3] + [10] + [11], 0, 11, 0);
    assert h + [1] + [2] + [3] + [10] + [11] + [0] == h + [1, 2, 3, 10, 11, 0];
  }

  /**
   The seed is a page number exactly as long as fewer than MAXPROCPAGES moves to page 0 were counted, and
   MAXPROCPAGES laps of program 0's outer loop exceed that.
   */
  lemma SeedInRangeExactly(h: seq<int>, page: int)
    requires (forall p :: p in h ==> PageNo(p)) && PageNo(page)
    ensures PageNo(Seed(NoteAll(h), page)) <==> Moves(h, page, 0) < MAXPROCPAGES
    ensures !PageNo(Seed(NoteAll(OuterLoop(MAXPROCPAGES)), 11))
  {
    SeedIsCount(h, page);
    ManyLapsSeed(OuterLoop(MAXPROCPAGES), MAXPROCPAGES);
  }

  lemma SeedIsCount(h: seq<int>, page: int)
    requires (forall p :: p in h ==> PageNo(p)) && PageNo(page)
    ensures Seed(NoteAll(h), page) == Moves(h, page, 0)
  {
    FreqCountsMoves(h, page, 0);
  }

  lemma ManyLapsSeed(h: seq<int>, n: nat)
    requires h == OuterLoop(n) && n >= MAXPROCPAGES
    ensures !PageNo(Seed(NoteAll(h), 11))
  {
    OuterLoopMoves(n);
    SeedIsCount(h, 11);
  }

  // ---- Paging -------------------------------------------------------------

  /** The page-outs of processor i among its first n pages: resident, not needed and not predicted. */
  function Evictions(e: Pentry, i: int, a: int, b: int, n: nat): (calls: seq<Call>)
    requires GoodEntry(e) && n <= MAXPROCPAGES
    ensures forall j :: Out(i, j) in calls <==> 0 <= j < n && j != Needs(e) && j != a && j != b && e.pages[j]
    ensures forall c :: c in calls ==> c.slot == i && c.Out?
  {
    if n == 0 then []
    else
      var calls := Evictions(e, i, a, b, n - 1);
      if n - 1 != Needs(e) && n - 1 != a && n - 1 != b && e.pages[n - 1] then calls + [Out(i, n - 1)] else calls
  }

  /** The page-in of p, unless it is there already; a p that is no page is asked for like any other. */
  function Fetch(e: Pentry, i: int, p: int, far: Beyond): seq<Call>
    requires GoodEntry(e)
  {
    if (if PageNo(p) then e.pages[p] else far.resident) then [] else [In(i, p)]
  }

  /** Whether processor i's turn keeps page p: it is needed or one of the predictions. */
  predicate KeepsPage(m: Memory, e: Pentry, far: Beyond, p: int)
    requires GoodMemory(m) && GoodEntry(e)
  {
    var (a, b) := Predictions(m, Needs(e), far);
    p == Needs(e) || p == a || p == b
  }

  /** The calls that keep the needed page and predictions a and b. */
  function Acts(e: Pentry, i: int, a: int, b: int, far: Beyond): seq<Call>
    requires GoodEntry(e)
  {
    Evictions(e, i, a, b, MAXPROCPAGES) + Fetch(e, i, Needs(e), far) + Fetch(e, i, a, far) + Fetch(e, i, b, far)
  }

  function SlotMoves(m: Memory, e: Pentry, i: int, far: Beyond): (calls: seq<Call>)
    requires GoodMemory(m) && GoodEntry(e)
    ensures forall c :: c in calls ==> c.slot == i
  {
    if !e.active then []
    else
      var (a, b) := Predictions(m, Needs(e), far);
      Acts(e, i, a, b, far)
  }

  predicate GoodMemories(ms: seq<Memory>) {
    |ms| == MAXPROCESSES && forall i :: 0 <= i < |ms| ==> GoodMemory(ms[i])
  }

  /** What lies beyond, for each processor. */
  predicate GoodFars(fars: seq<Beyond>) {
    |fars| == MAXPROCESSES
  }

  /** The calls of processors 0..n. */
  function PredictCalls(ms: seq<Memory>, view: seq<Pentry>, fars: seq<Beyond>, n: nat): (calls: seq<Call>)
    requires GoodMemories(ms) && GoodView(view) && GoodFars(fars) && n <= MAXPROCESSES
  {
    if n == 0 then []
    else PredictCalls(ms, view, fars, n - 1) + SlotMoves(ms[n - 1], view[n - 1], n - 1, fars[n - 1])
  }

  /** What the pager has learnt after processors 0..n. */
  function Learnt(ms: seq<Memory>, view: seq<Pentry>, n: nat): (r: seq<Memory>)
    requires GoodMemories(ms) && GoodView(view) && n <= MAXPROCESSES
    ensures GoodMemories(r) && forall i :: n <= i < MAXPROCESSES ==> r[i] == ms[i]
  {
    if n == 0 then ms
    else
      var r := Learnt(ms, view, n - 1);
      if view[n - 1].active then r[n - 1 := Note(r[n - 1], Needs(view[n - 1]))] else r
  }

  /** What the pager knows after any sequence of views. */
  function LearntAll(views: seq<seq<Pentry>>): (ms: seq<Memory>)
    requires forall v :: v in views ==> GoodView(v)
    ensures GoodMemories(ms)
  {
    if views == [] then seq(MAXPROCESSES, _ => Blank())
    else Learnt(LearntAll(views[..|views| - 1]), views[|views| - 1], MAXPROCESSES)
  }

  /** The pages that processor i was seen in while active. */
  function History(views: seq<seq<Pentry>>, i: int): (h: seq<int>)
    requires 0 <= i < MAXPROCESSES && forall v :: v in views ==> GoodView(v)
    ensures forall p :: p in h ==> PageNo(p)
  {
    if views == [] then []
    else
      var v := views[|views| - 1];
      assert GoodView(v);
      History(views[..|views| - 1], i) + if v[i].active then [Needs(v[i])] else []
  }

  lemma {:induction false} LearntAt(ms: seq<Memory>, view: seq<Pentry>, n: nat, i: int)
    requires GoodMemories(ms) && GoodView(view) && n <= MAXPROCESSES && 0 <= i < MAXPROCESSES
    ensures Learnt(ms, view, n)[i] == if i < n && view[i].active then Note(ms[i], Needs(view[i])) else ms[i]
  {
    if n > 0 {
      LearntAt(ms, view, n - 1, i);
    }
  }

  lemma {:induction false} LearntIsHistory(views: seq<seq<Pentry>>, i: int)
    requires 0 <= i < MAXPROCESSES && forall v :: v in views ==> GoodView(v)
    ensures LearntAll(views)[i] == NoteAll(History(views, i))
    decreases |views|
  {
    if views != [] {
      var n := |views| - 1;
      LearntIsHistory(views[..n], i);
      LearntAt(LearntAll(views[..n]), views[n], MAXPROCESSES, i);
      var h := History(views[..n], i);
      if views[n][i].active {
        assert (h + [Needs(views[n][i])])[..|h|] == h;
      } else {
        assert h + [] == h;
      }
    }
  }

  /**
   On every run, whatever views the simulator shows: a processor's counts are exactly its moves between pages, and
   they balance at every page but the last one it was seen in.
   */
  lemma CountsAreExactAndBalance(views: seq<seq<Pentry>>, i: int, p: int, q: int)
    requires 0 <= i < MAXPROCESSES && (forall v :: v in views ==> GoodView(v)) && PageNo(p) && -1 <= q < MAXPROCPAGES
    ensures var h := History(views, i);
      var m := LearntAll(views)[i];
      && m.freq[q + 1][p] == Moves(h, q, p)
      && Into(m.freq, p) - OutOf(m, p) == if h != [] && h[|h| - 1] == p then 1 else 0
  {
    LearntIsHistory(views, i);
    FreqCountsMoves(History(views, i), q, p);
    TransitionsBalance(History(views, i), p);
  }

  lemma InEither(a: seq<Call>, b: seq<Call>, c: Call)
    ensures c in a + b <==> c in a || c in b
  {
  }

  lemma OutsNext(ms: seq<Memory>, view: seq<Pentry>, fars: seq<Beyond>, k: nat, n: nat, i: int, p: int)
    requires GoodMemories(ms) && GoodView(view) && GoodFars(fars) && n == k + 1 <= MAXPROCESSES
    ensures Out(i, p) in PredictCalls(ms, view, fars, n) <==>
            Out(i, p) in PredictCalls(ms, view, fars, k) || Out(i, p) in SlotMoves(ms[k], view[k], k, fars[k])
  {
    InEither(PredictCalls(ms, view, fars, k), SlotMoves(ms[k], view[k], k, fars[k]), Out(i, p));
  }

  lemma {:induction false} OutsOfSlot(ms: seq<Memory>, view: seq<Pentry>, fars: seq<Beyond>, n: nat, i: int, p: int)
    requires GoodMemories(ms) && GoodView(view) && GoodFars(fars) && n <= MAXPROCESSES
    requires 0 <= i < MAXPROCESSES && PageNo(p)
    ensures Out(i, p) in PredictCalls(ms, view, fars, n) <==>
              i < n && view[i].active && view[i].pages[p] && !KeepsPage(ms[i], view[i], fars[i], p)
  {
    if n > 0 {
      var k := n - 1;
      OutsOfSlot(ms, view, fars, k, i, p);
      SlotOuts(ms[k], view[k], k, fars[k], i, p);
      OutsNext(ms, view, fars, k, n, i, p);
    }
  }

  lemma SlotOuts(m: Memory, e: Pentry, k: int, far: Beyond, i: int, p: int)
    requires GoodMemory(m) && GoodEntry(e) && PageNo(p)
    ensures Out(i, p) in SlotMoves(m, e, k, far) <==> i == k && e.active && e.pages[p] && !KeepsPage(m, e, far, p)
  {
    if e.active {
      var (a, b) := Predictions(m, Needs(e), far);
      var outs := Evictions(e, k, a, b, MAXPROCPAGES);
      assert Out(i, p) in SlotMoves(m, e, k, far) <==> Out(i, p) in outs;
    }
  }

  /**
   Footprint: when the pager returns, the resident pages of each running processor are those that were resident
   and are the page it needs or one of the two predictions.
   */
  lemma Footprint(t: Sim, ms: seq<Memory>, fars: seq<Beyond>, i: int, p: int)
    requires Inv(t) && GoodMemories(ms) && GoodView(View(t)) && GoodFars(fars)
    requires 0 <= i < MAXPROCESSES && Running(t, i) && PageNo(p)
    ensures var u := DoAll(t, PredictCalls(ms, View(t), fars, MAXPROCESSES));
      && Running(u, i)
      && (Cell(u, i, p) == 0 <==> Cell(t, i, p) == 0 && KeepsPage(ms[i], View(t)[i], fars[i], p))
  {
    var calls := PredictCalls(ms, View(t), fars, MAXPROCESSES);
    EntryOf(t, i);
    OutsOfSlot(ms, View(t), fars, MAXPROCESSES, i, p);
    DoAllResident(t, calls, i, p);
    DoAllKeeps(t, calls, i, p);
  }

  /** So at most three pages of a running processor are resident. */
  lemma AtMostThreeResident(t: Sim, ms: seq<Memory>, fars: seq<Beyond>, i: int)
    requires Inv(t) && GoodMemories(ms) && GoodView(View(t)) && GoodFars(fars)
    requires 0 <= i < MAXPROCESSES && Running(t, i)
    ensures var u := DoAll(t, PredictCalls(ms, View(t), fars, MAXPROCESSES));
      |Residents(u.queue[u.slots[i]])| <= 3
  {
    var u := DoAll(t, PredictCalls(ms, View(t), fars, MAXPROCESSES));
    var kept := KeptPages(ms[i], View(t)[i], fars[i]);
    var resident := Residents(u.queue[u.slots[i]]);
    forall p | p in resident ensures p in kept {
      Footprint(t, ms, fars, i, p);
    }
    Subset(resident, kept);
  }

  function KeptPages(m: Memory, e: Pentry, far: Beyond): (s: set<int>)
    requires GoodMemory(m) && GoodEntry(e)
    ensures |s| <= 3 && forall p :: p in s <==> KeepsPage(m, e, far, p)
  {
    var (a, b) := Predictions(m, Needs(e), far);
    {Needs(e), a, b}
  }

  lemma Subset(s: set<int>, t: set<int>)
    requires s <= t
    ensures |s| <= |t|
  {
    assert t == s + (t - s);
  }
}
