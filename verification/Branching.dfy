/**
 The branching engine: a branch's decisions are drawn once, stored as run lengths, and replayed one by one.
 */
module Branching {
  import opened Params
  import opened Sums
  import opened Wrapping

  datatype BranchType = GOTO | FOR | NFOR | IF

  /** A branch of a program; the probability of an IF lives in its draws. */
  datatype Branch = Branch(wherefrom: int, whereto: int, btype: BranchType, min: int, max: int)

  /** The random numbers one initialisation consumes: coin flips for an IF, integers for a loop. */
  datatype Draws = Draws(flips: seq<bool>, ints: seq<nat>)

  /** The branch context; brings has one spare cell that an IF writes on leaving its loop. */
  datatype Bcontext = Bcontext(boffset: int, bsize: int, bvalue: bool, bcount: int, brings: seq<int>)

  predicate ValidContext(c: Bcontext) {
    && |c.brings| == MAXBRINGS + 1
    && 1 <= c.bsize <= MAXBRINGS
    && 0 <= c.boffset < c.bsize
    && 0 <= c.bcount
  }

  // ---- Replaying -------------------------------------------------------

  /** One decision: the context afterwards, and whether to branch. */
  function Decide(c: Bcontext): (r: (Bcontext, bool))
    requires ValidContext(c)
    ensures ValidContext(r.0)
  {
    if c.bcount + 1 >= c.brings[c.boffset]
    then (c.(boffset := Wrap(c.boffset + 1, c.bsize), bcount := 0, bvalue := !c.bvalue), c.bvalue)
    else (c.(bcount := c.bcount + 1), c.bvalue)
  }

  /** The context after n decisions. */
  function After(c: Bcontext, n: nat): (r: Bcontext)
    requires ValidContext(c)
    ensures ValidContext(r)
    decreases n
  {
    if n == 0 then c else After(Decide(c).0, n - 1)
  }

  /** The n-th decision, counting from 0. */
  function Nth(c: Bcontext, n: nat): bool
    requires ValidContext(c)
  {
    Decide(After(c, n)).1
  }

  /** A stored run shorter than 1 still yields one decision. */
  function Eff(run: int): (r: nat)
    ensures r >= 1
  {
    if run < 1 then 1 else run
  }

  /** Rep(v, n) is n copies of v. */
  function Rep(v: bool, n: nat): (r: seq<bool>)
    ensures |r| == n && forall i :: 0 <= i < n ==> r[i] == v
  {
    seq(n, _ => v)
  }

  /** The decisions that run lengths stand for, starting from value v. */
  function Expand(runs: seq<int>, v: bool): (r: seq<bool>)
    ensures |runs| <= |r|
  {
    if runs == [] then [] else Rep(v, Eff(runs[0])) + Expand(runs[1..], !v)
  }

  lemma {:induction false} AfterSum(c: Bcontext, m: nat, n: nat)
    requires ValidContext(c)
    ensures After(c, m + n) == After(After(c, m), n)
    decreases m
  {
    if m != 0 {
      AfterSum(Decide(c).0, m - 1, n);
    }
  }

  /** The rest of the current run: its value is repeated, then the next run starts. */
  lemma {:induction false} RestOfRun(c: Bcontext)
    requires ValidContext(c) && c.bcount < Eff(c.brings[c.boffset])
    ensures var left: nat := Eff(c.brings[c.boffset]) - c.bcount;
      && After(c, left) == c.(boffset := Wrap(c.boffset + 1, c.bsize), bcount := 0, bvalue := !c.bvalue)
      && forall m :: 0 <= m < left ==> Nth(c, m) == c.bvalue
    decreases Eff(c.brings[c.boffset]) - c.bcount
  {
    var left: nat := Eff(c.brings[c.boffset]) - c.bcount;
    var d := Decide(c).0;
    if left > 1 {
      RestOfRun(d);
      forall m | 0 <= m < left ensures Nth(c, m) == c.bvalue {
        if m > 0 { assert Nth(c, m) == Nth(d, m - 1); }
      }
    } else {
      assert After(c, 1) == After(d, 0) == d;
      assert Nth(c, 0) == c.bvalue;
    }
  }

  /** v after n complementations. */
  function Alt(v: bool, n: nat): bool {
    if n % 2 == 0 then v else !v
  }

  lemma AltStep(v: bool, n: nat)
    ensures Alt(!v, n) == Alt(v, n + 1) == !Alt(v, n)
  {
  }

  /** From the start of a run to the end of the table, the context steps once per decision. */
  lemma {:induction false} TableEnd(c: Bcontext)
    requires ValidContext(c) && c.bcount == 0
    ensures var e := Expand(c.brings[c.boffset..c.bsize], c.bvalue);
      After(c, |e|) == c.(boffset := 0, bvalue := Alt(c.bvalue, c.bsize - c.boffset))
    decreases c.bsize - c.boffset
  {
    var runs := c.brings[c.boffset..c.bsize];
    var first := Eff(runs[0]);
    RestOfRun(c);
    var d := After(c, first);
    AltStep(c.bvalue, c.bsize - c.boffset - 1);
    if c.boffset + 1 < c.bsize {
      var tail := runs[1..];
      assert tail == d.brings[d.boffset..d.bsize];
      TableEnd(d);
      AfterSum(c, first, |Expand(tail, d.bvalue)|);
    } else {
      assert Expand(runs[1..], !c.bvalue) == [];
    }
  }

  /** ... and the decisions on the way are the expansion of the runs. */
  lemma {:induction false} TableDecisions(c: Bcontext, m: nat)
    requires ValidContext(c) && c.bcount == 0
    requires m < |Expand(c.brings[c.boffset..c.bsize], c.bvalue)|
    ensures Nth(c, m) == Expand(c.brings[c.boffset..c.bsize], c.bvalue)[m]
    decreases c.bsize - c.boffset
  {
    var runs := c.brings[c.boffset..c.bsize];
    var first, tail := Eff(runs[0]), runs[1..];
    RestOfRun(c);
    assert tail == [] ==> Expand(tail, !c.bvalue) == [];
    if m >= first {
      var d := After(c, first);
      var k := m - first;
      assert tail == d.brings[d.boffset..d.bsize] && Expand(runs, c.bvalue)[m] == Expand(tail, !c.bvalue)[k];
      TableDecisions(d, k);
      AfterSum(c, first, k);
    }
  }

  /** Where n falls when decisions repeat with period L. */
  lemma LapStep(n: nat, L: nat)
    requires 0 < L <= n
    ensures (n - L) % L == n % L && (n - L) / L == n / L - 1
  {
    var q, r := n / L, n % L;
    assert n == q * L + r;
    assert n - L == (q - 1) * L + r;
    LapUnique(n - L, L, q - 1, r);
  }

  lemma LapUnique(n: nat, L: nat, q: int, r: int)
    requires 0 < L && n == q * L + r && 0 <= r < L
    ensures n / L == q && n % L == r
  {
    var q', r' := n / L, n % L;
    assert (q - q') * L == r' - r;
    if q > q' {
      assert (q - q') * L >= L by { MulAtLeast(q - q', L); }
      assert false;
    } else if q < q' {
      assert (q' - q) * L >= L by { MulAtLeast(q' - q, L); }
      assert false;
    }
  }

  lemma MulAtLeast(k: int, L: int)
    requires k >= 1 && L >= 1
    ensures k * L >= L
  {
  }

  /** From the start of the table, decision n is decision n - |lap| of the context one lap later. */
  lemma NextLap(c: Bcontext, n: nat)
    requires ValidContext(c) && c.bcount == 0 && c.boffset == 0
    requires |Expand(c.brings[..c.bsize], c.bvalue)| <= n
    ensures Nth(c, n) == Nth(c.(bvalue := Alt(c.bvalue, c.bsize)), n - |Expand(c.brings[..c.bsize], c.bvalue)|)
  {
    assert c.brings[..c.bsize] == c.brings[0..c.bsize];
    TableEnd(c);
    var L := |Expand(c.brings[..c.bsize], c.bvalue)|;
    AfterSum(c, L, n - L);
  }

  /** Decision n of a table whose expansion is e. */
  function Cyclic(e: seq<bool>, odd: bool, n: nat): bool
    requires e != []
  {
    if odd then Alt(e[n % |e|], n / |e|) else e[n % |e|]
  }

  lemma CyclicLap(e: seq<bool>, e': seq<bool>, odd: bool, n: nat)
    requires e != [] && |e'| == |e| <= n
    requires forall i :: 0 <= i < |e| ==> e'[i] == (e[i] != odd)
    ensures Cyclic(e, odd, n) == Cyclic(e', odd, n - |e|)
  {
    LapStep(n, |e|);
    AltStep(e[n % |e|], (n - |e|) / |e|);
  }

  /**
   The engine decodes run lengths: over any number of decisions it goes round the expansion of its
   table, complementing every second lap when the table has an odd number of runs.
   */
  lemma {:induction false} DecisionsDecodeRuns(c: Bcontext, n: nat)
    requires ValidContext(c) && c.bcount == 0 && c.boffset == 0
    ensures var e := Expand(c.brings[..c.bsize], c.bvalue);
      e != [] && Nth(c, n) == Cyclic(e, c.bsize % 2 == 1, n)
    decreases n
  {
    var runs := c.brings[..c.bsize];
    var e := Expand(runs, c.bvalue);
    if n < |e| {
      assert runs == c.brings[0..c.bsize];
      LapUnique(n, |e|, 0, n);
      TableDecisions(c, n);
    } else {
      NextLap(c, n);
      var d := c.(bvalue := Alt(c.bvalue, c.bsize));
      DecisionsDecodeRuns(d, n - |e|);
      ExpandFlip(runs, c.bvalue);
      CyclicLap(e, Expand(runs, d.bvalue), c.bsize % 2 == 1, n);
    }
  }

  lemma {:induction false} ExpandFlip(runs: seq<int>, v: bool)
    ensures |Expand(runs, !v)| == |Expand(runs, v)|
    ensures forall i :: 0 <= i < |Expand(runs, v)| ==> Expand(runs, !v)[i] == !Expand(runs, v)[i]
  {
    if runs != [] {
      ExpandFlip(runs[1..], !v);
    }
  }

  function Decisions(run: int): int {
    Eff(run)
  }

  /** A lap is as long as the runs add up to, each counting at least 1. */
  lemma {:induction false} LapIsSumOfRuns(runs: seq<int>, v: bool)
    ensures |Expand(runs, v)| == Sum(Decisions, runs)
  {
    if runs != [] {
      LapIsSumOfRuns(runs[1..], !v);
    }
  }

  /** With an even number of runs one lap restores the context exactly. */
  lemma EvenTableReturns(c: Bcontext)
    requires ValidContext(c) && c.bcount == 0 && c.boffset == 0 && c.bsize % 2 == 0
    ensures var lap := Sum(Decisions, c.brings[..c.bsize]);
      lap > 0 && After(c, lap) == c
  {
    assert c.brings[..c.bsize] == c.brings[0..c.bsize];
    LapIsSumOfRuns(c.brings[..c.bsize], c.bvalue);
    TableEnd(c);
  }

  // ---- Initialising ----------------------------------------------------

  /** The run lengths after one more flip, given that the last run has value last. */
  function PushFlip(r: seq<int>, last: bool, x: bool): (r': seq<int>)
    requires r != []
    ensures |r| <= |r'| <= |r| + 1
  {
    if x == last then r[|r| - 1 := r[|r| - 1] + 1] else r + [1]
  }

  /** Run lengths of the first n flips, counted one flip at a time. */
  function Rle(d: seq<bool>, n: nat): (r: seq<int>)
    requires 1 <= n <= |d|
    ensures 1 <= |r| <= n
  {
    if n == 1 then [1] else PushFlip(Rle(d, n - 1), d[n - 2], d[n - 1])
  }

  lemma {:induction false} ExpandSnoc(runs: seq<int>, r: int, v: bool)
    ensures Expand(runs + [r], v) == Expand(runs, v) + Rep(Alt(v, |runs|), Eff(r))
  {
    if runs == [] {
      assert [] + [r] == [r];
      assert [r][1..] == [];
      assert Expand([r], v) == Rep(v, Eff(r)) + Expand([], !v);
    } else {
      assert (runs + [r])[1..] == runs[1..] + [r];
      ExpandSnoc(runs[1..], r, !v);
      AltStep(v, |runs| - 1);
      var head, mid, last := Rep(v, Eff(runs[0])), Expand(runs[1..], !v), Rep(Alt(v, |runs|), Eff(r));
      assert Expand(runs + [r], v) == head + (mid + last);
      assert head + (mid + last) == (head + mid) + last;
    }
  }

  /** One more repetition in the last run is one more decision. */
  lemma ExpandLonger(runs: seq<int>, r: int, v: bool)
    requires r >= 1
    ensures Expand(runs + [r + 1], v) == Expand(runs + [r], v) + [Alt(v, |runs|)]
  {
    ExpandSnoc(runs, r, v);
    ExpandSnoc(runs, r + 1, v);
    assert Rep(Alt(v, |runs|), r + 1) == Rep(Alt(v, |runs|), r) + [Alt(v, |runs|)];
  }

  /** Pushing a flip onto the runs appends it to what they decode to. */
  lemma ExpandPush(r: seq<int>, v: bool, x: bool)
    requires r != [] && r[|r| - 1] >= 1
    ensures var r' := PushFlip(r, Alt(v, |r| - 1), x);
      && Expand(r', v) == Expand(r, v) + [x]
      && Alt(v, |r'| - 1) == x && r'[|r'| - 1] >= 1
  {
    var k := |r| - 1;
    if x == Alt(v, k) {
      ExpandLonger(r[..k], r[k], v);
      assert r == r[..k] + [r[k]];
      assert PushFlip(r, x, x) == r[..k] + [r[k] + 1];
    } else {
      ExpandSnoc(r, 1, v);
      AltStep(v, k);
      assert Rep(x, 1) == [x];
    }
  }

  lemma ExpandOne(r: int, v: bool)
    ensures Expand([r], v) == Rep(v, Eff(r))
  {
    assert [r][1..] == [];
    assert Expand([], !v) == [];
  }

  /** Run lengths r, read from value v, stand for d. */
  predicate Encodes(r: seq<int>, v: bool, d: seq<bool>) {
    && r != [] && d != [] && r[|r| - 1] >= 1
    && Expand(r, v) == d
    && d[|d| - 1] == Alt(v, |r| - 1)
  }

  /** Decoding the encoding gives the flips back. */
  lemma {:induction false} ExpandRle(d: seq<bool>, n: nat)
    requires 1 <= n <= |d|
    ensures Encodes(Rle(d, n), d[0], d[..n])
  {
    if n == 1 {
      ExpandOne(1, d[0]);
    } else {
      ExpandRle(d, n - 1);
      EncodesPush(Rle(d, n - 1), d[0], d[..n - 1], d[n - 1], d[..n]);
    }
  }

  lemma EncodesPush(r: seq<int>, v: bool, d: seq<bool>, x: bool, d': seq<bool>)
    requires Encodes(r, v, d) && d' == d + [x]
    ensures Encodes(PushFlip(r, d[|d| - 1], x), v, d')
  {
    ExpandPush(r, v, x);
  }

  /** Encoding the decoding gives the runs back, when every run is at least 1. */
  lemma {:induction false} RleExpand(runs: seq<int>, v: bool)
    requires runs != [] && forall i :: 0 <= i < |runs| ==> runs[i] >= 1
    ensures Expand(runs, v) != [] && Rle(Expand(runs, v), |Expand(runs, v)|) == runs
    decreases |runs|, runs[|runs| - 1]
  {
    var k := |runs| - 1;
    if runs == [1] {
      ExpandOne(1, v);
    } else {
      var less := PopFlip(runs);
      RleExpand(less, v);
      RleExpandPush(less, v, Alt(v, k));
      PushPop(runs, v);
    }
  }

  /** The run lengths with the last decision taken away. */
  function PopFlip(runs: seq<int>): (less: seq<int>)
    requires runs != [] && runs != [1] && forall i :: 0 <= i < |runs| ==> runs[i] >= 1
    ensures less != [] && forall i :: 0 <= i < |less| ==> less[i] >= 1
  {
    var k := |runs| - 1;
    if runs[k] > 1 then runs[k := runs[k] - 1]
    else
      assert k == 0 ==> runs == [1];
      runs[..k]
  }

  lemma PushPop(runs: seq<int>, v: bool)
    requires runs != [] && runs != [1] && forall i :: 0 <= i < |runs| ==> runs[i] >= 1
    ensures PushFlip(PopFlip(runs), Alt(v, |PopFlip(runs)| - 1), Alt(v, |runs| - 1)) == runs
  {
    var k := |runs| - 1;
    if runs[k] == 1 {
      AltStep(v, |PopFlip(runs)| - 1);
      assert runs == runs[..k] + [1];
    }
  }

  lemma RleExpandPush(r: seq<int>, v: bool, x: bool)
    requires r != [] && r[|r| - 1] >= 1
    requires Expand(r, v) != [] && Rle(Expand(r, v), |Expand(r, v)|) == r
    ensures var r' := PushFlip(r, Alt(v, |r| - 1), x);
      Expand(r', v) != [] && Rle(Expand(r', v), |Expand(r', v)|) == r'
  {
    var e := Expand(r, v);
    var r' := PushFlip(r, Alt(v, |r| - 1), x);
    assert e[|e| - 1] == Alt(v, |r| - 1) by { ExpandEnds(r, v); }
    ExpandPush(r, v, x);
    RleSnoc(e, x, Expand(r', v));
  }

  lemma ExpandEnds(r: seq<int>, v: bool)
    requires r != []
    ensures var e := Expand(r, v);
      e != [] && e[|e| - 1] == Alt(v, |r| - 1)
  {
    var k := |r| - 1;
    assert r == r[..k] + [r[k]];
    ExpandSnoc(r[..k], r[k], v);
  }

  lemma {:induction false} RleAgree(d: seq<bool>, e: seq<bool>, n: nat)
    requires 1 <= n <= |d| && n <= |e| && forall i :: 0 <= i < n ==> d[i] == e[i]
    ensures Rle(d, n) == Rle(e, n)
  {
    if n > 1 {
      RleAgree(d, e, n - 1);
    }
  }

  lemma RleSnoc(e: seq<bool>, x: bool, e': seq<bool>)
    requires e != [] && e' == e + [x]
    ensures Rle(e', |e'|) == PushFlip(Rle(e, |e|), e[|e| - 1], x)
  {
    RleAgree(e, e', |e|);
  }

  /** The flips that an IF consumes, at most n: up to and including the one that starts run MAXBRINGS. */
  function StopBy(d: seq<bool>, n: nat): (m: nat)
    requires 1 <= n <= |d| && |Rle(d, n)| > MAXBRINGS
    ensures 1 < m <= n && |Rle(d, m)| == MAXBRINGS + 1 && |Rle(d, m - 1)| == MAXBRINGS
  {
    if |Rle(d, n - 1)| > MAXBRINGS then StopBy(d, n - 1) else n
  }

  function Stop(d: seq<bool>): (m: nat)
    requires d != [] && |Rle(d, |d|)| > MAXBRINGS
    ensures 1 < m <= |d| && |Rle(d, m)| == MAXBRINGS + 1 && |Rle(d, m - 1)| == MAXBRINGS
  {
    StopBy(d, |d|)
  }

  /** What initialisation needs of its random numbers. */
  predicate Ready(b: Branch, d: Draws) {
    match b.btype
    case GOTO => true
    case IF => d.flips != [] && |Rle(d.flips, |d.flips|)| > MAXBRINGS
    case _ => b.max > b.min ==> |d.ints| >= MAXBRINGS / 2
  }

  /** The k-th entry of a loop's table: drawn lap lengths alternate with single escapes. */
  function LoopRun(b: Branch, d: Draws, k: nat): int
    requires Ready(b, d) && (b.btype == FOR || b.btype == NFOR) && k < MAXBRINGS
  {
    if k % 2 == 1 then 1
    else if b.max > b.min then d.ints[k / 2] % (b.max - b.min) + b.min
    else b.min
  }

  function Cleared(): Bcontext {
    Bcontext(0, 1, true, 0, [1] + seq(MAXBRINGS, _ => 0))
  }

  /** Initialisation as the engine does it, on whatever the context held before. */
  function Initialised(c: Bcontext, b: Branch, d: Draws): (r: Bcontext)
    requires |c.brings| == MAXBRINGS + 1 && Ready(b, d)
    ensures ValidContext(r) && r.bcount == 0 && r.boffset == 0
  {
    match b.btype
    case GOTO => Bcontext(0, 1, true, 0, [0x7fffffff] + seq(MAXBRINGS - 1, _ => 0) + [c.brings[MAXBRINGS]])
    case IF =>
      var runs := Rle(d.flips, Stop(d.flips));
      Bcontext(0, MAXBRINGS, d.flips[0], 0, Restarted(runs, c.brings[0]))
    case _ =>
      Bcontext(0, MAXBRINGS, b.btype == FOR, 0,
               seq(MAXBRINGS, k requires 0 <= k < MAXBRINGS => LoopRun(b, d, k)) + [c.brings[MAXBRINGS]])
  }

  /** The stored runs of an IF decode to its flips up to the one that overflowed the table. */
  lemma IfTableDecodes(b: Branch, d: Draws)
    requires b.btype == IF && Ready(b, d)
    ensures var c := Initialised(Cleared(), b, d);
      c.bvalue == d.flips[0] && Expand(c.brings[..c.bsize], c.bvalue) == d.flips[..Stop(d.flips) - 1]
  {
    var n := Stop(d.flips) - 1;
    var runs := Rle(d.flips, n);
    assert Rle(d.flips, n + 1) == runs + [1];
    assert (runs + [1])[..MAXBRINGS] == runs;
    assert Restarted(runs + [1], 1) == runs + [1];
    ExpandRle(d.flips, n);
  }

  /**
   On a cleared context an IF replays its flips, round and round: the period is the number of flips
   consumed less the one that starts a run the table has no room for.
   */
  lemma IfReplaysItsDraws(b: Branch, d: Draws, n: nat)
    requires b.btype == IF && Ready(b, d)
    ensures Nth(Initialised(Cleared(), b, d), n) == d.flips[n % (Stop(d.flips) - 1)]
  {
    IfTableDecodes(b, d);
    DecisionsDecodeRuns(Initialised(Cleared(), b, d), n);
  }

  /** Laps of a loop: lap lengths as runs of "again", each closed by one escape. */
  function Laps(lens: seq<nat>, again: bool): seq<bool> {
    if lens == [] then [] else Rep(again, lens[0]) + [!again] + Laps(lens[1..], again)
  }

  /** Entries 2i and 2i + 1 of a loop's table are lap i and its escape. */
  predicate LapAt(runs: seq<int>, lens: seq<nat>, i: nat)
    requires i < |lens| && |runs| == 2 * |lens|
  {
    Eff(runs[2 * i]) == lens[i] && runs[2 * i + 1] == 1
  }

  lemma {:induction false} LoopTableIsLaps(runs: seq<int>, lens: seq<nat>, again: bool)
    requires |runs| == 2 * |lens| && forall i :: 0 <= i < |lens| ==> LapAt(runs, lens, i)
    ensures Expand(runs, again) == Laps(lens, again)
  {
    if lens != [] {
      assert LapAt(runs, lens, 0);
      var tail := runs[2..];
      forall i | 0 <= i < |lens| - 1 ensures LapAt(tail, lens[1..], i) {
        assert LapAt(runs, lens, i + 1);
      }
      LoopTableIsLaps(tail, lens[1..], again);
      OneMoreLap(runs[0], runs, tail, lens[1..], again);
      assert lens == [lens[0]] + lens[1..];
    }
  }

  lemma OneMoreLap(run: int, runs: seq<int>, tail: seq<int>, lens: seq<nat>, again: bool)
    requires runs == [run, 1] + tail && Expand(tail, again) == Laps(lens, again)
    ensures Expand(runs, again) == Laps([Eff(run)] + lens, again)
  {
    ExpandLap(run, tail, again);
    assert ([Eff(run)] + lens)[1..] == lens;
  }

  lemma ExpandLap(run: int, rest: seq<int>, again: bool)
    ensures Expand([run, 1] + rest, again) == Rep(again, Eff(run)) + [!again] + Expand(rest, again)
  {
    var s := [run, 1] + rest;
    assert s[1..] == [1] + rest && s[1..][1..] == rest;
    assert Rep(!again, 1) == [!again];
    var a, m := Rep(again, Eff(run)), Expand(rest, again);
    assert a + ([!again] + m) == a + [!again] + m;
  }

  /** The first n laps of a loop, one for each draw; a length below 1 still takes one decision. */
  function LapsDrawn(b: Branch, d: Draws, n: nat): (lens: seq<nat>)
    requires (b.btype == FOR || b.btype == NFOR) && Ready(b, d) && n <= MAXBRINGS / 2
    ensures |lens| == n
    ensures forall i :: 0 <= i < n ==>
              lens[i] == Eff(if b.max > b.min then d.ints[i] % (b.max - b.min) + b.min else b.min)
  {
    if n == 0 then []
    else LapsDrawn(b, d, n - 1) + [Eff(if b.max > b.min then d.ints[n - 1] % (b.max - b.min) + b.min else b.min)]
  }

  function DrawnLaps(b: Branch, d: Draws): seq<nat>
    requires (b.btype == FOR || b.btype == NFOR) && Ready(b, d)
  {
    LapsDrawn(b, d, MAXBRINGS / 2)
  }

  lemma DrawnBounds(min: int, max: int, draw: nat)
    ensures var run := if max > min then draw % (max - min) + min else min;
      && Eff(min) <= Eff(run) <= Eff(if max > min then max - 1 else min)
      && (Eff(run) == run <==> run >= 1)
  {
  }

  lemma DrawnLapAt(b: Branch, d: Draws, i: nat)
    requires (b.btype == FOR || b.btype == NFOR) && Ready(b, d) && i < MAXBRINGS / 2
    ensures LapAt(Initialised(Cleared(), b, d).brings[..MAXBRINGS], DrawnLaps(b, d), i)
  {
    var runs := Initialised(Cleared(), b, d).brings[..MAXBRINGS];
    assert runs[2 * i] == LoopRun(b, d, 2 * i) && runs[2 * i + 1] == LoopRun(b, d, 2 * i + 1) == 1;
  }

  /** The decisions of a loop: its drawn laps, round and round. */
  lemma LoopGoesRound(b: Branch, d: Draws, n: nat)
    requires (b.btype == FOR || b.btype == NFOR) && Ready(b, d)
    ensures var laps := Laps(DrawnLaps(b, d), b.btype == FOR);
      |laps| > 0 && Nth(Initialised(Cleared(), b, d), n) == laps[n % |laps|]
  {
    var c := Initialised(Cleared(), b, d);
    var runs := c.brings[..MAXBRINGS];
    forall i | 0 <= i < MAXBRINGS / 2 ensures LapAt(runs, DrawnLaps(b, d), i) {
      DrawnLapAt(b, d, i);
    }
    LoopTableIsLaps(runs, DrawnLaps(b, d), c.bvalue);
    assert runs == c.brings[..c.bsize];
    DecisionsDecodeRuns(c, n);
  }

  /**
   A loop branch repeats MAXBRINGS/2 laps for ever: a FOR takes its branch as often as draw i says for lap i, and then
   falls through once; an NFOR does the opposite. When 1 <= min < max a lap is between min and max-1 long. A lap has
   its drawn length exactly when that is at least 1, and length 1 otherwise.
   */
  lemma LoopsRunWithinBounds(b: Branch, d: Draws) returns (lens: seq<nat>)
    requires (b.btype == FOR || b.btype == NFOR) && Ready(b, d)
    ensures |lens| == MAXBRINGS / 2
    ensures forall i :: 0 <= i < |lens| ==>
              var drawn := if b.max > b.min then d.ints[i] % (b.max - b.min) + b.min else b.min;
              lens[i] == Eff(drawn) && (lens[i] == drawn <==> drawn >= 1)
    ensures forall i :: 0 <= i < |lens| ==> Eff(b.min) <= lens[i] <= Eff(if b.max > b.min then b.max - 1 else b.min)
    ensures var laps := Laps(lens, b.btype == FOR);
      |laps| > 0 && forall n: nat :: Nth(Initialised(Cleared(), b, d), n) == laps[n % |laps|]
  {
    lens := DrawnLaps(b, d);
    forall i | 0 <= i < |lens|
      ensures var drawn := if b.max > b.min then d.ints[i] % (b.max - b.min) + b.min else b.min;
        lens[i] == Eff(drawn) && (lens[i] == drawn <==> drawn >= 1)
      ensures Eff(b.min) <= lens[i] <= Eff(if b.max > b.min then b.max - 1 else b.min)
    {
      DrawnBounds(b.min, b.max, if b.max > b.min then d.ints[i] else 0);
    }
    LoopGoesRound(b, d, 0);
    var laps := Laps(lens, b.btype == FOR);
    forall n: nat ensures Nth(Initialised(Cleared(), b, d), n) == laps[n % |laps|] {
      LoopGoesRound(b, d, n);
    }
  }

  /** A GOTO is not unconditional: it branches 0x7fffffff times, falls through as often, and so on. */
  lemma GotoBranchesExactlyWhen(b: Branch, d: Draws, n: nat)
    requires b.btype == GOTO
    ensures Nth(Initialised(Cleared(), b, d), n) <==> (n / 0x7fffffff) % 2 == 0
  {
    var c := Initialised(Cleared(), b, d);
    DecisionsDecodeRuns(c, n);
    assert c.brings[..1] == [0x7fffffff];
    ExpandSnoc([], 0x7fffffff, true);
    assert [] + [0x7fffffff] == [0x7fffffff];
    assert Expand([], true) == [];
    assert |Expand(c.brings[..1], true)| == 0x7fffffff;
  }

  /** A context that was cleared but never initialised alternates, starting with a branch. */
  lemma ClearedContextAlternates(n: nat)
    ensures Nth(Cleared(), n) <==> n % 2 == 0
  {
    DecisionsDecodeRuns(Cleared(), n);
    assert Cleared().brings[..1] == [1];
    assert Expand([1], true) == Rep(true, 1) + Expand([1][1..], false);
    assert Expand([1][1..], false) == [];
  }

  /** An IF initialised over a context that was not cleared first gets the same table only if brings[0] held 1. */
  lemma IfNeedsClearedContext(c: Bcontext, b: Branch, d: Draws)
    requires |c.brings| == MAXBRINGS + 1 && b.btype == IF && Ready(b, d)
    ensures Initialised(c, b, d) == Initialised(Cleared(), b, d) <==> c.brings[0] == 1
  {
    var runs := Rle(d.flips, Stop(d.flips));
    assert Initialised(c, b, d).brings[0] == c.brings[0] + runs[0] - 1;
    assert Initialised(Cleared(), b, d).brings[0] == runs[0];
  }

  lemma {:induction false} RleGrows(d: seq<bool>, m: nat, n: nat)
    requires 1 <= m <= n <= |d|
    ensures |Rle(d, m)| <= |Rle(d, n)|
    decreases n
  {
    if m < n {
      RleGrows(d, m, n - 1);
    }
  }

  /** Runs whose first was counted on from a stale value. */
  function Restarted(runs: seq<int>, stale: int): seq<int>
    requires runs != []
  {
    runs[0 := stale + runs[0] - 1]
  }

  /** One step of counting flips into runs. */
  predicate Counts(plan: seq<seq<int>>, d: seq<bool>, n: nat)
    requires 1 <= n < |plan| <= |d|
  {
    plan[n - 1] != [] && plan[n] == PushFlip(plan[n - 1], d[n - 1], d[n])
  }

  /** The runs after each flip an IF consumes: only the last one overflows the table. */
  lemma IfPlan(d: seq<bool>) returns (plan: seq<seq<int>>)
    requires d != [] && |Rle(d, |d|)| > MAXBRINGS
    ensures |plan| == Stop(d) && plan[0] == [1] && plan[|plan| - 1] == Rle(d, Stop(d))
    ensures |plan[|plan| - 1]| == MAXBRINGS + 1
    ensures forall n :: 1 <= n < |plan| ==> Counts(plan, d, n)
    ensures forall n :: 0 <= n < |plan| - 1 ==> 1 <= |plan[n]| <= MAXBRINGS
  {
    var stop := Stop(d);
    plan := seq(stop, n requires 0 <= n < stop => Rle(d, n + 1));
    forall n | 0 <= n < stop - 1 ensures 1 <= |plan[n]| <= MAXBRINGS {
      RleGrows(d, n + 1, stop - 1);
    }
    forall n | 1 <= n < stop ensures Counts(plan, d, n) {
      var m := n - 1;
      assert plan[m] == Rle(d, n);
    }
  }
}
