/** Readers do not exclude each other: any of them can be in the file together. */
module Meeting {
  import opened ReadersWriters
  import opened Passing

  /** In ReadFile. */
  predicate InFile(th: Thread) {
    th.pc.Measuring? || th.pc.Copying?
  }

  /** A reader that has just come into ReadFile. */
  function Entered(th: Thread): Thread {
    th.(pc := Measuring(0), copy := "")
  }

  /** Of these threads, all at their start, just the readers in met have moved, and are in ReadFile. */
  predicate Met(s: Sys, threads: seq<Thread>, met: set<nat>) {
    && GoodSys(s) && |s.threads| == |threads|
    && (forall t :: 0 <= t < |threads| ==> s.threads[t] == if t in met then Entered(threads[t]) else threads[t])
    && s.semRead == 1 && s.semMutex == 1 && s.semWrite == (if met == {} then 1 else 0) && s.count == |met|
  }

  /** On the way in: u has moved on to pc, and the rest is as in ts. */
  predicate Enters(s: Sys, ts: seq<Thread>, u: nat, pc: Pc, semRead: int, semWrite: int, semMutex: int, count: int)
    requires u < |ts|
  {
    && GoodSys(s) && s.threads == ts[u := ts[u].(pc := pc)]
    && s.semRead == semRead && s.semWrite == semWrite && s.semMutex == semMutex && s.count == count
  }

  /** Up to the test whether it is the first. */
  lemma CountsItself(s: Sys, u: nat, w: int, n: int) returns (r: Sys)
    requires GoodSys(s) && u < |s.threads| && s.threads[u].pc == RTakeRead
    requires s.semRead == 1 && s.semMutex == 1 && s.semWrite == w && s.count == n
    ensures r == Alone(s, u, 3) && Enters(r, s.threads, u, RFirst, 0, w, 0, n + 1)
  {
    var ts := s.threads;
    var s1 := Step(s, u);
    assert Enters(s1, ts, u, RTakeMutex, 0, w, 1, n);
    var s2 := Step(s1, u);
    assert Enters(s2, ts, u, RCountUp, 0, w, 0, n);
    r := Step(s2, u);
    AloneOne(s, u, 0);
    AloneOne(s, u, 1);
    AloneOne(s, u, 2);
  }

  lemma AloneOne(s: Sys, u: nat, k: nat)
    requires GoodSys(s) && u < |s.threads|
    ensures Alone(s, u, 0) == s && Alone(s, u, k + 1) == Step(Alone(s, u, k), u)
  {
  }

  /** Through the door: u is in ReadFile, and the rest is as in ts. */
  predicate Inside(s: Sys, ts: seq<Thread>, u: nat, count: int)
    requires u < |ts|
  {
    && GoodSys(s) && s.threads == ts[u := Entered(ts[u])]
    && s.semRead == 1 && s.semMutex == 1 && s.semWrite == 0 && s.count == count
  }

  /** From giving back the mutex on. */
  lemma GivesBack(s: Sys, ts: seq<Thread>, u: nat, n: int)
    requires u < |ts| && Enters(s, ts, u, RGiveMutex, 0, 0, 0, n)
    ensures Inside(Alone(s, u, 2), ts, u, n)
  {
    var s1 := Step(s, u);
    assert Enters(s1, ts, u, RGiveRead, 0, 0, 1, n);
    AloneOne(s, u, 0);
    AloneOne(s, u, 1);
    assert Inside(Step(s1, u), ts, u, n);
  }

  /** The first reader takes semWrite for all. */
  lemma FirstPasses(s: Sys, ts: seq<Thread>, u: nat)
    requires u < |ts| && Enters(s, ts, u, RFirst, 0, 1, 0, 1)
    ensures Inside(Alone(s, u, 4), ts, u, 1)
  {
    var s1 := Step(s, u);
    assert Enters(s1, ts, u, RTakeWrite, 0, 1, 0, 1);
    var s2 := Step(s1, u);
    assert Enters(s2, ts, u, RGiveMutex, 0, 0, 0, 1);
    AloneOne(s, u, 0);
    AloneOne(s, u, 1);
    GivesBack(s2, ts, u, 1);
    AloneAfter(s, u, 2, 2);
  }

  /** The others go straight on. */
  lemma OtherPasses(s: Sys, ts: seq<Thread>, u: nat, n: int)
    requires u < |ts| && Enters(s, ts, u, RFirst, 0, 0, 0, n) && n > 1
    ensures Inside(Alone(s, u, 3), ts, u, n)
  {
    var s1 := Step(s, u);
    assert Enters(s1, ts, u, RGiveMutex, 0, 0, 0, n);
    AloneOne(s, u, 0);
    GivesBack(s1, ts, u, n);
    AloneAfter(s, u, 1, 2);
  }

  /** One more reader comes in. */
  lemma ComesIn(s: Sys, u: nat, n: nat) returns (k: nat)
    requires GoodSys(s) && u < |s.threads| && s.threads[u].pc == RTakeRead
    requires s.semRead == 1 && s.semMutex == 1 && s.count == n && s.semWrite == if n == 0 then 1 else 0
    ensures Inside(Alone(s, u, k), s.threads, u, n + 1)
  {
    var first := CountsItself(s, u, s.semWrite, n);
    if n == 0 {
      FirstPasses(first, s.threads, u);
      AloneAfter(s, u, 3, 4);
      k := 7;
    } else {
      OtherPasses(first, s.threads, u, n + 1);
      AloneAfter(s, u, 3, 3);
      k := 6;
    }
  }

  lemma OneMoreMet(s: Sys, r: Sys, threads: seq<Thread>, met: set<nat>, u: nat)
    requires Met(s, threads, met) && u < |threads| && u !in met && Inside(r, s.threads, u, |met| + 1)
    ensures Met(r, threads, met + {u})
  {
  }

  /** The readers that one more joins. */
  lemma JoinsMet(threads: seq<Thread>, sched: seq<nat>, met: set<nat>, u: nat) returns (more: seq<nat>)
    requires AllAtStart(threads) && u < |threads| && threads[u].pc == RTakeRead && u !in met
    requires Schedule(sched, |threads|) && Met(Exec(Begin(threads), sched), threads, met)
    ensures Schedule(more, |threads|) && Met(Exec(Begin(threads), more), threads, met + {u})
  {
    var s := Exec(Begin(threads), sched);
    var k := ComesIn(s, u, |met|);
    more := ExecAlone(Begin(threads), sched, u, k);
    OneMoreMet(s, Alone(s, u, k), threads, met, u);
  }

  /** All of these are readers among the threads. */
  predicate Readers(threads: seq<Thread>, readers: set<nat>) {
    forall t :: t in readers ==> t < |threads| && threads[t].pc == RTakeRead
  }

  lemma {:induction false} ComeInOneByOne(threads: seq<Thread>, readers: set<nat>) returns (sched: seq<nat>)
    requires AllAtStart(threads) && Readers(threads, readers)
    ensures Schedule(sched, |threads|) && Met(Exec(Begin(threads), sched), threads, readers)
    decreases readers
  {
    if readers == {} {
      sched := [];
    } else {
      var u :| u in readers;
      var others := readers - {u};
      assert others + {u} == readers;
      var before := ComeInOneByOne(threads, others);
      sched := JoinsMet(threads, before, others, u);
    }
  }

  /**
   From the start of any threads, and for any readers among them, some schedule brings those readers into ReadFile, all
   at the same time, with the count at their number and everybody else still at the start.
   */
  lemma ReadersMeet(threads: seq<Thread>, readers: set<nat>) returns (sched: seq<nat>)
    requires AllAtStart(threads) && Readers(threads, readers)
    ensures Schedule(sched, |threads|)
    ensures var s := Exec(Begin(threads), sched);
      && s.count == |readers| && |s.threads| == |threads|
      && (forall t :: t in readers ==> InFile(s.threads[t]))
      && forall t :: 0 <= t < |threads| && t !in readers ==> s.threads[t] == threads[t]
  {
    sched := ComeInOneByOne(threads, readers);
  }
}
