/** The readers-writers program with three semaphores: any number of threads, interleaved statement by statement. */
module ReadersWriters {
  import opened Sums
  import opened RingLog

  datatype Pc =
    // A writer: take semRead, take semWrite, write, give both back.
    | WTakeRead | WTakeWrite | Writing(done: nat) | WGiveWrite | WGiveRead
    // A reader's entry, under semRead and semMutex.
    | RTakeRead | RTakeMutex | RCountUp | RFirst | RTakeWrite | RGiveMutex | RGiveRead
    // ReadFile: strlen, then the copy.
    | Measuring(len: nat) | Copying(size: nat, done: nat)
    // A reader's exit, under semMutex.
    | XTakeMutex | XCountDown | XLast | XGiveWrite | XGiveMutex

  /** text is what a writer writes, over and over; copy is a reader's private buffer. */
  datatype Thread = Thread(pc: Pc, text: string, copy: string)

  /** log and hist are histories: the completed writes, and every character put into the file. */
  datatype Sys = Sys(threads: seq<Thread>, semRead: int, semWrite: int, semMutex: int, count: int,
                     file: File, log: seq<string>, hist: string)

  predicate GoodSys(s: Sys) {
    && GoodFile(s.file)
    && (forall t :: 0 <= t < |s.threads| ==> GoodThread(s.threads[t]))
  }

  predicate GoodThread(th: Thread) {
    && NUL !in th.text
    && (th.pc.Writing? ==> th.pc.done <= |th.text|)
    && (th.pc.Measuring? ==> th.pc.len <= LEN_FILE)
    && (th.pc.Copying? ==> th.pc.done <= th.pc.size <= LEN_FILE)
  }

  // ---- Steps --------------------------------------------------------------

  /** Whether thread t can take its next step: only waiting on a semaphore can block. */
  predicate Enabled(s: Sys, t: nat)
    requires t < |s.threads|
  {
    match s.threads[t].pc
    case WTakeRead => s.semRead > 0
    case RTakeRead => s.semRead > 0
    case WTakeWrite => s.semWrite > 0
    case RTakeWrite => s.semWrite > 0
    case RTakeMutex => s.semMutex > 0
    case XTakeMutex => s.semMutex > 0
    case _ => true
  }

  /** Where thread t goes next. */
  function NextThread(s: Sys, t: nat): (th: Thread)
    requires GoodSys(s) && t < |s.threads|
    ensures GoodThread(th) && th.text == s.threads[t].text
  {
    var th := s.threads[t];
    match th.pc
    case WTakeRead => th.(pc := WTakeWrite)
    case WTakeWrite => th.(pc := Writing(0))
    case Writing(k) => if k < |th.text| then th.(pc := Writing(k + 1)) else th.(pc := WGiveWrite)
    case WGiveWrite => th.(pc := WGiveRead)
    case WGiveRead => th.(pc := WTakeRead)
    case RTakeRead => th.(pc := RTakeMutex)
    case RTakeMutex => th.(pc := RCountUp)
    case RCountUp => th.(pc := RFirst)
    case RFirst => th.(pc := if s.count == 1 then RTakeWrite else RGiveMutex)
    case RTakeWrite => th.(pc := RGiveMutex)
    case RGiveMutex => th.(pc := RGiveRead)
    case RGiveRead => th.(pc := Measuring(0), copy := "")
    case Measuring(n) =>
      if n < LEN_FILE && s.file.buffer[n] != NUL then th.(pc := Measuring(n + 1)) else th.(pc := Copying(n, 0))
    case Copying(n, k) =>
      if k < n then th.(pc := Copying(n, k + 1), copy := th.copy + [s.file.buffer[k]]) else th.(pc := XTakeMutex)
    case XTakeMutex => th.(pc := XCountDown)
    case XCountDown => th.(pc := XLast)
    case XLast => th.(pc := if s.count == 0 then XGiveWrite else XGiveMutex)
    case XGiveWrite => th.(pc := XGiveMutex)
    case XGiveMutex => th.(pc := RTakeRead)
  }

  /** The semaphores after thread t's step: (semRead, semWrite, semMutex). */
  function NextSems(s: Sys, pc: Pc): (int, int, int) {
    match pc
    case WTakeRead => (s.semRead - 1, s.semWrite, s.semMutex)
    case RTakeRead => (s.semRead - 1, s.semWrite, s.semMutex)
    case WGiveRead => (s.semRead + 1, s.semWrite, s.semMutex)
    case RGiveRead => (s.semRead + 1, s.semWrite, s.semMutex)
    case WTakeWrite => (s.semRead, s.semWrite - 1, s.semMutex)
    case RTakeWrite => (s.semRead, s.semWrite - 1, s.semMutex)
    case WGiveWrite => (s.semRead, s.semWrite + 1, s.semMutex)
    case XGiveWrite => (s.semRead, s.semWrite + 1, s.semMutex)
    case RTakeMutex => (s.semRead, s.semWrite, s.semMutex - 1)
    case XTakeMutex => (s.semRead, s.semWrite, s.semMutex - 1)
    case RGiveMutex => (s.semRead, s.semWrite, s.semMutex + 1)
    case XGiveMutex => (s.semRead, s.semWrite, s.semMutex + 1)
    case _ => (s.semRead, s.semWrite, s.semMutex)
  }

  function NextCount(s: Sys, pc: Pc): int {
    if pc == RCountUp then s.count + 1 else if pc == XCountDown then s.count - 1 else s.count
  }

  /** One step of thread t, a statement or one character read or written; a blocked thread stays where it is. */
  function Step(s: Sys, t: nat): (r: Sys)
    requires GoodSys(s) && t < |s.threads|
    ensures GoodSys(r) && |r.threads| == |s.threads|
  {
    if !Enabled(s, t) then s
    else
      var th := s.threads[t];
      var (semRead, semWrite, semMutex) := NextSems(s, th.pc);
      var puts := th.pc.Writing? && th.pc.done < |th.text|;
      var ends := th.pc.Writing? && th.pc.done == |th.text|;
      Sys(s.threads[t := NextThread(s, t)], semRead, semWrite, semMutex, NextCount(s, th.pc),
          if puts then Put(s.file, th.text[th.pc.done]) else s.file,
          if ends then s.log + [th.text] else s.log,
          if puts then s.hist + [th.text[th.pc.done]] else s.hist)
  }

  /** A schedule names existing threads. */
  predicate Schedule(sched: seq<nat>, n: nat) {
    forall i :: 0 <= i < |sched| ==> sched[i] < n
  }

  /** Threads stepping in any order: the schedule names the thread of each step. */
  function Exec(s: Sys, sched: seq<nat>): (r: Sys)
    requires GoodSys(s) && Schedule(sched, |s.threads|)
    ensures GoodSys(r) && |r.threads| == |s.threads|
    decreases |sched|
  {
    if sched == [] then s else Exec(Step(s, sched[0]), sched[1..])
  }

  predicate AtStart(th: Thread) {
    (th.pc == WTakeRead || th.pc == RTakeRead) && NUL !in th.text
  }

  predicate AllAtStart(threads: seq<Thread>) {
    forall t :: 0 <= t < |threads| ==> AtStart(threads[t])
  }

  /** Before any thread has moved. */
  function Begin(threads: seq<Thread>): (s: Sys)
    requires AllAtStart(threads)
    ensures GoodSys(s)
  {
    assert forall t :: 0 <= t < |threads| ==> AtStart(threads[t]) && GoodThread(threads[t]);
    Sys(threads, 1, 1, 1, 0, Blank(), [], "")
  }

  // ---- Who holds what -----------------------------------------------------

  function Bit(b: bool): int { if b then 1 else 0 }

  function HoldsRead(th: Thread): int {
    Bit(th.pc.WTakeWrite? || th.pc.Writing? || th.pc.WGiveWrite? || th.pc.WGiveRead? || th.pc.RTakeMutex?
      || th.pc.RCountUp? || th.pc.RFirst? || th.pc.RTakeWrite? || th.pc.RGiveMutex? || th.pc.RGiveRead?)
  }

  function HoldsMutex(th: Thread): int {
    Bit(th.pc.RCountUp? || th.pc.RFirst? || th.pc.RTakeWrite? || th.pc.RGiveMutex?
      || th.pc.XCountDown? || th.pc.XLast? || th.pc.XGiveWrite? || th.pc.XGiveMutex?)
  }

  /** Writers between taking and giving back semWrite. */
  function HoldsWrite(th: Thread): int {
    Bit(th.pc.Writing? || th.pc.WGiveWrite?)
  }

  /** Readers that are in the count. */
  function Counted(th: Thread): int {
    Bit(th.pc.RFirst? || th.pc.RTakeWrite? || th.pc.RGiveMutex? || th.pc.RGiveRead?
      || th.pc.Measuring? || th.pc.Copying? || th.pc.XTakeMutex? || th.pc.XCountDown?)
  }

  /** Counted readers that have not yet seen to semWrite. */
  function Entering(th: Thread): int {
    Bit(th.pc.RFirst? || th.pc.RTakeWrite?)
  }

  /** Readers out of the count that may still have to give semWrite back. */
  function Leaving(th: Thread): int {
    Bit(th.pc.XLast? || th.pc.XGiveWrite?)
  }

  /** Readers that rely on the group holding semWrite. */
  function Inside(th: Thread): int {
    Counted(th) - Entering(th) + Leaving(th)
  }

  // ---- The invariant ------------------------------------------------------

  /** The semaphores and the count, in terms of the program counters. */
  predicate Locks(s: Sys) {
    && 0 <= s.semRead && s.semRead + Sum(HoldsRead, s.threads) == 1
    && 0 <= s.semMutex && s.semMutex + Sum(HoldsMutex, s.threads) == 1
    && s.count == Sum(Counted, s.threads)
    && 0 <= s.semWrite && s.semWrite + Sum(HoldsWrite, s.threads) + Bit(Sum(Inside, s.threads) > 0) == 1
    && (forall t :: 0 <= t < |s.threads| ==> CountFits(s, s.threads[t]))
  }

  /** What a reader at a test's outcome knows of the count. */
  predicate CountFits(s: Sys, th: Thread) {
    (th.pc.RTakeWrite? ==> s.count == 1) && (th.pc.XGiveWrite? ==> s.count == 0)
  }

  /** A mutex holder is alone, so the readers inside differ from the count only by itself. */
  lemma {:induction false} CountAndInside(ts: seq<Thread>)
    ensures Sum(Inside, ts) == Sum(Counted, ts) - Sum(Entering, ts) + Sum(Leaving, ts)
    ensures 0 <= Sum(Entering, ts) && 0 <= Sum(Leaving, ts) && 0 <= Sum(Counted, ts) && 0 <= Sum(HoldsWrite, ts)
    ensures Sum(Entering, ts) + Sum(Leaving, ts) <= Sum(HoldsMutex, ts)
    ensures Sum(HoldsWrite, ts) <= Sum(HoldsRead, ts)
    ensures 0 <= Sum(Inside, ts)
  {
    if ts != [] {
      CountAndInside(ts[1..]);
    }
  }

  /** With thread t taken out, what the others hold. */
  lemma Others(ts: seq<Thread>, t: nat)
    requires t < |ts|
    ensures Sum(Entering, ts) - Entering(ts[t]) + Sum(Leaving, ts) - Leaving(ts[t])
            <= Sum(HoldsMutex, ts) - HoldsMutex(ts[t])
    ensures 0 <= Sum(Entering, ts) - Entering(ts[t]) && 0 <= Sum(Leaving, ts) - Leaving(ts[t])
    ensures 0 <= Sum(HoldsWrite, ts) - HoldsWrite(ts[t]) <= Sum(HoldsRead, ts) - HoldsRead(ts[t])
    ensures 0 <= Sum(Inside, ts) - Inside(ts[t]) && 0 <= Sum(Counted, ts) - Counted(ts[t])
    ensures Sum(Inside, ts) == Sum(Counted, ts) - Sum(Entering, ts) + Sum(Leaving, ts)
  {
    var a, b := ts[..t], ts[t + 1..];
    assert ts == a + ([ts[t]] + b);
    SumWithout(Entering, ts, a, ts[t], b);
    SumWithout(Leaving, ts, a, ts[t], b);
    SumWithout(HoldsMutex, ts, a, ts[t], b);
    SumWithout(HoldsWrite, ts, a, ts[t], b);
    SumWithout(HoldsRead, ts, a, ts[t], b);
    SumWithout(Inside, ts, a, ts[t], b);
    SumWithout(Counted, ts, a, ts[t], b);
    CountAndInside(a + b);
    CountAndInside(ts);
  }

  /** The mutex excludes: two threads never hold it. */
  lemma MutexAlone(ts: seq<Thread>, t: nat, u: nat)
    requires t < |ts| && u < |ts| && t != u && Sum(HoldsMutex, ts) <= 1 && HoldsMutex(ts[t]) == 1
    ensures HoldsMutex(ts[u]) == 0
  {
    if t < u { SumAtLeastTwo(HoldsMutex, ts, t, u); } else { SumAtLeastTwo(HoldsMutex, ts, u, t); }
  }

  /** Only a mutex holder changes the count, so the others' knowledge of it stays true. */
  lemma StepFits(s: Sys, t: nat, u: nat)
    requires GoodSys(s) && t < |s.threads| && u < |s.threads| && Locks(s) && Enabled(s, t)
    ensures CountFits(Step(s, t), Step(s, t).threads[u])
  {
    assert CountFits(s, s.threads[u]);
    if u != t && HoldsMutex(s.threads[t]) == 1 {
      MutexAlone(s.threads, t, u);
    }
  }

  lemma StepSimpleLocks(s: Sys, t: nat)
    requires GoodSys(s) && t < |s.threads| && Locks(s) && Enabled(s, t)
    ensures var r := Step(s, t);
      && 0 <= r.semRead && r.semRead + Sum(HoldsRead, r.threads) == 1
      && 0 <= r.semMutex && r.semMutex + Sum(HoldsMutex, r.threads) == 1
      && r.count == Sum(Counted, r.threads)
  {
    var th := NextThread(s, t);
    SumUpdate(HoldsRead, s.threads, t, th);
    SumUpdate(HoldsMutex, s.threads, t, th);
    SumUpdate(Counted, s.threads, t, th);
  }

  lemma StepWriteLock(s: Sys, t: nat)
    requires GoodSys(s) && t < |s.threads| && Locks(s) && Enabled(s, t)
    ensures var r := Step(s, t);
      0 <= r.semWrite && r.semWrite + Sum(HoldsWrite, r.threads) + Bit(Sum(Inside, r.threads) > 0) == 1
  {
    var th := NextThread(s, t);
    SumUpdate(HoldsWrite, s.threads, t, th);
    SumUpdate(Inside, s.threads, t, th);
    Others(s.threads, t);
    assert CountFits(s, s.threads[t]);
  }

  lemma StepLocks(s: Sys, t: nat)
    requires GoodSys(s) && t < |s.threads| && Locks(s)
    ensures Locks(Step(s, t))
  {
    if Enabled(s, t) {
      forall u | 0 <= u < |s.threads| ensures CountFits(Step(s, t), Step(s, t).threads[u]) {
        StepFits(s, t, u);
      }
      StepSimpleLocks(s, t);
      StepWriteLock(s, t);
    }
  }

  lemma {:induction false} ExecLocks(s: Sys, sched: seq<nat>)
    requires GoodSys(s) && Locks(s) && Schedule(sched, |s.threads|)
    ensures Locks(Exec(s, sched))
    decreases |sched|
  {
    if sched != [] {
      StepLocks(s, sched[0]);
      ExecLocks(Step(s, sched[0]), sched[1..]);
    }
  }

  lemma {:induction false} NobodyHolds(ts: seq<Thread>)
    requires AllAtStart(ts)
    ensures Sum(HoldsRead, ts) == 0 && Sum(HoldsMutex, ts) == 0 && Sum(HoldsWrite, ts) == 0
    ensures Sum(Counted, ts) == 0 && Sum(Inside, ts) == 0
  {
    if ts != [] {
      assert AtStart(ts[0]);
      NobodyHolds(ts[1..]);
    }
  }

  lemma BeginLocks(threads: seq<Thread>)
    requires AllAtStart(threads)
    ensures Locks(Begin(threads))
  {
    NobodyHolds(threads);
    forall t | 0 <= t < |threads| ensures CountFits(Begin(threads), threads[t]) {
      assert AtStart(threads[t]);
    }
  }

  // ---- Exclusion and progress ---------------------------------------------

  predicate InWriteFile(th: Thread) { th.pc.Writing? }
  predicate InReadFile(th: Thread) { th.pc.Measuring? || th.pc.Copying? }

  lemma Excluded(s: Sys, t: nat, u: nat)
    requires Locks(s) && t < |s.threads| && u < |s.threads| && t != u && InWriteFile(s.threads[t])
    ensures !InWriteFile(s.threads[u]) && !InReadFile(s.threads[u])
  {
    if InWriteFile(s.threads[u]) {
      if t < u {
        SumAtLeastTwo(HoldsWrite, s.threads, t, u);
      } else {
        SumAtLeastTwo(HoldsWrite, s.threads, u, t);
      }
    }
    SumAtLeast(HoldsWrite, s.threads, t);
    SumAtLeast(Inside, s.threads, u);
  }

  /** Exclusion, for any threads and any schedule: a thread in WriteFile is alone in the file. */
  lemma ReadersWritersExclude(threads: seq<Thread>, sched: seq<nat>, t: nat, u: nat)
    requires AllAtStart(threads)
    requires Schedule(sched, |threads|)
    requires t < |threads| && u < |threads| && t != u
    ensures var s := Exec(Begin(threads), sched);
      InWriteFile(s.threads[t]) ==> !InWriteFile(s.threads[u]) && !InReadFile(s.threads[u])
  {
    BeginLocks(threads);
    ExecLocks(Begin(threads), sched);
    var s := Exec(Begin(threads), sched);
    if InWriteFile(s.threads[t]) {
      Excluded(s, t, u);
    }
  }

  /** A reader that goes to take semWrite, holding the other two, never has to wait for it. */
  lemma FirstReaderNeverBlocks(s: Sys, t: nat)
    requires Locks(s) && t < |s.threads| && s.threads[t].pc.RTakeWrite?
    ensures s.semWrite == 1 && Enabled(s, t)
  {
    assert CountFits(s, s.threads[t]);
    Others(s.threads, t);
  }

  /** A thread that can move, found by asking who holds what the others wait for. */
  lemma SomeoneCanMove(s: Sys) returns (t: nat)
    requires GoodSys(s) && Locks(s) && s.threads != []
    ensures t < |s.threads| && Enabled(s, t)
  {
    if s.semMutex == 0 {
      t := SumPositive(HoldsMutex, s.threads);
      if s.threads[t].pc.RTakeWrite? { FirstReaderNeverBlocks(s, t); }
    } else if Sum(Inside, s.threads) > 0 {
      t := SumPositive(Inside, s.threads);
    } else if Sum(HoldsRead, s.threads) > 0 {
      t := SumPositive(HoldsRead, s.threads);
      if s.threads[t].pc.RTakeWrite? { FirstReaderNeverBlocks(s, t); }
      if s.threads[t].pc.WTakeWrite? { Others(s.threads, t); }
    } else {
      t := 0;
      if s.threads[0].pc.WTakeWrite? || s.threads[0].pc.RTakeWrite? {
        WeightsOfRead(s.threads);
        SumAtLeast(HoldsRead, s.threads, 0);
      }
    }
  }

  lemma WeightsOfRead(ts: seq<Thread>)
    ensures forall t :: 0 <= t < |ts| ==> 0 <= HoldsRead(ts[t]) <= 1
  {
  }

  /** A thread at one of the six waits, for a semaphore that is taken. */
  predicate Waits(s: Sys, t: nat)
    requires t < |s.threads|
  {
    var pc := s.threads[t].pc;
    || ((pc == WTakeRead || pc == RTakeRead) && s.semRead == 0)
    || ((pc == WTakeWrite || pc == RTakeWrite) && s.semWrite == 0)
    || ((pc == RTakeMutex || pc == XTakeMutex) && s.semMutex == 0)
  }

  lemma StepMoves(s: Sys, t: nat)
    requires GoodSys(s) && Locks(s) && t < |s.threads|
    ensures Step(s, t) == s <==> Waits(s, t)
    ensures Step(s, t) != s ==> Step(s, t).threads[t].pc != s.threads[t].pc
  {
    if !Waits(s, t) {
      var th := NextThread(s, t);
      assert Enabled(s, t) && th.pc != s.threads[t].pc;
      assert Step(s, t).threads[t] == th;
    }
  }

  /**
   On every schedule, a thread's step leaves everything as it is if and only if the thread waits for a semaphore that is
   taken; any other step moves its program counter, and nobody else's.
   */
  lemma BlocksExactly(threads: seq<Thread>, sched: seq<nat>, t: nat)
    requires AllAtStart(threads) && Schedule(sched, |threads|) && t < |threads|
    ensures var s := Exec(Begin(threads), sched);
      && (Step(s, t) == s <==> Waits(s, t))
      && (Step(s, t) != s ==> Step(s, t).threads[t].pc != s.threads[t].pc)
      && forall u :: 0 <= u < |threads| && u != t ==> Step(s, t).threads[u] == s.threads[u]
  {
    BeginLocks(threads);
    ExecLocks(Begin(threads), sched);
    StepMoves(Exec(Begin(threads), sched), t);
  }

  /** The program never deadlocks: on every schedule the step of some thread always does something. */
  lemma NeverDeadlocks(threads: seq<Thread>, sched: seq<nat>) returns (t: nat)
    requires threads != [] && AllAtStart(threads)
    requires Schedule(sched, |threads|)
    ensures var s := Exec(Begin(threads), sched);
      t < |threads| && Enabled(s, t) && !Waits(s, t) && Step(s, t) != s
  {
    BeginLocks(threads);
    ExecLocks(Begin(threads), sched);
    t := SomeoneCanMove(Exec(Begin(threads), sched));
    StepMoves(Exec(Begin(threads), sched), t);
  }
}
