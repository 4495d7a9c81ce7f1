/** How long a writer that has semRead waits for semWrite. */
module WriterWait {
  import opened Sums
  import opened RingLog
  import opened ReadersWriters

  /** Steps that a reader in or past ReadFile still has to take before it is out. */
  function Drain(th: Thread): int {
    match th.pc
    case Measuring(n) => 2 * LEN_FILE + 7 - n
    case Copying(n, k) => n - k + 6
    case XTakeMutex => 5
    case XCountDown => 4
    case XLast => 3
    case XGiveWrite => 2
    case XGiveMutex => 1
    case _ => 0
  }

  predicate Waiting(s: Sys, w: nat) {
    w < |s.threads| && s.threads[w].pc.WTakeWrite?
  }

  lemma DrainBounds(s: Sys)
    requires GoodSys(s)
    ensures 0 <= Sum(Drain, s.threads) <= (2 * LEN_FILE + 7) * |s.threads|
  {
    forall t | 0 <= t < |s.threads| ensures 0 <= Drain(s.threads[t]) <= 2 * LEN_FILE + 7 {
      assert GoodThread(s.threads[t]);
    }
    SumBounds(Drain, s.threads, 0, 2 * LEN_FILE + 7);
  }

  /** While a writer has semRead nobody else does: no reader is on its way in. */
  lemma NobodyEnters(s: Sys, w: nat, t: nat)
    requires Locks(s) && Waiting(s, w) && t < |s.threads| && t != w
    ensures HoldsRead(s.threads[t]) == 0 && s.semRead == 0
  {
    WeightsOfRead(s.threads);
    if t < w { SumAtLeastTwo(HoldsRead, s.threads, t, w); } else { SumAtLeastTwo(HoldsRead, s.threads, w, t); }
  }

  /** So any other thread's step takes a reader closer to the exit. */
  lemma OthersDrain(s: Sys, w: nat, t: nat)
    requires GoodSys(s) && Locks(s) && Waiting(s, w) && t < |s.threads| && t != w && Enabled(s, t)
    ensures Waiting(Step(s, t), w) && Sum(Drain, Step(s, t).threads) < Sum(Drain, s.threads)
  {
    NobodyEnters(s, w, t);
    assert GoodThread(s.threads[t]);
    SumUpdate(Drain, s.threads, t, NextThread(s, t));
  }

  /** Every step of the schedule is one that its thread could take, and none is w's. */
  predicate Moves(s: Sys, w: nat, sched: seq<nat>)
    requires GoodSys(s) && Schedule(sched, |s.threads|)
    decreases |sched|
  {
    sched == [] || (sched[0] != w && Enabled(s, sched[0]) && Moves(Step(s, sched[0]), w, sched[1..]))
  }

  /**
   Bounded wait: however the other threads are scheduled, while a writer waits for semWrite they can take at most
   as many steps as the readers inside still need, and no reader enters meanwhile.
   */
  lemma {:induction false} WriterWaitIsBounded(s: Sys, w: nat, sched: seq<nat>)
    requires GoodSys(s) && Locks(s) && Waiting(s, w) && Schedule(sched, |s.threads|) && Moves(s, w, sched)
    ensures var r := Exec(s, sched);
      && Waiting(r, w)
      && |sched| + Sum(Drain, r.threads) <= Sum(Drain, s.threads) <= (2 * LEN_FILE + 7) * |s.threads|
      && 0 <= Sum(Drain, r.threads)
      && forall t :: 0 <= t < |r.threads| && t != w ==> HoldsRead(r.threads[t]) == 0
    decreases |sched|
  {
    DrainBounds(s);
    if sched == [] {
      forall t | 0 <= t < |s.threads| && t != w ensures HoldsRead(s.threads[t]) == 0 {
        NobodyEnters(s, w, t);
      }
    } else {
      OthersDrain(s, w, sched[0]);
      StepLocks(s, sched[0]);
      WriterWaitIsBounded(Step(s, sched[0]), w, sched[1..]);
    }
  }

  /** Until the writer can go on, some reader inside can; once they have drained, the writer can. */
  lemma WaitMakesProgress(s: Sys, w: nat) returns (t: nat)
    requires GoodSys(s) && Locks(s) && Waiting(s, w)
    ensures Sum(Drain, s.threads) == 0 ==> Enabled(s, w)
    ensures t < |s.threads| && Enabled(s, t) && (!Enabled(s, w) ==> t != w && Drain(s.threads[t]) > 0)
  {
    t := SomeoneCanMove(s);
    if !Enabled(s, w) {
      NobodyEnters(s, w, t);
      assert GoodThread(s.threads[t]);
      forall u | 0 <= u < |s.threads| ensures 0 <= Drain(s.threads[u]) {
        assert GoodThread(s.threads[u]);
      }
      SumAtLeast(Drain, s.threads, t);
    }
  }
}
