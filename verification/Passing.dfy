/** A thread that waits for semRead can be passed: the semaphore goes to whoever steps next. */
module Passing {
  import opened ReadersWriters

  predicate IsWriter(th: Thread) {
    th.pc.WTakeRead? || th.pc.WTakeWrite? || th.pc.Writing? || th.pc.WGiveWrite? || th.pc.WGiveRead?
  }

  /** Thread u takes k steps in a row. */
  function Alone(s: Sys, u: nat, k: nat): (r: Sys)
    requires GoodSys(s) && u < |s.threads|
    ensures GoodSys(r) && |r.threads| == |s.threads|
  {
    if k == 0 then s else Step(Alone(s, u, k - 1), u)
  }

  lemma {:induction false} ExecSnoc(s: Sys, sched: seq<nat>, t: nat)
    requires GoodSys(s) && Schedule(sched, |s.threads|) && t < |s.threads|
    ensures Schedule(sched + [t], |s.threads|) && Exec(s, sched + [t]) == Step(Exec(s, sched), t)
    decreases |sched|
  {
    if sched == [] {
      assert [] + [t] == [t];
      assert Exec(s, [t]) == Exec(Step(s, t), [t][1..]);
    } else {
      assert (sched + [t])[1..] == sched[1..] + [t];
      ExecSnoc(Step(s, sched[0]), sched[1..], t);
    }
  }

  /** A schedule can be continued with any number of steps of one thread. */
  lemma {:induction false} ExecAlone(s: Sys, sched: seq<nat>, u: nat, k: nat) returns (more: seq<nat>)
    requires GoodSys(s) && Schedule(sched, |s.threads|) && u < |s.threads|
    ensures Schedule(more, |s.threads|) && Exec(s, more) == Alone(Exec(s, sched), u, k)
    ensures forall t :: t in more ==> t in sched || t == u
  {
    if k == 0 {
      more := sched;
    } else {
      var before := ExecAlone(s, sched, u, k - 1);
      ExecSnoc(s, before, u);
      more := before + [u];
    }
  }

  // ---- One round of a writer -----------------------------------------------------

  /** Everybody is where they were at first, and every semaphore is free. */
  predicate Quiet(s: Sys, threads: seq<Thread>) {
    GoodSys(s) && s.threads == threads && s.semRead == 1 && s.semWrite == 1
  }

  /** In the middle of a round: u alone has moved. */
  predicate Busy(s: Sys, threads: seq<Thread>, u: nat, pc: Pc, semRead: int, semWrite: int)
    requires u < |threads|
  {
    && GoodSys(s) && s.threads == threads[u := threads[u].(pc := pc)]
    && s.semRead == semRead && s.semWrite == semWrite
  }

  lemma WritesOne(s: Sys, threads: seq<Thread>, u: nat, k: nat, k': nat)
    requires u < |threads| && k < |threads[u].text| && k' == k + 1 && Busy(s, threads, u, Writing(k), 0, 0)
    ensures Busy(Step(s, u), threads, u, Writing(k'), 0, 0) && Step(s, u).log == s.log
  {
    assert s.threads[u] == threads[u].(pc := Writing(k));
  }

  lemma AloneNext(s: Sys, u: nat, m: nat, k: nat)
    requires GoodSys(s) && u < |s.threads| && k == m + 1
    ensures Alone(s, u, k) == Step(Alone(s, u, m), u)
  {
  }

  lemma {:induction false} WritesOn(s: Sys, threads: seq<Thread>, u: nat, k: nat)
    requires u < |threads| && k <= |threads[u].text| && Busy(s, threads, u, Writing(0), 0, 0)
    ensures Busy(Alone(s, u, k), threads, u, Writing(k), 0, 0) && Alone(s, u, k).log == s.log
  {
    if k > 0 {
      var m := k - 1;
      WritesOn(s, threads, u, m);
      WritesOne(Alone(s, u, m), threads, u, m, k);
      AloneNext(s, u, m, k);
    }
  }

  /** Steps of a writer from taking semRead to giving it back. */
  function RoundSteps(th: Thread): nat {
    |th.text| + 5
  }

  lemma AloneAfter(s: Sys, u: nat, a: nat, b: nat)
    requires GoodSys(s) && u < |s.threads|
    ensures Alone(s, u, a + b) == Alone(Alone(s, u, a), u, b)
    decreases b
  {
    if b > 0 {
      AloneAfter(s, u, a, b - 1);
    }
  }

  lemma TakesBoth(s: Sys, threads: seq<Thread>, u: nat)
    requires u < |threads| && Quiet(s, threads) && threads[u].pc.WTakeRead?
    ensures Busy(Alone(s, u, 2), threads, u, Writing(0), 0, 0) && Alone(s, u, 2).log == s.log
  {
    var s1 := Step(s, u);
    assert Busy(s1, threads, u, WTakeWrite, 0, 1);
    assert Alone(s, u, 1) == s1 by { assert Alone(s, u, 0) == s; }
    assert Alone(s, u, 2) == Step(s1, u);
  }

  lemma GivesBoth(s: Sys, threads: seq<Thread>, u: nat)
    requires u < |threads| && threads[u].pc.WTakeRead? && Busy(s, threads, u, Writing(|threads[u].text|), 0, 0)
    ensures Quiet(Alone(s, u, 3), threads) && Alone(s, u, 3).log == s.log + [threads[u].text]
  {
    var s1 := Step(s, u);
    assert Busy(s1, threads, u, WGiveWrite, 0, 0);
    var s2 := Step(s1, u);
    assert Busy(s2, threads, u, WGiveRead, 0, 1);
    var s3 := Step(s2, u);
    assert threads[u := threads[u].(pc := WTakeRead)] == threads;
    assert Alone(s, u, 1) == s1 by { assert Alone(s, u, 0) == s; }
    assert Alone(s, u, 2) == s2;
    assert Alone(s, u, 3) == s3;
  }

  /** In one round a writer adds its text to the log, and leaves everything else as it was. */
  lemma Round(s: Sys, threads: seq<Thread>, u: nat)
    requires u < |threads| && Quiet(s, threads) && threads[u].pc.WTakeRead?
    ensures var r := Alone(s, u, RoundSteps(threads[u]));
      Quiet(r, threads) && r.log == s.log + [threads[u].text]
  {
    var n := |threads[u].text|;
    TakesBoth(s, threads, u);
    WritesOn(Alone(s, u, 2), threads, u, n);
    GivesBoth(Alone(Alone(s, u, 2), u, n), threads, u);
    AloneAfter(s, u, 2, n);
    AloneAfter(s, u, 2 + n, 3);
  }

  // ---- Any number of rounds --------------------------------------------------------

  /**
   While a thread w waits to take semRead, another writer can go round any number of times: each time it gives
   semRead back, w could take it, and does not get the chance.
   */
  lemma {:induction false} CanBePassed(threads: seq<Thread>, w: nat, u: nat, n: nat) returns (sched: seq<nat>)
    requires AllAtStart(threads) && w < |threads| && u < |threads| && u != w && threads[u].pc.WTakeRead?
    ensures Schedule(sched, |threads|) && w !in sched
    ensures var s := Exec(Begin(threads), sched);
      Quiet(s, threads) && |s.log| == n && Enabled(s, w)
  {
    if n == 0 {
      sched := [];
      assert AtStart(threads[w]);
    } else {
      var before := CanBePassed(threads, w, u, n - 1);
      sched := ExecAlone(Begin(threads), before, u, RoundSteps(threads[u]));
      Round(Exec(Begin(threads), before), threads, u);
      assert AtStart(threads[w]);
    }
  }

  /** Nobody but w writes. */
  predicate NoOtherWriter(s: Sys, w: nat) {
    GoodSys(s) && s.log == [] && forall t :: 0 <= t < |s.threads| && t != w ==> !IsWriter(s.threads[t])
  }

  lemma {:induction false} NothingIsWritten(s: Sys, w: nat, sched: seq<nat>)
    requires NoOtherWriter(s, w) && Schedule(sched, |s.threads|) && w !in sched
    ensures Exec(s, sched).log == []
    decreases |sched|
  {
    if sched != [] {
      assert sched[0] in sched;
      assert NoOtherWriter(Step(s, sched[0]), w);
      NothingIsWritten(Step(s, sched[0]), w, sched[1..]);
    }
  }

  predicate OtherWriter(threads: seq<Thread>, w: nat, u: nat) {
    u < |threads| && u != w && threads[u].pc.WTakeRead?
  }

  /** n writes are finished by the others before w has taken a single step, and w could take one. */
  predicate Passed(threads: seq<Thread>, w: nat, n: nat, sched: seq<nat>)
    requires AllAtStart(threads)
  {
    && Schedule(sched, |threads|) && w < |threads| && w !in sched
    && var s := Exec(Begin(threads), sched);
       |s.threads| == |threads| && |s.log| >= n && Enabled(s, w)
  }

  /** The program is not free of starvation: a thread can be passed by n writes if and only if another thread writes. */
  lemma PassedExactly(threads: seq<Thread>, w: nat, n: nat)
    requires AllAtStart(threads) && w < |threads| && n > 0
    ensures (exists sched :: Passed(threads, w, n, sched)) <==> exists u :: OtherWriter(threads, w, u)
  {
    if u :| OtherWriter(threads, w, u) {
      var sched := CanBePassed(threads, w, u, n);
      assert Passed(threads, w, n, sched);
    } else {
      forall t | 0 <= t < |threads| && t != w ensures !IsWriter(threads[t]) {
        assert AtStart(threads[t]) && !OtherWriter(threads, w, t);
      }
      forall sched | Schedule(sched, |threads|) && w !in sched ensures !Passed(threads, w, n, sched) {
        NothingIsWritten(Begin(threads), w, sched);
      }
    }
  }
}
