/** What a reader reads: the file as some whole number of writes left it. */
module TornReads {
  import opened Sums
  import opened RingLog
  import opened ReadersWriters

  /** What a thread's position says about the file. */
  predicate ThreadFits(s: Sys, th: Thread)
    requires GoodFile(s.file)
  {
    && (th.pc.Writing? ==> th.pc.done <= |th.text| && s.hist == Flat(s.log) + th.text[..th.pc.done])
    && (th.pc.Measuring? ==> th.pc.len <= LEN_FILE && th.copy == ""
                             && forall i :: 0 <= i < th.pc.len ==> s.file.buffer[i] != NUL)
    && (th.pc.Copying? ==> th.pc.size == StrLen(s.file.buffer, 0) && th.pc.done <= th.pc.size
                           && th.copy == s.file.buffer[..th.pc.done])
    && (th.pc.XTakeMutex? ==> th.copy == Text(Flat(s.log)))
  }

  predicate NobodyWrites(ts: seq<Thread>) {
    forall t :: 0 <= t < |ts| ==> !ts[t].pc.Writing?
  }

  predicate FileOk(s: Sys) {
    && GoodSys(s)
    && s.file == FileAfter(s.hist)
    && (NobodyWrites(s.threads) ==> s.hist == Flat(s.log))
    && forall t :: 0 <= t < |s.threads| ==> ThreadFits(s, s.threads[t])
  }

  /** A reader in ReadFile, or just out of it. */
  predicate Reading(th: Thread) {
    th.pc.Measuring? || th.pc.Copying? || th.pc.XTakeMutex?
  }

  lemma ReadersExcludeWriters(s: Sys, t: nat, u: nat)
    requires Locks(s) && t < |s.threads| && u < |s.threads| && Reading(s.threads[t])
    ensures !s.threads[u].pc.Writing?
  {
    SumAtLeast(Inside, s.threads, t);
    if s.threads[u].pc.Writing? {
      SumAtLeast(HoldsWrite, s.threads, u);
    }
  }

  lemma WriterIsAlone(s: Sys, t: nat)
    requires Locks(s) && t < |s.threads|
    requires s.threads[t].pc.Writing? || (s.threads[t].pc.WTakeWrite? && Enabled(s, t))
    ensures forall u :: 0 <= u < |s.threads| && u != t ==> !s.threads[u].pc.Writing? && !Reading(s.threads[u])
  {
    forall u | 0 <= u < |s.threads| && u != t ensures !s.threads[u].pc.Writing? && !Reading(s.threads[u]) {
      if s.threads[t].pc.Writing? {
        if Reading(s.threads[u]) { ReadersExcludeWriters(s, u, t); }
        if s.threads[u].pc.Writing? { Excluded(s, t, u); }
      } else {
        SumAtLeast(HoldsWrite, s.threads, u);
        SumAtLeast(Inside, s.threads, u);
      }
    }
  }

  lemma FlatSnoc(log: seq<string>, x: string)
    ensures Flat(log + [x]) == Flat(log) + x
  {
    assert (log + [x])[..|log|] == log;
  }

  lemma Append(a: string, b: string, k: nat, k': nat)
    requires k < |b| && k' == k + 1
    ensures b[..k] + [b[k]] == b[..k'] && a + b[..k] + [b[k]] == a + b[..k']
  {
    assert b[..k'] == b[..k] + [b[k]];
  }

  /** A thread that is neither reading nor writing fits any file. */
  lemma Bystanders(s: Sys, r: Sys, t: nat)
    requires GoodSys(r) && t < |s.threads| == |r.threads| && r.threads == s.threads[t := r.threads[t]]
    requires forall u :: 0 <= u < |s.threads| && u != t ==> !s.threads[u].pc.Writing? && !Reading(s.threads[u])
    requires ThreadFits(r, r.threads[t])
    ensures forall u :: 0 <= u < |r.threads| ==> ThreadFits(r, r.threads[u])
  {
    forall u | 0 <= u < |r.threads| ensures ThreadFits(r, r.threads[u]) {
      if u != t { assert r.threads[u] == s.threads[u]; }
    }
  }

  /** Writing a character. */
  lemma PutStep(s: Sys, t: nat)
    requires FileOk(s) && Locks(s) && t < |s.threads|
    requires s.threads[t].pc.Writing? && s.threads[t].pc.done < |s.threads[t].text|
    ensures FileOk(Step(s, t))
  {
    var th := s.threads[t];
    assert ThreadFits(s, th);
    var r := Step(s, t);
    var k := th.pc.done;
    var k' := k + 1;
    AfterOneMore(s.hist, th.text[k]);
    Append(Flat(s.log), th.text, k, k');
    assert r.threads[t] == th.(pc := Writing(k'));
    WriterIsAlone(s, t);
    Bystanders(s, r, t);
  }

  /** Returning from WriteFile. */
  lemma EndStep(s: Sys, t: nat)
    requires FileOk(s) && Locks(s) && t < |s.threads|
    requires s.threads[t].pc.Writing? && s.threads[t].pc.done == |s.threads[t].text|
    ensures FileOk(Step(s, t))
  {
    var th := s.threads[t];
    assert ThreadFits(s, th);
    var r := Step(s, t);
    FlatSnoc(s.log, th.text);
    assert th.text[..th.pc.done] == th.text;
    assert r.threads[t] == th.(pc := WGiveWrite);
    WriterIsAlone(s, t);
    Bystanders(s, r, t);
  }

  /** Scanning one cell further, or finding the end. */
  lemma Measured(b: seq<char>, n: nat)
    requires |b| == LEN_FILE + 1 && b[LEN_FILE] == NUL && n <= LEN_FILE && b[n] == NUL
    requires forall i :: 0 <= i < n ==> b[i] != NUL
    ensures StrLen(b, 0) == n
  {
  }

  lemma MeasureFits(s: Sys, t: nat)
    requires FileOk(s) && t < |s.threads| && s.threads[t].pc.Measuring?
    ensures ThreadFits(s, NextThread(s, t))
  {
    var th := s.threads[t];
    var n := th.pc.len;
    assert ThreadFits(s, th);
    if s.file.buffer[n] == NUL {
      Measured(s.file.buffer, n);
      assert NextThread(s, t) == th.(pc := Copying(n, 0));
    } else {
      var n' := n + 1;
      assert NextThread(s, t) == th.(pc := Measuring(n'));
    }
  }

  lemma CopyFits(s: Sys, t: nat)
    requires FileOk(s) && t < |s.threads| && s.threads[t].pc.Copying? && s.threads[t].pc.done < s.threads[t].pc.size
    ensures ThreadFits(s, NextThread(s, t))
  {
    var th := s.threads[t];
    var b, n, k := s.file.buffer, th.pc.size, th.pc.done;
    assert ThreadFits(s, th);
    var k' := k + 1;
    Append("", b, k, k');
    assert NextThread(s, t) == th.(pc := Copying(n, k'), copy := b[..k']);
  }

  lemma CopyEnds(s: Sys, t: nat)
    requires FileOk(s) && Locks(s) && t < |s.threads| && s.threads[t].pc.Copying?
    requires s.threads[t].pc.done == s.threads[t].pc.size
    ensures ThreadFits(s, NextThread(s, t))
  {
    var th := s.threads[t];
    assert ThreadFits(s, th);
    forall u | 0 <= u < |s.threads| ensures !s.threads[u].pc.Writing? {
      ReadersExcludeWriters(s, t, u);
    }
    assert NobodyWrites(s.threads);
    assert th.copy == Text(s.hist);
    assert NextThread(s, t) == th.(pc := XTakeMutex);
  }

  /** A step of a thread that is not in WriteFile: the file and its history stay as they are. */
  lemma FileStays(s: Sys, t: nat)
    requires GoodSys(s) && t < |s.threads| && Enabled(s, t) && !s.threads[t].pc.Writing?
    ensures var r := Step(s, t);
      && r.file == s.file && r.log == s.log && r.hist == s.hist && r.threads == s.threads[t := NextThread(s, t)]
  {
  }

  lemma OtherFits(s: Sys, t: nat)
    requires FileOk(s) && Locks(s) && t < |s.threads| && Enabled(s, t) && !s.threads[t].pc.Writing?
    ensures ThreadFits(s, NextThread(s, t))
  {
    var th := s.threads[t];
    if th.pc.Measuring? {
      MeasureFits(s, t);
    } else if th.pc.Copying? {
      assert ThreadFits(s, th);
      if th.pc.done < th.pc.size { CopyFits(s, t); } else { CopyEnds(s, t); }
    } else if th.pc.WTakeWrite? {
      WriterIsAlone(s, t);
      assert NobodyWrites(s.threads);
      assert th.text[..0] == "";
    }
  }

  lemma OtherStep(s: Sys, t: nat)
    requires FileOk(s) && Locks(s) && t < |s.threads| && Enabled(s, t) && !s.threads[t].pc.Writing?
    ensures FileOk(Step(s, t))
  {
    OtherFits(s, t);
    FileStays(s, t);
    var r := Step(s, t);
    forall u | 0 <= u < |r.threads| ensures ThreadFits(r, r.threads[u]) {
      if u != t { assert ThreadFits(s, s.threads[u]); }
    }
    if NobodyWrites(r.threads) {
      forall u | 0 <= u < |s.threads| ensures !s.threads[u].pc.Writing? {
        assert u != t ==> s.threads[u] == r.threads[u];
      }
      assert NobodyWrites(s.threads);
    }
  }

  lemma AnyStep(s: Sys, t: nat)
    requires FileOk(s) && Locks(s) && t < |s.threads| && Enabled(s, t)
    ensures FileOk(Step(s, t))
  {
    var th := s.threads[t];
    if !th.pc.Writing? {
      OtherStep(s, t);
    } else {
      assert GoodThread(th);
      if th.pc.done < |th.text| { PutStep(s, t); } else { EndStep(s, t); }
    }
  }

  lemma {:induction false} ExecFile(s: Sys, sched: seq<nat>)
    requires FileOk(s) && Locks(s) && Schedule(sched, |s.threads|)
    ensures FileOk(Exec(s, sched)) && Locks(Exec(s, sched))
    decreases |sched|
  {
    if sched != [] {
      var t := sched[0];
      StepLocks(s, t);
      if Enabled(s, t) {
        AnyStep(s, t);
      }
      ExecFile(Step(s, t), sched[1..]);
    }
  }

  lemma BeginFile(threads: seq<Thread>)
    requires AllAtStart(threads)
    ensures FileOk(Begin(threads))
  {
    forall t | 0 <= t < |threads| ensures ThreadFits(Begin(threads), threads[t]) {
      assert AtStart(threads[t]);
    }
  }

  /**
   No torn reads, for any threads and any schedule: a reader coming out of ReadFile holds the text of exactly the
   writes completed so far, although reading and writing go character by character.
   */
  lemma NoTornReads(threads: seq<Thread>, sched: seq<nat>, t: nat)
    requires AllAtStart(threads) && Schedule(sched, |threads|) && t < |threads|
    ensures var s := Exec(Begin(threads), sched);
      s.threads[t].pc.XTakeMutex? ==> s.threads[t].copy == Text(Flat(s.log))
  {
    BeginLocks(threads);
    BeginFile(threads);
    ExecFile(Begin(threads), sched);
    var s := Exec(Begin(threads), sched);
    assert ThreadFits(s, s.threads[t]);
  }

  /** Between writes the file is the ring log of all the completed writes. */
  lemma FileIsRingLog(threads: seq<Thread>, sched: seq<nat>)
    requires AllAtStart(threads) && Schedule(sched, |threads|)
    ensures var s := Exec(Begin(threads), sched);
      NobodyWrites(s.threads) ==> s.file == FileAfter(Flat(s.log))
  {
    BeginLocks(threads);
    BeginFile(threads);
    ExecFile(Begin(threads), sched);
  }
}
