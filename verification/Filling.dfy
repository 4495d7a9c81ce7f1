/** The requester and the resolvers go on whenever the queue lets them, and the queue can fill up. */
module Filling {
  import opened Fifo
  import opened Resolver

  // ---- Who waits --------------------------------------------------------------

  /** What an actor waits for: room or a hostname at its test, the lock after it; a requester is done for good. */
  predicate Waits(s: Sys, a: Actor, stored: seq<Host>)
    requires Exists(s, a)
  {
    match a
    case Requester =>
      || (s.requester == QTest && s.input != [] && |stored| == |s.ring.cells|)
      || (s.requester == QLock && s.locked) || s.requester == QEnd
    case Resolve(r) =>
      || (s.resolvers[r] == VTest && stored == [])
      || (s.resolvers[r] == VLock && s.locked)
  }

  lemma RequesterMoves(s: Sys, all: seq<Host>, stored: seq<Host>)
    requires Holds(s, all, stored)
    ensures StepRequester(s) == s <==> Waits(s, Requester, stored)
    ensures StepRequester(s) != s ==> StepRequester(s).requester != s.requester
  {
    TestsAgree(s.ring, stored);
  }

  lemma ResolverMoves(s: Sys, r: nat, all: seq<Host>, stored: seq<Host>)
    requires Holds(s, all, stored) && r < |s.resolvers|
    ensures StepResolver(s, r) == s <==> Waits(s, Resolve(r), stored)
    ensures StepResolver(s, r) != s ==> StepResolver(s, r).resolvers[r] != s.resolvers[r]
  {
    TestsAgree(s.ring, stored);
  }

  /**
   On any schedule: the requester waits exactly while it has a hostname and the queue is full, a resolver exactly while
   the queue is empty, and either exactly while somebody else has the lock; in every other state its step moves it on.
   */
  lemma MovesExactly(max: nat, n: nat, input: seq<Host>, sched: seq<Actor>, a: Actor) returns (stored: seq<Host>)
    requires max > 0 && Schedule(Begin(max, n, input), sched) && Exists(Begin(max, n, input), a)
    ensures var s := Exec(Begin(max, n, input), sched);
      && Exists(s, a) && Stores(s.ring, stored) && |s.ring.cells| == max
      && (Step(s, a) == s <==> Waits(s, a, stored))
  {
    var s := Exec(Begin(max, n, input), sched);
    BeginHolds(max, n, input);
    stored := ExecKeeps(Begin(max, n, input), sched, input, []);
    SameSize(Begin(max, n, input), sched);
    if a.Requester? {
      RequesterMoves(s, input, stored);
    } else {
      ResolverMoves(s, a.r, input, stored);
    }
  }

  lemma {:induction false} SameSize(s: Sys, sched: seq<Actor>)
    requires GoodRing(s.ring) && Schedule(s, sched)
    ensures |Exec(s, sched).ring.cells| == |s.ring.cells|
    decreases |sched|
  {
    if sched != [] {
      SameSize(Step(s, sched[0]), sched[1..]);
    }
  }

  // ---- Filling the queue ----------------------------------------------------------

  /** The requester is at its test, and nobody has the lock. */
  ghost predicate Ready(s: Sys, all: seq<Host>, stored: seq<Host>) {
    Holds(s, all, stored) && s.requester == QTest && !s.locked
  }

  /** The requester takes n steps. */
  function Alone(s: Sys, n: nat): (t: Sys)
    requires GoodRing(s.ring)
    ensures GoodRing(t.ring) && |t.ring.cells| == |s.ring.cells| && t.resolvers == s.resolvers
  {
    if n == 0 then s else StepRequester(Alone(s, n - 1))
  }

  /** With room and a hostname, four steps of the requester store it. */
  lemma OneRound(s: Sys, all: seq<Host>, stored: seq<Host>)
    requires Ready(s, all, stored) && s.input != [] && |stored| < |s.ring.cells|
    ensures var t := Alone(s, 4);
      Ready(t, all, stored + [s.input[0]]) && t.input == s.input[1..] && t.popped == s.popped
  {
    TestsAgree(s.ring, stored);
    var s1 := StepRequester(s);
    assert s1 == s.(requester := QLock);
    var s2 := StepRequester(s1);
    assert s2 == s.(requester := QPush, locked := true);
    PushKeeps(s2, all, stored);
    var s3 := StepRequester(s2);
    assert Alone(s, 1) == s1 by { assert Alone(s, 0) == s; }
    assert Alone(s, 2) == s2;
    assert Alone(s, 3) == s3;
    assert Alone(s, 4) == StepRequester(s3);
  }

  lemma {:induction false} ExecSnoc(s: Sys, sched: seq<Actor>)
    requires GoodRing(s.ring) && Schedule(s, sched)
    ensures Schedule(s, sched + [Requester]) && Exec(s, sched + [Requester]) == StepRequester(Exec(s, sched))
    decreases |sched|
  {
    if sched == [] {
      assert [] + [Requester] == [Requester];
      assert Exec(s, [Requester]) == Exec(StepRequester(s), [Requester][1..]);
    } else {
      assert (sched + [Requester])[1..] == sched[1..] + [Requester];
      ExecSnoc(Step(s, sched[0]), sched[1..]);
    }
  }

  /** A schedule can be continued with any number of steps of the requester. */
  lemma {:induction false} ExecAlone(s: Sys, sched: seq<Actor>, n: nat) returns (more: seq<Actor>)
    requires GoodRing(s.ring) && Schedule(s, sched)
    ensures Schedule(s, more) && Exec(s, more) == Alone(Exec(s, sched), n)
  {
    if n == 0 {
      more := sched;
    } else {
      var before := ExecAlone(s, sched, n - 1);
      ExecSnoc(s, before);
      more := before + [Requester];
    }
  }

  /** k hostnames are stored, the rest is still to come, and none was taken. */
  ghost predicate Filled(s: Sys, input: seq<Host>, k: nat)
    requires k <= |input|
  {
    Ready(s, input, input[..k]) && s.input == input[k..] && s.popped == []
  }

  lemma FillsOne(s: Sys, input: seq<Host>, k: nat, k': nat)
    requires k' == k + 1 <= |input| && Filled(s, input, k) && k < |s.ring.cells|
    ensures Filled(Alone(s, 4), input, k')
  {
    OneRound(s, input, input[..k]);
    assert input[..k] + [input[k]] == input[..k'] && s.input[0] == input[k] && s.input[1..] == input[k'..];
  }

  lemma {:induction false} Fills(max: nat, n: nat, input: seq<Host>, k: nat) returns (sched: seq<Actor>)
    requires max > 0 && k <= max && k <= |input|
    ensures Schedule(Begin(max, n, input), sched) && Filled(Exec(Begin(max, n, input), sched), input, k)
  {
    var s := Begin(max, n, input);
    if k == 0 {
      sched := [];
      BeginHolds(max, n, input);
      assert input[..0] == [] && input[0..] == input;
    } else {
      var before := Fills(max, n, input, k - 1);
      SameSize(s, before);
      sched := ExecAlone(s, before, 4);
      FillsOne(Exec(s, before), input, k - 1, k);
    }
  }

  /** The queue can hold as much as its size and the input allow: some schedule stores just the first k hostnames. */
  lemma QueueFills(max: nat, n: nat, input: seq<Host>, k: nat) returns (sched: seq<Actor>)
    requires max > 0 && k <= max && k <= |input|
    ensures Schedule(Begin(max, n, input), sched)
    ensures var s := Exec(Begin(max, n, input), sched);
      Stores(s.ring, input[..k]) && s.popped == [] && s.input == input[k..]
  {
    sched := Fills(max, n, input, k);
  }
}
