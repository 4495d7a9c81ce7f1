/** The hostname queue between a requester and any number of resolvers: an unlocked test, then a locked operation. */
module Resolver {
  import opened Sums
  import opened Fifo
  import opened Wrapping

  /** QTest: waiting for room. QLock: about to lock. QPush: holding the lock. QUnlock: pushed. QEnd: out of input. */
  datatype RequesterPc = QTest | QLock | QPush | QUnlock | QEnd

  /** VTest: waiting for work. VLock: about to lock. VPop: holding the lock. VUnlock: popped. */
  datatype ResolverPc = VTest | VLock | VPop | VUnlock

  type Host = string

  /** input is what the requester has still to push; pushed, popped and refused are histories. */
  datatype Sys = Sys(ring: Ring<Host>, locked: bool, requester: RequesterPc, resolvers: seq<ResolverPc>,
                     input: seq<Host>, pushed: seq<Host>, popped: seq<Host>, nulls: nat, refused: nat)

  /** Whose step it is. */
  datatype Actor = Requester | Resolve(r: nat)

  predicate Exists(s: Sys, a: Actor) {
    a.Resolve? ==> a.r < |s.resolvers|
  }

  function StepRequester(s: Sys): (t: Sys)
    requires GoodRing(s.ring)
    ensures GoodRing(t.ring) && |t.ring.cells| == |s.ring.cells| && t.resolvers == s.resolvers
  {
    match s.requester
    case QTest =>
      if s.input == [] then s.(requester := QEnd)
      else if IsFull(s.ring) then s else s.(requester := QLock)
    case QLock => if s.locked then s else s.(locked := true, requester := QPush)
    case QPush =>
      if s.input == [] then s
      else
        // The result of the push is ignored.
        var (ring, ok) := Push(s.ring, Ptr(s.input[0]));
        s.(ring := ring, requester := QUnlock, pushed := s.pushed + [s.input[0]], input := s.input[1..],
           refused := if ok then s.refused else s.refused + 1)
    case QUnlock => s.(locked := false, requester := QTest)
    case QEnd => s
  }

  function StepResolver(s: Sys, r: nat): (t: Sys)
    requires GoodRing(s.ring) && r < |s.resolvers|
    ensures GoodRing(t.ring) && |t.ring.cells| == |s.ring.cells| && |t.resolvers| == |s.resolvers|
  {
    match s.resolvers[r]
    case VTest => if IsEmpty(s.ring) then s else s.(resolvers := s.resolvers[r := VLock])
    case VLock => if s.locked then s else s.(locked := true, resolvers := s.resolvers[r := VPop])
    case VPop =>
      var (ring, p) := Pop(s.ring);
      var t := s.(ring := ring, resolvers := s.resolvers[r := VUnlock]);
      if p.Null? then t.(nulls := t.nulls + 1) else t.(popped := t.popped + [p.value])
    case VUnlock => s.(locked := false, resolvers := s.resolvers[r := VTest])
  }

  function Step(s: Sys, a: Actor): (t: Sys)
    requires GoodRing(s.ring) && Exists(s, a)
    ensures GoodRing(t.ring) && |t.ring.cells| == |s.ring.cells| && |t.resolvers| == |s.resolvers|
  {
    if a.Requester? then StepRequester(s) else StepResolver(s, a.r)
  }

  predicate Schedule(s: Sys, sched: seq<Actor>) {
    forall i :: 0 <= i < |sched| ==> Exists(s, sched[i])
  }

  function Exec(s: Sys, sched: seq<Actor>): (t: Sys)
    requires GoodRing(s.ring) && Schedule(s, sched)
    ensures GoodRing(t.ring) && |t.resolvers| == |s.resolvers|
    decreases |sched|
  {
    if sched == [] then s else Exec(Step(s, sched[0]), sched[1..])
  }

  /** An empty queue of max cells, a requester with this input, and some resolvers. */
  function Begin(max: nat, resolvers: nat, input: seq<Host>): (s: Sys)
    requires max > 0
    ensures GoodRing(s.ring)
  {
    Sys(Ring(seq(max, _ => Null), 0, 0), false, QTest, seq(resolvers, _ => VTest), input, [], [], 0, 0)
  }

  // ---- The invariant --------------------------------------------------------

  function HoldsLock(p: ResolverPc): int {
    if p == VPop || p == VUnlock then 1 else 0
  }

  /** Past its test the requester has input, and there is room: only it pushes. */
  predicate Room(s: Sys, stored: seq<Host>) {
    (s.requester == QLock || s.requester == QPush) ==> s.input != [] && |stored| < |s.ring.cells|
  }

  ghost predicate Holds(s: Sys, all: seq<Host>, stored: seq<Host>) {
    && Stores(s.ring, stored)
    && s.pushed + s.input == all
    && s.popped + stored == s.pushed
    && s.refused == 0
    && Room(s, stored)
    && (if s.locked then 1 else 0)
       == Sum(HoldsLock, s.resolvers) + if s.requester == QPush || s.requester == QUnlock then 1 else 0
  }

  lemma PushKeeps(s: Sys, all: seq<Host>, stored: seq<Host>)
    requires Holds(s, all, stored) && s.requester == QPush
    ensures Holds(StepRequester(s), all, stored + [s.input[0]])
  {
    var x := s.input[0];
    PushAppends(s.ring, stored, x);
    var t := StepRequester(s);
    assert s.input == [x] + t.input;
    assert t.pushed + t.input == s.pushed + s.input;
    assert s.popped + (stored + [x]) == s.popped + stored + [x];
  }

  lemma RequesterKeeps(s: Sys, all: seq<Host>, stored: seq<Host>) returns (stored': seq<Host>)
    requires Holds(s, all, stored)
    ensures Holds(StepRequester(s), all, stored')
  {
    stored' := stored;
    if s.requester == QPush {
      PushKeeps(s, all, stored);
      stored' := stored + [s.input[0]];
    } else if s.requester == QTest {
      TestsAgree(s.ring, stored);
    } else {
      SumNonNegative(HoldsLock, s.resolvers);
    }
  }

  lemma ResolverKeeps(s: Sys, r: nat, all: seq<Host>, stored: seq<Host>) returns (stored': seq<Host>)
    requires Holds(s, all, stored) && r < |s.resolvers|
    ensures Holds(StepResolver(s, r), all, stored') && |stored'| <= |stored|
    ensures s.resolvers[r] == VPop ==>
              StepResolver(s, r).nulls == s.nulls + (if stored == [] then 1 else 0)
              && stored' == if stored == [] then [] else stored[1..]
    ensures s.resolvers[r] != VPop ==> stored' == stored && StepResolver(s, r).nulls == s.nulls
  {
    var t := StepResolver(s, r);
    SumUpdate(HoldsLock, s.resolvers, r, t.resolvers[r]);
    stored' := stored;
    if s.resolvers[r] == VPop {
      PopTakesFirst(s.ring, stored);
      if stored != [] {
        stored' := stored[1..];
        assert s.popped + [stored[0]] + stored[1..] == s.popped + stored;
      }
    } else {
      SumAtLeast(HoldsLock, s.resolvers, r);
    }
  }

  lemma {:induction false} ExecKeeps(s: Sys, sched: seq<Actor>, all: seq<Host>, stored: seq<Host>)
    returns (stored': seq<Host>)
    requires Holds(s, all, stored) && Schedule(s, sched)
    ensures Holds(Exec(s, sched), all, stored')
    decreases |sched|
  {
    stored' := stored;
    if sched != [] {
      var next: seq<Host>;
      if sched[0].Requester? {
        next := RequesterKeeps(s, all, stored);
      } else {
        next := ResolverKeeps(s, sched[0].r, all, stored);
      }
      stored' := ExecKeeps(Step(s, sched[0]), sched[1..], all, next);
    }
  }

  lemma {:induction false} NobodyLocks(n: nat)
    ensures Sum(HoldsLock, seq(n, _ => VTest)) == 0
  {
    if n > 0 {
      assert seq(n, _ => VTest)[1..] == seq(n - 1, _ => VTest);
      NobodyLocks(n - 1);
    }
  }

  lemma BeginHolds(max: nat, resolvers: nat, input: seq<Host>)
    requires max > 0
    ensures Holds(Begin(max, resolvers, input), input, [])
  {
    NobodyLocks(resolvers);
  }

  /**
   With one requester and any number of resolvers, on any schedule, the push whose result is ignored never fails,
   and the hostnames popped in lock order followed by those stored in the queue are the hostnames pushed, which
   are the beginning of the input.
   */
  lemma NothingIsLost(max: nat, resolvers: nat, input: seq<Host>, sched: seq<Actor>) returns (stored: seq<Host>)
    requires max > 0 && Schedule(Begin(max, resolvers, input), sched)
    ensures var s := Exec(Begin(max, resolvers, input), sched);
      && s.refused == 0
      && Stores(s.ring, stored) && s.popped + stored == s.pushed && s.pushed + s.input == input
  {
    BeginHolds(max, resolvers, input);
    stored := ExecKeeps(Begin(max, resolvers, input), sched, input, []);
  }

  // ---- A single resolver ------------------------------------------------------

  /** A lone resolver past its test finds the queue as it left it, or longer. */
  ghost predicate Lone(s: Sys, all: seq<Host>, stored: seq<Host>) {
    && Holds(s, all, stored) && |s.resolvers| == 1 && s.nulls == 0
    && ((s.resolvers[0] == VLock || s.resolvers[0] == VPop) ==> stored != [])
  }

  lemma LoneStep(s: Sys, a: Actor, all: seq<Host>, stored: seq<Host>) returns (stored': seq<Host>)
    requires Lone(s, all, stored) && Exists(s, a)
    ensures Lone(Step(s, a), all, stored')
  {
    if a.Requester? {
      if s.requester == QPush {
        PushKeeps(s, all, stored);
        stored' := stored + [s.input[0]];
      } else {
        stored' := RequesterKeeps(s, all, stored);
        SameStored(s.ring, stored, stored');
      }
    } else {
      TestsAgree(s.ring, stored);
      stored' := ResolverKeeps(s, a.r, all, stored);
    }
  }

  /** A ring stores only one sequence of a given front and rear. */
  lemma SameStored(r: Ring<Host>, s: seq<Host>, t: seq<Host>)
    requires Stores(r, s) && Stores(r, t)
    ensures |s| == |t|
  {
    StoresLength(r, s, t, r);
  }

  lemma {:induction false} LoneExec(s: Sys, sched: seq<Actor>, all: seq<Host>, stored: seq<Host>)
    requires Lone(s, all, stored) && Schedule(s, sched)
    ensures Exec(s, sched).nulls == 0
    decreases |sched|
  {
    if sched != [] {
      var next := LoneStep(s, sched[0], all, stored);
      LoneExec(Step(s, sched[0]), sched[1..], all, next);
    }
  }

  /** With a single resolver no pop ever finds the queue empty. */
  lemma LoneResolverNeverPopsNull(max: nat, input: seq<Host>, sched: seq<Actor>)
    requires max > 0 && Schedule(Begin(max, 1, input), sched)
    ensures Exec(Begin(max, 1, input), sched).nulls == 0
  {
    BeginHolds(max, 1, input);
    LoneExec(Begin(max, 1, input), sched, input, []);
  }

  // ---- When a pop can find nothing ------------------------------------------

  /** Push one name, let two resolvers see it, let each pop in turn. */
  function Race(): seq<Actor> {
    [Requester, Requester, Requester, Requester, Resolve(0), Resolve(1),
     Resolve(0), Resolve(0), Resolve(0), Resolve(1), Resolve(1)]
  }

  /** A schedule leads where its steps lead. */
  lemma {:induction false} ExecBy(states: seq<Sys>, r: seq<Actor>)
    requires |states| == |r| + 1 && GoodRing(states[0].ring) && Schedule(states[0], r)
    requires forall i :: 0 <= i < |r| ==> Leads(states[i], r[i], states[i + 1])
    ensures Exec(states[0], r) == states[|r|]
    decreases |r|
  {
    if r != [] {
      assert Leads(states[0], r[0], states[1]);
      forall i | 0 <= i < |r[1..]| ensures Leads(states[1..][i], r[1..][i], states[1..][i + 1]) {
        assert Leads(states[i + 1], r[i + 1], states[i + 2]);
      }
      ExecBy(states[1..], r[1..]);
    }
  }

  predicate Leads(s: Sys, a: Actor, t: Sys) {
    GoodRing(s.ring) && Exists(s, a) && t == Step(s, a)
  }

  /** The first half of the race: a name is in the queue and two resolvers have seen it. */
  lemma RaceStarts(max: nat, n: nat, input: seq<Host>) returns (states: seq<Sys>)
    requires max > 0 && n >= 2 && input != []
    ensures |states| == 7 && states[0] == Begin(max, n, input)
    ensures forall i :: 0 <= i < 6 ==> Leads(states[i], Race()[i], states[i + 1])
    ensures states[6] == BothSaw(max, n, input)
  {
    var s0 := Begin(max, n, input);
    var s1 := s0.(requester := QLock);
    var s2 := s1.(locked := true, requester := QPush);
    var s3 := s2.(ring := OneStored(max, input[0]), requester := QUnlock, pushed := [input[0]], input := input[1..]);
    assert Leads(s2, Requester, s3) by { assert [] + [input[0]] == [input[0]]; }
    var s4 := s3.(locked := false, requester := QTest);
    var s5 := s4.(resolvers := s4.resolvers[0 := VLock]);
    var s6 := s5.(resolvers := s5.resolvers[1 := VLock]);
    states := [s0, s1, s2, s3, s4, s5, s6];
  }

  function OneStored(max: nat, h: Host): (r: Ring<Host>)
    requires max > 0
    ensures GoodRing(r)
  {
    Ring(seq(max, _ => Null)[0 := Ptr(h)], 0, Wrap(1, max))
  }

  /** One name stored, and two resolvers past their tests. */
  function BothSaw(max: nat, n: nat, input: seq<Host>): (s: Sys)
    requires max > 0 && n >= 2 && input != []
    ensures GoodRing(s.ring)
  {
    Sys(OneStored(max, input[0]), false, QTest, seq(n, _ => VTest)[0 := VLock][1 := VLock],
        input[1..], [input[0]], [], 0, 0)
  }

  /** The second half: one of them pops the name, the other finds nothing. */
  lemma RaceEnds(max: nat, n: nat, input: seq<Host>) returns (states: seq<Sys>)
    requires max > 0 && n >= 2 && input != []
    ensures |states| == 6 && states[0] == BothSaw(max, n, input)
    ensures forall i :: 0 <= i < 5 ==> Leads(states[i], Race()[6 + i], states[i + 1])
    ensures states[5].nulls == 1
  {
    var s6 := BothSaw(max, n, input);
    var s7 := s6.(locked := true, resolvers := s6.resolvers[0 := VPop]);
    var none := Ring(s6.ring.cells[0 := Null], Wrap(1, max), Wrap(1, max));
    var s8 := s7.(ring := none, resolvers := s7.resolvers[0 := VUnlock], popped := [input[0]]);
    assert Leads(s7, Resolve(0), s8) by { assert [] + [input[0]] == [input[0]]; }
    var s9 := s8.(locked := false, resolvers := s8.resolvers[0 := VTest]);
    var s10 := s9.(locked := true, resolvers := s9.resolvers[1 := VPop]);
    var s11 := s10.(resolvers := s10.resolvers[1 := VUnlock], nulls := 1);
    states := [s6, s7, s8, s9, s10, s11];
  }

  /** With two resolvers or more, and a hostname, some pop can find the queue empty: its test is not part of it. */
  lemma ManyCanPopNull(max: nat, n: nat, input: seq<Host>)
    requires max > 0 && n >= 2 && input != []
    ensures Schedule(Begin(max, n, input), Race()) && Exec(Begin(max, n, input), Race()).nulls == 1
  {
    var start := RaceStarts(max, n, input);
    var end := RaceEnds(max, n, input);
    var states := start + end[1..];
    forall i | 0 <= i < 11 ensures Leads(states[i], Race()[i], states[i + 1]) {
      if i >= 6 {
        assert Leads(end[i - 6], Race()[6 + (i - 6)], end[i - 5]);
      } else {
        assert Leads(start[i], Race()[i], start[i + 1]);
      }
    }
    ExecBy(states, Race());
  }

  /** Nobody can pop: there are no resolvers, or no hostnames to get a resolver past its test. */
  predicate Barren(s: Sys) {
    && GoodRing(s.ring) && s.nulls == 0
    && (s.resolvers == [] || (IsEmpty(s.ring) && s.input == [] && (s.requester == QTest || s.requester == QEnd)
                              && forall r :: 0 <= r < |s.resolvers| ==> s.resolvers[r] == VTest))
  }

  lemma {:induction false} BarrenExec(s: Sys, sched: seq<Actor>)
    requires Barren(s) && Schedule(s, sched)
    ensures Exec(s, sched).nulls == 0
    decreases |sched|
  {
    if sched != [] {
      BarrenExec(Step(s, sched[0]), sched[1..]);
    }
  }

  /**
   Exactly when a resolver can be handed NULL as a hostname: with any queue, some schedule makes a pop find nothing
   if and only if there are two resolvers or more and there is a hostname at all.
   */
  lemma NullPopsExactly(max: nat, n: nat, input: seq<Host>)
    requires max > 0
    ensures (exists sched :: Schedule(Begin(max, n, input), sched) && Exec(Begin(max, n, input), sched).nulls > 0)
            <==> n >= 2 && input != []
  {
    if n >= 2 && input != [] {
      ManyCanPopNull(max, n, input);
    } else {
      forall sched | Schedule(Begin(max, n, input), sched) ensures Exec(Begin(max, n, input), sched).nulls == 0 {
        if n == 1 {
          LoneResolverNeverPopsNull(max, input, sched);
        } else {
          BarrenExec(Begin(max, n, input), sched);
        }
      }
    }
  }
}
