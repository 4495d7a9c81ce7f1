/** The branching engine as the simulator runs it: contexts updated in place by loops. */
module BranchEngines {
  import opened Params
  import opened B = Branching
  import opened Wrapping

  /** The branch context as the simulator updates it in place. */
  class BranchEngine {
    var boffset: int
    var bsize: int
    var bvalue: bool
    var bcount: int
    var brings: array<int>

    ghost predicate Valid()
      reads this
    {
      brings.Length == MAXBRINGS + 1
    }

    ghost function Value(): (c: Bcontext)
      reads this, brings
      requires Valid()
      ensures |c.brings| == MAXBRINGS + 1
    {
      Bcontext(boffset, bsize, bvalue, bcount, brings[..])
    }

    /** Statically allocated memory: all zero. */
    constructor ()
      ensures Valid() && fresh(brings)
      ensures Value() == Bcontext(0, 0, false, 0, seq(MAXBRINGS + 1, _ => 0))
    {
      boffset, bsize, bvalue, bcount := 0, 0, false, 0;
      brings := new int[MAXBRINGS + 1](_ => 0);
      new;
      assert brings[..] == seq(MAXBRINGS + 1, _ => 0);
    }

    /** Clears the context; the spare cell is not one of the engine's own. */
    method Clear()
      requires Valid()
      modifies this, brings
      ensures Valid() && brings == old(brings)
      ensures Value() == Cleared().(brings := Cleared().brings[..MAXBRINGS] + [old(brings[MAXBRINGS])])
    {
      bcount, boffset, bsize, bvalue := 0, 0, 1, true;
      brings[0] := 1;
      for i := 1 to MAXBRINGS
        invariant Valid() && brings == old(brings) && boffset == 0 && bsize == 1 && bvalue && bcount == 0
        invariant brings[0] == 1 && brings[MAXBRINGS] == old(brings[MAXBRINGS])
        invariant forall k :: 1 <= k < i ==> brings[k] == 0
      {
        brings[i] := 0;
      }
      assert brings[..] == Cleared().brings[..MAXBRINGS] + [old(brings[MAXBRINGS])];
    }

    /** Draws the future of branch b. */
    method Init(b: Branch, d: Draws)
      requires Valid() && Ready(b, d)
      modifies this, brings
      ensures Valid() && brings == old(brings)
      ensures Value() == Initialised(old(Value()), b, d)
    {
      bcount := 0;
      match b.btype
      case GOTO => InitGoto(b, d);
      case IF => InitIf(b, d);
      case FOR => InitLoop(b, d);
      case NFOR => InitLoop(b, d);
    }

    method InitGoto(b: Branch, d: Draws)
      requires Valid() && b.btype == GOTO && bcount == 0
      modifies this, brings
      ensures Valid() && brings == old(brings)
      ensures Value() == Initialised(old(Value()), b, d)
    {
      boffset, bsize, bvalue := 0, 1, true;
      brings[0] := 0x7fffffff;
      for i := 1 to MAXBRINGS
        invariant Valid() && brings == old(brings) && boffset == 0 && bsize == 1 && bvalue && bcount == 0
        invariant brings[0] == 0x7fffffff && brings[MAXBRINGS] == old(brings[MAXBRINGS])
        invariant forall k :: 1 <= k < i ==> brings[k] == 0
      {
        brings[i] := 0;
      }
      assert brings[..] == Initialised(old(Value()), b, d).brings;
    }

    /** Whether the first bsize + 1 cells hold these runs, the first counted on from a stale value. */
    ghost predicate Holds(runs: seq<int>, stale: int)
      reads this, brings
    {
      && Valid() && 0 <= bsize == |runs| - 1 <= MAXBRINGS
      && brings[0] == stale + runs[0] - 1
      && forall k :: 1 <= k <= bsize ==> brings[k] == runs[k]
    }

    method InitIf(b: Branch, d: Draws)
      requires Valid() && b.btype == IF && Ready(b, d) && bcount == 0
      modifies this, brings
      ensures Valid() && brings == old(brings)
      ensures Value() == Initialised(old(Value()), b, d)
    {
      ghost var plan := IfPlan(d.flips);
      ghost var stale := brings[0];
      CountFlips(d.flips, plan);
      assert brings[..] == Restarted(plan[|plan| - 1], stale);
    }

    /** Computes the future values of an IF. */
    method CountFlips(flips: seq<bool>, ghost plan: seq<seq<int>>)
      requires Valid() && bcount == 0
      requires 1 <= |plan| <= |flips| && plan[0] == [1] && |plan[|plan| - 1]| == MAXBRINGS + 1
      requires forall n :: 1 <= n < |plan| ==> Counts(plan, flips, n)
      requires forall n :: 0 <= n < |plan| - 1 ==> 1 <= |plan[n]| <= MAXBRINGS
      modifies this, brings
      ensures Valid() && brings == old(brings) && boffset == 0 && bvalue == flips[0] && bcount == 0
      ensures Holds(plan[|plan| - 1], old(brings[0]))
    {
      boffset, bsize := 0, 0;
      var cvalue := flips[0];
      bvalue := cvalue;
      var n := 1;
      while bsize < MAXBRINGS
        invariant Valid() && brings == old(brings) && boffset == 0 && bvalue == flips[0] && bcount == 0
        invariant 1 <= n <= |plan| && cvalue == flips[n - 1] && Holds(plan[n - 1], old(brings[0]))
        decreases |plan| - n
      {
        assert n < |plan| && Counts(plan, flips, n);
        CountFlip(flips[n] == cvalue, plan[n - 1], old(brings[0]));
        cvalue := flips[n];
        n := n + 1;
      }
    }

    /** One flip: the run goes on, or the next one starts. */
    method CountFlip(same: bool, ghost runs: seq<int>, ghost stale: int)
      requires Holds(runs, stale) && bsize < MAXBRINGS
      modifies this`bsize, brings
      ensures brings == old(brings) && Holds(PushFlip(runs, true, same), stale)
    {
      if same {
        brings[bsize] := brings[bsize] + 1;
      } else {
        bsize := bsize + 1;
        brings[bsize] := 1;
      }
    }

    method InitLoop(b: Branch, d: Draws)
      requires Valid() && (b.btype == FOR || b.btype == NFOR) && Ready(b, d) && bcount == 0
      modifies this, brings
      ensures Valid() && brings == old(brings)
      ensures Value() == Initialised(old(Value()), b, d)
    {
      boffset, bvalue, bsize := 0, b.btype == FOR, 0;
      while bsize < MAXBRINGS
        invariant Valid() && brings == old(brings) && boffset == 0 && bvalue == (b.btype == FOR) && bcount == 0
        invariant 0 <= bsize <= MAXBRINGS && bsize % 2 == 0
        invariant brings[MAXBRINGS] == old(brings[MAXBRINGS])
        invariant forall k :: 0 <= k < bsize ==> brings[k] == LoopRun(b, d, k)
      {
        if b.max > b.min {
          brings[bsize] := d.ints[bsize / 2] % (b.max - b.min) + b.min;
        } else {
          brings[bsize] := b.min;
        }
        bsize := bsize + 1;
        brings[bsize] := 1; // one failure to escape the loop
        bsize := bsize + 1;
      }
      assert brings[..] == Initialised(old(Value()), b, d).brings;
    }

    /** One decision. */
    method Decide() returns (branch: bool)
      requires Valid() && ValidContext(Value())
      modifies this
      ensures Valid() && brings == old(brings)
      ensures Value() == B.Decide(old(Value())).0
      ensures branch == B.Decide(old(Value())).1
    {
      branch := bvalue;
      bcount := bcount + 1;
      if bcount >= brings[boffset] {
        WrapIsMod(boffset + 1, bsize);
        boffset := (boffset + 1) % bsize;
        bcount := 0;
        bvalue := !bvalue;
      }
    }
  }
}
