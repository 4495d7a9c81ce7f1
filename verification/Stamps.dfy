/** What the LRU pager's table of stamps holds, for every processor and every page, on every run. */
module Stamps {
  import opened Params
  import opened Simulator
  import opened Lru
  import opened Starved

  /** The last tick, counting from 1, in which the pager paged out page p of processor i; 0 for none. */
  function LastNamed(script: seq<seq<Call>>, i: int, p: int): (t: nat)
    ensures t <= |script|
  {
    if script == [] then 0
    else
      var n := |script| - 1;
      if Out(i, p) in script[n] then n + 1 else LastNamed(script[..n], i, p)
  }

  /** The last reference, unless the page was paged out after it. */
  predicate Stamped(x: State, i: int, p: int)
    requires GoodState(x) && 0 <= i < MAXPROCESSES && PageNo(p)
  {
    var last := LastSeen(x.seen, i, p);
    x.stamps[i][p] == if LastNamed(x.script, i, p) > last then 0 else last
  }

  lemma NamedSnoc(script: seq<seq<Call>>, calls: seq<Call>, i: int, p: int)
    ensures LastNamed(script + [calls], i, p) == if Out(i, p) in calls then |script| + 1 else LastNamed(script, i, p)
  {
    assert (script + [calls])[..|script|] == script;
  }

  lemma SlotRowAt(s: Sim, e: Pentry, row: seq<int>, i: int, junk: int, tick: int, p: int)
    requires Shape(s) && GoodEntry(e) && GoodRow(row) && PageNo(junk) && PageNo(p)
    ensures SlotRow(s, e, row, i, junk, tick)[p]
            == if e.active && p == Needs(e) then tick
               else if Out(i, p) in SlotCalls(s, e, row, i, junk) then 0 else row[p]
  {
  }

  /** A turn pages out the victim of a refused processor, and stamps the page it needs. */
  lemma TurnStamps(x: State, junk: seq<int>, i: nat, p: int) returns (row: seq<int>)
    requires GoodState(x) && GoodJunk(junk) && i < MAXPROCESSES && PageNo(p)
    ensures GoodRow(row) && row == Turn(x, junk).stamps[i]
    ensures GoodEntry(Entry(Ticked(x.sim), i))
    ensures var e := Entry(Ticked(x.sim), i);
      row[p] == if e.active && p == Needs(e) then x.tick
                else if Out(i, p) in NextCalls(x, junk) then 0 else x.stamps[i][p]
  {
    var before, mine, after := CallsAround(x, junk, i);
    row := Turn(x, junk).stamps[i];
    var t := Ticked(x.sim);
    SlotRowAt(DoAll(t, before), Entry(t, i), x.stamps[i], i, junk[i], x.tick, p);
    OnlyMine(before, mine, after, Out(i, p));
  }

  lemma TurnStamped(x: State, junk: seq<int>, i: nat, p: int)
    requires GoodState(x) && GoodJunk(junk) && i < MAXPROCESSES && PageNo(p)
    requires x.tick == |x.seen| + 1 == |x.script| + 1 && Stamped(x, i, p)
    ensures Stamped(Turn(x, junk), i, p)
  {
    var t := Ticked(x.sim);
    ViewIsGood(t);
    var row := TurnStamps(x, junk, i, p);
    LastSeenSnoc(x.seen, Seen(View(t)), i, p);
    NamedSnoc(x.script, NextCalls(x, junk), i, p);
  }

  /**
   On every run, whatever the uninitialised variable held: the stamp of any page of any processor is the last tick in
   which the processor was seen in it, or 0 if the pager paged the page out after that.
   */
  lemma {:induction false} StampsExactly(s: Sim, junks: seq<seq<int>>, i: nat, p: int)
    requires Shape(s) && (forall j :: j in junks ==> GoodJunk(j)) && i < MAXPROCESSES && PageNo(p)
    ensures var x := LruRun(s, junks);
      x.tick == |x.seen| + 1 == |x.script| + 1 && Stamped(x, i, p)
    decreases |junks|
  {
    if junks != [] {
      var n := |junks| - 1;
      StampsExactly(s, junks[..n], i, p);
      TurnStamped(LruRun(s, junks[..n]), junks[n], i, p);
    }
  }
}
