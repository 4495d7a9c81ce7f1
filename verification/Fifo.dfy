/** The resolver program's bounded queue: a ring in which only a NULL payload tells an empty queue from a full one. */
module Fifo {
  import opened Wrapping

  const QUEUEMAXSIZE := 50

  datatype Payload<T> = Null | Ptr(value: T)

  /** The queue as stored. */
  datatype Ring<T> = Ring(cells: seq<Payload<T>>, front: int, rear: int)

  predicate GoodRing<T>(r: Ring<T>) {
    0 <= r.front < |r.cells| && 0 <= r.rear < |r.cells|
  }

  predicate IsEmpty<T>(r: Ring<T>)
    requires GoodRing(r)
  {
    r.front == r.rear && r.cells[r.front].Null?
  }

  predicate IsFull<T>(r: Ring<T>)
    requires GoodRing(r)
  {
    r.front == r.rear && !r.cells[r.front].Null?
  }

  function Push<T>(r: Ring<T>, p: Payload<T>): (q: (Ring<T>, bool))
    requires GoodRing(r)
    ensures GoodRing(q.0) && |q.0.cells| == |r.cells|
  {
    if IsFull(r) then (r, false)
    else (Ring(r.cells[r.rear := p], r.front, Wrap(r.rear + 1, |r.cells|)), true)
  }

  function Pop<T>(r: Ring<T>): (q: (Ring<T>, Payload<T>))
    requires GoodRing(r)
    ensures GoodRing(q.0) && |q.0.cells| == |r.cells|
  {
    if IsEmpty(r) then (r, Null)
    else (Ring(r.cells[r.front := Null], Wrap(r.front + 1, |r.cells|), r.rear), r.cells[r.front])
  }

  /** How far cell c is from the front, going round. */
  function Distance<T>(r: Ring<T>, c: int): int {
    if c >= r.front then c - r.front else c - r.front + |r.cells|
  }

  /** The ring stores s: exactly the cells of the live window hold it, in order, and the rest are NULL. */
  ghost predicate Stores<T>(r: Ring<T>, s: seq<T>) {
    && GoodRing(r) && |s| <= |r.cells|
    && r.rear == Wrap(r.front + |s|, |r.cells|)
    && forall c :: 0 <= c < |r.cells| ==>
         r.cells[c] == if Distance(r, c) < |s| then Ptr(s[Distance(r, c)]) else Null
  }

  /** The ring's tests tell emptiness and fullness of what it stores. */
  lemma TestsAgree<T>(r: Ring<T>, s: seq<T>)
    requires Stores(r, s)
    ensures IsEmpty(r) <==> s == []
    ensures IsFull(r) <==> |s| == |r.cells|
  {
  }

  /** Pushing appends, and fails exactly on a full queue. */
  lemma PushAppends<T>(r: Ring<T>, s: seq<T>, x: T)
    requires Stores(r, s)
    ensures var (q, ok) := Push(r, Ptr(x));
      && (ok <==> |s| < |r.cells|)
      && Stores(q, if ok then s + [x] else s)
  {
    TestsAgree(r, s);
    var (q, ok) := Push(r, Ptr(x));
    if ok {
      forall c | 0 <= c < |q.cells|
        ensures q.cells[c] == if Distance(q, c) < |s| + 1 then Ptr((s + [x])[Distance(q, c)]) else Null
      {
        assert Distance(q, c) == Distance(r, c);
        assert c == r.rear <==> Distance(r, c) == |s|;
      }
    }
  }

  /** Popping takes the first element, or NULL from an empty queue. */
  lemma PopTakesFirst<T>(r: Ring<T>, s: seq<T>)
    requires Stores(r, s)
    ensures var (q, p) := Pop(r);
      if s == [] then p == Null && q == r else p == Ptr(s[0]) && Stores(q, s[1..])
  {
    TestsAgree(r, s);
    var (q, p) := Pop(r);
    if s != [] {
      assert Distance(r, r.front) == 0;
      forall c | 0 <= c < |q.cells|
        ensures q.cells[c] == if Distance(q, c) < |s| - 1 then Ptr(s[1..][Distance(q, c)]) else Null
      {
        if c != r.front {
          assert Distance(q, c) == Distance(r, c) - 1;
        }
      }
    }
  }

  /** Pushing NULL is not refused, and what it leaves is no queue at all unless the ring has a single cell. */
  lemma NullPushBreaks<T>(r: Ring<T>, s: seq<T>)
    requires Stores(r, s) && |s| < |r.cells|
    ensures Push(r, Null).1
    ensures (exists s': seq<T> :: Stores(Push(r, Null).0, s')) <==> |r.cells| == 1
  {
    TestsAgree(r, s);
    var q := Push(r, Null).0;
    assert Distance(r, r.rear) == |s|;
    assert q.cells == r.cells;
    if |r.cells| == 1 {
      assert q == r;
      assert Stores(q, s);
    } else {
      forall s': seq<T> | Stores(q, s') ensures false {
        StoresLength(r, s, s', q);
      }
    }
  }

  /** The cells and the front alone determine how much is stored. */
  lemma StoresLength<T>(r: Ring<T>, s: seq<T>, s': seq<T>, q: Ring<T>)
    requires Stores(r, s) && Stores(q, s') && q.cells == r.cells && q.front == r.front
    ensures |s| == |s'|
  {
    NotLonger(r, s, s', q);
    NotLonger(q, s', s, r);
  }

  lemma NotLonger<T>(r: Ring<T>, s: seq<T>, s': seq<T>, q: Ring<T>)
    requires Stores(r, s) && Stores(q, s') && q.cells == r.cells && q.front == r.front
    ensures |s'| <= |s|
  {
    var c := if |s| < |r.cells| then Wrap(r.front + |s|, |r.cells|) else r.front;
    assert |s| < |r.cells| ==> Distance(r, c) == |s|;
    assert Distance(q, c) == Distance(r, c);
  }

  // ---- Any sequence of operations -----------------------------------------

  datatype Op<T> = PushOp(value: T) | PopOp

  /** What a caller sees: whether a push was accepted, or what a pop returned. */
  datatype Seen<T> = Pushed(ok: bool) | Popped(result: Payload<T>)

  function RunRing<T>(r: Ring<T>, ops: seq<Op<T>>): (out: (Ring<T>, seq<Seen<T>>))
    requires GoodRing(r)
    ensures GoodRing(out.0) && |out.1| == |ops|
    decreases |ops|
  {
    if ops == [] then (r, [])
    else
      match ops[0]
      case PushOp(x) =>
        var (q, ok) := Push(r, Ptr(x));
        var (q', rest) := RunRing(q, ops[1..]);
        (q', [Pushed(ok)] + rest)
      case PopOp =>
        var (q, p) := Pop(r);
        var (q', rest) := RunRing(q, ops[1..]);
        (q', [Popped(p)] + rest)
  }

  /** The same operations on a sequence of at most max elements. */
  function RunFifo<T>(s: seq<T>, max: int, ops: seq<Op<T>>): (out: (seq<T>, seq<Seen<T>>))
    decreases |ops|
  {
    if ops == [] then (s, [])
    else
      match ops[0]
      case PushOp(x) =>
        var (s', rest) := RunFifo(if |s| < max then s + [x] else s, max, ops[1..]);
        (s', [Pushed(|s| < max)] + rest)
      case PopOp =>
        var (s', rest) := RunFifo(if s == [] then s else s[1..], max, ops[1..]);
        (s', [Popped(if s == [] then Null else Ptr(s[0]))] + rest)
  }

  /** The ring refines a bounded first-in first-out sequence, over any operations. */
  lemma {:induction false} RingRefinesFifo<T>(r: Ring<T>, s: seq<T>, ops: seq<Op<T>>)
    requires Stores(r, s)
    ensures var (q, seen) := RunRing(r, ops);
      var (s', seen') := RunFifo(s, |r.cells|, ops);
      Stores(q, s') && seen == seen'
    decreases |ops|
  {
    if ops != [] {
      match ops[0]
      case PushOp(x) =>
        PushAppends(r, s, x);
        RingRefinesFifo(Push(r, Ptr(x)).0, if |s| < |r.cells| then s + [x] else s, ops[1..]);
      case PopOp =>
        PopTakesFirst(r, s);
        RingRefinesFifo(Pop(r).0, if s == [] then s else s[1..], ops[1..]);
    }
  }

  // ---- The queue itself ---------------------------------------------------

  class Queue<T(0)> {
    var cells: array<Payload<T>>
    var front: int
    var rear: int
    var maxSize: int

    ghost predicate Valid()
      reads this, cells
    {
      maxSize == cells.Length && GoodRing(Value())
    }

    ghost function Value(): Ring<T>
      reads this, cells
    {
      Ring(cells[..], front, rear)
    }

    /** A queue of the given size, or of the default size when that is not positive. */
    constructor (size: int)
      ensures Valid() && fresh(cells)
      ensures maxSize == (if size > 0 then size else QUEUEMAXSIZE)
      ensures Stores(Value(), [])
    {
      var n := if size > 0 then size else QUEUEMAXSIZE;
      maxSize := n;
      cells := new Payload<T>[n](_ => Null);
      front, rear := 0, 0;
      new;
      assert forall c :: 0 <= c < n ==> cells[..][c] == Null;
    }

    method QueueIsEmpty() returns (r: bool)
      requires Valid()
      ensures r == IsEmpty(Value())
    {
      r := front == rear && cells[front].Null?;
    }

    method QueueIsFull() returns (r: bool)
      requires Valid()
      ensures r == IsFull(Value())
    {
      r := front == rear && !cells[front].Null?;
    }

    method QueuePop() returns (p: Payload<T>)
      requires Valid()
      modifies this, cells
      ensures Valid() && cells == old(cells) && maxSize == old(maxSize)
      ensures (Value(), p) == Pop(old(Value()))
    {
      var empty := QueueIsEmpty();
      if empty {
        return Null;
      }
      p := cells[front];
      cells[front] := Null;
      WrapIsMod(front + 1, maxSize);
      front := (front + 1) % maxSize;
    }

    method QueuePush(p: Payload<T>) returns (ok: bool)
      requires Valid()
      modifies this, cells
      ensures Valid() && cells == old(cells) && maxSize == old(maxSize)
      ensures (Value(), ok) == Push(old(Value()), p)
    {
      var full := QueueIsFull();
      if full {
        return false;
      }
      cells[rear] := p;
      WrapIsMod(rear + 1, maxSize);
      rear := (rear + 1) % maxSize;
      ok := true;
    }

    /** Pops until nothing is left; s is what the queue stores. */
    method QueueCleanup(ghost s: seq<T>)
      requires Valid() && Stores(Value(), s)
      modifies this, cells
      ensures Valid() && cells == old(cells) && Stores(Value(), [])
      ensures forall c :: 0 <= c < cells.Length ==> cells[c] == Null
    {
      ghost var left := s;
      var empty := QueueIsEmpty();
      while !empty
        invariant Valid() && cells == old(cells) && Stores(Value(), left)
        invariant empty == IsEmpty(Value())
        decreases |left|
      {
        TestsAgree(Value(), left);
        PopTakesFirst(Value(), left);
        var p := QueuePop();
        left := left[1..];
        empty := QueueIsEmpty();
      }
      TestsAgree(Value(), left);
      assert forall c :: 0 <= c < cells.Length ==> Value().cells[c] == cells[c];
    }
  }
}
