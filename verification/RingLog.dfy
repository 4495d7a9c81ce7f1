/** The shared file of the readers-writers program: a ring of the last characters written, with an end mark. */
module RingLog {
  const LEN_FILE := 100
  const NUL := '\0'

  /** The buffer has one more cell than the ring; no write reaches it. */
  datatype File = File(buffer: seq<char>, pointer: int)

  predicate GoodFile(f: File) {
    |f.buffer| == LEN_FILE + 1 && 0 <= f.pointer <= LEN_FILE && f.buffer[LEN_FILE] == NUL
  }

  function Blank(): (f: File)
    ensures GoodFile(f)
  {
    File(seq(LEN_FILE + 1, _ => NUL), 0)
  }

  /** Appends one character: wrap, store, mark the next cell, advance. */
  function Put(f: File, c: char): (r: File)
    requires GoodFile(f)
    ensures GoodFile(r)
  {
    var p := if f.pointer >= LEN_FILE then 0 else f.pointer;
    var b := f.buffer[p := c];
    File(if p + 1 < LEN_FILE then b[p + 1 := '@'] else b[0 := '@'], p + 1)
  }

  /** The file once these characters have been written, in order. */
  function FileAfter(h: string): (f: File)
    ensures GoodFile(f)
  {
    if h == "" then Blank() else Put(FileAfter(h[..|h| - 1]), h[|h| - 1])
  }

  /** Position n of an endless tape, on the ring. */
  function Ring(n: int): (r: int)
    requires 0 <= n
    ensures 0 <= r < LEN_FILE
  {
    n % LEN_FILE
  }

  lemma RingStep(n: nat)
    ensures Ring(n + 1) == if Ring(n) + 1 < LEN_FILE then Ring(n) + 1 else 0
  {
  }

  /** Two tape positions less than a ring apart are different cells. */
  lemma RingApart(a: int, b: int)
    requires 0 <= a < b < a + LEN_FILE
    ensures Ring(a) != Ring(b)
  {
  }

  lemma {:induction false} PointerIs(h: string)
    requires h != ""
    ensures FileAfter(h).pointer == Ring(|h| - 1) + 1
  {
    var n := |h| - 1;
    if n > 0 {
      PointerIs(h[..n]);
      RingStep(n - 1);
    }
  }

  /** The cell that the next character goes to. */
  lemma NextCell(h: string)
    ensures var p := FileAfter(h).pointer;
      (if p >= LEN_FILE then 0 else p) == Ring(|h|)
  {
    if h != "" {
      PointerIs(h);
      RingStep(|h| - 1);
    }
  }

  lemma PutRing(f: File, n: nat, n': nat, c: char)
    requires GoodFile(f) && n' == n + 1 && (if f.pointer >= LEN_FILE then 0 else f.pointer) == Ring(n)
    ensures Put(f, c).buffer == f.buffer[Ring(n) := c][Ring(n') := '@']
  {
    RingStep(n);
  }

  lemma PutAt(h: string)
    requires h != ""
    ensures var n := |h| - 1;
      FileAfter(h).buffer == FileAfter(h[..n]).buffer[Ring(n) := h[n]][Ring(n + 1) := '@']
  {
    var n := |h| - 1;
    var before := h[..n];
    NextCell(before);
    PutRing(FileAfter(before), n, n + 1, h[n]);
  }

  /** The ring holds the last min(|h|, LEN_FILE - 1) characters of h, each at its position on the ring. */
  lemma {:induction false} HoldsRecent(h: string, k: nat)
    requires |h| - (LEN_FILE - 1) <= k < |h|
    ensures FileAfter(h).buffer[Ring(k)] == h[k]
    decreases |h|
  {
    var n := |h| - 1;
    PutAt(h);
    RingApart(k, n + 1);
    if k < n {
      RingApart(k, n);
      HoldsRecent(h[..n], k);
    }
  }

  /** The end mark follows the last character. */
  lemma MarkFollows(h: string)
    requires h != ""
    ensures FileAfter(h).buffer[Ring(|h|)] == '@'
  {
    PutAt(h);
  }

  /** Until the ring is full, the cells after the mark are untouched. */
  lemma {:induction false} RestIsBlank(h: string, j: nat)
    requires |h| < j <= LEN_FILE || (h == "" && j <= LEN_FILE)
    ensures FileAfter(h).buffer[j] == NUL
  {
    if h != "" {
      var n := |h| - 1;
      PutAt(h);
      RestIsBlank(h[..n], j);
    }
  }

  /** strlen, by scanning from position n. */
  function StrLen(b: seq<char>, n: nat): (len: nat)
    requires |b| == LEN_FILE + 1 && b[LEN_FILE] == NUL && n <= LEN_FILE
    ensures n <= len <= LEN_FILE && b[len] == NUL && forall i :: n <= i < len ==> b[i] != NUL
    decreases LEN_FILE - n
  {
    if b[n] == NUL then n else StrLen(b, n + 1)
  }

  /** What a read returns when the file has this history. */
  function Text(h: string): string {
    FileAfter(h).buffer[..StrLen(FileAfter(h).buffer, 0)]
  }

  lemma StrLenIs(b: seq<char>, len: nat)
    requires |b| == LEN_FILE + 1 && b[LEN_FILE] == NUL && len <= LEN_FILE && b[len] == NUL
    requires forall i :: 0 <= i < len ==> b[i] != NUL
    ensures StrLen(b, 0) == len
  {
  }

  /**
   The whole text: before the ring wraps it is the history and the mark; afterwards it is LEN_FILE characters,
   the mark at |h| mod LEN_FILE and at every other position p the one recent character whose position is p.
   */
  lemma TextIs(h: string)
    requires NUL !in h
    ensures h == "" ==> Text(h) == ""
    ensures 0 < |h| < LEN_FILE ==> Text(h) == h + "@"
    ensures |h| >= LEN_FILE ==>
              && |Text(h)| == LEN_FILE && Text(h)[Ring(|h|)] == '@'
              && forall k :: |h| - (LEN_FILE - 1) <= k < |h| ==> Text(h)[Ring(k)] == h[k]
  {
    var b := FileAfter(h).buffer;
    if h == "" {
      StrLenIs(b, 0);
    } else if |h| < LEN_FILE {
      ShortText(h);
    } else {
      forall p | 0 <= p < LEN_FILE ensures b[p] != NUL {
        CellIsWritten(h, p);
      }
      StrLenIs(b, LEN_FILE);
      MarkFollows(h);
      forall k | |h| - (LEN_FILE - 1) <= k < |h| ensures b[Ring(k)] == h[k] {
        HoldsRecent(h, k);
      }
    }
  }

  lemma ShortPrefix(b: seq<char>, h: string)
    requires |b| == LEN_FILE + 1 && 0 < |h| < LEN_FILE
    requires b[Ring(|h|)] == '@' && forall k :: 0 <= k < |h| ==> b[Ring(k)] == h[k]
    ensures b[..|h| + 1] == h + "@"
  {
    forall k | 0 <= k <= |h| ensures b[k] == (h + "@")[k] {
      assert Ring(k) == k;
    }
  }

  lemma ShortText(h: string)
    requires NUL !in h && 0 < |h| < LEN_FILE
    ensures Text(h) == h + "@"
  {
    var b := FileAfter(h).buffer;
    var n := |h| + 1;
    forall k | 0 <= k < |h| ensures b[Ring(k)] == h[k] {
      HoldsRecent(h, k);
    }
    MarkFollows(h);
    ShortPrefix(b, h);
    RestIsBlank(h, n);
    forall i | 0 <= i < n ensures b[i] != NUL {
      assert b[i] == b[..n][i] == (h + "@")[i];
    }
    StrLenIs(b, n);
  }

  /** Once the ring is full every cell of it holds a character of the history or the mark. */
  lemma CellIsWritten(h: string, p: nat)
    requires NUL !in h && |h| >= LEN_FILE && p < LEN_FILE
    ensures FileAfter(h).buffer[p] != NUL
  {
    var n := |h|;
    var k := n - (n - p) % LEN_FILE;
    assert Ring(k) == p;
    if k == n {
      MarkFollows(h);
    } else {
      HoldsRecent(h, k);
    }
  }

  /** All characters of a sequence of writes, in order. */
  function Flat(log: seq<string>): string {
    if log == [] then "" else Flat(log[..|log| - 1]) + log[|log| - 1]
  }

  /** Appends the characters of s from i on. */
  function PutAll(f: File, s: string, i: nat): (r: File)
    requires GoodFile(f) && i <= |s|
    ensures GoodFile(r)
    decreases |s| - i
  {
    if i == |s| then f else PutAll(Put(f, s[i]), s, i + 1)
  }

  lemma AfterOneMore(h: string, c: char)
    ensures FileAfter(h + [c]) == Put(FileAfter(h), c)
  {
    assert (h + [c])[..|h|] == h;
  }

  lemma OneMoreFirst(h: string, s: string, i: nat, j: nat)
    requires i < |s| && j == i + 1
    ensures h + [s[i]] + s[j..] == h + s[i..]
  {
  }

  lemma {:induction false} PutAllExtends(h: string, s: string, i: nat)
    requires i <= |s|
    ensures PutAll(FileAfter(h), s, i) == FileAfter(h + s[i..])
    decreases |s| - i
  {
    if i == |s| {
      assert h + s[i..] == h;
    } else {
      var j := i + 1;
      AfterOneMore(h, s[i]);
      PutAllExtends(h + [s[i]], s, j);
      OneMoreFirst(h, s, i, j);
    }
  }

  /** The file and its two operations as the program runs them. */
  class SharedFile {
    var buffer: array<char>
    var pointer: int

    ghost predicate Valid()
      reads this, buffer
    {
      buffer.Length == LEN_FILE + 1 && GoodFile(Value())
    }

    ghost function Value(): File
      reads this, buffer
    {
      File(buffer[..], pointer)
    }

    constructor ()
      ensures Valid() && fresh(buffer) && Value() == FileAfter("")
    {
      buffer := new char[LEN_FILE + 1](_ => NUL);
      pointer := 0;
      new;
      assert buffer[..] == Blank().buffer;
    }

    method WriteFile(psz: string)
      requires Valid()
      modifies this, buffer
      ensures Valid() && buffer == old(buffer)
      ensures Value() == PutAll(old(Value()), psz, 0)
      ensures forall h :: old(Value()) == FileAfter(h) ==> Value() == FileAfter(h + psz)
    {
      ghost var start := Value();
      for i := 0 to |psz|
        invariant Valid() && buffer == old(buffer)
        invariant PutAll(Value(), psz, i) == PutAll(start, psz, 0)
      {
        ghost var before := Value();
        pointer := if pointer >= LEN_FILE then 0 else pointer;
        buffer[pointer] := psz[i];
        if pointer + 1 < LEN_FILE {
          buffer[pointer + 1] := '@';
        } else {
          buffer[0] := '@';
        }
        pointer := pointer + 1;
        assert Value() == Put(before, psz[i]);
      }
      forall h | start == FileAfter(h) ensures Value() == FileAfter(h + psz) {
        PutAllExtends(h, psz, 0);
        assert psz[0..] == psz;
      }
    }

    method ReadFile() returns (out: string)
      requires Valid()
      ensures out == buffer[..StrLen(buffer[..], 0)]
      ensures forall h :: Value() == FileAfter(h) ==> out == Text(h)
    {
      var len := 0;
      while buffer[len] != NUL
        invariant 0 <= len <= LEN_FILE && StrLen(buffer[..], len) == StrLen(buffer[..], 0)
        decreases LEN_FILE - len
      {
        len := len + 1;
      }
      out := "";
      for i := 0 to len
        invariant out == buffer[..i]
      {
        out := out + [buffer[i]];
      }
    }
  }
}
