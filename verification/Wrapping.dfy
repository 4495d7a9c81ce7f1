/** Going round a ring of n places. */
module Wrapping {

  /** i mod n for an i below 2n. */
  function Wrap(i: int, n: int): int {
    if i < n then i else i - n
  }

  lemma WrapIsMod(i: int, n: int)
    requires 0 <= i < 2 * n
    ensures i % n == Wrap(i, n)
  {
    if i < n {
      assert i / n == 0;
    } else {
      assert i / n == 1;
    }
  }
}
