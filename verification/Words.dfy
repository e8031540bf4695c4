/** Machine words: 64-bit wrap-around, the circular comparison of the
    multi-consumer queue, and the mask and rounding tricks both queues use.
    A word is an `int` in the range of the C++ type it stands for. */
module Words {

  const TWO_63: int := 0x8000_0000_0000_0000
  const TWO_64: int := 0x1_0000_0000_0000_0000

  /** The value of an unsigned 64-bit expression. */
  function Wrap(x: int): nat {
    x % TWO_64
  }

  /** `circular_less_than`: the wrapped difference lies in the upper half. */
  predicate CircularLess(a: int, b: int) {
    Wrap(a - b) > TWO_63
  }

  /** The circular comparison of two wrapped values is the comparison of the true
      values exactly when they are less than half the word range apart. */
  lemma {:induction false} CircularLessIsLess(a: int, b: int)
    requires -TWO_63 <= a - b < TWO_63
    ensures CircularLess(Wrap(a), Wrap(b)) <==> -TWO_63 < a - b < 0
  {
    WrapDifference(a, b);
  }

  lemma {:induction false} WrapDifference(a: int, b: int)
    ensures Wrap(Wrap(a) - Wrap(b)) == Wrap(a - b)
  {
    var q := (a / TWO_64) - (b / TWO_64);
    assert a - b == Wrap(a) - Wrap(b) + q * TWO_64;
    WrapShift(Wrap(a) - Wrap(b), q);
  }

  lemma {:induction false} WrapShift(x: int, q: int)
    ensures Wrap(x + q * TWO_64) == Wrap(x)
  {
    var d := x / TWO_64;
    assert x == d * TWO_64 + Wrap(x);
    assert x + q * TWO_64 == (d + q) * TWO_64 + Wrap(x);
  }
}
