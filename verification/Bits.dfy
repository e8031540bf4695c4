/** Bitwise operators on natural numbers, powers of two, and the two bit tricks both
    queues rely on: masking with `size - 1`, and rounding up to a power of two. */
module Bits {

  /** The bitwise AND. */
  function And(x: nat, y: nat): nat {
    if x == 0 || y == 0 then 0 else 2 * And(x / 2, y / 2) + (if x % 2 == 1 && y % 2 == 1 then 1 else 0)
  }

  /** The bitwise OR. */
  function Or(x: nat, y: nat): nat
    decreases x + y
  {
    if x == 0 && y == 0 then 0
    else 2 * Or(x / 2, y / 2) + (if x % 2 == 1 || y % 2 == 1 then 1 else 0)
  }

  function Pow2(k: nat): (p: nat)
    ensures p > 0
  {
    if k == 0 then 1 else 2 * Pow2(k - 1)
  }

  ghost predicate IsPow2(p: nat) {
    exists k: nat :: p == Pow2(k)
  }

  /** Shifting right by `k` divides by the power. */
  function Shr(x: nat, k: nat): nat {
    if k == 0 then x else Shr(x / 2, k - 1)
  }

  lemma {:induction false} ShrIsDiv(x: nat, k: nat)
    ensures Shr(x, k) == x / Pow2(k)
  {
    if k > 0 {
      ShrIsDiv(x / 2, k - 1);
      DivDiv(x, Pow2(k - 1));
    }
  }

  lemma {:induction false} HalfOfSum(a: nat, r: nat)
    ensures (2 * a + r) / 2 == a + r / 2
  {
  }

  lemma {:induction false} DoubleTimes(p: nat, q: nat, d: nat)
    requires d == 2 * p
    ensures d * q == 2 * (p * q)
  {
  }

  lemma {:induction false} Quotient(x: nat, d: nat) returns (q: nat, r: nat)
    requires d > 0
    ensures q == x / d && x == d * q + r && r < d
  {
    q, r := x / d, x % d;
  }

  lemma {:induction false} HalfDivides(x: nat, p: nat, q: nat, r: nat)
    requires p > 0 && x == 2 * (p * q) + r && r < 2 * p
    ensures x / 2 / p == q
  {
    HalfOfSum(p * q, r);
    DivUnique(x / 2, p, q, r / 2);
  }

  lemma {:induction false} DivDiv(x: nat, p: nat)
    requires p > 0
    ensures x / 2 / p == x / (2 * p)
  {
    var q, r := Quotient(x, 2 * p);
    DoubleTimes(p, q, 2 * p);
    HalfDivides(x, p, q, r);
  }

  lemma {:induction false} DivUnique(x: nat, p: nat, q: nat, r: nat)
    requires p > 0 && x == p * q + r && r < p
    ensures x / p == q && x % p == r
  {
    MulStep(p, x / p, q);
    MulStep(p, q, x / p);
  }

  lemma {:induction false} MulStep(p: nat, a: nat, b: nat)
    ensures a < b ==> p * a + p <= p * b
  {
    if a < b {
      MulAtLeast(p, b - a);
      assert p * b == p * a + p * (b - a);
    }
  }

  lemma {:induction false} MulAtLeast(p: nat, d: nat)
    requires d > 0
    ensures p * d >= p
  {
    assert p * d == p * (d - 1) + p;
  }

  /** Masking with a power of two less one is the remainder. */
  lemma {:induction false} MaskIsMod(x: nat, k: nat)
    ensures And(x, Pow2(k) - 1) == x % Pow2(k)
  {
    if k > 0 {
      MaskIsMod(x / 2, k - 1);
      MaskDoubles(x, Pow2(k - 1));
    }
  }

  lemma {:induction false} MaskDoubles(x: nat, p: nat)
    requires p > 0 && And(x / 2, p - 1) == x / 2 % p
    ensures And(x, 2 * p - 1) == x % (2 * p)
  {
    hide And;
    AndOddMask(x, p);
    ModTwice(x, p);
  }

  lemma {:induction false} AndOddMask(x: nat, p: nat)
    requires p > 0
    ensures And(x, 2 * p - 1) == 2 * And(x / 2, p - 1) + x % 2
  {
    assert (2 * p - 1) / 2 == p - 1 && (2 * p - 1) % 2 == 1;
  }

  lemma {:induction false} ModTwice(x: nat, p: nat)
    requires p > 0
    ensures x % (2 * p) == 2 * (x / 2 % p) + x % 2
  {
    var q := x / 2 / p;
    assert x == 2 * (p * q + x / 2 % p) + x % 2;
    DivUnique(x, 2 * p, q, 2 * (x / 2 % p) + x % 2);
  }

  /** The index after `i` in a ring of `size` slots, as `(i + 1) & (size - 1)` computes it. */
  lemma {:induction false} MaskedSuccessor(i: nat, size: nat)
    requires IsPow2(size) && i < size
    ensures And(i + 1, size - 1) == if i + 1 == size then 0 else i + 1
  {
    var k: nat :| size == Pow2(k);
    MaskIsMod(i + 1, k);
    if i + 1 == size {
      DivUnique(i + 1, size, 1, 0);
    } else {
      DivUnique(i + 1, size, 0, i + 1);
    }
  }

  // ----- Rounding up -------------------------------------------------------------

  lemma {:induction false} OrBounds(x: nat, y: nat)
    ensures x <= Or(x, y) && y <= Or(x, y) && Or(x, y) <= x + y
    decreases x + y
  {
    if x > 0 || y > 0 {
      OrBounds(x / 2, y / 2);
    }
  }

  lemma {:induction false} OrBelow(x: nat, y: nat, k: nat)
    requires x < Pow2(k) && y < Pow2(k)
    ensures Or(x, y) < Pow2(k)
    decreases x + y
  {
    if x > 0 || y > 0 {
      OrBelow(x / 2, y / 2, k - 1);
    }
  }

  /** The high part of one operand passes through. */
  lemma {:induction false} OrHigh(h: nat, y: nat, z: nat, m: nat)
    requires y < Pow2(m) && z < Pow2(m)
    ensures Or(h * Pow2(m) + y, z) == h * Pow2(m) + Or(y, z)
  {
    if m == 0 {
      OrZero(h);
    } else {
      var p := Pow2(m - 1);
      assert h * Pow2(m) + y == 2 * (h * p + y / 2) + y % 2;
      assert (h * Pow2(m) + y) / 2 == h * p + y / 2 && (h * Pow2(m) + y) % 2 == y % 2;
      OrHigh(h, y / 2, z / 2, m - 1);
      if h * Pow2(m) + y == 0 && z == 0 {
        assert h * Pow2(m) == 0 && y == 0;
      }
    }
  }

  lemma {:induction false} OrZero(x: nat)
    ensures Or(x, 0) == x
  {
    if x > 0 {
      OrZero(x / 2);
    }
  }

  lemma {:induction false} Pow2Sum(a: nat, b: nat)
    ensures Pow2(a + b) == Pow2(a) * Pow2(b)
  {
    if a > 0 {
      Pow2Sum(a - 1, b);
      assert Pow2(a) * Pow2(b) == 2 * (Pow2(a - 1) * Pow2(b));
    }
  }

  /** `x` has `len` bits, the topmost `run` of which are ones (all of them if `run` is more). */
  predicate TopRun(x: nat, len: nat, run: nat) {
    && x < Pow2(len)
    && if run < len then x >= Pow2(len) - Pow2(len - run) else x == Pow2(len) - 1
  }

  /** ORing a number with itself shifted by `run` doubles the run of leading ones. */
  lemma {:induction false} SmearDoubles(x: nat, len: nat, run: nat)
    requires run > 0 && TopRun(x, len, run)
    ensures x <= Or(x, Shr(x, run)) && TopRun(Or(x, Shr(x, run)), len, 2 * run)
  {
    hide Or, Shr;
    var y := Shr(x, run);
    ShrIsDiv(x, run);
    OrBounds(x, y);
    assert y <= x by { assert Pow2(run) >= 1; DivAtMost(x, Pow2(run)); }
    OrBelow(x, y, len);
    if run < len {
      var m := len - run;
      Pow2Sum(run, m);
      var ones := Pow2(run) - 1;
      assert Pow2(len) - Pow2(m) == ones * Pow2(m) by { Distribute(Pow2(run), Pow2(m)); }
      var low := x - ones * Pow2(m);
      assert low < Pow2(m);
      assert y < Pow2(m) by { DivBelow(x, Pow2(run), Pow2(m)); }
      OrHigh(ones, low, y, m);
      OrBounds(low, y);
      if run < m {
        Pow2Sum(run, m - run);
        assert y >= Pow2(m) - Pow2(m - run) by { SmearLow(x, run, m); }
      } else {
        assert y >= Pow2(m) - 1 by { SmearShort(x, run, m); }
      }
    }
  }

  lemma {:induction false} DivAtMost(x: nat, d: nat)
    requires d >= 1
    ensures x / d <= x
  {
  }

  lemma {:induction false} Distribute(a: nat, b: nat)
    ensures a * b - b == (a - 1) * b
  {
  }

  lemma {:induction false} DivBelow(x: nat, d: nat, b: nat)
    requires d > 0 && x < d * b
    ensures x / d < b
  {
  }

  lemma {:induction false} DivAtLeast(x: nat, d: nat, b: nat)
    requires d > 0 && x >= d * b
    ensures x / d >= b
  {
    MulStep(d, x / d, b);
  }

  /** The shifted copy of a number with `run` leading ones starts with `run` ones as well. */
  lemma {:induction false} SmearLow(x: nat, run: nat, m: nat)
    requires 0 < run < m && x >= Pow2(run + m) - Pow2(m)
    ensures x / Pow2(run) >= Pow2(m) - Pow2(m - run)
  {
    Pow2Sum(run, m);
    Pow2Sum(run, m - run);
    assert Pow2(run) * (Pow2(m) - Pow2(m - run)) == Pow2(run + m) - Pow2(m);
    Pow2Monotone(m - run, m);
    DivAtLeast(x, Pow2(run), Pow2(m) - Pow2(m - run));
  }

  lemma {:induction false} SmearShort(x: nat, run: nat, m: nat)
    requires 0 < m <= run && x >= Pow2(run + m) - Pow2(m)
    ensures x / Pow2(run) >= Pow2(m) - 1
  {
    Pow2Sum(run, m);
    Pow2Monotone(m, run);
    assert Pow2(run) * (Pow2(m) - 1) == Pow2(run + m) - Pow2(run);
    DivAtLeast(x, Pow2(run), Pow2(m) - 1);
  }

  lemma {:induction false} Pow2Monotone(a: nat, b: nat)
    requires a <= b
    ensures Pow2(a) <= Pow2(b)
    decreases b - a
  {
    if a < b {
      Pow2Monotone(a, b - 1);
    }
  }

  /** Every positive number has a length. */
  lemma {:induction false} HasLength(x: nat) returns (len: nat)
    requires x > 0
    ensures Pow2(len) <= x < Pow2(len + 1)
  {
    if x == 1 {
      len := 0;
    } else {
      len := HasLength(x / 2);
      len := len + 1;
    }
  }

  /** A power just large enough for the bits of `x - 1` is the least one not below `x`. */
  lemma {:induction false} LeastPow2(x: nat, len: nat)
    requires x > 0 && x <= Pow2(len) && (len == 0 || Pow2(len - 1) <= x - 1)
    ensures forall k: nat :: x <= Pow2(k) ==> Pow2(len) <= Pow2(k)
  {
    forall k: nat | x <= Pow2(k) ensures Pow2(len) <= Pow2(k) {
      if k < len {
        Pow2Monotone(k, len - 1);
      } else {
        Pow2Monotone(len, k);
      }
    }
  }

  /** The number of bits of `x`. */
  lemma {:induction false} Length(x: nat) returns (len: nat)
    requires x < Pow2(63)
    ensures len <= 63 && TopRun(x, len, 1) && (len == 0 || Pow2(len - 1) <= x)
  {
    if x == 0 {
      len := 0;
    } else {
      len := HasLength(x);
      len := len + 1;
      if len > 63 {
        Pow2Monotone(63, len - 1);
      }
    }
  }

  /** `ceilToPow2` for a 64-bit word: the least power of two not below `x`. */
  method CeilToPow2(x: nat) returns (r: nat)
    requires 0 < x <= Pow2(63)
    ensures IsPow2(r) && x <= r
    ensures forall k: nat :: x <= Pow2(k) ==> r <= Pow2(k)
  {
    r := x - 1;
    ghost var len := Length(r);
    SmearDoubles(r, len, 1);
    r := Or(r, Shr(r, 1));
    SmearDoubles(r, len, 2);
    r := Or(r, Shr(r, 2));
    SmearDoubles(r, len, 4);
    r := Or(r, Shr(r, 4));
    var i := 1;
    while i < 8
      invariant i == 1 || i == 2 || i == 4 || i == 8
      invariant x - 1 <= r && TopRun(r, len, 8 * i)
      decreases 8 - i
    {
      SmearDoubles(r, len, 8 * i);
      r := Or(r, Shr(r, 8 * i));
      i := 2 * i;
    }
    r := r + 1;
    LeastPow2(x, len);
  }
}
