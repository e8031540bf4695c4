/** Decimal numbers as strings: how the tables hold counters, and how `strtoull` reads
    them back. */
module Decimals {
  import opened Words

  const ULLONG_MAX: nat := 0xFFFF_FFFF_FFFF_FFFF

  predicate IsDigit(c: char) {
    '0' <= c <= '9'
  }

  predicate IsSpace(c: char) {
    c == ' ' || c == '\t' || c == '\n' || c == '\r' || c == 11 as char || c == 12 as char
  }

  function DigitValue(c: char): nat
    requires IsDigit(c)
  {
    c as int - '0' as int
  }

  function DigitChar(d: nat): (c: char)
    requires d < 10
    ensures IsDigit(c) && DigitValue(c) == d
  {
    (d + '0' as int) as char
  }

  predicate AllDigits(s: string) {
    forall i :: 0 <= i < |s| ==> IsDigit(s[i])
  }

  /** The value of a row of digits. */
  function DigitsValue(s: string): nat
    requires AllDigits(s)
  {
    if s == [] then 0 else 10 * DigitsValue(s[..|s| - 1]) + DigitValue(s[|s| - 1])
  }

  /** A number as an output stream writes it. */
  function Decimal(n: nat): string {
    if n < 10 then [DigitChar(n)] else Decimal(n / 10) + [DigitChar(n % 10)]
  }

  lemma {:induction false} DecimalValue(n: nat)
    ensures Decimal(n) != [] && AllDigits(Decimal(n)) && DigitsValue(Decimal(n)) == n
  {
    if n < 10 {
      assert Decimal(n)[..0] == [];
    } else {
      DecimalValue(n / 10);
      assert Decimal(n)[..|Decimal(n)| - 1] == Decimal(n / 10);
    }
  }

  /** Two numbers are written alike only if they are equal. */
  lemma {:induction false} DecimalInjective(m: nat, n: nat)
    requires Decimal(m) == Decimal(n)
    ensures m == n
  {
    DecimalValue(m);
    DecimalValue(n);
  }

  // ----- strtoull ----------------------------------------------------------------

  /** How many characters at the front satisfy a test. */
  function Spaces(s: string): (n: nat)
    ensures n <= |s|
  {
    if s != [] && IsSpace(s[0]) then 1 + Spaces(s[1..]) else 0
  }

  function Digits(s: string): (n: nat)
    ensures n <= |s| && AllDigits(s[..n])
  {
    if s != [] && IsDigit(s[0]) then
      var n := 1 + Digits(s[1..]);
      assert s[..n] == [s[0]] + s[1..][..n - 1];
      n
    else 0
  }

  /** What `strtoull` makes of a string in base 10: nothing if it finds no digits; the value,
      negated as a word after a minus sign; the greatest word if the digits are too many, which
      is the only case in which it sets `errno`. */
  datatype Scanned = NoNumber | Number(value: nat, outOfRange: bool)

  function Strtoull(s: string): Scanned {
    var unspaced := s[Spaces(s)..];
    var signed := unspaced != [] && (unspaced[0] == '+' || unspaced[0] == '-');
    var rest := if signed then unspaced[1..] else unspaced;
    var digits := rest[..Digits(rest)];
    if digits == [] then NoNumber
    else
      var v := DigitsValue(digits);
      if v > ULLONG_MAX then Number(ULLONG_MAX, true)
      else if signed && unspaced[0] == '-' then Number(Wrap(TWO_64 - v), false)
      else Number(v, false)
  }

  datatype Outcome<+T> = Success(result: T) | Failure

  /** `safeStrToUll`. It does not clear `errno` first: `stale` is whether some earlier call
      has left it at `ERANGE`. */
  function SafeStrToUll(s: string, stale: bool): Outcome<nat> {
    if s == [] then Failure
    else match Strtoull(s)
      case NoNumber => Failure
      case Number(v, outOfRange) => if v == ULLONG_MAX && (outOfRange || stale) then Failure else Success(v)
  }

  lemma {:induction false} DigitsOfAll(s: string)
    requires AllDigits(s)
    ensures Digits(s) == |s|
  {
    if s != [] {
      DigitsOfAll(s[1..]);
    }
  }

  /** A number that was written is read back, unless it is the greatest word and `errno` is
      stale. */
  lemma {:induction false} ReadsBack(n: nat, stale: bool)
    requires n <= ULLONG_MAX
    ensures SafeStrToUll(Decimal(n), stale) == if n == ULLONG_MAX && stale then Failure else Success(n)
  {
    var s := Decimal(n);
    DecimalValue(n);
    DigitsOfAll(s);
    assert IsDigit(s[0]);
    assert Spaces(s) == 0 && s[0..] == s;
    assert s[..|s|] == s;
  }
}
