/**
 * The parts of Kotlin's integer semantics that the app relies on: the 32-bit
 * `Int` and 64-bit `Long` ranges, `Long` division (which truncates towards
 * zero), `Long.toInt()` (which keeps the low 32 bits) and the decimal
 * rendering of a non-negative `Long` in a string template.
 */
module Numeric {

  const INT_MIN: int := -0x8000_0000
  const INT_MAX: int := 0x7fff_ffff
  const LONG_MAX: int := 0x7fff_ffff_ffff_ffff

  /** Number of distinct 32-bit values. */
  const INT_MODULUS: int := 0x1_0000_0000

  /** Kotlin `Int`. */
  type Int32 = x: int | -0x8000_0000 <= x < 0x8000_0000

  /** Kotlin `Long`. */
  type Int64 = x: int | -0x8000_0000_0000_0000 <= x < 0x8000_0000_0000_0000

  /** Integer division as Kotlin does it: the quotient is truncated towards
      zero, so the remainder takes the sign of the dividend. */
  function Quot(a: int, b: int): (q: int)
    requires b > 0
    ensures 0 <= a ==> 0 <= a - q * b < b
    ensures a < 0 ==> -b < a - q * b <= 0
  {
    if a >= 0 then a / b else -((-a) / b)
  }

  /** `Long.toInt()`: the unique `Int` congruent to `x` modulo 2^32. */
  function ToInt32(x: int): (r: Int32)
    ensures (x - r) % INT_MODULUS == 0
    ensures INT_MIN <= x <= INT_MAX ==> r == x
  {
    (x - INT_MIN) % INT_MODULUS + INT_MIN
  }

  /** `Int + Int`, which wraps around on overflow: the exact sum when it
      fits in an `Int`, otherwise the sum shifted by a multiple of 2^32. */
  function AddInt(a: Int32, b: Int32): (r: Int32)
    ensures (a + b - r) % INT_MODULUS == 0
    ensures INT_MIN <= a + b <= INT_MAX ==> r == a + b
    ensures a + b > INT_MAX ==> r == a + b - INT_MODULUS
    ensures a + b < INT_MIN ==> r == a + b + INT_MODULUS
  {
    ToInt32(a + b)
  }

  /** Adding to an already wrapped value wraps like adding to the exact one. */
  lemma WrapThenAdd(x: int, d: int)
    ensures ToInt32(ToInt32(x) + d) == ToInt32(x + d)
  {
  }

  /** The decimal digit character of `d`. */
  function Digit(d: nat): (c: char)
    requires d < 10
    ensures '0' <= c <= '9'
  {
    ('0' as int + d) as char
  }

  /** `n.toString()` for a non-negative `Long`: its decimal digits, most
      significant first, without leading zeros. */
  function Decimal(n: nat): (s: string)
    ensures 1 <= |s|
    ensures forall i :: 0 <= i < |s| ==> '0' <= s[i] <= '9'
    ensures n < 10 <==> |s| == 1
    decreases n
  {
    if n < 10 then [Digit(n)] else Decimal(n / 10) + [Digit(n % 10)]
  }

  /** Distinct numbers have distinct decimal renderings. */
  lemma {:induction false} DecimalInjective(a: nat, b: nat)
    requires Decimal(a) == Decimal(b)
    ensures a == b
    decreases a
  {
    if a >= 10 && b >= 10 {
      var sa, sb := Decimal(a), Decimal(b);
      assert sa[|sa| - 1] == Digit(a % 10);
      assert sb[|sb| - 1] == Digit(b % 10);
      assert sa[..|sa| - 1] == Decimal(a / 10);
      assert sb[..|sb| - 1] == Decimal(b / 10);
      DecimalInjective(a / 10, b / 10);
    }
  }
}
