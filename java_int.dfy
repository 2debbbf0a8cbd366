/**
 * The few pieces of Java `int` arithmetic the overlay code relies on: the
 * 32-bit range, a bitwise AND with a constant mask, a left shift, and Java's
 * truncating `/` and `%` (Dafny's own operators are Euclidean).
 */
module JavaInt {

  const Int32Min: int := -0x8000_0000
  const Int32Max: int := 0x7FFF_FFFF
  const Two32: int := 0x1_0000_0000

  predicate IsInt32(v: int) {
    Int32Min <= v <= Int32Max
  }

  function Pow2(k: nat): (r: nat)
    ensures r >= 1
  {
    if k == 0 then 1 else 2 * Pow2(k - 1)
  }

  /** Reduces an unbounded integer to the Java `int` with the same low 32 bits. */
  function Wrap(v: int): (r: int)
    ensures IsInt32(r)
    ensures (r - v) % Two32 == 0
  {
    (v - Int32Min) % Two32 + Int32Min
  }

  /**
   * `a & m` for a non-negative mask `m`. Bit i of the result is set when bit i
   * of `a` and of `m` are both set; Euclidean `/ 2` and `% 2` read off the
   * two's-complement bits of a negative `a`, so the definition covers every
   * Java `int`.
   */
  function And(a: int, m: nat): (r: nat)
    ensures r <= m
    decreases m
  {
    if m == 0 then 0
    else 2 * And(a / 2, m / 2) + (if a % 2 == 1 && m % 2 == 1 then 1 else 0)
  }

  /** `a << s` on a Java `int`: the bits moved past bit 31 are lost. */
  function ShiftLeft(a: int, s: nat): (r: int)
    ensures IsInt32(r)
    ensures IsInt32(a * Pow2(s)) ==> r == a * Pow2(s)
  {
    Wrap(a * Pow2(s))
  }

  /** Quotient and remainder are determined by the division equation. */
  lemma DivModUnique(a: int, d: int, q: int, r: int)
    requires d > 0 && a == d * q + r && 0 <= r < d
    ensures a / d == q && a % d == r
  {
    var q0, r0 := a / d, a % d;
    assert d * (q - q0) == r0 - r;
    if q > q0 {
      MulAtLeast(d, q - q0);
    } else if q < q0 {
      MulAtLeast(d, q0 - q);
    }
  }

  /** A multiple of d divides back exactly. */
  lemma MulDivExact(k: int, d: int)
    requires d > 0
    ensures (d * k) / d == k && (d * k) % d == 0
  {
    DivModUnique(d * k, d, k, 0);
  }

  lemma MulAtLeast(d: int, k: int)
    requires d > 0 && k >= 1
    ensures d * k >= d
  {
    assert d * k == d * (k - 1) + d;
  }

  /** A mask with a set low bit keeps the low bit of `a` and shifts the rest of the work one bit up. */
  lemma AndOddMask(a: int, mask: nat, m: nat)
    requires mask == 2 * m + 1
    ensures And(a, mask) == 2 * And(a / 2, m) + a % 2
  {
    assert mask / 2 == m && mask % 2 == 1;
  }

  /** A mask with a clear low bit shifts the work one bit up. */
  lemma AndEvenMask(a: int, mask: nat, m: nat)
    requires mask == 2 * m
    ensures And(a, mask) == 2 * And(a / 2, m)
  {
    if m > 0 {
      assert mask / 2 == m && mask % 2 == 0;
    }
  }

  /**
   * Four halvings are one division by 16, and the four bits they shed make
   * up the remainder.
   */
  lemma HalveFourTimes(a: int)
    ensures a / 2 / 2 / 2 / 2 == a / 16
    ensures a % 16 == 8 * (a / 2 / 2 / 2 % 2) + 4 * (a / 2 / 2 % 2) + 2 * (a / 2 % 2) + a % 2
  {
    var b1 := a / 2;
    var b2 := b1 / 2;
    var b3 := b2 / 2;
    var b4 := b3 / 2;
    var r := 8 * (b3 % 2) + 4 * (b2 % 2) + 2 * (b1 % 2) + a % 2;
    assert a == 16 * b4 + r;
    DivModUnique(a, 16, b4, r);
  }

  /** `a & 15`: the low four bits, for every Java `int`. */
  lemma And15(a: int)
    ensures And(a, 15) == a % 16
  {
    AndOddMask(a, 15, 7);
    AndOddMask(a / 2, 7, 3);
    AndOddMask(a / 2 / 2, 3, 1);
    AndOddMask(a / 2 / 2 / 2, 1, 0);
    HalveFourTimes(a);
  }

  /** `a & 240`: bits 4 to 7, that is 16 times the second hexadecimal digit. */
  lemma And240(a: int)
    ensures And(a, 240) == 16 * ((a / 16) % 16)
  {
    AndEvenMask(a, 240, 120);
    AndEvenMask(a / 2, 120, 60);
    AndEvenMask(a / 2 / 2, 60, 30);
    AndEvenMask(a / 2 / 2 / 2, 30, 15);
    HalveFourTimes(a);
    And15(a / 16);
  }

  /** Java's `/` on `int` by a positive divisor: the quotient is truncated toward zero. */
  function Div(a: int, b: int): (q: int)
    requires b > 0
    ensures a >= 0 ==> q == a / b
    ensures a < 0 ==> q == -((-a) / b)
  {
    if a >= 0 then a / b else -((-a) / b)
  }

  /** Java's `%` on `int` by a positive divisor: the remainder takes the sign of the dividend. */
  function Rem(a: int, b: int): (r: int)
    requires b > 0
    ensures a == Div(a, b) * b + r
    ensures a >= 0 ==> 0 <= r < b
    ensures a < 0 ==> -b < r <= 0
  {
    a - Div(a, b) * b
  }

  /**
   * `a ^ b` for a non-negative `b`: bit i of the result is set when bit i of
   * exactly one operand is; above the top bit of `b` the result keeps the
   * bits, and so the sign, of `a`.
   */
  function Xor(a: int, b: nat): (r: int)
    decreases b
  {
    if b == 0 then a
    else 2 * Xor(a / 2, b / 2) + (if a % 2 != b % 2 then 1 else 0)
  }

  /** XOR with the same value twice gives back the original. */
  lemma {:induction false} XorTwice(a: int, b: nat)
    ensures Xor(Xor(a, b), b) == a
    decreases b
  {
    if b > 0 {
      var x := Xor(a / 2, b / 2);
      var c := if a % 2 != b % 2 then 1 else 0;
      var y := Xor(a, b);
      assert y == 2 * x + c;
      DivModUnique(y, 2, x, c);
      XorTwice(a / 2, b / 2);
      assert Xor(y, b) == 2 * Xor(x, b / 2) + (if c != b % 2 then 1 else 0);
      assert (if c != b % 2 then 1 else 0) == a % 2;
    }
  }

  /** `a >>> 16` on a Java `int`: the upper half of its 32 bits, read as unsigned. */
  function UnsignedShiftRight16(a: int): (r: nat)
    ensures r < 0x1_0000
    ensures IsInt32(a) && a >= 0 ==> r == a / 0x1_0000
  {
    var u := a % Two32;
    assert u == 0x1_0000 * (u / 0x1_0000) + u % 0x1_0000;
    u / 0x1_0000
  }
}
