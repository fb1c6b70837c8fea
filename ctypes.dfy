/** Fixed-width C integer types of the firmware (Cortex-M, two's complement)
    and the C operators whose meaning differs from Dafny's on `int`. */
module CTypes {

  type Byte = x: int | 0 <= x < 0x100
  type U16 = x: int | 0 <= x < 0x1_0000
  type I16 = x: int | -0x8000 <= x < 0x8000
  type U32 = x: int | 0 <= x < 0x1_0000_0000
  type I32 = x: int | -0x8000_0000 <= x < 0x8000_0000

  function Abs(x: int): nat
  {
    if x < 0 then -x else x
  }

  /** C's `/` on signed operands: the quotient is truncated toward zero, so
      the remainder `a - q * b` is smaller than the divisor in magnitude and
      carries the sign of the dividend (C99 section 6.5.5). Dafny's own `/`
      rounds toward negative infinity for a positive divisor instead. */
  function TruncDiv(a: int, b: int): (q: int)
    requires b != 0
    ensures Abs(a - q * b) < Abs(b)
    ensures a - q * b == 0 || ((a - q * b > 0) == (a > 0))
  {
    var m := Abs(a) / Abs(b);
    var q := if (a < 0) == (b < 0) then m else -m;
    TruncDivRemainder(a, b, q);
    RemainderBounds(a, b, a - q * b);
    q
  }

  lemma RemainderBounds(a: int, b: int, rem: int)
    requires b != 0
    requires rem == if a < 0 then -(Abs(a) % Abs(b)) else Abs(a) % Abs(b)
    ensures Abs(rem) < Abs(b) && (rem == 0 || ((rem > 0) == (a > 0)))
  {
    var bAbs: int := Abs(b);
    var r := Abs(a) % bAbs;
    assert 0 <= r < bAbs;
    if a < 0 {
      assert rem == -r && Abs(rem) == r;
    } else if a == 0 {
      assert r == 0 && rem == 0;
    } else {
      assert rem == r && Abs(rem) == r;
    }
  }

  /** The remainder left by the truncated quotient is the remainder of the
      magnitudes, with the sign of the dividend. */
  lemma TruncDivRemainder(a: int, b: int, q: int)
    requires b != 0
    requires q == var m := Abs(a) / Abs(b); if (a < 0) == (b < 0) then m else -m
    ensures a - q * b == if a < 0 then -(Abs(a) % Abs(b)) else Abs(a) % Abs(b)
  {
    var m := Abs(a) / Abs(b);
    var bAbs: int := Abs(b);
    var r := Abs(a) % bAbs;
    var p := m * bAbs;
    assert Abs(a) == p + r && 0 <= r < bAbs;
    if b < 0 {
      assert b + bAbs == 0;
      if a < 0 {
        calc { q * b; m * b; m * (-bAbs); { MulSign(m, bAbs); } -p; }
      } else {
        calc { q * b; (-m) * b; (-m) * (-bAbs); { MulSign(m, bAbs); } p; }
      }
    } else {
      assert b == bAbs;
      if a < 0 {
        calc { q * b; (-m) * bAbs; { MulSign(m, bAbs); } -p; }
      } else {
        assert q * b == p;
      }
    }
  }

  lemma MulSign(x: int, y: int)
    ensures x * (-y) == -(x * y) && (-x) * y == -(x * y) && (-x) * (-y) == x * y
  {
  }

  /** Truncation is symmetric: negating the dividend negates the quotient.
      Euclidean division has no such law (-7 / 2 is -4 in Dafny, -3 in C). */
  lemma TruncDivNegate(a: int, b: int)
    requires b != 0
    ensures TruncDiv(-a, b) == -TruncDiv(a, b)
  {
  }

  /** The two's-complement reading of a 16-bit pattern (an `int16_t` cast). */
  function ToI16(u: U16): (r: I16)
    ensures r % 0x1_0000 == u
    ensures (r < 0) <==> u >= 0x8000
  {
    if u < 0x8000 then u else u - 0x1_0000
  }

  /** The 16-bit pattern of an `int16_t`. */
  function FromI16(i: I16): (u: U16)
    ensures ToI16(u) == i
  {
    if i < 0 then i + 0x1_0000 else i
  }

  /** The 32-bit pattern of an `int32_t` (a cast to `uint32_t`). */
  function ToU32(i: I32): (u: U32)
    ensures u % 0x1_0000_0000 == i % 0x1_0000_0000
    ensures (i < 0) <==> u >= 0x8000_0000
  {
    if i < 0 then i + 0x1_0000_0000 else i
  }

  /** The two's-complement reading of a 32-bit pattern. */
  function ToI32(u: U32): (i: I32)
    ensures ToU32(i) == u
  {
    if u < 0x8000_0000 then u else u - 0x1_0000_0000
  }

  lemma ToI32ToU32(i: I32)
    ensures ToI32(ToU32(i)) == i
  {
  }
}
