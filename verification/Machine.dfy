/** Machine integers of the C, C++ and Python sources, C's truncating division,
    and the few facts about integer division the other modules share. */
module Machine {

  const INT64_MAX: int := 0x7FFF_FFFF_FFFF_FFFF
  const INT32_MAX: int := 0x7FFF_FFFF
  const UINT32_MAX: int := 0xFFFF_FFFF
  const TWO32: int := 0x1_0000_0000

  // Assigning to a variable of one of these types is a proof obligation: the value fits.
  type int64 = x: int | -0x8000_0000_0000_0000 <= x <= 0x7FFF_FFFF_FFFF_FFFF
  type uint64 = x: int | 0 <= x <= 0xFFFF_FFFF_FFFF_FFFF
  type int32 = x: int | -0x8000_0000 <= x <= 0x7FFF_FFFF
  type uint32 = x: int | 0 <= x <= 0xFFFF_FFFF

  /** C's `/` on signed integers truncates toward zero. */
  function CDiv(a: int, b: int): int
    requires b > 0
  {
    if a >= 0 then a / b else -((-a) / b)
  }

  /** Truncation: the quotient times b is within b of a, on the side of zero. */
  lemma CDivTruncates(a: int, b: int)
    requires b > 0
    ensures a >= 0 ==> CDiv(a, b) >= 0 && CDiv(a, b) * b <= a < (CDiv(a, b) + 1) * b
    ensures a <= 0 ==> CDiv(a, b) <= 0 && (CDiv(a, b) - 1) * b < a <= CDiv(a, b) * b
  {
    var m := if a >= 0 then a else -a;
    DivBounds(m, b);
    if m / b < 0 { MulMonotone(m / b, -1, b); }
    assert (m / b + 1) * b == (m / b) * b + b;
    if a < 0 { assert (-(m / b)) * b == -((m / b) * b) && (-(m / b) - 1) * b == -((m / b) * b) - b; }
  }

  /** Conversion to a 32-bit signed integer keeps the low 32 bits (two's complement). */
  function ToInt32(x: int): (r: int32)
  {
    var low := x % TWO32;
    if low <= INT32_MAX then low else low - TWO32
  }

  function Max(a: int, b: int): int { if a >= b then a else b }

  lemma DivUnique(x: int, p: int, q: int)
    requires p > 0 && q * p <= x < q * p + p
    ensures x / p == q
  {
    var d := x / p;
    assert d * p <= x < d * p + p;
    if d < q {
      MulMonotone(d + 1, q, p);
    } else if d > q {
      MulMonotone(q + 1, d, p);
    }
  }

  lemma MulMonotone(a: int, b: int, p: int)
    requires a <= b && p >= 0
    ensures a * p <= b * p
  {
    assert (b - a) * p >= 0;
  }

  lemma DivBounds(x: int, p: int)
    requires p > 0
    ensures (x / p) * p <= x < (x / p) * p + p
  {}

  lemma DivShift(x: int, p: int, k: int)
    requires p > 0
    ensures (x + k * p) / p == x / p + k
  {
    DivBounds(x, p);
    assert (x / p + k) * p == (x / p) * p + k * p;
    DivUnique(x + k * p, p, x / p + k);
  }

  lemma DivMonotone(x: int, y: int, p: int)
    requires p > 0 && x <= y
    ensures x / p <= y / p
  {
    DivBounds(x, p);
    DivBounds(y, p);
    if y / p < x / p { MulMonotone(y / p + 1, x / p, p); }
  }
}
