/** Fixed-width C integer types and the pieces of C arithmetic the firmware relies on:
    conversions that wrap (C11 6.3.1.3, with GCC's two's-complement choice for signed
    targets) and division that truncates toward zero (C11 6.5.5). */
module CTypes {

  const UINT16_LIMIT: int := 0x1_0000
  const UINT32_LIMIT: int := 0x1_0000_0000
  const UINT64_LIMIT: int := 0x1_0000_0000_0000_0000
  const INT32_MIN: int := -0x8000_0000
  const INT64_MIN: int := -0x8000_0000_0000_0000

  type uint8 = x: int | 0 <= x < 0x100
  type uint16 = x: int | 0 <= x < 0x1_0000
  type uint32 = x: int | 0 <= x < 0x1_0000_0000
  type uint64 = x: int | 0 <= x < 0x1_0000_0000_0000_0000

  predicate InInt32(x: int) { INT32_MIN <= x < -INT32_MIN }
  predicate InInt64(x: int) { INT64_MIN <= x < -INT64_MIN }

  type int32 = x: int | InInt32(x)

  function Abs(x: int): int { if x < 0 then -x else x }

  /** Conversion to uint32: the value modulo 2^32. */
  function ToU32(x: int): (r: uint32)
    ensures (x - r) % UINT32_LIMIT == 0
    ensures 0 <= x < UINT32_LIMIT ==> r == x
  {
    x % UINT32_LIMIT
  }

  /** Conversion to uint64: the value modulo 2^64. */
  function ToU64(x: int): (r: uint64)
    ensures (x - r) % UINT64_LIMIT == 0
    ensures 0 <= x < UINT64_LIMIT ==> r == x
  {
    x % UINT64_LIMIT
  }

  /** Conversion to int64: the representative of x modulo 2^64 in the int64 range. */
  function ToI64(x: int): (r: int)
    ensures InInt64(r)
    ensures (x - r) % UINT64_LIMIT == 0
    ensures InInt64(x) ==> r == x
  {
    var m := x % UINT64_LIMIT;
    if m < -INT64_MIN then m else m - UINT64_LIMIT
  }

  /** Conversion to int32: the representative of x modulo 2^32 in the int32 range. */
  function ToI32(x: int): (r: int32)
    ensures (x - r) % UINT32_LIMIT == 0
    ensures InInt32(x) ==> r == x
  {
    var m := x % UINT32_LIMIT;
    if m < -INT32_MIN then m else m - UINT32_LIMIT
  }

  /** C division: the quotient is truncated toward zero, so the remainder takes the sign of
      the dividend (Dafny's own / is Euclidean and differs for negative dividends). */
  function Div(a: int, b: int): (q: int)
    requires b != 0
    ensures a >= 0 ==> 0 <= a - q * b < Abs(b)
    ensures a < 0 ==> -Abs(b) < a - q * b <= 0
  {
    if a >= 0 then
      (if b > 0 then a / b else -(a / -b))
    else
      (if b > 0 then -((-a) / b) else (-a) / (-b))
  }

  /** Multiplying by a positive factor keeps the order, and so strict order of products
      gives strict order of the factors. */
  lemma MulOrder(x: int, y: int, b: int)
    requires b > 0
    ensures x <= y ==> x * b <= y * b
    ensures x * b < y * b ==> x < y
  {
    if x <= y {
      assert y * b - x * b == (y - x) * b;
    } else {
      assert x * b - y * b == (x - y) * b;
    }
  }

  /** Truncating division by a positive divisor never decreases when the dividend grows. */
  lemma DivMonotone(a1: int, a2: int, b: int)
    requires b > 0 && a1 <= a2
    ensures Div(a1, b) <= Div(a2, b)
  {
    var q1, q2 := Div(a1, b), Div(a2, b);
    QuotientOrder(a1, a2, b, q1, q2, q1 * b, q2 * b);
  }

  /** The order argument behind DivMonotone, with the products named: m1 and m2 are the
      quotients times b, within one b of the dividends on the side truncation leaves. */
  lemma QuotientOrder(a1: int, a2: int, b: int, q1: int, q2: int, m1: int, m2: int)
    requires b > 0 && a1 <= a2 && m1 == q1 * b && m2 == q2 * b
    requires a1 >= 0 ==> 0 <= a1 - m1 < b
    requires a1 < 0 ==> -b < a1 - m1 <= 0
    requires a2 >= 0 ==> 0 <= a2 - m2 < b
    requires a2 < 0 ==> -b < a2 - m2 <= 0
    ensures q1 <= q2
  {
    MulOrder(q1, q2 + 1, b);
    assert (q2 + 1) * b == m2 + b;
    if a1 < 0 && a2 >= 0 {
      MulOrder(q1, 1, b);
      MulOrder(-1, q2, b);
    }
  }

  /** The sign of a truncated quotient by a positive divisor never opposes the dividend's. */
  lemma DivSign(a: int, b: int)
    requires b > 0
    ensures a >= 0 ==> Div(a, b) >= 0
    ensures a <= 0 ==> Div(a, b) <= 0
  {
    if a >= 0 { DivMonotone(0, a, b); }
    if a <= 0 { DivMonotone(a, 0, b); }
  }
}
