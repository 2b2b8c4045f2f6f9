/** Fixed-width integers, and the arithmetic facts the other modules share. */
module Arithmetic {

  const UINT32_MAX: nat := 0xFFFF_FFFF
  const UINT64_MAX: nat := 0xFFFF_FFFF_FFFF_FFFF

  type byte = b: int | 0 <= b < 0x100
  type uint32 = x: nat | x <= UINT32_MAX
  type uint64 = x: nat | x <= UINT64_MAX

  /** `++x` on a 32-bit counter. */
  function Increment(x: uint32): uint32 {
    if x == UINT32_MAX then 0 else x + 1
  }

  /** `--x` on a 32-bit counter. */
  function Decrement(x: uint32): uint32 {
    if x == 0 then UINT32_MAX else x - 1
  }

  function Abs(v: real): (r: real)
    ensures r >= 0.0
  {
    if v < 0.0 then -v else v
  }

  function Min(a: real, b: real): real {
    if a <= b then a else b
  }

  function Max(a: real, b: real): real {
    if a >= b then a else b
  }

  /** `getValueInRange`: the upper bound wins when the bounds cross. */
  function ValueInRange(value: real, low: real, high: real): (r: real)
    ensures r <= high
    ensures low <= high ==> low <= r
    ensures low <= value <= high ==> r == value
  {
    Min(high, Max(low, value))
  }

  /** `ceil` on reals. */
  function Ceil(r: real): (n: int)
    ensures n as real - 1.0 < r <= n as real
  {
    -((-r).Floor)
  }

  /** Conversion of a non-negative float to `uint32_t`; an out-of-range value saturates. */
  function ToUint32(r: real): (n: uint32)
    ensures 0.0 <= r < 4294967296.0 ==> n as real <= r < n as real + 1.0
  {
    if r < 0.0 then 0 else if r >= 4294967296.0 then UINT32_MAX else r.Floor
  }

  lemma Associative<T>(a: seq<T>, b: seq<T>, c: seq<T>)
    ensures (a + b) + c == a + (b + c)
  {
  }

  lemma MulMonotone(a: int, b: int, c: int)
    requires a <= b && 0 <= c
    ensures a * c <= b * c
  {
  }

  lemma DivModUnique(a: int, d: int, q: int, r: int)
    requires d > 0 && 0 <= r < d && a == q * d + r
    ensures a / d == q && a % d == r
  {
    var q' := a / d;
    if q > q' {
      MulMonotone(q' + 1, q, d);
    } else if q < q' {
      MulMonotone(q + 1, q', d);
    }
  }

  /** Quotient and remainder when the dividend grows by one. */
  lemma DivModNext(a: nat, d: nat)
    requires d > 0
    ensures if a % d == d - 1
            then (a + 1) / d == a / d + 1 && (a + 1) % d == 0
            else (a + 1) / d == a / d && (a + 1) % d == a % d + 1
  {
    var q, r := a / d, a % d;
    assert a == q * d + r;
    if r == d - 1 {
      assert a + 1 == (q + 1) * d + 0;
      DivModUnique(a + 1, d, q + 1, 0);
    } else {
      DivModUnique(a + 1, d, q, r + 1);
    }
  }

  lemma PositiveProduct(a: real, b: real) returns (v: real)
    requires a > 0.0 && b > 0.0
    ensures v == a * b && v > 0.0
  {
    v := a * b;
  }

  lemma RealMul(a: real, b: real, c: real)
    requires a <= b && c >= 0.0
    ensures a * c <= b * c
  {
  }

  /** The size of a product, from the sizes of its factors. */
  lemma AbsProduct(a: real, b: real, x: real, y: real) returns (p: real, size: real)
    requires x == Abs(a) && y == Abs(b)
    ensures p == a * b && size == x * y && size >= 0.0 && (p == size || p == -size)
  {
    p, size := a * b, x * y;
    RealMul(0.0, x, y);
    if a >= 0.0 && b < 0.0 {
      assert a * -b == -(a * b);
    } else if a < 0.0 && b >= 0.0 {
      assert -a * b == -(a * b);
    } else if a < 0.0 {
      assert -a * -b == a * b;
    }
  }

  /** A product of sizes grows with both. */
  lemma ProductAtMost(x: real, y: real, most: real, reach: real, p: real) returns (q: real)
    requires 0.0 <= x <= most && 0.0 <= y <= reach && p == x * y
    ensures q == most * reach && p <= q
  {
    q := most * reach;
    RealMul(x, most, y);
    RealMul(y, reach, most);
  }

  /** A product of factors between `-most` and `most`, and between `-reach` and `reach`. */
  lemma ProductWithin(a: real, b: real, most: real, reach: real) returns (p: real, q: real)
    requires -most <= a <= most && -reach <= b <= reach
    ensures p == a * b && q == most * reach && -q <= p <= q
  {
    var x, y, size := Abs(a), Abs(b), 0.0;
    p, size := AbsProduct(a, b, x, y);
    q := ProductAtMost(x, y, most, reach, size);
  }

  lemma RealMulStrict(a: real, b: real, c: real)
    requires a < b && c > 0.0
    ensures a * c < b * c
  {
  }

  /** A quotient compared with `q` is the dividend compared with the product. */
  lemma Quotient(a: real, b: real, q: real)
    requires b > 0.0
    ensures a / b * b == a
    ensures a / b >= q <==> a >= q * b
    ensures a / b < q <==> a < q * b
  {
    QuotientAux(a, b, q, a / b);
  }

  lemma QuotientAux(a: real, b: real, q: real, r: real)
    requires b > 0.0 && r * b == a
    ensures r >= q <==> a >= q * b
  {
    if r >= q {
      RealMul(q, r, b);
    } else {
      RealMulStrict(r, q, b);
    }
  }
}
