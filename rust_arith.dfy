/**
 * Rust integer semantics that the model needs written out: `/` and `%` on signed
 * integers truncate toward zero, while Dafny's are Euclidean.
 */
module RustArith {

  const I32_MIN: int := -0x8000_0000
  const I32_MAX: int := 0x7FFF_FFFF
  const USIZE_MAX: int := 0xFFFF_FFFF_FFFF_FFFF

  /** Rust's `a / b` on signed integers: the quotient truncated toward zero. */
  function TDiv(a: int, b: int): (q: int)
    requires b != 0
    ensures a >= 0 && b > 0 ==> q == a / b
    ensures b > 0 ==> (if a >= 0 then q * b <= a < q * b + b else q * b - b < a <= q * b)
  {
    if a >= 0 && b > 0 then a / b
    else if a >= 0 then -(a / -b)
    else if b > 0 then -((-a) / b)
    else (-a) / (-b)
  }

  /** Rust's `n as i32`: the low 32 bits read as two's complement. */
  function AsI32(n: int): (r: int)
    ensures I32_MIN <= r <= I32_MAX
    ensures I32_MIN <= n <= I32_MAX ==> r == n
    ensures (r - n) % 0x1_0000_0000 == 0
  {
    (n - I32_MIN) % 0x1_0000_0000 + I32_MIN
  }

  function Min(a: int, b: int): (m: int)
    ensures m <= a && m <= b && (m == a || m == b)
  {
    if a <= b then a else b
  }

  function Max(a: int, b: int): (m: int)
    ensures m >= a && m >= b && (m == a || m == b)
  {
    if a >= b then a else b
  }

  lemma {:induction false} MulLeftMonotone(a: int, b: int, c: int)
    requires a <= b && c >= 0
    ensures a * c <= b * c
    decreases b - a
  {
    if a < b {
      MulLeftMonotone(a + 1, b, c);
      assert (a + 1) * c == a * c + c;
    }
  }

  /** Euclidean quotient and remainder of a natural number by a positive divisor are natural. */
  lemma DivModOfNatural(a: int, d: int)
    requires a >= 0 && d > 0
    ensures a / d >= 0 && 0 <= a % d < d
  {
    if a / d < 0 {
      MulLeftMonotone(a / d, -1, d);
    }
  }

  /** Two quotients whose bracketing intervals are ordered are ordered. */
  lemma QuotientsOrdered(qa: int, qb: int, d: int, ma: int, mb: int)
    requires d > 0 && ma == qa * d && mb == qb * d
    requires ma < mb + d
    ensures qa <= qb
  {
    if qa > qb {
      MulLeftMonotone(qb + 1, qa, d);
    }
  }

  /** Truncating division by a positive divisor is monotone. */
  lemma TDivMonotone(a: int, b: int, d: int)
    requires a <= b && d > 0
    ensures TDiv(a, d) <= TDiv(b, d)
  {
    var qa, qb := TDiv(a, d), TDiv(b, d);
    if a < 0 <= b {
      assert qa <= 0 <= qb;
    } else {
      QuotientsOrdered(qa, qb, d, qa * d, qb * d);
    }
  }
}
