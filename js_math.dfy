/** JavaScript numeric behaviour that the breathing widget relies on, written out
    over Dafny's unbounded integers and exact reals. Times are whole milliseconds;
    floating-point rounding is not modelled. */
module JsMath {

  /** A value that JavaScript may hold as `null`. */
  datatype Option<+T> = None | Some(value: T)

  /** JavaScript's `a % b` for a positive divisor: the remainder is truncated
      toward zero, so it takes the sign of the dividend, where Dafny's `%` never
      returns a negative number. The two agree on a non-negative dividend; in
      every case the remainder differs from the dividend by a multiple of `b`,
      which with its sign and bound fixes it. */
  function Rem(a: int, b: int): (r: int)
    requires b > 0
    ensures -b < r < b
    ensures a >= 0 ==> r == a % b
    ensures a <= 0 ==> r <= 0
    ensures (a - r) % b == 0
  {
    RemOffMultiple(a, b);
    if a >= 0 then a % b else -((-a) % b)
  }

  // ----- Division with remainder -----

  /** Division with remainder has one answer: `x = q * m + r` with `0 <= r < m`
      fixes the quotient and the remainder. */
  lemma DivModUnique(x: int, m: int, q: int, r: int)
    requires m > 0 && 0 <= r < m && x == q * m + r
    ensures x / m == q && x % m == r
  {
    var d := q - x / m;
    assert d * m == x % m - r;
    if d >= 1 {
      MulAtLeast(d, m);
      assert false;
    } else if d <= -1 {
      MulAtLeast(-d, m);
      assert false;
    }
  }

  /** A non-negative dividend has a non-negative quotient. */
  lemma QuotientSign(x: int, m: int)
    requires m > 0
    ensures x >= 0 ==> x / m >= 0
  {
  }

  lemma MulNonNegative(a: int, b: int)
    requires a >= 0 && b >= 0
    ensures a * b >= 0
  {
  }

  lemma MulAtLeast(d: int, m: int)
    requires d >= 1 && m > 0
    ensures d * m >= m
  {
    assert (d - 1) * m >= 0;
  }

  lemma MultipleOf(x: int, q: int, b: int)
    requires b > 0 && x == q * b
    ensures x % b == 0
  {
    DivModUnique(x, b, q, 0);
  }

  /** Both remainders differ from the dividend by a multiple of the divisor. */
  lemma RemOffMultiple(a: int, b: int)
    requires b > 0
    ensures (a - a % b) % b == 0
    ensures a < 0 ==> (a + (-a) % b) % b == 0
  {
    MultipleOf(a - a % b, a / b, b);
    if a < 0 {
      var q := (-a) / b;
      assert -a == q * b + (-a) % b;
      MultipleOf(a + (-a) % b, -q, b);
    }
  }

  /** `Math.round(x)`: the nearest integer, halves rounded up. */
  function Round(x: real): (n: int)
    ensures x - 0.5 < n as real <= x + 0.5
  {
    (x + 0.5).Floor
  }

  /** `Math.ceil(x)`: the least integer not below `x`. */
  function Ceil(x: real): (n: int)
    ensures x <= n as real < x + 1.0
  {
    -((-x).Floor)
  }

  /** The number JavaScript's arithmetic makes of a value that may be `null`
      (`now - null` is `now`). */
  function NumOr0(v: Option<int>): int
  {
    if v.Some? then v.value else 0
  }

  /** JavaScript truthiness of a number that may be `null`: `null` and `0` are falsy. */
  predicate Truthy(v: Option<int>)
  {
    v.Some? && v.value != 0
  }
}
