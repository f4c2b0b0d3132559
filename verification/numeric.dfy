/** Exact real-number counterparts of the Python arithmetic helpers that
    `kbn_conf` uses: `max`, `min`, `abs`, integer powers, `gamma(n + 1)` on integers
    and `int()` truncation. Floating-point rounding is not modelled. */
module Numeric {

  /** Python `max(x, y)`: the first argument unless the second is larger. */
  function Max(x: real, y: real): (r: real)
    ensures r >= x && r >= y
    ensures r == x || r == y
  {
    if y > x then y else x
  }

  /** Python `min(x, y)`: the first argument unless the second is smaller. */
  function Min(x: real, y: real): (r: real)
    ensures r <= x && r <= y
    ensures r == x || r == y
  {
    if y < x then y else x
  }

  function Abs(x: real): (r: real)
    ensures r >= 0.0
    ensures r == x || r == -x
  {
    if x < 0.0 then -x else x
  }

  /** `x ** n` for a non-negative integer exponent; `0.0 ** 0 == 1.0` as in Python. */
  function Pow(x: real, n: nat): real
  {
    if n == 0 then 1.0 else x * Pow(x, n - 1)
  }

  /** `gamma(n + 1)`, that is n!, on non-negative integers. */
  function Fact(n: nat): (r: nat)
    ensures r >= 1
  {
    if n == 0 then 1 else n * Fact(n - 1)
  }

  /** Python `int(x)` on a float: truncation toward zero. */
  function Trunc(x: real): int
  {
    if x >= 0.0 then x.Floor else -((-x).Floor)
  }

  /** `int(x) == x` holds exactly when `x` is an integer, whatever its sign. */
  lemma TruncExact(x: real)
    ensures (Trunc(x) as real == x) <==> (x.Floor as real == x)
    ensures Trunc(x) as real == x ==> Trunc(x) == x.Floor
  {
    if x < 0.0 {
      var k := (-x).Floor;
      if k as real == -x {
        assert x.Floor == -k;
      } else {
        assert k as real < -x < k as real + 1.0;
        assert x.Floor == -k - 1;
      }
    }
  }

  lemma {:induction false} PowNonNegative(x: real, n: nat)
    requires x >= 0.0
    ensures Pow(x, n) >= 0.0
  {
    if n > 0 {
      PowNonNegative(x, n - 1);
    }
  }

  lemma {:induction false} PowPositive(x: real, n: nat)
    requires x > 0.0
    ensures Pow(x, n) > 0.0
  {
    if n > 0 {
      PowPositive(x, n - 1);
    }
  }

  lemma PowZeroBase(n: nat)
    requires n >= 1
    ensures Pow(0.0, n) == 0.0
  {
  }
}
