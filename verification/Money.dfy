/**
 Amounts in micro-USD. Floats are read as reals, and the `round3`, `round4` and `round6` helpers as
 rounding half up, without the EPSILON term; an amount rounded to six places is a whole number here.
 */
module Money {

  /** `Math.round(x)`: the nearest whole number, halves going up. */
  function Round(x: real): int { (x + 0.5).Floor }

  function Round3(x: real): real { Round(x * 1000.0) as real / 1000.0 }

  function Round4(x: real): real { Round(x * 10000.0) as real / 10000.0 }

  function Round6(x: real): real { Round(x * 1000000.0) as real / 1000000.0 }

  function MaxReal(a: real, b: real): real { if a < b then b else a }

  function MinReal(a: real, b: real): real { if b < a then b else a }

  function Clamp01(x: real): real { MaxReal(0.0, MinReal(1.0, x)) }

  lemma RoundBounds(x: real)
    ensures Round(x) as real - 0.5 <= x < Round(x) as real + 0.5
  {
  }

  /** A number is an exact one rounded half up to a whole multiple of a unit, as far as its size can tell. */
  predicate Kept(x: real, exact: real, unit: real) { exact - unit / 2.0 < x <= exact + unit / 2.0 }

  lemma Round3Keeps(x: real)
    ensures Kept(Round3(x), x, 0.001)
  {
    RoundBounds(x * 1000.0);
  }

  lemma Round4Keeps(x: real)
    ensures Kept(Round4(x), x, 0.0001)
  {
    RoundBounds(x * 10000.0);
  }

  lemma Round6Keeps(x: real)
    ensures Kept(Round6(x), x, 0.000001)
  {
    RoundBounds(x * 1000000.0);
  }

  lemma RoundWhole(n: int)
    ensures Round(n as real) == n
  {
  }

  lemma RoundMonotone(x: real, y: real)
    requires x <= y
    ensures Round(x) <= Round(y)
  {
  }

  lemma RoundShift(x: real, n: int)
    ensures Round(x + n as real) == Round(x) + n
  {
  }

  lemma ClampMonotone(x: real, y: real)
    requires x <= y
    ensures 0.0 <= Clamp01(x) <= Clamp01(y) <= 1.0
  {
  }

  function Product(x: real, y: real): real { x * y }

  lemma PositiveProduct(x: real, y: real)
    requires x > 0.0 && y > 0.0
    ensures x * y > 0.0
  {
  }

  lemma NonNegativeProduct(x: real, y: real)
    requires x >= 0.0 && y >= 0.0
    ensures x * y >= 0.0
  {
  }

  lemma ProductMonotone(a: real, b: real, u: real, v: real)
    requires 0.0 <= a <= b && 0.0 <= u <= v
    ensures 0.0 <= a * u <= b * v
  {
    assert a * u <= b * u;
    assert b * u <= b * v;
  }

  /** `n` times `p`, added up. */
  function Copies(n: nat, p: real): real { if n == 0 then 0.0 else p + Copies(n - 1, p) }

  lemma {:induction false} CopiesIsProduct(n: nat, p: real)
    ensures Copies(n, p) == n as real * p
  {
    if n > 0 {
      CopiesIsProduct(n - 1, p);
      OneMoreCopy((n - 1) as real, p);
    }
  }

  lemma {:induction false} OneMoreCopy(n: real, p: real)
    ensures p + n * p == (n + 1.0) * p
  {
  }
}
