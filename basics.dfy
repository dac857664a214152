/**
 * Shared vocabulary of the rules engine: an optional value, the unit interval
 * that every random draw comes from, and the "multiply by a factor, then round
 * down" step that every balancing formula of the game uses.
 */
module Basics {

  datatype Option<+T> = None | Some(value: T)

  /** A draw of `Math.random()`: a rational in the half-open interval [0, 1). */
  type Unit = r: real | 0.0 <= r < 1.0

  /** `Math.floor(x * factor)`, computed exactly on rationals. */
  function Scale(x: int, factor: real): (r: int)
    ensures r as real <= x as real * factor < r as real + 1.0
  {
    (x as real * factor).Floor
  }

  /** Rounding down is monotone in the scaled amount when the factor is not negative. */
  lemma ScaleMonotoneInAmount(x: int, y: int, factor: real)
    requires x <= y && factor >= 0.0
    ensures Scale(x, factor) <= Scale(y, factor)
  {
    assert x as real * factor <= y as real * factor by {
      assert (y - x) as real * factor >= 0.0;
    }
  }

  /** Rounding down is monotone in the factor when the amount is not negative. */
  lemma ScaleMonotoneInFactor(x: int, f: real, g: real)
    requires x >= 0 && f <= g
    ensures Scale(x, f) <= Scale(x, g)
  {
    assert x as real * f <= x as real * g by {
      assert x as real * (g - f) >= 0.0;
    }
  }

  /** A factor in [0, 1] never enlarges a non-negative amount and never makes it negative. */
  lemma ScaleShrinks(x: int, factor: real)
    requires x >= 0 && 0.0 <= factor <= 1.0
    ensures 0 <= Scale(x, factor) <= x
  {
    ScaleMonotoneInFactor(x, 0.0, factor);
    ScaleMonotoneInFactor(x, factor, 1.0);
  }
}
