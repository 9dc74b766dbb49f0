/** Python's two-argument `min` and `max` on numbers, as the formulas use them. */
module Numeric {

  /** `min(a, b)`: `a` unless `b` is strictly smaller. */
  function Min(a: real, b: real): (m: real)
    ensures m <= a && m <= b
    ensures m == a || m == b
  {
    if b < a then b else a
  }

  /** `max(a, b)`: `a` unless `b` is strictly larger. */
  function Max(a: real, b: real): (m: real)
    ensures m >= a && m >= b
    ensures m == a || m == b
  {
    if b > a then b else a
  }

  /** A product of two non-negative numbers is non-negative. */
  lemma ProductoNoNegativo(a: real, b: real)
    ensures 0.0 <= a && 0.0 <= b ==> 0.0 <= a * b
  {
  }

  /** A product of two positive numbers is positive. */
  lemma ProductoPositivo(a: real, b: real)
    ensures 0.0 < a && 0.0 < b ==> 0.0 < a * b
  {
  }
}
