/** Exact-rational stand-ins for the JavaScript Math functions the game uses. */
module Numeric {

  /** Math.abs */
  function Abs(x: real): (r: real)
    ensures r >= 0.0
  {
    if x < 0.0 then -x else x
  }

  /** Math.pow for a natural exponent, computed exactly (JavaScript uses doubles). */
  function Pow(x: real, n: nat): (r: real)
    ensures x > 0.0 ==> r > 0.0
    ensures x >= 1.0 ==> r >= 1.0
  {
    if n == 0 then 1.0 else x * Pow(x, n - 1)
  }
}
