/** The parts of JavaScript's `Math` object that the kernel uses.
    `Math.sqrt`, `Math.sin` and `Math.cos` are not interpreted: they are passed
    around as a `MathLib` value, and properties that need them to behave like the
    real functions say so through `IsSqrt`. `Math.PI` is a positive constant. */
module JsMath {

  /** The transcendental functions the kernel calls, supplied by the caller. */
  datatype MathLib = MathLib(sqrt: real -> real, sin: real -> real, cos: real -> real)

  /** `Math.PI`, to the precision JavaScript prints it; a positive
      constant. */
  const PI: real := 3.141592653589793

  /** What the kernel relies on of `Math.sqrt`: it maps 0 to 0 and no
      non-negative number to a negative one. */
  ghost predicate IsSqrt(f: real -> real) {
    f(0.0) == 0.0 && forall r :: 0.0 <= r ==> 0.0 <= f(r)
  }

  /** `Math.abs` */
  function Abs(x: real): (r: real)
    ensures 0.0 <= r
    ensures r == x || r == -x
  {
    if x < 0.0 then -x else x
  }

  /** `Math.min` of two numbers */
  function Min(a: real, b: real): (r: real)
    ensures r <= a && r <= b
    ensures r == a || r == b
  {
    if a <= b then a else b
  }

  /** `Math.max` of two numbers */
  function Max(a: real, b: real): (r: real)
    ensures a <= r && b <= r
    ensures r == a || r == b
  {
    if a <= b then b else a
  }
}
