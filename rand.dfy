/** `Math.random()` as a value supplied from outside: each draw is a real in
    [0, 1), and `Math.floor(Math.random() * k)` is `FloorTimes(draw, k)`. */
module Rand {

  type Unit = r: real | 0.0 <= r < 1.0

  /** `Math.floor(r * k)`: a whole number in [0, k). */
  function FloorTimes(r: Unit, k: nat): (n: nat)
    requires k > 0
    ensures n < k
  {
    var x := r * k as real;
    assert 0.0 <= x < k as real;
    x.Floor
  }

  /** `xs[Math.floor(Math.random() * xs.length)]`: one element of `xs`. */
  function Pick<T>(xs: seq<T>, r: Unit): (x: T)
    requires xs != []
    ensures x in xs
  {
    xs[FloorTimes(r, |xs|)]
  }
}
