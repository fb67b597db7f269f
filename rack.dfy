/// Small pieces of the host environment that the modules rely on: an input
/// port that may or may not be patched, the linear `rescale` helper, the
/// `quadraticBipolar` taper and C++'s float-to-int conversion.
module Rack {

  /** A control input: `Some(v)` when a cable is patched and carries voltage v,
      `None` when the port is disconnected. */
  datatype Option<+T> = None | Some(value: T)

  /** Linear map taking [x0, x1] onto [y0, y1], as the host's `rescale` does. */
  function Rescale(x: real, x0: real, x1: real, y0: real, y1: real): (r: real)
    requires x0 != x1
    ensures x == x0 ==> r == y0
    ensures x == x1 ==> r == y1
  {
    DivSelf(x1 - x0);
    assert x == x1 ==> (x - x0) / (x1 - x0) == 1.0;
    y0 + (x - x0) / (x1 - x0) * (y1 - y0)
  }

  lemma DivSelf(a: real)
    requires a != 0.0
    ensures a / a == 1.0
  {
  }

  /** Rescaling into a range and back out of it gives the original value. */
  lemma RescaleRoundTrip(x: real, x0: real, x1: real, y0: real, y1: real)
    requires x0 != x1 && y0 != y1
    ensures Rescale(Rescale(x, x0, x1, y0, y1), y0, y1, x0, x1) == x
  {
    var t := (x - x0) / (x1 - x0);
    var y := y0 + t * (y1 - y0);
    assert (y - y0) / (y1 - y0) == t;
    assert x0 + t * (x1 - x0) == x;
  }

  /** The signed square: keeps the sign of x and squares its size. */
  function QuadraticBipolar(x: real): (r: real)
    ensures 0.0 <= x ==> 0.0 <= r
    ensures x <= 0.0 ==> r <= 0.0
    ensures -1.0 <= x <= 1.0 ==> -1.0 <= r <= 1.0
  {
    if x >= 0.0 then SquareBelow(x); x * x else SquareBelow(-x); -(x * x)
  }

  /** A square is not negative, and a number in [0, 1] bounds its square. */
  lemma SquareBelow(a: real)
    requires 0.0 <= a
    ensures 0.0 <= a * a && (a <= 1.0 ==> a * a <= a)
  {
    if a <= 1.0 {
      assert a * a <= 1.0 * a;
    }
  }

  /** C++ conversion of a float to `int`: truncation toward zero. */
  function TruncToInt(x: real): (r: int)
    ensures 0.0 <= x ==> 0 <= r && r as real <= x < r as real + 1.0
    ensures x < 0.0 ==> r <= 0 && r as real - 1.0 < x <= r as real
  {
    if x >= 0.0 then x.Floor else -((-x).Floor)
  }
}
