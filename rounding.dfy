/**
  Python 3's built-in `round(x)` on a number with no `ndigits`: the nearest
  integer, with exact halves going to the even neighbour ("banker's rounding").
  Every strike of the scanner is produced by this function.
 */
module Rounding {

  /** The fractional part of `x` is exactly one half. */
  predicate IsTie(x: real) {
    x - x.Floor as real == 0.5
  }

  /** `round(x)`: nearest integer, ties to even. */
  function PyRound(x: real): (r: int)
    ensures -0.5 <= x - r as real <= 0.5
    ensures (x - r as real == 0.5 || r as real - x == 0.5) ==> r % 2 == 0
  {
    var f := x.Floor;
    var d := x - f as real;
    if d < 0.5 then f
    else if d > 0.5 then f + 1
    else if f % 2 == 0 then f
    else f + 1
  }

  /** The contract of PyRound determines it: any integer within one half of
      `x`, and even when exactly one half away, is `PyRound(x)`. */
  lemma PyRoundIsNearestEven(x: real, n: int)
    requires -0.5 <= x - n as real <= 0.5
    requires (x - n as real == 0.5 || n as real - x == 0.5) ==> n % 2 == 0
    ensures PyRound(x) == n
  {
  }

  /** A tie exactly when two integers are equally near: the result is then even. */
  lemma PyRoundOnTie(x: real)
    requires IsTie(x)
    ensures PyRound(x) == if x.Floor % 2 == 0 then x.Floor else x.Floor + 1
    ensures PyRound(x) % 2 == 0
  {
  }

  /** Shifting by an integer shifts the floor by the same integer. */
  lemma FloorShift(x: real, k: int)
    ensures (x + k as real).Floor == x.Floor + k
    ensures IsTie(x + k as real) <==> IsTie(x)
  {
  }

  /** `round` is monotone: ties to even never reverses an order. */
  lemma PyRoundMonotone(x: real, y: real)
    requires x <= y
    ensures PyRound(x) <= PyRound(y)
  {
    var rx, ry := PyRound(x), PyRound(y);
    if rx > ry {
      // rx <= x + 1/2 <= y + 1/2 <= ry + 1, so rx == ry + 1, and both are
      // exactly one half from x == y, which the even-tie rule forbids
      assert rx == ry + 1;
      assert x == y;
    }
  }

  /** Shifting by an integer commutes with `round` unless the shift is odd
      and `x` is an exact tie (the tie then goes to the other neighbour). */
  lemma PyRoundShift(x: real, k: int)
    requires k % 2 == 0 || !IsTie(x)
    ensures PyRound(x + k as real) == PyRound(x) + k
  {
    FloorShift(x, k);
    PyRoundIsNearestEven(x + k as real, PyRound(x) + k);
  }

  /** `round(x + 5) - round(x)`: exactly 5 off a tie, 6 or 4 on a tie
      depending on the parity of the floor. */
  lemma PyRoundPlusFive(x: real)
    ensures PyRound(x + 5.0) - PyRound(x) ==
      if !IsTie(x) then 5 else if x.Floor % 2 == 0 then 6 else 4
  {
    FloorShift(x, 5);
    if !IsTie(x) {
      PyRoundShift(x, 5);
    } else {
      PyRoundOnTie(x);
      PyRoundOnTie(x + 5.0);
    }
  }

  /** `round(x) - round(x - 5)`: exactly 5 off a tie, 4 or 6 on a tie
      depending on the parity of the floor. */
  lemma PyRoundMinusFive(x: real)
    ensures PyRound(x) - PyRound(x - 5.0) ==
      if !IsTie(x) then 5 else if x.Floor % 2 == 0 then 4 else 6
  {
    FloorShift(x, -5);
    if !IsTie(x) {
      PyRoundShift(x, -5);
    } else {
      PyRoundOnTie(x);
      PyRoundOnTie(x - 5.0);
    }
  }
}
