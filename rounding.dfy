/**
 * Rounding to one decimal place. Python's `round(x, 1)` rounds half to even,
 * but on binary floating-point values, so which way a tie goes cannot be
 * reproduced on exact reals. The fill rule is therefore parameterised by its
 * rounding function; this module gives the exact decimal reference, Round1,
 * and the error bound that every property needing rounding relies on.
 */
module Rounding {

  /** `round` moves no value by more than half of one tenth. */
  ghost predicate WithinHalfTenth(round: real -> real)
  {
    forall x :: -0.05 <= round(x) - x <= 0.05
  }

  /** No rounding at all: the exact arithmetic "before rounding". */
  function Exact(x: real): real { x }

  /** Rounds to the nearest tenth, a tie going to the even tenth. */
  function Round1(x: real): (r: real)
    ensures -0.05 <= r - x <= 0.05
    ensures (r * 10.0).Floor as real == r * 10.0
  {
    var y := x * 10.0;
    var n := y.Floor;
    var frac := y - n as real;
    var k := if frac < 0.5 then n
             else if frac > 0.5 then n + 1
             else if n % 2 == 0 then n else n + 1;
    k as real / 10.0
  }

  /** A value exactly halfway between two tenths goes to the even one. */
  lemma Round1TieToEven(x: real)
    requires x * 10.0 - (x * 10.0).Floor as real == 0.5
    ensures (Round1(x) * 10.0).Floor % 2 == 0
    ensures -0.05 == Round1(x) - x || Round1(x) - x == 0.05
  {
  }

  /** Round1 is one of the roundings the round-trip guarantee covers. */
  lemma Round1WithinHalfTenth()
    ensures WithinHalfTenth(Round1)
  {
  }
}
