/** decimal.Round(d, 2) with its default MidpointRounding.ToEven ("banker's rounding"),
    applied to exact rational values. */
module Rounding {

  /** Rounds y to the nearest integer; a value exactly half-way between two integers
      goes to the even one. */
  function RoundHalfEven(y: real): (n: int)
    ensures -0.5 <= y - n as real <= 0.5
    ensures (y - n as real == 0.5 || n as real - y == 0.5) ==> n % 2 == 0
  {
    var f := y.Floor;
    var d := y - f as real;
    if d < 0.5 then f
    else if d > 0.5 then f + 1
    else if f % 2 == 0 then f
    else f + 1
  }

  /** x is a whole number of hundredths. */
  predicate IsCents(x: real) {
    (x * 100.0).Floor as real == x * 100.0
  }

  /** decimal.Round(x, 2): the nearest multiple of 0.01, ties to an even number of hundredths. */
  function Round2(x: real): (r: real)
    ensures IsCents(r)
    ensures -0.005 <= r - x <= 0.005
    ensures (x - r == 0.005 || r - x == 0.005) ==> (r * 100.0).Floor % 2 == 0
  {
    var n := RoundHalfEven(x * 100.0);
    assert (n as real / 100.0) * 100.0 == n as real;
    n as real / 100.0
  }

  /** Rounding is monotonic: a larger input never rounds to a smaller result. */
  lemma RoundHalfEvenMonotonic(x: real, y: real)
    requires x <= y
    ensures RoundHalfEven(x) <= RoundHalfEven(y)
  {
  }

  lemma Round2Monotonic(x: real, y: real)
    requires x <= y
    ensures Round2(x) <= Round2(y)
  {
    RoundHalfEvenMonotonic(x * 100.0, y * 100.0);
  }

  /** Rounding a value that is already a whole number of hundredths changes nothing,
      so rounding twice is rounding once. */
  lemma Round2OfCents(x: real)
    requires IsCents(x)
    ensures Round2(x) == x
  {
    var n := (x * 100.0).Floor;
    assert RoundHalfEven(x * 100.0) == n;
  }

  lemma Round2Idempotent(x: real)
    ensures Round2(Round2(x)) == Round2(x)
  {
    Round2OfCents(Round2(x));
  }

  /** A non-negative value rounds to a non-negative value, and to zero exactly when it is
      at most 0.005 (0.005 itself is a tie and goes to the even 0.00). */
  lemma Round2ZeroIff(x: real)
    requires x >= 0.0
    ensures Round2(x) >= 0.0
    ensures Round2(x) == 0.0 <==> x <= 0.005
  {
    var n := RoundHalfEven(x * 100.0);
    if x <= 0.005 {
      assert (x * 100.0).Floor == 0;
      assert n == 0;
    }
  }

  /** Ties go to the even neighbour, unlike half-up rounding: 0.125 gives 0.12 and 0.135 gives 0.14. */
  lemma Round2TiesToEven()
    ensures Round2(0.125) == 0.12
    ensures Round2(0.135) == 0.14
    ensures Round2(2.5) == 2.5
  {
    assert (12.5).Floor == 12;
    assert (13.5).Floor == 13;
  }
}
