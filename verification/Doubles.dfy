/**
 Floating-point numbers: Python's float, for numbers that are not negative.  A
 result is rounded to 53 significant bits, to the even neighbour on a tie
 (roundTiesToEven of IEEE 754).  The exponent has no bounds here.
 */
module Doubles {

  const TWO_52: real := 4503599627370496.0
  const TWO_53: real := 9007199254740992.0

  /** The nearest whole number, the even one on a tie. */
  function HalfEven(y: real): int {
    var k := y.Floor;
    var rest := y - k as real;
    if rest < 0.5 || (rest == 0.5 && k % 2 == 0) then k else k + 1
  }

  lemma HalfEvenNearest(y: real)
    ensures -0.5 <= HalfEven(y) as real - y <= 0.5
    ensures HalfEven(y) as real - y == 0.5 || HalfEven(y) as real - y == -0.5 ==> HalfEven(y) % 2 == 0
  {
  }

  /** The float nearest to x. */
  function Double(x: real): (r: real)
    requires x >= 0.0
    ensures r >= 0.0 && (x > 0.0 ==> r > 0.0)
    decreases x < 1.0, if 0.0 < x < 1.0 then (1.0 / x).Floor else x.Floor
  {
    if x == 0.0 then 0.0
    else if x >= 2.0 then 2.0 * Double(x / 2.0)
    else if x >= 1.0 then HalfEven(x * TWO_52) as real / TWO_52
    else
      assert (1.0 / (2.0 * x)).Floor < (1.0 / x).Floor by { HalfAsOften(x); }
      Double(2.0 * x) / 2.0
  }

  lemma HalfAsOften(x: real)
    requires 0.0 < x < 1.0
    ensures (1.0 / (2.0 * x)).Floor < (1.0 / x).Floor
  {
    assert 1.0 / x * x == 1.0;
    assert 1.0 / x > 1.0;
    assert 1.0 / (2.0 * x) == 1.0 / x / 2.0;
  }

  /** Half a unit in the last place less, and more. */
  function Down(x: real): real {
    x - x / TWO_53
  }

  function Up(x: real): real {
    x + x / TWO_53
  }

  /** Rounding moves a number by at most one part in 2^53. */
  lemma {:induction false} RelativeError(x: real)
    requires x >= 0.0
    ensures Down(x) <= Double(x) <= Up(x)
    decreases x < 1.0, if 0.0 < x < 1.0 then (1.0 / x).Floor else x.Floor
  {
    if x >= 2.0 {
      RelativeError(x / 2.0);
    } else if 0.0 < x < 1.0 {
      HalfAsOften(x);
      RelativeError(2.0 * x);
    }
  }

  /** Scaling by two rounds to the scaled result. */
  lemma {:induction false} Doubled(x: real)
    requires x > 0.0
    ensures Double(2.0 * x) == 2.0 * Double(x)
  {
  }

  lemma DoubledTen(x: real)
    requires x > 0.0
    ensures Double(1024.0 * x) == 1024.0 * Double(x)
  {
    DoubledFive(x);
    DoubledFive(32.0 * x);
  }

  lemma DoubledFive(x: real)
    requires x > 0.0
    ensures Double(32.0 * x) == 32.0 * Double(x)
  {
    Doubled(x);
    Doubled(2.0 * x);
    Doubled(4.0 * x);
    Doubled(8.0 * x);
    Doubled(16.0 * x);
  }

  /** Between 1 and 2 the last place is worth 2^-52. */
  lemma InBinade(x: real, k: int)
    requires 1.0 <= x < 2.0 && k == HalfEven(x * TWO_52)
    ensures Double(x) == k as real / TWO_52
  {
  }
}
