/**
 Fixed-point money: shadowfiend/common/utils.py.

 A metered cost is a decimal number, modelled as a real.  Everything the ledger
 stores is a whole number of units of 0.0001, modelled as an int.
 */
module Money {

  const UNITS: real := 10000.0

  /** Half-up rounding to four decimals: a tie goes away from zero. */
  function Quantize(cost: real): int {
    if cost >= 0.0 then (cost * UNITS + 0.5).Floor else -(-cost * UNITS + 0.5).Floor
  }

  /** n is a whole number of units closest to cost, and on a tie the one further from zero. */
  predicate IsHalfUp(cost: real, n: int) {
    var exact := cost * 10000.0;
    && -0.5 <= n as real - exact <= 0.5
    && (n as real - exact == 0.5 ==> exact > 0.0)
    && (n as real - exact == -0.5 ==> exact < 0.0)
  }

  /** Quantize is half-up rounding, and no other function is. */
  lemma QuantizeIsHalfUp(cost: real, n: int)
    ensures n == Quantize(cost) <==> IsHalfUp(cost, n)
  {
  }

  /** Rounding keeps the order of costs. */
  lemma QuantizeMonotone(a: real, b: real)
    requires a <= b
    ensures Quantize(a) <= Quantize(b)
  {
  }

  /** A refund rounds like the cost it undoes. */
  lemma QuantizeOdd(a: real)
    ensures Quantize(-a) == -Quantize(a)
  {
  }

  /** What has been rounded once is not moved by rounding again. */
  lemma QuantizeIdempotent(cost: real)
    ensures Quantize(Quantize(cost) as real / UNITS) == Quantize(cost)
  {
  }

  function ExactTotal(costs: seq<real>): real {
    if costs == [] then 0.0 else ExactTotal(costs[..|costs| - 1]) + costs[|costs| - 1]
  }

  function BilledTotal(costs: seq<real>): int {
    if costs == [] then 0 else BilledTotal(costs[..|costs| - 1]) + Quantize(costs[|costs| - 1])
  }

  /** n rounded settlements are within n half units of the exact metered total. */
  lemma {:induction false} RoundingErrorBound(costs: seq<real>)
    ensures -(|costs| as real) * 0.5 <= BilledTotal(costs) as real - ExactTotal(costs) * UNITS <= |costs| as real * 0.5
  {
    if costs == [] {
    } else {
      var front, last := costs[..|costs| - 1], costs[|costs| - 1];
      RoundingErrorBound(front);
      QuantizeIsHalfUp(last, Quantize(last));
    }
  }
}
