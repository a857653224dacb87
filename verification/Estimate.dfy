/**
 How many days an account lasts: ExistAccountController.estimate in
 shadowfiend/api/controllers/v1/account.py.
 */
module Estimate {
  import opened Wrappers
  import opened Doubles
  import opened Money
  import opened Tables
  import opened LedgerLaws

  const IN_DEBT := -2
  const NO_COST := -1

  function Quotient(x: real, y: real): (r: real)
    requires x >= 0.0 && y > 0.0
    ensures r >= 0.0 && r * y == x
  {
    x / y
  }

  /**
   The remaining days for a balance in units and a price per hour, which is a
   float; the balance becomes one, and so does every result.  A negative price
   raises.
   */
  function RemainingDays(balance: int, pricePerHour: real): Option<int> {
    if pricePerHour == 0.0 then Some(if balance < 0 then IN_DEBT else NO_COST)
    else if pricePerHour > 0.0 then
      if balance < 0 then Some(IN_DEBT)
      else
        var pricePerDay := Double(pricePerHour * 24.0);
        Some(Double(Quotient(Double(balance as real / UNITS), pricePerDay)).Floor)
    else None
  }

  /** The answers that are no number of days. */
  lemma NoDays(balance: int, pricePerHour: real)
    ensures balance < 0 && pricePerHour >= 0.0 ==> RemainingDays(balance, pricePerHour) == Some(-2)
    ensures balance >= 0 && pricePerHour == 0.0 ==> RemainingDays(balance, pricePerHour) == Some(-1)
    ensures pricePerHour < 0.0 <==> RemainingDays(balance, pricePerHour) == None
    ensures balance >= 0 && pricePerHour > 0.0 ==> RemainingDays(balance, pricePerHour).value >= 0
  {
  }

  /** A price of q units an hour as a float. */
  function Price(q: nat): (price: real)
    ensures price >= 0.0 && (q > 0 ==> price > 0.0)
  {
    Double(q as real / UNITS)
  }

  /** The balance pays for d days and for less than d + 1, or it is used up to the unit after d + 1. */
  predicate Covers(balance: int, q: nat, d: int) {
    d >= 0 && q * (24 * d) <= balance <= q * (24 * (d + 1))
  }

  lemma Times(a: real, x: real, y: real)
    requires a >= 0.0 && x <= y
    ensures a * x <= a * y
  {
  }

  /** d days at the price of a day are 24 * d hours at the price of an hour. */
  lemma Regroup(d: int, q: nat)
    ensures d as real * (24.0 * (q as real / UNITS)) == (q * (24 * d)) as real / UNITS
  {
    assert (q * (24 * d)) as real == 24.0 * (d as real * q as real);
  }

  /** r is x but for one rounding. */
  predicate Near(x: real, r: real) {
    Down(x) <= r <= Up(x)
  }

  /** r is x but for two roundings. */
  predicate Near2(x: real, r: real) {
    Down(Down(x)) <= r <= Up(Up(x))
  }

  lemma ScaleRounding(a: real, x: real)
    ensures a * Down(x) == Down(a * x) && a * Up(x) == Up(a * x)
  {
  }

  lemma NearScales(a: real, x: real, r: real)
    requires a >= 0.0 && Near(x, r)
    ensures Near(a * x, a * r)
  {
    ScaleRounding(a, x);
    Times(a, Down(x), r);
    Times(a, r, Up(x));
  }

  lemma Near2Scales(a: real, x: real, r: real)
    requires a >= 0.0 && Near2(x, r)
    ensures Near2(a * x, a * r)
  {
    ScaleRounding(a, x);
    ScaleRounding(a, Down(x));
    ScaleRounding(a, Up(x));
    Times(a, Down(Down(x)), r);
    Times(a, r, Up(Up(x)));
  }

  /** The price of a day is 24 hours but for two roundings. */
  lemma DayPrice(q: nat)
    ensures Near2(24.0 * (q as real / UNITS), Double(Price(q) * 24.0))
  {
    RelativeError(q as real / UNITS);
    RelativeError(Price(q) * 24.0);
  }

  lemma DaysPrice(d: nat, q: nat, day: real)
    requires Near2(24.0 * (q as real / UNITS), day)
    ensures Near2((q * (24 * d)) as real / UNITS, d as real * day)
  {
    Near2Scales(d as real, 24.0 * (q as real / UNITS), day);
    Regroup(d, q);
  }

  /** A rounded quotient times the divisor is the dividend but for one rounding. */
  lemma QuotientBack(balance: real, day: real, rounded: real)
    requires balance >= 0.0 && day > 0.0 && Near(Quotient(balance, day), rounded)
    ensures Near(balance, rounded * day)
  {
    NearScales(day, Quotient(balance, day), rounded);
    assert day * Quotient(balance, day) == balance;
  }

  /** The roundings on the way from the balance to the price of whole days, in one chain. */
  lemma Chain(balance: real, money: real, value: real, days: real, price: real)
    requires Near(balance / UNITS, money) && Near(money, value) && Near2(price / UNITS, days)
    ensures days <= value ==> Down(Down(price)) <= Up(Up(balance))
    ensures value <= days ==> Down(Down(balance)) <= Up(Up(price))
  {
  }

  lemma OrderTimes(x: real, y: real, day: real)
    requires day > 0.0
    ensures x <= y ==> x * day <= y * day
    ensures y <= x ==> y * day <= x * day
  {
    if x <= y {
      Times(day, x, y);
    }
    if y <= x {
      Times(day, y, x);
    }
  }

  /** What n whole days come to at the price of a day, beside what the rounded quotient comes to. */
  lemma PricedDays(q: nat, n: nat, day: real, days: real) returns (price: real)
    requires Near2(24.0 * (q as real / UNITS), day) && day > 0.0
    ensures Near2((q * (24 * n)) as real / UNITS, price)
    ensures n as real <= days ==> price <= days * day
    ensures days <= n as real ==> days * day <= price
  {
    price := n as real * day;
    DaysPrice(n, q, day);
    OrderTimes(n as real, days, day);
  }

  /** Whole days no longer than the quotient are paid by the balance, and no shorter ones are not, but for roundings. */
  lemma WholeDays(balance: nat, q: nat, n: nat, money: real, day: real, days: real)
    requires Near(balance as real / UNITS, money) && Near(money, days * day)
    requires Near2(24.0 * (q as real / UNITS), day) && day > 0.0
    ensures n as real <= days ==> Down(Down((q * (24 * n)) as real)) <= Up(Up(balance as real))
    ensures days <= n as real ==> Down(Down(balance as real)) <= Up(Up((q * (24 * n)) as real))
  {
    var price := PricedDays(q, n, day, days);
    Chain(balance as real, money, days * day, price, (q * (24 * n)) as real);
  }

  /** What the roundings leave of the estimate, for a balance of any size. */
  lemma DaysBound(balance: nat, q: nat, d: int)
    requires q > 0 && RemainingDays(balance, Price(q)) == Some(d)
    ensures d >= 0
    ensures Down(Down((q * (24 * d)) as real)) <= Up(Up(balance as real))
    ensures Down(Down(balance as real)) <= Up(Up((q * (24 * (d + 1))) as real))
  {
    var money, day := Double(balance as real / UNITS), Double(Price(q) * 24.0);
    RelativeError(balance as real / UNITS);
    DayPrice(q);
    RelativeError(Quotient(money, day));
    var days := Double(Quotient(money, day));
    QuotientBack(money, day, days);
    WholeDays(balance, q, d, money, day, days);
    WholeDays(balance, q, d + 1, money, day, days);
  }

  const EXACT_BELOW := 0x8_0000_0000_0000

  /** Whole numbers this close together are in order when they are below 2^51. */
  lemma InOrder(a: int, b: nat)
    requires 0 <= a && (a < EXACT_BELOW || b < EXACT_BELOW)
    requires Down(Down(a as real)) <= Up(Up(b as real))
    ensures a <= b
  {
  }

  lemma Multiples(m: nat, a: int, b: int)
    requires a <= b
    ensures m * a <= m * b
  {
  }

  lemma Bracket(b: nat, m: nat, k: int, rest: nat, d: nat)
    requires b == m * k + rest && rest < m
    ensures m * d <= b <= m * d + m <==> d == k || (rest == 0 && d == k - 1)
  {
    if d > k {
      Multiples(m, k + 1, d);
    } else if d < k - 1 {
      Multiples(m, d, k - 2);
    }
  }

  lemma PerDay(q: nat, d: int)
    ensures q * (24 * d) == 24 * q * d && q * (24 * (d + 1)) == 24 * q * d + 24 * q
  {
  }

  /** Such a d is the exact quotient, or one less when the division leaves no rest. */
  lemma CoversIff(balance: nat, q: nat, d: nat)
    requires q > 0
    ensures Covers(balance, q, d)
      <==> d == balance / (24 * q) || (balance % (24 * q) == 0 && d == balance / (24 * q) - 1)
  {
    PerDay(q, d);
    var day := 24 * q;
    Bracket(balance, day, balance / day, balance % day, d);
  }

  /** A balance below 2^51 units is bracketed by the days answered. */
  lemma DaysCovered(balance: nat, q: nat, d: int)
    requires q > 0 && balance < EXACT_BELOW && RemainingDays(balance, Price(q)) == Some(d)
    ensures Covers(balance, q, d)
  {
    DaysBound(balance, q, d);
    NonNegativeProduct(q, 24 * d);
    NonNegativeProduct(q, 24 * (d + 1));
    InOrder(q * (24 * d), balance);
    InOrder(balance, q * (24 * (d + 1)));
  }

  lemma NonNegativeProduct(a: nat, b: nat)
    ensures a * b >= 0
  {
  }

  function Hourly(price: real, n: nat): (costs: seq<real>)
    ensures |costs| == n
  {
    seq(n, i => price)
  }

  lemma {:induction false} HourlyTotal(q: nat, n: nat)
    ensures BilledTotal(Hourly(q as real / UNITS, n)) == q * n
  {
    if n == 0 {
    } else {
      var price := q as real / UNITS;
      HourlyTotal(q, n - 1);
      assert Hourly(price, n)[..n - 1] == Hourly(price, n - 1);
      QuantizeIsHalfUp(price, q);
    }
  }

  lemma HourlySnoc(u: UserId, p: ProjectId, price: real, n: nat, clock: nat -> int)
    ensures Settlements(u, p, Hourly(price, n + 1), clock)
      == Settlements(u, p, Hourly(price, n), clock) + [UpdateAccount(u, p, price, clock(n))]
  {
  }

  /** Settlements keep the flag of an account exact. */
  lemma {:induction false} HourlyFlag(t: Tables, u: UserId, p: ProjectId, price: real, n: nat, clock: nat -> int)
    requires u in t.accounts && p in t.projects && (u, p) in t.relations && OwedExact(t.accounts[u]) && price >= 0.0
    ensures var t' := Run(t, Settlements(u, p, Hourly(price, n), clock));
      && u in t'.accounts && p in t'.projects && (u, p) in t'.relations
      && OwedExact(t'.accounts[u])
  {
    if n == 0 {
    } else {
      HourlyFlag(t, u, p, price, n - 1, clock);
      HourlySnoc(u, p, price, n - 1, clock);
      RunSnoc(t, Settlements(u, p, Hourly(price, n - 1), clock), UpdateAccount(u, p, price, clock(n - 1)));
      QuantizeMonotone(0.0, price);
    }
  }

  lemma MonotoneTimes(q: nat, a: nat, b: nat)
    ensures a <= b ==> q * a <= q * b
    ensures q > 0 && a < b ==> q * a < q * b
  {
  }

  lemma PaidHours(balance: int, q: nat, d: int, n: nat)
    requires q > 0 && Covers(balance, q, d)
    ensures balance >= 0
    ensures n <= 24 * d ==> q * n <= balance
    ensures n > 24 * (d + 1) ==> balance < q * n
  {
    NonNegativeProduct(q, 24 * d);
    MonotoneTimes(q, n, 24 * d);
    MonotoneTimes(q, 24 * (d + 1), n);
  }

  lemma AfterHours(t: Tables, u: UserId, p: ProjectId, q: nat, n: nat, clock: nat -> int)
    requires u in t.accounts && p in t.projects && (u, p) in t.relations && OwedExact(t.accounts[u])
    ensures var t' := Run(t, Settlements(u, p, Hourly(q as real / UNITS, n), clock));
      u in t'.accounts && OwedExact(t'.accounts[u]) && t'.accounts[u].balance == t.accounts[u].balance - q * n
  {
    SettlementsStayTogether(t, u, p, Hourly(q as real / UNITS, n), clock);
    HourlyTotal(q, n);
    HourlyFlag(t, u, p, q as real / UNITS, n, clock);
  }

  /**
   If every hour costs the estimated price and nothing is charged, the account
   is not in debt after any of the first 24 * d settlements; it is in debt, and
   flagged, after more than 24 * (d + 1), and after exactly that many unless the
   balance was used up to the unit.
   */
  lemma CoveredDays(t: Tables, u: UserId, p: ProjectId, q: nat, d: int, n: nat, clock: nat -> int)
    requires u in t.accounts && p in t.projects && (u, p) in t.relations
    requires !t.accounts[u].owed && q > 0 && Covers(t.accounts[u].balance, q, d)
    ensures var t' := Run(t, Settlements(u, p, Hourly(q as real / UNITS, n), clock));
      && u in t'.accounts
      && (n <= 24 * d ==> t'.accounts[u].balance >= 0 && !t'.accounts[u].owed)
      && (n > 24 * (d + 1) ==> t'.accounts[u].balance < 0 && t'.accounts[u].owed)
      && (n == 24 * (d + 1) ==> (t'.accounts[u].owed <==> t.accounts[u].balance < q * n))
  {
    PaidHours(t.accounts[u].balance, q, d, n);
    AfterHours(t, u, p, q, n, clock);
  }

  /**
   The answered days are such days for every balance below 2^51 units.  Unless the
   balance is a whole number of days the answer is the exact quotient, and the
   account is owed from 24 * (d + 1) settlements on.
   */
  lemma EstimateIsRight(t: Tables, u: UserId, p: ProjectId, q: nat, d: int, n: nat, clock: nat -> int)
    requires u in t.accounts && p in t.projects && (u, p) in t.relations
    requires 0 <= t.accounts[u].balance < EXACT_BELOW && !t.accounts[u].owed && q > 0
    requires RemainingDays(t.accounts[u].balance, Price(q)) == Some(d)
    ensures d >= 0
    ensures var t' := Run(t, Settlements(u, p, Hourly(q as real / UNITS, n), clock));
      && u in t'.accounts
      && (n <= 24 * d ==> t'.accounts[u].balance >= 0 && !t'.accounts[u].owed)
      && (n > 24 * (d + 1) ==> t'.accounts[u].balance < 0 && t'.accounts[u].owed)
      && (n == 24 * (d + 1) ==> (t'.accounts[u].owed <==> t.accounts[u].balance < q * n))
      && (t.accounts[u].balance % (24 * q) != 0 ==>
            d == t.accounts[u].balance / (24 * q) && (n >= 24 * (d + 1) ==> t'.accounts[u].owed))
  {
    DaysCovered(t.accounts[u].balance, q, d);
    CoveredDays(t, u, p, q, d, n, clock);
    CoversIff(t.accounts[u].balance, q, d);
    if t.accounts[u].balance % (24 * q) != 0 {
      NotUsedUp(t.accounts[u].balance, q, d);
    }
  }

  lemma NotUsedUp(balance: nat, q: nat, d: nat)
    requires q > 0 && Covers(balance, q, d) && balance % (24 * q) != 0
    ensures balance < q * (24 * (d + 1))
  {
    PerDay(q, d + 1);
    if balance == q * (24 * (d + 1)) {
      WholeDivides(24 * q, d + 1);
    }
  }

  lemma WholeDivides(m: nat, k: nat)
    requires m > 0
    ensures (m * k) % m == 0
  {
    Bracket(m * k, m, (m * k) / m, (m * k) % m, k);
  }

  // ---------- Where roundings show ----------

  lemma BalanceAsFloat()
    ensures Double(7.2) == 8106479329266893.0 / TWO_52 * 4.0
  {
    InBinade(1.8, 8106479329266893);
    Doubled(1.8);
    Doubled(3.6);
  }

  lemma PriceAsFloat()
    ensures Price(1000) == 7205759403792794.0 / TWO_52 / 16.0
  {
    InBinade(1.6, 7205759403792794);
    Doubled(0.8);
    Doubled(0.4);
    Doubled(0.2);
    Doubled(0.1);
  }

  /** The product is half way between two floats and goes to the even one. */
  lemma DayPriceAsFloat(hour: real)
    requires hour == 7205759403792794.0 / TWO_52 / 16.0
    ensures Double(hour * 24.0) == 5404319552844596.0 / TWO_52 * 2.0
  {
    InBinade(hour * 12.0, 5404319552844596);
    Doubled(hour * 12.0);
  }

  lemma DaysAsFloat(money: real, day: real)
    requires money == 8106479329266893.0 / TWO_52 * 4.0 && day == 5404319552844596.0 / TWO_52 * 2.0
    ensures Double(Quotient(money, day)) == 6755399441055743.0 / TWO_52 * 2.0
  {
    var half := Quotient(money, day) / 2.0;
    assert half * 5404319552844596.0 == 8106479329266893.0;
    InBinade(half, 6755399441055743);
    Doubled(half);
  }

  /**
   At a balance of 7.2 and a price of 0.1 an hour the quotient of the floats is
   just below 3: the answer is 2 days, and after 72 hours the balance is zero.
   */
  lemma OneDayLess()
    ensures RemainingDays(72000, Price(1000)) == Some(2)
    ensures 72000 == 1000 * (24 * 3)
  {
    BalanceAsFloat();
    PriceAsFloat();
    DayPriceAsFloat(Price(1000));
    DaysAsFloat(Double(7.2), Double(Price(1000) * 24.0));
  }

  const LARGE := 0x10_0000_0000

  lemma LargeBalanceAsFloat(x: real)
    requires x == 1.5 - 0.0001 / 1099511627776.0
    ensures Double(1024.0 * (1024.0 * (1024.0 * (1024.0 * x)))) == 24.0 * LARGE as real
  {
    InBinade(x, 6755399441055744);
    DoubledTen(x);
    DoubledTen(1024.0 * x);
    DoubledTen(1024.0 * (1024.0 * x));
    DoubledTen(1024.0 * (1024.0 * (1024.0 * x)));
  }

  lemma WholeNumberAsFloat(one: real)
    requires one == 1.0
    ensures Double(one) == 1.0
    ensures Double(24.0 * one) == 24.0
    ensures Double(64.0 * (1024.0 * (1024.0 * (1024.0 * one)))) == LARGE as real
  {
    InBinade(one, 4503599627370496);
    InBinade(1.5 * one, 6755399441055744);
    Doubled(1.5 * one);
    Doubled(3.0 * one);
    Doubled(6.0 * one);
    Doubled(12.0 * one);
    DoubledTen(one);
    DoubledTen(1024.0 * one);
    DoubledTen(1024.0 * (1024.0 * one));
    DoubledFive(1024.0 * (1024.0 * (1024.0 * one)));
    Doubled(32.0 * (1024.0 * (1024.0 * (1024.0 * one))));
  }

  /**
   A balance of 2^51 units and more can be rounded up to the price of a whole
   day: one unit short of 2^36 days at 1.0 an hour is answered as 2^36 days.
   */
  lemma OneDayMore()
    ensures RemainingDays(10000 * (24 * LARGE) - 1, Price(10000)) == Some(LARGE)
    ensures !Covers(10000 * (24 * LARGE) - 1, 10000, LARGE)
  {
    LargeBalanceAsFloat(1.5 - 0.0001 / 1099511627776.0);
    WholeNumberAsFloat(1.0);
    assert Quotient(24.0 * LARGE as real, 24.0) == LARGE as real;
  }
}
