/** The decimal arithmetic that the ledgers rely on: one division at forty significant
    digits, and rounding half up to a currency's smallest unit. */
module Decimals {
  import opened Prelude

  /** Ten to the thirty-ninth: the smallest coefficient with forty digits. */
  const LEAD := 1_000_000_000_000_000_000_000_000_000_000_000_000_000

  /** The ledger's value column holds 26 digits, so its amounts stay below this many units. */
  const LEDGER_COLUMN := 100_000_000_000_000_000_000_000_000

  function Pow10(n: nat): (r: int)
    ensures 1 <= r
  {
    if n == 0 then 1 else 10 * Pow10(n - 1)
  }

  /** n / d rounded to an integer, ties to the even neighbour. */
  function HalfEven(n: nat, d: int): (r: nat)
    requires 0 < d
    ensures -d <= 2 * (r * d - n) <= d
  {
    var q, rest := n / d, n % d;
    assert n == q * d + rest;
    assert (q + 1) * d == q * d + d;
    if 2 * rest < d || (2 * rest == d && q % 2 == 0) then q else q + 1
  }

  /** How many decimal places a quotient needs before its coefficient has forty digits. */
  function Shift(v: int, p: int): (k: nat)
    requires 0 < v && 0 < p
    ensures LEAD * p <= v * Pow10(k)
    ensures k == 0 || v * Pow10(k - 1) < LEAD * p
    decreases if v < LEAD * p then LEAD * p - v else 0
  {
    if LEAD * p <= v then 0 else
      var k := Shift(10 * v, p);
      assert v * Pow10(k + 1) == 10 * v * Pow10(k);
      assert k != 0 ==> v * Pow10(k) == 10 * v * Pow10(k - 1);
      k + 1
  }

  /** The decimal quotient v / p at forty significant digits, half even, then cut to an
      integer number of units. A quotient with more than forty digits before the cut
      cannot be quantized: Python raises InvalidOperation there. */
  function QuotientUnits(v: int, p: int): Option<int>
    requires 0 < v && 0 < p
  {
    if 10 * LEAD * p <= v then None else Some(RoundAndCut(v, p, Pow10(Shift(v, p))))
  }

  /** v / p rounded half even at scale K, then cut to an integer. */
  function RoundAndCut(v: nat, p: int, K: int): nat
    requires 0 < p && 0 < K
  {
    MulLe(0, v, K);
    HalfEven(v * K, p) / K
  }

  lemma MulLe(a: int, b: int, c: int)
    requires a <= b && 0 <= c
    ensures a * c <= b * c
  {
  }

  lemma MulCancel(a: int, b: int, c: int)
    requires 0 < c && a * c < b * c
    ensures a < b
  {
  }

  /** The shifted dividend is large enough that half a unit in the fortieth digit is
      smaller than the gap between two quotients with divisor p. */
  lemma ShiftIsFine(v: int, p: int)
    requires 0 < p && 0 < v < 2 * LEAD
    ensures p < 2 * Pow10(Shift(v, p))
  {
    var K := Pow10(Shift(v, p));
    MulLe(v + 1, 2 * LEAD, K);
    assert (v + 1) * K == v * K + K;
    assert p * LEAD < 2 * K * LEAD;
    MulCancel(p, 2 * K, LEAD);
  }

  /** With divisor p and scale K, a rounded coefficient m of v * K lies in the K-interval
      of the integer quotient n. */
  lemma RoundedStaysInInterval(v: int, p: int, K: int, m: int, n: int, s: int)
    requires 0 < p < 2 * K && 0 <= s < p && v == n * p + s
    requires -p <= 2 * (m * p - v * K) <= p
    ensures n * K <= m < (n + 1) * K
  {
    MulLe(0, s, K);
    MulLe(s + 1, p, K);
    Spread(s, 1, K);
    Spread(n * p, s, K);
    Spread(n * K, -1, p);
    Spread(n, 1, K);
    Spread(n * K, K, p);
    Swap(n, p, K);
    BetweenMultiples(m * p, v * K, n * K * p, s * K, p * K, p, K);
    MulCancel(n * K - 1, m, p);
    MulCancel(m, n * K + K, p);
  }

  lemma Spread(x: int, y: int, k: int)
    ensures (x + y) * k == x * k + y * k
  {
  }

  lemma Swap(n: int, p: int, K: int)
    ensures n * p * K == n * K * p
  {
  }

  lemma BetweenMultiples(mp: int, vK: int, nKp: int, sK: int, pK: int, p: int, K: int)
    requires vK == nKp + sK && 0 <= sK && sK + K <= pK && 0 < p < 2 * K
    requires -p <= 2 * (mp - vK) <= p
    ensures nKp - p < mp < nKp + pK
  {
  }

  /** Rounding at the fortieth digit never lifts a quotient over the next integer and
      never drops it below its own floor, so the cut gives the exact integer quotient. */
  lemma QuotientIsFloor(v: int, p: int)
    requires 0 < p && 0 < v < 2 * LEAD
    ensures QuotientUnits(v, p) == Some(v / p)
  {
    ShiftIsFine(v, p);
    RoundAndCutIsFloor(v, p, Pow10(Shift(v, p)));
    MulLe(1, p, LEAD);
  }

  lemma RoundAndCutIsFloor(v: nat, p: int, K: int)
    requires 0 < p < 2 * K
    ensures RoundAndCut(v, p, K) == v / p
  {
    MulLe(0, v, K);
    var m := HalfEven(v * K, p);
    RoundedStaysInInterval(v, p, K, m, v / p, v % p);
    FloorOfBetween(m, v / p, K);
  }

  lemma FloorOfBetween(m: int, n: int, K: int)
    requires 0 < K && n * K <= m < (n + 1) * K
    ensures m / K == n
  {
    var q := m / K;
    assert q * K <= m < (q + 1) * K;
    MulCancel(n, q + 1, K);
    MulCancel(q, n + 1, K);
  }

  /** Every dividend that fits the ledger column divides exactly. */
  lemma LedgerQuotientIsFloor(v: int, p: int)
    requires 0 < p && 0 < v < LEDGER_COLUMN
    ensures QuotientUnits(v, p) == Some(v / p)
  {
    QuotientIsFloor(v, p);
  }

  /** n / d for n >= 0, ties rounded up: ROUND_HALF_UP on amounts that are never negative. */
  function HalfUp(n: nat, d: int): (r: nat)
    requires 0 < d
    ensures -d <= 2 * (n - r * d) < d
  {
    var q, rest := n / d, n % d;
    assert n == q * d + rest;
    assert (q + 1) * d == q * d + d;
    if 2 * rest < d then q else q + 1
  }

  /** The currencies whose smallest amounts differ: Toman and Rial are whole, others have
      cents. Amounts are counted in hundredths. */
  datatype Currency = Toman | Rial | OtherCurrency

  function UnitOf(c: Currency): (unit: int)
    ensures 0 < unit
  {
    if c.OtherCurrency? then 1 else 1_00
  }

  /** An amount rounded half up to the currency's smallest unit; nothing below zero is paid. */
  function Money(value: int, c: Currency): (amount: int)
    ensures 0 <= amount
    ensures 0 <= value ==> -UnitOf(c) <= 2 * (value - amount) < UnitOf(c)
  {
    if value <= 0 then 0 else
      var r := HalfUp(value, UnitOf(c));
      MulLe(0, r, UnitOf(c));
      r * UnitOf(c)
  }

  /** In Toman and Rial an amount is whole and within half a unit of the value, a tie going up;
      in other currencies it is the value itself. */
  lemma MoneyByCurrency(value: int, c: Currency)
    requires 0 <= value
    ensures c.OtherCurrency? ==> Money(value, c) == value
    ensures !c.OtherCurrency? ==> Money(value, c) % 100 == 0 && -100 <= 2 * (value - Money(value, c)) < 100
  {
  }
}
