/** Decimal quantisation with ties to even, and how a split payout divides an amount. */
module Rounding {

  /** n / d rounded to the nearest integer, ties to the even one. */
  function RoundHalfEven(n: int, d: int): int
    requires d > 0
  {
    var q, r := n / d, n % d;
    if 2 * r < d || (2 * r == d && q % 2 == 0) then q else q + 1
  }

  /** The result is a nearest integer, and of two nearest ones the even one. No other integer is. */
  lemma {:induction false} NearestEven(n: int, d: int, q: int)
    requires d > 0
    ensures q == RoundHalfEven(n, d) <==>
              && -d <= 2 * (d * q - n) <= d
              && (2 * (d * q - n) == d || 2 * (n - d * q) == d ==> q % 2 == 0)
  {
    var f, r := n / d, n % d;
    var e := q - f;
    assert d * q == d * f + d * e;
    assert n == d * f + r;
    var gap := d * q - n;
    assert gap == d * e - r;
    MultipleSteps(d, e);
    assert RoundHalfEven(n, d) == f || RoundHalfEven(n, d) == f + 1;
  }

  lemma {:induction false} MultipleSteps(d: int, e: int)
    requires d > 0
    ensures e <= -1 ==> d * e <= -d
    ensures e == 0 ==> d * e == 0
    ensures e == 1 ==> d * e == d
    ensures e >= 2 ==> d * e >= 2 * d
  {
    if e <= -1 {
      assert d * (-1 - e) >= 0;
    } else if e >= 2 {
      assert d * (e - 2) >= 0;
    }
  }

  lemma {:induction false} RoundMonotone(m: int, n: int, d: int)
    requires d > 0 && m <= n
    ensures RoundHalfEven(m, d) <= RoundHalfEven(n, d)
  {
    DivisionMonotone(m, n, d);
  }

  lemma {:induction false} DivisionMonotone(m: int, n: int, d: int)
    requires d > 0 && m <= n
    ensures m / d < n / d || (m / d == n / d && m % d <= n % d)
  {
    var e := m / d - n / d;
    assert d * (m / d) == d * (n / d) + d * e;
    assert m == d * (m / d) + m % d && n == d * (n / d) + n % d;
    MultipleSteps(d, e);
  }

  lemma {:induction false} RoundExact(q: int, d: int)
    requires d > 0
    ensures RoundHalfEven(d * q, d) == q
  {
    NearestEven(d * q, d, q);
  }

  /** A decimal number: units / 10^places. */
  datatype Decimal = Decimal(units: int, places: nat)

  function Pow10(k: nat): (p: int)
    ensures p >= 1
  {
    if k == 0 then 1 else 10 * Pow10(k - 1)
  }

  const RATIO_ONE: int := 10000

  /** A number quantised to four places, in ten-thousandths. */
  function ToRatio(x: Decimal): int {
    RoundHalfEven(x.units * RATIO_ONE, Pow10(x.places))
  }

  /** Seller release and buyer refund in cents; the refund takes the rounding remainder. */
  function SplitAmounts(amount: int, ratio: int): (int, int) {
    var release := RoundHalfEven(amount * ratio, RATIO_ONE);
    (release, amount - release)
  }

  lemma {:induction false} ExactShareBounds(amount: int, ratio: int)
    requires amount >= 0 && 0 < ratio < RATIO_ONE
    ensures 0 <= amount * ratio <= RATIO_ONE * amount
  {
    assert amount * (RATIO_ONE - ratio) >= 0;
  }

  lemma {:induction false} ReleaseBounds(amount: int, ratio: int)
    requires amount >= 0 && 0 < ratio < RATIO_ONE
    ensures 0 <= RoundHalfEven(amount * ratio, RATIO_ONE) <= amount
  {
    ExactShareBounds(amount, ratio);
    RoundExact(0, RATIO_ONE);
    RoundExact(amount, RATIO_ONE);
    RoundMonotone(RATIO_ONE * 0, amount * ratio, RATIO_ONE);
    RoundMonotone(amount * ratio, RATIO_ONE * amount, RATIO_ONE);
  }

  /** Nothing is created or lost, neither share leaves [0, amount], and the release is within half a
      cent of the exact share. */
  lemma {:induction false} SplitConserves(amount: int, ratio: int)
    requires amount >= 0 && 0 < ratio < RATIO_ONE
    ensures var (release, refund) := SplitAmounts(amount, ratio);
            && release + refund == amount
            && 0 <= release <= amount && 0 <= refund <= amount
            && -RATIO_ONE <= 2 * (RATIO_ONE * release - amount * ratio) <= RATIO_ONE
  {
    ReleaseBounds(amount, ratio);
    NearestEven(amount * ratio, RATIO_ONE, SplitAmounts(amount, ratio).0);
  }

  /** A share in ten-thousandths is the nearest one, and the even one on a tie; powers of ten are what they
      are called. */
  lemma {:induction false} RatioIs(x: Decimal, r: int)
    ensures ToRatio(x) == r <==>
            var p := Pow10(x.places);
            && -p <= 2 * (p * r - x.units * 10000) <= p
            && (2 * (p * r - x.units * 10000) == p || 2 * (x.units * 10000 - p * r) == p ==> r % 2 == 0)
    ensures Pow10(0) == 1 && Pow10(x.places + 1) == 10 * Pow10(x.places)
  {
    NearestEven(x.units * 10000, Pow10(x.places), r);
  }

  /** A larger ratio never releases less. */
  lemma {:induction false} SplitMonotone(amount: int, r: int, s: int)
    requires amount >= 0 && r <= s
    ensures SplitAmounts(amount, r).0 <= SplitAmounts(amount, s).0
    ensures SplitAmounts(amount, r).1 >= SplitAmounts(amount, s).1
  {
    assert amount * (s - r) >= 0;
    RoundMonotone(amount * r, amount * s, RATIO_ONE);
  }

  lemma {:induction false} ReleasePositive(amount: int, exact: int)
    requires amount > 0 && 0 < exact < RATIO_ONE * amount
    ensures RoundHalfEven(exact, RATIO_ONE) > 0 <==> 2 * exact > RATIO_ONE
  {
    NearestEven(exact, RATIO_ONE, 0);
  }

  lemma {:induction false} RefundPositive(amount: int, exact: int)
    requires amount > 0 && 0 < exact < RATIO_ONE * amount
    ensures RoundHalfEven(exact, RATIO_ONE) < amount <==>
              || 2 * (RATIO_ONE * amount - exact) > RATIO_ONE
              || (2 * (RATIO_ONE * amount - exact) == RATIO_ONE && amount % 2 == 1)
  {
    NearestEven(exact, RATIO_ONE, amount);
  }

  /** When both shares are positive, which is what a split payout requires of them. */
  lemma {:induction false} SplitPositive(amount: int, ratio: int)
    requires amount > 0 && 0 < ratio < RATIO_ONE
    ensures SplitAmounts(amount, ratio).0 > 0 <==> 2 * amount * ratio > RATIO_ONE
    ensures SplitAmounts(amount, ratio).1 > 0 <==>
              || 2 * amount * (RATIO_ONE - ratio) > RATIO_ONE
              || (2 * amount * (RATIO_ONE - ratio) == RATIO_ONE && amount % 2 == 1)
  {
    ReleasePositive(amount, amount * ratio);
    RefundPositive(amount, amount * ratio);
    SplitConserves(amount, ratio);
    assert 2 * amount * ratio == 2 * (amount * ratio);
    assert 2 * amount * (RATIO_ONE - ratio) == 2 * (RATIO_ONE * amount - amount * ratio);
  }

  lemma {:induction false} ZeroRatio(x: Decimal, amount: int)
    requires x.units == 0
    ensures ToRatio(x) == 0 && SplitAmounts(amount, ToRatio(x)) == (0, amount)
  {
    RoundExact(0, Pow10(x.places));
    RoundExact(0, RATIO_ONE);
  }

  /** A share the API accepts, from 0.01 to 0.99, is never the zero that counts as absent, and stays
      strictly between zero and one when quantised. */
  lemma {:induction false} AcceptedShareIsNotZero(x: Decimal)
    requires Pow10(x.places) <= 100 * x.units <= 99 * Pow10(x.places)
    ensures x.units != 0 && 0 < ToRatio(x) < RATIO_ONE
  {
    var p := Pow10(x.places);
    RoundExact(100, p);
    RoundExact(9900, p);
    RoundMonotone(p * 100, x.units * RATIO_ONE, p);
    RoundMonotone(x.units * RATIO_ONE, p * 9900, p);
  }
}
