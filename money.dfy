/** Directional rounding of converted amounts to whole minor units. */
module Money {

  /** Math.floor: the largest integer not above x. */
  function Floor(x: real): (f: int)
    ensures f as real <= x < f as real + 1.0
  {
    x.Floor
  }

  /** Math.ceil: the smallest integer not below x. */
  function Ceil(x: real): (c: int)
    ensures c as real - 1.0 < x <= c as real
  {
    -((-x).Floor)
  }

  /** The credit (or debit) of a conversion that divides by the rate,
      rounded up: `Math.ceil(amount / rate)`. */
  function CeilDiv(amount: int, rate: real): int
    requires rate != 0.0
  {
    Ceil(amount as real / rate)
  }

  /** The credit of a conversion that multiplies by the rate, rounded down:
      `Math.floor(amount * rate)`. */
  function FloorMul(amount: int, rate: real): int {
    Floor(amount as real * rate)
  }

  /** Ceil and Floor leave whole amounts alone: a same-currency movement
      (rate 1.0) credits exactly what it debits. */
  lemma WholeAmountsUnchanged(n: int)
    ensures CeilDiv(n, 1.0) == n && FloorMul(n, 1.0) == n
  {
  }

  /** Rounding the credit up means the recipient never receives less than the
      exact conversion: the bank absorbs the fraction. */
  lemma {:induction false} CeilCreditCovers(amount: int, rate: real)
    requires rate > 0.0
    ensures CeilDiv(amount, rate) as real * rate >= amount as real
  {
    var x := amount as real / rate;
    var c := Ceil(x);
    assert x * rate == amount as real;
    assert c as real >= x;
    assert c as real * rate >= x * rate;
  }

  /** Rounding the credit down means the seller never receives more than the
      exact conversion: the seller absorbs the fraction. */
  lemma {:induction false} FloorCreditBounded(amount: int, rate: real)
    ensures FloorMul(amount, rate) as real <= amount as real * rate
  {
  }

  /** The worked figures for the two rounding directions: 100 minor units at
      rate 0.97 credit 104 when rounded up (transfer, deposit) and 97 when
      rounded down (charge); 1000 at 0.90 credits 1112 when rounded up. */
  lemma RoundingExamples()
    ensures CeilDiv(100, 0.97) == 104
    ensures FloorMul(100, 0.97) == 97
    ensures CeilDiv(1000, 0.90) == 1112
  {
    var a := Ceil(100.0 / 0.97);
    assert 103.0 < 100.0 / 0.97 < 104.0;
    var b := Ceil(1000.0 / 0.90);
    assert 1111.0 < 1000.0 / 0.90 < 1112.0;
  }
}
