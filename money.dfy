/**
 * Conversion of a decimal amount of currency to integer minor units
 * (`int(round(x * 100))`), done exactly and rounding a half to the even
 * neighbour, as Python's `round` does.
 */
module Money {
  import opened Json

  function Pow10(e: nat): (p: nat)
    ensures p >= 1
  {
    if e == 0 then 1 else 10 * Pow10(e - 1)
  }

  function Dist(a: int, b: int): nat
  {
    if a <= b then b - a else a - b
  }

  /** Multiplying by a positive factor keeps integers at least that factor apart. */
  lemma ScaleApart(a: int, b: int, p: int)
    requires a < b && p >= 1
    ensures b * p - a * p >= p
  {
    var k := b - a;
    assert b * p - a * p == k * p;
    assert k * p == (k - 1) * p + p;
    assert (k - 1) * p >= 0;
  }

  /**
   * `n / p` rounded to the nearest integer, an exact half going to the even
   * neighbour (Python's `round`).
   */
  function RoundHalfEven(n: int, p: int): (r: int)
    requires p >= 1
    ensures 2 * Dist(r * p, n) <= p
    ensures 2 * Dist(r * p, n) == p ==> r % 2 == 0
  {
    var q, rem := n / p, n % p;
    assert n == q * p + rem && 0 <= rem < p;
    assert (q + 1) * p == q * p + p;
    if 2 * rem < p then q
    else if 2 * rem > p then q + 1
    else if q % 2 == 0 then q
    else q + 1
  }

  /**
   * The two postconditions of RoundHalfEven single out its result: any
   * integer within half a unit of `n / p`, and even on a tie, is it.
   */
  lemma RoundHalfEvenUnique(n: int, p: int, r: int)
    requires p >= 1
    requires 2 * Dist(r * p, n) <= p
    requires 2 * Dist(r * p, n) == p ==> r % 2 == 0
    ensures r == RoundHalfEven(n, p)
  {
    var t := RoundHalfEven(n, p);
    if r != t {
      var lo, hi := if r < t then r else t, if r < t then t else r;
      // both lie within p/2 of n, so they are at most p apart ...
      assert 2 * Dist(lo * p, n) <= p && 2 * Dist(hi * p, n) <= p;
      ScaleApart(lo, hi, p);
      if hi - lo >= 2 {
        ScaleApart(lo + 1, hi, p);
        ScaleApart(lo, lo + 1, p);
        assert false;
      }
      // ... hence exactly p/2 away on either side, so both are even, yet adjacent
      assert false;
    }
  }

  /** The amount `d` in hundredths, rounded half to even. */
  function ToMinor(d: Decimal): (r: int)
    ensures 2 * Dist(r * Pow10(d.exponent), 100 * d.mantissa) <= Pow10(d.exponent)
    ensures 2 * Dist(r * Pow10(d.exponent), 100 * d.mantissa) == Pow10(d.exponent) ==> r % 2 == 0
  {
    RoundHalfEven(100 * d.mantissa, Pow10(d.exponent))
  }

  lemma {:induction false} Pow10Add(a: nat, b: nat)
    ensures Pow10(a + b) == Pow10(a) * Pow10(b)
  {
    if a > 0 {
      Pow10Add(a - 1, b);
      assert Pow10(a + b) == 10 * Pow10(a - 1 + b);
    }
  }

  /** An amount with at most two decimal places converts without rounding. */
  lemma ToMinorExact(d: Decimal)
    requires d.exponent <= 2
    ensures ToMinor(d) == d.mantissa * Pow10(2 - d.exponent)
  {
    var p, c := Pow10(d.exponent), d.mantissa * Pow10(2 - d.exponent);
    Pow10Add(2 - d.exponent, d.exponent);
    assert Pow10(2) == 100;
    assert 100 * d.mantissa == c * p;
    RoundHalfEvenUnique(100 * d.mantissa, p, c);
  }

  /** 19.99 is 1999 minor units. */
  lemma ToMinorOfPrice()
    ensures ToMinor(Decimal(1999, 2)) == 1999
  {
    ToMinorExact(Decimal(1999, 2));
  }

  /** A value discount of 5.5 is 550 minor units. */
  lemma ToMinorOfHalfUnit()
    ensures ToMinor(Decimal(55, 1)) == 550
  {
    ToMinorExact(Decimal(55, 1));
  }

  /** 10.005 lies halfway between 1000 and 1001 minor units and goes to the even one. */
  lemma ToMinorTieGoesEven()
    ensures ToMinor(Decimal(10005, 3)) == 1000
  {
    assert Pow10(3) == 1000;
    RoundHalfEvenUnique(1000500, 1000, 1000);
  }
}
