/** The IEEE 754 double nearest to a real number, ties going to the even one (IEEE 754-2019, section 4.3.1). */
module Doubles {
  import opened Options

  const TWO52: real := 4503599627370496.0
  const TWO53: real := 9007199254740992.0

  /** Up to here every whole number is a double. */
  const MAX_EXACT: nat := 9007199254740992

  /** A double is a whole number up to 2^53 times a power of two whose exponent is in this range. */
  const MIN_EXPONENT: int := -1074
  const MAX_EXPONENT: int := 971

  function HalfEven(x: real): (n: int)
    ensures -0.5 <= n as real - x <= 0.5
    ensures n as real - x == 0.5 || n as real - x == -0.5 ==> n % 2 == 0
  {
    var n := x.Floor;
    var rest := x - n as real;
    if rest < 0.5 || (rest == 0.5 && n % 2 == 0) then n else n + 1
  }

  lemma HalvingLowers(x: real)
    requires x > 0.0
    ensures TWO53 / (2.0 * x) == TWO53 / x / 2.0
  {
    assert TWO53 / (2.0 * x) * (2.0 * x) == TWO53;
    assert TWO53 / x * x == TWO53;
    var a, b := TWO53 / (2.0 * x), TWO53 / x / 2.0;
    assert (a - b) * (2.0 * x) == 0.0;
  }

  /** How far x is from [2^52, 2^53). */
  function Steps(x: real): int
    requires x > 0.0
  {
    if x >= TWO53 then x.Floor else if x >= TWO52 then 0 else (TWO53 / x).Floor
  }

  lemma StepsFall(x: real)
    requires x > 0.0
    ensures x >= TWO53 ==> 0 <= Steps(x / 2.0) < Steps(x)
    ensures x < TWO52 ==> 0 <= Steps(2.0 * x) < Steps(x)
  {
    if x < TWO52 {
      HalvingLowers(x);
      assert TWO53 / x * x == TWO53;
      assert TWO53 / x > 2.0;
    }
  }

  function Times(factor: real, d: Option<real>): Option<real> {
    match d
    case Some(x) => Some(factor * x)
    case None => None
  }

  /** x, in units of 2^e, scaled until it has 53 binary digits before the point or the unit cannot get smaller, then
      rounded to a whole number and scaled back. None if the unit gets too large. */
  function Scaled(x: real, e: int): Option<real>
    requires x > 0.0
    decreases Steps(x)
  {
    StepsFall(x);
    if x >= TWO53 then Times(2.0, Scaled(x / 2.0, e + 1))
    else if x >= TWO52 || e <= MIN_EXPONENT then
      if e < MAX_EXPONENT || (e == MAX_EXPONENT && HalfEven(x) < MAX_EXACT) then Some(HalfEven(x) as real) else None
    else Times(0.5, Scaled(2.0 * x, e - 1))
  }

  /** None for what is too large for a double. */
  function Nearest(x: real): Option<real>
    requires x >= 0.0
  {
    if x == 0.0 then Some(0.0) else Scaled(x, 0)
  }

  /** 2^(52 - k), which k doublings bring to 2^52. */
  function Threshold(k: nat): real {
    if k == 0 then TWO52 else Threshold(k - 1) / 2.0
  }

  lemma {:induction false} ScaledIsClose(x: real, e: int, k: nat)
    requires x > 0.0 && x >= Threshold(k) && e - k >= MIN_EXPONENT && Scaled(x, e).Some?
    ensures -x <= TWO53 * (Scaled(x, e).value - x) <= x
    decreases Steps(x)
  {
    StepsFall(x);
    if x >= TWO53 {
      ScaledIsClose(x / 2.0, e + 1, 0);
    } else if x < TWO52 {
      ScaledIsClose(2.0 * x, e - 1, k - 1);
    }
  }

  /** Down to 2^-1022, where the unit gets no smaller, the error is at most one part in 2^53. */
  lemma NearestIsClose(x: real, k: nat)
    requires x > 0.0 && x >= Threshold(k) && k <= -MIN_EXPONENT && Nearest(x).Some?
    ensures -x <= TWO53 * (Nearest(x).value - x) <= x
  {
    ScaledIsClose(x, 0, k);
  }

  lemma {:induction false} WholeStays(n: nat, e: int)
    requires 0 < n < MAX_EXACT && e < MAX_EXPONENT
    ensures Scaled(n as real, e) == Some(n as real)
    decreases MAX_EXACT - n
  {
    if 2 * n < MAX_EXACT && e > MIN_EXPONENT {
      assert 2.0 * n as real == (2 * n) as real;
      WholeStays(2 * n, e - 1);
    } else {
      assert (n as real).Floor == n;
    }
  }

  /** Whole numbers up to 2^53 are not changed. */
  lemma WholeIsExact(n: nat)
    requires n <= MAX_EXACT
    ensures Nearest(n as real) == Some(n as real)
  {
    if n == MAX_EXACT {
      WholeStays(n / 2, 1);
    } else if n > 0 {
      WholeStays(n, 0);
    }
  }
}
