/**
 * Linear facts about integer division by the fixed moduli of the calendar
 * and the cycles.  Each lemma pins x / k and x % k once x is written as
 * r + k * t with 0 <= r < k, which keeps the solver away from nonlinear
 * reasoning about a symbolic divisor.
 */
module Arith {

  lemma DivMod60(x: int)
    ensures x == 60 * (x / 60) + x % 60 && 0 <= x % 60 < 60
  {
  }

  lemma HalfParts(s: int)
    ensures s == 2 * (s / 2) + s % 2
  {
  }

  lemma ModOfOffset2(x: int, r: int, t: int)
    requires x == r + 2 * t && 0 <= r < 2
    ensures x % 2 == r
  {
  }

  lemma ModOfOffset4(x: int, r: int, t: int)
    requires x == r + 4 * t && 0 <= r < 4
    ensures x % 4 == r && x / 4 == t
  {
  }

  lemma ModOfOffset5(x: int, r: int, t: int)
    requires x == r + 5 * t && 0 <= r < 5
    ensures x % 5 == r
  {
  }

  lemma ModOfOffset10(x: int, r: int, t: int)
    requires x == r + 10 * t && 0 <= r < 10
    ensures x % 10 == r
  {
  }

  lemma ModOfOffset12(x: int, r: int, t: int)
    requires x == r + 12 * t && 0 <= r < 12
    ensures x % 12 == r
  {
  }

  lemma ModOfOffset60(x: int, r: int, t: int)
    requires x == r + 60 * t && 0 <= r < 60
    ensures x % 60 == r
  {
  }

  lemma ModOfOffset100(x: int, r: int, t: int)
    requires x == r + 100 * t && 0 <= r < 100
    ensures x % 100 == r && x / 100 == t
  {
  }

  lemma ModOfOffset400(x: int, r: int, t: int)
    requires x == r + 400 * t && 0 <= r < 400
    ensures x % 400 == r && x / 400 == t
  {
  }

  /** Numbers less than twelve apart have different remainders mod 12. */
  lemma ModDiffers12(x: int, y: int)
    requires 0 < y - x < 12
    ensures x % 12 != y % 12
  {
    assert x == 12 * (x / 12) + x % 12 && y == 12 * (y / 12) + y % 12;
  }
}
