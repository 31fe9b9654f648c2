/** Swift's integer division and remainder on `Int`.
    Swift truncates toward zero (`-7 / 2 == -3`, `-7 % 3 == -1`), whereas Dafny's
    `/` and `%` are Euclidean; the two agree on non-negative dividends. Only
    positive divisors occur in the modelled code (the constant 2 and a seat count). */
module SwiftInt {

  /** `a / b` as Swift computes it, for a positive divisor. */
  function Quot(a: int, b: int): (q: int)
    requires b > 0
    ensures a >= 0 ==> q == a / b
  {
    if a >= 0 then a / b else -((-a) / b)
  }

  /** `a % b` as Swift computes it, for a positive divisor: the sign follows the dividend. */
  function Rem(a: int, b: int): (r: int)
    requires b > 0
    ensures a >= 0 ==> r == a % b && 0 <= r < b
    ensures a < 0 ==> -b < r <= 0
  {
    if a >= 0 then a % b else -((-a) % b)
  }

  /** Truncation rounds toward zero: negating the dividend negates the quotient. */
  lemma QuotOdd(a: int, b: int)
    requires b > 0
    ensures Quot(-a, b) == -Quot(a, b)
  {
  }

  /** Truncating division and remainder reassemble the dividend, as in Swift. */
  lemma QuotRem(a: int, b: int)
    requires b > 0
    ensures a == b * Quot(a, b) + Rem(a, b)
  {
    if a < 0 {
      assert -a == b * ((-a) / b) + (-a) % b;
    }
  }
}
