/** Decimal rendering of integers, as Go's `%d` prints them. */
module Decimal {

  function Digit(n: nat): char
    requires n < 10
  {
    "0123456789"[n]
  }

  function Natural(n: nat): (s: string)
    ensures s != []
  {
    if n < 10 then [Digit(n)] else Natural(n / 10) + [Digit(n % 10)]
  }

  function Text(i: int): string {
    if i < 0 then "-" + Natural(-i) else Natural(i)
  }

  /** Two naturals with the same decimal text are the same number. */
  lemma {:induction false} NaturalInjective(a: nat, b: nat)
    requires Natural(a) == Natural(b)
    ensures a == b
  {
    var s, t := Natural(a), Natural(b);
    assert s[|s| - 1] == t[|t| - 1];
    if a >= 10 && b >= 10 {
      assert s[..|s| - 1] == Natural(a / 10) && t[..|t| - 1] == Natural(b / 10);
      NaturalInjective(a / 10, b / 10);
    }
  }

  /** A number below 10^k takes at most k digits; stated for the width of a 64-bit counter. */
  lemma {:induction false} NaturalLength(n: nat, bound: nat, k: nat)
    requires k >= 1 && n < bound && bound <= Power10(k)
    ensures |Natural(n)| <= k
    decreases k
  {
    if n >= 10 {
      assert k > 1;
      NaturalLength(n / 10, Power10(k - 1), k - 1);
    }
  }

  function Power10(k: nat): nat {
    if k == 0 then 1 else 10 * Power10(k - 1)
  }
}
