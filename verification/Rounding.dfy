/** Rounding to the nearest integer, and facts about quotients. */
module Rounding {

  /** How ties fall: whether the half above an integer goes up. The source rounds binary floats, where a decimal half
      may lie on either side of the value meant; the results below hold however ties fall. */
  type Ties = int -> bool

  function RoundBy(ties: Ties, x: real): int {
    var f := x.Floor;
    var d := x - f as real;
    if d < 0.5 || (d == 0.5 && !ties(f)) then f else f + 1
  }

  lemma RoundMonotone(ties: Ties, x: real, y: real)
    requires x <= y
    ensures RoundBy(ties, x) <= RoundBy(ties, y)
  {
  }

  /** More than one unit apart, two values never round alike. */
  lemma RoundSeparates(ties: Ties, x: real, y: real)
    requires x > y + 1.0
    ensures RoundBy(ties, x) > RoundBy(ties, y)
  {
  }

  /** x rounds to m or more exactly when it lies past the half below m, or on it and the half goes up. */
  lemma RoundAtLeast(ties: Ties, x: real, m: int)
    ensures RoundBy(ties, x) >= m <==> x > m as real - 0.5 || (x == m as real - 0.5 && ties(m - 1))
  {
  }

  // ---- quotients --------------------------------------------------------------------------

  lemma DivCompare(a: real, t: real, c: real)
    requires t > 0.0
    ensures a / t > c <==> a > c * t
    ensures a / t == c <==> a == c * t
  {
    var x := a / t;
    assert x * t == a;
    if x > c {
      TimesStrict(c, x, t);
    } else {
      TimesMonotone(x, c, t);
    }
    if x < c { TimesStrict(x, c, t); }
  }

  lemma NotNegative(a: real, t: real)
    requires a >= 0.0 && t > 0.0
    ensures a / t >= 0.0
  {
  }

  lemma TimesMonotone(x: real, y: real, t: real)
    requires x <= y && t > 0.0
    ensures x * t <= y * t
  {
  }

  lemma TimesStrict(x: real, y: real, t: real)
    requires x < y && t > 0.0
    ensures x * t < y * t
  {
  }

  lemma ReciprocalDecreases(x: real, y: real)
    requires 0.0 < x <= y
    ensures 0.0 < 1.0 / y <= 1.0 / x
  {
  }
}
