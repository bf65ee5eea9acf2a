/** Python's round(): to the nearest integer, halves to the even one. */
module Rounding {

  function Round(x: real): int {
    var f := x.Floor;
    var rest := x - f as real;
    if rest < 0.5 || (rest == 0.5 && f % 2 == 0) then f else f + 1
  }

  lemma RoundIsNearest(x: real)
    ensures -0.5 <= Round(x) as real - x <= 0.5
  {
  }

  lemma RoundOfWhole(n: int)
    ensures Round(n as real) == n
  {
  }

  lemma RoundIsMonotone(x: real, y: real)
    requires x <= y
    ensures Round(x) <= Round(y)
  {
  }

  /** What rounding takes off. */
  function Rest(x: real): real {
    x - Round(x) as real
  }

  /** An integer survives a disturbance of less than a half, and an even one a half. */
  lemma RoundBackIff(n: int, e: real)
    ensures Round(n as real + e) == n <==> -0.5 < e < 0.5 || ((e == 0.5 || e == -0.5) && n % 2 == 0)
  {
  }
}
